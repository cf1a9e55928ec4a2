# Tendem MCP tools: a Dafny model

The Tendem MCP server exposes tools that create, poll, approve, cancel and
fetch results for tasks done by human experts behind the remote Tendem
service. This project models the deterministic core of that server:

- **Entity model** (`Models.dfy`, from `src/tendem_mcp/models.py`):
  - the closed six-value task status enumeration;
  - timestamps as wall-clock fields plus an optional zone, and the
    `UtcDatetime` rule. A naive datetime gets the UTC zone. A zoned one is
    left alone;
  - exact decimal prices;
  - the task, approval, canvas and paginated records;
  - how replies are validated into those records. Required fields,
    `approval_request_info` optional and absent by default, and every
    timestamp made timezone-aware.
- **Remote client** (`Remote.dfy`): the `TendemClient` as an oracle. Its
  reply to each request is any function of the request and of the round in
  which it is made, so a task's status may change between two calls. The
  reply is then validated into the entity model. A ghost call log records
  every operation and its arguments, in order.
- **Tool dispatcher** (`Server.dfy`, from `src/tendem_mcp/server.py`): the
  eight tools as methods over the client. Every tool that takes a `task_id`
  parses it as a UUID before any client operation and fails with no client
  call when it does not parse. `get_task_result` answers with a
  sentinel, or with the first canvas's content. `get_all_task_results`
  projects the page. approve, cancel and download build confirmation
  strings.
- **Text helpers** (`Text.dfy`): decimal notation of the byte count and
  reading it back. `Wrappers.dfy` holds `Option` and `Result`.

Each message builder has a reader that recovers what the message carries:
- the status, from the "not completed" sentinel;
- the task id, verbatim, from approve/cancel confirmations;
- the rendered path and the byte count, from the artifact confirmation.

Round-trip lemmas prove these readers are exact.

The `get_task_result` outcome is modelled as a tagged union: not completed
(with the status), no results, or content. "No results" holds exactly when
the task is COMPLETED and the first page is empty. This "iff" holds for the
tag, not for the returned string: canvas content is returned verbatim, so it
can equal a sentinel's text (`Server.ContentCanMimicSentinel`).

The model follows the code on these points:
- The code does not inspect timestamp text for `+`/`Z` markers. It applies
  `replace(tzinfo=v.tzinfo or UTC)` to the parsed datetime.
- The code computes no `pages` value and checks no page-size range. The four
  pagination fields are copied from the client's reply.
- `download_artifact` passes `artifact_id` to the client as a raw string,
  not parsed as a UUID.

## Model

| member | source | states |
|---|---|---|
| `Models.StatusFromValue` | src/tendem_mcp/models.py:19-27 | a string is accepted as a status exactly when it is the value of one of the six members, and the status returned has that value |
| `Models.StatusEnumeration` | src/tendem_mcp/models.py:19-27 | the enumeration has exactly six pairwise distinct members, every status is among them, and each is recovered from its value |
| `Models.StatusValueInjective` | src/tendem_mcp/models.py:22-27 | two statuses with the same string value are the same status |
| `Models.ToUtc` | src/tendem_mcp/models.py:13-16 | the result is always timezone-aware with the same wall-clock fields; a naive input gets zone UTC; a zoned input is returned unchanged |
| `Models.ToUtcIdempotent` | src/tendem_mcp/models.py:15 | applying the transform twice equals applying it once |
| `Models.ToUtcOnlyZone` | src/tendem_mcp/models.py:15 | the transform changes the zone component and nothing else |
| `Models.ValidateUtcDatetime` | src/tendem_mcp/models.py:13-16 | a `UtcDatetime` field validates exactly when the text parses as a datetime; the value is the `ToUtc` transform of the parsed datetime: zone UTC when that was naive, the parsed value itself when zoned |
| `Models.ValidateApprovalRequestInfo` | src/tendem_mcp/models.py:30-34 | valid exactly when the price parses as a decimal and the timestamp as a datetime; fields are the parsed values and the timestamp is aware |
| `Models.ValidateTaskView` | src/tendem_mcp/models.py:37-47 | valid exactly when id, name, status and timestamp are present and parse (approval info, when present, valid too); fields are the parsed values; approval info is absent exactly when missing from the input, and when present it is the raw info validated (the quoted price is the parsed price); all timestamps aware |
| `Models.ValidateCanvasView` | src/tendem_mcp/models.py:60-66 | valid exactly when both ids, the timestamp and the content are present and parse; fields are the parsed values and the timestamp is aware |
| `Models.ValidateAll` | src/tendem_mcp/models.py:53 | a sequence field validates exactly when every element does, keeping length and order element by element |
| `Models.ValidateTaskListView` | src/tendem_mcp/models.py:50-57 | valid exactly when all five fields are present and every raw task validates; then it holds each raw task validated, in order, and the four pagination fields as given |
| `Models.ValidateTaskResultsView` | src/tendem_mcp/models.py:69-76 | valid exactly when all five fields are present and every raw canvas validates; then it holds each raw canvas validated, in order, the four pagination fields as given, and only aware timestamps |
| `Models.ToCanvasToolResult` | src/tendem_mcp/models.py:79-83 | the tool result keeps the canvas's content and wall clock; its timestamp is the canvas's own when that was aware, and gets zone UTC when it was naive |
| `Models.CanvasToolResultForgetsIds` | src/tendem_mcp/models.py:79-83 | canvases differing only in `canvas_id`/`version_id` give the same tool result |
| `Remote.Client.ListTasks` | src/tendem_mcp/server.py:46 | one round trip, logged as a list-tasks call with the page arguments; returns the validated reply |
| `Remote.Client.CreateTask` | src/tendem_mcp/server.py:97 | one round trip, logged as a create-task call with the text; returns the validated reply |
| `Remote.Client.GetTask` | src/tendem_mcp/server.py:113 | one round trip, logged as a get-task call with the parsed id; returns the validated reply |
| `Remote.Client.ApproveTask` | src/tendem_mcp/server.py:129 | one round trip, logged as an approve call with the parsed id; succeeds exactly when the service reports no error |
| `Remote.Client.CancelTask` | src/tendem_mcp/server.py:145 | one round trip, logged as a cancel call with the parsed id; succeeds exactly when the service reports no error |
| `Remote.Client.GetTaskResults` | src/tendem_mcp/server.py:163 | one round trip, logged with the parsed id and page arguments; returns the validated reply |
| `Remote.Client.GetArtifact` | src/tendem_mcp/server.py:215 | one round trip, logged with the parsed task id and the raw artifact id; returns the service's bytes |
| `Remote.Client.TaskAt` | src/tendem_mcp/server.py:160 | a task the client returns has only timezone-aware timestamps |
| `Remote.Client.TaskResultsAt` | src/tendem_mcp/server.py:163 | a results page the client returns has only timezone-aware canvas timestamps |
| `Remote.Received` | src/tendem_mcp/server.py:185 | a refused request is a client failure; an answered one succeeds exactly when its reply validates, with the validated value |
| `Server.ListTasks` | src/tendem_mcp/server.py:35-46 | exactly one list-tasks call with the given page arguments; the client's page, or its failure, is returned unchanged |
| `Server.CreateTask` | src/tendem_mcp/server.py:49-97 | exactly one create-task call with the given text; the created task, or the failure, is returned unchanged |
| `Server.GetTask` | src/tendem_mcp/server.py:100-113 | an id that is not a UUID fails with no client call; otherwise exactly one get-task call with the parsed id, returning the task (aware timestamps) or the failure |
| `Server.ApproveTask` | src/tendem_mcp/server.py:116-130 | an id that is not a UUID fails with no client call; otherwise one approve call; "Task <task_id> approved", with the id as written, is returned only when that call succeeds |
| `Server.CancelTask` | src/tendem_mcp/server.py:133-146 | an id that is not a UUID fails with no client call; otherwise one cancel call; "Task <task_id> cancelled" is returned only when that call succeeds |
| `Server.GetTaskResult` | src/tendem_mcp/server.py:149-166 | bad id: failure, no call. Otherwise get-task first. Not COMPLETED: the "not completed" sentinel with the status, and no results call. COMPLETED: then exactly one results call with page 0 and size 1, answering with the first canvas's content or the "no results" sentinel |
| `Server.GetAllTaskResults` | src/tendem_mcp/server.py:169-195 | bad id: failure, no call; otherwise one results call with the given page arguments, answering element i with canvas i's timestamp and content, and the page's four pagination fields |
| `Server.DownloadArtifact` | src/tendem_mcp/server.py:198-219 | bad task id: failure, no call; otherwise one artifact call with the parsed task id and the raw artifact id; on success the message names the path as pathlib renders it and the number of bytes fetched |
| `Server.TaskResultOutcome.Text` | src/tendem_mcp/server.py:161-166 | both sentinels start with "Error: "; the "not completed" text is its prefix, the status value and ")"; "no results" is the fixed text; content is returned verbatim |
| `Server.Confirmation` | src/tendem_mcp/server.py:130 | the confirmation is "Task ", then the task id exactly as written, then the suffix (" approved" at line 130, " cancelled" at line 146) |
| `Server.ArtifactSaved` | src/tendem_mcp/server.py:219 | the message is "Artifact saved to ", the rendered path, " (", the decimal byte count and " bytes)", each at its stated position |
| `Remote.Acknowledged` | src/tendem_mcp/server.py:129 | an approve or cancel call succeeds exactly when the service reports no error, and otherwise fails with that error |
| `Server.FirstResult` | src/tendem_mcp/server.py:164-166 | for a completed task: "no results" exactly when the page is empty, otherwise the content of canvas 0 unchanged |
| `Server.StatusOfNotCompleted` | src/tendem_mcp/server.py:162 | a message it accepts is exactly the "not completed" sentinel of the status it returns |
| `Server.NotCompletedNamesStatus` | src/tendem_mcp/server.py:162 | the "not completed" sentinel gives back the task's status |
| `Server.SentinelsDistinct` | src/tendem_mcp/server.py:162-165 | the two sentinels never coincide, and the "not completed" sentinels of distinct statuses differ |
| `Server.ContentCanMimicSentinel` | src/tendem_mcp/server.py:165-166 | a completed task whose first canvas holds the "no results" text answers with content that reads as that sentinel |
| `Server.ConfirmedTaskId` | src/tendem_mcp/server.py:130 | a message it accepts is exactly the confirmation for the task id it returns |
| `Server.ConfirmationNamesTask` | src/tendem_mcp/server.py:130 | a confirmation gives back the task id string exactly as the caller wrote it |
| `Server.ApprovedIsNotCancelled` | src/tendem_mcp/server.py:130 | no approval confirmation equals a cancellation confirmation, whatever the ids |
| `Server.SavedArtifact` | src/tendem_mcp/server.py:219 | a message it accepts is exactly the artifact confirmation for the path and byte count it returns |
| `Server.ArtifactSavedReports` | src/tendem_mcp/server.py:219 | the artifact confirmation gives back the rendered path and the exact byte count |
| `Server.ToolResults` | src/tendem_mcp/server.py:187-190 | same length and order as the canvases; element i is canvas i's tool result: its content, and its timestamp (given zone UTC if naive); no ids are kept |
| `Server.AllTaskResults` | src/tendem_mcp/server.py:186-195 | the results are the projected canvases and `total`, `page_number`, `page_size`, `pages` are copied unchanged |
| `Server.ToolResultsForgetIds` | src/tendem_mcp/server.py:187-190 | pages that agree on canvas timestamps and content give the same results, whatever their ids |
| `Text.DecimalString` | src/tendem_mcp/server.py:219 | the byte count is written as digits only, never empty, with a leading zero only for 0 |
| `Text.DecimalStringValue` | src/tendem_mcp/server.py:219 | reading the written byte count back gives the count |

## Left out

- `get_client` (src/tendem_mcp/server.py:24-32) is not modelled. Its job is environment configuration and a process-wide memo. Each tool calls it before parsing its id, so a missing API key fails before an invalid id would. The tools here take an already-built client.
- The `TendemClient` implementation is not part of this model. HTTP, authentication and retries are replaced by the `Service` oracle. Its error kinds are one opaque `RemoteError`.
- The text parsers (`UUID(...)`, pydantic's datetime and `Decimal` parsing) are library code. They are abstract partial functions in `Models.Parsers`. The one abstract `uuid` stands for both `uuid.UUID(task_id)` in the tools and pydantic's `UUID` field validation; the two need not accept the same texts, and no property here depends on their agreeing. pydantic's lax coercions of non-text input are not modelled: raw fields are text or integers.
- Server.DownloadArtifact: creating the parent directories and writing the bytes are not modelled, and neither are their failures. The model gives only the message for a successful write. `str(Path(path))`, which normalises the path text without resolving it, is the abstract `render` parameter.
- FastMCP tool registration, the async machinery and the docstring guidance text are not modelled. Each tool runs its awaits in sequence, which the call log records.
- `get_task_result` calls `UUID(task_id)` twice, at lines 160 and 163. Both parse the same text, so the model parses once and reuses the id.
- Zones are fixed UTC offsets. Named zones and the datetime `fold` attribute are not represented. The UTC rule never inspects the zone. Calendar ranges of the wall-clock fields belong to the parser.
- Decimal prices are finite (coefficient and exponent). NaN and infinity are not represented.
- Task status transitions happen inside the remote service and are not modelled. Neither is `pages = ceil(total / page_size)`, nor page-size ranges. The code computes and enforces none of these.
- `scripts/gen_manifest_tools.py` (manifest I/O) and `mcpb/src/server.py` (entry-point shim) are not modelled.
