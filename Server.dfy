/**
 * The MCP tools of the Tendem server. Each tool parses its textual task id into
 * a UUID before any client operation, calls the remote client, and shapes the
 * reply: confirmation strings for approve/cancel/download, the latest canvas's
 * content or a sentinel string for `get_task_result`, and a projection of the
 * results page for `get_all_task_results`.
 */
module Server {
  import opened Wrappers
  import opened Text
  import opened Models
  import opened Remote

  /** Why a tool call failed: its task id is not a UUID, or the client operation failed. */
  datatype ToolError = InvalidUuid(text: string) | ClientFailed(error: ClientError)

  // ---------------------------------------------------------------------------
  // get_task_result: a union of the content and two named sentinels

  const ErrorPrefix: string := "Error: "
  const NotCompletedPrefix: string := ErrorPrefix + "Task is not completed (status: "
  const NotCompletedSuffix: string := ")"
  const NoResultsMessage: string := ErrorPrefix + "No results found for completed task"

  datatype TaskResultOutcome = NotCompleted(status: Status) | NoResults | Content(text: string)
  {
    /** The plain-text tool outcome: both sentinels start with "Error: ", content is verbatim. */
    function Text(): (r: string)
      ensures NotCompleted? ==>
        |r| == |NotCompletedPrefix| + |status.Value()| + |NotCompletedSuffix| &&
        r[..|NotCompletedPrefix|] == NotCompletedPrefix &&
        r[|NotCompletedPrefix|..|r| - |NotCompletedSuffix|] == status.Value() &&
        r[|r| - |NotCompletedSuffix|..] == NotCompletedSuffix
      ensures !Content? ==> |ErrorPrefix| < |r| && r[..|ErrorPrefix|] == ErrorPrefix
      ensures NoResults? ==> r == NoResultsMessage
      ensures Content? ==> r == text
    {
      match this
      case NotCompleted(s) =>
        var m := NotCompletedPrefix + s.Value() + NotCompletedSuffix;
        assert m[..|ErrorPrefix|] == NotCompletedPrefix[..|ErrorPrefix|] == ErrorPrefix;
        m
      case NoResults =>
        assert NoResultsMessage[..|ErrorPrefix|] == ErrorPrefix;
        NoResultsMessage
      case Content(t) => t
    }
  }

  /** The outcome for a completed task, from the first page (of size one) of its canvases. */
  function FirstResult(canvases: seq<CanvasView>): (r: TaskResultOutcome)
    ensures !r.NotCompleted?
    ensures r.NoResults? <==> |canvases| == 0
    ensures r.Content? ==> r.text == canvases[0].content
  {
    if |canvases| == 0 then NoResults else Content(canvases[0].content)
  }

  /** Reads the status back out of a "not completed" sentinel. */
  function StatusOfNotCompleted(m: string): (r: Option<Status>)
    ensures r.Some? ==> NotCompleted(r.value).Text() == m
  {
    match StripPrefix(m, NotCompletedPrefix)
    case None => None
    case Some(rest) =>
      match StripSuffix(rest, NotCompletedSuffix)
      case None => None
      case Some(value) => StatusFromValue(value)
  }

  /** The "not completed" sentinel names the task's status, which can be read back from it. */
  lemma NotCompletedNamesStatus(s: Status)
    ensures StatusOfNotCompleted(NotCompleted(s).Text()) == Some(s)
  {
  }

  /** The two sentinels never coincide, and sentinels for distinct statuses differ. */
  lemma SentinelsDistinct(s: Status, u: Status)
    ensures NotCompleted(s).Text() != NoResults.Text()
    ensures NotCompleted(s).Text() == NotCompleted(u).Text() ==> s == u
  {
  }

  /** Canvas content is returned verbatim, so it can read exactly like a sentinel. */
  lemma ContentCanMimicSentinel(c: CanvasView)
    requires c.content == NoResultsMessage
    ensures FirstResult([c]).Content? && FirstResult([c]).Text() == NoResults.Text()
  {
  }

  // ---------------------------------------------------------------------------
  // Confirmation messages of approve_task and cancel_task

  const ConfirmationPrefix: string := "Task "
  const ApprovedSuffix: string := " approved"
  const CancelledSuffix: string := " cancelled"

  /** "Task <task_id> approved" or "Task <task_id> cancelled", with the task id as the caller wrote it. */
  function Confirmation(taskId: string, suffix: string): (r: string)
    ensures |r| == |ConfirmationPrefix| + |taskId| + |suffix|
    ensures r[..|ConfirmationPrefix|] == ConfirmationPrefix
    ensures r[|ConfirmationPrefix|..|ConfirmationPrefix| + |taskId|] == taskId
    ensures r[|r| - |suffix|..] == suffix
  {
    ConfirmationPrefix + taskId + suffix
  }

  /** Reads the task id back out of a confirmation with the given suffix. */
  function ConfirmedTaskId(m: string, suffix: string): (r: Option<string>)
    ensures r.Some? ==> Confirmation(r.value, suffix) == m
  {
    match StripPrefix(m, ConfirmationPrefix)
    case None => None
    case Some(rest) => StripSuffix(rest, suffix)
  }

  /** A confirmation carries the task id verbatim: it is read back unchanged. */
  lemma ConfirmationNamesTask(taskId: string, suffix: string)
    ensures ConfirmedTaskId(Confirmation(taskId, suffix), suffix) == Some(taskId)
  {
  }

  /** An approval confirmation never reads as a cancellation, whatever the two task ids. */
  lemma {:induction false} ApprovedIsNotCancelled(a: string, b: string)
    ensures Confirmation(a, ApprovedSuffix) != Confirmation(b, CancelledSuffix)
  {
    var m, k := Confirmation(a, ApprovedSuffix), Confirmation(b, CancelledSuffix);
    assert m[|m| - 3] == 'v';
    assert k[|k| - 3] == 'l';
  }

  // ---------------------------------------------------------------------------
  // Confirmation message of download_artifact

  const SavedPrefix: string := "Artifact saved to "
  const SizeOpen: string := " ("
  const SizeSuffix: string := " bytes)"

  /** "Artifact saved to <path> (<n> bytes)". */
  function ArtifactSaved(path: string, size: nat): (r: string)
    ensures |r| == |SavedPrefix| + |path| + |SizeOpen| + |DecimalString(size)| + |SizeSuffix|
    ensures r[..|SavedPrefix|] == SavedPrefix
    ensures r[|SavedPrefix|..|SavedPrefix| + |path|] == path
    ensures r[|SavedPrefix| + |path|..|SavedPrefix| + |path| + |SizeOpen|] == SizeOpen
    ensures r[|r| - |SizeSuffix| - |DecimalString(size)|..|r| - |SizeSuffix|] == DecimalString(size)
    ensures r[|r| - |SizeSuffix|..] == SizeSuffix
  {
    SavedPrefix + path + SizeOpen + DecimalString(size) + SizeSuffix
  }

  /** Reads the path and the byte count back out of an artifact confirmation. */
  function SavedArtifact(m: string): (r: Option<(string, nat)>)
    ensures r.Some? ==> ArtifactSaved(r.value.0, r.value.1) == m
  {
    match StripSuffix(m, SizeSuffix)
    case None => None
    case Some(body) =>
      var digits := TrailingDigits(body);
      if digits == [] || (|digits| > 1 && digits[0] == '0') then None
      else
        assert body == body[..|body| - |digits|] + digits;
        match StripSuffix(body[..|body| - |digits|], SizeOpen)
        case None => None
        case Some(head) =>
          match StripPrefix(head, SavedPrefix)
          case None => None
          case Some(path) =>
            CanonicalDigits(digits);
            Some((path, DigitsValue(digits)))
  }

  /** A string of digits without a superfluous leading zero is the decimal notation of its value. */
  lemma {:induction false} CanonicalDigits(d: string)
    requires |d| >= 1 && AllDigits(d)
    requires |d| > 1 ==> d[0] != '0'
    ensures DecimalString(DigitsValue(d)) == d
    decreases |d|
  {
    var init, last := d[..|d| - 1], d[|d| - 1];
    if |d| > 1 {
      assert init[0] == d[0];
      CanonicalDigits(init);
      var v := DigitsValue(init);
      assert v > 0 by { assert DecimalString(v)[0] == d[0] != '0'; }
      assert DigitsValue(d) / 10 == v && DigitsValue(d) % 10 == last as int - '0' as int;
      assert d == init + [last];
    }
  }

  /** The artifact confirmation reports the rendered path and the exact byte count. */
  lemma {:induction false} ArtifactSavedReports(path: string, size: nat)
    ensures SavedArtifact(ArtifactSaved(path, size)) == Some((path, size))
  {
    var digits := DecimalString(size);
    var head := SavedPrefix + path + SizeOpen;
    var body := head + digits;
    assert ArtifactSaved(path, size) == body + SizeSuffix;
    StripSuffixOf(body, SizeSuffix);
    TrailingDigitsAfter(head, digits);
    assert body[..|body| - |digits|] == head;
    StripSuffixOf(SavedPrefix + path, SizeOpen);
    StripPrefixOf(SavedPrefix, path);
    DecimalStringValue(size);
  }

  // ---------------------------------------------------------------------------
  // get_all_task_results: projection of a results page

  /** The canvases as tool results, in the same order, without their identifiers. */
  function ToolResults(canvases: seq<CanvasView>): (r: seq<CanvasToolResult>)
    ensures |r| == |canvases|
    ensures forall i :: 0 <= i < |canvases| ==> r[i] == ToCanvasToolResult(canvases[i])
    ensures forall i :: 0 <= i < |canvases| ==>
      r[i].content == canvases[i].content && SameWallClock(r[i].createdAt, canvases[i].createdAt)
    ensures CanvasesAware(canvases) ==> forall i :: 0 <= i < |canvases| ==>
      r[i] == CanvasToolResult(canvases[i].createdAt, canvases[i].content)
  {
    if canvases == [] then [] else [ToCanvasToolResult(canvases[0])] + ToolResults(canvases[1..])
  }

  /** The tool's reply: the projected canvases and the page's four pagination fields, copied. */
  function AllTaskResults(page: TaskResultsView): (r: AllTaskResultsToolResult)
    ensures r.results == ToolResults(page.canvases)
    ensures r.total == page.total && r.pageNumber == page.pageNumber
    ensures r.pageSize == page.pageSize && r.pages == page.pages
  {
    AllTaskResultsToolResult(ToolResults(page.canvases), page.total, page.pageNumber, page.pageSize, page.pages)
  }

  /** Two pages whose canvases agree on timestamps and content give the same tool results. */
  lemma ToolResultsForgetIds(a: seq<CanvasView>, b: seq<CanvasView>)
    requires |a| == |b|
    requires forall i :: 0 <= i < |a| ==> a[i].createdAt == b[i].createdAt && a[i].content == b[i].content
    ensures ToolResults(a) == ToolResults(b)
  {
  }

  // ---------------------------------------------------------------------------
  // The tools

  method ListTasks(client: Client, pageNumber: int, pageSize: int) returns (r: Result<TaskListView, ToolError>)
    requires client.Valid()
    modifies client
    ensures client.Valid() && client.log == old(client.log) + [ListTasksCall(pageNumber, pageSize)]
    ensures match client.TaskListAt(old(client.round), pageNumber, pageSize)
      case Failure(e) => r == Failure(ClientFailed(e))
      case Success(page) => r == Success(page)
  {
    var reply := client.ListTasks(pageNumber, pageSize);
    match reply
    case Failure(e) => r := Failure(ClientFailed(e));
    case Success(page) => r := Success(page);
  }

  method CreateTask(client: Client, text: string) returns (r: Result<TaskView, ToolError>)
    requires client.Valid()
    modifies client
    ensures client.Valid() && client.log == old(client.log) + [CreateTaskCall(text)]
    ensures match client.CreatedTaskAt(old(client.round), text)
      case Failure(e) => r == Failure(ClientFailed(e))
      case Success(task) => r == Success(task)
  {
    var reply := client.CreateTask(text);
    match reply
    case Failure(e) => r := Failure(ClientFailed(e));
    case Success(task) => r := Success(task);
  }

  method GetTask(client: Client, taskId: string) returns (r: Result<TaskView, ToolError>)
    requires client.Valid()
    modifies client
    ensures client.Valid()
    ensures client.parsers.uuid(taskId).None? ==>
      r == Failure(InvalidUuid(taskId)) && client.log == old(client.log)
    ensures client.parsers.uuid(taskId).Some? ==>
      var id := client.parsers.uuid(taskId).value;
      client.log == old(client.log) + [GetTaskCall(id)] &&
      match client.TaskAt(old(client.round), id)
      case Failure(e) => r == Failure(ClientFailed(e))
      case Success(task) => r == Success(task) && TaskAware(task)
  {
    var parsed := client.parsers.uuid(taskId);
    if parsed.None? {
      return Failure(InvalidUuid(taskId));
    }
    var reply := client.GetTask(parsed.value);
    match reply
    case Failure(e) => r := Failure(ClientFailed(e));
    case Success(task) => r := Success(task);
  }

  method ApproveTask(client: Client, taskId: string) returns (r: Result<string, ToolError>)
    requires client.Valid()
    modifies client
    ensures client.Valid()
    ensures client.parsers.uuid(taskId).None? ==>
      r == Failure(InvalidUuid(taskId)) && client.log == old(client.log)
    ensures client.parsers.uuid(taskId).Some? ==>
      var id := client.parsers.uuid(taskId).value;
      client.log == old(client.log) + [ApproveTaskCall(id)] &&
      match client.service.approveTask(old(client.round), id)
      case Some(e) => r == Failure(ClientFailed(Refused(e)))
      case None => r == Success(Confirmation(taskId, ApprovedSuffix))
  {
    var parsed := client.parsers.uuid(taskId);
    if parsed.None? {
      return Failure(InvalidUuid(taskId));
    }
    var reply := client.ApproveTask(parsed.value);
    match reply
    case Failure(e) => r := Failure(ClientFailed(e));
    case Success(_) => r := Success(Confirmation(taskId, ApprovedSuffix));
  }

  method CancelTask(client: Client, taskId: string) returns (r: Result<string, ToolError>)
    requires client.Valid()
    modifies client
    ensures client.Valid()
    ensures client.parsers.uuid(taskId).None? ==>
      r == Failure(InvalidUuid(taskId)) && client.log == old(client.log)
    ensures client.parsers.uuid(taskId).Some? ==>
      var id := client.parsers.uuid(taskId).value;
      client.log == old(client.log) + [CancelTaskCall(id)] &&
      match client.service.cancelTask(old(client.round), id)
      case Some(e) => r == Failure(ClientFailed(Refused(e)))
      case None => r == Success(Confirmation(taskId, CancelledSuffix))
  {
    var parsed := client.parsers.uuid(taskId);
    if parsed.None? {
      return Failure(InvalidUuid(taskId));
    }
    var reply := client.CancelTask(parsed.value);
    match reply
    case Failure(e) => r := Failure(ClientFailed(e));
    case Success(_) => r := Success(Confirmation(taskId, CancelledSuffix));
  }

  /**
   * `get_task_result`: fetch the task; unless it is COMPLETED, answer with the
   * "not completed" sentinel and fetch nothing more. Otherwise fetch the first
   * results page of size one and answer with its first canvas's content, or the
   * "no results" sentinel when it is empty.
   */
  method GetTaskResult(client: Client, taskId: string) returns (r: Result<string, ToolError>)
    requires client.Valid()
    modifies client
    ensures client.Valid()
    ensures client.parsers.uuid(taskId).None? ==>
      r == Failure(InvalidUuid(taskId)) && client.log == old(client.log)
    ensures client.parsers.uuid(taskId).Some? ==>
      var id, t0 := client.parsers.uuid(taskId).value, old(client.round);
      match client.TaskAt(t0, id)
      case Failure(e) =>
        r == Failure(ClientFailed(e)) && client.log == old(client.log) + [GetTaskCall(id)]
      case Success(task) =>
        if task.status != Completed then
          r == Success(NotCompleted(task.status).Text()) && client.log == old(client.log) + [GetTaskCall(id)]
        else
          client.log == old(client.log) + [GetTaskCall(id), GetTaskResultsCall(id, 0, 1)] &&
          match client.TaskResultsAt(t0 + 1, id, 0, 1)
          case Failure(e) => r == Failure(ClientFailed(e))
          case Success(page) => r == Success(FirstResult(page.canvases).Text())
  {
    var parsed := client.parsers.uuid(taskId);
    if parsed.None? {
      return Failure(InvalidUuid(taskId));
    }
    var id := parsed.value;
    var taskReply := client.GetTask(id);
    if taskReply.Failure? {
      return Failure(ClientFailed(taskReply.error));
    }
    var task := taskReply.value;
    if task.status != Completed {
      return Success(NotCompleted(task.status).Text());
    }
    var resultsReply := client.GetTaskResults(id, 0, 1);
    if resultsReply.Failure? {
      return Failure(ClientFailed(resultsReply.error));
    }
    r := Success(FirstResult(resultsReply.value.canvases).Text());
  }

  method GetAllTaskResults(client: Client, taskId: string, pageNumber: int, pageSize: int)
    returns (r: Result<AllTaskResultsToolResult, ToolError>)
    requires client.Valid()
    modifies client
    ensures client.Valid()
    ensures client.parsers.uuid(taskId).None? ==>
      r == Failure(InvalidUuid(taskId)) && client.log == old(client.log)
    ensures client.parsers.uuid(taskId).Some? ==>
      var id := client.parsers.uuid(taskId).value;
      client.log == old(client.log) + [GetTaskResultsCall(id, pageNumber, pageSize)] &&
      match client.TaskResultsAt(old(client.round), id, pageNumber, pageSize)
      case Failure(e) => r == Failure(ClientFailed(e))
      case Success(page) =>
        r == Success(AllTaskResults(page)) &&
        forall i :: 0 <= i < |page.canvases| ==>
          r.value.results[i] == CanvasToolResult(page.canvases[i].createdAt, page.canvases[i].content)
  {
    var parsed := client.parsers.uuid(taskId);
    if parsed.None? {
      return Failure(InvalidUuid(taskId));
    }
    var reply := client.GetTaskResults(parsed.value, pageNumber, pageSize);
    match reply
    case Failure(e) => r := Failure(ClientFailed(e));
    case Success(page) => r := Success(AllTaskResults(page));
  }

  /**
   * `download_artifact`: the artifact id goes to the client as given; the reply's
   * bytes would be written to `path`, and the message names the rendered path
   * (`render` stands for pathlib's `str(Path(path))`, which normalises the
   * text of `path` without resolving it) and the byte count.
   */
  method DownloadArtifact(client: Client, taskId: string, artifactId: string, path: string, render: string -> string)
    returns (r: Result<string, ToolError>)
    requires client.Valid()
    modifies client
    ensures client.Valid()
    ensures client.parsers.uuid(taskId).None? ==>
      r == Failure(InvalidUuid(taskId)) && client.log == old(client.log)
    ensures client.parsers.uuid(taskId).Some? ==>
      var id := client.parsers.uuid(taskId).value;
      client.log == old(client.log) + [GetArtifactCall(id, artifactId)] &&
      match client.ArtifactAt(old(client.round), id, artifactId)
      case Failure(e) => r == Failure(ClientFailed(e))
      case Success(bytes) => r == Success(ArtifactSaved(render(path), |bytes|))
  {
    var parsed := client.parsers.uuid(taskId);
    if parsed.None? {
      return Failure(InvalidUuid(taskId));
    }
    var reply := client.GetArtifact(parsed.value, artifactId);
    match reply
    case Failure(e) => r := Failure(ClientFailed(e));
    case Success(bytes) => r := Success(ArtifactSaved(render(path), |bytes|));
  }
}
