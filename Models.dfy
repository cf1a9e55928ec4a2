/**
 * The entity model of the Tendem MCP API: the closed task-status enumeration,
 * timestamps with the UTC-defaulting rule, exact decimal prices, and the records
 * the remote service's replies are validated into.
 *
 * Text parsing of identifiers, timestamps and decimals is done by library code
 * that is not part of this model; it enters as the abstract partial functions of
 * `Parsers`.
 */
module Models {
  import opened Wrappers

  // ---------------------------------------------------------------------------
  // Task status

  /** The six task statuses; each one's wire value is its own name in upper case. */
  datatype Status = Draft | AwaitingApproval | Processing | Completed | Cancelled | Failed
  {
    function Value(): string {
      match this
      case Draft => "DRAFT"
      case AwaitingApproval => "AWAITING_APPROVAL"
      case Processing => "PROCESSING"
      case Completed => "COMPLETED"
      case Cancelled => "CANCELLED"
      case Failed => "FAILED"
    }
  }

  const AllStatuses: seq<Status> := [Draft, AwaitingApproval, Processing, Completed, Cancelled, Failed]

  /** Enum validation by value: a string names a status exactly when it is one of the six values. */
  function StatusFromValue(t: string): (r: Option<Status>)
    ensures r.Some? ==> r.value.Value() == t
    ensures r.None? ==> forall s: Status :: s.Value() != t
  {
    if t == "DRAFT" then Some(Draft)
    else if t == "AWAITING_APPROVAL" then Some(AwaitingApproval)
    else if t == "PROCESSING" then Some(Processing)
    else if t == "COMPLETED" then Some(Completed)
    else if t == "CANCELLED" then Some(Cancelled)
    else if t == "FAILED" then Some(Failed)
    else None
  }

  /** The enumeration is closed: exactly six members, pairwise distinct, each found again from its value. */
  lemma StatusEnumeration()
    ensures |AllStatuses| == 6
    ensures forall s: Status :: s in AllStatuses
    ensures forall i, j :: 0 <= i < j < |AllStatuses| ==> AllStatuses[i] != AllStatuses[j]
    ensures forall s: Status :: StatusFromValue(s.Value()) == Some(s)
  {
    forall s: Status ensures s in AllStatuses {
      var i := match s
        case Draft => 0 case AwaitingApproval => 1 case Processing => 2
        case Completed => 3 case Cancelled => 4 case Failed => 5;
      assert AllStatuses[i] == s;
    }
  }

  /** Distinct statuses have distinct wire values. */
  lemma StatusValueInjective(s: Status, u: Status)
    requires s.Value() == u.Value()
    ensures s == u
  {
  }

  // ---------------------------------------------------------------------------
  // Timestamps

  /** A fixed UTC offset, in seconds east of Greenwich. */
  datatype Zone = Zone(offsetSeconds: int)

  const Utc: Zone := Zone(0)

  /** A datetime: wall-clock fields and an optional zone (absent for a naive datetime). */
  datatype DateTime = DateTime(
    year: int, month: int, day: int,
    hour: int, minute: int, second: int, microsecond: int,
    zone: Option<Zone>)

  /** What pydantic's `AwareDatetime` admits: a datetime that carries a zone. */
  predicate IsAware(v: DateTime) {
    v.zone.Some?
  }

  predicate SameWallClock(a: DateTime, b: DateTime) {
    a.year == b.year && a.month == b.month && a.day == b.day &&
    a.hour == b.hour && a.minute == b.minute && a.second == b.second &&
    a.microsecond == b.microsecond
  }

  /**
   * The `UtcDatetime` transform: a naive datetime is given the UTC zone with its
   * wall clock unchanged; a datetime that already has a zone is left as it is.
   */
  function ToUtc(v: DateTime): (r: DateTime)
    ensures IsAware(r)
    ensures SameWallClock(r, v)
    ensures v.zone.None? ==> r.zone == Some(Utc)
    ensures IsAware(v) ==> r == v
  {
    v.(zone := if v.zone.Some? then v.zone else Some(Utc))
  }

  /** Applying the transform twice is the same as applying it once. */
  lemma ToUtcIdempotent(v: DateTime)
    ensures ToUtc(ToUtc(v)) == ToUtc(v)
  {
  }

  /** The transform changes the zone component only. */
  lemma ToUtcOnlyZone(v: DateTime)
    ensures ToUtc(v) == v.(zone := ToUtc(v).zone)
  {
  }

  // ---------------------------------------------------------------------------
  // Identifiers, prices, parsers

  /** A UUID, as its 128-bit integer value. */
  type Uuid = n: nat | n < 0x1_0000_0000_0000_0000_0000_0000_0000_0000

  /** An exact decimal amount: coefficient * 10^exponent, never a binary float. */
  datatype Decimal = Decimal(coefficient: int, exponent: int)

  /**
   * The library parsers the records rely on, as partial functions: UUID text,
   * datetime text (naive or zoned) and decimal text. `None` is a parse failure.
   */
  datatype Parsers = Parsers(
    uuid: string -> Option<Uuid>,
    dateTime: string -> Option<DateTime>,
    decimal: string -> Option<Decimal>)

  /** A `UtcDatetime` field: parse as a datetime, then apply the UTC-defaulting transform. */
  function ValidateUtcDatetime(p: Parsers, text: string): (r: Option<DateTime>)
    ensures r.Some? <==> p.dateTime(text).Some?
    ensures r.Some? ==> IsAware(r.value) && SameWallClock(r.value, p.dateTime(text).value)
    ensures r.Some? && IsAware(p.dateTime(text).value) ==> r.value == p.dateTime(text).value
    ensures r.Some? ==> r.value == ToUtc(p.dateTime(text).value)
    ensures r.Some? && p.dateTime(text).value.zone.None? ==> r.value.zone == Some(Utc)
  {
    match p.dateTime(text)
    case None => None
    case Some(v) => Some(ToUtc(v))
  }

  // ---------------------------------------------------------------------------
  // Records

  datatype ApprovalRequestInfo = ApprovalRequestInfo(priceUsd: Decimal, createdAt: DateTime)

  datatype TaskView = TaskView(
    taskId: Uuid,
    name: string,
    status: Status,
    createdAt: DateTime,
    approvalRequestInfo: Option<ApprovalRequestInfo>)

  datatype TaskListView = TaskListView(
    tasks: seq<TaskView>, total: int, pageNumber: int, pageSize: int, pages: int)

  datatype CanvasView = CanvasView(canvasId: Uuid, versionId: Uuid, createdAt: DateTime, content: string)

  datatype TaskResultsView = TaskResultsView(
    canvases: seq<CanvasView>, total: int, pageNumber: int, pageSize: int, pages: int)

  /** A canvas as the tools report it: without its internal identifiers. */
  datatype CanvasToolResult = CanvasToolResult(createdAt: DateTime, content: string)

  datatype AllTaskResultsToolResult = AllTaskResultsToolResult(
    results: seq<CanvasToolResult>, total: int, pageNumber: int, pageSize: int, pages: int)

  /** Every timestamp in a task is timezone-aware. */
  predicate TaskAware(t: TaskView) {
    IsAware(t.createdAt) &&
    (t.approvalRequestInfo.Some? ==> IsAware(t.approvalRequestInfo.value.createdAt))
  }

  predicate CanvasesAware(cs: seq<CanvasView>) {
    forall i :: 0 <= i < |cs| ==> IsAware(cs[i].createdAt)
  }

  // ---------------------------------------------------------------------------
  // Validation of wire records. A field is `None` when its key is missing
  // (for `approval_request_info`, also when it is null).

  datatype RawApprovalRequestInfo = RawApprovalRequestInfo(priceUsd: Option<string>, createdAt: Option<string>)

  datatype RawTaskView = RawTaskView(
    taskId: Option<string>,
    name: Option<string>,
    status: Option<string>,
    createdAt: Option<string>,
    approvalRequestInfo: Option<RawApprovalRequestInfo>)

  datatype RawTaskListView = RawTaskListView(
    tasks: Option<seq<RawTaskView>>,
    total: Option<int>, pageNumber: Option<int>, pageSize: Option<int>, pages: Option<int>)

  datatype RawCanvasView = RawCanvasView(
    canvasId: Option<string>, versionId: Option<string>, createdAt: Option<string>, content: Option<string>)

  datatype RawTaskResultsView = RawTaskResultsView(
    canvases: Option<seq<RawCanvasView>>,
    total: Option<int>, pageNumber: Option<int>, pageSize: Option<int>, pages: Option<int>)

  /** A present field whose text the parser accepts. */
  predicate Parses<T>(field: Option<string>, parse: string -> Option<T>) {
    field.Some? && parse(field.value).Some?
  }

  function ValidateApprovalRequestInfo(p: Parsers, raw: RawApprovalRequestInfo): (r: Option<ApprovalRequestInfo>)
    ensures r.Some? <==> Parses(raw.priceUsd, p.decimal) && Parses(raw.createdAt, p.dateTime)
    ensures r.Some? ==>
      r.value.priceUsd == p.decimal(raw.priceUsd.value).value &&
      Some(r.value.createdAt) == ValidateUtcDatetime(p, raw.createdAt.value) &&
      IsAware(r.value.createdAt)
  {
    if raw.priceUsd.None? || raw.createdAt.None? then None
    else
      match (p.decimal(raw.priceUsd.value), ValidateUtcDatetime(p, raw.createdAt.value))
      case (Some(price), Some(at)) => Some(ApprovalRequestInfo(price, at))
      case _ => None
  }

  /**
   * `McpTaskView`: every field but `approval_request_info` is required;
   * that one is optional and, when missing, the task has no approval information.
   */
  function ValidateTaskView(p: Parsers, raw: RawTaskView): (r: Option<TaskView>)
    ensures r.Some? <==>
      Parses(raw.taskId, p.uuid) && raw.name.Some? && Parses(raw.status, StatusFromValue) &&
      Parses(raw.createdAt, p.dateTime) &&
      (raw.approvalRequestInfo.Some? ==> ValidateApprovalRequestInfo(p, raw.approvalRequestInfo.value).Some?)
    ensures r.Some? ==>
      r.value.taskId == p.uuid(raw.taskId.value).value &&
      r.value.name == raw.name.value &&
      r.value.status.Value() == raw.status.value &&
      Some(r.value.createdAt) == ValidateUtcDatetime(p, raw.createdAt.value) &&
      (r.value.approvalRequestInfo.None? <==> raw.approvalRequestInfo.None?) &&
      TaskAware(r.value)
    ensures r.Some? && raw.approvalRequestInfo.Some? ==>
      r.value.approvalRequestInfo == ValidateApprovalRequestInfo(p, raw.approvalRequestInfo.value)
  {
    if raw.taskId.None? || raw.name.None? || raw.status.None? || raw.createdAt.None? then None
    else
      var info :=
        if raw.approvalRequestInfo.None? then Some(None)
        else match ValidateApprovalRequestInfo(p, raw.approvalRequestInfo.value)
          case None => None
          case Some(a) => Some(Some(a));
      match (p.uuid(raw.taskId.value), StatusFromValue(raw.status.value),
             ValidateUtcDatetime(p, raw.createdAt.value), info)
      case (Some(id), Some(status), Some(at), Some(approval)) =>
        Some(TaskView(id, raw.name.value, status, at, approval))
      case _ => None
  }

  function ValidateCanvasView(p: Parsers, raw: RawCanvasView): (r: Option<CanvasView>)
    ensures r.Some? <==>
      Parses(raw.canvasId, p.uuid) && Parses(raw.versionId, p.uuid) &&
      Parses(raw.createdAt, p.dateTime) && raw.content.Some?
    ensures r.Some? ==>
      r.value.canvasId == p.uuid(raw.canvasId.value).value &&
      r.value.versionId == p.uuid(raw.versionId.value).value &&
      Some(r.value.createdAt) == ValidateUtcDatetime(p, raw.createdAt.value) &&
      r.value.content == raw.content.value &&
      IsAware(r.value.createdAt)
  {
    if raw.canvasId.None? || raw.versionId.None? || raw.createdAt.None? || raw.content.None? then None
    else
      match (p.uuid(raw.canvasId.value), p.uuid(raw.versionId.value), ValidateUtcDatetime(p, raw.createdAt.value))
      case (Some(c), Some(v), Some(at)) => Some(CanvasView(c, v, at, raw.content.value))
      case _ => None
  }

  /** A sequence field: valid when every element is, keeping length and order. */
  function ValidateAll<R, T>(raws: seq<R>, validate: R -> Option<T>): (r: Option<seq<T>>)
    ensures r.Some? <==> forall i :: 0 <= i < |raws| ==> validate(raws[i]).Some?
    ensures r.Some? ==> |r.value| == |raws| && forall i :: 0 <= i < |raws| ==> validate(raws[i]) == Some(r.value[i])
  {
    if raws == [] then Some([])
    else
      match (validate(raws[0]), ValidateAll(raws[1..], validate))
      case (Some(x), Some(xs)) => Some([x] + xs)
      case _ => None
  }

  function ValidateTaskListView(p: Parsers, raw: RawTaskListView): (r: Option<TaskListView>)
    ensures r.Some? <==>
      raw.tasks.Some? && raw.total.Some? && raw.pageNumber.Some? && raw.pageSize.Some? && raw.pages.Some? &&
      forall i :: 0 <= i < |raw.tasks.value| ==> ValidateTaskView(p, raw.tasks.value[i]).Some?
    ensures r.Some? ==>
      raw.tasks.Some? && |r.value.tasks| == |raw.tasks.value| &&
      (forall i :: 0 <= i < |raw.tasks.value| ==> ValidateTaskView(p, raw.tasks.value[i]) == Some(r.value.tasks[i])) &&
      Some(r.value.total) == raw.total && Some(r.value.pageNumber) == raw.pageNumber &&
      Some(r.value.pageSize) == raw.pageSize && Some(r.value.pages) == raw.pages
  {
    if raw.tasks.None? || raw.total.None? || raw.pageNumber.None? || raw.pageSize.None? || raw.pages.None? then None
    else
      match ValidateAll(raw.tasks.value, t => ValidateTaskView(p, t))
      case None => None
      case Some(tasks) =>
        Some(TaskListView(tasks, raw.total.value, raw.pageNumber.value, raw.pageSize.value, raw.pages.value))
  }

  function ValidateTaskResultsView(p: Parsers, raw: RawTaskResultsView): (r: Option<TaskResultsView>)
    ensures r.Some? <==>
      raw.canvases.Some? && raw.total.Some? && raw.pageNumber.Some? && raw.pageSize.Some? && raw.pages.Some? &&
      forall i :: 0 <= i < |raw.canvases.value| ==> ValidateCanvasView(p, raw.canvases.value[i]).Some?
    ensures r.Some? ==>
      raw.canvases.Some? && |r.value.canvases| == |raw.canvases.value| &&
      (forall i :: 0 <= i < |raw.canvases.value| ==> ValidateCanvasView(p, raw.canvases.value[i]) == Some(r.value.canvases[i])) &&
      Some(r.value.total) == raw.total && Some(r.value.pageNumber) == raw.pageNumber &&
      Some(r.value.pageSize) == raw.pageSize && Some(r.value.pages) == raw.pages &&
      CanvasesAware(r.value.canvases)
  {
    if raw.canvases.None? || raw.total.None? || raw.pageNumber.None? || raw.pageSize.None? || raw.pages.None? then None
    else
      match ValidateAll(raw.canvases.value, c => ValidateCanvasView(p, c))
      case None => None
      case Some(canvases) =>
        Some(TaskResultsView(canvases, raw.total.value, raw.pageNumber.value, raw.pageSize.value, raw.pages.value))
  }

  /** `McpCanvasToolResult` keeps only the timestamp and the content of a canvas. */
  function ToCanvasToolResult(c: CanvasView): (r: CanvasToolResult)
    ensures r.content == c.content && SameWallClock(r.createdAt, c.createdAt) && IsAware(r.createdAt)
    ensures IsAware(c.createdAt) ==> r.createdAt == c.createdAt
    ensures c.createdAt.zone.None? ==> r.createdAt.zone == Some(Utc)
  {
    // constructing the model re-runs the `UtcDatetime` validation on the timestamp
    CanvasToolResult(ToUtc(c.createdAt), c.content)
  }

  /** Canvases that differ only in their identifiers give the same tool result. */
  lemma CanvasToolResultForgetsIds(c: CanvasView, d: CanvasView)
    requires c.createdAt == d.createdAt && c.content == d.content
    ensures ToCanvasToolResult(c) == ToCanvasToolResult(d)
  {
  }
}
