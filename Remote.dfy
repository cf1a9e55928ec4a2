/**
 * The remote Tendem client, seen from the tools as an oracle. Each operation is
 * one round trip: the service's reply is any function of the round number and the
 * request (so task status may change between two calls), and the reply is then
 * validated into the entity model. A ghost log records which operations were
 * called, with which arguments and in which order.
 */
module Remote {
  import opened Wrappers
  import opened Models

  newtype Byte = x: int | 0 <= x < 256

  /** What the service reports when a request fails (not found, forbidden, transport, ...). */
  datatype RemoteError = RemoteError(detail: string)

  /** A failed client operation: the service refused, or its reply did not validate. */
  datatype ClientError = Refused(error: RemoteError) | InvalidReply

  /** One client operation, with the arguments it was given. */
  datatype Call =
    | ListTasksCall(pageNumber: int, pageSize: int)
    | CreateTaskCall(text: string)
    | GetTaskCall(taskId: Uuid)
    | ApproveTaskCall(taskId: Uuid)
    | CancelTaskCall(taskId: Uuid)
    | GetTaskResultsCall(taskId: Uuid, pageNumber: int, pageSize: int)
    | GetArtifactCall(taskId: Uuid, artifactId: string)

  /** The remote service: its reply to each request, given the round in which it is made. */
  datatype Service = Service(
    listTasks: (nat, int, int) -> Result<RawTaskListView, RemoteError>,
    createTask: (nat, string) -> Result<RawTaskView, RemoteError>,
    getTask: (nat, Uuid) -> Result<RawTaskView, RemoteError>,
    approveTask: (nat, Uuid) -> Option<RemoteError>,
    cancelTask: (nat, Uuid) -> Option<RemoteError>,
    getTaskResults: (nat, Uuid, int, int) -> Result<RawTaskResultsView, RemoteError>,
    getArtifact: (nat, Uuid, string) -> Result<seq<Byte>, RemoteError>)

  /** A reply as the client returns it: refused, or validated into a record. */
  function Received<R, T>(reply: Result<R, RemoteError>, validate: R -> Option<T>): (r: Result<T, ClientError>)
    ensures reply.Failure? ==> r == Failure(Refused(reply.error))
    ensures reply.Success? ==> (r.Success? <==> validate(reply.value).Some?)
    ensures r.Success? ==> validate(reply.value) == Some(r.value)
  {
    match reply
    case Failure(e) => Failure(Refused(e))
    case Success(raw) =>
      match validate(raw)
      case None => Failure(InvalidReply)
      case Some(v) => Success(v)
  }

  function Acknowledged(reply: Option<RemoteError>): (r: Result<(), ClientError>)
    ensures r.Success? <==> reply.None?
    ensures r.Failure? ==> r.error == Refused(reply.value)
  {
    match reply
    case None => Success(())
    case Some(e) => Failure(Refused(e))
  }

  class Client {
    const service: Service
    const parsers: Parsers
    /** Number of round trips made so far: the service's notion of time. */
    var round: nat
    ghost var log: seq<Call>

    ghost predicate Valid()
      reads this
    {
      round == |log|
    }

    constructor (service: Service, parsers: Parsers)
      ensures Valid() && log == []
      ensures this.service == service && this.parsers == parsers
    {
      this.service := service;
      this.parsers := parsers;
      round := 0;
      log := [];
    }

    // The client's answer to each request made in round `t`.

    function TaskListAt(t: nat, pageNumber: int, pageSize: int): Result<TaskListView, ClientError> {
      Received(service.listTasks(t, pageNumber, pageSize), raw => ValidateTaskListView(parsers, raw))
    }

    function CreatedTaskAt(t: nat, text: string): Result<TaskView, ClientError> {
      Received(service.createTask(t, text), raw => ValidateTaskView(parsers, raw))
    }

    function TaskAt(t: nat, id: Uuid): (r: Result<TaskView, ClientError>)
      ensures r.Success? ==> TaskAware(r.value)
    {
      Received(service.getTask(t, id), raw => ValidateTaskView(parsers, raw))
    }

    function TaskResultsAt(t: nat, id: Uuid, pageNumber: int, pageSize: int): (r: Result<TaskResultsView, ClientError>)
      ensures r.Success? ==> CanvasesAware(r.value.canvases)
    {
      Received(service.getTaskResults(t, id, pageNumber, pageSize), raw => ValidateTaskResultsView(parsers, raw))
    }

    function ArtifactAt(t: nat, id: Uuid, artifactId: string): Result<seq<Byte>, ClientError> {
      Received(service.getArtifact(t, id, artifactId), (bytes: seq<Byte>) => Some(bytes))
    }

    // The operations. Each makes one round trip and logs it.

    method ListTasks(pageNumber: int, pageSize: int) returns (r: Result<TaskListView, ClientError>)
      requires Valid()
      modifies this
      ensures Valid() && log == old(log) + [ListTasksCall(pageNumber, pageSize)]
      ensures r == TaskListAt(old(round), pageNumber, pageSize)
    {
      r := TaskListAt(round, pageNumber, pageSize);
      round, log := round + 1, log + [ListTasksCall(pageNumber, pageSize)];
    }

    method CreateTask(text: string) returns (r: Result<TaskView, ClientError>)
      requires Valid()
      modifies this
      ensures Valid() && log == old(log) + [CreateTaskCall(text)]
      ensures r == CreatedTaskAt(old(round), text)
    {
      r := CreatedTaskAt(round, text);
      round, log := round + 1, log + [CreateTaskCall(text)];
    }

    method GetTask(id: Uuid) returns (r: Result<TaskView, ClientError>)
      requires Valid()
      modifies this
      ensures Valid() && log == old(log) + [GetTaskCall(id)]
      ensures r == TaskAt(old(round), id)
    {
      r := TaskAt(round, id);
      round, log := round + 1, log + [GetTaskCall(id)];
    }

    method ApproveTask(id: Uuid) returns (r: Result<(), ClientError>)
      requires Valid()
      modifies this
      ensures Valid() && log == old(log) + [ApproveTaskCall(id)]
      ensures r == Acknowledged(service.approveTask(old(round), id))
    {
      r := Acknowledged(service.approveTask(round, id));
      round, log := round + 1, log + [ApproveTaskCall(id)];
    }

    method CancelTask(id: Uuid) returns (r: Result<(), ClientError>)
      requires Valid()
      modifies this
      ensures Valid() && log == old(log) + [CancelTaskCall(id)]
      ensures r == Acknowledged(service.cancelTask(old(round), id))
    {
      r := Acknowledged(service.cancelTask(round, id));
      round, log := round + 1, log + [CancelTaskCall(id)];
    }

    method GetTaskResults(id: Uuid, pageNumber: int, pageSize: int) returns (r: Result<TaskResultsView, ClientError>)
      requires Valid()
      modifies this
      ensures Valid() && log == old(log) + [GetTaskResultsCall(id, pageNumber, pageSize)]
      ensures r == TaskResultsAt(old(round), id, pageNumber, pageSize)
    {
      r := TaskResultsAt(round, id, pageNumber, pageSize);
      round, log := round + 1, log + [GetTaskResultsCall(id, pageNumber, pageSize)];
    }

    method GetArtifact(id: Uuid, artifactId: string) returns (r: Result<seq<Byte>, ClientError>)
      requires Valid()
      modifies this
      ensures Valid() && log == old(log) + [GetArtifactCall(id, artifactId)]
      ensures r == ArtifactAt(old(round), id, artifactId)
    {
      r := ArtifactAt(round, id, artifactId);
      round, log := round + 1, log + [GetArtifactCall(id, artifactId)];
    }
  }
}
