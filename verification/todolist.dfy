/**
 The `ToDoList` controller's cache transitions (script.js `add`, `edit`,
 `complete`, `delete`). Each operation is a pure function from the client state
 and the server's replies to the next state, the requests issued in order, and
 the error that was caught and logged, if any. A reply that is not ok throws
 inside `_getJSON` before the cache is touched.
 */
module ToDoList {
  import opened Wrappers
  import opened Js
  import opened Requests
  import opened Routing
  import opened Storage

  /** A server reply: `response.ok` with its decoded body, or the failing status. */
  datatype Response<T> = Ok(body: T) | NotOk(status: int)

  /** The errors the operations catch and log: the id is not cached, or a reply carried a failing HTTP status. */
  datatype Failure = FalseIndex | Status(code: int)

  /** One `fetch(url, request)`. */
  datatype Call = Call(url: string, request: Request)

  /** The controller after `_init`: the cached list and the bearer-token header object. */
  datatype Client = Client(storage: seq<Task>, authorization: Props)

  /**
   The outcome of one operation: the next client, the requests it issued in
   order, the error it logged, and the task `add` resolves to (`undefined` is `None`).
   */
  datatype Step = Step(client: Client, calls: seq<Call>, logged: Option<Failure>, returned: Option<Task>)

  /** The default `priority` of `add` and `edit`. */
  const DefaultPriority := 1

  /** The body of a create or update request: an object holding the text as `value` and the priority. */
  function TaskData(text: string, priority: int): Value {
    Obj([("value", Str(text)), ("priority", Num(priority))])
  }

  /** A request carrying the client's authorization headers. */
  function Authorized(c: Client, verb: string, data: Value): Request {
    CreateRequest(verb, data, Some(c.authorization))
  }

  /** `call` is a `verb` request to `url` with this body, carrying the client's authorization. */
  ghost predicate Issued(c: Client, call: Call, verb: string, url: string, body: Option<Value>) {
    && call.url == url
    && call.request.verb == verb
    && call.request.body == body
    && forall k :: HasKey(c.authorization, k) ==> Lookup(call.request.headers, k) == Lookup(c.authorization, k)
  }

  /** The re-fetch `_getTask(id)` issues: an authorized GET of the task's own URL, without a body. */
  function GetTask(c: Client, id: string): (r: Call)
    ensures Issued(c, r, "GET", TodoUrl + "/" + id, None)
  {
    Call(Url(TodoUrl, Some(id), false), Authorized(c, "GET", Null))
  }

  /**
   The common tail of `edit` and `complete`: after the change request `change`
   succeeds, re-fetch the task and overwrite slot `index` with it.
   */
  function Refresh(c: Client, index: nat, id: string, change: Call,
                   changed: Response<()>, fetched: Response<Task>): Step
    requires index < |c.storage|
  {
    match changed
    case NotOk(code) => Step(c, [change], Some(Status(code)), None)
    case Ok(_) =>
      match fetched
      case NotOk(code) => Step(c, [change, GetTask(c, id)], Some(Status(code)), None)
      case Ok(t) =>
        Step(c.(storage := Assign(c.storage, index, t)), [change, GetTask(c, id)], None, None)
  }

  /** `add(text, priority)`: create the task on the server and cache what it returns. */
  function Add(c: Client, text: string, priority: int, created: Response<Task>): (r: Step)
    ensures r.client.authorization == c.authorization
    ensures |r.calls| == 1 && Issued(c, r.calls[0], "POST", TodoUrl, Some(TaskData(text, priority)))
    ensures created.Ok? ==> Appended(c.storage, r.client.storage, created.body)
    ensures created.Ok? ==> r.logged == None && r.returned == Some(created.body)
    ensures created.NotOk? ==> r.client == c && r.logged == Some(Status(created.status)) && r.returned == None
  {
    var call := Call(Url(TodoUrl, None, false), Authorized(c, "POST", TaskData(text, priority)));
    match created
    case NotOk(code) => Step(c, [call], Some(Status(code)), None)
    case Ok(t) => Step(c.(storage := Push(c.storage, t)), [call], None, Some(t))
  }

  /** `edit(id, text, priority)`: update the task, then re-fetch it into its slot. */
  function Edit(c: Client, id: string, text: string, priority: int,
                updated: Response<()>, fetched: Response<Task>): (r: Step)
    ensures r.client.authorization == c.authorization && r.returned == None
    ensures Absent(c.storage, id) ==> r.client == c && r.calls == [] && r.logged == Some(FalseIndex)
    ensures !Absent(c.storage, id) ==>
      && 1 <= |r.calls| <= 2
      && Issued(c, r.calls[0], "PUT", TodoUrl + "/" + id, Some(TaskData(text, priority)))
      && (|r.calls| == 2 <==> updated.Ok?)
      && (|r.calls| == 2 ==> Issued(c, r.calls[1], "GET", TodoUrl + "/" + id, None))
    ensures r.logged.None? <==> !Absent(c.storage, id) && updated.Ok? && fetched.Ok?
    ensures r.logged.None? ==> ReplacedAt(c.storage, r.client.storage, FindIndex(c.storage, id), fetched.body)
    ensures r.logged.Some? ==> r.client == c
    ensures !Absent(c.storage, id) && updated.NotOk? ==> r.logged == Some(Status(updated.status))
    ensures !Absent(c.storage, id) && updated.Ok? && fetched.NotOk? ==> r.logged == Some(Status(fetched.status))
  {
    var index := FindIndex(c.storage, id);
    if index == -1 then Step(c, [], Some(FalseIndex), None)
    else
      var put := Call(Url(TodoUrl, Some(id), false), Authorized(c, "PUT", TaskData(text, priority)));
      Refresh(c, index, id, put, updated, fetched)
  }

  /** `complete(id)`: ask the server to toggle the task, then re-fetch it into its slot. */
  function Complete(c: Client, id: string, toggled: Response<()>, fetched: Response<Task>): (r: Step)
    ensures r.client.authorization == c.authorization && r.returned == None
    ensures Absent(c.storage, id) ==> r.client == c && r.calls == [] && r.logged == Some(FalseIndex)
    ensures !Absent(c.storage, id) ==>
      && 1 <= |r.calls| <= 2
      && Issued(c, r.calls[0], "PUT", TodoUrl + "/" + id + "/toggle", None)
      && (|r.calls| == 2 <==> toggled.Ok?)
      && (|r.calls| == 2 ==> Issued(c, r.calls[1], "GET", TodoUrl + "/" + id, None))
    ensures r.logged.None? <==> !Absent(c.storage, id) && toggled.Ok? && fetched.Ok?
    ensures r.logged.None? ==> ReplacedAt(c.storage, r.client.storage, FindIndex(c.storage, id), fetched.body)
    ensures r.logged.Some? ==> r.client == c
    ensures !Absent(c.storage, id) && toggled.NotOk? ==> r.logged == Some(Status(toggled.status))
    ensures !Absent(c.storage, id) && toggled.Ok? && fetched.NotOk? ==> r.logged == Some(Status(fetched.status))
  {
    var index := FindIndex(c.storage, id);
    if index == -1 then Step(c, [], Some(FalseIndex), None)
    else
      var put := Call(Url(TodoUrl, Some(id), true), Authorized(c, "PUT", Null));
      Refresh(c, index, id, put, toggled, fetched)
  }

  /** `delete(id)`: delete the task on the server, then splice it out of the cache. */
  function Delete(c: Client, id: string, deleted: Response<()>): (r: Step)
    ensures r.client.authorization == c.authorization && r.returned == None
    ensures Absent(c.storage, id) ==> r.client == c && r.calls == [] && r.logged == Some(FalseIndex)
    ensures !Absent(c.storage, id) ==>
      |r.calls| == 1 && Issued(c, r.calls[0], "DELETE", TodoUrl + "/" + id, None)
    ensures r.logged.None? <==> !Absent(c.storage, id) && deleted.Ok?
    ensures r.logged.None? ==> RemovedAt(c.storage, r.client.storage, FindIndex(c.storage, id))
    ensures r.logged.Some? ==> r.client == c
    ensures !Absent(c.storage, id) && deleted.NotOk? ==> r.logged == Some(Status(deleted.status))
  {
    var index := FindIndex(c.storage, id);
    if index == -1 then Step(c, [], Some(FalseIndex), None)
    else
      var del := Call(Url(TodoUrl, Some(id), false), Authorized(c, "DELETE", Null));
      match deleted
      case NotOk(code) => Step(c, [del], Some(Status(code)), None)
      case Ok(_) => Step(c.(storage := Splice(c.storage, index)), [del], None, None)
  }

  /** One public operation together with the server replies it will receive, in order. */
  datatype Op =
    | AddTask(text: string, priority: int, created: Response<Task>)
    | EditTask(id: string, text: string, priority: int, updated: Response<()>, fetched: Response<Task>)
    | CompleteTask(id: string, toggled: Response<()>, fetched: Response<Task>)
    | DeleteTask(id: string, deleted: Response<()>)

  /** Runs one operation against the client. */
  function Run(c: Client, op: Op): Step {
    match op
    case AddTask(text, priority, created) => Add(c, text, priority, created)
    case EditTask(id, text, priority, updated, fetched) => Edit(c, id, text, priority, updated, fetched)
    case CompleteTask(id, toggled, fetched) => Complete(c, id, toggled, fetched)
    case DeleteTask(id, deleted) => Delete(c, id, deleted)
  }

  /** Runs operations one after another, each to completion before the next starts. */
  function RunAll(c: Client, ops: seq<Op>): Client
    decreases |ops|
  {
    if |ops| == 0 then c else RunAll(Run(c, ops[0]).client, ops[1..])
  }
}
