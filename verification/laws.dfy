/** Properties of the cache transitions that hold across operations. */
module CacheLaws {
  import opened Wrappers
  import Js
  import opened Storage
  import opened ToDoList

  /** Whatever fails — a missing id or any reply that is not ok — leaves the client exactly as it was. */
  lemma FailureLeavesClient(c: Client, op: Op)
    ensures Run(c, op).logged.Some? ==> Run(c, op).client == c
  {
  }

  /** Only `add` can issue a request for a missing id; the others log `'False index'` and issue none. */
  lemma MissingIdSendsNothing(c: Client, op: Op)
    ensures Run(c, op).logged == Some(FalseIndex) <==> !op.AddTask? && Absent(c.storage, op.id)
    ensures Run(c, op).logged == Some(FalseIndex) ==> Run(c, op).calls == []
  {
  }

  /** The replies the server gives when it keeps ids unique and re-fetches return the task asked for. */
  predicate Consistent(c: Client, op: Op) {
    match op
    case AddTask(_, _, created) => created.Ok? ==> Absent(c.storage, created.body.id)
    case EditTask(id, _, _, _, fetched) => fetched.Ok? ==> fetched.body.id == id
    case CompleteTask(id, _, fetched) => fetched.Ok? ==> fetched.body.id == id
    case DeleteTask(_, _) => true
  }

  /** Against a consistent server, every operation keeps the cached ids unique. */
  lemma {:induction false} UniqueIdsPreserved(c: Client, op: Op)
    requires UniqueIds(c.storage)
    requires Consistent(c, op)
    ensures UniqueIds(Run(c, op).client.storage)
  {
    var s, s' := c.storage, Run(c, op).client.storage;
    if Run(c, op).logged.None? {
      match op
      case AddTask(_, _, created) =>
        AppendKeepsUnique(s, s', created.body);
      case EditTask(id, _, _, _, fetched) =>
        ReplaceKeepsUnique(s, s', FindIndex(s, id), fetched.body);
      case CompleteTask(id, _, fetched) =>
        ReplaceKeepsUnique(s, s', FindIndex(s, id), fetched.body);
      case DeleteTask(id, _) =>
        RemoveKeepsUnique(s, s', FindIndex(s, id));
    }
  }

  /** With unique ids, a successful `delete(id)` leaves no task with that id. */
  lemma {:induction false} DeleteRemovesId(c: Client, id: string)
    requires UniqueIds(c.storage)
    ensures Delete(c, id, Ok(())).logged.None? ==> Absent(Delete(c, id, Ok(())).client.storage, id)
  {
    var s, s' := c.storage, Delete(c, id, Ok(())).client.storage;
    if Delete(c, id, Ok(())).logged.None? {
      var i := FindIndex(s, id);
      assert RemovedAt(s, s', i);
      forall j | 0 <= j < |s'| ensures s'[j].id != id {
        if j < i {
          assert s'[j] == s[j];
        } else {
          assert s'[j] == s[j + 1];
        }
      }
    }
  }

  /** An `edit` or `complete` whose re-fetch returns the same id keeps the task at the slot `_findIndex` finds. */
  lemma {:induction false} RefreshKeepsIndex(c: Client, op: Op)
    requires op.EditTask? || op.CompleteTask?
    requires Consistent(c, op)
    ensures FindIndex(Run(c, op).client.storage, op.id) == FindIndex(c.storage, op.id)
  {
    var s, s' := c.storage, Run(c, op).client.storage;
    if Run(c, op).logged.None? {
      var i := FindIndex(s, op.id);
      assert ReplacedAt(s, s', i, op.fetched.body);
      assert FirstWith(s', op.id, i);
    }
  }

  /** Every operation of the run meets a consistent server, given the state it runs in. */
  predicate ConsistentRun(c: Client, ops: seq<Op>)
    decreases |ops|
  {
    |ops| == 0 || (Consistent(c, ops[0]) && ConsistentRun(Run(c, ops[0]).client, ops[1..]))
  }

  /** Against a consistent server, a run of operations keeps the cached ids unique. */
  lemma {:induction false} RunAllKeepsIdsUnique(c: Client, ops: seq<Op>)
    requires UniqueIds(c.storage)
    requires ConsistentRun(c, ops)
    ensures UniqueIds(RunAll(c, ops).storage)
    decreases |ops|
  {
    if |ops| > 0 {
      UniqueIdsPreserved(c, ops[0]);
      RunAllKeepsIdsUnique(Run(c, ops[0]).client, ops[1..]);
    }
  }

  /** Adding "Buy milk" to an empty list, with the server assigning id "t1", caches exactly that task. */
  lemma AddToEmptyList(auth: Js.Props)
    ensures var t := Task("t1", "Buy milk", 1);
      var r := Add(Client([], auth), "Buy milk", DefaultPriority, Ok(t));
      r.client.storage == [t] && r.returned == Some(t) && r.logged == None
  {
  }
}
