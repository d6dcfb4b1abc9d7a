/**
 The client's local task cache (`_storage` in script.js): an ordered sequence of
 the tasks last returned by the server, looked up by `_id`.
 */
module Storage {

  /**
   A task as the server returns it. The client only ever reads `id`; the other
   fields are carried along unchanged.
   */
  datatype Task = Task(id: string, value: string, priority: int)

  /** No cached task has this id. */
  predicate Absent(s: seq<Task>, id: string) {
    forall i :: 0 <= i < |s| ==> s[i].id != id
  }

  /** `i` is the first position holding a task with this id. */
  predicate FirstWith(s: seq<Task>, id: string, i: int) {
    0 <= i < |s| && s[i].id == id && forall j :: 0 <= j < i ==> s[j].id != id
  }

  /** `_findIndex(id)`: the position of the first cached task with this id, or -1 when there is none. */
  function FindIndex(s: seq<Task>, id: string): (r: int)
    ensures -1 <= r < |s|
    ensures r == -1 <==> Absent(s, id)
    ensures r != -1 ==> FirstWith(s, id, r)
  {
    if |s| == 0 then -1
    else if s[0].id == id then 0
    else
      var k := FindIndex(s[1..], id);
      if k == -1 then -1 else k + 1
  }

  /** `s'` is `s` with `t` appended: every earlier entry is where it was. */
  predicate Appended(s: seq<Task>, s': seq<Task>, t: Task) {
    |s'| == |s| + 1 && s'[|s|] == t && forall j :: 0 <= j < |s| ==> s'[j] == s[j]
  }

  /** `s'` differs from `s` in slot `i` only, which now holds `t`. */
  predicate ReplacedAt(s: seq<Task>, s': seq<Task>, i: int, t: Task) {
    0 <= i < |s| && |s'| == |s| && s'[i] == t
    && forall j :: 0 <= j < |s| && j != i ==> s'[j] == s[j]
  }

  /** `s'` is `s` without slot `i`; the remaining entries keep their order. */
  predicate RemovedAt(s: seq<Task>, s': seq<Task>, i: int) {
    0 <= i < |s| && |s'| == |s| - 1
    && (forall j :: 0 <= j < i ==> s'[j] == s[j])
    && (forall j :: i <= j < |s'| ==> s'[j] == s[j + 1])
  }

  /** `s.push(t)`. */
  function Push(s: seq<Task>, t: Task): (r: seq<Task>)
    ensures Appended(s, r, t)
  {
    s + [t]
  }

  /** `s[i] = t`. */
  function Assign(s: seq<Task>, i: nat, t: Task): (r: seq<Task>)
    requires i < |s|
    ensures ReplacedAt(s, r, i, t)
  {
    s[i := t]
  }

  /** `s.splice(i, 1)`. */
  function Splice(s: seq<Task>, i: nat): (r: seq<Task>)
    requires i < |s|
    ensures RemovedAt(s, r, i)
    ensures multiset(r) + multiset{s[i]} == multiset(s)
  {
    assert s == s[..i] + [s[i]] + s[i + 1..];
    s[..i] + s[i + 1..]
  }

  /** Server-assigned ids are unique across the list. */
  predicate UniqueIds(s: seq<Task>) {
    forall i, j :: 0 <= i < j < |s| ==> s[i].id != s[j].id
  }

  /** Appending a task whose id is new keeps ids unique. */
  lemma AppendKeepsUnique(s: seq<Task>, s': seq<Task>, t: Task)
    requires UniqueIds(s) && Absent(s, t.id) && Appended(s, s', t)
    ensures UniqueIds(s')
  {
    forall a, b | 0 <= a < b < |s'| ensures s'[a].id != s'[b].id {
      assert s'[a] == s[a];
    }
  }

  /** Replacing a slot by a task with the same id keeps ids unique. */
  lemma {:induction false} ReplaceKeepsUnique(s: seq<Task>, s': seq<Task>, i: int, t: Task)
    requires UniqueIds(s) && ReplacedAt(s, s', i, t) && t.id == s[i].id
    ensures UniqueIds(s')
  {
    forall a, b | 0 <= a < b < |s'| ensures s'[a].id != s'[b].id {
      assert s'[a].id == s[a].id && s'[b].id == s[b].id;
    }
  }

  /** Removing a slot keeps ids unique. */
  lemma {:induction false} RemoveKeepsUnique(s: seq<Task>, s': seq<Task>, i: int)
    requires UniqueIds(s) && RemovedAt(s, s', i)
    ensures UniqueIds(s')
  {
    forall a, b | 0 <= a < b < |s'| ensures s'[a].id != s'[b].id {
      var a0 := if a < i then a else a + 1;
      var b0 := if b < i then b else b + 1;
      assert s'[a] == s[a0] && s'[b] == s[b0];
    }
  }
}
