/** The task entity and the by-id replacement the hook's functional updater
    performs to reconcile a server answer into the cached list. */
module Tasks {

  /** A server-assigned identifier; the JSON carries either a number or a string,
      and `===` never equates a number with a string. */
  datatype TaskId = NumId(n: int) | StrId(s: string)

  datatype Task = Task(id: TaskId, title: string, completed: bool)

  /** No two tasks of the list share an id. */
  predicate UniqueIds(ts: seq<Task>) {
    forall i, j :: 0 <= i < j < |ts| ==> ts[i].id != ts[j].id
  }

  predicate HasId(ts: seq<Task>, id: TaskId) {
    exists i :: 0 <= i < |ts| && ts[i].id == id
  }

  /** Every element whose id is `id` becomes `t`; every other element stays in place. */
  function ReplaceById(ts: seq<Task>, id: TaskId, t: Task): (r: seq<Task>)
    ensures |r| == |ts|
    ensures forall i :: 0 <= i < |ts| && ts[i].id == id ==> r[i] == t
    ensures forall i :: 0 <= i < |ts| && ts[i].id != id ==> r[i] == ts[i]
  {
    if ts == [] then []
    else [if ts[0].id == id then t else ts[0]] + ReplaceById(ts[1..], id, t)
  }

  /** An id that no element carries leaves the list exactly as it was. */
  lemma ReplaceMissingIsIdentity(ts: seq<Task>, id: TaskId, t: Task)
    requires !HasId(ts, id)
    ensures ReplaceById(ts, id, t) == ts
  {
  }

  /** With unique ids, a successful rename or toggle changes exactly the one
      position carrying the id, to the server's task. */
  lemma ReplaceUniqueIsPointUpdate(ts: seq<Task>, k: int, t: Task)
    requires UniqueIds(ts)
    requires 0 <= k < |ts|
    ensures ReplaceById(ts, ts[k].id, t) == ts[k := t]
  {
  }

  /** Replacing by id with a task that keeps that id keeps the ids unique. */
  lemma ReplaceKeepsUniqueIds(ts: seq<Task>, id: TaskId, t: Task)
    requires UniqueIds(ts)
    requires t.id == id
    ensures UniqueIds(ReplaceById(ts, id, t))
  {
  }

  /** Appending a task whose id is new keeps the ids unique. */
  lemma AppendFreshKeepsUniqueIds(ts: seq<Task>, t: Task)
    requires UniqueIds(ts)
    requires !HasId(ts, t.id)
    ensures UniqueIds(ts + [t])
  {
  }

  /** Two answers for the same id applied one after the other: the last one applied wins. */
  lemma ReplaceTwiceLastWins(ts: seq<Task>, id: TaskId, a: Task, b: Task)
    requires a.id == id
    ensures ReplaceById(ReplaceById(ts, id, a), id, b) == ReplaceById(ts, id, b)
  {
  }

  /** Answers for two different ids commute: the order in which they are applied does not matter. */
  lemma ReplaceDistinctCommute(ts: seq<Task>, i: TaskId, a: Task, j: TaskId, b: Task)
    requires i != j && a.id == i && b.id == j
    ensures ReplaceById(ReplaceById(ts, i, a), j, b) == ReplaceById(ReplaceById(ts, j, b), i, a)
  {
  }
}
