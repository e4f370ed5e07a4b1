/**
 The dedupe pattern shared by the provider store and the tenant service: a table from id to
 the load in progress, joined by every caller that misses, and emptied by whichever waiter
 comes back first, but only of the very load it waited for.

 Both uses of the surrounding asyncio lock guard a stretch without awaits, so each stretch
 is one atomic operation here.
 */
module LoadTable {
  type TaskId = nat

  datatype Status<R> = Running | Finished(result: R)
  datatype Load<R> = Load(id: string, status: Status<R>)

  /** `tasks` holds every load ever started, in order; `loads` is the table. */
  datatype Table<R> = Table(loads: map<string, TaskId>, tasks: seq<Load<R>>)

  function Join<R>(t: Table<R>, id: string): (r: (Table<R>, TaskId)) {
    if id in t.loads then (t, t.loads[id])
    else (Table(t.loads[id := |t.tasks|], t.tasks + [Load(id, Running)]), |t.tasks|)
  }

  predicate IsRunning<R>(t: Table<R>, k: TaskId) {
    k < |t.tasks| && t.tasks[k].status.Running?
  }

  predicate IsFinished<R>(t: Table<R>, k: TaskId) {
    k < |t.tasks| && t.tasks[k].status.Finished?
  }

  function Complete<R>(t: Table<R>, k: TaskId, result: R): Table<R>
    requires IsRunning(t, k)
  {
    t.(tasks := t.tasks[k := Load(t.tasks[k].id, Finished(result))])
  }

  /** A waiter of load `k` returns: the entry goes only if it is still that load. */
  function Release<R>(t: Table<R>, id: string, k: TaskId): Table<R> {
    if id in t.loads && t.loads[id] == k then t.(loads := t.loads - {id}) else t
  }

  ghost predicate Inv<R>(t: Table<R>) {
    && (forall id :: id in t.loads ==> t.loads[id] < |t.tasks| && t.tasks[t.loads[id]].id == id)
    && (forall k :: 0 <= k < |t.tasks| && t.tasks[k].status.Running? ==> t.tasks[k].id in t.loads && t.loads[t.tasks[k].id] == k)
  }

  lemma JoinKeepsInv<R>(t: Table<R>, id: string)
    requires Inv(t)
    ensures var (r, k) := Join(t, id);
            Inv(r) && t.tasks <= r.tasks && k < |r.tasks| && r.tasks[k].id == id
  {
  }

  lemma CompleteKeepsInv<R>(t: Table<R>, k: TaskId, result: R)
    requires Inv(t) && IsRunning(t, k)
    ensures Inv(Complete(t, k, result))
  {
  }

  /** A returning waiter never takes a newer load out of the table. */
  lemma ReleaseKeepsInv<R>(t: Table<R>, id: string, k: TaskId)
    requires Inv(t) && IsFinished(t, k) && t.tasks[k].id == id
    ensures Inv(Release(t, id, k))
    ensures id in t.loads && t.loads[id] != k ==> Release(t, id, k) == t
    ensures forall j: nat :: IsRunning(t, j) ==> t.tasks[j].id in Release(t, id, k).loads && Release(t, id, k).loads[t.tasks[j].id] == j
  {
  }

  lemma OneRunningLoad<R>(t: Table<R>, j: TaskId, k: TaskId)
    requires Inv(t) && IsRunning(t, j) && IsRunning(t, k) && t.tasks[j].id == t.tasks[k].id
    ensures j == k
  {
  }

  /** A finished load keeps its result. */
  lemma FinishedStays<R>(t: Table<R>, id: string, k: TaskId, j: TaskId, result: R)
    requires IsFinished(t, k)
    ensures IsFinished(Join(t, id).0, k) && Join(t, id).0.tasks[k] == t.tasks[k]
    ensures IsRunning(t, j) ==> IsFinished(Complete(t, j, result), k) && Complete(t, j, result).tasks[k] == t.tasks[k]
    ensures IsFinished(Release(t, id, j), k) && Release(t, id, j).tasks[k] == t.tasks[k]
  {
  }
}
