/**
 `ThirdPartyJwtProviderStore`: the identity providers of a tenant, cached for a minute and
 loaded once per burst of misses. Callers are not cancelled: cancelling one would cancel the
 load it shares.
 */
module ProviderStore {
  import opened Options
  import opened Text
  import opened LoadTable

  type CallId = nat
  type Providers = seq<string>

  const CACHE_LIFETIME_SECONDS: real := 60.0

  datatype Cached = Cached(providers: Providers, recordedAt: real)

  datatype Call =
    | Awaiting(tenant: string, task: TaskId)
    | Answered(tenant: string, providers: Providers)

  /** An answer given straight from the cache. */
  datatype Hit = Hit(tenant: string, providers: Providers, now: real, recordedAt: real)

  datatype Recording = Recording(tenant: string, providers: Providers, at: real)

  datatype Runtime = Runtime(cache: map<string, Cached>, table: Table<Providers>, calls: map<CallId, Call>)

  datatype State = State(rt: Runtime, hits: seq<Hit>, recordings: seq<Recording>)

  datatype Action =
    | Get(c: CallId, tenant: string, now: real)
    | Loaded(task: TaskId, providers: Providers)
    | Collect(c: CallId, now: real)
    | Invalidate(tenant: string)

  const START := State(Runtime(map[], Table(map[], []), map[]), [], [])

  predicate Enabled(rt: Runtime, a: Action) {
    match a
    case Get(c, _, _) => c !in rt.calls
    case Loaded(k, _) => IsRunning(rt.table, k)
    case Collect(c, _) => c in rt.calls && rt.calls[c].Awaiting? && IsFinished(rt.table, rt.calls[c].task)
    case Invalidate(_) => true
  }

  predicate FreshHit(rt: Runtime, tenant: string, now: real) {
    tenant in rt.cache && now - rt.cache[tenant].recordedAt <= CACHE_LIFETIME_SECONDS
  }

  function Next(rt: Runtime, a: Action): Runtime {
    if !Enabled(rt, a) then rt else
    match a
    case Get(c, tenant, now) =>
      if IsBlank(tenant) then rt.(calls := rt.calls[c := Answered(tenant, [])])
      else if FreshHit(rt, tenant, now) then rt.(calls := rt.calls[c := Answered(tenant, rt.cache[tenant].providers)])
      else
        var (table, k) := Join(rt.table, tenant);
        rt.(table := table, calls := rt.calls[c := Awaiting(tenant, k)])
    case Loaded(k, providers) => rt.(table := Complete(rt.table, k, providers))
    case Collect(c, now) =>
      var call := rt.calls[c];
      var providers := rt.table.tasks[call.task].status.result;
      Runtime(rt.cache[call.tenant := Cached(providers, now)],
              Release(rt.table, call.tenant, call.task),
              rt.calls[c := Answered(call.tenant, providers)])
    case Invalidate(tenant) =>
      if IsBlank(tenant) then rt else rt.(cache := rt.cache - {tenant})
  }

  function Step(s: State, a: Action): State {
    var after := Next(s.rt, a);
    if !Enabled(s.rt, a) then s
    else if a.Get? && !IsBlank(a.tenant) && FreshHit(s.rt, a.tenant, a.now) then
      var cached := s.rt.cache[a.tenant];
      State(after, s.hits + [Hit(a.tenant, cached.providers, a.now, cached.recordedAt)], s.recordings)
    else if a.Collect? then
      State(after, s.hits, s.recordings + [Recording(s.rt.calls[a.c].tenant, after.calls[a.c].providers, a.now)])
    else s.(rt := after)
  }

  function RunFrom(s: State, actions: seq<Action>): State
    decreases |actions|
  {
    if actions == [] then s
    else Step(RunFrom(s, actions[..|actions| - 1]), actions[|actions| - 1])
  }

  /** Some load for this very tenant has completed with this list. */
  ghost predicate WasLoaded(t: Table<Providers>, tenant: string, providers: Providers) {
    exists k :: 0 <= k < |t.tasks| && t.tasks[k] == Load(tenant, Finished(providers))
  }

  ghost predicate CallOk(t: Table<Providers>, call: Call) {
    match call
    case Awaiting(tenant, k) => k < |t.tasks| && t.tasks[k].id == tenant && !IsBlank(tenant)
    case Answered(tenant, providers) => if IsBlank(tenant) then providers == [] else WasLoaded(t, tenant, providers)
  }

  ghost predicate Inv(s: State) {
    && LoadTable.Inv(s.rt.table)
    && (forall c :: c in s.rt.calls ==> CallOk(s.rt.table, s.rt.calls[c]))
    && (forall tenant :: tenant in s.rt.cache ==>
          WasLoaded(s.rt.table, tenant, s.rt.cache[tenant].providers)
          && Recording(tenant, s.rt.cache[tenant].providers, s.rt.cache[tenant].recordedAt) in s.recordings)
    && (forall i :: 0 <= i < |s.hits| ==>
          s.hits[i].now - s.hits[i].recordedAt <= CACHE_LIFETIME_SECONDS
          && WasLoaded(s.rt.table, s.hits[i].tenant, s.hits[i].providers)
          && Recording(s.hits[i].tenant, s.hits[i].providers, s.hits[i].recordedAt) in s.recordings)
  }

  lemma LoadedStays(t: Table<Providers>, a: Action, rt: Runtime, tenant: string, providers: Providers)
    requires rt.table == t && LoadTable.Inv(t) && WasLoaded(t, tenant, providers)
    ensures WasLoaded(Next(rt, a).table, tenant, providers)
  {
    var k :| 0 <= k < |t.tasks| && t.tasks[k] == Load(tenant, Finished(providers));
    assert Next(rt, a).table.tasks[k] == t.tasks[k];
  }

  lemma StepKeepsCalls(s: State, a: Action)
    requires Inv(s)
    ensures forall c :: c in Step(s, a).rt.calls ==> CallOk(Step(s, a).rt.table, Step(s, a).rt.calls[c])
  {
    var t := Step(s, a);
    forall c | c in t.rt.calls ensures CallOk(t.rt.table, t.rt.calls[c]) {
      if c in s.rt.calls && t.rt.calls[c] == s.rt.calls[c] {
        assert CallOk(s.rt.table, s.rt.calls[c]);
        if s.rt.calls[c].Answered? && !IsBlank(s.rt.calls[c].tenant) {
          LoadedStays(s.rt.table, a, s.rt, s.rt.calls[c].tenant, s.rt.calls[c].providers);
        }
      } else if a.Collect? {
        assert CallOk(s.rt.table, s.rt.calls[c]);
        assert t.rt.table.tasks[s.rt.calls[c].task] == Load(s.rt.calls[c].tenant, Finished(t.rt.calls[c].providers));
      } else if !IsBlank(a.tenant) && FreshHit(s.rt, a.tenant, a.now) {
        LoadedStays(s.rt.table, a, s.rt, a.tenant, s.rt.cache[a.tenant].providers);
      }
    }
  }

  lemma StepKeepsTable(s: State, a: Action)
    requires Inv(s)
    ensures LoadTable.Inv(Step(s, a).rt.table)
  {
    if Enabled(s.rt, a) {
      match a
      case Get(_, tenant, _) => JoinKeepsInv(s.rt.table, tenant);
      case Loaded(k, providers) => CompleteKeepsInv(s.rt.table, k, providers);
      case Collect(c, _) =>
        assert CallOk(s.rt.table, s.rt.calls[c]);
        ReleaseKeepsInv(s.rt.table, s.rt.calls[c].tenant, s.rt.calls[c].task);
      case Invalidate(_) =>
    }
  }

  lemma StepKeepsCache(s: State, a: Action, tenant: string)
    requires Inv(s) && tenant in Step(s, a).rt.cache
    ensures var t, cached := Step(s, a), Step(s, a).rt.cache[tenant];
            WasLoaded(t.rt.table, tenant, cached.providers) && Recording(tenant, cached.providers, cached.recordedAt) in t.recordings
  {
    var t := Step(s, a);
    if a.Collect? && Enabled(s.rt, a) && s.rt.calls[a.c].tenant == tenant {
      assert CallOk(s.rt.table, s.rt.calls[a.c]);
      assert t.rt.table.tasks[s.rt.calls[a.c].task] == Load(tenant, Finished(t.rt.cache[tenant].providers));
      assert t.recordings[|s.recordings|] == Recording(tenant, t.rt.cache[tenant].providers, a.now);
    } else {
      LoadedStays(s.rt.table, a, s.rt, tenant, s.rt.cache[tenant].providers);
    }
  }

  lemma StepKeepsHits(s: State, a: Action, i: nat)
    requires Inv(s) && i < |Step(s, a).hits|
    ensures var t, hit := Step(s, a), Step(s, a).hits[i];
            && hit.now - hit.recordedAt <= CACHE_LIFETIME_SECONDS
            && WasLoaded(t.rt.table, hit.tenant, hit.providers)
            && Recording(hit.tenant, hit.providers, hit.recordedAt) in t.recordings
  {
    var hit := Step(s, a).hits[i];
    if i < |s.hits| {
      assert hit == s.hits[i];
    }
    LoadedStays(s.rt.table, a, s.rt, hit.tenant, hit.providers);
  }

  lemma StepKeepsInv(s: State, a: Action)
    requires Inv(s)
    ensures Inv(Step(s, a))
  {
    StepKeepsCalls(s, a);
    StepKeepsTable(s, a);
    forall tenant | tenant in Step(s, a).rt.cache
      ensures WasLoaded(Step(s, a).rt.table, tenant, Step(s, a).rt.cache[tenant].providers)
      ensures Recording(tenant, Step(s, a).rt.cache[tenant].providers, Step(s, a).rt.cache[tenant].recordedAt) in Step(s, a).recordings
    {
      StepKeepsCache(s, a, tenant);
    }
    forall i | 0 <= i < |Step(s, a).hits|
      ensures Step(s, a).hits[i].now - Step(s, a).hits[i].recordedAt <= CACHE_LIFETIME_SECONDS
      ensures WasLoaded(Step(s, a).rt.table, Step(s, a).hits[i].tenant, Step(s, a).hits[i].providers)
      ensures Recording(Step(s, a).hits[i].tenant, Step(s, a).hits[i].providers, Step(s, a).hits[i].recordedAt) in Step(s, a).recordings
    {
      StepKeepsHits(s, a, i);
    }
    hide Step, WasLoaded, CallOk;
  }

  lemma {:induction false} Reachable(actions: seq<Action>)
    ensures Inv(RunFrom(START, actions))
    decreases |actions|
  {
    hide Step, Inv;
    if actions == [] {
      StartOk();
    } else {
      Reachable(actions[..|actions| - 1]);
      StepKeepsInv(RunFrom(START, actions[..|actions| - 1]), actions[|actions| - 1]);
    }
  }

  lemma StartOk()
    ensures Inv(START)
  {
  }

  /** In every interleaving at most one load per tenant runs at a time. */
  lemma OneLoadPerTenant(actions: seq<Action>, j: TaskId, k: TaskId)
    requires var t := RunFrom(START, actions).rt.table;
             IsRunning(t, j) && IsRunning(t, k) && t.tasks[j].id == t.tasks[k].id
    ensures j == k
  {
    Reachable(actions);
    OneRunningLoad(RunFrom(START, actions).rt.table, j, k);
  }

  /** Every answer is the result of a completed load for the very tenant that was asked for,
      and one given from the cache was recorded there at most a minute before. */
  lemma AnswersWereLoaded(actions: seq<Action>)
    ensures var s := RunFrom(START, actions);
            && (forall c :: c in s.rt.calls && s.rt.calls[c].Answered? && !IsBlank(s.rt.calls[c].tenant) ==>
                  WasLoaded(s.rt.table, s.rt.calls[c].tenant, s.rt.calls[c].providers))
            && (forall i :: 0 <= i < |s.hits| ==>
                  s.hits[i].now - s.hits[i].recordedAt <= 60.0
                  && WasLoaded(s.rt.table, s.hits[i].tenant, s.hits[i].providers)
                  && Recording(s.hits[i].tenant, s.hits[i].providers, s.hits[i].recordedAt) in s.recordings)
  {
    Reachable(actions);
    var s := RunFrom(START, actions);
    forall c | c in s.rt.calls && s.rt.calls[c].Answered? && !IsBlank(s.rt.calls[c].tenant)
      ensures WasLoaded(s.rt.table, s.rt.calls[c].tenant, s.rt.calls[c].providers)
    {
      assert CallOk(s.rt.table, s.rt.calls[c]);
    }
  }

  /** A waiter that comes back late, after its entry was replaced, leaves the newer load in
      the table, so later callers still join it instead of starting another. */
  lemma LateWaiterKeepsNewerLoad(actions: seq<Action>, c: CallId, now: real, k: TaskId)
    requires var rt := RunFrom(START, actions).rt;
             Enabled(rt, Collect(c, now)) && IsRunning(rt.table, k)
    ensures var after := Step(RunFrom(START, actions), Collect(c, now)).rt;
            IsRunning(after.table, k) && after.table.tasks[k].id in after.table.loads && after.table.loads[after.table.tasks[k].id] == k
  {
    Reachable(actions);
    var s := RunFrom(START, actions);
    assert CallOk(s.rt.table, s.rt.calls[c]);
    ReleaseKeepsInv(s.rt.table, s.rt.calls[c].tenant, s.rt.calls[c].task);
  }

  /** The step neither invalidates the tenant nor collects another load for it. */
  ghost predicate LeavesAlone(rt: Runtime, a: Action, tenant: string) {
    a != Invalidate(tenant) && (a.Collect? && a.c in rt.calls ==> rt.calls[a.c].tenant != tenant)
  }

  ghost predicate RunLeavesAlone(s: State, more: seq<Action>, tenant: string) {
    forall k :: 0 <= k < |more| ==> LeavesAlone(RunFrom(s, more[..k]).rt, more[k], tenant)
  }

  lemma EntryStays(s: State, a: Action, tenant: string)
    requires tenant in s.rt.cache && LeavesAlone(s.rt, a, tenant)
    ensures tenant in Step(s, a).rt.cache && Step(s, a).rt.cache[tenant] == s.rt.cache[tenant]
  {
  }

  lemma {:induction false} EntryStaysOver(s: State, more: seq<Action>, tenant: string)
    requires tenant in s.rt.cache && RunLeavesAlone(s, more, tenant)
    ensures tenant in RunFrom(s, more).rt.cache && RunFrom(s, more).rt.cache[tenant] == s.rt.cache[tenant]
    decreases |more|
  {
    hide Step, LeavesAlone;
    if more != [] {
      var most := more[..|more| - 1];
      forall k | 0 <= k < |most| ensures LeavesAlone(RunFrom(s, most[..k]).rt, most[k], tenant) {
        assert most[..k] == more[..k];
      }
      EntryStaysOver(s, most, tenant);
      EntryStays(RunFrom(s, most), more[|more| - 1], tenant);
    }
  }

  /** A collected list answers every caller of the next 60 seconds without a load, and nobody
      after that, whatever runs in between, until the tenant is invalidated or another load for
      it is collected: the time counts from when the waiter resumed, not from when the load
      began. */
  lemma ServedWhileFresh(actions: seq<Action>, c: CallId, now: real, more: seq<Action>, d: CallId, later: real)
    requires Enabled(RunFrom(START, actions).rt, Collect(c, now))
    requires var s := RunFrom(START, actions);
             var collected := Step(s, Collect(c, now));
             RunLeavesAlone(collected, more, s.rt.calls[c].tenant) && d !in RunFrom(collected, more).rt.calls
    ensures var s := RunFrom(START, actions);
            var collected := Step(s, Collect(c, now));
            var tenant, list := s.rt.calls[c].tenant, collected.rt.calls[c].providers;
            var answer := Step(RunFrom(collected, more), Get(d, tenant, later)).rt.calls[d];
            if later - now <= 60.0 then answer == Answered(tenant, list) else answer.Awaiting?
  {
    hide RunLeavesAlone;
    Reachable(actions);
    var s := RunFrom(START, actions);
    assert CallOk(s.rt.table, s.rt.calls[c]);
    EntryStaysOver(Step(s, Collect(c, now)), more, s.rt.calls[c].tenant);
  }

  /** After `invalidate` the next caller awaits a load: the one in flight when there is one,
      which may have begun before, and otherwise a new one. */
  lemma InvalidateForcesLoad(actions: seq<Action>, tenant: string, d: CallId, now: real)
    requires !IsBlank(tenant) && d !in RunFrom(START, actions).rt.calls
    ensures var s := RunFrom(START, actions);
            var t := Step(Step(s, Invalidate(tenant)), Get(d, tenant, now));
            && t.rt.calls[d].Awaiting? && t.hits == s.hits
            && forall k: nat :: IsRunning(s.rt.table, k) && s.rt.table.tasks[k].id == tenant ==> t.rt.calls[d].task == k
  {
    Reachable(actions);
  }

  /** The list that load `k` brought. */
  ghost predicate Brought(t: Table<Providers>, k: TaskId, tenant: string, list: Providers) {
    k < |t.tasks| && t.tasks[k] == Load(tenant, Finished(list))
  }

  lemma BroughtStays(s: State, a: Action, k: TaskId, tenant: string, list: Providers)
    requires Brought(s.rt.table, k, tenant, list)
    ensures Brought(Step(s, a).rt.table, k, tenant, list)
  {
    if a.Get? {
      FinishedStays(s.rt.table, a.tenant, k, k, list);
    }
  }

  lemma {:induction false} BroughtStaysOver(s: State, more: seq<Action>, k: TaskId, tenant: string, list: Providers)
    requires Brought(s.rt.table, k, tenant, list)
    ensures Brought(RunFrom(s, more).rt.table, k, tenant, list)
    decreases |more|
  {
    hide Step, Brought;
    if more != [] {
      BroughtStaysOver(s, more[..|more| - 1], k, tenant, list);
      BroughtStays(RunFrom(s, more[..|more| - 1]), more[|more| - 1], k, tenant, list);
    }
  }

  /** What a load brings reaches everyone who waits for it, however late they resume, and is
      what each of them then records. */
  lemma LoadReachesItsWaiters(s: State, k: TaskId, list: Providers, more: seq<Action>, c: CallId, now: real)
    requires IsRunning(s.rt.table, k)
    requires var t := RunFrom(Step(s, Loaded(k, list)), more);
             c in t.rt.calls && t.rt.calls[c] == Awaiting(s.rt.table.tasks[k].id, k)
    ensures var t := RunFrom(Step(s, Loaded(k, list)), more);
            var tenant := s.rt.table.tasks[k].id;
            var u := Step(t, Collect(c, now));
            && c in u.rt.calls && u.rt.calls[c] == Answered(tenant, list)
            && tenant in u.rt.cache && u.rt.cache[tenant] == Cached(list, now)
  {
    var tenant := s.rt.table.tasks[k].id;
    BroughtStaysOver(Step(s, Loaded(k, list)), more, k, tenant, list);
    hide RunFrom;
  }

  /** A caller that finds nothing fresh awaits the load in the table, or starts the one that is
      then there. */
  lemma MissAwaitsALoad(actions: seq<Action>, c: CallId, tenant: string, now: real)
    requires var rt := RunFrom(START, actions).rt;
             && c !in rt.calls && !IsBlank(tenant)
             && (tenant in rt.cache ==> now - rt.cache[tenant].recordedAt > 60.0)
    ensures var rt := RunFrom(START, actions).rt;
            var after := Step(RunFrom(START, actions), Get(c, tenant, now)).rt;
            && c in after.calls && after.calls[c].Awaiting? && after.calls[c].tenant == tenant
            && var k := after.calls[c].task;
            && tenant in after.table.loads && after.table.loads[tenant] == k
            && k < |after.table.tasks| && after.table.tasks[k].id == tenant
            && if tenant in rt.table.loads then after.table == rt.table
               else after.table.tasks == rt.table.tasks + [Load(tenant, Running)]
  {
    Reachable(actions);
    JoinKeepsInv(RunFrom(START, actions).rt.table, tenant);
    hide RunFrom;
  }

  /** Every entry of the load table is one that some caller still awaits. */
  ghost predicate EntriesAwaited(s: State) {
    forall id :: id in s.rt.table.loads ==> exists c :: c in s.rt.calls && s.rt.calls[c] == Awaiting(id, s.rt.table.loads[id])
  }

  lemma StepKeepsEntries(s: State, a: Action)
    requires EntriesAwaited(s)
    ensures EntriesAwaited(Step(s, a))
  {
    var t := Step(s, a);
    forall id | id in t.rt.table.loads
      ensures exists c :: c in t.rt.calls && t.rt.calls[c] == Awaiting(id, t.rt.table.loads[id])
    {
      if id in s.rt.table.loads {
        var c :| c in s.rt.calls && s.rt.calls[c] == Awaiting(id, s.rt.table.loads[id]);
        assert c in t.rt.calls && t.rt.calls[c] == s.rt.calls[c];
      } else {
        assert a.c in t.rt.calls;
      }
    }
  }

  /** In every run the table holds only loads that somebody still awaits: once the first waiter
      of a load is back, nobody joins that load any more, and the next miss starts a new one. */
  lemma {:induction false} EntriesAreAwaited(actions: seq<Action>)
    ensures EntriesAwaited(RunFrom(START, actions))
    decreases |actions|
  {
    hide Step;
    if actions != [] {
      EntriesAreAwaited(actions[..|actions| - 1]);
      StepKeepsEntries(RunFrom(START, actions[..|actions| - 1]), actions[|actions| - 1]);
    }
  }

  class ThirdPartyJwtProviderStore {
    var cache: map<string, Cached>
    var loads: map<string, TaskId>
    var tasks: seq<Load<Providers>>
    var calls: map<CallId, Call>

    ghost function View(): Runtime
      reads this
    {
      Runtime(cache, Table(loads, tasks), calls)
    }

    constructor ()
      ensures View() == START.rt
    {
      cache, loads, tasks, calls := map[], map[], [], map[];
    }

    /** From the call to its answer from memory, or to the await of a load. */
    method GetActive(c: CallId, tenant: string, now: real) returns (answer: Option<Providers>)
      requires c !in calls
      modifies this
      ensures View() == Next(old(View()), Get(c, tenant, now))
      ensures c in calls && (answer.Some? <==> calls[c].Answered?) && (answer.Some? ==> answer.value == calls[c].providers)
    {
      if IsBlank(tenant) {
        answer := Some([]);
        calls := calls[c := Answered(tenant, [])];
        return;
      }
      if tenant in cache && now - cache[tenant].recordedAt <= CACHE_LIFETIME_SECONDS {
        answer := Some(cache[tenant].providers);
        calls := calls[c := Answered(tenant, answer.value)];
        return;
      }
      if tenant !in loads {
        loads := loads[tenant := |tasks|];
        tasks := tasks + [Load(tenant, Running)];
      }
      calls := calls[c := Awaiting(tenant, loads[tenant])];
      answer := None;
    }

    method LoadReturns(k: TaskId, providers: Providers)
      requires k < |tasks| && tasks[k].status.Running?
      modifies this`tasks
      ensures View() == Next(old(View()), Loaded(k, providers))
    {
      tasks := tasks[k := tasks[k].(status := Finished(providers))];
    }

    /** A waiter resumes after its load: it clears its entry, records the list and returns. */
    method Resume(c: CallId, now: real) returns (answer: Providers)
      requires Enabled(View(), Collect(c, now))
      modifies this
      ensures View() == Next(old(View()), Collect(c, now))
      ensures calls[c] == Answered(old(calls[c]).tenant, answer)
    {
      var tenant, k := calls[c].tenant, calls[c].task;
      answer := tasks[k].status.result;
      if tenant in loads && loads[tenant] == k {
        loads := loads - {tenant};
      }
      cache := cache[tenant := Cached(answer, now)];
      calls := calls[c := Answered(tenant, answer)];
    }

    method Drop(tenant: string)
      modifies this`cache
      ensures View() == Next(old(View()), Invalidate(tenant))
    {
      if !IsBlank(tenant) {
        cache := cache - {tenant};
      }
    }
  }
}
