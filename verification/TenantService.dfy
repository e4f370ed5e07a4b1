/**
 `TenantService`: the tenant cache, filled by deduplicated loads and lookups by domain, and
 kept current by a stream of update messages.
 */
module TenantService {
  import opened Options
  import opened Text
  import opened LoadTable

  type CallId = nat
  type Key = Option<string>

  /** `settings` stands for everything else on the document. */
  datatype Tenant = Tenant(tenantId: Option<string>, isDisabled: bool, settings: string)

  datatype Update = Update(tenant: Option<Tenant>, tenantId: Option<string>, action: string)

  type Cache = map<Key, Tenant>

  const UPSERT := "upsert"
  const REMOVE := "remove"

  // ---------- update messages ----------

  predicate Falsy(s: Option<string>) {
    s.None? || s.value == ""
  }

  predicate BlankOrAbsent(s: Option<string>) {
    s.None? || IsBlank(s.value)
  }

  function ResolveTenantId(u: Update): Option<string> {
    if !BlankOrAbsent(u.tenantId) then u.tenantId
    else if u.tenant.Some? && !BlankOrAbsent(u.tenant.value.tenantId) then u.tenant.value.tenantId
    else None
  }

  function Normalize(u: Update): Option<Update> {
    var action := Lower(Strip(u.action));
    if action == REMOVE then
      var id := ResolveTenantId(u);
      if id.None? then None else Some(u.(action := REMOVE, tenantId := id))
    else if action == UPSERT then
      if u.tenant.None? || Falsy(u.tenant.value.tenantId) then None
      else Some(u.(action := UPSERT, tenantId := u.tenant.value.tenantId))
    else None
  }

  function ApplyUpdate(cache: Cache, u: Update): Cache {
    if Lower(Strip(u.action)) == REMOVE then
      if Falsy(u.tenantId) then cache else cache - {u.tenantId}
    else if u.tenant.None? || Falsy(u.tenant.value.tenantId) then cache
    else if u.tenant.value.isDisabled then cache - {u.tenant.value.tenantId}
    else cache[u.tenant.value.tenantId := u.tenant.value]
  }

  /** An update as the subscriber handles it: normalised, then applied if it is valid. */
  function HandleUpdate(cache: Cache, u: Update): Cache {
    match Normalize(u)
    case None => cache
    case Some(n) => ApplyUpdate(cache, n)
  }

  function Fold(cache: Cache, updates: seq<Update>): Cache
    decreases |updates|
  {
    if updates == [] then cache
    else HandleUpdate(Fold(cache, updates[..|updates| - 1]), updates[|updates| - 1])
  }

  lemma WordsAreNormal()
    ensures Lower(Strip(REMOVE)) == REMOVE && Lower(Strip(UPSERT)) == UPSERT
  {
    assert Strip(REMOVE) == REMOVE && Strip(UPSERT) == UPSERT;
  }

  lemma NormalizeIdempotent(u: Update)
    requires Normalize(u).Some?
    ensures Normalize(Normalize(u).value) == Normalize(u)
  {
    WordsAreNormal();
  }

  /** Publishing the normalised form of an update changes nothing for its subscribers. */
  lemma PublishedFormHasSameEffect(cache: Cache, u: Update)
    requires Normalize(u).Some?
    ensures HandleUpdate(cache, Normalize(u).value) == HandleUpdate(cache, u)
  {
    NormalizeIdempotent(u);
  }

  // ---------- what a message means ----------

  /** A valid message names the tenant with this id. */
  predicate Names(u: Update, id: string) {
    Normalize(u).Some? && Normalize(u).value.tenantId == Some(id)
  }

  /** What the message leaves in the cache for the tenant it names. */
  function Leaves(u: Update): Option<Tenant>
    requires Normalize(u).Some?
  {
    if Normalize(u).value.action == REMOVE || u.tenant.value.isDisabled then None else u.tenant
  }

  ghost function Lookup(cache: Cache, id: string): Option<Tenant> {
    if Some(id) in cache then Some(cache[Some(id)]) else None
  }

  /** The message is a valid upsert of the tenant with this id. */
  predicate Upserts(u: Update, id: string) {
    Lower(Strip(u.action)) == "upsert" && u.tenant.Some? && u.tenant.value.tenantId == Some(id) && id != ""
  }

  /** The message is a valid removal of the tenant with this id: named by the message itself,
      or by the document it carries when it names none. */
  predicate Removes(u: Update, id: string) {
    && Lower(Strip(u.action)) == "remove"
    && if u.tenantId.Some? && !IsBlank(u.tenantId.value) then u.tenantId == Some(id)
       else u.tenant.Some? && u.tenant.value.tenantId == Some(id) && !IsBlank(id)
  }

  /** Which messages are valid, and what normalising makes of them. */
  lemma ValidMessages(u: Update, id: string)
    ensures Names(u, id) <==> Upserts(u, id) || Removes(u, id)
    ensures Normalize(u).Some? ==> Normalize(u).value.tenantId.Some?
    ensures Names(u, id) ==>
              && Normalize(u).value.action == (if Upserts(u, id) then "upsert" else "remove")
              && Normalize(u).value.tenant == u.tenant
  {
    hide Lower, Strip, IsBlank;
    assert REMOVE[0] != UPSERT[0];
  }

  /** What one message does to any tenant's entry: a valid upsert stores the document, or drops
      the entry when the tenant is disabled; a valid removal drops it; nothing else touches it. */
  lemma MessageMeans(cache: Cache, u: Update, id: string)
    ensures Lookup(HandleUpdate(cache, u), id) ==
            if Upserts(u, id) then (if u.tenant.value.isDisabled then None else u.tenant)
            else if Removes(u, id) then None
            else Lookup(cache, id)
  {
    HandleUpdateEffect(cache, u, id);
    ValidMessages(u, id);
    hide HandleUpdate, Lookup, Lower, Strip, IsBlank, Normalize;
    assert REMOVE[0] != UPSERT[0];
  }

  function Put(cache: Cache, key: Key, value: Option<Tenant>): Cache {
    if value.None? then cache - {key} else cache[key := value.value]
  }

  /** A valid message puts what it leaves under the id it names; an invalid one does nothing. */
  lemma HandleUpdateIsPut(cache: Cache, u: Update)
    ensures HandleUpdate(cache, u) ==
            if Normalize(u).None? then cache else Put(cache, Normalize(u).value.tenantId, Leaves(u))
    ensures Normalize(u).Some? ==> !Falsy(Normalize(u).value.tenantId)
  {
    WordsAreNormal();
    ResolvedIsNotFalsy(u);
    hide Lower, Strip, ResolveTenantId;
  }

  lemma HandleUpdateEffect(cache: Cache, u: Update, id: string)
    ensures Lookup(HandleUpdate(cache, u), id) == if Names(u, id) then Leaves(u) else Lookup(cache, id)
  {
    HandleUpdateIsPut(cache, u);
    hide HandleUpdate, Normalize, Leaves;
  }

  /** No message from the `k`-th on names this tenant. */
  ghost predicate NotNamedFrom(updates: seq<Update>, k: nat, id: string) {
    forall j :: k <= j < |updates| ==> !Names(updates[j], id)
  }

  lemma {:induction false} UnnamedUntouched(cache: Cache, updates: seq<Update>, id: string)
    requires NotNamedFrom(updates, 0, id)
    ensures Lookup(Fold(cache, updates), id) == Lookup(cache, id)
    decreases |updates|
  {
    hide Names, HandleUpdate, Leaves, Lookup;
    if updates != [] {
      var front, last := updates[..|updates| - 1], updates[|updates| - 1];
      UnnamedUntouched(cache, front, id);
      HandleUpdateEffect(Fold(cache, front), last, id);
    }
  }

  /** After any sequence of messages, what the cache holds for a tenant is what the last valid
      message naming it left, whatever was there before. */
  lemma {:induction false} LastMessageWins(cache: Cache, updates: seq<Update>, id: string, k: nat)
    requires k < |updates| && Names(updates[k], id) && NotNamedFrom(updates, k + 1, id)
    ensures Lookup(Fold(cache, updates), id) == Leaves(updates[k])
    decreases |updates|
  {
    hide HandleUpdate, Leaves, Lookup, Normalize;
    var front, last := updates[..|updates| - 1], updates[|updates| - 1];
    HandleUpdateEffect(Fold(cache, front), last, id);
    if k < |front| {
      assert front[k] == updates[k];
      LastMessageWins(cache, front, id, k);
    }
  }

  /** Messages that do not name the same tenant commute. */
  lemma UpdatesCommute(cache: Cache, u: Update, v: Update)
    requires forall id :: !(Names(u, id) && Names(v, id))
    ensures HandleUpdate(HandleUpdate(cache, u), v) == HandleUpdate(HandleUpdate(cache, v), u)
  {
    HandleUpdateIsPut(cache, u);
    HandleUpdateIsPut(cache, v);
    HandleUpdateIsPut(HandleUpdate(cache, u), v);
    HandleUpdateIsPut(HandleUpdate(cache, v), u);
    hide HandleUpdate, Normalize, Leaves, Put;
    if Normalize(u).Some? && Normalize(v).Some? {
      var k, l := Normalize(u).value.tenantId, Normalize(v).value.tenantId;
      assert Names(u, k.value);
      PutsCommute(cache, k, Leaves(u), l, Leaves(v));
    }
  }

  lemma PutsCommute(cache: Cache, k: Key, v: Option<Tenant>, l: Key, w: Option<Tenant>)
    requires k != l
    ensures Put(Put(cache, k, v), l, w) == Put(Put(cache, l, w), k, v)
  {
  }

  lemma ResolvedIsNotFalsy(u: Update)
    ensures ResolveTenantId(u).Some? ==> !Falsy(ResolveTenantId(u))
  {
  }

  // ---------- the service over whole runs ----------

  datatype Call = Awaiting(id: string, task: TaskId) | Answered(id: string, tenant: Option<Tenant>)

  datatype State = State(cache: Cache, table: Table<Option<Tenant>>, calls: map<CallId, Call>)

  datatype Action =
    | Get(c: CallId, id: string)
    | Loaded(task: TaskId, tenant: Option<Tenant>)
    | Collect(c: CallId)
    | FoundByDomain(found: Tenant)
    | Message(update: Update)

  const START := State(map[], Table(map[], []), map[])

  predicate Enabled(s: State, a: Action) {
    match a
    case Get(c, _) => c !in s.calls
    case Loaded(k, _) => IsRunning(s.table, k)
    case Collect(c) => c in s.calls && s.calls[c].Awaiting? && IsFinished(s.table, s.calls[c].task)
    case FoundByDomain(_) => true
    case Message(_) => true
  }

  function Step(s: State, a: Action): State {
    if !Enabled(s, a) then s else
    match a
    case Get(c, id) =>
      if id == "" then s.(calls := s.calls[c := Answered(id, None)])
      else if Some(id) in s.cache then s.(calls := s.calls[c := Answered(id, Some(s.cache[Some(id)]))])
      else
        var (table, k) := Join(s.table, id);
        s.(table := table, calls := s.calls[c := Awaiting(id, k)])
    case Loaded(k, tenant) => s.(table := Complete(s.table, k, tenant))
    case Collect(c) =>
      var call := s.calls[c];
      var tenant := s.table.tasks[call.task].status.result;
      State(if tenant.Some? then s.cache[tenant.value.tenantId := tenant.value] else s.cache,
            Release(s.table, call.id, call.task),
            s.calls[c := Answered(call.id, tenant)])
    case FoundByDomain(tenant) => s.(cache := s.cache[tenant.tenantId := tenant])
    case Message(update) => s.(cache := HandleUpdate(s.cache, update))
  }

  function RunFrom(s: State, actions: seq<Action>): State
    decreases |actions|
  {
    if actions == [] then s
    else Step(RunFrom(s, actions[..|actions| - 1]), actions[|actions| - 1])
  }

  ghost predicate KeyedById(cache: Cache) {
    forall k :: k in cache ==> cache[k].tenantId == k
  }

  ghost predicate CallOk(t: Table<Option<Tenant>>, call: Call) {
    call.Awaiting? ==> call.task < |t.tasks| && t.tasks[call.task].id == call.id
  }

  ghost predicate Inv(s: State) {
    && KeyedById(s.cache)
    && LoadTable.Inv(s.table)
    && (forall c :: c in s.calls ==> CallOk(s.table, s.calls[c]))
  }

  lemma UpdateKeepsKeys(cache: Cache, u: Update)
    requires KeyedById(cache)
    ensures KeyedById(HandleUpdate(cache, u))
  {
  }

  lemma StepKeepsInv(s: State, a: Action)
    requires Inv(s)
    ensures Inv(Step(s, a))
  {
    hide HandleUpdate;
    if Enabled(s, a) {
      match a
      case Get(_, id) => JoinKeepsInv(s.table, id);
      case Loaded(k, tenant) => CompleteKeepsInv(s.table, k, tenant);
      case Collect(c) =>
        assert CallOk(s.table, s.calls[c]);
        ReleaseKeepsInv(s.table, s.calls[c].id, s.calls[c].task);
      case FoundByDomain(_) =>
      case Message(u) => UpdateKeepsKeys(s.cache, u);
      forall c | c in Step(s, a).calls ensures CallOk(Step(s, a).table, Step(s, a).calls[c]) {
        assert c in s.calls ==> CallOk(s.table, s.calls[c]);
      }
    }
  }

  /** In every reachable state each tenant is cached under its own id, and at most one load
      per id is running. */
  lemma {:induction false} CacheKeysAndLoads(actions: seq<Action>)
    ensures var s := RunFrom(START, actions);
            && Inv(s)
            && (forall k :: k in s.cache ==> s.cache[k].tenantId == k)
            && (forall i: nat, j: nat :: IsRunning(s.table, i) && IsRunning(s.table, j) && s.table.tasks[i].id == s.table.tasks[j].id ==> i == j)
    decreases |actions|
  {
    hide Step;
    if actions != [] {
      CacheKeysAndLoads(actions[..|actions| - 1]);
      StepKeepsInv(RunFrom(START, actions[..|actions| - 1]), actions[|actions| - 1]);
    }
  }

  /** Over a stretch of a run made of messages alone, the cache is the fold of the messages. */
  lemma {:induction false} MessagesFold(s: State, updates: seq<Update>)
    ensures RunFrom(s, seq(|updates|, i requires 0 <= i < |updates| => Message(updates[i]))).cache == Fold(s.cache, updates)
    decreases |updates|
  {
    hide HandleUpdate;
    var actions := seq(|updates|, i requires 0 <= i < |updates| => Message(updates[i]));
    if updates != [] {
      var front := updates[..|updates| - 1];
      MessagesFold(s, front);
      assert Enabled(RunFrom(s, actions[..|actions| - 1]), actions[|actions| - 1]);
      assert actions[..|actions| - 1] == seq(|front|, i requires 0 <= i < |front| => Message(front[i]));
    }
  }

  /** The step caches nobody under this id and is no message naming it. */
  ghost predicate LeavesAlone(s: State, a: Action, id: string) {
    match a
    case Collect(c) =>
      Enabled(s, a) && s.table.tasks[s.calls[c].task].status.result.Some? ==>
        s.table.tasks[s.calls[c].task].status.result.value.tenantId != Some(id)
    case FoundByDomain(found) => found.tenantId != Some(id)
    case Message(u) => !Names(u, id)
    case _ => true
  }

  ghost predicate RunLeavesAlone(s: State, more: seq<Action>, id: string) {
    forall k :: 0 <= k < |more| ==> LeavesAlone(RunFrom(s, more[..k]), more[k], id)
  }

  lemma EntryStays(s: State, a: Action, id: string)
    requires LeavesAlone(s, a, id)
    ensures Lookup(Step(s, a).cache, id) == Lookup(s.cache, id)
  {
    if a.Message? {
      HandleUpdateEffect(s.cache, a.update, id);
    }
    hide HandleUpdate, Names;
  }

  lemma {:induction false} EntryStaysOver(s: State, more: seq<Action>, id: string)
    requires RunLeavesAlone(s, more, id)
    ensures Lookup(RunFrom(s, more).cache, id) == Lookup(s.cache, id)
    decreases |more|
  {
    hide Step, LeavesAlone, Lookup;
    if more != [] {
      var most := more[..|more| - 1];
      forall k | 0 <= k < |most| ensures LeavesAlone(RunFrom(s, most[..k]), most[k], id) {
        assert most[..k] == more[..k];
      }
      EntryStaysOver(s, most, id);
      EntryStays(RunFrom(s, most), more[|more| - 1], id);
    }
  }

  /** A tenant found by a load is what every later caller gets at once, under the id it carries
      itself, until a message, another load or a domain lookup changes that entry. */
  lemma LoadedTenantIsServed(actions: seq<Action>, c: CallId, found: Tenant, id: string, more: seq<Action>, d: CallId)
    requires var s := RunFrom(START, actions);
             && Enabled(s, Collect(c)) && s.table.tasks[s.calls[c].task].status.result == Some(found)
             && found.tenantId == Some(id) && id != ""
    requires var collected := Step(RunFrom(START, actions), Collect(c));
             RunLeavesAlone(collected, more, id) && d !in RunFrom(collected, more).calls
    ensures var collected := Step(RunFrom(START, actions), Collect(c));
            && collected.calls[c].tenant == Some(found)
            && Step(RunFrom(collected, more), Get(d, id)).calls[d] == Answered(id, Some(found))
  {
    hide RunLeavesAlone;
    EntryStaysOver(Step(RunFrom(START, actions), Collect(c)), more, id);
  }

  /** A tenant found by its domain is cached under its own id, and nobody else's entry changes. */
  lemma FoundTenantIsCached(s: State, found: Tenant, id: string)
    ensures Lookup(Step(s, FoundByDomain(found)).cache, id) == if found.tenantId == Some(id) then Some(found) else Lookup(s.cache, id)
  {
  }

  ghost predicate Brought(t: Table<Option<Tenant>>, k: TaskId, id: string, result: Option<Tenant>) {
    k < |t.tasks| && t.tasks[k] == Load(id, Finished(result))
  }

  lemma BroughtStays(s: State, a: Action, k: TaskId, id: string, result: Option<Tenant>)
    requires Brought(s.table, k, id, result)
    ensures Brought(Step(s, a).table, k, id, result)
  {
    if a.Get? {
      FinishedStays(s.table, a.id, k, k, result);
    }
    hide HandleUpdate;
  }

  lemma {:induction false} BroughtStaysOver(s: State, more: seq<Action>, k: TaskId, id: string, result: Option<Tenant>)
    requires Brought(s.table, k, id, result)
    ensures Brought(RunFrom(s, more).table, k, id, result)
    decreases |more|
  {
    hide Step, Brought;
    if more != [] {
      BroughtStaysOver(s, more[..|more| - 1], k, id, result);
      BroughtStays(RunFrom(s, more[..|more| - 1]), more[|more| - 1], k, id, result);
    }
  }

  /** What a load brings, a tenant or none, reaches everyone who waits for it, however late
      they resume; a tenant is then cached under its own id, and none changes nothing there. */
  lemma LoadReachesItsWaiters(s: State, k: TaskId, result: Option<Tenant>, more: seq<Action>, c: CallId)
    requires IsRunning(s.table, k)
    requires var t := RunFrom(Step(s, Loaded(k, result)), more);
             c in t.calls && t.calls[c] == Awaiting(s.table.tasks[k].id, k)
    ensures var t := RunFrom(Step(s, Loaded(k, result)), more);
            var u := Step(t, Collect(c));
            && c in u.calls && u.calls[c] == Answered(s.table.tasks[k].id, result)
            && u.cache == if result.Some? then t.cache[result.value.tenantId := result.value] else t.cache
  {
    BroughtStaysOver(Step(s, Loaded(k, result)), more, k, s.table.tasks[k].id, result);
    hide RunFrom;
  }

  /** A caller that finds its tenant cached is answered with it, one without an id with none,
      and any other awaits the load in the table, or the one it starts. */
  lemma MissAwaitsALoad(actions: seq<Action>, c: CallId, id: string)
    requires c !in RunFrom(START, actions).calls
    ensures var s := RunFrom(START, actions);
            var after := Step(s, Get(c, id));
            && c in after.calls
            && if id == "" then after.calls[c] == Answered(id, None)
               else if Lookup(s.cache, id).Some? then after.calls[c] == Answered(id, Lookup(s.cache, id))
               else
                 && after.calls[c].Awaiting? && after.calls[c].id == id
                 && id in after.table.loads && after.table.loads[id] == after.calls[c].task
                 && if id in s.table.loads then after.table == s.table
                    else after.table.tasks == s.table.tasks + [Load(id, Running)] && after.calls[c].task == |s.table.tasks|
  {
    hide RunFrom;
  }

  /** Every entry of the load table is one that some caller still awaits. */
  ghost predicate EntriesAwaited(s: State) {
    forall id :: id in s.table.loads ==> exists c :: c in s.calls && s.calls[c] == Awaiting(id, s.table.loads[id])
  }

  lemma StepKeepsEntries(s: State, a: Action)
    requires EntriesAwaited(s)
    ensures EntriesAwaited(Step(s, a))
  {
    hide HandleUpdate;
    var t := Step(s, a);
    forall id | id in t.table.loads
      ensures exists c :: c in t.calls && t.calls[c] == Awaiting(id, t.table.loads[id])
    {
      if id in s.table.loads {
        var c :| c in s.calls && s.calls[c] == Awaiting(id, s.table.loads[id]);
        assert c in t.calls && t.calls[c] == s.calls[c];
      } else {
        assert a.c in t.calls;
      }
    }
  }

  /** In every run the table holds only loads that somebody still awaits: once the first waiter
      of a load is back, nobody joins that load any more, and the next miss starts a new one. */
  lemma {:induction false} EntriesAreAwaited(actions: seq<Action>)
    ensures EntriesAwaited(RunFrom(START, actions))
    decreases |actions|
  {
    hide Step;
    if actions != [] {
      EntriesAreAwaited(actions[..|actions| - 1]);
      StepKeepsEntries(RunFrom(START, actions[..|actions| - 1]), actions[|actions| - 1]);
    }
  }

  class TenantServiceState {
    var tenantCache: Cache
    var loadInProgress: map<string, TaskId>
    var tasks: seq<Load<Option<Tenant>>>
    var calls: map<CallId, Call>

    ghost function View(): State
      reads this
    {
      State(tenantCache, Table(loadInProgress, tasks), calls)
    }

    constructor ()
      ensures View() == START
    {
      tenantCache, loadInProgress, tasks, calls := map[], map[], [], map[];
    }

    /** From the call to its answer from the cache, or to the await of a load. */
    method GetTenant(c: CallId, id: string) returns (answer: Option<Option<Tenant>>)
      requires c !in calls
      modifies this
      ensures View() == Step(old(View()), Get(c, id))
      ensures c in calls && (answer.Some? <==> calls[c].Answered?) && (answer.Some? ==> answer.value == calls[c].tenant)
    {
      if id == "" {
        answer := Some(None);
        calls := calls[c := Answered(id, None)];
        return;
      }
      if Some(id) in tenantCache {
        answer := Some(Some(tenantCache[Some(id)]));
        calls := calls[c := Answered(id, answer.value)];
        return;
      }
      if id !in loadInProgress {
        loadInProgress := loadInProgress[id := |tasks|];
        tasks := tasks + [Load(id, Running)];
      }
      calls := calls[c := Awaiting(id, loadInProgress[id])];
      answer := None;
    }

    method LoadReturns(k: TaskId, tenant: Option<Tenant>)
      requires k < |tasks| && tasks[k].status.Running?
      modifies this`tasks
      ensures View() == Step(old(View()), Loaded(k, tenant))
    {
      tasks := tasks[k := tasks[k].(status := Finished(tenant))];
    }

    method Resume(c: CallId) returns (answer: Option<Tenant>)
      requires Enabled(View(), Collect(c))
      modifies this
      ensures View() == Step(old(View()), Collect(c))
      ensures calls[c] == Answered(old(calls[c]).id, answer)
    {
      var id, k := calls[c].id, calls[c].task;
      answer := tasks[k].status.result;
      if id in loadInProgress && loadInProgress[id] == k {
        loadInProgress := loadInProgress - {id};
      }
      if answer.Some? {
        tenantCache := tenantCache[answer.value.tenantId := answer.value];
      }
      calls := calls[c := Answered(id, answer)];
    }

    /** The cache write of get_tenant_by_domain after its query found a document. */
    method CacheFoundTenant(tenant: Tenant)
      modifies this`tenantCache
      ensures View() == Step(old(View()), FoundByDomain(tenant))
    {
      tenantCache := tenantCache[tenant.tenantId := tenant];
    }

    method ApplyUpdateMessage(u: Update)
      modifies this`tenantCache
      ensures tenantCache == ApplyUpdate(old(tenantCache), u)
    {
      var action := Lower(Strip(u.action));
      if action == REMOVE {
        if u.tenantId.Some? && u.tenantId.value != "" {
          tenantCache := tenantCache - {u.tenantId};
        }
        return;
      }
      if u.tenant.None? || Falsy(u.tenant.value.tenantId) {
        return;
      }
      var tenant := u.tenant.value;
      if tenant.isDisabled {
        tenantCache := tenantCache - {tenant.tenantId};
        return;
      }
      tenantCache := tenantCache[tenant.tenantId := tenant];
    }

    method HandleUpdateMessage(u: Update)
      modifies this`tenantCache
      ensures View() == Step(old(View()), Message(u))
    {
      var n := Normalize(u);
      if n.None? {
        return;
      }
      ApplyUpdateMessage(n.value);
    }
  }
}
