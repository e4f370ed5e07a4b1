/**
 The state machine behind `DelegatedTokenProvider`.

 `Runtime` is what the provider and the event loop hold: the token cache, the table of
 locks, the lock objects themselves, and the suspended calls. An action is one stretch of
 `get_token_async` (or of `invalidate`) between two awaits, so a sequence of actions is an
 interleaving. Clock readings and exchange results are part of the action, which makes the
 step a function and lets every theorem quantify over all of them.
 */
module TokenCache {
  import opened Options
  import opened Sequences
  import opened AsyncLocks

  type Grant = string
  type LockId = nat

  const TOKEN_RENEWAL_MARGIN_SECONDS: real := 60.0
  const SWEEP_INTERVAL_CALLS: nat := 64

  datatype Token = Token(accessToken: string, expiresAt: real) {
    predicate IsUsable(now: real) {
      now < expiresAt - TOKEN_RENEWAL_MARGIN_SECONDS
    }
  }

  datatype Phase =
    | Waiting(lock: LockId)
    | Exchanging(lock: LockId)
    | Returned(token: Option<string>)
    | Cancelled

  datatype Call = Call(grant: Grant, phase: Phase)

  datatype Runtime = Runtime(
    tokens: map<Grant, Token>,
    table: map<Grant, LockId>,
    locks: seq<Lock>,
    callCount: nat,
    calls: map<CallId, Call>)

  datatype Action =
    | Begin(c: CallId, grant: Grant, sweepNow: real, now: real, recheckNow: real)
    | Resume(c: CallId, recheckNow: real)
    | Finish(c: CallId, outcome: Option<Token>)
    | Cancel(c: CallId)
    | Invalidate(grant: Grant)

  // ---------- one step ----------

  /** Every entry of the lock table names an existing lock. */
  ghost predicate TableOk(rt: Runtime) {
    forall g :: g in rt.table ==> rt.table[g] < |rt.locks|
  }

  predicate HasTicket(call: Call) {
    call.phase.Waiting? || call.phase.Exchanging?
  }

  predicate Fresh(rt: Runtime, g: Grant, now: real) {
    g in rt.tokens && rt.tokens[g].IsUsable(now)
  }

  predicate Stale(rt: Runtime, g: Grant, now: real) {
    g in rt.tokens && !rt.tokens[g].IsUsable(now)
  }

  predicate Swept(rt: Runtime, g: Grant, now: real)
    requires g in rt.table && rt.table[g] < |rt.locks|
  {
    Stale(rt, g, now) && rt.locks[rt.table[g]].holder.None?
  }

  ghost function Sweep(rt: Runtime, now: real): (r: Runtime)
    requires TableOk(rt)
    ensures TableOk(r) && r.calls == rt.calls && r.locks == rt.locks && r.tokens.Keys <= rt.tokens.Keys
  {
    rt.(tokens := map g | g in rt.tokens && rt.tokens[g].IsUsable(now) :: rt.tokens[g],
        table := map g | g in rt.table && !Swept(rt, g, now) :: rt.table[g])
  }

  ghost function SetDefault(rt: Runtime, g: Grant): (r: Runtime)
    requires TableOk(rt)
    ensures TableOk(r) && g in r.table && r.calls == rt.calls && r.tokens == rt.tokens
  {
    if g in rt.table then rt
    else rt.(table := rt.table[g := |rt.locks|], locks := rt.locks + [Lock(None, [])])
  }

  /** No call but `c` was changed, and `c` is on `g`. */
  ghost predicate OnlyCallOf(rt: Runtime, c: CallId, g: Grant, after: Runtime) {
    && after.calls.Keys == rt.calls.Keys + {c} && after.calls[c].grant == g
    && forall x :: x in rt.calls && x != c ==> after.calls[x] == rt.calls[x]
  }

  /** Call `c` has just acquired lock `l`: re-check the cache, then return or start the exchange. */
  ghost function Enter(rt: Runtime, c: CallId, g: Grant, l: LockId, now: real): (r: Runtime)
    requires TableOk(rt) && l < |rt.locks|
    ensures TableOk(r) && OnlyCallOf(rt, c, g, r)
  {
    if Fresh(rt, g, now) then
      rt.(calls := rt.calls[c := Call(g, Returned(Some(rt.tokens[g].accessToken)))])
    else
      rt.(tokens := rt.tokens - {g},
          locks := rt.locks[l := rt.locks[l].(holder := Some(c))],
          calls := rt.calls[c := Call(g, Exchanging(l))])
  }

  ghost predicate Enabled(rt: Runtime, a: Action) {
    match a
    case Begin(c, g, _, _, _) => c !in rt.calls && g != ""
    case Resume(c, _) =>
      && c in rt.calls && rt.calls[c].phase.Waiting? && rt.calls[c].phase.lock < |rt.locks|
      && var lock := rt.locks[rt.calls[c].phase.lock];
      lock.holder.None? && |lock.waiters| > 0 && lock.waiters[0] == c
    case Finish(c, _) =>
      c in rt.calls && rt.calls[c].phase.Exchanging? && rt.calls[c].phase.lock < |rt.locks|
    case Cancel(c) =>
      c in rt.calls && HasTicket(rt.calls[c]) && rt.calls[c].phase.lock < |rt.locks|
    case Invalidate(g) => g != ""
  }

  /** The counter and the periodic sweep at the head of every call. */
  ghost function Counted(rt: Runtime, now: real): (r: Runtime)
    requires TableOk(rt)
    ensures TableOk(r) && r.calls == rt.calls && r.locks == rt.locks && r.tokens.Keys <= rt.tokens.Keys
  {
    var bumped := rt.(callCount := rt.callCount + 1);
    if bumped.callCount % SWEEP_INTERVAL_CALLS == 0 then Sweep(bumped, now) else bumped
  }

  /** The fast path, or the lock: taken at once when it is free, otherwise queued for. */
  ghost function Lookup(rt: Runtime, c: CallId, g: Grant, now: real, recheckNow: real): (r: Runtime)
    requires TableOk(rt)
    ensures TableOk(r) && OnlyCallOf(rt, c, g, r)
  {
    if Fresh(rt, g, now) then
      rt.(calls := rt.calls[c := Call(g, Returned(Some(rt.tokens[g].accessToken)))])
    else
      var ready := SetDefault(rt, g);
      var l := ready.table[g];
      if ready.locks[l] == Lock(None, []) then Enter(ready, c, g, l, recheckNow) else Join(ready, c, g, l)
  }

  ghost function Join(rt: Runtime, c: CallId, g: Grant, l: LockId): (r: Runtime)
    requires TableOk(rt) && l < |rt.locks|
    ensures TableOk(r) && OnlyCallOf(rt, c, g, r)
  {
    rt.(locks := rt.locks[l := rt.locks[l].(waiters := rt.locks[l].waiters + [c])],
        calls := rt.calls[c := Call(g, Waiting(l))])
  }

  ghost function Apply(rt: Runtime, a: Action): (r: Runtime)
    requires TableOk(rt) && Enabled(rt, a)
    ensures TableOk(r)
  {
    match a
    case Begin(c, g, sweepNow, now, recheckNow) =>
      Lookup(Counted(rt, sweepNow), c, g, now, recheckNow)
    case Resume(c, recheckNow) =>
      var l := rt.calls[c].phase.lock;
      var woken := rt.(locks := rt.locks[l := Lock(None, rt.locks[l].waiters[1..])]);
      Enter(woken, c, rt.calls[c].grant, l, recheckNow)
    case Finish(c, outcome) =>
      var g, l := rt.calls[c].grant, rt.calls[c].phase.lock;
      var result := if outcome.Some? then Some(outcome.value.accessToken) else None;
      rt.(tokens := if outcome.Some? then rt.tokens[g := outcome.value] else rt.tokens,
          locks := rt.locks[l := rt.locks[l].(holder := None)],
          calls := rt.calls[c := Call(g, Returned(result))])
    case Cancel(c) =>
      var l := rt.calls[c].phase.lock;
      var lock := rt.locks[l];
      rt.(locks := rt.locks[l := if rt.calls[c].phase.Waiting?
                                 then lock.(waiters := Without(lock.waiters, c))
                                 else lock.(holder := None)],
          calls := rt.calls[c := rt.calls[c].(phase := Cancelled)])
    case Invalidate(g) =>
      rt.(tokens := rt.tokens - {g}, table := rt.table - {g})
  }

  ghost function Next(rt: Runtime, a: Action): (r: Runtime)
    requires TableOk(rt)
    ensures TableOk(r)
  {
    if Enabled(rt, a) then Apply(rt, a) else rt
  }

  // ---------- what an observer of the run records ----------

  /** When a lock was created: for which grant, and after how many removals of its entry. */
  datatype Tag = Tag(grant: Grant, epoch: nat)

  datatype History = History(
    removals: map<Grant, nat>,
    tags: seq<Tag>,
    seen: map<CallId, nat>,
    overlapped: set<CallId>,
    outcomes: map<Grant, seq<Option<Token>>>)

  datatype State = State(rt: Runtime, h: History)

  function Removals(h: History, g: Grant): nat {
    if g in h.removals then h.removals[g] else 0
  }

  function Outcomes(h: History, g: Grant): seq<Option<Token>> {
    if g in h.outcomes then h.outcomes[g] else []
  }

  /** The entry of `g` was taken out of the table by this step (and perhaps put back anew). */
  ghost predicate EntryRemoved(before: Runtime, after: Runtime, g: Grant) {
    g in before.table && (g !in after.table || after.table[g] != before.table[g])
  }

  ghost predicate InExchange(rt: Runtime, c: CallId, g: Grant) {
    c in rt.calls && rt.calls[c].grant == g && rt.calls[c].phase.Exchanging?
  }

  ghost predicate HasRival(rt: Runtime, c: CallId) {
    && c in rt.calls && rt.calls[c].phase.Exchanging?
    && exists d :: d != c && InExchange(rt, d, rt.calls[c].grant)
  }

  ghost function Observe(h: History, before: Runtime, a: Action, after: Runtime): History {
    var removals := map g | g in h.removals.Keys + before.table.Keys ::
                      Removals(h, g) + if EntryRemoved(before, after, g) then 1 else 0;
    var counted := h.(removals := removals);
    var tagged := if a.Begin? && |after.locks| > |before.locks|
                  then counted.(tags := h.tags + [Tag(a.grant, Removals(counted, a.grant))])
                  else counted;
    var seen := if a.Begin? && a.c !in before.calls && a.c in after.calls && HasTicket(after.calls[a.c])
                then tagged.(seen := h.seen[a.c := Removals(counted, a.grant)])
                else tagged;
    var logged := if a.Finish? && Enabled(before, a)
                  then seen.(outcomes := h.outcomes[before.calls[a.c].grant :=
                               Outcomes(h, before.calls[a.c].grant) + [a.outcome]])
                  else seen;
    logged.(overlapped := h.overlapped + set c | c in after.calls && HasRival(after, c))
  }

  ghost function Step(s: State, a: Action): (r: State)
    requires TableOk(s.rt)
    ensures TableOk(r.rt)
  {
    var after := Next(s.rt, a);
    State(after, Observe(s.h, s.rt, a, after))
  }

  const START: State := State(Runtime(map[], map[], [], 0, map[]), History(map[], [], map[], {}, map[]))

  /** The state after the first `n` actions of an interleaving. */
  ghost function StateAt(actions: seq<Action>, n: nat): (s: State)
    requires n <= |actions|
    ensures TableOk(s.rt)
  {
    if n == 0 then START else Step(StateAt(actions, n - 1), actions[n - 1])
  }

  // ---------- invariants ----------

  ghost predicate EntriesTagged(s: State) {
    forall g :: g in s.rt.table ==>
      s.rt.table[g] < |s.h.tags| && s.h.tags[s.rt.table[g]] == Tag(g, Removals(s.h, g))
  }

  /** A lock not in the table is one whose entry was removed. */
  ghost predicate StrayIsOld(s: State, l: LockId)
    requires l < |s.h.tags|
  {
    || s.h.tags[l].epoch < Removals(s.h, s.h.tags[l].grant)
    || (s.h.tags[l].grant in s.rt.table && s.rt.table[s.h.tags[l].grant] == l)
  }

  ghost predicate TagsDiffer(tags: seq<Tag>) {
    forall l, k :: 0 <= l < k < |tags| ==> tags[l] != tags[k]
  }

  ghost predicate TagsOk(s: State) {
    && |s.h.tags| == |s.rt.locks|
    && EntriesTagged(s)
    && (forall l :: 0 <= l < |s.h.tags| ==> StrayIsOld(s, l))
    && TagsDiffer(s.h.tags)
  }

  ghost predicate TicketsOk(s: State) {
    forall c :: c in s.rt.calls && HasTicket(s.rt.calls[c]) ==>
      && s.rt.calls[c].phase.lock < |s.h.tags|
      && c in s.h.seen
      && s.h.tags[s.rt.calls[c].phase.lock] == Tag(s.rt.calls[c].grant, s.h.seen[c])
  }

  ghost predicate HoldersOk(rt: Runtime) {
    && (forall c :: c in rt.calls && rt.calls[c].phase.Exchanging? ==>
          rt.calls[c].phase.lock < |rt.locks| && rt.locks[rt.calls[c].phase.lock].holder == Some(c))
    && (forall l :: 0 <= l < |rt.locks| && rt.locks[l].holder.Some? ==>
          rt.locks[l].holder.value in rt.calls && rt.calls[rt.locks[l].holder.value].phase == Exchanging(l))
  }

  ghost predicate WaitersOk(rt: Runtime) {
    && (forall c :: c in rt.calls && rt.calls[c].phase.Waiting? ==>
          rt.calls[c].phase.lock < |rt.locks| && c in rt.locks[rt.calls[c].phase.lock].waiters)
    && (forall l, c :: 0 <= l < |rt.locks| && c in rt.locks[l].waiters ==>
          c in rt.calls && rt.calls[c].phase == Waiting(l))
    && (forall l :: 0 <= l < |rt.locks| ==> NoDuplicates(rt.locks[l].waiters))
  }

  ghost predicate OverlapOk(s: State) {
    && (forall c :: c in s.rt.calls && HasRival(s.rt, c) ==> c in s.h.overlapped)
    && (forall c :: c in s.rt.calls && s.rt.calls[c].phase.Exchanging? && s.rt.calls[c].grant in s.rt.tokens ==>
          c in s.h.overlapped)
  }

  ghost predicate Inv(s: State) {
    TagsOk(s) && TicketsOk(s) && HoldersOk(s.rt) && WaitersOk(s.rt) && OverlapOk(s)
  }

  // ---------- every step keeps the lock discipline ----------

  ghost predicate LocksOk(rt: Runtime) {
    TableOk(rt) && HoldersOk(rt) && WaitersOk(rt)
  }

  lemma EnterKeeps(rt: Runtime, c: CallId, g: Grant, l: LockId, now: real)
    requires LocksOk(rt) && l < |rt.locks| && rt.locks[l].holder.None?
    requires c in rt.calls ==> !HasTicket(rt.calls[c])
    ensures LocksOk(Enter(rt, c, g, l, now))
  {
    EnterKeepsHolders(rt, c, g, l, now);
    EnterKeepsWaiters(rt, c, g, l, now);
    hide HoldersOk, WaitersOk, Enter;
  }

  lemma EnterKeepsHolders(rt: Runtime, c: CallId, g: Grant, l: LockId, now: real)
    requires TableOk(rt) && HoldersOk(rt) && l < |rt.locks| && rt.locks[l].holder.None?
    requires c in rt.calls ==> !HasTicket(rt.calls[c])
    ensures HoldersOk(Enter(rt, c, g, l, now))
  {
  }

  lemma EnterKeepsWaiters(rt: Runtime, c: CallId, g: Grant, l: LockId, now: real)
    requires TableOk(rt) && WaitersOk(rt) && l < |rt.locks|
    requires c in rt.calls ==> !HasTicket(rt.calls[c])
    ensures WaitersOk(Enter(rt, c, g, l, now))
  {
  }

  lemma JoinKeeps(rt: Runtime, c: CallId, g: Grant, l: LockId)
    requires LocksOk(rt) && l < |rt.locks| && c !in rt.calls
    ensures LocksOk(Join(rt, c, g, l))
  {
    JoinKeepsWaiters(rt, c, g, l);
    hide WaitersOk;
  }

  lemma JoinKeepsWaiters(rt: Runtime, c: CallId, g: Grant, l: LockId)
    requires TableOk(rt) && WaitersOk(rt) && l < |rt.locks| && c !in rt.calls
    ensures WaitersOk(Join(rt, c, g, l))
  {
    assert c !in rt.locks[l].waiters;
  }

  lemma CountedKeeps(rt: Runtime, now: real)
    requires LocksOk(rt)
    ensures LocksOk(Counted(rt, now))
    ensures forall g :: g in Counted(rt, now).table ==> g in rt.table && Counted(rt, now).table[g] == rt.table[g]
  {
  }

  lemma SetDefaultKeeps(rt: Runtime, g: Grant)
    requires LocksOk(rt)
    ensures LocksOk(SetDefault(rt, g))
  {
  }

  lemma EndedKeeps(rt: Runtime, c: CallId, call: Call)
    requires LocksOk(rt) && !HasTicket(call) && (c in rt.calls ==> !HasTicket(rt.calls[c]))
    ensures LocksOk(rt.(calls := rt.calls[c := call]))
  {
  }

  lemma BeginKeeps(rt: Runtime, a: Action)
    requires LocksOk(rt) && Enabled(rt, a) && a.Begin?
    ensures LocksOk(Apply(rt, a))
  {
    hide HoldersOk, WaitersOk, Counted, SetDefault, Enter, Join;
    var counted := Counted(rt, a.sweepNow);
    CountedKeeps(rt, a.sweepNow);
    if Fresh(counted, a.grant, a.now) {
      EndedKeeps(counted, a.c, Call(a.grant, Returned(Some(counted.tokens[a.grant].accessToken))));
    } else {
      SetDefaultKeeps(counted, a.grant);
      var ready := SetDefault(counted, a.grant);
      var l := ready.table[a.grant];
      if ready.locks[l] == Lock(None, []) {
        EnterKeeps(ready, a.c, a.grant, l, a.recheckNow);
      } else {
        JoinKeeps(ready, a.c, a.grant, l);
      }
    }
  }

  /** The head waiter of a free lock leaves the queue and no longer counts as waiting. */
  lemma LeaveKeeps(rt: Runtime, c: CallId, l: LockId)
    requires LocksOk(rt) && l < |rt.locks| && rt.locks[l].holder.None?
    requires rt.locks[l].waiters != [] && rt.locks[l].waiters[0] == c && c in rt.calls && rt.calls[c].phase == Waiting(l)
    ensures LocksOk(rt.(locks := rt.locks[l := Lock(None, rt.locks[l].waiters[1..])],
                        calls := rt.calls[c := rt.calls[c].(phase := Cancelled)]))
  {
    var ws := rt.locks[l].waiters;
    assert ws == [c] + ws[1..];
  }

  lemma ResumeKeeps(rt: Runtime, a: Action)
    requires LocksOk(rt) && Enabled(rt, a) && a.Resume?
    ensures LocksOk(Apply(rt, a))
  {
    var c, l := a.c, rt.calls[a.c].phase.lock;
    var ws := rt.locks[l].waiters;
    LeaveKeeps(rt, c, l);
    hide HoldersOk, WaitersOk;
    var left := rt.(locks := rt.locks[l := Lock(None, ws[1..])],
                    calls := rt.calls[c := rt.calls[c].(phase := Cancelled)]);
    EnterKeeps(left, c, rt.calls[c].grant, l, a.recheckNow);
    hide LocksOk;
    assert Apply(rt, a).calls == Enter(left, c, rt.calls[c].grant, l, a.recheckNow).calls;
  }

  lemma FinishKeeps(rt: Runtime, a: Action)
    requires LocksOk(rt) && Enabled(rt, a) && a.Finish?
    ensures LocksOk(Apply(rt, a))
  {
  }

  lemma CancelKeeps(rt: Runtime, a: Action)
    requires LocksOk(rt) && Enabled(rt, a) && a.Cancel?
    ensures LocksOk(Apply(rt, a))
  {
  }

  lemma NextKeepsLocks(rt: Runtime, a: Action)
    requires LocksOk(rt)
    ensures LocksOk(Next(rt, a))
  {
    hide Counted, Lookup, Enter;
    if Enabled(rt, a) {
      match a
      case Begin(_, _, _, _, _) => BeginKeeps(rt, a);
      case Resume(_, _) => ResumeKeeps(rt, a);
      case Finish(_, _) => FinishKeeps(rt, a);
      case Cancel(_) => CancelKeeps(rt, a);
      case Invalidate(_) =>
    }
  }

  // ---------- what a step can change, seen from outside ----------

  /** Entries of the table stay, go, or (for a `Begin` on that grant) are made anew. */
  ghost predicate TableShape(rt: Runtime, a: Action, after: Runtime) {
    && |rt.locks| <= |after.locks| <= |rt.locks| + 1
    && (|after.locks| > |rt.locks| ==>
          a.Begin? && a.grant in after.table && after.table[a.grant] == |rt.locks|)
    && (forall g :: g in after.table ==>
          || (g in rt.table && after.table[g] == rt.table[g])
          || (a.Begin? && g == a.grant && after.table[g] == |rt.locks| < |after.locks|))
  }

  /** A call gets its ticket from the table in its first step and keeps it while it runs. */
  ghost predicate CallShape(rt: Runtime, a: Action, after: Runtime) {
    forall c :: c in after.calls && HasTicket(after.calls[c]) ==>
      || (c in rt.calls && HasTicket(rt.calls[c]) && after.calls[c].grant == rt.calls[c].grant
          && after.calls[c].phase.lock == rt.calls[c].phase.lock)
      || (a.Begin? && c == a.c && c !in rt.calls && after.calls[c].grant == a.grant
          && a.grant in after.table && after.calls[c].phase.lock == after.table[a.grant])
  }

  /** An exchange starts with its grant absent from the cache, and only an exchange that
      ends puts a grant there. */
  ghost predicate TokenShape(rt: Runtime, a: Action, after: Runtime) {
    && (forall c :: c in after.calls && after.calls[c].phase.Exchanging? ==>
          InExchange(rt, c, after.calls[c].grant) || after.calls[c].grant !in after.tokens)
    && (forall g :: g in after.tokens && g !in rt.tokens ==>
          a.Finish? && InExchange(rt, a.c, g) && !InExchange(after, a.c, g))
  }

  ghost predicate Shape(rt: Runtime, a: Action, after: Runtime) {
    TableShape(rt, a, after) && CallShape(rt, a, after) && TokenShape(rt, a, after)
  }

  /** What queueing for a lock, taking it and finding a usable token all leave alone. */
  ghost predicate OnlyCallChanged(rt: Runtime, c: CallId, g: Grant, after: Runtime) {
    && after.table == rt.table && |after.locks| == |rt.locks|
    && after.tokens.Keys <= rt.tokens.Keys
    && (forall x :: x in after.calls && x != c ==> x in rt.calls && after.calls[x] == rt.calls[x])
    && c in after.calls && after.calls[c].grant == g
    && (HasTicket(after.calls[c]) ==> g in rt.table && after.calls[c].phase.lock == rt.table[g])
    && (after.calls[c].phase.Exchanging? ==> g !in after.tokens)
  }

  lemma LookupOnlyChangesCall(rt: Runtime, c: CallId, g: Grant, now: real, recheckNow: real)
    requires TableOk(rt)
    ensures OnlyCallChanged(if Fresh(rt, g, now) then rt else SetDefault(rt, g), c, g, Lookup(rt, c, g, now, recheckNow))
  {
  }

  lemma OnlyCallChangedShape(rt: Runtime, ready: Runtime, a: Action, after: Runtime)
    requires LocksOk(rt) && a.Begin? && a.c !in rt.calls
    requires ready == rt || ready == SetDefault(rt, a.grant)
    requires OnlyCallChanged(ready, a.c, a.grant, after)
    ensures Shape(rt, a, after)
  {
    assert ready.calls == rt.calls && ready.tokens == rt.tokens;
    assert TableShape(rt, a, after);
    assert CallShape(rt, a, after);
    assert TokenShape(rt, a, after);
  }

  lemma LookupShape(rt: Runtime, a: Action)
    requires LocksOk(rt) && a.Begin? && a.c !in rt.calls
    ensures Shape(rt, a, Lookup(rt, a.c, a.grant, a.now, a.recheckNow))
  {
    LookupOnlyChangesCall(rt, a.c, a.grant, a.now, a.recheckNow);
    OnlyCallChangedShape(rt, if Fresh(rt, a.grant, a.now) then rt else SetDefault(rt, a.grant), a,
                         Lookup(rt, a.c, a.grant, a.now, a.recheckNow));
  }

  lemma BeginShape(rt: Runtime, a: Action)
    requires LocksOk(rt) && Enabled(rt, a) && a.Begin?
    ensures Shape(rt, a, Apply(rt, a))
  {
    hide Lookup, Counted, Shape, HoldersOk, WaitersOk;
    var counted := Counted(rt, a.sweepNow);
    CountedKeeps(rt, a.sweepNow);
    LookupShape(counted, a);
    ShapeFromCounted(rt, counted, a, Apply(rt, a));
  }

  lemma ShapeFromCounted(rt: Runtime, counted: Runtime, a: Action, after: Runtime)
    requires Shape(counted, a, after) && a.Begin?
    requires counted.calls == rt.calls && counted.locks == rt.locks && counted.tokens.Keys <= rt.tokens.Keys
    requires forall g :: g in counted.table ==> g in rt.table && counted.table[g] == rt.table[g]
    ensures Shape(rt, a, after)
  {
  }

  lemma ResumeShape(rt: Runtime, a: Action)
    requires LocksOk(rt) && Enabled(rt, a) && a.Resume?
    ensures Shape(rt, a, Apply(rt, a))
  {
  }

  lemma NextShape(rt: Runtime, a: Action)
    requires LocksOk(rt)
    ensures Shape(rt, a, Next(rt, a))
  {
    if Enabled(rt, a) {
      match a
      case Begin(_, _, _, _, _) => BeginShape(rt, a);
      case Resume(_, _) => ResumeShape(rt, a);
      case Finish(_, _) =>
      case Cancel(_) =>
      case Invalidate(_) =>
    }
  }

  lemma ObservedRemovals(h: History, before: Runtime, a: Action, after: Runtime, g: Grant)
    ensures Removals(Observe(h, before, a, after), g)
         == Removals(h, g) + if EntryRemoved(before, after, g) then 1 else 0
  {
  }

  lemma ObservedTags(h: History, before: Runtime, a: Action, after: Runtime)
    ensures var r := Observe(h, before, a, after);
            && r.tags == (if a.Begin? && |after.locks| > |before.locks| then h.tags + [Tag(a.grant, Removals(r, a.grant))] else h.tags)
            && r.seen == (if a.Begin? && a.c !in before.calls && a.c in after.calls && HasTicket(after.calls[a.c])
                          then h.seen[a.c := Removals(r, a.grant)] else h.seen)
  {
  }

  lemma EntriesKept(s: State, a: Action, t: State)
    requires TagsOk(s) && TableShape(s.rt, a, t.rt) && t.h == Observe(s.h, s.rt, a, t.rt)
    ensures EntriesTagged(t)
  {
    ObservedTags(s.h, s.rt, a, t.rt);
    forall g | g in t.rt.table
      ensures t.rt.table[g] < |t.h.tags| && t.h.tags[t.rt.table[g]] == Tag(g, Removals(t.h, g))
    {
      ObservedRemovals(s.h, s.rt, a, t.rt, g);
      hide Removals, Observe;
      if g in s.rt.table && t.rt.table[g] == s.rt.table[g] {
        assert t.h.tags[s.rt.table[g]] == s.h.tags[s.rt.table[g]];
      }
    }
  }

  lemma StraysKept(s: State, a: Action, t: State, l: LockId)
    requires TagsOk(s) && TableShape(s.rt, a, t.rt) && t.h == Observe(s.h, s.rt, a, t.rt) && l < |t.h.tags|
    ensures StrayIsOld(t, l)
  {
    ObservedTags(s.h, s.rt, a, t.rt);
    ObservedRemovals(s.h, s.rt, a, t.rt, t.h.tags[l].grant);
    hide Removals, Observe;
    if l < |s.h.tags| {
      assert StrayIsOld(s, l);
    }
  }

  /** The tag of a new lock is unlike every earlier one. */
  lemma TagsStayDifferent(s: State, a: Action, t: State)
    requires TagsOk(s) && TableShape(s.rt, a, t.rt) && t.h == Observe(s.h, s.rt, a, t.rt)
    ensures TagsDiffer(t.h.tags)
  {
    ObservedTags(s.h, s.rt, a, t.rt);
    if |t.rt.locks| > |s.rt.locks| {
      ObservedRemovals(s.h, s.rt, a, t.rt, a.grant);
      hide Removals, Observe;
      forall l | 0 <= l < |s.h.tags| ensures s.h.tags[l] != Tag(a.grant, Removals(t.h, a.grant)) {
        assert StrayIsOld(s, l);
      }
    }
  }

  lemma TagsKept(s: State, a: Action, after: Runtime)
    requires TagsOk(s) && TableShape(s.rt, a, after)
    ensures TagsOk(State(after, Observe(s.h, s.rt, a, after)))
  {
    var t := State(after, Observe(s.h, s.rt, a, after));
    ObservedTags(s.h, s.rt, a, after);
    EntriesKept(s, a, t);
    TagsStayDifferent(s, a, t);
    hide Observe, StrayIsOld, EntriesTagged, TagsDiffer, Removals;
    forall l | 0 <= l < |t.h.tags| ensures StrayIsOld(t, l) {
      StraysKept(s, a, t, l);
    }
  }

  lemma TicketsKept(s: State, a: Action, after: Runtime)
    requires TagsOk(s) && TicketsOk(s) && TableShape(s.rt, a, after) && CallShape(s.rt, a, after)
    ensures TicketsOk(State(after, Observe(s.h, s.rt, a, after)))
  {
    var t := State(after, Observe(s.h, s.rt, a, after));
    EntriesKept(s, a, t);
    ObservedTags(s.h, s.rt, a, after);
    hide Observe, Removals;
    forall c | c in after.calls && HasTicket(after.calls[c])
      ensures after.calls[c].phase.lock < |t.h.tags| && c in t.h.seen
      ensures t.h.tags[after.calls[c].phase.lock] == Tag(after.calls[c].grant, t.h.seen[c])
    {
      if c in s.rt.calls {
        assert t.h.seen[c] == s.h.seen[c];
      }
    }
  }

  lemma OverlapKept(s: State, a: Action, after: Runtime)
    requires OverlapOk(s) && TokenShape(s.rt, a, after)
    ensures OverlapOk(State(after, Observe(s.h, s.rt, a, after)))
  {
    var h := Observe(s.h, s.rt, a, after);
    assert s.h.overlapped <= h.overlapped;
    forall c | c in after.calls && after.calls[c].phase.Exchanging? && after.calls[c].grant in after.tokens
      ensures c in h.overlapped
    {
      var g := after.calls[c].grant;
      assert InExchange(s.rt, c, g);
      if g !in s.rt.tokens {
        assert a.c != c && InExchange(s.rt, a.c, g);
        assert HasRival(s.rt, c);
      }
    }
  }

  lemma StepKeepsInv(s: State, a: Action)
    requires Inv(s)
    ensures Inv(Step(s, a))
  {
    var after := Next(s.rt, a);
    NextKeepsLocks(s.rt, a);
    NextShape(s.rt, a);
    hide TagsOk, TicketsOk, HoldersOk, WaitersOk, OverlapOk, TableShape, CallShape, TokenShape, Next, Observe;
    TagsKept(s, a, after);
    TicketsKept(s, a, after);
    OverlapKept(s, a, after);
  }

  lemma {:induction false} ReachableInv(actions: seq<Action>, n: nat)
    requires n <= |actions|
    ensures Inv(StateAt(actions, n))
  {
    hide Step;
    if n > 0 {
      hide Inv;
      ReachableInv(actions, n - 1);
      StepKeepsInv(StateAt(actions, n - 1), actions[n - 1]);
    }
  }

  lemma ReachableLocks(actions: seq<Action>, n: nat)
    requires n <= |actions|
    ensures LocksOk(StateAt(actions, n).rt)
  {
    ReachableInv(actions, n);
    hide TagsOk, TicketsOk, OverlapOk, HoldersOk, WaitersOk;
  }

  /** The runtime after one more step. */
  lemma OneStep(actions: seq<Action>, n: nat)
    requires n < |actions|
    ensures StateAt(actions, n + 1).rt == Next(StateAt(actions, n).rt, actions[n])
  {
    hide Next, Observe;
  }

  // ---------- single flight ----------

  /** Step `k` of the run took the lock entry of `g` out of the table. */
  ghost predicate RemovedAt(actions: seq<Action>, k: nat, g: Grant)
    requires k < |actions|
  {
    EntryRemoved(StateAt(actions, k).rt, StateAt(actions, k + 1).rt, g)
  }

  /** When step `k` is taken, one of the two calls has begun and the other has not. */
  ghost predicate BetweenStarts(actions: seq<Action>, k: nat, c: CallId, d: CallId)
    requires k < |actions|
  {
    (c in StateAt(actions, k).rt.calls) != (d in StateAt(actions, k).rt.calls)
  }

  lemma SeenBySteps(s: State, a: Action, c: CallId, g: Grant)
    requires Inv(s) && s.h.seen.Keys <= s.rt.calls.Keys
    requires c in Step(s, a).h.seen && c in Step(s, a).rt.calls && Step(s, a).rt.calls[c].grant == g
    ensures c in s.h.seen ==> c in s.rt.calls && s.rt.calls[c].grant == g && Step(s, a).h.seen[c] == s.h.seen[c]
    ensures c !in s.h.seen ==> c !in s.rt.calls && Step(s, a).h.seen[c] == Removals(Step(s, a).h, g)
  {
    var after := Next(s.rt, a);
    ObservedRemovals(s.h, s.rt, a, after, g);
    NextShape(s.rt, a);
    GrantsFixed(s.rt, a);
    ObservedTags(s.h, s.rt, a, after);
    hide Observe, Next, TagsOk, TicketsOk, OverlapOk, HoldersOk, WaitersOk, EntryRemoved, Removals;
  }

  lemma GrantsFixed(rt: Runtime, a: Action)
    requires TableOk(rt)
    ensures forall c :: c in rt.calls ==> c in Next(rt, a).calls && Next(rt, a).calls[c].grant == rt.calls[c].grant
    ensures a.Begin? ==> forall c :: c in Next(rt, a).calls ==> c in rt.calls || (c == a.c && Next(rt, a).calls[c].grant == a.grant)
    ensures !a.Begin? ==> Next(rt, a).calls.Keys == rt.calls.Keys
  {
    hide Counted, Lookup, Enter;
  }

  lemma {:induction false} SeenAreCalls(actions: seq<Action>, n: nat)
    requires n <= |actions|
    ensures StateAt(actions, n).h.seen.Keys <= StateAt(actions, n).rt.calls.Keys
  {
    if n > 0 {
      hide Next, Observe;
      SeenAreCalls(actions, n - 1);
      var s := StateAt(actions, n - 1);
      GrantsFixed(s.rt, actions[n - 1]);
      ObservedTags(s.h, s.rt, actions[n - 1], Next(s.rt, actions[n - 1]));
    }
  }

  /** Call `c` of grant `g` has a count of removals on record. */
  ghost predicate Counts(s: State, c: CallId, g: Grant) {
    c in s.h.seen && c in s.rt.calls && s.rt.calls[c].grant == g
  }

  ghost predicate FirstCountCurrent(s: State, c: CallId, d: CallId, g: Grant) {
    Counts(s, c, g) && d !in s.rt.calls ==> s.h.seen[c] == Removals(s.h, g)
  }

  ghost predicate CountsAgree(s: State, c: CallId, d: CallId, g: Grant) {
    Counts(s, c, g) && Counts(s, d, g) ==> s.h.seen[c] == s.h.seen[d]
  }

  lemma FirstCountStep(s: State, a: Action, c: CallId, d: CallId, g: Grant)
    requires Inv(s) && s.h.seen.Keys <= s.rt.calls.Keys && FirstCountCurrent(s, c, d, g)
    requires c in s.rt.calls && d !in s.rt.calls ==> !EntryRemoved(s.rt, Step(s, a).rt, g)
    ensures FirstCountCurrent(Step(s, a), c, d, g)
  {
    var t := Step(s, a);
    if Counts(t, c, g) && d !in t.rt.calls {
      GrantsFixed(s.rt, a);
      SeenBySteps(s, a, c, g);
      ObservedRemovals(s.h, s.rt, a, t.rt, g);
    }
  }

  lemma CountsAgreeStep(s: State, a: Action, c: CallId, d: CallId, g: Grant)
    requires Inv(s) && s.h.seen.Keys <= s.rt.calls.Keys && c != d
    requires FirstCountCurrent(s, c, d, g) && FirstCountCurrent(s, d, c, g) && CountsAgree(s, c, d, g)
    requires (c in s.rt.calls) != (d in s.rt.calls) ==> !EntryRemoved(s.rt, Step(s, a).rt, g)
    ensures CountsAgree(Step(s, a), c, d, g)
  {
    var t := Step(s, a);
    if Counts(t, c, g) && Counts(t, d, g) {
      GrantsFixed(s.rt, a);
      SeenBySteps(s, a, c, g);
      SeenBySteps(s, a, d, g);
      ObservedRemovals(s.h, s.rt, a, t.rt, g);
    }
  }

  /** With no removal between the starts of two calls, both saw the same count of removals. */
  lemma {:induction false} SameCountWithoutRemoval(actions: seq<Action>, n: nat, c: CallId, d: CallId, g: Grant)
    requires n <= |actions| && c != d
    requires forall k :: 0 <= k < n && RemovedAt(actions, k, g) ==> !BetweenStarts(actions, k, c, d)
    ensures var s := StateAt(actions, n);
            FirstCountCurrent(s, c, d, g) && FirstCountCurrent(s, d, c, g) && CountsAgree(s, c, d, g)
  {
    hide Next, Observe, Inv, EntryRemoved;
    if n > 0 {
      var s, a := StateAt(actions, n - 1), actions[n - 1];
      SameCountWithoutRemoval(actions, n - 1, c, d, g);
      ReachableInv(actions, n - 1);
      SeenAreCalls(actions, n - 1);
      assert RemovedAt(actions, n - 1, g) ==> !BetweenStarts(actions, n - 1, c, d);
      FirstCountStep(s, a, c, d, g);
      FirstCountStep(s, a, d, c, g);
      CountsAgreeStep(s, a, c, d, g);
    }
  }

  lemma SameCountSameCall(s: State, c: CallId, d: CallId, g: Grant)
    requires Inv(s) && InExchange(s.rt, c, g) && InExchange(s.rt, d, g)
    requires s.h.seen[c] == s.h.seen[d]
    ensures c == d
  {
    var l, k := s.rt.calls[c].phase.lock, s.rt.calls[d].phase.lock;
    assert s.h.tags[l] == s.h.tags[k];
    assert l == k;
  }

  /** Single flight, relative to lock removal: in every interleaving, two calls exchange the
      same grant at once only if its lock entry was removed between their starts. */
  lemma SingleFlight(actions: seq<Action>, n: nat, c: CallId, d: CallId, g: Grant)
    requires n <= |actions| && c != d
    requires InExchange(StateAt(actions, n).rt, c, g) && InExchange(StateAt(actions, n).rt, d, g)
    ensures exists k :: 0 <= k < n && RemovedAt(actions, k, g) && BetweenStarts(actions, k, c, d)
  {
    if forall k :: 0 <= k < n && RemovedAt(actions, k, g) ==> !BetweenStarts(actions, k, c, d) {
      SameCountWithoutRemoval(actions, n, c, d, g);
      ReachableInv(actions, n);
      SameCountSameCall(StateAt(actions, n), c, d, g);
    }
  }

  /** Who removes a lock entry: `invalidate` on that grant, even while the lock is held, or a
      sweep, and then only with an unusable token cached and the lock not held. */
  lemma RemovalCause(rt: Runtime, a: Action, g: Grant)
    requires LocksOk(rt) && EntryRemoved(rt, Next(rt, a), g)
    ensures a == Invalidate(g) ||
            (&& a.Begin? && (rt.callCount + 1) % SWEEP_INTERVAL_CALLS == 0
             && Stale(rt, g, a.sweepNow) && rt.locks[rt.table[g]].holder.None?
             && forall c :: c in rt.calls && rt.calls[c].phase.Exchanging? ==> rt.calls[c].phase.lock != rt.table[g])
  {
    if a.Begin? && Enabled(rt, a) {
      LookupOnlyChangesCall(Counted(rt, a.sweepNow), a.c, a.grant, a.now, a.recheckNow);
    }
  }

  /** Two calls that ran their exchanges side by side at some moment are on record. */
  lemma {:induction false} OverlapIsReal(actions: seq<Action>, n: nat, c: CallId)
    requires n <= |actions| && c in StateAt(actions, n).h.overlapped
    ensures exists k :: 0 <= k <= n && HasRival(StateAt(actions, k).rt, c)
  {
    if n > 0 && c in StateAt(actions, n - 1).h.overlapped {
      OverlapIsReal(actions, n - 1, c);
    } else {
      assert HasRival(StateAt(actions, n).rt, c);
    }
  }

  /** While a call exchanges alone from its start on, its grant has no cached token. */
  lemma LoneExchangeHasNoToken(actions: seq<Action>, n: nat, c: CallId, g: Grant)
    requires n <= |actions| && InExchange(StateAt(actions, n).rt, c, g)
    requires forall k :: 0 <= k <= n ==> !HasRival(StateAt(actions, k).rt, c)
    ensures g !in StateAt(actions, n).rt.tokens
  {
    ReachableInv(actions, n);
    if c in StateAt(actions, n).h.overlapped {
      OverlapIsReal(actions, n, c);
    }
  }

  /** Call `c` waits behind a call in its exchange on the same grant, or behind a free lock
      whose head waiter may resume now. */
  ghost predicate CanProceed(rt: Runtime, c: CallId, now: real)
    requires c in rt.calls && rt.calls[c].phase.Waiting?
  {
    var l := rt.calls[c].phase.lock;
    && l < |rt.locks|
    && match rt.locks[l].holder
       case Some(d) => InExchange(rt, d, rt.calls[c].grant)
       case None => rt.locks[l].waiters != [] && Enabled(rt, Resume(rt.locks[l].waiters[0], now))
  }

  /** No wake-up is lost: in every run, every waiting call can proceed in this sense. */
  lemma WaitersCanProceed(actions: seq<Action>, n: nat, c: CallId, now: real)
    requires n <= |actions|
    requires c in StateAt(actions, n).rt.calls && StateAt(actions, n).rt.calls[c].phase.Waiting?
    ensures CanProceed(StateAt(actions, n).rt, c, now)
  {
    ReachableInv(actions, n);
    WaiterCanProceed(StateAt(actions, n), c, now);
  }

  lemma WaiterCanProceed(s: State, c: CallId, now: real)
    requires Inv(s) && c in s.rt.calls && s.rt.calls[c].phase.Waiting?
    ensures CanProceed(s.rt, c, now)
  {
    var l := s.rt.calls[c].phase.lock;
    assert c in s.rt.locks[l].waiters;
    if s.rt.locks[l].holder.Some? {
      HolderIsOnSameGrant(s, c, s.rt.locks[l].holder.value);
    } else {
      assert s.rt.locks[l].waiters[0] in s.rt.locks[l].waiters;
    }
  }

  lemma HolderIsOnSameGrant(s: State, c: CallId, d: CallId)
    requires TicketsOk(s) && c in s.rt.calls && d in s.rt.calls
    requires s.rt.calls[c].phase.Waiting? && s.rt.calls[d].phase == Exchanging(s.rt.calls[c].phase.lock)
    ensures s.rt.calls[d].grant == s.rt.calls[c].grant
  {
    assert s.h.tags[s.rt.calls[d].phase.lock] == s.h.tags[s.rt.calls[c].phase.lock];
  }

  /** Calls whose locks are of the grant's current generation: at most one of them exchanges. */
  lemma OneExchangePerGeneration(s: State, c: CallId, d: CallId, g: Grant)
    requires Inv(s) && InExchange(s.rt, c, g) && InExchange(s.rt, d, g)
    requires s.h.seen[c] == Removals(s.h, g) && s.h.seen[d] == Removals(s.h, g)
    ensures c == d && g in s.rt.table
  {
    assert StrayIsOld(s, s.rt.calls[c].phase.lock) && StrayIsOld(s, s.rt.calls[d].phase.lock);
    SameCountSameCall(s, c, d, g);
  }

  /** So while a grant's lock was never removed, at most one call exchanges it. */
  lemma OneExchangeWhileNoRemoval(s: State, c: CallId, d: CallId, g: Grant)
    requires Inv(s) && Removals(s.h, g) == 0 && InExchange(s.rt, c, g) && InExchange(s.rt, d, g)
    ensures c == d && g in s.rt.table
  {
    assert StrayIsOld(s, s.rt.calls[c].phase.lock) && StrayIsOld(s, s.rt.calls[d].phase.lock);
    OneExchangePerGeneration(s, c, d, g);
  }

  /** `invalidate` ends single flight: a call that begins right after it starts its own
      exchange, whatever is already in flight for the grant. */
  lemma InvalidateAdmitsSecondExchange(rt: Runtime, c: CallId, d: CallId, g: Grant, t0: real, t1: real, t2: real)
    requires LocksOk(rt) && InExchange(rt, c, g) && d !in rt.calls && g != ""
    ensures var after := Next(Next(rt, Invalidate(g)), Begin(d, g, t0, t1, t2));
            InExchange(after, c, g) && InExchange(after, d, g)
  {
    var dropped := Next(rt, Invalidate(g));
    var counted := Counted(dropped, t0);
    assert g !in counted.table && g !in counted.tokens;
  }

  /** A sweep can do the same in the gap between a release and the woken waiter's resumption. */
  lemma SweepInWakeUpGapAdmitsSecondExchange(rt: Runtime, c: CallId, d: CallId, g: Grant, now: real)
    requires LocksOk(rt) && g in rt.table && Stale(rt, g, now) && d !in rt.calls && g != ""
    requires rt.locks[rt.table[g]].holder.None? && rt.locks[rt.table[g]].waiters != [] && c == rt.locks[rt.table[g]].waiters[0]
    requires (rt.callCount + 1) % SWEEP_INTERVAL_CALLS == 0
    requires c in rt.calls && rt.calls[c].grant == g
    ensures var after := Next(Next(rt, Begin(d, g, now, now, now)), Resume(c, now));
            InExchange(after, c, g) && InExchange(after, d, g)
  {
    assert c in rt.locks[rt.table[g]].waiters;
    var mid := Next(rt, Begin(d, g, now, now, now));
    assert InExchange(mid, d, g) && g !in mid.tokens;
  }
}
