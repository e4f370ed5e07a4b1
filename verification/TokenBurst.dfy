/**
 How many exchanges a burst of callers makes. A burst on a grant begins at any moment of a run
 at which no earlier call on it is still waiting or exchanging; a token may still be cached, as
 long as it is stale to whoever reads it.
 */
module TokenBurst {
  import opened Options
  import opened AsyncLocks
  import opened TokenCache

  /** Where a burst begins: the calls made before it, the exchanges that had ended on its
      grant, and the token then cached. */
  datatype Origin = Origin(prior: set<CallId>, exchanges: nat, leftover: Option<Token>)

  ghost function OriginOf(s: State, g: Grant): Origin {
    Origin(s.rt.calls.Keys, |Outcomes(s.h, g)|, if g in s.rt.tokens then Some(s.rt.tokens[g]) else None)
  }

  /** No call on the grant waits or exchanges. */
  ghost predicate Quiet(rt: Runtime, g: Grant) {
    forall c :: c in rt.calls && rt.calls[c].grant == g ==> !HasTicket(rt.calls[c])
  }

  /** The burst's callers so far. */
  ghost function Callers(rt: Runtime, g: Grant, o: Origin): set<CallId> {
    set c | c in rt.calls && c !in o.prior && rt.calls[c].grant == g
  }

  ghost function FailedCallers(rt: Runtime, g: Grant, o: Origin): set<CallId> {
    set c | c in rt.calls && c !in o.prior && rt.calls[c] == Call(g, Returned(None))
  }

  /** The outcomes of the burst's exchanges so far. */
  function OutcomesSince(h: History, g: Grant, o: Origin): seq<Option<Token>> {
    var all := Outcomes(h, g);
    if o.exchanges <= |all| then all[o.exchanges..] else []
  }

  function Success(outcomes: seq<Option<Token>>): Option<Token> {
    if outcomes == [] then None else outcomes[|outcomes| - 1]
  }

  /** Whenever this step compares the clock with the grant's token, the token is still usable. */
  ghost predicate UsableWhenRead(token: Token, rt: Runtime, a: Action, g: Grant) {
    && (a.Begin? && a.grant == g ==> token.IsUsable(a.now) && token.IsUsable(a.recheckNow))
    && (a.Resume? && a.c in rt.calls && rt.calls[a.c].grant == g ==> token.IsUsable(a.recheckNow))
  }

  ghost predicate StaleWhenRead(token: Token, rt: Runtime, a: Action, g: Grant) {
    && (a.Begin? && a.grant == g ==> !token.IsUsable(a.now) && !token.IsUsable(a.recheckNow))
    && (a.Resume? && a.c in rt.calls && rt.calls[a.c].grant == g ==> !token.IsUsable(a.recheckNow))
  }

  /** A step that leaves the burst on `g` alone: no lock removal and no cancellation; the token
      left over from before is stale until the burst has won one, and that one stays usable,
      also to a sweep. */
  ghost predicate CalmStep(s: State, a: Action, g: Grant, o: Origin)
    requires TableOk(s.rt)
  {
    && !EntryRemoved(s.rt, Next(s.rt, a), g)
    && (a.Cancel? && a.c in s.rt.calls ==> s.rt.calls[a.c].grant != g)
    && match Success(OutcomesSince(s.h, g, o))
       case Some(won) => UsableWhenRead(won, s.rt, a, g) && (a.Begin? ==> won.IsUsable(a.sweepNow))
       case None => o.leftover.Some? ==> StaleWhenRead(o.leftover.value, s.rt, a, g)
  }

  predicate CallOk(phase: Phase, won: Option<Token>) {
    match phase
    case Waiting(_) => true
    case Exchanging(_) => won.None?
    case Returned(token) => token.Some? ==> won.Some? && token.value == won.value.accessToken
    case Cancelled => false
  }

  /** Calls of before the burst are over; the burst's own fit its outcome so far. */
  ghost predicate CallsOk(rt: Runtime, g: Grant, o: Origin, won: Option<Token>) {
    forall c :: c in rt.calls && rt.calls[c].grant == g ==>
      if c in o.prior then !HasTicket(rt.calls[c]) else CallOk(rt.calls[c].phase, won)
  }

  ghost predicate TokenOk(rt: Runtime, g: Grant, o: Origin, won: Option<Token>) {
    match won
    case Some(token) => g in rt.table && g in rt.tokens && rt.tokens[g] == token
    case None => g in rt.tokens ==> o.leftover == Some(rt.tokens[g])
  }

  /** The burst's exchanges so far are failures, then at most one success; its callers that
      failed are as many as the failures; after the success every caller gets its token. */
  ghost predicate BurstOk(rt: Runtime, outcomes: seq<Option<Token>>, g: Grant, o: Origin) {
    && o.prior <= rt.calls.Keys
    && (forall i :: 0 <= i < |outcomes| - 1 ==> outcomes[i].None?)
    && |FailedCallers(rt, g, o)| == |outcomes| - (if Success(outcomes).Some? then 1 else 0)
    && CallsOk(rt, g, o, Success(outcomes))
    && TokenOk(rt, g, o, Success(outcomes))
  }

  lemma FailedCallersKept(rt: Runtime, after: Runtime, c: CallId, g: Grant, o: Origin)
    requires forall x :: x != c ==> (x in after.calls <==> x in rt.calls) && (x in rt.calls ==> after.calls[x] == rt.calls[x])
    requires c !in FailedCallers(rt, g, o) && c !in FailedCallers(after, g, o)
    ensures FailedCallers(after, g, o) == FailedCallers(rt, g, o)
  {
  }

  /** A lookup of a grant whose cached token, if there is one, is usable. */
  lemma LookupWhileUsable(rt: Runtime, c: CallId, g: Grant, now: real, recheckNow: real)
    requires TableOk(rt) && (g in rt.tokens ==> rt.tokens[g].IsUsable(now))
    ensures var after := Lookup(rt, c, g, now, recheckNow);
            && (forall x :: x in rt.tokens && (x == g ==> rt.tokens[x].IsUsable(now)) ==> x in after.tokens && after.tokens[x] == rt.tokens[x])
            && after.tokens.Keys <= rt.tokens.Keys
            && if g in rt.tokens then after.calls[c].phase == Returned(Some(rt.tokens[g].accessToken))
               else HasTicket(after.calls[c])
  {
  }

  /** Any lookup leaves other grants' tokens alone. */
  lemma LookupOfAnother(rt: Runtime, c: CallId, g: Grant, other: Grant, now: real, recheckNow: real)
    requires TableOk(rt) && g != other
    ensures var after := Lookup(rt, c, g, now, recheckNow);
            (other in after.tokens <==> other in rt.tokens) && (other in rt.tokens ==> after.tokens[other] == rt.tokens[other])
  {
  }

  lemma SweepSparesUsable(rt: Runtime, g: Grant, now: real)
    requires TableOk(rt) && (g in rt.tokens ==> rt.tokens[g].IsUsable(now))
    ensures var counted := Counted(rt, now);
            (g in counted.tokens <==> g in rt.tokens) && (g in rt.tokens ==> counted.tokens[g] == rt.tokens[g])
  {
  }

  /** A lookup of a grant whose cached token, if there is one, is stale at both readings. */
  lemma LookupWhileStale(rt: Runtime, c: CallId, g: Grant, now: real, recheckNow: real)
    requires TableOk(rt) && (g in rt.tokens ==> !rt.tokens[g].IsUsable(now) && !rt.tokens[g].IsUsable(recheckNow))
    ensures var after := Lookup(rt, c, g, now, recheckNow);
            HasTicket(after.calls[c]) && (g in after.tokens ==> g in rt.tokens && after.tokens[g] == rt.tokens[g])
  {
  }

  lemma SweepKeepsOrDrops(rt: Runtime, g: Grant, now: real)
    requires TableOk(rt)
    ensures g in Counted(rt, now).tokens ==> g in rt.tokens && Counted(rt, now).tokens[g] == rt.tokens[g]
  {
  }

  /** A call on `g` begins before the burst has won a token: it queues or exchanges. */
  lemma BeginCold(rt: Runtime, a: Action, g: Grant)
    requires TableOk(rt) && a.Begin? && Enabled(rt, a)
    requires g in rt.tokens ==> StaleWhenRead(rt.tokens[g], rt, a, g)
    ensures var after := Next(rt, a);
            && OnlyCallOf(rt, a.c, a.grant, after)
            && (g in after.tokens ==> g in rt.tokens && after.tokens[g] == rt.tokens[g])
            && (a.grant == g ==> HasTicket(after.calls[a.c]))
  {
    var counted := Counted(rt, a.sweepNow);
    SweepKeepsOrDrops(rt, g, a.sweepNow);
    if a.grant == g {
      LookupWhileStale(counted, a.c, g, a.now, a.recheckNow);
    } else {
      LookupOfAnother(counted, a.c, a.grant, g, a.now, a.recheckNow);
    }
    hide Counted, Lookup;
  }

  /** And after: it returns with that token. */
  lemma BeginWon(rt: Runtime, a: Action, g: Grant)
    requires TableOk(rt) && a.Begin? && Enabled(rt, a)
    requires g in rt.tokens && rt.tokens[g].IsUsable(a.sweepNow) && UsableWhenRead(rt.tokens[g], rt, a, g)
    ensures var after := Next(rt, a);
            && OnlyCallOf(rt, a.c, a.grant, after)
            && g in after.tokens && after.tokens[g] == rt.tokens[g]
            && (a.grant == g ==> after.calls[a.c].phase == Returned(Some(rt.tokens[g].accessToken)))
  {
    var counted := Counted(rt, a.sweepNow);
    SweepSparesUsable(rt, g, a.sweepNow);
    if a.grant == g {
      LookupWhileUsable(counted, a.c, g, a.now, a.recheckNow);
    } else {
      LookupOfAnother(counted, a.c, a.grant, g, a.now, a.recheckNow);
    }
    hide Counted, Lookup;
  }

  lemma OutcomesGrow(s: State, a: Action, g: Grant, o: Origin)
    requires TableOk(s.rt) && o.exchanges <= |Outcomes(s.h, g)|
    ensures o.exchanges <= |Outcomes(Step(s, a).h, g)|
    ensures OutcomesSince(Step(s, a).h, g, o) ==
            if a.Finish? && Enabled(s.rt, a) && s.rt.calls[a.c].grant == g then OutcomesSince(s.h, g, o) + [a.outcome]
            else OutcomesSince(s.h, g, o)
  {
  }

  lemma CalmBegin(rt: Runtime, outcomes: seq<Option<Token>>, a: Action, g: Grant, o: Origin)
    requires TableOk(rt) && BurstOk(rt, outcomes, g, o) && a.Begin? && Enabled(rt, a)
    requires !EntryRemoved(rt, Next(rt, a), g)
    requires match Success(outcomes)
             case Some(won) => UsableWhenRead(won, rt, a, g) && won.IsUsable(a.sweepNow)
             case None => o.leftover.Some? ==> StaleWhenRead(o.leftover.value, rt, a, g)
    ensures BurstOk(Next(rt, a), outcomes, g, o)
  {
    hide Next, Enabled, BurstOk;
    if Success(outcomes).Some? {
      CalmBeginWon(rt, outcomes, a, g, o);
    } else {
      CalmBeginCold(rt, outcomes, a, g, o);
    }
  }

  lemma CalmBeginWon(rt: Runtime, outcomes: seq<Option<Token>>, a: Action, g: Grant, o: Origin)
    requires TableOk(rt) && BurstOk(rt, outcomes, g, o) && a.Begin? && Enabled(rt, a)
    requires !EntryRemoved(rt, Next(rt, a), g) && Success(outcomes).Some?
    requires UsableWhenRead(Success(outcomes).value, rt, a, g) && Success(outcomes).value.IsUsable(a.sweepNow)
    ensures BurstOk(Next(rt, a), outcomes, g, o)
  {
    BeginWon(rt, a, g);
    hide Next, Enabled, UsableWhenRead;
    FailedCallersKept(rt, Next(rt, a), a.c, g, o);
  }

  lemma CalmBeginCold(rt: Runtime, outcomes: seq<Option<Token>>, a: Action, g: Grant, o: Origin)
    requires TableOk(rt) && BurstOk(rt, outcomes, g, o) && a.Begin? && Enabled(rt, a) && Success(outcomes).None?
    requires o.leftover.Some? ==> StaleWhenRead(o.leftover.value, rt, a, g)
    ensures BurstOk(Next(rt, a), outcomes, g, o)
  {
    BeginCold(rt, a, g);
    hide Next, Enabled, StaleWhenRead;
    var after := Next(rt, a);
    assert a.c !in FailedCallers(after, g, o) && a.c !in FailedCallers(rt, g, o);
    FailedCallersKept(rt, after, a.c, g, o);
    hide FailedCallers;
    assert CallsOk(after, g, o, None);
  }

  lemma CalmResume(rt: Runtime, outcomes: seq<Option<Token>>, a: Action, g: Grant, o: Origin)
    requires TableOk(rt) && BurstOk(rt, outcomes, g, o) && a.Resume? && Enabled(rt, a)
    requires match Success(outcomes)
             case Some(won) => UsableWhenRead(won, rt, a, g)
             case None => o.leftover.Some? ==> StaleWhenRead(o.leftover.value, rt, a, g)
    ensures BurstOk(Next(rt, a), outcomes, g, o)
  {
    FailedCallersKept(rt, Next(rt, a), a.c, g, o);
  }

  lemma CalmFinish(rt: Runtime, outcomes: seq<Option<Token>>, a: Action, g: Grant, o: Origin)
    requires TableOk(rt) && BurstOk(rt, outcomes, g, o) && a.Finish? && Enabled(rt, a)
    requires forall x :: InExchange(rt, a.c, g) && InExchange(rt, x, g) ==> x == a.c
    requires InExchange(rt, a.c, g) ==> g in rt.table
    ensures BurstOk(Next(rt, a), if rt.calls[a.c].grant == g then outcomes + [a.outcome] else outcomes, g, o)
  {
    var after := Next(rt, a);
    if rt.calls[a.c].grant != g {
      FailedCallersKept(rt, after, a.c, g, o);
    } else {
      FinishOwn(rt, outcomes, a, g, o);
    }
  }

  lemma FinishOwn(rt: Runtime, outcomes: seq<Option<Token>>, a: Action, g: Grant, o: Origin)
    requires TableOk(rt) && BurstOk(rt, outcomes, g, o) && a.Finish? && Enabled(rt, a) && rt.calls[a.c].grant == g
    requires forall x :: InExchange(rt, x, g) ==> x == a.c
    requires g in rt.table
    ensures BurstOk(Next(rt, a), outcomes + [a.outcome], g, o)
  {
    var after := Next(rt, a);
    assert a.c !in o.prior && Success(outcomes).None?;
    assert Success(outcomes + [a.outcome]) == a.outcome;
    if a.outcome.Some? {
      FailedCallersKept(rt, after, a.c, g, o);
    } else {
      assert FailedCallers(after, g, o) == FailedCallers(rt, g, o) + {a.c};
    }
    forall x | x in after.calls && after.calls[x].grant == g && x !in o.prior ensures CallOk(after.calls[x].phase, a.outcome) {
      assert x != a.c ==> CallOk(rt.calls[x].phase, None) && !InExchange(rt, x, g);
    }
  }

  lemma CalmOther(rt: Runtime, outcomes: seq<Option<Token>>, a: Action, g: Grant, o: Origin)
    requires TableOk(rt) && BurstOk(rt, outcomes, g, o)
    requires !EntryRemoved(rt, Next(rt, a), g)
    requires a.Cancel? || a.Invalidate? || !Enabled(rt, a)
    requires a.Cancel? && a.c in rt.calls ==> rt.calls[a.c].grant != g
    ensures BurstOk(Next(rt, a), outcomes, g, o)
  {
    if a.Cancel? {
      FailedCallersKept(rt, Next(rt, a), a.c, g, o);
    } else {
      assert FailedCallers(Next(rt, a), g, o) == FailedCallers(rt, g, o);
    }
  }

  // ---------- one exchange at a time ----------

  /** Whoever waits or exchanges does so on the grant's current lock. */
  ghost predicate TicketsCurrent(s: State, g: Grant) {
    forall c :: c in s.rt.calls && s.rt.calls[c].grant == g && HasTicket(s.rt.calls[c]) ==>
      c in s.h.seen && s.h.seen[c] == Removals(s.h, g)
  }

  lemma TicketsStayCurrent(s: State, a: Action, g: Grant)
    requires Inv(s) && TicketsCurrent(s, g) && !EntryRemoved(s.rt, Next(s.rt, a), g)
    ensures TicketsCurrent(Step(s, a), g)
  {
    var after := Next(s.rt, a);
    NextShape(s.rt, a);
    ObservedTags(s.h, s.rt, a, after);
    ObservedRemovals(s.h, s.rt, a, after, g);
    hide Next, Observe, Removals, EntryRemoved, TagsOk, OverlapOk, HoldersOk, WaitersOk;
  }

  lemma CalmStepKeepsBurst(s: State, a: Action, g: Grant, o: Origin)
    requires Inv(s) && TicketsCurrent(s, g) && o.exchanges <= |Outcomes(s.h, g)|
    requires BurstOk(s.rt, OutcomesSince(s.h, g, o), g, o) && CalmStep(s, a, g, o)
    ensures BurstOk(Step(s, a).rt, OutcomesSince(Step(s, a).h, g, o), g, o)
  {
    OutcomesGrow(s, a, g, o);
    var outcomes := OutcomesSince(s.h, g, o);
    hide OutcomesSince, BurstOk, EntryRemoved;
    if !Enabled(s.rt, a) || a.Cancel? || a.Invalidate? {
      CalmOther(s.rt, outcomes, a, g, o);
    } else if a.Begin? {
      CalmBegin(s.rt, outcomes, a, g, o);
    } else if a.Resume? {
      CalmResume(s.rt, outcomes, a, g, o);
    } else {
      forall x | InExchange(s.rt, a.c, g) && InExchange(s.rt, x, g) ensures x == a.c {
        OneExchangePerGeneration(s, x, a.c, g);
      }
      if InExchange(s.rt, a.c, g) {
        OneExchangePerGeneration(s, a.c, a.c, g);
      }
      CalmFinish(s.rt, outcomes, a, g, o);
    }
  }

  lemma BurstBegins(s: State, g: Grant)
    requires Quiet(s.rt, g)
    ensures TicketsCurrent(s, g) && BurstOk(s.rt, OutcomesSince(s.h, g, OriginOf(s, g)), g, OriginOf(s, g))
  {
    assert FailedCallers(s.rt, g, OriginOf(s, g)) == {};
  }

  lemma {:induction false} CalmRunKeepsBurst(actions: seq<Action>, b: nat, n: nat, g: Grant)
    requires b <= n <= |actions| && Quiet(StateAt(actions, b).rt, g)
    requires forall k :: b <= k < n ==> CalmStep(StateAt(actions, k), actions[k], g, OriginOf(StateAt(actions, b), g))
    ensures var s, o := StateAt(actions, n), OriginOf(StateAt(actions, b), g);
            && TicketsCurrent(s, g) && o.exchanges <= |Outcomes(s.h, g)|
            && BurstOk(s.rt, OutcomesSince(s.h, g, o), g, o)
  {
    hide Next, Observe, Inv, BurstOk, Outcomes, OutcomesSince, TicketsCurrent, EntryRemoved;
    var o := OriginOf(StateAt(actions, b), g);
    if n == b {
      BurstBegins(StateAt(actions, b), g);
    } else {
      var s := StateAt(actions, n - 1);
      CalmRunKeepsBurst(actions, b, n - 1, g);
      ReachableInv(actions, n - 1);
      assert CalmStep(s, actions[n - 1], g, o);
      OutcomesGrow(s, actions[n - 1], g, o);
      TicketsStayCurrent(s, actions[n - 1], g);
      CalmStepKeepsBurst(s, actions[n - 1], g, o);
    }
  }

  /** A burst of callers on a cold grant, beginning at any moment of any run at which no call
      on the grant is under way, in any interleaving without lock removal or cancellation and
      with the winning token usable until the last caller is served. The exchanges made are
      the failures before the first success plus one, or one per caller if all fail; as many
      callers come back empty as exchanges failed, and every other caller gets the one
      winning token. */
  lemma ExchangeCountFrom(actions: seq<Action>, b: nat, n: nat, g: Grant)
    requires b <= n <= |actions| && Quiet(StateAt(actions, b).rt, g)
    requires forall k :: b <= k < n ==> CalmStep(StateAt(actions, k), actions[k], g, OriginOf(StateAt(actions, b), g))
    requires forall c :: c in Callers(StateAt(actions, n).rt, g, OriginOf(StateAt(actions, b), g)) ==>
               StateAt(actions, n).rt.calls[c].phase.Returned?
    ensures var s, o := StateAt(actions, n), OriginOf(StateAt(actions, b), g);
            var outcomes, callers, failed := OutcomesSince(s.h, g, o), Callers(s.rt, g, o), FailedCallers(s.rt, g, o);
            && (forall i :: 0 <= i < |outcomes| - 1 ==> outcomes[i].None?)
            && failed <= callers
            && match Success(outcomes)
               case None => |outcomes| == |callers|
               case Some(won) =>
                 && |outcomes| == |failed| + 1
                 && forall c :: c in callers - failed ==> s.rt.calls[c].phase == Returned(Some(won.accessToken))
  {
    hide StateAt, CalmStep, OutcomesSince, Outcomes;
    CalmRunKeepsBurst(actions, b, n, g);
    var s, o := StateAt(actions, n), OriginOf(StateAt(actions, b), g);
    var won := Success(OutcomesSince(s.h, g, o));
    forall c | c in Callers(s.rt, g, o) ensures CallOk(s.rt.calls[c].phase, won) {
    }
    if won.None? {
      assert Callers(s.rt, g, o) == FailedCallers(s.rt, g, o);
    }
  }

  /** The same from the start of the process: there every call is of the burst. */
  lemma ExchangeCount(actions: seq<Action>, n: nat, g: Grant)
    requires n <= |actions|
    requires forall k :: 0 <= k < n ==> CalmStep(StateAt(actions, k), actions[k], g, Origin({}, 0, None))
    requires forall c :: c in StateAt(actions, n).rt.calls && StateAt(actions, n).rt.calls[c].grant == g ==>
               StateAt(actions, n).rt.calls[c].phase.Returned?
    ensures var s := StateAt(actions, n);
            var outcomes, callers, failed := Outcomes(s.h, g), Callers(s.rt, g, Origin({}, 0, None)), FailedCallers(s.rt, g, Origin({}, 0, None));
            && (forall i :: 0 <= i < |outcomes| - 1 ==> outcomes[i].None?)
            && match Success(outcomes)
               case None => |outcomes| == |callers|
               case Some(won) =>
                 && |outcomes| == |failed| + 1
                 && forall c :: c in callers - failed ==> s.rt.calls[c].phase == Returned(Some(won.accessToken))
  {
    assert OriginOf(StateAt(actions, 0), g) == Origin({}, 0, None);
    hide StateAt, CalmStep, Outcomes;
    ExchangeCountFrom(actions, 0, n, g);
  }
}
