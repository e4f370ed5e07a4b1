/**
 A run from the start of the process in which one grant is exchanged twice at once although
 nobody calls `invalidate`: 62 callers queue behind a first exchange, it ends with a token that
 is already stale, and the 64th call sweeps before the woken waiter resumes.
 */
module SweepGap {
  import opened Options
  import opened AsyncLocks
  import opened TokenCache

  const QUEUED: nat := SWEEP_INTERVAL_CALLS - 1
  const STALE_TOKEN := Token("token", 0.0)

  function Arrival(c: CallId, g: Grant): Action {
    Begin(c, g, 0.0, 0.0, 0.0)
  }

  function GapRun(g: Grant): seq<Action> {
    seq(QUEUED, c requires 0 <= c < QUEUED => Arrival(c, g)) + [Finish(0, Some(STALE_TOKEN)), Arrival(QUEUED, g), Resume(1, 0.0)]
  }

  function Behind(n: nat): (r: seq<CallId>)
    ensures |r| == n && (n > 0 ==> r[0] == 1)
  {
    if n == 0 then [] else Behind(n - 1) + [n]
  }

  function CallsOf(g: Grant, n: nat): (r: map<CallId, Call>)
    ensures forall c: CallId :: c in r <==> c <= n
    ensures forall c :: c in r ==> r[c].grant == g
  {
    if n == 0 then map[0 := Call(g, Exchanging(0))] else CallsOf(g, n - 1)[n := Call(g, Waiting(0))]
  }

  /** One caller exchanges, `n` others queue behind it. */
  ghost function Queue(g: Grant, n: nat): Runtime {
    Runtime(map[], map[g := 0], [Lock(Some(0), Behind(n))], n + 1, CallsOf(g, n))
  }

  lemma FirstArrives(g: Grant)
    requires g != ""
    ensures Next(START.rt, Arrival(0, g)) == Queue(g, 0)
  {
  }

  lemma NextArrives(g: Grant, n: nat)
    requires g != "" && 0 < n < QUEUED
    ensures TableOk(Queue(g, n - 1)) && Next(Queue(g, n - 1), Arrival(n, g)) == Queue(g, n)
  {
  }

  lemma {:induction false} Arrivals(g: Grant, n: nat)
    requires g != "" && n < QUEUED
    ensures n < |GapRun(g)| && StateAt(GapRun(g), n + 1).rt == Queue(g, n)
  {
    hide Next, Observe, Queue;
    assert GapRun(g)[n] == Arrival(n, g);
    if n == 0 {
      FirstArrives(g);
      assert StateAt(GapRun(g), 0) == START;
    } else {
      Arrivals(g, n - 1);
      NextArrives(g, n);
    }
  }

  /** The moment between the release and the waiter's resumption. */
  lemma GapOpens(g: Grant, n: nat)
    requires g != "" && n > 0
    ensures TableOk(Queue(g, n))
    ensures var rt := Next(Queue(g, n), Finish(0, Some(STALE_TOKEN)));
            && g in rt.table && Stale(rt, g, 0.0) && n + 1 !in rt.calls && rt.callCount == n + 1
            && rt.locks[rt.table[g]].holder.None? && rt.locks[rt.table[g]].waiters != [] && rt.locks[rt.table[g]].waiters[0] == 1
            && 1 in rt.calls && rt.calls[1].grant == g
  {
    assert Queue(g, n).calls[0].phase == Exchanging(0) by { FirstExchanges(g, n); }
  }

  lemma {:induction false} FirstExchanges(g: Grant, n: nat)
    ensures CallsOf(g, n)[0] == Call(g, Exchanging(0))
  {
    if n > 0 {
      FirstExchanges(g, n - 1);
    }
  }

  lemma ThreeSteps(actions: seq<Action>, n: nat)
    requires n + 3 <= |actions|
    ensures var rt := Next(StateAt(actions, n).rt, actions[n]);
            && StateAt(actions, n + 1).rt == rt
            && StateAt(actions, n + 3).rt == Next(Next(rt, actions[n + 1]), actions[n + 2])
  {
    hide Next, Observe;
  }

  /** Single flight fails on its own, by a sweep alone. */
  lemma TwoExchangesWithoutInvalidate(g: Grant)
    requires g != ""
    ensures var run := GapRun(g);
            && (forall k :: 0 <= k < |run| ==> !run[k].Invalidate?)
            && InExchange(StateAt(run, |run|).rt, 1, g) && InExchange(StateAt(run, |run|).rt, QUEUED, g)
  {
    hide Next, Observe, Queue, StateAt, HoldersOk, WaitersOk;
    var run := GapRun(g);
    Arrivals(g, QUEUED - 1);
    GapOpens(g, QUEUED - 1);
    ThreeSteps(run, QUEUED);
    ReachableLocks(run, QUEUED + 1);
    SweepInWakeUpGapAdmitsSecondExchange(StateAt(run, QUEUED + 1).rt, 1, QUEUED, g, 0.0);
  }
}
