/**
 The settle protocol and the token cache together: one process whose lanes handle messages and
 whose handlers redeem grants. The token provider sees the handlers' calls, and an `invalidate`
 each time one of this process's own lanes releases a grant; other processes share the store only.
 */
module SettledTokens {
  import opened Options
  import Settlement
  import TokenCache
  import AsyncLocks

  type LaneId = Settlement.LaneId
  type Grant = TokenCache.Grant
  type CallId = AsyncLocks.CallId

  datatype Action = Message(message: Settlement.Action) | Redeem(call: TokenCache.Action)

  /** `calls` is what the process's token provider has been through. */
  datatype State = State(workers: Settlement.State, calls: seq<TokenCache.Action>)

  function Invalidations(events: seq<Settlement.Event>): seq<TokenCache.Action> {
    if events == [] then []
    else if events[0].TokenDropped? then [TokenCache.Invalidate(events[0].grant)] + Invalidations(events[1..])
    else Invalidations(events[1..])
  }

  /** `mine` are the lanes of this process. Redeeming never invalidates. */
  function Step(mine: set<LaneId>, s: State, a: Action): State {
    match a
    case Redeem(call) => if call.Invalidate? then s else s.(calls := s.calls + [call])
    case Message(message) =>
      var after := Settlement.Step(s.workers, message);
      var ours := message.AckReturns? && message.lane in mine && |s.workers.log| <= |after.log|;
      State(after, if ours then s.calls + Invalidations(after.log[|s.workers.log|..]) else s.calls)
  }

  function RunFrom(mine: set<LaneId>, s: State, actions: seq<Action>): State
    decreases |actions|
  {
    if actions == [] then s
    else Step(mine, RunFrom(mine, s, actions[..|actions| - 1]), actions[|actions| - 1])
  }

  function Start(store: map<Settlement.Id, Settlement.Stored>, now: int): State {
    State(Settlement.Start(store, now), [])
  }

  /** Some delivery that carried the grant was handled and settled. */
  ghost predicate DeliverySettled(w: Settlement.State, g: Grant) {
    exists d :: Settlement.Carried(w, d, g) && Settlement.Settled(w.log, d)
  }

  ghost predicate Inv(s: State) {
    && Settlement.Inv(s.workers)
    && forall k :: 0 <= k < |s.calls| && s.calls[k].Invalidate? ==> DeliverySettled(s.workers, s.calls[k].grant)
  }

  lemma {:induction false} InvalidationsAreDrops(events: seq<Settlement.Event>, k: nat)
    requires k < |Invalidations(events)|
    ensures Invalidations(events)[k].Invalidate?
    ensures exists e :: 0 <= e < |events| && events[e].TokenDropped? && events[e].grant == Invalidations(events)[k].grant
  {
    var rest := if events[0].TokenDropped? then k - 1 else k;
    if rest >= 0 {
      InvalidationsAreDrops(events[1..], rest);
      var e :| 0 <= e < |events[1..]| && events[1..][e].TokenDropped? && events[1..][e].grant == Invalidations(events)[k].grant;
      assert events[e + 1] == events[1..][e];
    }
  }

  lemma SettledStays(w: Settlement.State, message: Settlement.Action, g: Grant)
    requires DeliverySettled(w, g)
    ensures DeliverySettled(Settlement.Step(w, message), g)
  {
    var d :| Settlement.Carried(w, d, g) && Settlement.Settled(w.log, d);
    Settlement.StepGrows(w, message);
    hide Settlement.Step, Settlement.Settled;
    Settlement.LogGrows(w.log, Settlement.Step(w, message).log, d);
    assert Settlement.Carried(Settlement.Step(w, message), d, g);
  }

  /** A token dropped in a state that keeps the protocol was dropped for a settled delivery. */
  lemma DropIsSettled(w: Settlement.State, e: nat)
    requires Settlement.Inv(w) && e < |w.log| && w.log[e].TokenDropped?
    ensures DeliverySettled(w, w.log[e].grant)
  {
    hide Settlement.Settled, Settlement.LanesOk, Settlement.RemovalsOk;
    Settlement.LogGrows(w.log[..e], w.log, w.log[e].delivery);
    assert Settlement.Carried(w, w.log[e].delivery, w.log[e].grant);
  }

  lemma StepKeepsInv(mine: set<LaneId>, s: State, a: Action)
    requires Inv(s)
    ensures Inv(Step(mine, s, a))
  {
    hide Settlement.Step, Settlement.Inv, DeliverySettled;
    var t := Step(mine, s, a);
    if a.Message? {
      Settlement.StepKeepsInv(s.workers, a.message);
      forall k | 0 <= k < |t.calls| && t.calls[k].Invalidate? ensures DeliverySettled(t.workers, t.calls[k].grant) {
        if k < |s.calls| {
          SettledStays(s.workers, a.message, s.calls[k].grant);
        } else {
          var events := t.workers.log[|s.workers.log|..];
          InvalidationsAreDrops(events, k - |s.calls|);
          var e :| 0 <= e < |events| && events[e].TokenDropped? && events[e].grant == t.calls[k].grant;
          DropIsSettled(t.workers, |s.workers.log| + e);
        }
      }
    }
  }

  lemma {:induction false} Reachable(mine: set<LaneId>, store: map<Settlement.Id, Settlement.Stored>, now: int, actions: seq<Action>)
    ensures Inv(RunFrom(mine, Start(store, now), actions))
    decreases |actions|
  {
    hide Step, Settlement.Inv;
    if actions == [] {
      Settlement.StartOk(store, now);
    } else {
      Reachable(mine, store, now, actions[..|actions| - 1]);
      StepKeepsInv(mine, RunFrom(mine, Start(store, now), actions[..|actions| - 1]), actions[|actions| - 1]);
    }
  }

  /** In such a process two calls exchange one grant at once only if between their starts its
      lock entry was removed by a sweep, or for a delivery of that grant that was handled and
      settled: messages that fail or are abandoned never cause a second exchange. */
  lemma SecondExchangeNeedsSweepOrSettle(mine: set<LaneId>, store: map<Settlement.Id, Settlement.Stored>, now: int, actions: seq<Action>,
                                         n: nat, c: CallId, d: CallId, g: Grant)
    requires n <= |RunFrom(mine, Start(store, now), actions).calls| && c != d
    requires var rt := TokenCache.StateAt(RunFrom(mine, Start(store, now), actions).calls, n).rt;
             TokenCache.InExchange(rt, c, g) && TokenCache.InExchange(rt, d, g)
    ensures var s := RunFrom(mine, Start(store, now), actions);
            exists k :: 0 <= k < n && TokenCache.RemovedAt(s.calls, k, g) && TokenCache.BetweenStarts(s.calls, k, c, d)
                        && (s.calls[k].Begin? || DeliverySettled(s.workers, g))
  {
    hide RunFrom, DeliverySettled, TokenCache.Next, TokenCache.Observe, TokenCache.BetweenStarts;
    var s := RunFrom(mine, Start(store, now), actions);
    Reachable(mine, store, now, actions);
    TokenCache.SingleFlight(s.calls, n, c, d, g);
    var k :| 0 <= k < n && TokenCache.RemovedAt(s.calls, k, g) && TokenCache.BetweenStarts(s.calls, k, c, d);
    TokenCache.ReachableInv(s.calls, k);
    TokenCache.RemovalCause(TokenCache.StateAt(s.calls, k).rt, s.calls[k], g);
  }

  /** The other way round: when one of the process's own lanes has its handled message acked,
      the provider forgets the grant the message carried, its token and its lock alike. */
  lemma ReleaseDropsToken(mine: set<LaneId>, store: map<Settlement.Id, Settlement.Stored>, now: int, actions: seq<Action>,
                          lane: LaneId, g: Grant)
    requires var s := RunFrom(mine, Start(store, now), actions);
             && lane in mine && Settlement.Busy(s.workers, lane, Settlement.Acking)
             && s.workers.lanes[lane].job.value.succeeded && s.workers.lanes[lane].job.value.header == Some(g) && g != ""
    ensures var t := Step(mine, RunFrom(mine, Start(store, now), actions), Message(Settlement.AckReturns(lane, true)));
            var rt := TokenCache.StateAt(t.calls, |t.calls|).rt;
            g !in rt.tokens && g !in rt.table
  {
    var s := RunFrom(mine, Start(store, now), actions);
    AckInvalidates(mine, s, lane, g);
    var t := Step(mine, s, Message(Settlement.AckReturns(lane, true)));
    hide RunFrom, Step, TokenCache.Next;
    TokenCache.OneStep(t.calls, |s.calls|);
    InvalidateForgets(TokenCache.StateAt(t.calls, |s.calls|).rt, g);
  }

  lemma AckInvalidates(mine: set<LaneId>, s: State, lane: LaneId, g: Grant)
    requires lane in mine && Settlement.Busy(s.workers, lane, Settlement.Acking)
    requires s.workers.lanes[lane].job.value.succeeded && s.workers.lanes[lane].job.value.header == Some(g) && g != ""
    ensures Step(mine, s, Message(Settlement.AckReturns(lane, true))).calls == s.calls + [TokenCache.Invalidate(g)]
  {
    var d := s.workers.lanes[lane].job.value.delivery;
    var after := Settlement.Step(s.workers, Settlement.AckReturns(lane, true));
    var events := after.log[|s.workers.log|..];
    assert events == [Settlement.Acked(d), Settlement.TokenDropped(d, g)];
    assert events[1..] == [Settlement.TokenDropped(d, g)] && events[1..][1..] == [];
    assert Invalidations(events[1..][1..]) == [];
    assert Invalidations(events) == [TokenCache.Invalidate(g)];
  }

  lemma InvalidateForgets(rt: TokenCache.Runtime, g: Grant)
    requires TokenCache.TableOk(rt) && g != ""
    ensures g !in TokenCache.Next(rt, TokenCache.Invalidate(g)).tokens && g !in TokenCache.Next(rt, TokenCache.Invalidate(g)).table
  {
  }
}
