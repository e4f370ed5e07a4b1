/**
 The lock renewal task of the Azure worker: a loop that waits for the interval or for the
 handler to end, stops at the time limit, and renews. What the world outside does in round
 `k` is `world(k)`. Times are seconds since the loop started, when the lock is fresh.
 */
module LockRenewal {

  /** One round. `waited` is how long the wait lasted and `ended` whether the cancellation
      event was set by its end; the renewal call reaches the broker `lead` seconds later and
      takes `lag` more to return; `endedMeanwhile` is the handler ending during the call,
      which may cut the call short. */
  datatype Round = Round(waited: real, ended: bool, lead: real, lag: real, renews: bool, endedMeanwhile: bool)

  type World = nat -> Round

  /** What the service configures: how long a lock lasts, how often it is renewed, and for
      how long. */
  datatype Timing = Timing(lock: real, interval: real, limit: real)

  /** A 300 second lock, renewed every 270 seconds, for at most 300 minutes. */
  const CONFIGURED := Timing(300.0, 270.0, 300.0 * 60.0)

  /** Time does not run backwards, and a wait that times out lasts at least the interval. */
  ghost predicate Sane(world: World, interval: real) {
    forall k: nat :: var r := world(k);
      r.waited >= 0.0 && r.lead >= 0.0 && r.lag >= 0.0 && (!r.ended ==> r.waited >= interval)
  }

  /** When round `k` starts, if the loop gets that far. */
  function StartOf(world: World, k: nat): real {
    if k == 0 then 0.0
    else StartOf(world, k - 1) + world(k - 1).waited + world(k - 1).lead + world(k - 1).lag
  }

  function CheckedAt(world: World, k: nat): real {
    StartOf(world, k) + world(k).waited
  }

  function RenewedAt(world: World, k: nat): real {
    CheckedAt(world, k) + world(k).lead
  }

  /** Round `k`, once reached, renews the lock. */
  predicate Renews(world: World, limit: real, k: nat) {
    !world(k).ended && CheckedAt(world, k) <= limit && world(k).renews
  }

  /** Round `k`, once reached, is followed by another. */
  predicate Continues(world: World, limit: real, k: nat) {
    Renews(world, limit, k) && !world(k).endedMeanwhile
  }

  datatype Stop = HandlerEnded | TimeLimit | RenewalFailed

  /** `k` is the last round of the loop. */
  ghost predicate IsLast(world: World, limit: real, k: nat) {
    !Continues(world, limit, k) && forall j :: 0 <= j < k ==> Continues(world, limit, j)
  }

  ghost function RenewalCount(world: World, limit: real, last: nat): nat {
    last + if Renews(world, limit, last) then 1 else 0
  }

  lemma {:induction false} RoundsTakeTheInterval(world: World, t: Timing, k: nat)
    requires Sane(world, t.interval) && forall j :: 0 <= j < k ==> Continues(world, t.limit, j)
    ensures StartOf(world, k) >= k as real * t.interval
    decreases k
  {
    if k > 0 {
      RoundsTakeTheInterval(world, t, k - 1);
      assert Continues(world, t.limit, k - 1);
    }
  }

  lemma GoesOn(world: World, limit: real, j: nat)
    requires Continues(world, limit, j)
    ensures !world(j).ended && CheckedAt(world, j) <= limit && world(j).renews && !world(j).endedMeanwhile
  {
  }

  /** What it means to be the last round: in every one before, the lock was renewed and the
      handler was still at work; in this one the handler ends, by the end of the wait or during
      the call, or the limit has passed, or the renewal fails. */
  lemma LastRoundMeans(world: World, limit: real, last: nat)
    requires IsLast(world, limit, last)
    ensures forall j: nat {:trigger Continues(world, limit, j)} :: j < last ==>
              Continues(world, limit, j) && !world(j).ended && CheckedAt(world, j) <= limit && world(j).renews && !world(j).endedMeanwhile
    ensures world(last).ended || CheckedAt(world, last) > limit || !world(last).renews || world(last).endedMeanwhile
  {
    forall j: nat {:trigger Continues(world, limit, j)} | j < last
      ensures Continues(world, limit, j) && !world(j).ended && CheckedAt(world, j) <= limit && world(j).renews && !world(j).endedMeanwhile
    {
      GoesOn(world, limit, j);
    }
  }

  /** The loop never renews more often than fits the time limit. */
  lemma RenewalBound(world: World, t: Timing, last: nat)
    requires Sane(world, t.interval) && IsLast(world, t.limit, last)
    ensures var n := RenewalCount(world, t.limit, last); n > 0 ==> n as real * t.interval <= t.limit
  {
    var n := RenewalCount(world, t.limit, last);
    if n > 0 {
      RoundsTakeTheInterval(world, t, n - 1);
      assert Renews(world, t.limit, n - 1) by { if n == last { assert Continues(world, t.limit, n - 1); } }
      assert n as real * t.interval == (n - 1) as real * t.interval + t.interval;
    }
  }

  /** Whatever the world does, a task with a positive interval ends: there is a last round. */
  lemma EndsWithin(world: World, t: Timing, k: nat)
    requires Sane(world, t.interval) && t.interval > 0.0 && k as real * t.interval > t.limit
    ensures exists last :: 0 <= last <= k && IsLast(world, t.limit, last)
  {
    if forall j :: 0 <= j < k ==> Continues(world, t.limit, j) {
      RoundsTakeTheInterval(world, t, k);
      assert IsLast(world, t.limit, k);
    } else {
      var j := FirstStop(world, t.limit, k);
      assert IsLast(world, t.limit, j);
    }
  }

  ghost function FirstStop(world: World, limit: real, k: nat): (j: nat)
    requires exists i :: 0 <= i < k && !Continues(world, limit, i)
    ensures j < k && IsLast(world, limit, j)
  {
    if exists i :: 0 <= i < k - 1 && !Continues(world, limit, i) then FirstStop(world, limit, k - 1) else k - 1
  }

  // ---------- does the lock lapse? ----------

  /** When the lock was last made fresh before round `k`'s renewal. */
  function Since(world: World, k: nat): real {
    if k == 0 then 0.0 else RenewedAt(world, k - 1)
  }

  /** At time `now`, the start or one of the first `m` renewals still holds the lock. */
  ghost predicate LockHeld(world: World, lock: real, m: nat, now: real) {
    exists i :: 0 <= i <= m && Since(world, i) <= now < Since(world, i) + lock
  }

  /** The time from the renewal before round `k` to the end of round `k`'s wait. */
  function Gap(world: World, k: nat): real {
    (if k == 0 then 0.0 else world(k - 1).lag) + world(k).waited
  }

  lemma GapIs(world: World, k: nat)
    ensures CheckedAt(world, k) == Since(world, k) + Gap(world, k)
  {
  }

  lemma {:induction false} SinceGrows(world: World, interval: real, i: nat, k: nat)
    requires Sane(world, interval) && i <= k
    ensures Since(world, i) <= Since(world, k)
    decreases k
  {
    if i < k {
      SinceGrows(world, interval, i, k - 1);
      GapIs(world, k - 1);
      if k > 1 {
        assert world(k - 2).lag >= 0.0;
      }
    }
  }

  /** The stretch from the broker's previous renewal, or the start, to that of round `k`. */
  ghost predicate Fits(world: World, lock: real, k: nat) {
    Gap(world, k) + world(k).lead <= lock
  }

  /** Every stretch from one of the first `m` renewals, or the start, to the next one, and the
      one from the last of them to `end`, fits the lock's lifetime. */
  ghost predicate StretchesFit(world: World, lock: real, m: nat, end: real) {
    (forall k :: 0 <= k < m ==> Fits(world, lock, k)) && end - Since(world, m) < lock
  }

  lemma HeldUpTo(world: World, t: Timing, m: nat, end: real, now: real)
    requires Sane(world, t.interval) && 0.0 <= now <= end && StretchesFit(world, t.lock, m, end)
    ensures LockHeld(world, t.lock, m, now)
  {
    if now >= Since(world, m) {
      assert Since(world, m) <= now < Since(world, m) + t.lock;
    } else {
      var k := HolderAt(world, t, m, now);
      assert Fits(world, t.lock, k);
      GapIs(world, k);
      assert Since(world, k) <= now < Since(world, k) + t.lock;
    }
  }

  /** The last renewal before `now`. */
  ghost function HolderAt(world: World, t: Timing, m: nat, now: real): (k: nat)
    requires 0.0 <= now < Since(world, m)
    ensures k < m && Since(world, k) <= now < Since(world, k + 1)
  {
    if now >= Since(world, m - 1) then m - 1 else HolderAt(world, t, m - 1, now)
  }

  /** After `m` renewals the lock is held without a break up to `end` exactly when every
      stretch from one renewal to the next, the return of one call, a wait and the next call
      together, fits its lifetime, and so does the stretch that is left. */
  lemma HeldUntilIff(world: World, t: Timing, m: nat, end: real)
    requires Sane(world, t.interval) && t.lock > 0.0 && end >= Since(world, m)
    ensures (forall now :: 0.0 <= now <= end ==> LockHeld(world, t.lock, m, now)) <==> StretchesFit(world, t.lock, m, end)
  {
    if StretchesFit(world, t.lock, m, end) {
      forall now | 0.0 <= now <= end ensures LockHeld(world, t.lock, m, now) {
        HeldUpTo(world, t, m, end, now);
      }
    } else {
      var k :| 0 <= k <= m && if k < m then !Fits(world, t.lock, k) else end - Since(world, k) >= t.lock;
      LapsesAt(world, t, m, end, k);
    }
  }

  lemma LapsesAt(world: World, t: Timing, m: nat, end: real, k: nat)
    requires Sane(world, t.interval) && t.lock > 0.0 && k <= m && end >= Since(world, m)
    requires if k < m then !Fits(world, t.lock, k) else end - Since(world, k) >= t.lock
    ensures var now := Since(world, k) + t.lock;
            0.0 <= now <= end && !LockHeld(world, t.lock, m, now)
  {
    var now := Since(world, k) + t.lock;
    GapIs(world, k);
    SinceGrows(world, t.interval, 0, k);
    if k < m {
      SinceGrows(world, t.interval, k + 1, m);
    }
    forall i | 0 <= i <= m ensures !(Since(world, i) <= now < Since(world, i) + t.lock) {
      if i <= k {
        SinceGrows(world, t.interval, i, k);
      } else {
        SinceGrows(world, t.interval, k + 1, i);
      }
    }
  }

  /** The last round gets as far as calling the broker. */
  predicate Calls(world: World, limit: real, last: nat) {
    !world(last).ended && CheckedAt(world, last) <= limit
  }

  /** When the loop with this last round is over. A handler that ends while the last call is
      under way ends no later than that. */
  function LoopEnd(world: World, limit: real, last: nat): real {
    if Calls(world, limit, last) then RenewedAt(world, last) + world(last).lag else CheckedAt(world, last)
  }

  /** From the start to the end of the loop the lock never lapses exactly when the stretches
      between its renewals fit the lock's lifetime, up to and including the last. */
  lemma NeverLapsesIff(world: World, t: Timing, last: nat)
    requires Sane(world, t.interval) && t.lock > 0.0 && IsLast(world, t.limit, last)
    ensures var m, end := RenewalCount(world, t.limit, last), LoopEnd(world, t.limit, last);
            (forall now :: 0.0 <= now <= end ==> LockHeld(world, t.lock, m, now)) <==> StretchesFit(world, t.lock, m, end)
  {
    GapIs(world, last);
    assert world(last).waited >= 0.0 && world(last).lead >= 0.0 && world(last).lag >= 0.0;
    if last > 0 {
      assert world(last - 1).lag >= 0.0;
    }
    HeldUntilIff(world, t, RenewalCount(world, t.limit, last), LoopEnd(world, t.limit, last));
  }

  /** What round `k` takes beside the 270 seconds, from the broker's previous renewal to its own. */
  function Beside(world: World, k: nat): real {
    Gap(world, k) - 270.0 + world(k).lead
  }

  /** With the configured numbers: take any round that the loop reaches, because in every one
      before it the handler had not ended, the limit of 18000 seconds had not passed and the
      renewal succeeded. If everything beside the interval took under 30 seconds from each
      renewal to the next, and up to this round's end, then the 300 second lock has been held
      without a break until this round's end; so it is until the handler ends, in a wait or
      during a call, or the limit stops the loop. */
  lemma ConfiguredLockHolds(world: World, k: nat, now: real)
    requires Sane(world, 270.0)
    requires forall j :: 0 <= j < k ==>
               !world(j).ended && CheckedAt(world, j) <= 18000.0 && world(j).renews && !world(j).endedMeanwhile
    requires forall j :: 0 <= j < k ==> Beside(world, j) < 30.0
    requires var called := !world(k).ended && CheckedAt(world, k) <= 18000.0;
             && (if called then Beside(world, k) + world(k).lag < 30.0 else Gap(world, k) - 270.0 < 30.0)
             && 0.0 <= now <= if called then CheckedAt(world, k) + world(k).lead + world(k).lag else CheckedAt(world, k)
    ensures var renewals := k + if !world(k).ended && CheckedAt(world, k) <= 18000.0 && world(k).renews then 1 else 0;
            LockHeld(world, 300.0, renewals, now)
  {
    var called := !world(k).ended && CheckedAt(world, k) <= 18000.0;
    var renewals := k + if called && world(k).renews then 1 else 0;
    var end := if called then CheckedAt(world, k) + world(k).lead + world(k).lag else CheckedAt(world, k);
    assert world(k).lead >= 0.0 && world(k).lag >= 0.0;
    PreviousLag(world, k);
    GapIs(world, k);
    if called {
      assert end == Since(world, k) + Gap(world, k) + world(k).lead + world(k).lag;
    }
    UnderThirtyFits(world, k, renewals, end);
    HeldUpTo(world, CONFIGURED, renewals, end, now);
  }

  lemma PreviousLag(world: World, k: nat)
    requires Sane(world, 270.0)
    ensures Gap(world, k) >= 0.0
    ensures !world(k).ended ==> Gap(world, k) >= 270.0
  {
    assert world(k).waited >= 0.0;
    if k > 0 {
      assert world(k - 1).lag >= 0.0;
    }
  }

  lemma UnderThirtyFits(world: World, k: nat, renewals: nat, end: real)
    requires forall j :: 0 <= j < k ==> Beside(world, j) < 30.0
    requires || (renewals == k && end - Since(world, k) < 300.0)
             || (renewals == k + 1 && Beside(world, k) < 30.0 && end - RenewedAt(world, k) < 300.0)
    ensures StretchesFit(world, 300.0, renewals, end)
  {
    forall j | 0 <= j < renewals ensures Fits(world, 300.0, j) {
      assert Beside(world, j) < 30.0;
    }
  }

  /** A bound per round is not enough: a renewal that returns late is followed by a whole
      interval. Here every wait overshoot plus renewal call stays under 30 seconds, and the
      lock lapses between the first renewal and the second. */
  lemma PerRoundBoundIsNotEnough()
    ensures exists world: World ::
              && Sane(world, 270.0)
              && (forall k: nat :: (world(k).waited - 270.0) + world(k).lead + world(k).lag < 30.0)
              && (forall k: nat :: k < 2 ==> Renews(world, 18000.0, k))
              && !LockHeld(world, 300.0, 1, RenewedAt(world, 0) + 300.0)
              && RenewedAt(world, 0) + 300.0 < RenewedAt(world, 1)
  {
    var late: World := k => if k == 0 then Round(270.0, false, 0.0, 29.0, true, false) else Round(275.0, false, 0.0, 0.0, true, false);
    assert StartOf(late, 1) == 299.0;
    assert CheckedAt(late, 1) == 574.0;
    assert RenewedAt(late, 0) == 270.0;
    LapsesAt(late, CONFIGURED, 1, CheckedAt(late, 1), 1);
  }

  // ---------- the loop ----------

  /** More rounds than fit the time limit. */
  function MaxRounds(t: Timing): nat
    requires t.interval > 0.0
  {
    if t.limit < 0.0 then 0 else (t.limit / t.interval).Floor + 1
  }

  lemma RoundsAreFew(world: World, t: Timing, k: nat)
    requires Sane(world, t.interval) && t.interval > 0.0
    requires forall j :: 0 <= j < k ==> Continues(world, t.limit, j)
    requires CheckedAt(world, k) <= t.limit && !world(k).ended
    ensures k < MaxRounds(t)
  {
    RoundsTakeTheInterval(world, t, k);
    assert k as real * t.interval <= t.limit;
    QuotientBound(k as real, t.interval, t.limit);
  }

  lemma QuotientBound(k: real, d: real, limit: real)
    requires d > 0.0 && k >= 0.0 && k * d <= limit
    ensures k <= limit / d
  {
    assert (k - limit / d) * d == k * d - limit;
  }

  /** start_auto_renewal_task, with `limit` the maximum processing time in seconds. */
  method StartAutoRenewalTask(t: Timing, world: World) returns (renewalCount: nat, stop: Stop, last: nat, now: real)
    requires Sane(world, t.interval) && t.interval > 0.0
    ensures IsLast(world, t.limit, last)
    ensures forall j: nat {:trigger Continues(world, t.limit, j)} :: j < last ==>
              Continues(world, t.limit, j) && !world(j).ended && CheckedAt(world, j) <= t.limit && world(j).renews && !world(j).endedMeanwhile
    ensures match stop
            case HandlerEnded => world(last).ended || (CheckedAt(world, last) <= t.limit && world(last).endedMeanwhile)
            case TimeLimit => !world(last).ended && CheckedAt(world, last) > t.limit
            case RenewalFailed =>
              !world(last).ended && CheckedAt(world, last) <= t.limit && !world(last).renews && !world(last).endedMeanwhile
    ensures renewalCount == last + if !world(last).ended && CheckedAt(world, last) <= t.limit && world(last).renews then 1 else 0
    ensures now == LoopEnd(world, t.limit, last)
    ensures renewalCount > 0 ==> renewalCount as real * t.interval <= t.limit
  {
    var cancelled := false;
    now := 0.0;
    renewalCount, stop, last := 0, HandlerEnded, 0;
    while !cancelled
      invariant now == StartOf(world, if cancelled then last + 1 else last)
      invariant forall j :: 0 <= j < last ==> Continues(world, t.limit, j)
      invariant !cancelled ==> renewalCount == last && stop == HandlerEnded
      invariant cancelled ==>
                && Calls(world, t.limit, last) && !Continues(world, t.limit, last)
                && renewalCount == last + (if world(last).renews then 1 else 0)
                && stop == if world(last).endedMeanwhile then HandlerEnded else RenewalFailed
      decreases MaxRounds(t) - last, !cancelled
    {
      now := now + world(last).waited;
      if world(last).ended {
        break;
      }
      if now > t.limit {
        stop := TimeLimit;
        break;
      }
      RoundsAreFew(world, t, last);
      now := now + world(last).lead + world(last).lag;
      if world(last).renews {
        renewalCount := renewalCount + 1;
        cancelled := world(last).endedMeanwhile;
      } else {
        cancelled, stop := true, if world(last).endedMeanwhile then HandlerEnded else RenewalFailed;
      }
      if !cancelled {
        last := last + 1;
      }
    }
    RenewalBound(world, t, last);
    LastRoundMeans(world, t.limit, last);
  }
}
