/**
 That documents move: what leaves the queue, when the worker stops taking, and that a worker
 which keeps running delivers everything that was accepted.
 */
module TraceProgress {
  import opened TraceBatches

  /** The queue is the tail of what was accepted, within its capacity. */
  ghost predicate QueueOk(s: State) {
    && |s.queue| <= |s.accepted| && s.queue == s.accepted[|s.accepted| - |s.queue|..]
    && (s.capacity > 0 ==> |s.queue| <= s.capacity)
  }

  /** The worker leaves its loop only after the stop event; the other threads only drain. */
  ghost predicate LoopsOk(s: State) {
    && |s.threads| > WORKER
    && (s.threads[WORKER].pc in {Draining, LastFlush, Done} ==> s.stop)
    && forall i :: 0 < i < |s.threads| ==> s.threads[i].pc in {Draining, LastFlush, Done}
  }

  lemma MoveTakesHead(batchSize: int, stop: bool, queue: seq<Entry>, th: Thread)
    ensures var q := Move(batchSize, stop, queue, th).queue;
            q == queue || (queue != [] && q == queue[1..])
  {
  }

  lemma StepKeepsQueue(s: State, a: Action)
    requires QueueOk(s)
    ensures QueueOk(Step(s, a))
  {
    hide Move;
    if a.Advance? && Enabled(s, a) {
      MoveTakesHead(s.batchSize, s.stop, s.queue, s.threads[a.thread]);
    }
  }

  lemma StepKeepsLoops(s: State, a: Action)
    requires LoopsOk(s)
    ensures LoopsOk(Step(s, a))
  {
  }

  ghost predicate Inv(s: State) {
    Conserved(s) && BatchesOk(s) && QueueOk(s) && LoopsOk(s)
  }

  lemma StepKeepsInv(s: State, a: Action)
    requires Inv(s)
    ensures Inv(Step(s, a))
  {
    StepConserves(s, a);
    StepKeepsBatches(s, a);
    StepKeepsQueue(s, a);
    StepKeepsLoops(s, a);
    hide Step, Conserved, BatchesOk, QueueOk, LoopsOk;
  }

  /** In every run: the queue holds the latest of what was accepted, never more than its
      capacity, and the worker does not leave its loop before it is told to stop. */
  lemma {:induction false} QueueAndLoops(batchSize: int, capacity: nat, actions: seq<Action>)
    ensures var s := RunFrom(Start(batchSize, capacity), actions);
            Inv(s) && s.batchSize == batchSize && s.capacity == capacity
    decreases |actions|
  {
    hide Step, Inv;
    if actions == [] {
      StartOk(batchSize, capacity);
    } else {
      var before := actions[..|actions| - 1];
      QueueAndLoops(batchSize, capacity, before);
      StepKeepsInv(RunFrom(Start(batchSize, capacity), before), actions[|actions| - 1]);
      StepKeepsSettings(RunFrom(Start(batchSize, capacity), before), actions[|actions| - 1]);
    }
  }

  lemma StepKeepsSettings(s: State, a: Action)
    ensures Step(s, a).batchSize == s.batchSize && Step(s, a).capacity == s.capacity
  {
  }

  lemma StartOk(batchSize: int, capacity: nat)
    ensures Inv(Start(batchSize, capacity))
  {
    assert Start(batchSize, capacity).threads[..0] == [];
  }

  /** The first `n` entries accepted, once they have left the queue, are inserted or held. */
  lemma TakenAreHanded(batchSize: int, capacity: nat, actions: seq<Action>, n: nat)
    requires var s := RunFrom(Start(batchSize, capacity), actions); n <= |s.accepted| - |s.queue|
    ensures var s := RunFrom(Start(batchSize, capacity), actions);
            && n <= |s.accepted| && s.queue == s.accepted[|s.accepted| - |s.queue|..]
            && multiset(s.accepted[..n]) <= multiset(s.handed) + Held(s.threads)
  {
    hide RunFrom, Conserved, BatchesOk, LoopsOk, Held;
    QueueAndLoops(batchSize, capacity, actions);
    FirstAreHanded(RunFrom(Start(batchSize, capacity), actions), n);
  }

  lemma FirstAreHanded(s: State, n: nat)
    requires Conserved(s) && QueueOk(s) && n <= |s.accepted| - |s.queue|
    ensures multiset(s.accepted[..n]) <= multiset(s.handed) + Held(s.threads)
  {
    var taken := |s.accepted| - |s.queue|;
    assert s.accepted == s.accepted[..n] + s.accepted[n..taken] + s.queue;
    Remains(multiset(s.accepted[..n]), multiset(s.accepted[n..taken]), multiset(s.queue), Held(s.threads), multiset(s.handed));
  }

  lemma Remains(first: multiset<Entry>, second: multiset<Entry>, queue: multiset<Entry>, held: multiset<Entry>, handed: multiset<Entry>)
    requires first + second + queue == queue + held + handed
    ensures first <= handed + held
  {
    forall e ensures first[e] <= (handed + held)[e] {
      assert (first + second + queue)[e] == (queue + held + handed)[e];
    }
  }

  /** An export is accepted unless a bounded queue is full, and nothing else is ever accepted. */
  lemma ExportsAreAccepted(s: State, a: Action)
    ensures var t := Step(s, a);
            if a.Export? && (s.capacity == 0 || |s.queue| < s.capacity)
            then t.accepted == s.accepted + [a.entry] && t.queue == s.queue + [a.entry] && t.handed == s.handed
            else t.accepted == s.accepted
  {
  }

  // ---------- a running worker delivers ----------

  /** How many of the first `m` accepted are still queued. */
  function Queued(s: State, m: nat): nat {
    if |s.accepted| - |s.queue| < m then m - (|s.accepted| - |s.queue|) else 0
  }

  function Phase(batchSize: int, th: Thread): nat {
    match th.pc
    case Head => 2
    case Getting => 1
    case Filling => 2 * Max(0, batchSize - |th.buf|) + |th.buf| + 4
    case Flushing => |th.buf| + 3
    case _ => 1
  }

  /** An upper bound of the worker's own steps until the first `m` are delivered. */
  function Due(s: State, m: nat): nat
    requires |s.threads| > WORKER
  {
    (2 * Max(1, s.batchSize) + 6) * Queued(s, m) + Phase(s.batchSize, s.threads[WORKER])
  }

  ghost predicate Delivered(s: State, m: nat)
    requires m <= |s.accepted|
  {
    multiset(s.accepted[..m]) <= multiset(s.handed)
  }

  /** A worker with empty hands and none of them queued has delivered them. */
  lemma IdleHasDelivered(s: State, m: nat)
    requires Inv(s) && m <= |s.accepted| && |s.threads| == 1 && s.threads[WORKER].buf == [] && Queued(s, m) == 0
    ensures Delivered(s, m)
  {
    FirstAreHanded(s, m);
    NothingHeld(s.threads);
  }

  lemma DeliveredStays(s: State, a: Action, m: nat)
    requires m <= |s.accepted| && Delivered(s, m)
    ensures m <= |Step(s, a).accepted| && Delivered(Step(s, a), m)
  {
    assert s.accepted <= Step(s, a).accepted && s.handed <= Step(s, a).handed;
    assert Step(s, a).accepted[..m] == s.accepted[..m];
    assert Step(s, a).handed == s.handed + Step(s, a).handed[|s.handed|..];
  }

  lemma PhaseFalls(batchSize: int, queue: seq<Entry>, th: Thread)
    requires ThreadOk(batchSize, th) && th.pc in {Head, Getting, Filling, Flushing}
    ensures var m := Move(batchSize, false, queue, th);
            && |m.queue| <= |queue|
            && (th.pc != Getting ==> Phase(batchSize, m.thread) < Phase(batchSize, th))
            && (th.pc == Getting && queue != [] ==>
                  |m.queue| == |queue| - 1 && Phase(batchSize, m.thread) < Phase(batchSize, th) + 2 * Max(1, batchSize) + 6)
  {
  }

  lemma DueFalls(s: State, a: Action, m: nat)
    requires Inv(s) && m <= |s.accepted| && |s.threads| == 1 && !s.stop && !Delivered(s, m)
    requires a.Export? || a == Advance(WORKER)
    ensures var t := Step(s, a);
            && |t.threads| == 1 && !t.stop && m <= |t.accepted|
            && Due(t, m) + (if a.Advance? then 1 else 0) <= Due(s, m)
  {
    if a.Advance? {
      var th := s.threads[WORKER];
      assert ThreadOk(s.batchSize, th);
      if th.pc == Getting && Queued(s, m) == 0 {
        IdleHasDelivered(s, m);
      }
      hide Delivered, Conserved, BatchesOk, Phase;
      PhaseFalls(s.batchSize, s.queue, th);
      AdvanceLone(s);
      hide Step, Move;
      var t := Step(s, a);
      DueOf(s, t, m);
    }
  }

  lemma AdvanceLone(s: State)
    requires |s.threads| == 1
    ensures var t, m := Step(s, Advance(WORKER)), Move(s.batchSize, s.stop, s.queue, s.threads[WORKER]);
            && t.threads == [m.thread] && t.queue == m.queue && t.accepted == s.accepted
            && t.batchSize == s.batchSize && t.stop == s.stop
  {
  }

  lemma DueOf(s: State, t: State, m: nat)
    requires |s.threads| == |t.threads| == 1 && t.accepted == s.accepted && t.batchSize == s.batchSize && |t.queue| <= |s.queue|
    requires |s.queue| <= |s.accepted| && m <= |s.accepted|
    requires var p, q := Phase(s.batchSize, s.threads[WORKER]), Phase(s.batchSize, t.threads[WORKER]);
             || q < p
             || (Queued(s, m) > 0 && |t.queue| == |s.queue| - 1 && q < p + 2 * Max(1, s.batchSize) + 6)
    ensures Due(t, m) + 1 <= Due(s, m)
  {
    hide Phase;
    var p, q := Phase(s.batchSize, s.threads[WORKER]), Phase(s.batchSize, t.threads[WORKER]);
    ProductFalls(2 * Max(1, s.batchSize) + 6, Queued(s, m), Queued(t, m), p, q);
  }

  lemma ProductFalls(k: int, r: nat, r': nat, p: nat, q: nat)
    requires k >= 0 && r' <= r && (q < p || (r' == r - 1 && q < p + k))
    ensures k * r' + q + 1 <= k * r + p
  {
    assert k * r == k * r' + k * (r - r');
    assert k * (r - r') >= 0;
    if r' == r - 1 {
      assert k * (r - r') == k;
    }
  }

  /** A worker that is not told to stop delivers: by the time it has taken `Due` more steps of
      its own, with any exports in between and no other consumer, everything that had been
      accepted has been handed to inserts. */
  lemma {:induction false} WorkerDelivers(batchSize: int, capacity: nat, before: seq<Action>, more: seq<Action>)
    requires StartFlush !in before && Stop !in before && forall a :: a in more ==> a.Export? || a == Advance(WORKER)
    ensures var s, t := RunFrom(Start(batchSize, capacity), before), RunFrom(Start(batchSize, capacity), before + more);
            && |s.threads| == |t.threads| == 1 && |s.accepted| <= |t.accepted|
            && (OwnSteps(more, WORKER) >= Due(s, |s.accepted|) ==> Delivered(t, |s.accepted|))
  {
    hide RunFrom, Due, Delivered, OwnSteps;
    LoneWorker(batchSize, capacity, before);
    DueFallsOver(batchSize, capacity, before, more);
    var s, t := RunFrom(Start(batchSize, capacity), before), RunFrom(Start(batchSize, capacity), before + more);
    DueIsPositive(t, |s.accepted|);
  }

  lemma DueIsPositive(s: State, m: nat)
    requires |s.threads| > WORKER
    ensures Due(s, m) > 0
  {
    assert (2 * Max(1, s.batchSize) + 6) * Queued(s, m) >= 0;
  }

  lemma {:induction false} LoneWorker(batchSize: int, capacity: nat, before: seq<Action>)
    requires StartFlush !in before && Stop !in before
    ensures var s := RunFrom(Start(batchSize, capacity), before); |s.threads| == 1 && !s.stop
    decreases |before|
  {
    if before != [] {
      LoneWorker(batchSize, capacity, before[..|before| - 1]);
      assert before[|before| - 1] in before;
      LoneStep(RunFrom(Start(batchSize, capacity), before[..|before| - 1]), before[|before| - 1]);
      hide Step;
    }
  }

  lemma LoneStep(s: State, a: Action)
    requires a != StartFlush && a != Stop && |s.threads| == 1 && !s.stop
    ensures |Step(s, a).threads| == 1 && !Step(s, a).stop
  {
  }

  lemma {:induction false} DueFallsOver(batchSize: int, capacity: nat, before: seq<Action>, more: seq<Action>)
    requires forall a :: a in more ==> a.Export? || a == Advance(WORKER)
    requires var s := RunFrom(Start(batchSize, capacity), before); |s.threads| == 1 && !s.stop
    ensures var s, t := RunFrom(Start(batchSize, capacity), before), RunFrom(Start(batchSize, capacity), before + more);
            && |t.threads| == 1 && !t.stop && |s.accepted| <= |t.accepted|
            && (Delivered(t, |s.accepted|) || Due(t, |s.accepted|) + OwnSteps(more, WORKER) <= Due(s, |s.accepted|))
    decreases |more|
  {
    hide Step, Inv, Due, Delivered;
    var s := RunFrom(Start(batchSize, capacity), before);
    if more == [] {
      assert before + more == before;
    } else {
      var most, a := more[..|more| - 1], more[|more| - 1];
      assert a in more;
      DueFallsOver(batchSize, capacity, before, most);
      assert (before + more)[..|before + more| - 1] == before + most;
      var t := RunFrom(Start(batchSize, capacity), before + most);
      QueueAndLoops(batchSize, capacity, before + most);
      LoneStep(t, a);
      if Delivered(t, |s.accepted|) {
        DeliveredStays(t, a, |s.accepted|);
      } else {
        DueFalls(t, a, |s.accepted|);
      }
    }
  }
}
