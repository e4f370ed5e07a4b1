/**
 The threads around `MongoDBTraceExporter`: exporters putting documents on the queue, the
 worker draining it in batches, and any number of `force_flush`/`shutdown` callers draining
 it beside the worker. Thread 0 is the worker. One action is one queue operation (with the
 thread-local work around it), one insert, or the stop event.
 */
module TraceBatches {
  type Tenant = string
  type Doc = string
  datatype Entry = Entry(tenant: Tenant, doc: Doc)

  datatype Pc =
    | Head          // at the test of the stop event
    | Getting       // in the blocking get of a new batch
    | Filling       // topping the batch up without blocking
    | Flushing      // inserting the batch, tenant by tenant
    | Draining      // in _flush_remaining, emptying the queue
    | LastFlush     // in _flush_remaining, inserting what was drained
    | Done

  /** `buf` lists what the thread took and has not handed over, in the order it was taken. */
  datatype Thread = Thread(pc: Pc, buf: seq<Entry>)

  /** A batch of the worker's loop as its flush begins: how many documents it holds, and
      whether the queue was empty just then. */
  datatype Batch = Batch(size: nat, drained: bool)

  datatype State = State(
    batchSize: int,
    capacity: nat,
    queue: seq<Entry>,
    stop: bool,
    threads: seq<Thread>,
    accepted: seq<Entry>,
    handed: seq<Entry>,
    flushes: seq<Batch>)

  datatype Action = Export(entry: Entry) | Stop | StartFlush | Advance(thread: nat)

  const WORKER := 0

  function Start(batchSize: int, capacity: nat): State {
    State(batchSize, capacity, [], false, [Thread(Head, [])], [], [], [])
  }

  /** The entries of one tenant, in order: what its list in `buffer_by_tenant` holds. */
  function Of(es: seq<Entry>, t: Tenant): (r: seq<Entry>)
    ensures forall e :: e in r <==> e in es && e.tenant == t
  {
    if es == [] then []
    else if es[0].tenant == t then [es[0]] + Of(es[1..], t) else Of(es[1..], t)
  }

  function NotOf(es: seq<Entry>, t: Tenant): (r: seq<Entry>)
    ensures |r| <= |es|
    ensures es != [] && es[0].tenant == t ==> |r| < |es|
  {
    if es == [] then []
    else if es[0].tenant == t then NotOf(es[1..], t) else [es[0]] + NotOf(es[1..], t)
  }

  predicate Full(s: State) {
    s.capacity > 0 && |s.queue| >= s.capacity
  }

  predicate Enabled(s: State, a: Action) {
    match a
    case Export(_) => !Full(s)
    case Stop => true
    case StartFlush => true
    case Advance(i) => i < |s.threads|
  }

  /** One move of a thread: the queue it leaves, its new local state, what it inserted. */
  datatype Moved = Moved(queue: seq<Entry>, thread: Thread, inserted: seq<Entry>)

  /** Takes the head of the queue into the buffer. */
  function Take(queue: seq<Entry>, th: Thread, pc: Pc): Moved
    requires queue != []
  {
    Moved(queue[1..], Thread(pc, th.buf + [queue[0]]), [])
  }

  /** Inserts the documents of the tenant first met in the buffer. */
  function Insert(queue: seq<Entry>, th: Thread): Moved
    requires th.buf != []
  {
    var t := th.buf[0].tenant;
    Moved(queue, Thread(th.pc, NotOf(th.buf, t)), Of(th.buf, t))
  }

  function Move(batchSize: int, stop: bool, queue: seq<Entry>, th: Thread): Moved {
    var jump := pc => Moved(queue, Thread(pc, th.buf), []);
    match th.pc
    case Head => jump(if stop then Draining else Getting)
    case Getting => if queue != [] then Take(queue, th, Filling) else jump(Head)
    case Filling => if |th.buf| < batchSize && queue != [] then Take(queue, th, Filling) else jump(Flushing)
    case Flushing => if th.buf != [] then Insert(queue, th) else jump(Head)
    case Draining => if queue != [] then Take(queue, th, Draining) else jump(LastFlush)
    case LastFlush => if th.buf != [] then Insert(queue, th) else jump(Done)
    case Done => jump(Done)
  }

  function AdvanceThread(s: State, i: nat): State
    requires i < |s.threads|
  {
    var th := s.threads[i];
    var m := Move(s.batchSize, s.stop, s.queue, th);
    s.(queue := m.queue,
       threads := s.threads[i := m.thread],
       handed := s.handed + m.inserted,
       flushes := if th.pc == Filling && m.thread.pc == Flushing then s.flushes + [Batch(|th.buf|, s.queue == [])] else s.flushes)
  }

  function Step(s: State, a: Action): State {
    if !Enabled(s, a) then s else
    match a
    case Export(e) => s.(queue := s.queue + [e], accepted := s.accepted + [e])
    case Stop => s.(stop := true)
    case StartFlush => s.(threads := s.threads + [Thread(Draining, [])])
    case Advance(i) => AdvanceThread(s, i)
  }

  function RunFrom(s: State, actions: seq<Action>): State
    decreases |actions|
  {
    if actions == [] then s
    else Step(RunFrom(s, actions[..|actions| - 1]), actions[|actions| - 1])
  }

  lemma {:induction false} RunAppend(s: State, first: seq<Action>, second: seq<Action>)
    ensures RunFrom(s, first + second) == RunFrom(RunFrom(s, first), second)
    decreases |second|
  {
    if second == [] {
      assert first + second == first;
    } else {
      var last := |second| - 1;
      RunAppend(s, first, second[..last]);
      assert (first + second)[..|first + second| - 1] == first + second[..last];
    }
  }

  // ---------- conservation ----------

  ghost function Held(threads: seq<Thread>): multiset<Entry> {
    if threads == [] then multiset{}
    else Held(threads[..|threads| - 1]) + multiset(threads[|threads| - 1].buf)
  }

  /** Every accepted document is in exactly one place. */
  ghost predicate Conserved(s: State) {
    multiset(s.accepted) == multiset(s.queue) + Held(s.threads) + multiset(s.handed)
  }

  /** Adding the same to both sides, on one side or the other of a sum. */
  lemma AddInside(a: multiset<Entry>, b: multiset<Entry>, c: multiset<Entry>, d: multiset<Entry>, x: multiset<Entry>)
    requires a + b == c + d
    ensures a + x + b == c + x + d
  {
    forall e ensures (a + x + b)[e] == (c + x + d)[e] {
      assert (a + b)[e] == (c + d)[e];
    }
  }

  lemma {:induction false} HeldUpdate(threads: seq<Thread>, i: nat, th: Thread)
    requires i < |threads|
    ensures Held(threads[i := th]) + multiset(threads[i].buf) == Held(threads) + multiset(th.buf)
  {
    var last := |threads| - 1;
    var updated := threads[i := th];
    assert Held(updated) == Held(updated[..last]) + multiset(updated[last].buf);
    if i == last {
      assert updated[..last] == threads[..last];
    } else {
      HeldUpdate(threads[..last], i, th);
      assert updated[..last] == threads[..last][i := th];
      assert updated[last] == threads[last] && threads[..last][i] == threads[i];
      AddInside(Held(updated[..last]), multiset(threads[i].buf), Held(threads[..last]), multiset(th.buf), multiset(threads[last].buf));
    }
  }

  lemma {:induction false} SplitByTenant(es: seq<Entry>, t: Tenant)
    ensures multiset(Of(es, t)) + multiset(NotOf(es, t)) == multiset(es)
  {
    if es != [] {
      SplitByTenant(es[1..], t);
      assert es == [es[0]] + es[1..];
    }
  }

  lemma TakeConserves(queue: seq<Entry>, th: Thread, pc: Pc)
    requires queue != []
    ensures var m := Take(queue, th, pc);
            multiset(m.queue) + multiset(m.thread.buf) + multiset(m.inserted) == multiset(queue) + multiset(th.buf)
  {
    assert queue == [queue[0]] + queue[1..];
  }

  lemma InsertConserves(queue: seq<Entry>, th: Thread)
    requires th.buf != []
    ensures var m := Insert(queue, th);
            multiset(m.queue) + multiset(m.thread.buf) + multiset(m.inserted) == multiset(queue) + multiset(th.buf)
  {
    hide Of, NotOf;
    SplitByTenant(th.buf, th.buf[0].tenant);
  }

  lemma MoveConserves(batchSize: int, stop: bool, queue: seq<Entry>, th: Thread)
    ensures var m := Move(batchSize, stop, queue, th);
            multiset(m.queue) + multiset(m.thread.buf) + multiset(m.inserted) == multiset(queue) + multiset(th.buf)
  {
    hide Take, Insert;
    if queue != [] {
      TakeConserves(queue, th, Filling);
      TakeConserves(queue, th, Draining);
    }
    if th.buf != [] {
      InsertConserves(queue, th);
    }
  }

  /** One thread's move keeps the total when it keeps the sum of what the thread touches. */
  lemma Rebalance(q: multiset<Entry>, held: multiset<Entry>, handed: multiset<Entry>, q': multiset<Entry>,
                  held': multiset<Entry>, out: multiset<Entry>, buf: multiset<Entry>, buf': multiset<Entry>)
    requires q' + buf' + out == q + buf && held' + buf == held + buf'
    ensures q' + held' + (handed + out) == q + held + handed
  {
    forall e ensures (q' + held' + (handed + out))[e] == (q + held + handed)[e] {
      assert (q' + buf' + out)[e] == (q + buf)[e];
      assert (held' + buf)[e] == (held + buf')[e];
    }
  }

  lemma StepConserves(s: State, a: Action)
    requires Conserved(s)
    ensures Conserved(Step(s, a))
  {
    hide Move;
    if Enabled(s, a) {
      match a
      case Export(e) =>
      case Stop =>
      case StartFlush =>
        assert (s.threads + [Thread(Draining, [])])[..|s.threads|] == s.threads;
      case Advance(i) =>
        var m := Move(s.batchSize, s.stop, s.queue, s.threads[i]);
        MoveConserves(s.batchSize, s.stop, s.queue, s.threads[i]);
        HeldUpdate(s.threads, i, m.thread);
        assert Step(s, a).threads == s.threads[i := m.thread];
        Rebalance(multiset(s.queue), Held(s.threads), multiset(s.handed), multiset(m.queue), Held(Step(s, a).threads),
                  multiset(m.inserted), multiset(s.threads[i].buf), multiset(m.thread.buf));
    }
  }

  // ---------- batches and buffers ----------

  function Max(a: int, b: int): int { if a < b then b else a }

  ghost predicate ThreadOk(batchSize: int, th: Thread) {
    match th.pc
    case Filling => 1 <= |th.buf| <= Max(1, batchSize)
    case Flushing => |th.buf| <= Max(1, batchSize)
    case Draining => true
    case LastFlush => true
    case _ => th.buf == []
  }

  /** Batches are bounded, and short only when the queue ran dry; a thread outside a batch
      holds nothing. */
  ghost predicate BatchesOk(s: State) {
    && (forall i :: 0 <= i < |s.threads| ==> ThreadOk(s.batchSize, s.threads[i]))
    && (forall k :: 0 <= k < |s.flushes| ==>
          && 1 <= s.flushes[k].size <= Max(1, s.batchSize)
          && (s.flushes[k].size == Max(1, s.batchSize) || s.flushes[k].drained))
  }

  lemma MoveKeepsThreadOk(batchSize: int, stop: bool, queue: seq<Entry>, th: Thread)
    requires ThreadOk(batchSize, th)
    ensures ThreadOk(batchSize, Move(batchSize, stop, queue, th).thread)
    ensures th.pc == Filling && Move(batchSize, stop, queue, th).thread.pc == Flushing ==> |th.buf| >= batchSize || queue == []
  {
  }

  lemma StepKeepsBatches(s: State, a: Action)
    requires BatchesOk(s)
    ensures BatchesOk(Step(s, a)) && Step(s, a).batchSize == s.batchSize
  {
    hide Move;
    if a.Advance? && Enabled(s, a) {
      MoveKeepsThreadOk(s.batchSize, s.stop, s.queue, s.threads[a.thread]);
      assert ThreadOk(s.batchSize, s.threads[a.thread]);
    }
  }

  lemma {:induction false} Reachable(batchSize: int, capacity: nat, actions: seq<Action>)
    ensures var s := RunFrom(Start(batchSize, capacity), actions);
            Conserved(s) && BatchesOk(s) && s.batchSize == batchSize
  {
    var s0 := Start(batchSize, capacity);
    if actions == [] {
      assert Held(s0.threads[..0]) == multiset{};
    } else {
      var before := actions[..|actions| - 1];
      Reachable(batchSize, capacity, before);
      StepConserves(RunFrom(s0, before), actions[|actions| - 1]);
      StepKeepsBatches(RunFrom(s0, before), actions[|actions| - 1]);
    }
  }

  // ---------- order with the worker as the only consumer ----------

  lemma {:induction false} OfConcat(a: seq<Entry>, b: seq<Entry>, t: Tenant)
    ensures Of(a + b, t) == Of(a, t) + Of(b, t)
  {
    if a == [] {
      assert a + b == b;
    } else {
      OfConcat(a[1..], b, t);
      assert (a + b)[1..] == a[1..] + b;
    }
  }

  lemma {:induction false} OfOf(es: seq<Entry>, t: Tenant, u: Tenant)
    ensures Of(Of(es, t), u) == if t == u then Of(es, t) else []
    ensures Of(NotOf(es, t), u) == if t == u then [] else Of(es, u)
  {
    if es != [] {
      OfOf(es[1..], t, u);
    }
  }

  /** What was handed over for a tenant, then the worker's buffer, then the queue, spell the
      documents accepted for it in the order they were accepted. */
  ghost predicate InOrder(s: State, t: Tenant) {
    |s.threads| == 1 ==> Of(s.accepted, t) == Of(s.handed, t) + Of(s.threads[WORKER].buf, t) + Of(s.queue, t)
  }

  lemma TakeKeepsOrder(queue: seq<Entry>, th: Thread, pc: Pc, t: Tenant)
    requires queue != []
    ensures var m := Take(queue, th, pc);
            Of(th.buf, t) + Of(queue, t) == Of(m.inserted, t) + Of(m.thread.buf, t) + Of(m.queue, t)
  {
    assert queue == [queue[0]] + queue[1..];
    OfConcat([queue[0]], queue[1..], t);
    OfConcat(th.buf, [queue[0]], t);
  }

  lemma InsertKeepsOrder(queue: seq<Entry>, th: Thread, t: Tenant)
    requires th.buf != []
    ensures var m := Insert(queue, th);
            Of(th.buf, t) + Of(queue, t) == Of(m.inserted, t) + Of(m.thread.buf, t) + Of(m.queue, t)
  {
    hide Of, NotOf;
    OfOf(th.buf, th.buf[0].tenant, t);
  }

  lemma MoveKeepsOrder(batchSize: int, stop: bool, queue: seq<Entry>, th: Thread, t: Tenant)
    ensures var m := Move(batchSize, stop, queue, th);
            Of(th.buf, t) + Of(queue, t) == Of(m.inserted, t) + Of(m.thread.buf, t) + Of(m.queue, t)
  {
    hide Take, Insert, Of;
    NoneOfNothing(t);
    if queue != [] {
      TakeKeepsOrder(queue, th, Filling, t);
      TakeKeepsOrder(queue, th, Draining, t);
    }
    if th.buf != [] {
      InsertKeepsOrder(queue, th, t);
    }
  }

  lemma StepKeepsOrder(s: State, a: Action, t: Tenant)
    requires InOrder(s, t) && |s.threads| == 1 && a != StartFlush
    ensures InOrder(Step(s, a), t) && |Step(s, a).threads| == 1
  {
    hide Move, Of;
    if Enabled(s, a) {
      match a
      case Export(e) =>
        OfConcat(s.accepted, [e], t);
        OfConcat(s.queue, [e], t);
      case Stop =>
      case Advance(i) =>
        var m := Move(s.batchSize, s.stop, s.queue, s.threads[i]);
        MoveKeepsOrder(s.batchSize, s.stop, s.queue, s.threads[i], t);
        OfConcat(s.handed, m.inserted, t);
        assert Step(s, a).threads == [m.thread];
        calc {
          Of(s.accepted, t);
          Of(s.handed, t) + (Of(s.threads[WORKER].buf, t) + Of(s.queue, t));
          Of(s.handed, t) + (Of(m.inserted, t) + Of(m.thread.buf, t) + Of(m.queue, t));
          Of(s.handed + m.inserted, t) + Of(m.thread.buf, t) + Of(m.queue, t);
        }
    }
  }

  /** As long as no flush caller ever ran beside the worker, each tenant's documents reach
      the database in the order they were accepted. */
  lemma {:induction false} TenantOrder(batchSize: int, capacity: nat, actions: seq<Action>, t: Tenant)
    requires StartFlush !in actions
    ensures var s := RunFrom(Start(batchSize, capacity), actions);
            && |s.threads| == 1
            && Of(s.accepted, t) == Of(s.handed, t) + Of(s.threads[WORKER].buf, t) + Of(s.queue, t)
  {
    hide Step, Of;
    if actions == [] {
      NoneOfNothing(t);
    } else {
      var s := RunFrom(Start(batchSize, capacity), actions[..|actions| - 1]);
      TenantOrder(batchSize, capacity, actions[..|actions| - 1], t);
      StepKeepsOrder(s, actions[|actions| - 1], t);
      assert actions[|actions| - 1] in actions;
    }
  }

  lemma NoneOfNothing(t: Tenant)
    ensures Of([], t) == []
  {
  }

  // ---------- shutdown ----------

  ghost predicate NoExport(actions: seq<Action>) {
    forall a :: a in actions ==> !a.Export?
  }

  /** Once thread `f` has seen the queue empty it stays empty, unless something is exported. */
  ghost predicate DrainedBy(s: State, f: nat) {
    f < |s.threads| && s.threads[f].pc in {Draining, LastFlush, Done} && (s.threads[f].pc != Draining ==> s.queue == [])
  }

  lemma StepKeepsDrained(s: State, a: Action, f: nat)
    requires DrainedBy(s, f) && !a.Export?
    ensures DrainedBy(Step(s, a), f)
  {
    if a.Advance? && Enabled(s, a) {
      var m := Move(s.batchSize, s.stop, s.queue, s.threads[a.thread]);
      assert s.queue == [] ==> m.queue == [];
      assert Step(s, a).threads[f] == if a.thread == f then m.thread else s.threads[f];
    }
  }

  lemma {:induction false} DrainedStays(s: State, actions: seq<Action>, f: nat)
    requires DrainedBy(s, f) && NoExport(actions)
    ensures DrainedBy(RunFrom(s, actions), f)
    decreases |actions|
  {
    hide Step, DrainedBy;
    if actions != [] {
      DrainedStays(s, actions[..|actions| - 1], f);
      assert actions[|actions| - 1] in actions;
      StepKeepsDrained(RunFrom(s, actions[..|actions| - 1]), actions[|actions| - 1], f);
    }
  }

  lemma {:induction false} NothingHeld(threads: seq<Thread>)
    requires forall i :: 0 <= i < |threads| ==> threads[i].buf == []
    ensures Held(threads) == multiset{}
  {
    if threads != [] {
      NothingHeld(threads[..|threads| - 1]);
    }
  }

  /** A flush that starts when nothing more is exported leaves the queue empty; when the
      worker has been joined and every flush caller is through, all accepted documents have
      been handed to the database, each exactly once. */
  lemma ShutdownHandsOverAll(batchSize: int, capacity: nat, before: seq<Action>, after: seq<Action>)
    requires NoExport(after)
    requires var s := RunFrom(Start(batchSize, capacity), before + [StartFlush] + after);
             forall i :: 0 <= i < |s.threads| ==> s.threads[i].pc == Done
    ensures var s := RunFrom(Start(batchSize, capacity), before + [StartFlush] + after);
            s.queue == [] && multiset(s.handed) == multiset(s.accepted)
  {
    var s0 := Start(batchSize, capacity);
    var s1 := RunFrom(s0, before);
    var f := |s1.threads|;
    RunAppend(s0, before + [StartFlush], after);
    assert (before + [StartFlush])[..|before|] == before;
    var s2 := RunFrom(s0, before + [StartFlush]);
    DrainedStays(s2, after, f);
    Reachable(batchSize, capacity, before + [StartFlush] + after);
    var s := RunFrom(s2, after);
    forall i | 0 <= i < |s.threads| ensures s.threads[i].buf == [] {
      assert ThreadOk(s.batchSize, s.threads[i]);
    }
    NothingHeld(s.threads);
  }

  /** The join matters: from any state in which the worker holds a document and the queue
      is empty, a flush caller can run from start to end and leave that document behind. */
  lemma FlushIgnoresWhatOthersHold(s: State)
    requires s.queue == []
    ensures var f := |s.threads|;
            var t := RunFrom(s, [StartFlush, Advance(f), Advance(f)]);
            t.threads == s.threads + [Thread(Done, [])] && t.handed == s.handed && t.accepted == s.accepted
  {
    var f := |s.threads|;
    RunThree(s, StartFlush, Advance(f), Advance(f));
    var s1 := Step(s, StartFlush);
    var s2 := Step(s1, Advance(f));
    assert s2.threads == s.threads + [Thread(LastFlush, [])];
  }

  lemma RunThree(s: State, a: Action, b: Action, c: Action)
    ensures RunFrom(s, [a, b, c]) == Step(Step(Step(s, a), b), c)
  {
    hide Step;
    assert RunFrom(s, [a]) == Step(s, a) by { assert [a][..0] == []; }
    assert RunFrom(s, [a, b]) == Step(Step(s, a), b) by { assert [a, b][..1] == [a]; }
    assert [a, b, c][..2] == [a, b];
  }

  /** How many more steps thread `i` can take once the stop event is set. */
  function Rank(s: State, i: nat): nat
    requires i < |s.threads|
  {
    var th := s.threads[i];
    4 * |s.queue| + 2 * |th.buf| +
    match th.pc
    case Filling => 6
    case Getting => 5
    case Flushing => 5
    case Head => 4
    case Draining => 3
    case LastFlush => 2
    case Done => 0
  }

  function OwnSteps(actions: seq<Action>, i: nat): nat {
    if actions == [] then 0
    else OwnSteps(actions[..|actions| - 1], i) + if actions[|actions| - 1] == Advance(i) then 1 else 0
  }

  /** A step of any thread, once no export comes: nobody's rank grows, one's own falls. */
  lemma RankFalls(s: State, a: Action, i: nat)
    requires s.stop && i < |s.threads| && !a.Export?
    ensures var t := Step(s, a);
            && t.stop && i < |t.threads|
            && (s.threads[i].pc == Done ==> t.threads[i].pc == Done)
            && Rank(t, i) + (if a == Advance(i) && s.threads[i].pc != Done then 1 else 0) <= Rank(s, i)
  {
  }

  /** After the stop event and the last export, every thread ends: however the threads are
      interleaved, a thread that has taken as many steps as its rank is done. */
  lemma {:induction false} ThreadEndsAfterStop(s: State, actions: seq<Action>, i: nat)
    requires s.stop && i < |s.threads| && NoExport(actions)
    ensures var t := RunFrom(s, actions);
            t.stop && i < |t.threads| && (t.threads[i].pc == Done || Rank(t, i) + OwnSteps(actions, i) <= Rank(s, i))
    decreases |actions|
  {
    if actions != [] {
      hide Step, Rank;
      ThreadEndsAfterStop(s, actions[..|actions| - 1], i);
      assert actions[|actions| - 1] in actions;
      RankFalls(RunFrom(s, actions[..|actions| - 1]), actions[|actions| - 1], i);
    }
  }
}
