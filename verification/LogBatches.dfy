/**
 `MongoBatchLogger`: callers enqueue log documents, one background worker inserts them in
 batches. The machine interleaves them; the class below runs the worker's loop and is proved
 to make runs of the machine.
 */
module LogBatches {
  type Doc = string

  datatype Pc = Head | Getting | Check | Final | Done

  datatype Flush = Flush(docs: seq<Doc>, stopping: bool)

  datatype State = State(
    batchSize: int,
    queue: seq<Doc>,
    stop: bool,
    pc: Pc,
    batch: seq<Doc>,
    accepted: seq<Doc>,
    flushes: seq<Flush>)

  datatype Action = Enqueue(doc: Doc) | Stop | Work

  function Start(batchSize: int): State {
    State(batchSize, [], false, Head, [], [], [])
  }

  function FlushBatch(s: State, pc: Pc): State {
    s.(pc := pc, batch := [], flushes := s.flushes + [Flush(s.batch, s.stop)])
  }

  function WorkStep(s: State): State {
    match s.pc
    case Head => s.(pc := if s.stop then Final else Getting)
    case Getting =>
      if s.queue != [] then s.(pc := Check, batch := s.batch + [s.queue[0]], queue := s.queue[1..])
      else s.(pc := Check)
    case Check =>
      if s.batch != [] && (|s.batch| >= s.batchSize || s.stop) then FlushBatch(s, Head) else s.(pc := Head)
    case Final => if s.batch != [] then FlushBatch(s, Done) else s.(pc := Done)
    case Done => s
  }

  function Step(s: State, a: Action): State {
    match a
    case Enqueue(d) => s.(queue := s.queue + [d], accepted := s.accepted + [d])
    case Stop => s.(stop := true)
    case Work => WorkStep(s)
  }

  function RunFrom(s: State, actions: seq<Action>): State
    decreases |actions|
  {
    if actions == [] then s
    else Step(RunFrom(s, actions[..|actions| - 1]), actions[|actions| - 1])
  }

  /** All documents handed to insert_many, batch after batch. */
  function Inserted(flushes: seq<Flush>): seq<Doc> {
    if flushes == [] then []
    else Inserted(flushes[..|flushes| - 1]) + flushes[|flushes| - 1].docs
  }

  function Limit(batchSize: int): int { if batchSize < 1 then 1 else batchSize }

  /** Nothing is lost, repeated or reordered on the way. */
  ghost predicate Conserved(s: State) {
    s.accepted == Inserted(s.flushes) + s.batch + s.queue
  }

  ghost predicate BoundsOk(s: State) {
    && (s.pc in {Head, Getting, Final} ==> |s.batch| < Limit(s.batchSize))
    && (s.pc == Check ==> |s.batch| <= Limit(s.batchSize))
    && (s.pc == Done ==> s.batch == [])
    && (s.pc in {Final, Done} ==> s.stop)
    && (forall k :: 0 <= k < |s.flushes| ==> FlushOk(s.flushes[k], s.batchSize))
  }

  predicate FlushOk(f: Flush, batchSize: int) {
    && 1 <= |f.docs| <= Limit(batchSize)
    && (!f.stopping ==> |f.docs| == Limit(batchSize))
  }

  lemma InsertedAppend(flushes: seq<Flush>, f: Flush)
    ensures Inserted(flushes + [f]) == Inserted(flushes) + f.docs
  {
    assert (flushes + [f])[..|flushes|] == flushes;
  }

  lemma StepConserves(s: State, a: Action)
    requires Conserved(s)
    ensures Conserved(Step(s, a))
  {
    InsertedAppend(s.flushes, Flush(s.batch, s.stop));
    hide Inserted;
    if s.queue != [] {
      assert s.queue == [s.queue[0]] + s.queue[1..];
    }
  }

  lemma StepKeepsBounds(s: State, a: Action)
    requires BoundsOk(s)
    ensures BoundsOk(Step(s, a)) && Step(s, a).batchSize == s.batchSize
  {
  }

  /** In every interleaving: the batches inserted, then the batch in hand, then the queue
      spell what was enqueued, in order; every batch holds from one to `batch_size`
      documents and exactly `batch_size` unless the logger is stopping; and at the loop head
      fewer than `batch_size` are pending. Once the worker has ended, what is missing from
      the database is exactly what was still queued. */
  lemma {:induction false} Batching(batchSize: int, actions: seq<Action>)
    ensures var s := RunFrom(Start(batchSize), actions);
            && s.batchSize == batchSize && Conserved(s) && BoundsOk(s)
            && (s.pc == Done ==> s.accepted == Inserted(s.flushes) + s.queue)
  {
    if actions != [] {
      Batching(batchSize, actions[..|actions| - 1]);
      StepConserves(RunFrom(Start(batchSize), actions[..|actions| - 1]), actions[|actions| - 1]);
      StepKeepsBounds(RunFrom(Start(batchSize), actions[..|actions| - 1]), actions[|actions| - 1]);
    }
  }

  // ---------- documents move ----------

  /** What the callers enqueued in this run, in order. */
  function Enqueued(actions: seq<Action>): seq<Doc> {
    if actions == [] then []
    else
      var last := actions[|actions| - 1];
      Enqueued(actions[..|actions| - 1]) + if last.Enqueue? then [last.doc] else []
  }

  function WorkSteps(actions: seq<Action>): nat {
    if actions == [] then 0
    else WorkSteps(actions[..|actions| - 1]) + if actions[|actions| - 1] == Work then 1 else 0
  }

  lemma {:induction false} AcceptedIsEnqueued(batchSize: int, actions: seq<Action>)
    ensures RunFrom(Start(batchSize), actions).accepted == Enqueued(actions)
  {
    if actions != [] {
      AcceptedIsEnqueued(batchSize, actions[..|actions| - 1]);
      StepMoves(RunFrom(Start(batchSize), actions[..|actions| - 1]), actions[|actions| - 1], 0);
      hide Step;
    }
  }

  /** How many of the first `m` enqueued are still queued. */
  function Queued(s: State, m: nat): nat {
    if |s.accepted| - |s.queue| < m then m - (|s.accepted| - |s.queue|) else 0
  }

  /** Steps of the worker until its next look at the queue. */
  function Phase(pc: Pc): nat {
    match pc
    case Check => 2
    case Head => 1
    case _ => 0
  }

  lemma StepMoves(s: State, a: Action, m: nat)
    ensures var t := Step(s, a);
            && t.accepted == s.accepted + (if a.Enqueue? then [a.doc] else [])
            && Queued(t, m) <= Queued(s, m) && (s.stop ==> t.stop) && (a != Stop ==> t.stop == s.stop)
    ensures !s.stop && s.pc in {Head, Getting, Check} && a != Stop ==>
              && Step(s, a).pc in {Head, Getting, Check}
              && (a == Work && Queued(s, m) > 0 && |s.queue| <= |s.accepted| && m <= |s.accepted| ==>
                    3 * Queued(Step(s, a), m) + Phase(Step(s, a).pc) < 3 * Queued(s, m) + Phase(s.pc))
              && (a != Work ==> Step(s, a).pc == s.pc)
  {
  }

  /** While nobody stops it the logger delivers: once the worker has taken three steps for each
      queued document and three more, all that had been enqueued has been inserted, in order,
      or is the start of the one batch in hand, which is shorter than a full one between turns. */
  lemma WorkerDelivers(batchSize: int, before: seq<Action>, more: seq<Action>)
    requires Stop !in before && Stop !in more
    ensures var s, t := RunFrom(Start(batchSize), before), RunFrom(Start(batchSize), before + more);
            && (WorkSteps(more) >= 3 * |s.queue| + 3 ==> Enqueued(before) <= Inserted(t.flushes) + t.batch)
            && (t.pc == Head ==> |t.batch| < Limit(batchSize))
  {
    var s, t := RunFrom(Start(batchSize), before), RunFrom(Start(batchSize), before + more);
    var m := |s.accepted|;
    Batching(batchSize, before);
    Batching(batchSize, before + more);
    AcceptedIsEnqueued(batchSize, before);
    QueuedFalls(batchSize, before, more);
    hide RunFrom, Inserted;
    if WorkSteps(more) >= 3 * |s.queue| + 3 {
      assert Queued(t, m) == 0;
      assert t.accepted == (Inserted(t.flushes) + t.batch) + t.queue;
    }
  }

  lemma {:induction false} StillRunning(batchSize: int, actions: seq<Action>)
    requires Stop !in actions
    ensures var s := RunFrom(Start(batchSize), actions); !s.stop && s.pc in {Head, Getting, Check}
  {
    hide Step;
    if actions != [] {
      assert actions[|actions| - 1] in actions;
      StillRunning(batchSize, actions[..|actions| - 1]);
      WorkInside(RunFrom(Start(batchSize), actions[..|actions| - 1]), actions[|actions| - 1]);
    }
  }

  /** Unstopped, the worker stays in its loop. */
  lemma WorkInside(s: State, a: Action)
    requires !s.stop && s.pc in {Head, Getting, Check} && a != Stop
    ensures !Step(s, a).stop && Step(s, a).pc in {Head, Getting, Check}
  {
  }

  lemma {:induction false} QueuedFalls(batchSize: int, before: seq<Action>, more: seq<Action>)
    requires Stop !in before && Stop !in more
    ensures var s, t := RunFrom(Start(batchSize), before), RunFrom(Start(batchSize), before + more);
            && !t.stop && t.pc in {Head, Getting, Check} && s.accepted <= t.accepted
            && (Queued(t, |s.accepted|) == 0
                || 3 * Queued(t, |s.accepted|) + Phase(t.pc) + WorkSteps(more) <= 3 * |s.queue| + Phase(s.pc))
    decreases |more|
  {
    hide Step, Inserted;
    var s := RunFrom(Start(batchSize), before);
    if more == [] {
      assert before + more == before;
      Batching(batchSize, before);
      StillRunning(batchSize, before);
    } else {
      var most, a := more[..|more| - 1], more[|more| - 1];
      assert a in more && (before + more)[..|before + more| - 1] == before + most;
      QueuedFalls(batchSize, before, most);
      var t := RunFrom(Start(batchSize), before + most);
      Batching(batchSize, before + most);
      StepMoves(t, a, |s.accepted|);
    }
  }

  function Rank(pc: Pc): nat {
    match pc
    case Getting => 4
    case Check => 3
    case Head => 2
    case Final => 1
    case Done => 0
  }

  /** Once told to stop, the worker ends within four more steps of its own. */
  lemma {:induction false} WorkerEndsAfterStop(s: State, actions: seq<Action>)
    requires s.stop
    ensures var t := RunFrom(s, actions); t.stop && (t.pc == Done || Rank(t.pc) + WorkSteps(actions) <= Rank(s.pc))
    decreases |actions|
  {
    if actions != [] {
      WorkerEndsAfterStop(s, actions[..|actions| - 1]);
    }
  }

  class MongoBatchLogger {
    const batchSize: int
    var queue: seq<Doc>
    var stopEvent: bool
    var collection: seq<Flush>
    var accepted: seq<Doc>
    var script: seq<seq<Action>>
    ghost var pc: Pc
    ghost var pending: seq<Doc>
    ghost var trace: seq<Action>

    ghost function View(): State
      reads this
    {
      State(batchSize, queue, stopEvent, pc, pending, accepted, collection)
    }

    ghost predicate Valid()
      reads this
    {
      View() == RunFrom(Start(batchSize), trace)
    }

    ghost predicate StopComing()
      reads this
    {
      stopEvent || exists k :: 0 <= k < |script| && Stop in script[k]
    }

    constructor (batchSize: int, script: seq<seq<Action>>)
      ensures Valid() && trace == [] && pc == Head && pending == [] && this.batchSize == batchSize && this.script == script
    {
      this.batchSize, this.script := batchSize, script;
      queue, stopEvent, collection, accepted, pc, pending, trace := [], false, [], [], Head, [], [];
    }

    ghost method Record(a: Action)
      requires View() == Step(RunFrom(Start(batchSize), trace), a)
      modifies this`trace
      ensures Valid() && trace == old(trace) + [a]
    {
      trace := trace + [a];
      assert trace[..|trace| - 1] == old(trace);
    }

    method Enqueue(doc: Doc)
      requires Valid()
      modifies this`queue, this`accepted, this`trace
      ensures Valid() && trace == old(trace) + [Action.Enqueue(doc)]
      ensures accepted == old(accepted) + [doc] && queue == old(queue) + [doc]
    {
      queue := queue + [doc];
      accepted := accepted + [doc];
      Record(Action.Enqueue(doc));
    }

    /** Sets the stop event; joining the worker only waits. */
    method SetStop()
      requires Valid()
      modifies this`stopEvent, this`trace
      ensures Valid() && stopEvent && trace == old(trace) + [Stop]
    {
      stopEvent := true;
      Record(Stop);
    }

    /** What the callers do before the worker's next step. */
    method Callers()
      requires Valid()
      modifies this`queue, this`accepted, this`stopEvent, this`trace, this`script
      ensures Valid() && old(trace) <= trace && (old(stopEvent) ==> stopEvent)
      ensures script == if old(script) == [] then [] else old(script)[1..]
      ensures old(StopComing()) ==> StopComing()
    {
      if script == [] {
        return;
      }
      var turn := script[0];
      script := script[1..];
      for k := 0 to |turn|
        invariant Valid() && old(trace) <= trace && script == old(script)[1..]
        invariant old(stopEvent) || Stop in turn[..k] ==> stopEvent
      {
        match turn[k]
        case Enqueue(d) => Enqueue(d);
        case Stop => SetStop();
        case Work =>
      }
      assert turn[..|turn|] == turn;
      if old(StopComing()) && !stopEvent {
        var k :| 0 <= k < |old(script)| && Stop in old(script)[k];
        assert k > 0;
        assert Stop in script[k - 1];
      }
    }

    /** insert_many of the batch in hand; an insert error only loses that batch. */
    method InsertMany(batch: seq<Doc>)
      requires Valid() && batch == pending && batch != []
      requires pc == Final || (pc == Check && (|batch| >= batchSize || stopEvent))
      modifies this`collection, this`pc, this`pending, this`trace
      ensures Valid() && trace == old(trace) + [Work] && pending == []
      ensures pc == if old(pc) == Final then Done else Head
      ensures collection == old(collection) + [Flush(batch, stopEvent)]
    {
      collection := collection + [Flush(batch, stopEvent)];
      pending := [];
      pc := if pc == Final then Done else Head;
      Record(Work);
    }

    ghost method Jump(next: Pc)
      requires Valid() && View().(pc := next) == WorkStep(View())
      modifies this`pc, this`trace
      ensures Valid() && pc == next && trace == old(trace) + [Work]
    {
      pc := next;
      Record(Work);
    }

    /** queue.get(timeout=...): one document, or none when the wait runs out. */
    method Get(batch: seq<Doc>) returns (longer: seq<Doc>)
      requires Valid() && pc == Getting && pending == batch
      modifies this`queue, this`pc, this`pending, this`trace
      ensures Valid() && trace == old(trace) + [Work] && pc == Check && pending == longer
      ensures old(queue) == [] ==> longer == batch
      ensures old(queue) != [] ==> longer == batch + [old(queue)[0]] && queue == old(queue)[1..]
    {
      longer := batch;
      if queue != [] {
        longer := batch + [queue[0]];
        queue := queue[1..];
      }
      pending := longer;
      pc := Check;
      Record(Work);
    }

    /** One pass of the worker's loop: wait for a document, flush the batch when it is due. */
    method Pass(batch: seq<Doc>) returns (left: seq<Doc>)
      requires Valid() && pc == Head && pending == batch && !stopEvent && StopComing()
      modifies this
      ensures Valid() && old(trace) <= trace && pc == Head && pending == left && StopComing()
      ensures |script| < |old(script)| || (script == [] && stopEvent)
    {
      hide RunFrom;
      Jump(Getting);
      Callers();
      left := Get(batch);
      Callers();
      if left != [] && (|left| >= batchSize || stopEvent) {
        InsertMany(left);
        left := [];
      } else {
        Jump(Head);
      }
    }

    /** The worker thread, from its start until it ends after the stop event. */
    method BackgroundWorker()
      requires Valid() && pc == Head && pending == [] && StopComing()
      modifies this
      ensures Valid() && old(trace) <= trace && pc == Done && stopEvent
    {
      hide RunFrom;
      var batch: seq<Doc> := [];
      Callers();
      while !stopEvent
        invariant Valid() && old(trace) <= trace && pc == Head && pending == batch && StopComing()
        decreases |script|
      {
        batch := Pass(batch);
        Callers();
      }
      Jump(Final);
      Callers();
      if batch != [] {
        InsertMany(batch);
      } else {
        Jump(Done);
      }
    }
  }
}
