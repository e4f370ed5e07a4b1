/**
 The message loops of the two workers as sequential code: decode, set the ambient grant, run
 the consumer, settle, release, clear. Between any two awaits the other lanes run, as
 `script` has it. Each stretch extends `trace` by the matching action of `Settlement`, whose
 theorems therefore hold of these methods.
 */
module Workers {
  import opened Options
  import opened Signature
  import opened Settlement

  class MessageWorkers {
    const store0: map<Id, Stored>
    const now0: int
    var now: int
    var store: map<Id, Stored>
    var known: set<Id>
    var lanes: map<LaneId, Lane>
    var headers: seq<Option<string>>
    var log: seq<Event>
    var script: seq<seq<Action>>
    ghost var trace: seq<Action>

    ghost function View(): State
      reads this
    {
      State(now, store, known, lanes, headers, log)
    }

    ghost predicate Valid()
      reads this
    {
      View() == RunFrom(Start(store0, now0), trace)
    }

    ghost predicate Idle(lane: LaneId, worker: Worker)
      reads this
    {
      lane in lanes && lanes[lane].worker == worker && lanes[lane].job.None?
    }

    constructor (store: map<Id, Stored>, now: int, script: seq<seq<Action>>)
      ensures Valid() && trace == [] && this.store == store && this.lanes == map[] && this.script == script
    {
      store0, now0 := store, now;
      this.now, this.store, this.known, this.script := now, store, store.Keys, script;
      lanes, headers, log, trace := map[], [], [], [];
    }

    ghost method Record(a: Action, before: State)
      requires before == RunFrom(Start(store0, now0), trace) && View() == Step(before, a)
      modifies this`trace
      ensures Valid() && trace == old(trace) + [a]
    {
      hide Step;
      trace := trace + [a];
      assert trace[..|trace| - 1] == old(trace);
    }

    /** An action of another lane, or of the world. */
    method Perform(a: Action)
      requires Valid()
      modifies this`now, this`store, this`known, this`lanes, this`headers, this`log, this`trace
      ensures Valid() && trace == old(trace) + [a] && View() == Step(old(View()), a)
    {
      ghost var before := View();
      var after := Step(State(now, store, known, lanes, headers, log), a);
      now, store, known := after.now, after.store, after.known;
      lanes, headers, log := after.lanes, after.headers, after.log;
      Record(a, before);
    }

    /** What the other lanes do while `lane` is suspended. */
    method Others(lane: LaneId)
      requires Valid() && lane in lanes
      modifies this`now, this`store, this`known, this`lanes, this`headers, this`log, this`trace, this`script
      ensures Valid() && old(trace) <= trace && old(headers) <= headers && old(log) <= log && old(known) <= known
      ensures lane in lanes && lanes[lane] == old(lanes[lane])
      ensures forall id :: id in old(known) && id !in old(store) ==> id !in store
    {
      hide Step, RunFrom;
      if script == [] {
        return;
      }
      var turn := script[0];
      script := script[1..];
      for k := 0 to |turn|
        invariant Valid() && old(trace) <= trace && old(headers) <= headers && old(log) <= log && old(known) <= known
        invariant lane in lanes && lanes[lane] == old(lanes[lane])
        invariant forall id :: id in old(known) && id !in old(store) ==> id !in store
      {
        if LaneOf(turn[k]) != Some(lane) {
          OtherLanesKept(State(now, store, known, lanes, headers, log), turn[k], lane);
          StepGrows(State(now, store, known, lanes, headers, log), turn[k]);
          GoneStaysGone(State(now, store, known, lanes, headers, log), turn[k]);
          Perform(turn[k]);
        }
      }
    }

    /** A message arrives: decoded, its grant becomes the lane's ambient one. */
    method Deliver(lane: LaneId, header: Option<string>, decodable: bool)
      requires Valid() && lane in lanes && lanes[lane].job.None?
      modifies this`lanes, this`headers, this`trace
      ensures Valid() && trace == old(trace) + [Receive(lane, header, decodable)]
      ensures headers == old(headers) + [header] && log == old(log) && store == old(store) && known == old(known)
      ensures lane in lanes && lanes[lane].worker == old(lanes[lane]).worker
      ensures decodable ==> lanes[lane] == Lane(old(lanes[lane]).worker, (if IsWellFormed(header) then header else None), Some(Job(old(|headers|), header, false, Handling)))
      ensures !decodable ==> lanes[lane] == old(lanes[lane]).(job :=
                if old(lanes[lane]).worker == Azure then Some(Job(old(|headers|), header, false, OuterAbandon)) else None)
    {
      hide RunFrom, IsWellFormed;
      ghost var before := View();
      var worker, delivery := lanes[lane].worker, |headers|;
      headers := headers + [header];
      if decodable {
        var grant := if IsWellFormed(header) then header else None;
        lanes := lanes[lane := Lane(worker, grant, Some(Job(delivery, header, false, Handling)))];
      } else if worker == Azure {
        lanes := lanes[lane := lanes[lane].(job := Some(Job(delivery, header, false, OuterAbandon)))];
      }
      Record(Receive(lane, header, decodable), before);
    }

    method ConsumerReturns(lane: LaneId, outcome: Outcome)
      requires Valid() && Enabled(View(), HandlerReturns(lane, outcome))
      modifies this`lanes, this`log, this`trace
      ensures Valid() && trace == old(trace) + [HandlerReturns(lane, outcome)]
      ensures lane in lanes && lanes[lane] == AfterHandler(old(lanes[lane]), outcome)
      ensures log == old(log) + [Handled(old(lanes[lane]).job.value.delivery, outcome == Success)]
      ensures headers == old(headers) && store == old(store) && known == old(known)
    {
      hide RunFrom, IsWellFormed;
      ghost var before := View();
      var job := lanes[lane].job.value.(succeeded := outcome == Success);
      log := log + [Handled(job.delivery, outcome == Success)];
      if lanes[lane].worker == Azure {
        job := job.(pc := if outcome == Success then Acking else Abandoning);
        lanes := lanes[lane := lanes[lane].(job := Some(job))];
      } else if outcome == Escapes {
        lanes := lanes[lane := lanes[lane].(job := None)];
      } else {
        lanes := lanes[lane := lanes[lane].(job := Some(job.(pc := Acking)))];
      }
      Record(HandlerReturns(lane, outcome), before);
    }

    /** The ack or complete came back. Before a release `invalidate` drops the cached token in
        the same stretch, ahead of the removal that is then awaited. */
    method SettleReturns(lane: LaneId, ok: bool)
      requires Valid() && Busy(View(), lane, Acking)
      modifies this`lanes, this`log, this`trace
      ensures Valid() && trace == old(trace) + [AckReturns(lane, ok)]
      ensures lane in lanes && lanes[lane] == AfterAck(old(lanes[lane]), ok)
      ensures ok ==> log == old(log) + [Acked(old(lanes[lane]).job.value.delivery)] + DroppedBy(old(lanes[lane]), ok)
      ensures !ok ==> log == old(log)
      ensures headers == old(headers) && store == old(store) && known == old(known)
    {
      hide RunFrom, IsWellFormed;
      ghost var before := View();
      var l := lanes[lane];
      var job := l.job.value;
      if ok {
        log := log + [Acked(job.delivery)];
        if job.succeeded && job.header !in {None, Some("")} {
          log := log + [TokenDropped(job.delivery, job.header.value)];
          lanes := lanes[lane := l.(job := Some(job.(pc := Releasing)))];
        } else {
          lanes := lanes[lane := l.(ambient := None, job := None)];
        }
      } else if l.worker == Azure {
        lanes := lanes[lane := l.(job := Some(job.(pc := Abandoning)))];
      } else {
        lanes := lanes[lane := l.(job := None)];
      }
      Record(AckReturns(lane, ok), before);
    }

    /** The handler's abandon before it clears and raises, or the receive loop's after that. */
    method Abandon(lane: LaneId)
      requires Valid() && (Busy(View(), lane, Abandoning) || Busy(View(), lane, OuterAbandon))
      modifies this`lanes, this`log, this`trace
      ensures Valid() && trace == old(trace) + [AbandonReturns(lane)] && headers == old(headers)
      ensures log == old(log) + [Abandoned(old(lanes[lane]).job.value.delivery)]
      ensures old(Busy(View(), lane, Abandoning)) ==> lanes[lane].job.value.delivery == old(lanes[lane]).job.value.delivery
      ensures lane in lanes && lanes[lane].worker == old(lanes[lane]).worker
      ensures old(Busy(View(), lane, Abandoning)) ==> Busy(View(), lane, OuterAbandon) && lanes[lane].ambient.None?
      ensures old(Busy(View(), lane, OuterAbandon)) ==> lanes[lane] == old(lanes[lane]).(job := None)
    {
      hide RunFrom, IsWellFormed;
      ghost var before := View();
      var job := lanes[lane].job.value;
      log := log + [Abandoned(job.delivery)];
      if job.pc == Abandoning {
        lanes := lanes[lane := Lane(lanes[lane].worker, None, Some(job.(pc := OuterAbandon)))];
      } else {
        lanes := lanes[lane := lanes[lane].(job := None)];
      }
      Record(AbandonReturns(lane), before);
    }

    /** The end of a handler that returned: settle, and on success release. */
    method CompleteMessage(lane: LaneId, header: Option<string>, completeOk: bool, removalOk: bool, ghost d: DeliveryId) returns (settled: bool)
      requires Valid() && d < |headers| && headers[d] == header && HandledOk(log, d)
      requires lane in lanes && lanes[lane] == Lane(Azure, (if IsWellFormed(header) then header else None), Some(Job(d, header, true, Acking)))
      modifies this
      ensures Valid() && old(trace) <= trace && old(headers) <= headers
      ensures lane in lanes && lanes[lane].worker == Azure && settled == completeOk && old(log) <= log
      ensures settled ==> lanes[lane].job.None? && lanes[lane].ambient.None? && Settled(log, d)
      ensures !settled ==> Busy(View(), lane, Abandoning) && lanes[lane].job.value.delivery == d
      ensures settled && header !in {None, Some("")} ==> Dropped(log, d, header.value)
      ensures settled && removalOk && IsWellFormed(header) && header.value in old(known) ==> header.value !in store
    {
      hide RunFrom, IsWellFormed, Step, Settled, Dropped;
      Others(lane);
      assert HandledOk(log, d) by { LogGrows(old(log), log, d); }
      ghost var handled := log;
      SettleReturns(lane, completeOk);
      settled := completeOk;
      if settled {
        SettledByAck(log, handled, d);
        if header !in {None, Some("")} {
          AckSettles(handled, d, header.value);
        }
        ghost var acked := log;
        ReleaseGrant(lane, header, removalOk);
        LogGrows(acked, log, d);
        if header !in {None, Some("")} {
          DroppedStays(acked, log, d, header.value);
        }
      }
    }

    /** message_handler, once the message is decoded: it returns after a settle, or abandons
        the message, clears the context and raises. */
    method MessageHandler(lane: LaneId, header: Option<string>, handlerOk: bool, completeOk: bool, removalOk: bool, ghost d: DeliveryId)
      returns (settled: bool)
      requires Valid() && d < |headers| && headers[d] == header
      requires lane in lanes && lanes[lane] == Lane(Azure, (if IsWellFormed(header) then header else None), Some(Job(d, header, false, Handling)))
      modifies this
      ensures Valid() && old(trace) <= trace && old(headers) <= headers
      ensures lane in lanes && lanes[lane].worker == Azure && lanes[lane].ambient.None?
      ensures settled <==> handlerOk && completeOk
      ensures old(log) <= log && Handled(d, handlerOk) in log && (!settled ==> Abandoned(d) in log)
      ensures settled ==> lanes[lane].job.None? && Settled(log, d)
      ensures !settled ==> Busy(View(), lane, OuterAbandon) && lanes[lane].job.value.delivery == d
      ensures settled && header !in {None, Some("")} ==> Dropped(log, d, header.value)
      ensures settled && removalOk && IsWellFormed(header) && header.value in old(known) ==> header.value !in store
    {
      hide RunFrom, IsWellFormed, Step, Settled, Dropped;
      settled := false;
      // try
      Others(lane);
      ConsumerReturns(lane, if handlerOk then Success else Failure);
      ghost var handled := |log| - 1;
      assert log[handled] == Handled(d, handlerOk);
      if handlerOk {
        settled := CompleteMessage(lane, header, completeOk, removalOk, d);
        assert log[handled] == Handled(d, handlerOk);
      }
      if !settled {
        Others(lane);
        // except: abandon, clear, raise
        Abandon(lane);
        assert log[handled] == Handled(d, handlerOk) && log[|log| - 1] == Abandoned(d);
      }
    }

    /** One message of the Azure receive loop: a message that cannot be decoded, or whose
        handler raised, is abandoned (again) here. */
    method ProcessAzureMessage(lane: LaneId, header: Option<string>, decodable: bool, handlerOk: bool, completeOk: bool, removalOk: bool)
      returns (settled: bool, ghost d: DeliveryId)
      requires Valid() && Idle(lane, Azure)
      modifies this
      ensures Valid() && old(trace) <= trace && Idle(lane, Azure)
      ensures decodable ==> lanes[lane].ambient.None?
      ensures d < |headers| && headers[d] == header
      ensures settled <==> decodable && handlerOk && completeOk
      ensures decodable ==> Handled(d, handlerOk) in log
      ensures !settled ==> Abandoned(d) in log
      ensures settled ==> Settled(log, d)
      ensures settled && header !in {None, Some("")} ==> Dropped(log, d, header.value)
      ensures settled && removalOk && IsWellFormed(header) && header.value in old(known) ==> header.value !in store
    {
      hide RunFrom, IsWellFormed, Step, Settled, Dropped;
      settled, d := false, |headers|;
      Deliver(lane, header, decodable);
      if decodable {
        settled := MessageHandler(lane, header, handlerOk, completeOk, removalOk, d);
      }
      if !settled {
        Others(lane);
        Abandon(lane);
      }
    }

    /** _release_delegation_grant and the cleanup after it, when a settle just succeeded. */
    method ReleaseGrant(lane: LaneId, header: Option<string>, removalOk: bool)
      requires Valid() && lane in lanes
      requires if header in {None, Some("")} then lanes[lane].job.None? && lanes[lane].ambient.None?
               else Busy(View(), lane, Releasing) && lanes[lane].job.value.header == header
      modifies this
      ensures Valid() && old(trace) <= trace && old(headers) <= headers && old(log) <= log
      ensures Idle(lane, old(lanes[lane]).worker) && lanes[lane].ambient.None?
      ensures removalOk && IsWellFormed(header) && header.value in old(known) ==> header.value !in store
    {
      hide RunFrom;
      if header in {None, Some("")} {
        return;
      }
      Others(lane);
      ghost var before := View();
      if removalOk && IsWellFormed(header) {
        store := store - {header.value};
        log := log + [Removed(lanes[lane].job.value.delivery, header.value)];
      }
      lanes := lanes[lane := Lane(lanes[lane].worker, None, None)];
      Record(RemovalReturns(lane, removalOk), before);
    }

    /** _process_message: the ack comes whether or not the handler succeeded. An ack that
        fails ends the callback with its context still set. */
    method HandleRabbitMessage(lane: LaneId, header: Option<string>, decodable: bool, outcome: Outcome, ackOk: bool, removalOk: bool)
      returns (settled: bool, ghost d: DeliveryId)
      requires Valid() && Idle(lane, Rabbit)
      modifies this
      ensures Valid() && old(trace) <= trace && Idle(lane, Rabbit)
      ensures d < |headers| && headers[d] == header
      ensures settled <==> decodable && outcome == Success && ackOk
      ensures decodable ==> Handled(d, outcome == Success) in log
      ensures decodable && outcome != Escapes && ackOk ==> Acked(d) in log
      ensures settled ==> Settled(log, d)
      ensures settled && header !in {None, Some("")} ==> Dropped(log, d, header.value)
      ensures settled && removalOk && IsWellFormed(header) && header.value in old(known) ==> header.value !in store
      ensures decodable ==> lanes[lane].ambient == if outcome != Escapes && ackOk then None else (if IsWellFormed(header) then header else None)
    {
      hide RunFrom, IsWellFormed, Step, Dropped;
      settled, d := false, |headers|;
      Deliver(lane, header, decodable);
      if !decodable {
        return;
      }
      Others(lane);
      ConsumerReturns(lane, outcome);
      ghost var handled := |log| - 1;
      assert log[handled] == Handled(d, outcome == Success);
      if outcome != Escapes {
        settled := AckRabbitMessage(lane, header, outcome == Success, ackOk, removalOk, d);
        assert log[handled] == Handled(d, outcome == Success);
      }
    }

    /** The finally block: the ack, then the release of a grant whose message was handled. */
    method AckRabbitMessage(lane: LaneId, header: Option<string>, processedSuccessfully: bool, ackOk: bool, removalOk: bool, ghost d: DeliveryId)
      returns (settled: bool)
      requires Valid() && d < |headers| && headers[d] == header
      requires lane in lanes && lanes[lane] == Lane(Rabbit, (if IsWellFormed(header) then header else None), Some(Job(d, header, processedSuccessfully, Acking)))
      requires processedSuccessfully ==> HandledOk(log, d)
      modifies this
      ensures Valid() && old(trace) <= trace && old(headers) <= headers && Idle(lane, Rabbit)
      ensures settled <==> processedSuccessfully && ackOk
      ensures old(log) <= log && (ackOk ==> Acked(d) in log)
      ensures settled ==> Settled(log, d)
      ensures settled && header !in {None, Some("")} ==> Dropped(log, d, header.value)
      ensures settled && removalOk && IsWellFormed(header) && header.value in old(known) ==> header.value !in store
      ensures lanes[lane].ambient == if ackOk then None else (if IsWellFormed(header) then header else None)
    {
      hide RunFrom, IsWellFormed, Step, Settled, Dropped;
      Others(lane);
      assert processedSuccessfully ==> HandledOk(log, d) by { LogGrows(old(log), log, d); }
      ghost var handled := log;
      SettleReturns(lane, ackOk);
      settled := ackOk && processedSuccessfully;
      if settled {
        SettledByAck(log, handled, d);
        if header !in {None, Some("")} {
          AckSettles(handled, d, header.value);
        }
        ghost var acked := log;
        ReleaseGrant(lane, header, removalOk);
        LogGrows(acked, log, d);
        if header !in {None, Some("")} {
          DroppedStays(acked, log, d, header.value);
        }
      }
    }
  }

  lemma SettledByAck(log: seq<Event>, handled: seq<Event>, d: DeliveryId)
    requires HandledOk(handled, d) && handled + [Acked(d)] <= log
    ensures Settled(log, d)
  {
    AckSettles(handled, d, "");
    LogGrows(handled + [Acked(d)], log, d);
  }

  /** An id once used is never stored again after its removal. */
  lemma GoneStaysGone(s: State, a: Action)
    ensures s.known <= Step(s, a).known
    ensures forall id :: id in s.known && id !in s.store ==> id !in Step(s, a).store
  {
    hide IsWellFormed;
  }
}
