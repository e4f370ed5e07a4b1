/**
 How the two workers settle messages around the shared grant store. A lane is one execution
 context with its own ambient grant: an Azure receiver handling its messages one after the
 other, or a RabbitMQ callback. Lanes interleave at their awaits: the handler, the ack or
 complete, the abandon, the removal of the grant.
 */
module Settlement {
  import opened Options
  import opened Signature
  import GrantChain

  type Id = GrantChain.Id
  type Stored = GrantChain.Stored
  type LaneId = nat
  type DeliveryId = nat

  datatype Worker = Azure | Rabbit

  datatype Pc =
    | Handling      // the consumer runs
    | Acking        // awaiting complete_message or ack
    | Releasing     // awaiting the removal of the grant
    | Abandoning    // Azure: the handler's own abandon
    | OuterAbandon  // Azure: the receive loop's abandon after the exception

  /** `header` is the DelegationGrant header, absent or any text. */
  datatype Job = Job(delivery: DeliveryId, header: Option<string>, succeeded: bool, pc: Pc)

  datatype Lane = Lane(worker: Worker, ambient: Option<Id>, job: Option<Job>)

  datatype Outcome = Success | Failure | Escapes

  datatype Event =
    | Handled(delivery: DeliveryId, ok: bool)
    | Acked(delivery: DeliveryId)
    | TokenDropped(delivery: DeliveryId, grant: string)
    | Abandoned(delivery: DeliveryId)
    | Removed(delivery: DeliveryId, id: Id)

  datatype Action =
    | Tick(seconds: nat)
    | Put(id: Id, stored: Stored)
    | Open(lane: LaneId, worker: Worker)
    | Receive(lane: LaneId, header: Option<string>, decodable: bool)
    | HandlerReturns(lane: LaneId, outcome: Outcome)
    | AckReturns(lane: LaneId, ok: bool)
    | RemovalReturns(lane: LaneId, ok: bool)
    | AbandonReturns(lane: LaneId)
    | Interrupt(lane: LaneId)

  datatype State = State(
    now: int,
    store: map<Id, Stored>,
    known: set<Id>,
    lanes: map<LaneId, Lane>,
    headers: seq<Option<string>>,
    log: seq<Event>)

  function Start(store: map<Id, Stored>, now: int): State {
    State(now, store, store.Keys, map[], [], [])
  }

  /** What DelegatedTokenContext.set makes of a header: a malformed value counts as absent. */
  function FromHeader(header: Option<string>): Option<Id> {
    if IsWellFormed(header) then header else None
  }

  predicate Busy(s: State, lane: LaneId, pc: Pc) {
    lane in s.lanes && s.lanes[lane].job.Some? && s.lanes[lane].job.value.pc == pc
  }

  predicate Enabled(s: State, a: Action) {
    match a
    case Tick(_) => true
    case Put(id, _) => id !in s.known
    case Open(lane, _) => lane !in s.lanes
    case Receive(lane, _, _) => lane in s.lanes && s.lanes[lane].job.None?
    case HandlerReturns(lane, outcome) => Busy(s, lane, Handling) && (outcome == Escapes ==> s.lanes[lane].worker == Rabbit)
    case AckReturns(lane, _) => Busy(s, lane, Acking)
    case RemovalReturns(lane, _) => Busy(s, lane, Releasing)
    case AbandonReturns(lane) => Busy(s, lane, Abandoning) || Busy(s, lane, OuterAbandon)
    case Interrupt(lane) => lane in s.lanes && s.lanes[lane].job.Some?
  }

  function At(s: State, lane: LaneId, l: Lane): State {
    s.(lanes := s.lanes[lane := l])
  }

  function GoTo(l: Lane, pc: Pc): Lane
    requires l.job.Some?
  {
    l.(job := Some(l.job.value.(pc := pc)))
  }

  /** The end of the handling with the ambient grant cleared. */
  function Cleared(l: Lane): Lane {
    l.(ambient := None, job := None)
  }

  function AfterHandler(l: Lane, outcome: Outcome): Lane
    requires l.job.Some?
  {
    var done := l.(job := Some(l.job.value.(succeeded := outcome == Success)));
    match l.worker
    case Azure => GoTo(done, if outcome == Success then Acking else Abandoning)
    case Rabbit => if outcome == Escapes then l.(job := None) else GoTo(done, Acking)
  }

  /** The grant is released only after a successful handler and a successful settle. */
  function AfterAck(l: Lane, ok: bool): Lane
    requires l.job.Some?
  {
    if ok then
      if l.job.value.succeeded && l.job.value.header !in {None, Some("")} then GoTo(l, Releasing) else Cleared(l)
    else
      match l.worker
      case Azure => GoTo(l, Abandoning)
      case Rabbit => l.(job := None)
  }

  /** A settle that leads to a release first drops the grant's cached token, in the same
      stretch: `invalidate` is called with the header as it came, well formed or not. */
  function DroppedBy(l: Lane, ok: bool): seq<Event>
    requires l.job.Some?
  {
    if ok && l.job.value.succeeded && l.job.value.header !in {None, Some("")}
    then [TokenDropped(l.job.value.delivery, l.job.value.header.value)] else []
  }

  /** Cancellation: the Azure handler's cleanup clears the context at once, the RabbitMQ one
      acks first and clears only when that ack is not cancelled in turn. */
  function AfterInterrupt(l: Lane): Lane
    requires l.job.Some?
  {
    match l.worker
    case Azure => Cleared(l)
    case Rabbit => if l.job.value.pc == Handling then GoTo(l, Acking) else l.(job := None)
  }

  function Step(s: State, a: Action): State {
    if !Enabled(s, a) then s else
    match a
    case Tick(seconds) => s.(now := s.now + seconds)
    case Put(id, stored) => s.(store := s.store[id := stored], known := s.known + {id})
    case Open(lane, worker) => At(s, lane, Lane(worker, None, None))
    case Receive(lane, header, decodable) =>
      var l, d := s.lanes[lane], |s.headers|;
      var received := s.(headers := s.headers + [header]);
      if decodable then At(received, lane, Lane(l.worker, FromHeader(header), Some(Job(d, header, false, Handling))))
      else if l.worker == Azure then At(received, lane, l.(job := Some(Job(d, header, false, OuterAbandon))))
      else received
    case HandlerReturns(lane, outcome) =>
      var l := s.lanes[lane];
      At(s, lane, AfterHandler(l, outcome)).(log := s.log + [Handled(l.job.value.delivery, outcome == Success)])
    case AckReturns(lane, ok) =>
      var l := s.lanes[lane];
      At(s, lane, AfterAck(l, ok)).(log := if ok then s.log + [Acked(l.job.value.delivery)] + DroppedBy(l, ok) else s.log)
    case RemovalReturns(lane, ok) =>
      var l := s.lanes[lane];
      var header := l.job.value.header;
      var left := At(s, lane, Cleared(l));
      if ok && IsWellFormed(header) then
        left.(store := s.store - {header.value}, log := s.log + [Removed(l.job.value.delivery, header.value)])
      else left
    case AbandonReturns(lane) =>
      var l := s.lanes[lane];
      At(s, lane, if l.job.value.pc == Abandoning then GoTo(Cleared(l).(job := l.job), OuterAbandon) else l.(job := None))
        .(log := s.log + [Abandoned(l.job.value.delivery)])
    case Interrupt(lane) => At(s, lane, AfterInterrupt(s.lanes[lane]))
  }

  function RunFrom(s: State, actions: seq<Action>): State
    decreases |actions|
  {
    if actions == [] then s
    else Step(RunFrom(s, actions[..|actions| - 1]), actions[|actions| - 1])
  }

  // ---------- what every run keeps ----------

  /** The delivery's handler returned normally and after that its settle did. */
  ghost predicate Settled(log: seq<Event>, d: DeliveryId) {
    exists i, j :: 0 <= i < j < |log| && log[i] == Handled(d, true) && log[j] == Acked(d)
  }

  ghost predicate HandledOk(log: seq<Event>, d: DeliveryId) {
    exists i :: 0 <= i < |log| && log[i] == Handled(d, true)
  }

  /** The grant's cached token was dropped for this delivery, after it was settled. */
  ghost predicate Dropped(log: seq<Event>, d: DeliveryId, grant: string) {
    exists m :: 0 <= m < |log| && log[m] == TokenDropped(d, grant) && Settled(log[..m], d)
  }

  ghost predicate JobOk(s: State, l: Lane, job: Job) {
    && job.delivery < |s.headers| && s.headers[job.delivery] == job.header
    && (job.pc != OuterAbandon ==> l.ambient == FromHeader(job.header))
    && (job.succeeded ==> HandledOk(s.log, job.delivery))
    && (job.pc == Handling ==> !job.succeeded)
    && (job.pc == Releasing ==> job.header.Some? && Dropped(s.log, job.delivery, job.header.value))
  }

  ghost predicate LanesOk(s: State) {
    forall lane :: lane in s.lanes && s.lanes[lane].job.Some? ==> JobOk(s, s.lanes[lane], s.lanes[lane].job.value)
  }

  ghost predicate Carried(s: State, d: DeliveryId, grant: string) {
    d < |s.headers| && s.headers[d] == Some(grant)
  }

  /** A grant is removed only after its token was dropped for the delivery that carried it. */
  ghost predicate RemovalsOk(s: State) {
    forall k :: 0 <= k < |s.log| && s.log[k].Removed? ==>
      Carried(s, s.log[k].delivery, s.log[k].id) && Dropped(s.log[..k], s.log[k].delivery, s.log[k].id)
  }

  /** And its token is dropped only after that delivery was settled. */
  ghost predicate DropsOk(s: State) {
    forall k :: 0 <= k < |s.log| && s.log[k].TokenDropped? ==>
      Carried(s, s.log[k].delivery, s.log[k].grant) && Settled(s.log[..k], s.log[k].delivery)
  }

  lemma LogGrows(log: seq<Event>, more: seq<Event>, d: DeliveryId)
    requires log <= more
    ensures Settled(log, d) ==> Settled(more, d)
    ensures HandledOk(log, d) ==> HandledOk(more, d)
  {
  }

  lemma DroppedStays(log: seq<Event>, more: seq<Event>, d: DeliveryId, grant: string)
    requires log <= more && Dropped(log, d, grant)
    ensures Dropped(more, d, grant)
  {
    var m :| 0 <= m < |log| && log[m] == TokenDropped(d, grant) && Settled(log[..m], d);
    assert more[m] == log[m] && more[..m] == log[..m];
  }

  lemma JobStaysOk(s: State, t: State, l: Lane, job: Job)
    requires JobOk(s, l, job) && s.log <= t.log && s.headers <= t.headers
    ensures JobOk(t, l, job)
  {
    LogGrows(s.log, t.log, job.delivery);
    if job.pc == Releasing {
      DroppedStays(s.log, t.log, job.delivery, job.header.value);
    }
  }

  lemma StepGrows(s: State, a: Action)
    ensures s.log <= Step(s, a).log && s.headers <= Step(s, a).headers
  {
  }

  function LaneOf(a: Action): Option<LaneId> {
    match a
    case Tick(_) => None
    case Put(_, _) => None
    case Open(lane, _) => Some(lane)
    case Receive(lane, _, _) => Some(lane)
    case HandlerReturns(lane, _) => Some(lane)
    case AckReturns(lane, _) => Some(lane)
    case RemovalReturns(lane, _) => Some(lane)
    case AbandonReturns(lane) => Some(lane)
    case Interrupt(lane) => Some(lane)
  }

  lemma OtherLanesKept(s: State, a: Action, lane: LaneId)
    requires LaneOf(a) != Some(lane)
    ensures lane in Step(s, a).lanes <==> lane in s.lanes
    ensures lane in s.lanes ==> Step(s, a).lanes[lane] == s.lanes[lane]
  {
  }

  lemma AckSettles(log: seq<Event>, d: DeliveryId, grant: string)
    requires HandledOk(log, d)
    ensures Settled(log + [Acked(d)], d)
    ensures Dropped(log + [Acked(d)] + [TokenDropped(d, grant)], d, grant)
  {
    var i :| 0 <= i < |log| && log[i] == Handled(d, true);
    var acked := log + [Acked(d)];
    var dropped := acked + [TokenDropped(d, grant)];
    assert acked[i] == Handled(d, true) && acked[|log|] == Acked(d);
    assert dropped[..|acked|] == acked && dropped[|acked|] == TokenDropped(d, grant);
  }

  lemma OwnLaneOk(s: State, a: Action, lane: LaneId)
    requires LanesOk(s) && LaneOf(a) == Some(lane) && Enabled(s, a)
    requires lane in Step(s, a).lanes && Step(s, a).lanes[lane].job.Some?
    ensures JobOk(Step(s, a), Step(s, a).lanes[lane], Step(s, a).lanes[lane].job.value)
  {
    hide IsWellFormed;
    var t := Step(s, a);
    StepGrows(s, a);
    if a.HandlerReturns? || a.AckReturns? || a.AbandonReturns? {
      var d := s.lanes[lane].job.value.delivery;
      assert JobOk(s, s.lanes[lane], s.lanes[lane].job.value);
      LogGrows(s.log, t.log, d);
      if a.HandlerReturns? && a.outcome == Success {
        assert t.log[|s.log|] == Handled(d, true);
      }
      if a.AckReturns? && t.lanes[lane].job.value.pc == Releasing {
        AckSettles(s.log, d, s.lanes[lane].job.value.header.value);
      }
    }
  }

  lemma StepKeepsLanes(s: State, a: Action)
    requires LanesOk(s)
    ensures LanesOk(Step(s, a))
  {
    var t := Step(s, a);
    StepGrows(s, a);
    forall lane | lane in t.lanes && t.lanes[lane].job.Some?
      ensures JobOk(t, t.lanes[lane], t.lanes[lane].job.value)
    {
      if Enabled(s, a) && LaneOf(a) == Some(lane) {
        OwnLaneOk(s, a, lane);
      } else {
        if Enabled(s, a) {
          OtherLanesKept(s, a, lane);
        }
        hide Step;
        JobStaysOk(s, t, s.lanes[lane], s.lanes[lane].job.value);
      }
    }
  }

  lemma StepKeepsRemovals(s: State, a: Action)
    requires LanesOk(s) && RemovalsOk(s)
    ensures RemovalsOk(Step(s, a))
  {
    hide IsWellFormed, LanesOk, Dropped;
    var t := Step(s, a);
    StepGrows(s, a);
    forall k | 0 <= k < |t.log| && t.log[k].Removed?
      ensures Carried(t, t.log[k].delivery, t.log[k].id) && Dropped(t.log[..k], t.log[k].delivery, t.log[k].id)
    {
      if k < |s.log| {
        assert t.log[..k] == s.log[..k];
      } else {
        assert t.log[..k] == s.log;
        assert JobOk(s, s.lanes[a.lane], s.lanes[a.lane].job.value) by { JobOfLane(s, a.lane); }
      }
    }
  }

  lemma StepKeepsDrops(s: State, a: Action)
    requires LanesOk(s) && DropsOk(s)
    ensures DropsOk(Step(s, a))
  {
    hide IsWellFormed, LanesOk, Settled;
    var t := Step(s, a);
    StepGrows(s, a);
    forall k | 0 <= k < |t.log| && t.log[k].TokenDropped?
      ensures Carried(t, t.log[k].delivery, t.log[k].grant) && Settled(t.log[..k], t.log[k].delivery)
    {
      if k < |s.log| {
        assert t.log[..k] == s.log[..k];
      } else {
        var job := s.lanes[a.lane].job.value;
        assert JobOk(s, s.lanes[a.lane], job) by { JobOfLane(s, a.lane); }
        AckSettles(s.log, job.delivery, job.header.value);
        assert t.log[..k] == s.log + [Acked(job.delivery)];
      }
    }
  }

  lemma JobOfLane(s: State, lane: LaneId)
    requires LanesOk(s) && lane in s.lanes && s.lanes[lane].job.Some?
    ensures JobOk(s, s.lanes[lane], s.lanes[lane].job.value)
  {
  }

  ghost predicate Inv(s: State) {
    LanesOk(s) && RemovalsOk(s) && DropsOk(s) && s.store.Keys <= s.known
  }

  lemma {:induction false} Reachable(store: map<Id, Stored>, now: int, actions: seq<Action>)
    ensures Inv(RunFrom(Start(store, now), actions))
    decreases |actions|
  {
    hide Inv, Step;
    if actions == [] {
      StartOk(store, now);
    } else {
      var before := actions[..|actions| - 1];
      Reachable(store, now, before);
      StepKeepsInv(RunFrom(Start(store, now), before), actions[|actions| - 1]);
    }
  }

  lemma StepKeepsInv(s: State, a: Action)
    requires Inv(s)
    ensures Inv(Step(s, a))
  {
    hide LanesOk, RemovalsOk, DropsOk, Step;
    StepKeepsLanes(s, a);
    StepKeepsRemovals(s, a);
    StepKeepsDrops(s, a);
    StepKeepsKnown(s, a);
  }

  lemma StartOk(store: map<Id, Stored>, now: int)
    ensures Inv(Start(store, now))
  {
  }

  lemma StepKeepsKnown(s: State, a: Action)
    requires s.store.Keys <= s.known
    ensures Step(s, a).store.Keys <= Step(s, a).known
  {
    hide IsWellFormed;
  }

  /** Handled, acked, token dropped: all three for delivery `d`, in this order, before event `k`. */
  ghost predicate ReleasedInOrder(log: seq<Event>, k: nat, d: DeliveryId, grant: string)
    requires k <= |log|
  {
    exists i, j, m :: 0 <= i < j < m < k && log[i] == Handled(d, true) && log[j] == Acked(d) && log[m] == TokenDropped(d, grant)
  }

  lemma DroppedInOrder(log: seq<Event>, k: nat, d: DeliveryId, grant: string)
    requires k <= |log| && Dropped(log[..k], d, grant)
    ensures ReleasedInOrder(log, k, d, grant) && Settled(log, d)
  {
    var prefix := log[..k];
    var m :| 0 <= m < |prefix| && prefix[m] == TokenDropped(d, grant) && Settled(prefix[..m], d);
    var settled := prefix[..m];
    var i, j :| 0 <= i < j < |settled| && settled[i] == Handled(d, true) && settled[j] == Acked(d);
    assert log[i] == settled[i] && log[j] == settled[j] && log[m] == prefix[m];
  }

  /** Business operation, then settle, then release: in every run of both workers a grant is
      removed only for a delivery that carried it, after its handler succeeded, its ack or
      complete returned and its cached token was dropped, in that order. */
  lemma SettleOrder(store: map<Id, Stored>, now: int, actions: seq<Action>, k: nat)
    requires k < |RunFrom(Start(store, now), actions).log| && RunFrom(Start(store, now), actions).log[k].Removed?
    ensures var s := RunFrom(Start(store, now), actions);
            var d, id := s.log[k].delivery, s.log[k].id;
            && Carried(s, d, id)
            && ReleasedInOrder(s.log, k, d, id) && Settled(s.log, d)
  {
    hide RunFrom, Dropped, ReleasedInOrder, Settled;
    Reachable(store, now, actions);
    var s := RunFrom(Start(store, now), actions);
    DroppedInOrder(s.log, k, s.log[k].delivery, s.log[k].id);
  }

  /** The grant was removed by an event of index `from` or later. */
  ghost predicate RemovedSince(log: seq<Event>, from: nat, id: Id) {
    exists k :: from <= k < |log| && log[k].Removed? && log[k].id == id
  }

  ghost predicate KeptSince(s: State, from: nat, id: Id, stored: Stored) {
    && from <= |s.log| && id in s.known
    && (id in s.store ==> s.store[id] == stored)
    && (id in s.store <==> !RemovedSince(s.log, from, id))
  }

  lemma StepKeepsGrant(s: State, a: Action, from: nat, id: Id, stored: Stored)
    requires KeptSince(s, from, id, stored)
    ensures KeptSince(Step(s, a), from, id, stored)
  {
    hide IsWellFormed;
    var t := Step(s, a);
    StepGrows(s, a);
    if RemovedSince(s.log, from, id) {
      var k :| from <= k < |s.log| && s.log[k].Removed? && s.log[k].id == id;
      assert t.log[k] == s.log[k];
    } else if RemovedSince(t.log, from, id) {
      var k :| from <= k < |t.log| && t.log[k].Removed? && t.log[k].id == id;
      assert k == |s.log|;
    } else if |t.log| > |s.log| {
      assert t.log[|s.log|].Removed? ==> t.log[|s.log|].id != id;
    }
  }

  /** From the moment it is stored, at the start or later, a grant keeps its record and expiry
      through any number of failed and abandoned deliveries, until it is removed. */
  lemma {:induction false} GrantKeptUntilRemoved(s0: State, actions: seq<Action>, id: Id)
    requires id in s0.store && id in s0.known
    ensures KeptSince(RunFrom(s0, actions), |s0.log|, id, s0.store[id])
    decreases |actions|
  {
    hide Step;
    if actions != [] {
      var before := actions[..|actions| - 1];
      GrantKeptUntilRemoved(s0, before, id);
      StepKeepsGrant(RunFrom(s0, before), actions[|actions| - 1], |s0.log|, id, s0.store[id]);
    }
  }

  lemma {:induction false} RunAppend(s: State, first: seq<Action>, second: seq<Action>)
    ensures RunFrom(s, first + second) == RunFrom(RunFrom(s, first), second)
    decreases |second|
  {
    if second == [] {
      assert first + second == first;
    } else {
      var last := |second| - 1;
      RunAppend(s, first, second[..last]);
      assert (first + second)[..|first + second| - 1] == first + second[..last];
    }
  }

  /** No delivery that carried this grant was handled and settled. */
  ghost predicate NeverSettled(s: State, id: Id) {
    forall d :: 0 <= d < |s.headers| && s.headers[d] == Some(id) ==> !Settled(s.log, d)
  }

  /** So a redelivery can still mint: a grant that is in the store at any moment of any run
      reads back unchanged at every later moment before its expiry, unless by then some
      delivery carrying it was handled and settled. */
  lemma RedeliveryFindsGrant(store: map<Id, Stored>, now: int, before: seq<Action>, id: Id, after: seq<Action>)
    requires var s0 := RunFrom(Start(store, now), before);
             && id in s0.store && IsWellFormed(Some(id))
             && RunFrom(Start(store, now), before + after).now < s0.store[id].expiresAt
    requires NeverSettled(RunFrom(Start(store, now), before + after), id)
    ensures var s := RunFrom(Start(store, now), before + after);
            GrantChain.Get(s.store, Some(id), s.now) == Some(RunFrom(Start(store, now), before).store[id].record)
  {
    hide RunFrom, IsWellFormed, Settled;
    var s0, s := RunFrom(Start(store, now), before), RunFrom(Start(store, now), before + after);
    Reachable(store, now, before);
    RunAppend(Start(store, now), before, after);
    GrantKeptUntilRemoved(s0, after, id);
    if RemovedSince(s.log, |s0.log|, id) {
      var k :| |s0.log| <= k < |s.log| && s.log[k].Removed? && s.log[k].id == id;
      SettleOrder(store, now, before + after, k);
    }
  }

  /** In particular one written during the run, by a handler's own send say. */
  lemma RedeliveryFindsWrittenGrant(store: map<Id, Stored>, now: int, before: seq<Action>, id: Id, stored: Stored, after: seq<Action>)
    requires IsWellFormed(Some(id)) && id !in RunFrom(Start(store, now), before).known
    requires var s := RunFrom(Start(store, now), before + [Put(id, stored)] + after); s.now < stored.expiresAt && NeverSettled(s, id)
    ensures var s := RunFrom(Start(store, now), before + [Put(id, stored)] + after);
            GrantChain.Get(s.store, Some(id), s.now) == Some(stored.record)
  {
    hide IsWellFormed;
    assert (before + [Put(id, stored)])[..|before|] == before;
    RedeliveryFindsGrant(store, now, before + [Put(id, stored)], id, after);
  }

  /** Whatever the lane handled before, its ambient grant during a delivery is that delivery's
      own header when it is well formed, and none otherwise. */
  lemma HandlerSeesOwnGrant(store: map<Id, Stored>, now: int, actions: seq<Action>, lane: LaneId)
    requires Busy(RunFrom(Start(store, now), actions), lane, Handling)
    ensures var s := RunFrom(Start(store, now), actions);
            var job := s.lanes[lane].job.value;
            && job.delivery < |s.headers|
            && var header := s.headers[job.delivery];
            if IsWellFormed(header) then s.lanes[lane].ambient == header else s.lanes[lane].ambient == None
  {
    Reachable(store, now, actions);
  }

  /** A handler that is cancelled: the Azure one is cleared away at once, and its message is
      neither settled nor released; the RabbitMQ one is acked first, and never released. */
  lemma InterruptReleasesNothing(store: map<Id, Stored>, now: int, actions: seq<Action>, lane: LaneId)
    requires Busy(RunFrom(Start(store, now), actions), lane, Handling)
    ensures var s := RunFrom(Start(store, now), actions);
            var t := Step(s, Interrupt(lane));
            match s.lanes[lane].worker
            case Azure => t.lanes[lane] == Lane(Azure, None, None) && t.log == s.log && t.store == s.store
            case Rabbit =>
              && Busy(t, lane, Acking)
              && var u := Step(t, AckReturns(lane, true));
              u.lanes[lane] == Lane(Rabbit, None, None) && u.log == s.log + [Acked(s.lanes[lane].job.value.delivery)] && u.store == s.store
  {
    hide RunFrom;
    Reachable(store, now, actions);
    JobOfLane(RunFrom(Start(store, now), actions), lane);
  }

  ghost predicate HoldsNothingWhenIdle(s: State, lane: LaneId) {
    lane in s.lanes && s.lanes[lane].worker == Azure && (s.lanes[lane].job.None? || s.lanes[lane].job.value.pc == OuterAbandon) ==>
      s.lanes[lane].ambient.None?
  }

  lemma IdleStep(s: State, a: Action, lane: LaneId)
    requires HoldsNothingWhenIdle(s, lane)
    ensures HoldsNothingWhenIdle(Step(s, a), lane)
  {
    hide IsWellFormed;
  }

  /** Between messages an Azure lane holds no grant. */
  lemma {:induction false} IdleAzureLaneHoldsNothing(store: map<Id, Stored>, now: int, actions: seq<Action>, lane: LaneId)
    ensures HoldsNothingWhenIdle(RunFrom(Start(store, now), actions), lane)
    decreases |actions|
  {
    hide Step;
    if actions != [] {
      IdleAzureLaneHoldsNothing(store, now, actions[..|actions| - 1], lane);
      IdleStep(RunFrom(Start(store, now), actions[..|actions| - 1]), actions[|actions| - 1], lane);
    }
  }
}
