/**
 The shared senders of `AzureMessageClient`: one per destination, used under that
 destination's lock, rebuilt and retried once when a send fails. An action is the stretch of
 one call between two awaits: the lock, the send, the close of a stale sender.
 */
module Senders {
  import opened Options
  import opened Sequences
  import opened AsyncLocks

  type Name = string
  type SenderId = nat

  datatype Kind = QueueSender | TopicSender

  /** A sender object: the destination it was built for and its kind. */
  datatype Sender = Sender(name: Name, kind: Kind)

  datatype Phase =
    | Waiting
    | Sending(sender: SenderId, attempt: nat)
    | Closing
    | Finished(ok: bool)
    | Cancelled

  datatype Call = Call(name: Name, phase: Phase)

  datatype Runtime = Runtime(
    senders: map<Name, SenderId>,
    built: seq<Sender>,
    locks: map<Name, Lock>,
    calls: map<CallId, Call>)

  datatype Action =
    | Send(c: CallId, name: Name)
    | Wake(c: CallId)
    | SendReturns(c: CallId, ok: bool)
    | CloseReturns(c: CallId)
    | Cancel(c: CallId)

  /** A name not configured as a queue is a topic. */
  function KindOf(queues: seq<Name>, name: Name): Kind {
    if name in queues then QueueSender else TopicSender
  }

  function LockOf(rt: Runtime, name: Name): Lock {
    if name in rt.locks then rt.locks[name] else Lock(None, [])
  }

  function Build(queues: seq<Name>, rt: Runtime, name: Name): Runtime {
    rt.(built := rt.built + [Sender(name, KindOf(queues, name))], senders := rt.senders[name := |rt.built|])
  }

  function GetSender(queues: seq<Name>, rt: Runtime, name: Name): (r: Runtime)
    ensures name in r.senders
  {
    if name in rt.senders then rt else Build(queues, rt, name)
  }

  function Initialize(queues: seq<Name>, rt: Runtime, names: seq<Name>): Runtime
    decreases |names|
  {
    if names == [] then rt else Initialize(queues, Build(queues, rt, names[0]), names[1..])
  }

  const EMPTY := Runtime(map[], [], map[], map[])

  /** Call `c` takes the lock of `name` and starts an attempt. */
  function Begin(queues: seq<Name>, rt: Runtime, c: CallId, name: Name, waiters: seq<CallId>, attempt: nat): Runtime {
    var ready := GetSender(queues, rt, name);
    ready.(locks := ready.locks[name := Lock(Some(c), waiters)],
           calls := ready.calls[c := Call(name, Sending(ready.senders[name], attempt))])
  }

  function Release(rt: Runtime, c: CallId, name: Name, phase: Phase): Runtime {
    rt.(locks := rt.locks[name := LockOf(rt, name).(holder := None)], calls := rt.calls[c := Call(name, phase)])
  }

  predicate Enabled(rt: Runtime, a: Action) {
    match a
    case Send(c, _) => c !in rt.calls
    case Wake(c) =>
      && c in rt.calls && rt.calls[c].phase.Waiting?
      && var lock := LockOf(rt, rt.calls[c].name);
      lock.holder.None? && lock.waiters != [] && lock.waiters[0] == c
    case SendReturns(c, _) => c in rt.calls && rt.calls[c].phase.Sending?
    case CloseReturns(c) => c in rt.calls && rt.calls[c].phase.Closing?
    case Cancel(c) => c in rt.calls && !rt.calls[c].phase.Finished? && !rt.calls[c].phase.Cancelled?
  }

  function Next(queues: seq<Name>, rt: Runtime, a: Action): Runtime {
    if !Enabled(rt, a) then rt else
    match a
    case Send(c, name) =>
      var lock := LockOf(rt, name);
      if lock == Lock(None, []) then Begin(queues, rt, c, name, [], 1)
      else rt.(locks := rt.locks[name := lock.(waiters := lock.waiters + [c])], calls := rt.calls[c := Call(name, Waiting)])
    case Wake(c) =>
      var name := rt.calls[c].name;
      Begin(queues, rt, c, name, LockOf(rt, name).waiters[1..], 1)
    case SendReturns(c, ok) =>
      var Call(name, phase) := rt.calls[c];
      if ok || phase.attempt != 1 then Release(rt, c, name, Finished(ok))
      else if name in rt.senders then rt.(senders := rt.senders - {name}, calls := rt.calls[c := Call(name, Closing)])
      else Begin(queues, rt, c, name, LockOf(rt, name).waiters, 2)
    case CloseReturns(c) =>
      var name := rt.calls[c].name;
      Begin(queues, rt, c, name, LockOf(rt, name).waiters, 2)
    case Cancel(c) =>
      var Call(name, phase) := rt.calls[c];
      if phase.Waiting? then
        rt.(locks := rt.locks[name := LockOf(rt, name).(waiters := Without(LockOf(rt, name).waiters, c))],
            calls := rt.calls[c := Call(name, Cancelled)])
      else Release(rt, c, name, Cancelled)
  }

  // ---------- the attempts made, in order ----------

  datatype Event =
    | Began(c: CallId, sender: SenderId, attempt: nat)
    | Failed(c: CallId, sender: SenderId, attempt: nat)

  datatype State = State(rt: Runtime, log: seq<Event>)

  /** The failure a step reports. */
  function FailedBy(rt: Runtime, a: Action): seq<Event> {
    if a.SendReturns? && Enabled(rt, a) && !a.ok then [Failed(a.c, rt.calls[a.c].phase.sender, rt.calls[a.c].phase.attempt)] else []
  }

  /** The attempt a step begins. */
  function BegunBy(rt: Runtime, c: CallId, after: Runtime): seq<Event> {
    if c in after.calls && after.calls[c].phase.Sending? && (c !in rt.calls || after.calls[c] != rt.calls[c])
    then [Began(c, after.calls[c].phase.sender, after.calls[c].phase.attempt)] else []
  }

  function Step(queues: seq<Name>, s: State, a: Action): State {
    var after := Next(queues, s.rt, a);
    State(after, s.log + FailedBy(s.rt, a) + BegunBy(s.rt, a.c, after))
  }

  function RunFrom(queues: seq<Name>, s: State, actions: seq<Action>): State
    decreases |actions|
  {
    if actions == [] then s
    else Step(queues, RunFrom(queues, s, actions[..|actions| - 1]), actions[|actions| - 1])
  }

  function Start(queues: seq<Name>, topics: seq<Name>): State {
    State(Initialize(queues, EMPTY, queues + topics), [])
  }

  // ---------- what every run keeps ----------

  ghost predicate InUse(call: Call) {
    call.phase.Sending? || call.phase.Closing?
  }

  /** The table maps each name to a sender built for it, of the configured kind. */
  ghost predicate TableOk(queues: seq<Name>, rt: Runtime) {
    forall name :: name in rt.senders ==>
      rt.senders[name] < |rt.built| && rt.built[rt.senders[name]] == Sender(name, KindOf(queues, name))
  }

  /** A call inside a sender holds its destination's lock, and the sender is the stored one. */
  ghost predicate CallOk(rt: Runtime, c: CallId)
    requires c in rt.calls
  {
    var Call(name, phase) := rt.calls[c];
    && (InUse(rt.calls[c]) ==> LockOf(rt, name).holder == Some(c))
    && (phase.Sending? ==> name in rt.senders && rt.senders[name] == phase.sender && 1 <= phase.attempt <= 2)
    && (phase.Closing? ==> name !in rt.senders)
  }

  ghost predicate CallsOk(rt: Runtime) {
    forall c :: c in rt.calls ==> CallOk(rt, c)
  }

  /** A lock is held only by a call still inside a sender of that destination. */
  ghost predicate HoldersOk(rt: Runtime) {
    forall name :: name in rt.locks && rt.locks[name].holder.Some? ==>
      var h := rt.locks[name].holder.value;
      h in rt.calls && rt.calls[h].name == name && InUse(rt.calls[h])
  }

  /** What a step leaves alone: every other call, and the lock and sender it relies on. */
  ghost predicate Respects(rt: Runtime, after: Runtime, c: CallId) {
    && after.calls.Keys == rt.calls.Keys + {c}
    && forall d :: d in rt.calls && d != c ==>
         && after.calls[d] == rt.calls[d]
         && (InUse(rt.calls[d]) ==>
               var name := rt.calls[d].name;
               && LockOf(after, name).holder == LockOf(rt, name).holder
               && (name in after.senders <==> name in rt.senders)
               && (name in rt.senders ==> after.senders[name] == rt.senders[name]))
  }

  lemma RespectKeepsCalls(rt: Runtime, after: Runtime, c: CallId)
    requires CallsOk(rt) && Respects(rt, after, c) && CallOk(after, c)
    ensures CallsOk(after)
  {
    forall d | d in after.calls ensures CallOk(after, d) {
      if d != c {
        assert CallOk(rt, d);
      }
    }
  }

  /** Nobody else is inside a sender of `name` while `c` holds its lock or nobody does. */
  lemma Alone(rt: Runtime, c: CallId, name: Name)
    requires CallsOk(rt) && (LockOf(rt, name).holder.None? || LockOf(rt, name).holder == Some(c))
    ensures forall d :: d in rt.calls && d != c && InUse(rt.calls[d]) ==> rt.calls[d].name != name
  {
    forall d | d in rt.calls && d != c && InUse(rt.calls[d]) ensures rt.calls[d].name != name {
      assert CallOk(rt, d);
    }
  }

  lemma BeginKeeps(queues: seq<Name>, rt: Runtime, c: CallId, name: Name, waiters: seq<CallId>, attempt: nat)
    requires TableOk(queues, rt) && CallsOk(rt) && 1 <= attempt <= 2
    requires LockOf(rt, name).holder.None? || LockOf(rt, name).holder == Some(c)
    ensures TableOk(queues, Begin(queues, rt, c, name, waiters, attempt))
    ensures CallsOk(Begin(queues, rt, c, name, waiters, attempt))
  {
    Alone(rt, c, name);
    RespectKeepsCalls(rt, Begin(queues, rt, c, name, waiters, attempt), c);
  }

  lemma ReleaseKeeps(queues: seq<Name>, rt: Runtime, c: CallId, name: Name, phase: Phase)
    requires TableOk(queues, rt) && CallsOk(rt) && LockOf(rt, name).holder == Some(c)
    requires phase.Finished? || phase.Cancelled?
    ensures TableOk(queues, Release(rt, c, name, phase)) && CallsOk(Release(rt, c, name, phase))
  {
    Alone(rt, c, name);
    RespectKeepsCalls(rt, Release(rt, c, name, phase), c);
  }

  lemma FailKeeps(queues: seq<Name>, rt: Runtime, c: CallId)
    requires TableOk(queues, rt) && CallsOk(rt) && c in rt.calls && rt.calls[c].phase.Sending?
    ensures var name := rt.calls[c].name;
            var r := rt.(senders := rt.senders - {name}, calls := rt.calls[c := Call(name, Closing)]);
            TableOk(queues, r) && CallsOk(r)
  {
    var name := rt.calls[c].name;
    assert CallOk(rt, c);
    Alone(rt, c, name);
    RespectKeepsCalls(rt, rt.(senders := rt.senders - {name}, calls := rt.calls[c := Call(name, Closing)]), c);
  }

  /** A call that joins or leaves the queue of a lock changes nobody's sender. */
  lemma QueueKeeps(queues: seq<Name>, rt: Runtime, c: CallId, name: Name, waiters: seq<CallId>, phase: Phase)
    requires TableOk(queues, rt) && CallsOk(rt) && (phase.Waiting? || phase.Cancelled?)
    ensures var r := rt.(locks := rt.locks[name := LockOf(rt, name).(waiters := waiters)], calls := rt.calls[c := Call(name, phase)]);
            TableOk(queues, r) && CallsOk(r)
  {
    RespectKeepsCalls(rt, rt.(locks := rt.locks[name := LockOf(rt, name).(waiters := waiters)], calls := rt.calls[c := Call(name, phase)]), c);
  }

  lemma HolderIs(rt: Runtime, c: CallId)
    requires CallsOk(rt) && c in rt.calls && InUse(rt.calls[c])
    ensures LockOf(rt, rt.calls[c].name).holder == Some(c)
    ensures rt.calls[c].phase.Sending? ==>
              rt.calls[c].name in rt.senders && rt.senders[rt.calls[c].name] == rt.calls[c].phase.sender
              && 1 <= rt.calls[c].phase.attempt <= 2
    ensures rt.calls[c].phase.Closing? ==> rt.calls[c].name !in rt.senders
  {
    assert CallOk(rt, c);
  }

  lemma NextKeeps(queues: seq<Name>, rt: Runtime, a: Action)
    requires TableOk(queues, rt) && CallsOk(rt)
    ensures TableOk(queues, Next(queues, rt, a)) && CallsOk(Next(queues, rt, a))
  {
    hide Begin, Release, TableOk, CallsOk, CallOk, LockOf;
    if Enabled(rt, a) {
      match a
      case Send(c, name) =>
        var lock := LockOf(rt, name);
        if lock == Lock(None, []) {
          BeginKeeps(queues, rt, c, name, [], 1);
        } else {
          QueueKeeps(queues, rt, c, name, lock.waiters + [c], Waiting);
        }
      case Wake(c) => BeginKeeps(queues, rt, c, rt.calls[c].name, LockOf(rt, rt.calls[c].name).waiters[1..], 1);
      case SendReturns(c, ok) =>
        HolderIs(rt, c);
        if ok || rt.calls[c].phase.attempt != 1 {
          ReleaseKeeps(queues, rt, c, rt.calls[c].name, Finished(ok));
        } else {
          FailKeeps(queues, rt, c);
        }
      case CloseReturns(c) =>
        HolderIs(rt, c);
        BeginKeeps(queues, rt, c, rt.calls[c].name, LockOf(rt, rt.calls[c].name).waiters, 2);
      case Cancel(c) =>
        var name := rt.calls[c].name;
        if rt.calls[c].phase.Waiting? {
          QueueKeeps(queues, rt, c, name, Without(LockOf(rt, name).waiters, c), Cancelled);
        } else {
          HolderIs(rt, c);
          ReleaseKeeps(queues, rt, c, name, Cancelled);
        }
    }
  }

  lemma NextKeepsHolders(queues: seq<Name>, rt: Runtime, a: Action)
    requires CallsOk(rt) && HoldersOk(rt)
    ensures HoldersOk(Next(queues, rt, a))
  {
    if Enabled(rt, a) && a.c in rt.calls && InUse(rt.calls[a.c]) {
      HolderIs(rt, a.c);
    }
  }

  lemma {:induction false} InitializeKeeps(queues: seq<Name>, rt: Runtime, names: seq<Name>)
    requires TableOk(queues, rt) && rt.calls == map[] && rt.locks == map[]
    ensures var r := Initialize(queues, rt, names);
            TableOk(queues, r) && r.calls == map[] && r.locks == map[] && r.senders.Keys == rt.senders.Keys + (set name | name in names)
    decreases |names|
  {
    if names != [] {
      InitializeKeeps(queues, Build(queues, rt, names[0]), names[1..]);
      assert names == [names[0]] + names[1..];
    }
  }

  // ---------- what every run's attempts keep ----------

  function Attempts(log: seq<Event>, c: CallId): nat {
    if log == [] then 0
    else Attempts(log[..|log| - 1], c) + if log[|log| - 1].Began? && log[|log| - 1].c == c then 1 else 0
  }

  function Failures(log: seq<Event>, c: CallId): nat {
    if log == [] then 0
    else Failures(log[..|log| - 1], c) + if log[|log| - 1].Failed? && log[|log| - 1].c == c then 1 else 0
  }

  ghost predicate FailedFirst(log: seq<Event>, id: SenderId) {
    exists i :: 0 <= i < |log| && log[i].Failed? && log[i].sender == id && log[i].attempt == 1
  }

  /** No stored sender has failed a first attempt, and a new one will carry a new identity. */
  ghost predicate StoredAreSound(s: State) {
    && (forall name :: name in s.rt.senders ==> !FailedFirst(s.log, s.rt.senders[name]))
    && (forall i :: 0 <= i < |s.log| ==> s.log[i].sender < |s.rt.built|)
  }

  /** Once a sender has failed a first attempt no attempt begins on it. */
  ghost predicate NeverReused(log: seq<Event>) {
    forall j :: 0 <= j < |log| && log[j].Began? ==> !FailedFirst(log[..j], log[j].sender)
  }

  /** `n` attempts, `f` of them failed, fit where call `c` now is: it tries a second time when
      the first failed, ends well on a success and badly on a second failure only. */
  ghost predicate Fits(rt: Runtime, c: CallId, n: nat, f: nat) {
    if c !in rt.calls then n == 0 && f == 0
    else
      match rt.calls[c].phase
      case Waiting => n == 0 && f == 0
      case Sending(_, attempt) => n == attempt && f == attempt - 1
      case Closing => n == 1 && f == 1
      case Finished(ok) => if ok then 1 <= n <= 2 && f == n - 1 else n == 2 && f == 2
      case Cancelled => f <= n <= 2
  }

  ghost predicate AttemptsOk(s: State) {
    forall c: CallId :: Fits(s.rt, c, Attempts(s.log, c), Failures(s.log, c))
  }

  lemma LogAppend(log: seq<Event>, e: Event, c: CallId)
    ensures Attempts(log + [e], c) == Attempts(log, c) + if e.Began? && e.c == c then 1 else 0
    ensures Failures(log + [e], c) == Failures(log, c) + if e.Failed? && e.c == c then 1 else 0
  {
    assert (log + [e])[..|log|] == log;
  }

  lemma LogOfStep(queues: seq<Name>, s: State, a: Action, c: CallId)
    ensures var t := Step(queues, s, a);
            && Attempts(t.log, c) == Attempts(s.log, c) + (if c == a.c && BegunBy(s.rt, c, t.rt) != [] then 1 else 0)
            && Failures(t.log, c) == Failures(s.log, c) + (if c == a.c && FailedBy(s.rt, a) != [] then 1 else 0)
  {
    var after := Next(queues, s.rt, a);
    var failed, begun := FailedBy(s.rt, a), BegunBy(s.rt, a.c, after);
    hide Next;
    if failed != [] {
      LogAppend(s.log, failed[0], c);
    }
    assert s.log + [] == s.log;
    if begun != [] {
      LogAppend(s.log + failed, begun[0], c);
    } else {
      assert s.log + failed + [] == s.log + failed;
    }
  }

  lemma FitsMoves(queues: seq<Name>, rt: Runtime, a: Action, c: CallId, n: nat, f: nat)
    requires CallsOk(rt) && Fits(rt, c, n, f)
    ensures var after := Next(queues, rt, a);
            Fits(after, c, n + (if c == a.c && BegunBy(rt, c, after) != [] then 1 else 0),
                 f + (if c == a.c && FailedBy(rt, a) != [] then 1 else 0))
  {
    if c in rt.calls && InUse(rt.calls[c]) {
      HolderIs(rt, c);
    }
    hide GetSender, LockOf, Without, CallsOk;
  }

  lemma StepKeepsAttempts(queues: seq<Name>, s: State, a: Action)
    requires CallsOk(s.rt) && AttemptsOk(s)
    ensures AttemptsOk(Step(queues, s, a))
  {
    var t := Step(queues, s, a);
    forall c ensures Fits(t.rt, c, Attempts(t.log, c), Failures(t.log, c)) {
      FitsMoves(queues, s.rt, a, c, Attempts(s.log, c), Failures(s.log, c));
      LogOfStep(queues, s, a, c);
    }
  }

  lemma NextKeepsSound(queues: seq<Name>, s: State, a: Action)
    requires TableOk(queues, s.rt) && CallsOk(s.rt) && StoredAreSound(s)
    ensures StoredAreSound(State(Next(queues, s.rt, a), s.log + FailedBy(s.rt, a)))
  {
    if a.c in s.rt.calls && InUse(s.rt.calls[a.c]) {
      HolderIs(s.rt, a.c);
    }
    hide LockOf, Without, CallsOk;
    var after, log := Next(queues, s.rt, a), s.log + FailedBy(s.rt, a);
    forall name | name in after.senders ensures !FailedFirst(log, after.senders[name]) {
      forall i | 0 <= i < |log| && log[i].Failed? && log[i].attempt == 1 ensures log[i].sender != after.senders[name] {
        if i < |s.log| {
          assert log[i] == s.log[i];
        }
      }
    }
  }

  lemma StepKeepsSound(queues: seq<Name>, s: State, a: Action)
    requires TableOk(queues, s.rt) && CallsOk(s.rt) && StoredAreSound(s) && NeverReused(s.log)
    ensures StoredAreSound(Step(queues, s, a)) && NeverReused(Step(queues, s, a).log)
  {
    NextKeepsSound(queues, s, a);
    NextKeeps(queues, s.rt, a);
    var t := Step(queues, s, a);
    var mid := State(t.rt, s.log + FailedBy(s.rt, a));
    assert forall j :: 0 <= j < |s.log| ==> mid.log[..j] == s.log[..j];
    if BegunBy(s.rt, a.c, t.rt) != [] {
      HolderIs(t.rt, a.c);
      hide Next, CallsOk;
      AddBegun(queues, mid, t, a.c);
    } else {
      assert t.log == mid.log;
    }
  }

  lemma AddBegun(queues: seq<Name>, mid: State, t: State, c: CallId)
    requires StoredAreSound(mid) && NeverReused(mid.log) && TableOk(queues, mid.rt)
    requires c in mid.rt.calls && mid.rt.calls[c].phase.Sending?
    requires mid.rt.calls[c].name in mid.rt.senders && mid.rt.senders[mid.rt.calls[c].name] == mid.rt.calls[c].phase.sender
    requires t == mid.(log := mid.log + [Began(c, mid.rt.calls[c].phase.sender, mid.rt.calls[c].phase.attempt)])
    ensures StoredAreSound(t) && NeverReused(t.log)
  {
    forall id ensures FailedFirst(t.log, id) == FailedFirst(mid.log, id) {
      if FailedFirst(mid.log, id) {
        var i :| 0 <= i < |mid.log| && mid.log[i].Failed? && mid.log[i].sender == id && mid.log[i].attempt == 1;
        assert t.log[i] == mid.log[i];
      }
    }
    forall j | 0 <= j < |t.log| && t.log[j].Began? ensures !FailedFirst(t.log[..j], t.log[j].sender) {
      if j < |mid.log| {
        assert t.log[..j] == mid.log[..j];
      } else {
        assert t.log[..j] == mid.log;
      }
    }
  }

  ghost predicate Inv(queues: seq<Name>, s: State) {
    TableOk(queues, s.rt) && CallsOk(s.rt) && HoldersOk(s.rt) && AttemptsOk(s) && StoredAreSound(s) && NeverReused(s.log)
  }

  lemma {:induction false} Reachable(queues: seq<Name>, topics: seq<Name>, actions: seq<Action>)
    ensures Inv(queues, RunFrom(queues, Start(queues, topics), actions))
    decreases |actions|
  {
    if actions == [] {
      InitializeKeeps(queues, EMPTY, queues + topics);
    } else {
      Reachable(queues, topics, actions[..|actions| - 1]);
      var s, a := RunFrom(queues, Start(queues, topics), actions[..|actions| - 1]), actions[|actions| - 1];
      NextKeeps(queues, s.rt, a);
      NextKeepsHolders(queues, s.rt, a);
      StepKeepsAttempts(queues, s, a);
      StepKeepsSound(queues, s, a);
      hide Next, TableOk, CallsOk, HoldersOk, AttemptsOk, StoredAreSound, NeverReused;
    }
  }

  // ---------- the theorems ----------

  /** In every run no sender object ever has two sends inside it. */
  lemma SenderExclusion(queues: seq<Name>, topics: seq<Name>, actions: seq<Action>, c: CallId, d: CallId)
    requires var rt := RunFrom(queues, Start(queues, topics), actions).rt;
             && c in rt.calls && rt.calls[c].phase.Sending? && d in rt.calls && rt.calls[d].phase.Sending?
             && rt.calls[c].phase.sender == rt.calls[d].phase.sender
    ensures c == d
  {
    Reachable(queues, topics, actions);
    var rt := RunFrom(queues, Start(queues, topics), actions).rt;
    HolderIs(rt, c);
    HolderIs(rt, d);
  }

  /** No call ever makes more than two attempts, and a sender that failed a first attempt is
      never sent through again, by any call. */
  lemma AttemptsAndRebuilds(queues: seq<Name>, topics: seq<Name>, actions: seq<Action>)
    ensures var s := RunFrom(queues, Start(queues, topics), actions);
            && (forall c: CallId :: Attempts(s.log, c) <= 2)
            && forall i, j :: 0 <= i < j < |s.log| && s.log[i].Failed? && s.log[i].attempt == 1 && s.log[j].Began? ==>
                 s.log[j].sender != s.log[i].sender
  {
    Reachable(queues, topics, actions);
    var s := RunFrom(queues, Start(queues, topics), actions);
    forall c: CallId ensures Attempts(s.log, c) <= 2 {
      assert Fits(s.rt, c, Attempts(s.log, c), Failures(s.log, c));
      if c in s.rt.calls && InUse(s.rt.calls[c]) {
        HolderIs(s.rt, c);
      }
    }
    forall i, j | 0 <= i < j < |s.log| && s.log[i].Failed? && s.log[i].attempt == 1 && s.log[j].Began?
      ensures s.log[j].sender != s.log[i].sender
    {
      assert s.log[..j][i] == s.log[i];
    }
  }

  /** How a call ends: well exactly if its last attempt succeeded, badly only after two failed
      ones, so a first failure alone never reaches the caller. */
  lemma EndsAsAttemptsSay(queues: seq<Name>, topics: seq<Name>, actions: seq<Action>, c: CallId)
    requires var rt := RunFrom(queues, Start(queues, topics), actions).rt; c in rt.calls && rt.calls[c].phase.Finished?
    ensures var s := RunFrom(queues, Start(queues, topics), actions);
            if s.rt.calls[c].phase.ok then Attempts(s.log, c) == Failures(s.log, c) + 1
            else Attempts(s.log, c) == 2 && Failures(s.log, c) == 2
  {
    Reachable(queues, topics, actions);
    var s := RunFrom(queues, Start(queues, topics), actions);
    assert Fits(s.rt, c, Attempts(s.log, c), Failures(s.log, c));
  }

  /** The sender a call is inside was built for the call's destination, of the kind that
      destination is configured as. */
  lemma RightKind(queues: seq<Name>, topics: seq<Name>, actions: seq<Action>, c: CallId)
    requires var rt := RunFrom(queues, Start(queues, topics), actions).rt; c in rt.calls && rt.calls[c].phase.Sending?
    ensures var rt := RunFrom(queues, Start(queues, topics), actions).rt;
            && rt.calls[c].phase.sender < |rt.built|
            && rt.built[rt.calls[c].phase.sender] == Sender(rt.calls[c].name, if rt.calls[c].name in queues then QueueSender else TopicSender)
  {
    Reachable(queues, topics, actions);
    HolderIs(RunFrom(queues, Start(queues, topics), actions).rt, c);
  }

  /** When does a failed send leave its sender in the table for the next caller? Exactly when
      it was the retry: the sender rebuilt for the second attempt is kept even if that fails. */
  lemma FailedSenderStaysIffRetry(queues: seq<Name>, topics: seq<Name>, actions: seq<Action>, c: CallId)
    requires var rt := RunFrom(queues, Start(queues, topics), actions).rt; c in rt.calls && rt.calls[c].phase.Sending?
    ensures var rt := RunFrom(queues, Start(queues, topics), actions).rt;
            var after := Next(queues, rt, SendReturns(c, false));
            rt.calls[c].phase.sender in after.senders.Values <==> rt.calls[c].phase.attempt == 2
  {
    Reachable(queues, topics, actions);
    var rt := RunFrom(queues, Start(queues, topics), actions).rt;
    HolderIs(rt, c);
    var after := Next(queues, rt, SendReturns(c, false));
    if rt.calls[c].phase.attempt == 2 {
      assert after.senders[rt.calls[c].name] == rt.calls[c].phase.sender;
    }
  }

  /** A destination's sender is shared by every call until a first attempt on it fails: only
      then does it leave the table, and a sender is built only for a destination without one. */
  lemma SendersAreShared(queues: seq<Name>, topics: seq<Name>, actions: seq<Action>, a: Action, name: Name)
    requires name in RunFrom(queues, Start(queues, topics), actions).rt.senders
    ensures var rt := RunFrom(queues, Start(queues, topics), actions).rt;
            var after := Next(queues, rt, a);
            var dropped := a.SendReturns? && !a.ok && a.c in rt.calls && rt.calls[a.c].name == name
                           && rt.calls[a.c].phase.Sending? && rt.calls[a.c].phase.attempt == 1;
            if dropped then name !in after.senders
            else name in after.senders && after.senders[name] == rt.senders[name]
  {
    Reachable(queues, topics, actions);
    var rt := RunFrom(queues, Start(queues, topics), actions).rt;
    if a.c in rt.calls && InUse(rt.calls[a.c]) {
      HolderIs(rt, a.c);
    }
    hide RunFrom, TableOk, CallsOk, HoldersOk, AttemptsOk, StoredAreSound, NeverReused, LockOf, Without;
  }
}
