/**
 Who waits for a destination's lock: that nobody is forgotten, and that they are served in the
 order in which they came.
 */
module SenderQueues {
  import opened Options
  import opened Sequences
  import opened AsyncLocks
  import opened Senders

  /** The calls that wait for a destination are exactly those its lock has in its queue, each
      of them once. */
  ghost predicate WaitersOk(rt: Runtime) {
    && (forall c :: c in rt.calls && rt.calls[c].phase.Waiting? ==> c in LockOf(rt, rt.calls[c].name).waiters)
    && (forall name, c :: name in rt.locks && c in rt.locks[name].waiters ==>
          c in rt.calls && rt.calls[c].name == name && rt.calls[c].phase.Waiting?)
    && (forall name :: name in rt.locks ==> NoDuplicates(rt.locks[name].waiters))
  }

  lemma BeginKeepsWaiters(queues: seq<Name>, rt: Runtime, c: CallId, name: Name, waiters: seq<CallId>, attempt: nat)
    requires WaitersOk(rt) && (c in rt.calls ==> rt.calls[c].name == name)
    requires NoDuplicates(waiters) && forall d :: d in waiters <==> d in LockOf(rt, name).waiters && d != c
    ensures WaitersOk(Begin(queues, rt, c, name, waiters, attempt))
  {
  }

  lemma ReleaseKeepsWaiters(rt: Runtime, c: CallId, name: Name, phase: Phase)
    requires WaitersOk(rt) && c in rt.calls && rt.calls[c].name == name && !rt.calls[c].phase.Waiting? && !phase.Waiting?
    ensures WaitersOk(Release(rt, c, name, phase))
  {
  }

  lemma NextKeepsWaiters(queues: seq<Name>, rt: Runtime, a: Action)
    requires WaitersOk(rt)
    ensures WaitersOk(Next(queues, rt, a))
  {
    hide Begin, Release;
    if Enabled(rt, a) {
      match a
      case Send(c, name) =>
        if LockOf(rt, name) == Lock(None, []) {
          BeginKeepsWaiters(queues, rt, c, name, [], 1);
        } else {
          JoinKeepsWaiters(rt, c, name);
        }
      case Wake(c) =>
        var ws := LockOf(rt, rt.calls[c].name).waiters;
        assert ws == [c] + ws[1..];
        BeginKeepsWaiters(queues, rt, c, rt.calls[c].name, ws[1..], 1);
      case SendReturns(c, ok) => ReturnKeepsWaiters(queues, rt, c, ok);
      case CloseReturns(c) =>
        BeginKeepsWaiters(queues, rt, c, rt.calls[c].name, LockOf(rt, rt.calls[c].name).waiters, 2);
      case Cancel(c) => CancelKeepsWaiters(rt, c, queues);
    }
  }

  lemma JoinKeepsWaiters(rt: Runtime, c: CallId, name: Name)
    requires WaitersOk(rt) && c !in rt.calls
    ensures var lock := LockOf(rt, name);
            WaitersOk(rt.(locks := rt.locks[name := lock.(waiters := lock.waiters + [c])], calls := rt.calls[c := Call(name, Waiting)]))
  {
    assert c !in LockOf(rt, name).waiters;
  }

  lemma ReturnKeepsWaiters(queues: seq<Name>, rt: Runtime, c: CallId, ok: bool)
    requires WaitersOk(rt) && Enabled(rt, SendReturns(c, ok))
    ensures WaitersOk(Next(queues, rt, SendReturns(c, ok)))
  {
    hide Begin, Release;
    var name := rt.calls[c].name;
    if ok || rt.calls[c].phase.attempt != 1 {
      ReleaseKeepsWaiters(rt, c, name, Finished(ok));
    } else if name !in rt.senders {
      BeginKeepsWaiters(queues, rt, c, name, LockOf(rt, name).waiters, 2);
    }
  }

  lemma CancelKeepsWaiters(rt: Runtime, c: CallId, queues: seq<Name>)
    requires WaitersOk(rt) && Enabled(rt, Cancel(c))
    ensures WaitersOk(Next(queues, rt, Cancel(c)))
  {
    hide Release;
    if !rt.calls[c].phase.Waiting? {
      ReleaseKeepsWaiters(rt, c, rt.calls[c].name, Cancelled);
    }
  }

  lemma {:induction false} WaitersAreQueued(queues: seq<Name>, topics: seq<Name>, actions: seq<Action>)
    ensures WaitersOk(RunFrom(queues, Start(queues, topics), actions).rt)
    decreases |actions|
  {
    hide Next;
    if actions == [] {
      InitializeKeeps(queues, EMPTY, queues + topics);
    } else {
      WaitersAreQueued(queues, topics, actions[..|actions| - 1]);
      NextKeepsWaiters(queues, RunFrom(queues, Start(queues, topics), actions[..|actions| - 1]).rt, actions[|actions| - 1]);
    }
  }

  /** No wake-up is lost: behind every waiting call there is a call inside its destination's
      sender that holds the lock, or a free lock whose head waiter may resume. */
  lemma WaitersCanProceed(queues: seq<Name>, topics: seq<Name>, actions: seq<Action>, c: CallId)
    requires var rt := RunFrom(queues, Start(queues, topics), actions).rt; c in rt.calls && rt.calls[c].phase.Waiting?
    ensures var rt := RunFrom(queues, Start(queues, topics), actions).rt;
            var name := rt.calls[c].name;
            && name in rt.locks && c in rt.locks[name].waiters
            && match rt.locks[name].holder
               case Some(d) => d in rt.calls && rt.calls[d].name == name && InUse(rt.calls[d])
               case None => Enabled(rt, Wake(rt.locks[name].waiters[0]))
  {
    WaitersAreQueued(queues, topics, actions);
    Reachable(queues, topics, actions);
    hide RunFrom, TableOk, CallsOk, AttemptsOk, StoredAreSound, NeverReused;
    var rt := RunFrom(queues, Start(queues, topics), actions).rt;
    assert rt.locks[rt.calls[c].name].waiters[0] in rt.locks[rt.calls[c].name].waiters;
  }

  // ---------- in order ----------

  /** At some moment of the run `c` had been made and `d` had not. */
  ghost predicate CameBefore(queues: seq<Name>, topics: seq<Name>, actions: seq<Action>, c: CallId, d: CallId) {
    exists k :: 0 <= k <= |actions| && CallMade(queues, topics, actions[..k], c) && !CallMade(queues, topics, actions[..k], d)
  }

  ghost predicate CallMade(queues: seq<Name>, topics: seq<Name>, actions: seq<Action>, c: CallId) {
    c in RunFrom(queues, Start(queues, topics), actions).rt.calls
  }

  lemma QueueStep(queues: seq<Name>, rt: Runtime, a: Action, name: Name, c: CallId, d: CallId)
    requires WaitersOk(rt) && Precedes(LockOf(Next(queues, rt, a), name).waiters, c, d)
    ensures (c in rt.calls && d !in rt.calls) || Precedes(LockOf(rt, name).waiters, c, d)
  {
    var was, ws := LockOf(rt, name).waiters, LockOf(Next(queues, rt, a), name).waiters;
    var i, j :| 0 <= i < j < |ws| && ws[i] == c && ws[j] == d;
    QueueMoves(queues, rt, a, name);
    hide Next;
    if ws == was {
    } else if a.Send? && ws == was + [a.c] {
      assert was[i] == c && c in was;
      assert j < |was| ==> was[j] == d;
    } else if ws == Without(was, a.c) {
      WithoutKeepsOrder(was, a.c, c, d);
    } else {
      assert was[i + 1] == c && was[j + 1] == d;
    }
  }

  lemma QueueMoves(queues: seq<Name>, rt: Runtime, a: Action, name: Name)
    ensures var was, ws := LockOf(rt, name).waiters, LockOf(Next(queues, rt, a), name).waiters;
            || ws == was
            || (a.Send? && ws == was + [a.c] && a.c !in rt.calls)
            || ws == Without(was, a.c)
            || (was != [] && ws == was[1..])
  {
  }

  /** Those who wait for a destination stand in the order in which they came, so that the head
      waiter, the only one that may resume, has waited longest. */
  lemma {:induction false} QueueIsFair(queues: seq<Name>, topics: seq<Name>, actions: seq<Action>, name: Name, c: CallId, d: CallId)
    requires Precedes(LockOf(RunFrom(queues, Start(queues, topics), actions).rt, name).waiters, c, d)
    ensures CameBefore(queues, topics, actions, c, d)
    decreases |actions|
  {
    hide Next, Precedes;
    if actions == [] {
      InitializeKeeps(queues, EMPTY, queues + topics);
      NothingPrecedes(c, d);
    } else {
      var most := actions[..|actions| - 1];
      var rt := RunFrom(queues, Start(queues, topics), most).rt;
      WaitersAreQueued(queues, topics, most);
      QueueStep(queues, rt, actions[|actions| - 1], name, c, d);
      if c in rt.calls && d !in rt.calls {
        assert CallMade(queues, topics, actions[..|most|], c) && !CallMade(queues, topics, actions[..|most|], d);
      } else {
        QueueIsFair(queues, topics, most, name, c, d);
        var k :| 0 <= k <= |most| && CallMade(queues, topics, most[..k], c) && !CallMade(queues, topics, most[..k], d);
        assert most[..k] == actions[..k];
      }
    }
  }

  lemma NothingPrecedes(c: CallId, d: CallId)
    ensures !Precedes([], c, d)
  {
  }
}
