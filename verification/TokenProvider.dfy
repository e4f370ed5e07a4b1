/**
 `DelegatedTokenProvider` in its own form: dictionaries updated in place, one method per
 stretch of code between two awaits. Each method is proved to be the step of that name in
 `TokenCache`, so the theorems there are about this code. `locks` stands for the lock
 objects on the heap and `calls` for the coroutines the event loop holds.
 */
module TokenProvider {
  import opened Options
  import opened Sequences
  import opened AsyncLocks
  import opened TokenCache

  class DelegatedTokenProvider {
    var tokens: map<Grant, Token>
    var table: map<Grant, LockId>
    var callCount: nat
    var locks: seq<Lock>
    var calls: map<CallId, Call>

    ghost function View(): Runtime
      reads this
    {
      Runtime(tokens, table, locks, callCount, calls)
    }

    ghost predicate Valid()
      reads this
    {
      LocksOk(View())
    }

    constructor ()
      ensures Valid() && View() == START.rt
    {
      tokens, table, callCount, locks, calls := map[], map[], 0, [], map[];
    }

    method SweepExpired(now: real)
      requires TableOk(View())
      modifies this`tokens, this`table
      ensures View() == Sweep(old(View()), now)
    {
      ghost var before := View();
      var stale := set k | k in tokens && !tokens[k].IsUsable(now);
      while stale != {}
        invariant forall g :: g in stale ==> Stale(before, g, now)
        invariant forall g :: g in tokens <==> g in before.tokens && (before.tokens[g].IsUsable(now) || g in stale)
        invariant forall g :: g in tokens ==> tokens[g] == before.tokens[g]
        invariant forall g :: g in table <==> g in before.table && (!Swept(before, g, now) || g in stale)
        invariant forall g :: g in table ==> table[g] == before.table[g]
        decreases stale
      {
        var key :| key in stale;
        stale := stale - {key};
        tokens := tokens - {key};
        if key in table && locks[table[key]].holder.None? {
          table := table - {key};
        }
      }
      assert tokens == Sweep(before, now).tokens;
      assert table == Sweep(before, now).table;
    }

    /** From the call up to the first await, or to the answer. */
    method GetToken(c: CallId, delegationId: Option<Grant>, tenantId: Option<string>,
                    sweepNow: real, now: real, recheckNow: real) returns (answer: Option<Option<string>>)
      requires Valid() && c !in calls
      modifies this
      ensures Valid()
      ensures delegationId in {None, Some("")} || tenantId in {None, Some("")} ==>
                answer == Some(None) && View() == old(View())
      ensures delegationId !in {None, Some("")} && tenantId !in {None, Some("")} ==>
                && View() == Next(old(View()), Begin(c, delegationId.value, sweepNow, now, recheckNow))
                && (answer.Some? <==> calls[c].phase.Returned?) && (answer.Some? ==> answer.value == calls[c].phase.token)
    {
      if delegationId.None? || delegationId.value == "" || tenantId.None? || tenantId.value == "" {
        return Some(None);
      }
      var g := delegationId.value;
      ghost var before := View();
      NextKeepsLocks(before, Begin(c, g, sweepNow, now, recheckNow));
      assert Next(before, Begin(c, g, sweepNow, now, recheckNow)) == Lookup(Counted(before, sweepNow), c, g, now, recheckNow);
      hide HoldersOk, WaitersOk, Lookup, Next, Counted;
      CountCall(sweepNow);
      answer := LookUp(c, g, now, recheckNow);
    }

    /** Every 64th call sweeps first. */
    method CountCall(sweepNow: real)
      requires TableOk(View())
      modifies this`callCount, this`tokens, this`table
      ensures View() == Counted(old(View()), sweepNow)
    {
      hide Sweep;
      callCount := callCount + 1;
      if callCount % SWEEP_INTERVAL_CALLS == 0 {
        SweepExpired(sweepNow);
      }
    }

    /** The fast path, or the queue for the grant's lock. */
    method LookUp(c: CallId, g: Grant, now: real, recheckNow: real) returns (answer: Option<Option<string>>)
      requires TableOk(View())
      modifies this
      ensures View() == Lookup(old(View()), c, g, now, recheckNow)
      ensures answer.Some? <==> calls[c].phase.Returned?
      ensures answer.Some? ==> answer.value == calls[c].phase.token
    {
      hide Enter;
      if g in tokens && tokens[g].IsUsable(now) {
        answer := Some(Some(tokens[g].accessToken));
        calls := calls[c := Call(g, Returned(answer.value))];
        return;
      }
      ghost var before := View();
      if g !in table {
        table := table[g := |locks|];
        locks := locks + [Lock(None, [])];
      }
      assert View() == SetDefault(before, g);
      var l := table[g];
      if locks[l].holder.None? && locks[l].waiters == [] {
        answer := UnderLock(c, g, l, recheckNow);
      } else {
        locks := locks[l := locks[l].(waiters := locks[l].waiters + [c])];
        calls := calls[c := Call(g, Waiting(l))];
        answer := None;
      }
    }

    /** The re-check under the lock, up to the exchange or the answer. */
    method UnderLock(c: CallId, g: Grant, l: LockId, now: real) returns (answer: Option<Option<string>>)
      requires TableOk(View()) && l < |locks|
      modifies this
      ensures View() == Enter(old(View()), c, g, l, now)
      ensures answer.Some? <==> calls[c].phase.Returned?
      ensures answer.Some? ==> answer.value == calls[c].phase.token
    {
      if g in tokens && tokens[g].IsUsable(now) {
        answer := Some(Some(tokens[g].accessToken));
        calls := calls[c := Call(g, Returned(answer.value))];
      } else {
        tokens := tokens - {g};
        locks := locks[l := locks[l].(holder := Some(c))];
        calls := calls[c := Call(g, Exchanging(l))];
        answer := None;
      }
    }

    /** The event loop resumes the head waiter of a lock nobody holds. */
    method Wake(c: CallId, recheckNow: real) returns (answer: Option<Option<string>>)
      requires Valid() && Enabled(View(), Resume(c, recheckNow))
      modifies this
      ensures Valid() && View() == Next(old(View()), Resume(c, recheckNow))
      ensures answer.Some? ==> calls[c].phase == Returned(answer.value)
    {
      NextKeepsLocks(View(), Resume(c, recheckNow));
      var l := calls[c].phase.lock;
      locks := locks[l := Lock(None, locks[l].waiters[1..])];
      answer := UnderLock(c, calls[c].grant, l, recheckNow);
    }

    /** The exchange came back, with a token or without one. */
    method Exchanged(c: CallId, outcome: Option<Token>) returns (answer: Option<string>)
      requires Valid() && Enabled(View(), Finish(c, outcome))
      modifies this
      ensures Valid() && View() == Next(old(View()), Finish(c, outcome))
      ensures calls[c].phase == Returned(answer)
    {
      NextKeepsLocks(View(), Finish(c, outcome));
      var g, l := calls[c].grant, calls[c].phase.lock;
      answer := None;
      if outcome.Some? {
        tokens := tokens[g := outcome.value];
        answer := Some(outcome.value.accessToken);
      }
      locks := locks[l := locks[l].(holder := None)];
      calls := calls[c := Call(g, Returned(answer))];
    }

    method Abort(c: CallId)
      requires Valid() && Enabled(View(), Cancel(c))
      modifies this
      ensures Valid() && View() == Next(old(View()), Cancel(c))
    {
      NextKeepsLocks(View(), Cancel(c));
      var l := calls[c].phase.lock;
      if calls[c].phase.Waiting? {
        locks := locks[l := locks[l].(waiters := Without(locks[l].waiters, c))];
      } else {
        locks := locks[l := locks[l].(holder := None)];
      }
      calls := calls[c := calls[c].(phase := Cancelled)];
    }

    /** Drops the cached token and the lock entry, whether or not that lock is held. */
    method Forget(grant: Option<Grant>)
      requires Valid()
      modifies this`tokens, this`table
      ensures Valid()
      ensures View() == if grant.None? then old(View()) else Next(old(View()), Invalidate(grant.value))
    {
      if grant.None? || grant.value == "" {
        return;
      }
      NextKeepsLocks(View(), Invalidate(grant.value));
      tokens := tokens - {grant.value};
      table := table - {grant.value};
    }
  }
}
