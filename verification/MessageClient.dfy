/**
 `AzureMessageClient` as sequential code over its two dictionaries. Between two awaits of one
 call other calls run, as `script` has it. Every stretch is the action of that name in
 `Senders`, so the theorems there hold of these methods.
 */
module MessageClient {
  import opened Options
  import opened AsyncLocks
  import opened Senders

  /** How a send ends: published, raised after its retry, or still waiting for its
      destination's lock when the script of the other calls is used up. */
  datatype Outcome = Published | Raised | StillWaiting

  class AzureMessageClient {
    const queues: seq<Name>
    const topics: seq<Name>
    var senders: map<Name, SenderId>
    var built: seq<Sender>
    var senderLocks: map<Name, Lock>
    var calls: map<CallId, Call>
    var script: seq<seq<Action>>
    ghost var trace: seq<Action>

    ghost function View(): Runtime
      reads this
    {
      Runtime(senders, built, senderLocks, calls)
    }

    ghost predicate Valid()
      reads this
    {
      View() == RunFrom(queues, Start(queues, topics), trace).rt
    }

    constructor (queues: seq<Name>, topics: seq<Name>, script: seq<seq<Action>>)
      ensures Valid() && trace == [] && this.queues == queues && this.topics == topics && this.script == script
      ensures View().senders.Keys == set name | name in queues + topics
      ensures calls == map[]
    {
      this.queues, this.topics, this.script := queues, topics, script;
      senders, built, senderLocks, calls, trace := map[], [], map[], map[], [];
      new;
      InitializeSenders();
    }

    method InitializeSenders()
      requires View() == EMPTY && trace == []
      modifies this`senders, this`built
      ensures Valid() && View().senders.Keys == set name | name in queues + topics
    {
      var names := queues + topics;
      for k := 0 to |names|
        invariant View() == Initialize(queues, EMPTY, names[..k])
      {
        InitializeNext(queues, EMPTY, names, k);
        BuildSender(names[k]);
      }
      assert names[..|names|] == names;
      InitializeKeeps(queues, EMPTY, names);
    }

    method BuildSender(name: Name)
      modifies this`senders, this`built
      ensures View() == Build(queues, old(View()), name)
    {
      var kind := if name in queues then QueueSender else TopicSender;
      senders := senders[name := |built|];
      built := built + [Sender(name, kind)];
    }

    method FindSender(name: Name) returns (sender: SenderId)
      modifies this`senders, this`built
      ensures View() == GetSender(queues, old(View()), name) && name in senders && sender == senders[name]
    {
      if name !in senders {
        BuildSender(name);
      }
      sender := senders[name];
    }

    /** Inside the lock: the sender is looked up and an attempt starts. */
    method StartAttempt(c: CallId, name: Name, waiters: seq<CallId>, attempt: nat)
      modifies this`senders, this`built, this`senderLocks, this`calls
      ensures View() == Begin(queues, old(View()), c, name, waiters, attempt)
    {
      var sender := FindSender(name);
      senderLocks := senderLocks[name := Lock(Some(c), waiters)];
      calls := calls[c := Call(name, Sending(sender, attempt))];
    }

    ghost method Record(a: Action, before: Runtime)
      requires before == RunFrom(queues, Start(queues, topics), trace).rt && View() == Next(queues, before, a)
      modifies this`trace
      ensures Valid() && trace == old(trace) + [a]
    {
      hide Next;
      trace := trace + [a];
      assert trace[..|trace| - 1] == old(trace);
    }

    /** What the other calls do before call `c` runs again. */
    method Others(c: CallId)
      requires Valid() && c in calls
      modifies this
      ensures Valid() && old(trace) <= trace && c in calls && calls[c] == old(calls[c])
      ensures script == if old(script) == [] then [] else old(script)[1..]
    {
      hide Next, RunFrom;
      if script == [] {
        return;
      }
      var turn := script[0];
      script := script[1..];
      for k := 0 to |turn|
        invariant Valid() && old(trace) <= trace && c in calls && calls[c] == old(calls[c])
        invariant script == old(script)[1..]
      {
        if turn[k].c != c {
          ghost var before := View();
          OtherCallsKept(queues, before, turn[k], c);
          var after := Next(queues, Runtime(senders, built, senderLocks, calls), turn[k]);
          senders, built, senderLocks, calls := after.senders, after.built, after.locks, after.calls;
          Record(turn[k], before);
        }
      }
    }

    /** `async with` the destination's lock: taken at once when it is free, else queued for. */
    method EnterLock(c: CallId, name: Name)
      requires Valid() && c !in calls
      modifies this`senders, this`built, this`senderLocks, this`calls, this`trace
      ensures Valid() && trace == old(trace) + [Send(c, name)]
      ensures c in calls && calls[c].name == name && (calls[c].phase.Waiting? || (calls[c].phase.Sending? && calls[c].phase.attempt == 1))
    {
      hide RunFrom, GetSender;
      ghost var before := View();
      var lock := if name in senderLocks then senderLocks[name] else Lock(None, []);
      if lock.holder.None? && lock.waiters == [] {
        StartAttempt(c, name, [], 1);
      } else {
        senderLocks := senderLocks[name := lock.(waiters := lock.waiters + [c])];
        calls := calls[c := Call(name, Waiting)];
      }
      Record(Send(c, name), before);
    }

    method WakeUp(c: CallId)
      requires Valid() && Enabled(View(), Wake(c))
      modifies this`senders, this`built, this`senderLocks, this`calls, this`trace
      ensures Valid() && trace == old(trace) + [Wake(c)]
      ensures c in calls && calls[c].name == old(calls[c].name) && calls[c].phase.Sending? && calls[c].phase.attempt == 1
    {
      hide RunFrom, GetSender;
      ghost var before := View();
      var name := calls[c].name;
      StartAttempt(c, name, senderLocks[name].waiters[1..], 1);
      Record(Wake(c), before);
    }

    /** The end of the `async with` block. */
    method Leave(c: CallId, ok: bool)
      requires Valid() && c in calls && calls[c].phase.Sending? && (ok || calls[c].phase.attempt != 1)
      modifies this`senderLocks, this`calls, this`trace
      ensures Valid() && trace == old(trace) + [SendReturns(c, ok)]
      ensures c in calls && calls[c] == Call(old(calls[c]).name, Finished(ok))
      ensures Attempts(RunFrom(queues, Start(queues, topics), trace).log, c) == old(calls[c]).phase.attempt
    {
      Reachable(queues, topics, trace);
      LeavingAttempts(queues, RunFrom(queues, Start(queues, topics), trace), c, ok);
      hide RunFrom, Inv;
      ghost var before := View();
      var name := calls[c].name;
      senderLocks := senderLocks[name := (if name in senderLocks then senderLocks[name] else Lock(None, [])).(holder := None)];
      calls := calls[c := Call(name, Finished(ok))];
      Record(SendReturns(c, ok), before);
    }

    /** The first half of _replace_sender: the failed sender leaves the table, to be closed. */
    method PopStale(c: CallId)
      requires Valid() && c in calls && calls[c].phase.Sending? && calls[c].phase.attempt == 1
      modifies this`senders, this`calls, this`trace
      ensures Valid() && trace == old(trace) + [SendReturns(c, false)]
      ensures c in calls && calls[c] == Call(old(calls[c]).name, Closing) && calls[c].name !in senders
    {
      Reachable(queues, topics, trace);
      HolderIs(View(), c);
      hide RunFrom, Inv;
      ghost var before := View();
      var name := calls[c].name;
      senders := senders - {name};
      calls := calls[c := Call(name, Closing)];
      Record(SendReturns(c, false), before);
    }

    /** The second half, once the close returned or failed: a fresh sender, and the retry. */
    method Retry(c: CallId)
      requires Valid() && c in calls && calls[c].phase.Closing?
      modifies this`senders, this`built, this`senderLocks, this`calls, this`trace
      ensures Valid() && trace == old(trace) + [CloseReturns(c)]
      ensures c in calls && calls[c].name == old(calls[c].name) && calls[c].phase.Sending? && calls[c].phase.attempt == 2
      ensures calls[c].phase.sender == old(|built|)
    {
      Reachable(queues, topics, trace);
      HolderIs(View(), c);
      hide RunFrom, Inv;
      ghost var before := View();
      var name := calls[c].name;
      StartAttempt(c, name, (if name in senderLocks then senderLocks[name] else Lock(None, [])).waiters, 2);
      Record(CloseReturns(c), before);
    }

    /** Takes the lock, or queues for it and resumes once the event loop gets to this call. */
    method AcquireLock(c: CallId, name: Name) returns (inside: bool)
      requires Valid() && c !in calls
      modifies this
      ensures Valid() && old(trace) <= trace && c in calls && calls[c].name == name
      ensures inside ==> calls[c].phase.Sending? && calls[c].phase.attempt == 1
      ensures !inside ==> calls[c].phase.Waiting? && script == [] && !Enabled(View(), Wake(c))
    {
      hide Next, RunFrom;
      EnterLock(c, name);
      while calls[c].phase.Waiting?
        invariant Valid() && old(trace) <= trace && c in calls && calls[c].name == name
        invariant calls[c].phase.Waiting? || (calls[c].phase.Sending? && calls[c].phase.attempt == 1)
        decreases |script|, if calls[c].phase.Waiting? then 1 else 0
      {
        if Enabled(Runtime(senders, built, senderLocks, calls), Wake(c)) {
          WakeUp(c);
        } else if script == [] {
          return false;
        } else {
          Others(c);
        }
      }
      return true;
    }

    /** One send, from the lock to its end. `firstOk` and `secondOk` are what the sender does
        with the message the first and, if it comes to that, the second time. */
    method SendToAzureBus(c: CallId, name: Name, firstOk: bool, secondOk: bool) returns (outcome: Outcome)
      requires Valid() && c !in calls
      modifies this
      ensures Valid() && old(trace) <= trace && c in calls && calls[c].name == name
      ensures match outcome
              case StillWaiting => calls[c].phase.Waiting? && script == [] && !Enabled(View(), Wake(c))
              case Published => calls[c].phase == Finished(true) && (firstOk || secondOk)
              case Raised => calls[c].phase == Finished(false) && !firstOk && !secondOk
      ensures outcome != StillWaiting ==>
                Attempts(RunFrom(queues, Start(queues, topics), trace).log, c) == if firstOk then 1 else 2
    {
      hide Next, RunFrom;
      var inside := AcquireLock(c, name);
      if !inside {
        return StillWaiting;
      }
      Others(c);
      if firstOk {
        Leave(c, true);
        return Published;
      }
      PopStale(c);
      Others(c);
      Retry(c);
      Others(c);
      Leave(c, secondOk);
      outcome := if secondOk then Published else Raised;
    }
  }

  lemma {:induction false} InitializeNext(queues: seq<Name>, rt: Runtime, names: seq<Name>, k: nat)
    requires k < |names|
    ensures Initialize(queues, rt, names[..k + 1]) == Build(queues, Initialize(queues, rt, names[..k]), names[k])
    decreases k
  {
    if k == 0 {
      assert names[..1] == [names[0]] && names[..1][1..] == [];
    } else {
      InitializeNext(queues, Build(queues, rt, names[0]), names[1..], k - 1);
      assert names[..k + 1][1..] == names[1..][..k] && names[..k][1..] == names[1..][..k - 1];
    }
  }

  /** A step of one call changes no other call. */
  lemma OtherCallsKept(queues: seq<Name>, rt: Runtime, a: Action, c: CallId)
    requires a.c != c && c in rt.calls
    ensures c in Next(queues, rt, a).calls && Next(queues, rt, a).calls[c] == rt.calls[c]
  {
  }

  /** A call that leaves its sender has made as many attempts as its phase says. */
  lemma LeavingAttempts(queues: seq<Name>, s: State, c: CallId, ok: bool)
    requires Inv(queues, s) && c in s.rt.calls && s.rt.calls[c].phase.Sending? && (ok || s.rt.calls[c].phase.attempt != 1)
    ensures Attempts(Step(queues, s, SendReturns(c, ok)).log, c) == s.rt.calls[c].phase.attempt
  {
    assert Fits(s.rt, c, Attempts(s.log, c), Failures(s.log, c));
    LogOfStep(queues, s, SendReturns(c, ok), c);
  }
}
