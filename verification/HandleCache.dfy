/**
 The process-wide handle cache of `MongoDbContextProvider`: database handles by connection
 and name, clients by connection, filled under one lock by any number of threads. The first
 read takes no lock, and a client or a handle may fail to be built at any point.
 */
module HandleCache {
  import opened Options

  type ThreadId = nat
  type ClientId = nat
  type HandleId = nat

  datatype Key = Key(connection: string, name: string)

  /** A handle object: the client it came from and the database it names. */
  datatype Handle = Handle(client: ClientId, name: string)

  datatype Phase =
    | Refused
    | WantsLock(key: Key)
    | Checking(key: Key)
    | NeedsClient(key: Key)
    | Connecting(key: Key)
    | Connected(key: Key, client: ClientId)
    | HasClient(key: Key, client: ClientId)
    | HasHandle(key: Key, handle: HandleId)
    | Leaving(key: Key, result: Option<HandleId>)
    | Done(key: Key, result: Option<HandleId>)

  /** `created` and `handles` are every client and handle object ever built. */
  datatype State = State(
    databases: map<Key, HandleId>,
    clients: map<string, ClientId>,
    created: seq<string>,
    handles: seq<Handle>,
    lock: Option<ThreadId>,
    threads: map<ThreadId, Phase>)

  datatype Action =
    | Call(t: ThreadId, connection: string, name: string)
    | Advance(t: ThreadId, ok: bool)

  const START := State(map[], map[], [], [], None, map[])

  predicate InLock(p: Phase) {
    !p.Refused? && !p.WantsLock? && !p.Done?
  }

  predicate Enabled(s: State, a: Action) {
    match a
    case Call(t, _, _) => t !in s.threads
    case Advance(t, _) =>
      && t in s.threads && !s.threads[t].Refused? && !s.threads[t].Done?
      && (s.threads[t].WantsLock? ==> s.lock.None?)
  }

  function Move(s: State, t: ThreadId, p: Phase): State {
    s.(threads := s.threads[t := p])
  }

  function Look(s: State, t: ThreadId, connection: string, name: string): State {
    var key := Key(connection, name);
    if connection == "" || name == "" then Move(s, t, Refused)
    else if key in s.databases then Move(s, t, Done(key, Some(s.databases[key])))
    else Move(s, t, WantsLock(key))
  }

  /** One step of a thread between two moments at which another may run. */
  function Resume(s: State, t: ThreadId, ok: bool): State
    requires Enabled(s, Advance(t, ok))
  {
    match s.threads[t]
    case WantsLock(key) => Move(s.(lock := Some(t)), t, Checking(key))
    case Checking(key) =>
      Move(s, t, if key in s.databases then Leaving(key, Some(s.databases[key])) else NeedsClient(key))
    case NeedsClient(key) =>
      Move(s, t, if key.connection in s.clients then HasClient(key, s.clients[key.connection]) else Connecting(key))
    case Connecting(key) =>
      if ok then Move(s.(created := s.created + [key.connection]), t, Connected(key, |s.created|))
      else Move(s, t, Leaving(key, None))
    case Connected(key, client) => Move(s.(clients := s.clients[key.connection := client]), t, HasClient(key, client))
    case HasClient(key, client) =>
      if ok then Move(s.(handles := s.handles + [Handle(client, key.name)]), t, HasHandle(key, |s.handles|))
      else Move(s, t, Leaving(key, None))
    case HasHandle(key, handle) => Move(s.(databases := s.databases[key := handle]), t, Leaving(key, Some(handle)))
    case Leaving(key, result) => Move(s.(lock := None), t, Done(key, result))
    case _ => s
  }

  function Step(s: State, a: Action): State {
    if !Enabled(s, a) then s else
    match a
    case Call(t, connection, name) => Look(s, t, connection, name)
    case Advance(t, ok) => Resume(s, t, ok)
  }

  function RunFrom(s: State, actions: seq<Action>): State
    decreases |actions|
  {
    if actions == [] then s
    else Step(RunFrom(s, actions[..|actions| - 1]), actions[|actions| - 1])
  }

  // ---------- what every run keeps ----------

  /** The handle was made for this name by the client created for this connection. */
  ghost predicate HandleFits(s: State, key: Key, h: HandleId) {
    h < |s.handles| && s.handles[h].name == key.name
    && s.handles[h].client < |s.created| && s.created[s.handles[h].client] == key.connection
  }

  ghost predicate LockOk(s: State) {
    && (s.lock.Some? ==> s.lock.value in s.threads)
    && forall t :: t in s.threads ==> (InLock(s.threads[t]) <==> s.lock == Some(t))
  }

  ghost predicate PhaseOk(s: State, p: Phase) {
    && (!p.Refused? ==> p.key.connection != "" && p.key.name != "")
    && match p
    case Refused => true
    case WantsLock(key) => true
    case Checking(key) => true
    case NeedsClient(key) => key !in s.databases
    case Connecting(key) => key !in s.databases && key.connection !in s.clients
    case Connected(key, client) =>
      key !in s.databases && key.connection !in s.clients && client < |s.created| && s.created[client] == key.connection
    case HasClient(key, client) =>
      key !in s.databases && key.connection in s.clients && s.clients[key.connection] == client
    case HasHandle(key, handle) => key !in s.databases && HandleFits(s, key, handle)
    case Leaving(key, result) => result.Some? ==> key in s.databases && s.databases[key] == result.value
    case Done(key, result) => result.Some? ==> key in s.databases && s.databases[key] == result.value
  }

  ghost predicate PhasesOk(s: State) {
    forall t :: t in s.threads ==> PhaseOk(s, s.threads[t])
  }

  ghost predicate DatabasesOk(s: State) {
    forall key :: key in s.databases ==> HandleFits(s, key, s.databases[key])
  }

  /** Client `i` is the one kept for its connection, or its creator is about to keep it. */
  ghost predicate Kept(s: State, i: ClientId)
    requires i < |s.created|
  {
    || (s.created[i] in s.clients && s.clients[s.created[i]] == i)
    || (s.lock.Some? && s.lock.value in s.threads && s.threads[s.lock.value].Connected? && s.threads[s.lock.value].client == i)
  }

  ghost predicate ClientsOk(s: State) {
    && (forall c :: c in s.clients ==> s.clients[c] < |s.created| && s.created[s.clients[c]] == c)
    && (forall i :: 0 <= i < |s.created| ==> Kept(s, i))
  }

  ghost predicate Inv(s: State) {
    LockOk(s) && PhasesOk(s) && DatabasesOk(s) && ClientsOk(s)
  }

  /** What only grows. */
  ghost predicate Grows(s: State, after: State) {
    && s.created <= after.created && s.handles <= after.handles
    && (forall key :: key in s.databases ==> key in after.databases && after.databases[key] == s.databases[key])
    && (forall c :: c in s.clients ==> c in after.clients && after.clients[c] == s.clients[c])
  }

  lemma StepGrows(s: State, a: Action)
    requires Inv(s)
    ensures Grows(s, Step(s, a))
  {
    if a.Advance? && Enabled(s, a) {
      assert PhaseOk(s, s.threads[a.t]);
      hide PhasesOk, ClientsOk, DatabasesOk, LockOk;
    }
  }

  lemma StepKeepsLock(s: State, a: Action)
    requires LockOk(s)
    ensures LockOk(Step(s, a))
  {
  }

  /** The shared tables are written only by the holder of the lock. */
  lemma OnlyHolderWrites(s: State, a: Action, t: ThreadId)
    requires LockOk(s) && a.t != t && t in s.threads
    ensures var after := Step(s, a);
            && t in after.threads && after.threads[t] == s.threads[t]
            && (s.lock == Some(t) ==> after.lock == Some(t) && after.databases == s.databases && after.clients == s.clients)
  {
    assert s.lock == Some(t) && a.t in s.threads ==> !InLock(s.threads[a.t]);
    hide LockOk;
  }

  lemma PhaseStaysOk(s: State, after: State, p: Phase)
    requires PhaseOk(s, p) && Grows(s, after)
    requires InLock(p) ==> after.databases == s.databases && after.clients == s.clients
    ensures PhaseOk(after, p)
  {
  }

  lemma CallPhaseOk(s: State, a: Action)
    requires a.Call? && Enabled(s, a)
    ensures Step(s, a).threads.Keys == s.threads.Keys + {a.t}
    ensures PhaseOk(Step(s, a), Step(s, a).threads[a.t])
  {
  }

  /** Up to the moment a client is found or created. */
  lemma EarlyPhaseOk(s: State, a: Action)
    requires a.Advance? && Enabled(s, a) && PhaseOk(s, s.threads[a.t])
    requires s.threads[a.t].WantsLock? || s.threads[a.t].Checking? || s.threads[a.t].NeedsClient? || s.threads[a.t].Connecting?
    ensures Step(s, a).threads.Keys == s.threads.Keys + {a.t}
    ensures PhaseOk(Step(s, a), Step(s, a).threads[a.t])
  {
  }

  lemma LatePhaseOk(s: State, a: Action)
    requires a.Advance? && Enabled(s, a) && PhaseOk(s, s.threads[a.t]) && ClientsOk(s)
    requires s.threads[a.t].Connected? || s.threads[a.t].HasClient? || s.threads[a.t].HasHandle? || s.threads[a.t].Leaving?
    ensures Step(s, a).threads.Keys == s.threads.Keys + {a.t}
    ensures PhaseOk(Step(s, a), Step(s, a).threads[a.t])
  {
  }

  lemma OwnPhaseOk(s: State, a: Action)
    requires Inv(s) && Enabled(s, a)
    ensures Step(s, a).threads.Keys == s.threads.Keys + {a.t}
    ensures PhaseOk(Step(s, a), Step(s, a).threads[a.t])
  {
    hide Step, PhaseOk, ClientsOk, DatabasesOk, LockOk;
    if a.Call? {
      CallPhaseOk(s, a);
    } else if s.threads[a.t].WantsLock? || s.threads[a.t].Checking? || s.threads[a.t].NeedsClient? || s.threads[a.t].Connecting? {
      EarlyPhaseOk(s, a);
    } else {
      LatePhaseOk(s, a);
    }
  }

  lemma StepKeepsPhases(s: State, a: Action)
    requires Inv(s)
    ensures PhasesOk(Step(s, a))
  {
    hide Step, Grows, PhaseOk, DatabasesOk, ClientsOk;
    var after := Step(s, a);
    if Enabled(s, a) {
      StepGrows(s, a);
      OwnPhaseOk(s, a);
      forall t | t in after.threads && t != a.t ensures PhaseOk(after, after.threads[t]) {
        OnlyHolderWrites(s, a, t);
        PhaseStaysOk(s, after, s.threads[t]);
      }
    } else {
      NothingHappens(s, a);
    }
  }

  lemma NothingHappens(s: State, a: Action)
    requires !Enabled(s, a)
    ensures Step(s, a) == s
  {
  }

  lemma StepKeepsDatabases(s: State, a: Action)
    requires Inv(s)
    ensures DatabasesOk(Step(s, a))
  {
    var after := Step(s, a);
    StepGrows(s, a);
    forall key | key in after.databases ensures HandleFits(after, key, after.databases[key]) {
      if key in s.databases {
        assert HandleFits(s, key, s.databases[key]);
      } else {
        assert PhaseOk(s, s.threads[a.t]);
      }
    }
  }

  datatype ClientMove = Same | Create | Keep

  function MoveOf(s: State, a: Action): ClientMove
    requires Enabled(s, a)
  {
    if a.Call? then Same
    else if s.threads[a.t].Connecting? && a.ok then Create
    else if s.threads[a.t].Connected? then Keep
    else Same
  }

  /** How a step changes the clients, and whether its thread is then about to keep one. */
  lemma ClientsMove(s: State, a: Action)
    requires LockOk(s) && Enabled(s, a)
    ensures var after := Step(s, a);
            && a.t in after.threads
            && (after.threads[a.t].Connected? <==> MoveOf(s, a).Create?)
            && match MoveOf(s, a)
               case Same => after.created == s.created && after.clients == s.clients
               case Create =>
                 && after.created == s.created + [s.threads[a.t].key.connection] && after.clients == s.clients
                 && after.lock == Some(a.t) && after.threads[a.t].client == |s.created|
               case Keep =>
                 && after.created == s.created
                 && after.clients == s.clients[s.threads[a.t].key.connection := s.threads[a.t].client]
  {
  }

  lemma KeptStays(s: State, a: Action, i: ClientId)
    requires Inv(s) && Enabled(s, a) && i < |Step(s, a).created|
    ensures Kept(Step(s, a), i)
  {
    hide Step, DatabasesOk;
    ClientsMove(s, a);
    if a.t in s.threads {
      assert PhaseOk(s, s.threads[a.t]);
    }
    if i < |s.created| {
      assert Kept(s, i);
      if s.lock.Some? && s.lock.value != a.t {
        OnlyHolderWrites(s, a, s.lock.value);
      }
    }
  }

  lemma StepKeepsClients(s: State, a: Action)
    requires Inv(s)
    ensures ClientsOk(Step(s, a))
  {
    hide Step, DatabasesOk, Kept, LockOk;
    if Enabled(s, a) {
      if a.t in s.threads {
        assert PhaseOk(s, s.threads[a.t]);
      }
      ClientsMove(s, a);
      forall i | 0 <= i < |Step(s, a).created| ensures Kept(Step(s, a), i) {
        KeptStays(s, a, i);
      }
    } else {
      NothingHappens(s, a);
    }
  }

  lemma StepKeepsInv(s: State, a: Action)
    requires Inv(s)
    ensures Inv(Step(s, a))
  {
    StepKeepsLock(s, a);
    StepKeepsPhases(s, a);
    StepKeepsDatabases(s, a);
    StepKeepsClients(s, a);
  }

  lemma {:induction false} Reachable(actions: seq<Action>)
    ensures Inv(RunFrom(START, actions))
    decreases |actions|
  {
    hide Step;
    if actions != [] {
      Reachable(actions[..|actions| - 1]);
      StepKeepsInv(RunFrom(START, actions[..|actions| - 1]), actions[|actions| - 1]);
    }
  }

  /** At most one client is ever created for a connection. */
  lemma OneClientPerConnection(actions: seq<Action>, i: ClientId, j: ClientId)
    requires var s := RunFrom(START, actions); i < |s.created| && j < |s.created| && s.created[i] == s.created[j]
    ensures i == j
  {
    Reachable(actions);
    var s := RunFrom(START, actions);
    assert Kept(s, i) && Kept(s, j);
    if s.lock.Some? && s.lock.value in s.threads {
      assert PhaseOk(s, s.threads[s.lock.value]);
    }
  }

  /** The cache refines a plain function of connection and name, whatever the interleaving:
      equal requests are answered with the very same handle, different ones with different
      handles, and each handle belongs to the client of its own connection. */
  lemma AnswersAreAFunction(actions: seq<Action>, t: ThreadId, u: ThreadId)
    requires var s := RunFrom(START, actions);
             && t in s.threads && s.threads[t].Done? && s.threads[t].result.Some?
             && u in s.threads && s.threads[u].Done? && s.threads[u].result.Some?
    ensures var s := RunFrom(START, actions);
            && HandleFits(s, s.threads[t].key, s.threads[t].result.value)
            && HandleFits(s, s.threads[u].key, s.threads[u].result.value)
            && (s.threads[t].key == s.threads[u].key <==> s.threads[t].result == s.threads[u].result)
            && (s.threads[t].key.connection == s.threads[u].key.connection <==>
                  s.handles[s.threads[t].result.value].client == s.handles[s.threads[u].result.value].client)
  {
    Reachable(actions);
    var s := RunFrom(START, actions);
    assert PhaseOk(s, s.threads[t]) && PhaseOk(s, s.threads[u]);
    var k, l := s.threads[t].key, s.threads[u].key;
    assert HandleFits(s, k, s.databases[k]) && HandleFits(s, l, s.databases[l]);
    if k.connection == l.connection {
      OneClientPerConnection(actions, s.handles[s.databases[k]].client, s.handles[s.databases[l]].client);
    }
  }

  /** An answer once given is given to every later caller at once, without the lock. */
  lemma {:induction false} AnsweredOnceAnsweredAlways(actions: seq<Action>, more: seq<Action>, t: ThreadId, u: ThreadId)
    requires var s := RunFrom(START, actions); t in s.threads && s.threads[t].Done? && s.threads[t].result.Some?
    requires u !in RunFrom(RunFrom(START, actions), more).threads
    ensures var s := RunFrom(START, actions);
            var key := s.threads[t].key;
            var later := RunFrom(s, more);
            Step(later, Call(u, key.connection, key.name)) == Move(later, u, Done(key, s.threads[t].result))
  {
    Reachable(actions);
    var s := RunFrom(START, actions);
    assert PhaseOk(s, s.threads[t]);
    RunGrows(s, more);
  }

  lemma {:induction false} RunGrows(s: State, more: seq<Action>)
    requires Inv(s)
    ensures Inv(RunFrom(s, more)) && Grows(s, RunFrom(s, more))
    decreases |more|
  {
    hide Step, Inv;
    if more != [] {
      var most := more[..|more| - 1];
      RunGrows(s, most);
      StepKeepsInv(RunFrom(s, most), more[|more| - 1]);
      StepGrows(RunFrom(s, most), more[|more| - 1]);
    }
  }

  /** How a call ends: a ValueError, a handle, an error of the driver, or still at the lock
      when the script of the other threads is used up. */
  datatype Answer = Rejected | Found(handle: HandleId) | Raised | Blocked

  class MongoDbContextProvider {
    var databases: map<Key, HandleId>
    var clients: map<string, ClientId>
    var created: seq<string>
    var handles: seq<Handle>
    var lock: Option<ThreadId>
    var threads: map<ThreadId, Phase>
    var script: seq<seq<Action>>
    ghost var trace: seq<Action>

    ghost function View(): State
      reads this
    {
      State(databases, clients, created, handles, lock, threads)
    }

    ghost predicate Valid()
      reads this
    {
      View() == RunFrom(START, trace)
    }

    constructor (script: seq<seq<Action>>)
      ensures Valid() && View() == START && this.script == script
    {
      databases, clients, created, handles, lock, threads := map[], map[], [], [], None, map[];
      this.script, trace := script, [];
    }

    ghost method Record(a: Action, before: State)
      requires before == RunFrom(START, trace) && View() == Step(before, a)
      modifies this`trace
      ensures Valid() && trace == old(trace) + [a]
    {
      hide Step;
      trace := trace + [a];
      assert trace[..|trace| - 1] == old(trace);
    }

    /** What the other threads do before thread `t` runs again. */
    method Others(t: ThreadId)
      requires Valid() && t in threads
      modifies this
      ensures Valid() && old(trace) <= trace
      ensures t in threads && threads[t] == old(threads[t]) && (old(lock) == Some(t) ==> lock == Some(t))
      ensures script == if old(script) == [] then [] else old(script)[1..]
    {
      hide Step, RunFrom, PhasesOk, DatabasesOk, ClientsOk;
      if script == [] {
        return;
      }
      var turn := script[0];
      script := script[1..];
      for k := 0 to |turn|
        invariant Valid() && old(trace) <= trace
        invariant t in threads && threads[t] == old(threads[t]) && (old(lock) == Some(t) ==> lock == Some(t))
        invariant script == old(script)[1..]
      {
        if turn[k].t != t {
          ghost var before := View();
          Reachable(trace);
          OnlyHolderWrites(before, turn[k], t);
          var after := Step(State(databases, clients, created, handles, lock, threads), turn[k]);
          databases, clients, created, handles := after.databases, after.clients, after.created, after.handles;
          lock, threads := after.lock, after.threads;
          Record(turn[k], before);
        }
      }
    }

    /** _get_client, with the lock held. */
    method GetClient(t: ThreadId, connects: bool) returns (client: Option<ClientId>)
      requires Valid() && lock == Some(t) && t in threads && threads[t].NeedsClient?
      modifies this
      ensures Valid() && old(trace) <= trace && lock == Some(t) && t in threads
      ensures threads[t] == if client.Some? then HasClient(old(threads[t]).key, client.value) else Leaving(old(threads[t]).key, None)
      ensures client.None? ==> !connects
    {
      hide RunFrom;
      ghost var before := View();
      var key := threads[t].key;
      client := if key.connection in clients then Some(clients[key.connection]) else None;
      threads := threads[t := if client.Some? then HasClient(key, client.value) else Connecting(key)];
      Record(Advance(t, true), before);
      if client.None? {
        Others(t);
        client := CreateClient(t, connects);
      }
    }

    /** MongoClient(...), and the client kept for its connection. */
    method CreateClient(t: ThreadId, connects: bool) returns (client: Option<ClientId>)
      requires Valid() && lock == Some(t) && t in threads && threads[t].Connecting?
      modifies this
      ensures Valid() && old(trace) <= trace && lock == Some(t) && t in threads && (client.Some? <==> connects)
      ensures threads[t] == if client.Some? then HasClient(old(threads[t]).key, client.value) else Leaving(old(threads[t]).key, None)
    {
      hide RunFrom;
      ghost var before := View();
      var key := threads[t].key;
      if !connects {
        threads := threads[t := Leaving(key, None)];
        Record(Advance(t, false), before);
        return None;
      }
      client := Some(|created|);
      created := created + [key.connection];
      threads := threads[t := Connected(key, client.value)];
      Record(Advance(t, true), before);
      Others(t);
      before := View();
      clients := clients[key.connection := client.value];
      threads := threads[t := HasClient(key, client.value)];
      Record(Advance(t, true), before);
    }

    /** The stretch under the lock that builds and stores a missing handle. */
    method BuildHandle(t: ThreadId, connects: bool, makes: bool)
      requires Valid() && lock == Some(t) && t in threads && threads[t].NeedsClient?
      modifies this
      ensures Valid() && old(trace) <= trace && lock == Some(t) && t in threads
      ensures threads[t].Leaving? && threads[t].key == old(threads[t]).key
      ensures connects && makes ==> threads[t].result.Some?
      ensures !makes ==> threads[t].result.None?
    {
      hide RunFrom;
      var key := threads[t].key;
      var client := GetClient(t, connects);
      if client.None? {
        return;
      }
      Others(t);
      ghost var before := View();
      if !makes {
        threads := threads[t := Leaving(key, None)];
        Record(Advance(t, false), before);
        return;
      }
      var handle := |handles|;
      handles := handles + [Handle(client.value, key.name)];
      threads := threads[t := HasHandle(key, handle)];
      Record(Advance(t, true), before);
      Others(t);
      before := View();
      databases := databases[key := handle];
      threads := threads[t := Leaving(key, Some(handle))];
      Record(Advance(t, true), before);
    }

    /** The with-block: wait for the lock, look again, build if still missing, let go. */
    method UnderLock(t: ThreadId, connects: bool, makes: bool) returns (answer: Answer)
      requires Valid() && t in threads && threads[t].WantsLock?
      modifies this
      ensures Valid() && old(trace) <= trace && t in threads
      ensures match answer
              case Blocked => threads[t] == old(threads[t]) && lock.Some? && script == []
              case Found(h) => threads[t] == Done(old(threads[t]).key, Some(h))
              case Raised => threads[t] == Done(old(threads[t]).key, None) && !(connects && makes)
              case Rejected => false
    {
      hide RunFrom, Step;
      while lock.Some? && script != []
        invariant Valid() && old(trace) <= trace && t in threads && threads[t] == old(threads[t])
        decreases |script|
      {
        Others(t);
      }
      if lock.Some? {
        return Blocked;
      }
      TakeLock(t);
      Others(t);
      CheckAgain(t);
      if threads[t].NeedsClient? {
        BuildHandle(t, connects, makes);
      }
      Others(t);
      var result := LetGo(t);
      answer := if result.Some? then Found(result.value) else Raised;
    }

    method TakeLock(t: ThreadId)
      requires Valid() && lock.None? && t in threads && threads[t].WantsLock?
      modifies this`lock, this`threads, this`trace
      ensures Valid() && old(trace) <= trace && lock == Some(t) && t in threads && threads[t] == Checking(old(threads[t]).key)
    {
      hide RunFrom;
      ghost var before := View();
      lock, threads := Some(t), threads[t := Checking(threads[t].key)];
      Record(Advance(t, true), before);
    }

    method CheckAgain(t: ThreadId)
      requires Valid() && lock == Some(t) && t in threads && threads[t].Checking?
      modifies this`threads, this`trace
      ensures Valid() && old(trace) <= trace && t in threads
      ensures threads[t].NeedsClient? || (threads[t].Leaving? && threads[t].result.Some?)
      ensures threads[t].key == old(threads[t]).key
    {
      hide RunFrom;
      ghost var before := View();
      var key := threads[t].key;
      threads := threads[t := if key in databases then Leaving(key, Some(databases[key])) else NeedsClient(key)];
      Record(Advance(t, true), before);
    }

    method LetGo(t: ThreadId) returns (result: Option<HandleId>)
      requires Valid() && lock == Some(t) && t in threads && threads[t].Leaving?
      modifies this`lock, this`threads, this`trace
      ensures Valid() && old(trace) <= trace && t in threads && result == old(threads[t]).result
      ensures threads[t] == Done(old(threads[t]).key, result)
    {
      hide RunFrom;
      ghost var before := View();
      result := threads[t].result;
      lock, threads := None, threads[t := Done(threads[t].key, result)];
      Record(Advance(t, true), before);
    }

    method GetDatabaseByConnection(t: ThreadId, connection: string, name: string, connects: bool, makes: bool) returns (answer: Answer)
      requires Valid() && t !in threads
      modifies this
      ensures Valid() && old(trace) <= trace
      ensures answer == Rejected <==> connection == "" || name == ""
      ensures answer.Found? ==> t in threads && threads[t] == Done(Key(connection, name), Some(answer.handle))
      ensures answer == Raised ==> !(connects && makes)
      ensures answer == Blocked ==> lock.Some? && script == []
      ensures old(Key(connection, name) in databases) && connection != "" && name != "" ==>
                answer == Found(old(databases[Key(connection, name)])) && trace == old(trace) + [Call(t, connection, name)]
    {
      hide RunFrom;
      ghost var before := View();
      var key := Key(connection, name);
      if connection == "" || name == "" {
        threads := threads[t := Refused];
        Record(Call(t, connection, name), before);
        return Rejected;
      }
      if key in databases {
        answer := Found(databases[key]);
        threads := threads[t := Done(key, Some(databases[key]))];
        Record(Call(t, connection, name), before);
        return;
      }
      threads := threads[t := WantsLock(key)];
      Record(Call(t, connection, name), before);
      answer := UnderLock(t, connects, makes);
    }
  }
}
