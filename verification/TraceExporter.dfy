/**
 `MongoDBTraceExporter` in its own form: the loops of `export`, `_run`, `_flush_to_mongo`,
 `_flush_remaining`, `force_flush` and `shutdown` over a queue and a dictionary of lists.
 Every queue operation and every insert extends `trace` by the matching action, so whatever
 these methods do is a run of the machine in `TraceBatches`. Between any two of their own
 steps the other threads run: `script` fixes what they do, for every possible choice.
 */
module TraceExporter {
  import opened TraceBatches
  import opened TraceProgress

  // ---------- buffer_by_tenant ----------

  /** A dictionary from tenant to list of documents, with its keys in insertion order. */
  datatype Batches = Batches(keys: seq<Tenant>, docs: map<Tenant, seq<Doc>>)

  const EMPTY := Batches([], map[])

  function DocsOf(es: seq<Entry>, t: Tenant): seq<Doc> {
    if es == [] then []
    else if es[0].tenant == t then [es[0].doc] + DocsOf(es[1..], t) else DocsOf(es[1..], t)
  }

  ghost function FirstSeen(es: seq<Entry>): (r: seq<Tenant>)
    decreases |es|
  {
    if es == [] then [] else [es[0].tenant] + FirstSeen(NotOf(es, es[0].tenant))
  }

  /** The dictionary holds exactly the entries of `buf`, each under its own tenant. */
  ghost predicate Holds(b: Batches, buf: seq<Entry>) {
    && b.keys == FirstSeen(buf)
    && (forall t :: t in b.docs <==> t in b.keys)
    && (forall t :: t in b.keys ==> b.docs[t] == DocsOf(buf, t))
  }

  /** setdefault(tenant, []).append(doc) */
  function Append(b: Batches, e: Entry): Batches {
    if e.tenant in b.docs then b.(docs := b.docs[e.tenant := b.docs[e.tenant] + [e.doc]])
    else Batches(b.keys + [e.tenant], b.docs[e.tenant := [e.doc]])
  }

  lemma {:induction false} DocsOfAppend(es: seq<Entry>, e: Entry, t: Tenant)
    ensures DocsOf(es + [e], t) == DocsOf(es, t) + if e.tenant == t then [e.doc] else []
  {
    if es != [] {
      DocsOfAppend(es[1..], e, t);
      assert (es + [e])[1..] == es[1..] + [e];
    }
  }

  lemma {:induction false} NotOfAppend(es: seq<Entry>, e: Entry, t: Tenant)
    ensures NotOf(es + [e], t) == NotOf(es, t) + if e.tenant == t then [] else [e]
  {
    if es != [] {
      NotOfAppend(es[1..], e, t);
      assert (es + [e])[1..] == es[1..] + [e];
    }
  }

  lemma {:induction false} NotOfOthers(es: seq<Entry>, t: Tenant, u: Tenant)
    ensures DocsOf(NotOf(es, t), u) == if t == u then [] else DocsOf(es, u)
  {
    if es != [] {
      NotOfOthers(es[1..], t, u);
    }
  }

  lemma {:induction false} FirstSeenAppend(es: seq<Entry>, e: Entry)
    ensures FirstSeen(es + [e]) == FirstSeen(es) + if e.tenant in FirstSeen(es) then [] else [e.tenant]
    decreases |es|
  {
    if es == [] {
      assert NotOf([e], e.tenant) == [] by { assert [e][1..] == []; }
    } else {
      var t := es[0].tenant;
      NotOfAppend(es, e, t);
      assert (es + [e])[0] == es[0];
      assert FirstSeen(es + [e]) == [t] + FirstSeen(NotOf(es + [e], t));
      if e.tenant == t {
        assert NotOf(es + [e], t) == NotOf(es, t);
      } else {
        FirstSeenAppend(NotOf(es, t), e);
      }
    }
  }

  lemma {:induction false} UnseenHasNoDocs(es: seq<Entry>, t: Tenant)
    ensures t !in FirstSeen(es) ==> DocsOf(es, t) == []
    decreases |es|
  {
    if es != [] && t !in FirstSeen(es) {
      UnseenHasNoDocs(NotOf(es, es[0].tenant), t);
      NotOfOthers(es, es[0].tenant, t);
    }
  }

  lemma AppendHolds(b: Batches, buf: seq<Entry>, e: Entry)
    requires Holds(b, buf)
    ensures Holds(Append(b, e), buf + [e])
  {
    FirstSeenAppend(buf, e);
    UnseenHasNoDocs(buf, e.tenant);
    forall t | t in Append(b, e).keys ensures Append(b, e).docs[t] == DocsOf(buf + [e], t) {
      DocsOfAppend(buf, e, t);
    }
  }

  lemma EmptyHolds(b: Batches, buf: seq<Entry>)
    requires Holds(b, buf)
    ensures b.keys == [] <==> buf == []
    ensures forall t :: t in b.keys ==> t in b.docs && b.docs[t] == DocsOf(buf, t)
  {
  }

  lemma EmptyIsEmpty()
    ensures Holds(EMPTY, [])
  {
  }

  /** Dropping the first tenant's list drops exactly that tenant's entries. */
  lemma TailHolds(b: Batches, buf: seq<Entry>)
    requires Holds(b, buf) && buf != []
    ensures b.keys != [] && b.keys[0] == buf[0].tenant && b.keys[0] !in b.keys[1..]
    ensures Holds(Batches(b.keys[1..], b.docs - {b.keys[0]}), NotOf(buf, buf[0].tenant))
  {
    var t := buf[0].tenant;
    var rest := NotOf(buf, t);
    assert b.keys == [t] + FirstSeen(rest);
    assert DocsOf(rest, t) == [] by { NotOfOthers(buf, t, t); }
    FirstSeenIsNew(rest, t);
    hide DocsOf, FirstSeen, NotOf;
    assert b.keys[1..] == FirstSeen(rest);
    forall u | u in b.keys[1..] ensures DocsOf(rest, u) == DocsOf(buf, u) {
      NotOfOthers(buf, t, u);
    }
  }

  lemma {:induction false} FirstSeenIsNew(es: seq<Entry>, t: Tenant)
    requires DocsOf(es, t) == []
    ensures t !in FirstSeen(es)
    decreases |es|
  {
    if es != [] {
      NotOfOthers(es, es[0].tenant, t);
      FirstSeenIsNew(NotOf(es, es[0].tenant), t);
    }
  }

  ghost function Total(keys: seq<Tenant>, docs: map<Tenant, seq<Doc>>): nat
    requires forall t :: t in keys ==> t in docs
  {
    if keys == [] then 0 else |docs[keys[0]]| + Total(keys[1..], docs)
  }

  lemma {:induction false} CountSplit(es: seq<Entry>, t: Tenant)
    ensures |DocsOf(es, t)| + |NotOf(es, t)| == |es|
  {
    if es != [] {
      CountSplit(es[1..], t);
    }
  }

  lemma {:induction false} TotalSame(keys: seq<Tenant>, docs: map<Tenant, seq<Doc>>, other: map<Tenant, seq<Doc>>)
    requires forall t :: t in keys ==> t in docs && t in other && docs[t] == other[t]
    ensures Total(keys, docs) == Total(keys, other)
  {
    if keys != [] {
      TotalSame(keys[1..], docs, other);
    }
  }

  /** The lengths in the dictionary add up to the number of buffered entries. */
  lemma {:induction false} TotalIsCount(b: Batches, buf: seq<Entry>)
    requires Holds(b, buf)
    ensures Total(b.keys, b.docs) == |buf|
    decreases |buf|
  {
    if buf != [] {
      TailHolds(b, buf);
      var rest := Batches(b.keys[1..], b.docs - {b.keys[0]});
      TotalIsCount(rest, NotOf(buf, buf[0].tenant));
      TotalSame(rest.keys, rest.docs, b.docs);
      CountSplit(buf, buf[0].tenant);
    }
  }

  lemma {:induction false} TotalStep(keys: seq<Tenant>, docs: map<Tenant, seq<Doc>>, k: nat)
    requires k < |keys| && forall t :: t in keys ==> t in docs
    ensures Total(keys[..k + 1], docs) == Total(keys[..k], docs) + |docs[keys[k]]|
  {
    if k > 0 {
      TotalStep(keys[1..], docs, k - 1);
      assert keys[..k + 1][1..] == keys[1..][..k] && keys[..k][1..] == keys[1..][..k - 1];
    }
  }

  /** sum(len(docs) for docs in buffer_by_tenant.values()) */
  method SumLengths(b: Batches, ghost buf: seq<Entry>) returns (n: nat)
    requires Holds(b, buf)
    ensures n == |buf|
  {
    n := 0;
    for k := 0 to |b.keys|
      invariant n == Total(b.keys[..k], b.docs)
    {
      TotalStep(b.keys, b.docs, k);
      n := n + |b.docs[b.keys[k]]|;
    }
    assert b.keys[..|b.keys|] == b.keys;
    TotalIsCount(b, buf);
  }

  function Tagged(t: Tenant, docs: seq<Doc>): seq<Entry> {
    if docs == [] then [] else [Entry(t, docs[0])] + Tagged(t, docs[1..])
  }

  lemma {:induction false} TaggedDocsAre(es: seq<Entry>, t: Tenant)
    ensures Tagged(t, DocsOf(es, t)) == Of(es, t)
  {
    if es != [] {
      TaggedDocsAre(es[1..], t);
    }
  }

  // ---------- the exporter ----------

  class MongoDBTraceExporter {
    const batchSize: int
    const capacity: nat
    var queue: seq<Entry>
    var stopEvent: bool
    var database: seq<Entry>
    var script: seq<seq<Action>>
    var threads: seq<Thread>
    var accepted: seq<Entry>
    var flushes: seq<Batch>
    ghost var trace: seq<Action>

    ghost function View(): State
      reads this
    {
      State(batchSize, capacity, queue, stopEvent, threads, accepted, database, flushes)
    }

    ghost predicate Valid()
      reads this
    {
      View() == RunFrom(Start(batchSize, capacity), trace)
    }

    /** How many entries have left the queue so far. */
    ghost function Taken(): int
      reads this
    {
      |accepted| - |queue|
    }

    /** The stop event is set, or some other thread will set it. */
    ghost predicate StopComing()
      reads this
    {
      stopEvent || exists k :: 0 <= k < |script| && Stop in script[k]
    }

    constructor (batchSize: int, capacity: nat, script: seq<seq<Action>>)
      ensures Valid() && trace == [] && this.batchSize == batchSize && this.capacity == capacity && this.script == script
      ensures threads == [Thread(Head, [])]
    {
      this.batchSize, this.capacity, this.script := batchSize, capacity, script;
      queue, stopEvent, database, accepted, flushes := [], false, [], [], [];
      threads := [Thread(Head, [])];
      trace := [];
    }

    ghost method Record(a: Action)
      modifies this`trace
      ensures trace == old(trace) + [a]
      ensures RunFrom(Start(batchSize, capacity), trace) == Step(RunFrom(Start(batchSize, capacity), old(trace)), a)
    {
      trace := trace + [a];
      assert trace[..|trace| - 1] == old(trace);
    }

    /** One action of another thread. */
    method Perform(a: Action)
      requires Valid()
      modifies this`queue, this`stopEvent, this`database, this`threads, this`accepted, this`flushes, this`trace
      ensures Valid() && trace == old(trace) + [a] && View() == Step(old(View()), a)
      ensures |threads| >= old(|threads|) && (old(stopEvent) ==> stopEvent)
      ensures old(accepted) <= accepted && Taken() >= old(Taken())
    {
      var after := Step(State(batchSize, capacity, queue, stopEvent, threads, accepted, database, flushes), a);
      queue, stopEvent, database := after.queue, after.stop, after.handed;
      threads, accepted, flushes := after.threads, after.accepted, after.flushes;
      Record(a);
      StepKeepsSizes(old(View()), a);
    }

    /** What the other threads do before the next step of thread `own`. */
    method Others(own: nat)
      requires Valid() && own < |threads|
      modifies this`queue, this`stopEvent, this`database, this`threads, this`accepted, this`flushes, this`trace, this`script
      ensures Valid() && old(trace) <= trace
      ensures own < |threads| && threads[own] == old(threads[own])
      ensures script == if old(script) == [] then [] else old(script)[1..]
      ensures old(script) == [] ==> View() == old(View())
      ensures old(StopComing()) ==> StopComing()
      ensures old(stopEvent) ==> stopEvent
      ensures |threads| >= old(|threads|) && old(accepted) <= accepted && Taken() >= old(Taken())
    {
      if script == [] {
        return;
      }
      var turn := script[0];
      script := script[1..];
      for k := 0 to |turn|
        invariant Valid() && old(trace) <= trace
        invariant own < |threads| && threads[own] == old(threads[own])
        invariant |threads| >= old(|threads|) && old(accepted) <= accepted && Taken() >= old(Taken())
        invariant script == old(script)[1..]
        invariant old(stopEvent) || Stop in turn[..k] ==> stopEvent
      {
        if turn[k] != Advance(own) {
          Perform(turn[k]);
        }
      }
      assert turn[..|turn|] == turn;
      if old(StopComing()) && !stopEvent {
        var k :| 0 <= k < |old(script)| && Stop in old(script)[k];
        assert k > 0;
        assert Stop in script[k - 1];
      }
    }

    /** What all the threads do while a caller only waits. */
    method Turn()
      requires Valid()
      modifies this`queue, this`stopEvent, this`database, this`threads, this`accepted, this`flushes, this`trace, this`script
      ensures Valid() && old(trace) <= trace && (old(stopEvent) ==> stopEvent)
      ensures |threads| >= old(|threads|) && old(accepted) <= accepted && Taken() >= old(Taken())
      ensures script == if old(script) == [] then [] else old(script)[1..]
    {
      hide Step, RunFrom;
      if script == [] {
        return;
      }
      var turn := script[0];
      script := script[1..];
      for k := 0 to |turn|
        invariant Valid() && old(trace) <= trace && (old(stopEvent) ==> stopEvent)
        invariant script == old(script)[1..]
        invariant |threads| >= old(|threads|) && old(accepted) <= accepted && Taken() >= old(Taken())
      {
        Perform(turn[k]);
      }
    }

    /** A step of thread `i` that touches neither the queue nor the database. */
    method Jump(i: nat)
      requires Valid() && i < |threads|
      requires var m := Move(batchSize, stopEvent, queue, threads[i]); m.queue == queue && m.inserted == []
      modifies this`threads, this`flushes, this`trace
      ensures Valid() && trace == old(trace) + [Advance(i)] && View() == Step(old(View()), Advance(i))
      ensures threads == old(threads)[i := Move(batchSize, stopEvent, queue, old(threads)[i]).thread]
    {
      hide RunFrom;
      var m := Move(batchSize, stopEvent, queue, threads[i]);
      if threads[i].pc == Filling && m.thread.pc == Flushing {
        flushes := flushes + [Batch(|threads[i].buf|, queue == [])];
      }
      threads := threads[i := m.thread];
      Record(Advance(i));
      assert database + [] == database;
    }

    /** queue.get_nowait() on a queue that is not empty. */
    method GetNowait(i: nat) returns (e: Entry)
      requires Valid() && i < |threads| && queue != []
      requires threads[i].pc in {Getting, Draining} || (threads[i].pc == Filling && |threads[i].buf| < batchSize)
      modifies this`queue, this`threads, this`trace
      ensures Valid() && trace == old(trace) + [Advance(i)] && |threads| == old(|threads|)
      ensures e == old(queue)[0] && queue == old(queue)[1..]
      ensures threads[i] == Thread(if old(threads[i]).pc == Getting then Filling else old(threads[i]).pc, old(threads[i]).buf + [e])
    {
      e := queue[0];
      var m := Move(batchSize, stopEvent, queue, threads[i]);
      queue := queue[1..];
      threads := threads[i := m.thread];
      Record(Advance(i));
      assert database + [] == database;
    }

    /** _db[tenant_id].insert_many(docs) */
    method InsertMany(i: nat, t: Tenant, docs: seq<Doc>)
      requires Valid() && i < |threads| && threads[i].pc in {Flushing, LastFlush}
      requires threads[i].buf != [] && t == threads[i].buf[0].tenant && docs == DocsOf(threads[i].buf, t)
      modifies this`database, this`threads, this`trace
      ensures Valid() && trace == old(trace) + [Advance(i)] && |threads| == old(|threads|)
      ensures threads[i] == Thread(old(threads[i]).pc, NotOf(old(threads[i]).buf, t))
      ensures database == old(database) + Tagged(t, docs)
    {
      hide RunFrom, Of, NotOf, DocsOf, Tagged;
      TaggedDocsAre(threads[i].buf, t);
      var m := Move(batchSize, stopEvent, queue, threads[i]);
      threads := threads[i := m.thread];
      database := database + Tagged(t, docs);
      Record(Advance(i));
    }

    /** Inserts the whole dictionary, one tenant after the other, whatever happens beside it. */
    method FlushToMongo(i: nat, batches: Batches)
      requires Valid() && i < |threads| && threads[i].pc in {Flushing, LastFlush} && Holds(batches, threads[i].buf)
      modifies this
      ensures Valid() && old(trace) <= trace && i < |threads|
      ensures threads[i] == Thread(old(threads[i]).pc, [])
      ensures |script| <= old(|script|) && (old(StopComing()) ==> StopComing()) && (old(stopEvent) ==> stopEvent)
      ensures |threads| >= old(|threads|) && old(accepted) <= accepted && Taken() >= old(Taken())
    {
      hide RunFrom, FirstSeen, NotOf, DocsOf, Step, Holds;
      ghost var left := batches;
      EmptyHolds(batches, threads[i].buf);
      for k := 0 to |batches.keys|
        invariant Valid() && old(trace) <= trace && i < |threads| && threads[i].pc == old(threads[i]).pc
        invariant left.keys == batches.keys[k..] && Holds(left, threads[i].buf)
        invariant forall t :: t in left.keys ==> t in left.docs && t in batches.docs && left.docs[t] == batches.docs[t]
        invariant |script| <= old(|script|) && (old(StopComing()) ==> StopComing()) && (old(stopEvent) ==> stopEvent)
        invariant |threads| >= old(|threads|) && old(accepted) <= accepted && Taken() >= old(Taken())
      {
        Others(i);
        var t := batches.keys[k];
        EmptyHolds(left, threads[i].buf);
        TailHolds(left, threads[i].buf);
        InsertMany(i, t, batches.docs[t]);
        left := Batches(left.keys[1..], left.docs - {t});
      }
      EmptyHolds(left, threads[i].buf);
    }

    /** Drains the queue and inserts what was drained, then the thread is done. */
    method FlushRemaining(i: nat)
      requires Valid() && i < |threads| && threads[i] == Thread(Draining, [])
      modifies this
      ensures Valid() && old(trace) <= trace && i < |threads| && threads[i] == Thread(Done, [])
      ensures |threads| >= old(|threads|) && old(accepted) <= accepted && Taken() >= |old(accepted)| && (old(stopEvent) ==> stopEvent)
      ensures |script| <= old(|script|)
    {
      hide RunFrom, Step, FirstSeen, NotOf, DocsOf, Holds;
      var batches := EMPTY;
      EmptyIsEmpty();
      Others(i);
      while queue != []
        invariant Valid() && old(trace) <= trace && i < |threads|
        invariant threads[i].pc == Draining && Holds(batches, threads[i].buf)
        invariant |threads| >= old(|threads|) && old(accepted) <= accepted && (old(stopEvent) ==> stopEvent) && |script| <= old(|script|)
        decreases |script|, |queue|
      {
        ghost var before := threads[i].buf;
        var e := GetNowait(i);
        AppendHolds(batches, before, e);
        batches := Append(batches, e);
        Others(i);
      }
      Jump(i);
      FlushToMongo(i, batches);
      Others(i);
      Jump(i);
    }

    /** Fills one batch: a first entry is there, more are taken while the batch is short. */
    method CollectBatch() returns (batches: Batches)
      requires Valid() && |threads| > WORKER && threads[WORKER] == Thread(Getting, []) && queue != [] && StopComing()
      modifies this
      ensures Valid() && old(trace) <= trace && |threads| > WORKER && StopComing() && |script| <= old(|script|)
      ensures threads[WORKER].pc == Flushing && Holds(batches, threads[WORKER].buf)
    {
      hide RunFrom, FirstSeen, NotOf, DocsOf, Holds, Step;
      EmptyIsEmpty();
      var e := GetNowait(WORKER);
      AppendHolds(EMPTY, [], e);
      batches := Append(EMPTY, e);
      var n := SumLengths(batches, threads[WORKER].buf);
      while n < batchSize && queue != []
        invariant Valid() && old(trace) <= trace && |threads| > WORKER && StopComing() && |script| <= old(|script|)
        invariant threads[WORKER].pc == Filling && Holds(batches, threads[WORKER].buf) && n == |threads[WORKER].buf|
        decreases batchSize - n
      {
        ghost var before := threads[WORKER].buf;
        e := GetNowait(WORKER);
        AppendHolds(batches, before, e);
        batches := Append(batches, e);
        n := SumLengths(batches, threads[WORKER].buf);
        Others(WORKER);
      }
      Jump(WORKER);
    }

    /** One turn of the worker's loop: a blocking get that may time out, a batch, its flush. */
    method Pass()
      requires Valid() && |threads| > WORKER && threads[WORKER] == Thread(Head, []) && StopComing() && !stopEvent
      modifies this
      ensures Valid() && old(trace) <= trace && |threads| > WORKER && threads[WORKER] == Thread(Head, []) && StopComing()
      ensures |script| < old(|script|)
    {
      hide RunFrom, Holds, Step;
      Jump(WORKER);
      Others(WORKER);
      if queue == [] {
        Jump(WORKER);
      } else {
        var batches := CollectBatch();
        FlushToMongo(WORKER, batches);
        Jump(WORKER);
      }
    }

    /** The worker thread, from its start until it ends after the stop event. */
    method Run()
      requires Valid() && |threads| > WORKER && threads[WORKER] == Thread(Head, []) && StopComing()
      modifies this
      ensures Valid() && old(trace) <= trace && |threads| > WORKER && threads[WORKER] == Thread(Done, []) && stopEvent
    {
      hide RunFrom, Step;
      Others(WORKER);
      while !stopEvent
        invariant Valid() && old(trace) <= trace && |threads| > WORKER && threads[WORKER] == Thread(Head, []) && StopComing()
        decreases |script|
      {
        Pass();
        Others(WORKER);
      }
      Jump(WORKER);
      FlushRemaining(WORKER);
    }

    /** queue.put_nowait(entry) on a queue that is not full. */
    method PutNowait(e: Entry)
      requires Valid() && !(capacity > 0 && |queue| >= capacity)
      modifies this`queue, this`accepted, this`trace
      ensures Valid() && trace == old(trace) + [Action.Export(e)]
      ensures queue == old(queue) + [e] && accepted == old(accepted) + [e]
    {
      hide RunFrom;
      queue := queue + [e];
      accepted := accepted + [e];
      Record(Action.Export(e));
    }

    /** Puts the spans' documents on the queue one by one; a full queue ends the call. */
    method Export(spans: seq<Entry>) returns (ok: bool)
      requires Valid()
      modifies this`queue, this`accepted, this`trace
      ensures Valid() && old(trace) <= trace
      ensures ok ==> accepted == old(accepted) + spans && queue == old(queue) + spans
      ensures !ok ==>
                capacity > 0 && |queue| >= capacity && exists k :: 0 <= k < |spans| && accepted == old(accepted) + spans[..k] && queue == old(queue) + spans[..k]
    {
      hide RunFrom, Step;
      for k := 0 to |spans|
        invariant Valid() && old(trace) <= trace
        invariant accepted == old(accepted) + spans[..k] && queue == old(queue) + spans[..k]
      {
        if capacity > 0 && |queue| >= capacity {
          return false;
        }
        assert spans[..k + 1] == spans[..k] + [spans[k]];
        PutNowait(spans[k]);
      }
      assert spans[..|spans|] == spans;
      return true;
    }

    /** Waits while the queue empties, for at most `polls` rounds of the other threads, then
        drains it here, in a flush of its own. Whatever was queued at the call has then been inserted or is in some
        other thread's hands; with nothing exported meanwhile the queue is empty. */
    method ForceFlush(polls: nat) returns (f: nat, ghost before: nat)
      requires Valid()
      modifies this
      ensures Valid() && old(|threads|) <= f < |threads| && threads[f] == Thread(Done, [])
      ensures before < |trace| && old(trace) <= trace[..before] && trace[before] == StartFlush
      ensures f == |RunFrom(Start(batchSize, capacity), trace[..before]).threads|
      ensures old(accepted) <= accepted && |queue| <= |accepted| - |old(accepted)|
      ensures queue == accepted[|accepted| - |queue|..]
      ensures multiset(old(accepted)) <= multiset(database) + Held(threads)
      ensures accepted == old(accepted) ==> queue == []
      ensures || RunFrom(Start(batchSize, capacity), trace[..before]).queue == []
              || script == [] || |script| <= old(|script|) - polls
    {
      hide RunFrom, Step;
      var waited := 0;
      while queue != [] && waited < polls
        invariant waited <= polls && (script == [] || |script| == old(|script|) - waited)
        invariant Valid() && old(trace) <= trace
        invariant |threads| >= old(|threads|) && old(accepted) <= accepted && Taken() >= old(Taken())
        decreases polls - waited
      {
        Turn();
        waited := waited + 1;
      }
      assert queue == RunFrom(Start(batchSize, capacity), trace).queue;
      f, before := Drain(old(accepted));
    }

    /** _flush_remaining in a thread of its own, from its start to its end. */
    method Drain(ghost earlier: seq<Entry>) returns (f: nat, ghost before: nat)
      requires Valid() && earlier <= accepted
      modifies this
      ensures Valid() && f == old(|threads|) < |threads| && threads[f] == Thread(Done, []) && (old(stopEvent) ==> stopEvent)
      ensures |script| <= old(|script|)
      ensures before < |trace| && trace[..before] == old(trace) && trace[before] == StartFlush
      ensures f == |RunFrom(Start(batchSize, capacity), trace[..before]).threads|
      ensures old(accepted) <= accepted && |queue| <= |accepted| - |old(accepted)|
      ensures queue == accepted[|accepted| - |queue|..]
      ensures multiset(earlier) <= multiset(database) + Held(threads)
      ensures NoExport(trace[before + 1..]) && (forall i :: 0 <= i < |threads| ==> threads[i].pc == Done) ==>
                queue == [] && multiset(database) == multiset(accepted)
    {
      hide RunFrom, Step;
      before := |trace|;
      ghost var at := trace;
      assert |threads| == |RunFrom(Start(batchSize, capacity), at).threads|;
      f := BeginFlush();
      FlushRemaining(f);
      assert trace[..before] == at;
      TakenAreHanded(batchSize, capacity, trace, |earlier|);
      assert earlier == accepted[..|earlier|];
      assert trace == at + [StartFlush] + trace[before + 1..];
      if NoExport(trace[before + 1..]) && forall i :: 0 <= i < |threads| ==> threads[i].pc == Done {
        ShutdownHandsOverAll(batchSize, capacity, at, trace[before + 1..]);
      }
    }

    method BeginFlush() returns (f: nat)
      requires Valid()
      modifies this`threads, this`trace
      ensures Valid() && trace == old(trace) + [StartFlush] && View() == Step(old(View()), StartFlush)
      ensures f == old(|threads|) < |threads| && threads[f] == Thread(Draining, [])
    {
      f := |threads|;
      threads := threads + [Thread(Draining, [])];
      Record(StartFlush);
    }

    method SetStop()
      requires Valid()
      modifies this`stopEvent, this`trace
      ensures Valid() && stopEvent && trace == old(trace) + [Stop]
    {
      hide RunFrom;
      stopEvent := true;
      Record(Stop);
    }

    /** Sets the stop event, gives the worker `joinTurns` turns to end, then drains here.
        When every thread is through and nothing was exported since, all that was ever accepted
        has been handed over. */
    method Shutdown(joinTurns: nat) returns (f: nat, ghost before: nat)
      requires Valid() && |threads| > WORKER
      modifies this
      ensures Valid() && stopEvent && old(|threads|) <= f < |threads| && threads[f] == Thread(Done, [])
      ensures before < |trace| && old(trace) + [Stop] <= trace[..before] && trace[before] == StartFlush
      ensures old(accepted) <= accepted && |queue| <= |accepted| - |old(accepted)|
      ensures multiset(old(accepted)) <= multiset(database) + Held(threads)
      ensures NoExport(trace[before + 1..]) && (forall i :: 0 <= i < |threads| ==> threads[i].pc == Done) ==>
                queue == [] && multiset(database) == multiset(accepted)
      ensures var atFlush := RunFrom(Start(batchSize, capacity), trace[..before]);
              (|atFlush.threads| > WORKER && atFlush.threads[WORKER].pc == Done) || script == [] || |script| <= old(|script|) - joinTurns
    {
      hide RunFrom, Step;
      SetStop();
      var waited := 0;
      while waited < joinTurns && !(|threads| > WORKER && threads[WORKER].pc == Done)
        invariant waited <= joinTurns && (script == [] || |script| == old(|script|) - waited)
        invariant Valid() && old(trace) + [Stop] <= trace && stopEvent
        invariant |threads| >= old(|threads|) && old(accepted) <= accepted && Taken() >= old(Taken())
        decreases joinTurns - waited
      {
        Turn();
        waited := waited + 1;
      }
      assert threads == RunFrom(Start(batchSize, capacity), trace).threads;
      f, before := Drain(old(accepted));
    }
  }

  lemma StepKeepsSizes(s: State, a: Action)
    ensures Step(s, a).batchSize == s.batchSize && Step(s, a).capacity == s.capacity && |Step(s, a).threads| >= |s.threads|
    ensures s.stop ==> Step(s, a).stop
    ensures s.accepted <= Step(s, a).accepted && |Step(s, a).accepted| - |Step(s, a).queue| >= |s.accepted| - |s.queue|
  {
  }
}
