/**
 What callers of the token provider are told, over whole runs and whatever is invalidated or
 swept meanwhile: who gets which token, who gets none, what stays cached, and in which order
 those who queue are served.
 */
module TokenAnswers {
  import opened Options
  import opened Sequences
  import opened AsyncLocks
  import opened TokenCache
  import TokenBurst

  // ---------- an exchange answers its own call ----------

  /** Step `k` ends the exchange of a call on `g` with this outcome. */
  ghost predicate EndsAt(actions: seq<Action>, k: nat, c: CallId, g: Grant, outcome: Option<Token>)
    requires k < |actions|
  {
    actions[k] == Finish(c, outcome) && InExchange(StateAt(actions, k).rt, c, g)
  }

  function TextOf(outcome: Option<Token>): Option<string> {
    match outcome
    case None => None
    case Some(token) => Some(token.accessToken)
  }

  lemma AnsweredStays(rt: Runtime, a: Action, c: CallId)
    requires TableOk(rt) && c in rt.calls && rt.calls[c].phase.Returned?
    ensures c in Next(rt, a).calls && Next(rt, a).calls[c] == rt.calls[c]
  {
    hide Counted, Lookup, Enter;
  }

  lemma {:induction false} AnsweredStaysOver(actions: seq<Action>, k: nat, n: nat, c: CallId)
    requires k <= n <= |actions| && c in StateAt(actions, k).rt.calls && StateAt(actions, k).rt.calls[c].phase.Returned?
    ensures c in StateAt(actions, n).rt.calls && StateAt(actions, n).rt.calls[c] == StateAt(actions, k).rt.calls[c]
    decreases n
  {
    hide Next, Observe;
    if k < n {
      AnsweredStaysOver(actions, k, n - 1, c);
      AnsweredStays(StateAt(actions, n - 1).rt, actions[n - 1], c);
    }
  }

  lemma FinishAnswers(rt: Runtime, c: CallId, g: Grant, outcome: Option<Token>)
    requires LocksOk(rt) && InExchange(rt, c, g)
    ensures var after := Next(rt, Finish(c, outcome));
            && c in after.calls && after.calls[c] == Call(g, Returned(TextOf(outcome)))
            && (outcome.Some? ==> g in after.tokens && after.tokens[g] == outcome.value)
  {
  }

  /** Whatever was invalidated or swept while a call exchanged, its caller is told what the
      exchange brought: the token's text, or nothing. */
  lemma ExchangeAnswersItsCall(actions: seq<Action>, k: nat, n: nat, c: CallId, g: Grant, outcome: Option<Token>)
    requires k < n <= |actions| && EndsAt(actions, k, c, g, outcome)
    ensures c in StateAt(actions, n).rt.calls && StateAt(actions, n).rt.calls[c] == Call(g, Returned(TextOf(outcome)))
  {
    hide Next, StateAt, HoldersOk, WaitersOk;
    ReachableLocks(actions, k);
    FinishAnswers(StateAt(actions, k).rt, c, g, outcome);
    OneStep(actions, k);
    AnsweredStaysOver(actions, k + 1, n, c);
  }

  // ---------- where answers come from ----------

  /** Some exchange of `g` before step `n` ended with this token. */
  ghost predicate WasExchanged(actions: seq<Action>, n: nat, g: Grant, token: Token)
    requires n <= |actions|
  {
    exists k, c :: 0 <= k < n && EndsAt(actions, k, c, g, Some(token))
  }

  ghost predicate AnswerOk(actions: seq<Action>, n: nat, c: CallId, call: Call)
    requires n <= |actions|
  {
    match call.phase
    case Returned(Some(text)) => exists token: Token :: token.accessToken == text && WasExchanged(actions, n, call.grant, token)
    case Returned(None) => exists k :: 0 <= k < n && EndsAt(actions, k, c, call.grant, None)
    case Cancelled => exists k :: 0 <= k < n && actions[k] == Cancel(c)
    case _ => true
  }

  /** A step's new answers and new cache entries, and where it has them from. */
  lemma NewAnswers(rt: Runtime, a: Action, c: CallId)
    requires LocksOk(rt) && c in Next(rt, a).calls && Next(rt, a).calls[c].phase.Returned?
    requires c in rt.calls ==> rt.calls[c] != Next(rt, a).calls[c]
    ensures var call := Next(rt, a).calls[c];
            || (a.Finish? && a.c == c && InExchange(rt, c, call.grant) && call.phase.token == TextOf(a.outcome))
            || (&& (a.Begin? || a.Resume?) && a.c == c
                && call.grant in rt.tokens && call.phase.token == Some(rt.tokens[call.grant].accessToken)
                && (a.recheckNow < rt.tokens[call.grant].expiresAt - 60.0 || (a.Begin? && a.now < rt.tokens[call.grant].expiresAt - 60.0)))
  {
    if a.Begin? && Enabled(rt, a) {
      CountedKeeps(rt, a.sweepNow);
      NewAnswerOfLookup(Counted(rt, a.sweepNow), a);
      hide Lookup, HoldersOk, WaitersOk;
    } else {
      hide WaitersOk, Lookup, Counted;
    }
  }

  lemma NewAnswerOfLookup(rt: Runtime, a: Action)
    requires TableOk(rt) && a.Begin?
    ensures var call := Lookup(rt, a.c, a.grant, a.now, a.recheckNow).calls[a.c];
            call.phase.Returned? ==>
              && a.grant in rt.tokens && call.phase.token == Some(rt.tokens[a.grant].accessToken)
              && (a.recheckNow < rt.tokens[a.grant].expiresAt - 60.0 || a.now < rt.tokens[a.grant].expiresAt - 60.0)
  {
  }

  ghost predicate AnswersOk(actions: seq<Action>, n: nat)
    requires n <= |actions|
  {
    && (forall c :: c in StateAt(actions, n).rt.calls ==> AnswerOk(actions, n, c, StateAt(actions, n).rt.calls[c]))
    && (forall g :: g in StateAt(actions, n).rt.tokens ==> WasExchanged(actions, n, g, StateAt(actions, n).rt.tokens[g]))
  }

  lemma AnswerStaysOk(actions: seq<Action>, n: nat, c: CallId, call: Call)
    requires n < |actions| && AnswerOk(actions, n, c, call)
    ensures AnswerOk(actions, n + 1, c, call)
  {
    if call.phase.Returned? && call.phase.token.Some? {
      var token: Token :| token.accessToken == call.phase.token.value && WasExchanged(actions, n, call.grant, token);
      ExchangedStays(actions, n, call.grant, token);
    }
  }

  lemma ExchangedStays(actions: seq<Action>, n: nat, g: Grant, token: Token)
    requires n < |actions| && WasExchanged(actions, n, g, token)
    ensures WasExchanged(actions, n + 1, g, token)
  {
    var k, c :| 0 <= k < n && EndsAt(actions, k, c, g, Some(token));
  }

  /** What a step puts in the cache comes from an exchange that it ends. */
  lemma NewToken(rt: Runtime, a: Action, g: Grant)
    requires LocksOk(rt) && g in Next(rt, a).tokens
    ensures || (g in rt.tokens && Next(rt, a).tokens[g] == rt.tokens[g])
            || (a.Finish? && InExchange(rt, a.c, g) && a.outcome == Some(Next(rt, a).tokens[g]))
  {
    hide HoldersOk, WaitersOk;
  }

  lemma TokenStepOk(actions: seq<Action>, n: nat, g: Grant)
    requires n < |actions| && AnswersOk(actions, n) && g in StateAt(actions, n + 1).rt.tokens
    ensures WasExchanged(actions, n + 1, g, StateAt(actions, n + 1).rt.tokens[g])
  {
    hide Next, StateAt, HoldersOk, WaitersOk, AnswerOk;
    OneStep(actions, n);
    ReachableLocks(actions, n);
    var rt, a := StateAt(actions, n).rt, actions[n];
    NewToken(rt, a, g);
    if a.Finish? && InExchange(rt, a.c, g) && a.outcome == Some(Next(rt, a).tokens[g]) {
      assert EndsAt(actions, n, a.c, g, a.outcome);
    } else {
      ExchangedStays(actions, n, g, rt.tokens[g]);
    }
  }

  lemma CallStepOk(actions: seq<Action>, n: nat, c: CallId)
    requires n < |actions| && AnswersOk(actions, n) && c in StateAt(actions, n + 1).rt.calls
    ensures AnswerOk(actions, n + 1, c, StateAt(actions, n + 1).rt.calls[c])
  {
    hide Next, StateAt, HoldersOk, WaitersOk;
    OneStep(actions, n);
    ReachableLocks(actions, n);
    var rt, a := StateAt(actions, n).rt, actions[n];
    var call := Next(rt, a).calls[c];
    if c in rt.calls && rt.calls[c] == call {
      AnswerStaysOk(actions, n, c, call);
    } else if call.phase.Returned? {
      NewAnswers(rt, a, c);
      if a.Finish? && InExchange(rt, c, call.grant) {
        assert EndsAt(actions, n, c, call.grant, a.outcome);
        if a.outcome.Some? {
          assert WasExchanged(actions, n + 1, call.grant, a.outcome.value);
        }
      } else {
        ExchangedStays(actions, n, call.grant, rt.tokens[call.grant]);
      }
    } else if call.phase.Cancelled? {
      OnlyCancelCancels(rt, a, c);
    }
  }

  lemma OnlyCancelCancels(rt: Runtime, a: Action, c: CallId)
    requires LocksOk(rt) && c in Next(rt, a).calls && Next(rt, a).calls[c].phase.Cancelled?
    requires c in rt.calls ==> rt.calls[c] != Next(rt, a).calls[c]
    ensures a == Cancel(c)
  {
    hide HoldersOk, WaitersOk;
  }

  /** In every run a call that was told a token was told one that an exchange of its own grant
      brought, and so was the cache; a call that was told nothing had its own exchange fail, and one that ended without an
      answer was cancelled. */
  lemma {:induction false} AnswersComeFromExchanges(actions: seq<Action>, n: nat)
    requires n <= |actions|
    ensures AnswersOk(actions, n)
  {
    hide StateAt, AnswersOk;
    if n == 0 {
      NoAnswersAtStart(actions);
    } else {
      AnswersComeFromExchanges(actions, n - 1);
      AnswersStepOk(actions, n - 1);
    }
  }

  lemma NoAnswersAtStart(actions: seq<Action>)
    ensures AnswersOk(actions, 0)
  {
    StartsAt(actions);
    hide StateAt;
  }

  lemma AnswersStepOk(actions: seq<Action>, n: nat)
    requires n < |actions| && AnswersOk(actions, n)
    ensures AnswersOk(actions, n + 1)
  {
    hide StateAt, AnswerOk, WasExchanged;
    var after := StateAt(actions, n + 1).rt;
    forall c | c in after.calls ensures AnswerOk(actions, n + 1, c, after.calls[c]) {
      hide AnswersOk;
      CallStepOk(actions, n, c);
    }
    forall g | g in after.tokens ensures WasExchanged(actions, n + 1, g, after.tokens[g]) {
      hide AnswersOk;
      TokenStepOk(actions, n, g);
    }
  }

  /** A call answered from the cache was given a token that at that moment had more than the
      margin of 60 seconds left. */
  lemma CachedAnswersAreUsable(actions: seq<Action>, n: nat, c: CallId)
    requires n < |actions| && !actions[n].Finish?
    requires c in StateAt(actions, n + 1).rt.calls && StateAt(actions, n + 1).rt.calls[c].phase.Returned?
    requires c in StateAt(actions, n).rt.calls ==> !StateAt(actions, n).rt.calls[c].phase.Returned?
    ensures var rt, a, call := StateAt(actions, n).rt, actions[n], StateAt(actions, n + 1).rt.calls[c];
            && (a.Begin? || a.Resume?) && call.grant in rt.tokens
            && call.phase.token == Some(rt.tokens[call.grant].accessToken)
            && (a.recheckNow < rt.tokens[call.grant].expiresAt - 60.0 || (a.Begin? && a.now < rt.tokens[call.grant].expiresAt - 60.0))
  {
    hide Next, StateAt, HoldersOk, WaitersOk;
    OneStep(actions, n);
    ReachableLocks(actions, n);
    NewAnswers(StateAt(actions, n).rt, actions[n], c);
  }

  // ---------- what stays cached ----------

  /** The step neither invalidates the grant nor ends an exchange of it, and finds the token
      usable wherever it compares it with the clock. */
  ghost predicate Spares(rt: Runtime, a: Action, g: Grant, token: Token) {
    && a != Invalidate(g)
    && (a.Finish? ==> !InExchange(rt, a.c, g))
    && (a.Begin? ==> a.sweepNow < token.expiresAt - 60.0)
    && TokenBurst.UsableWhenRead(token, rt, a, g)
  }

  lemma SparedStays(rt: Runtime, a: Action, g: Grant, token: Token)
    requires LocksOk(rt) && g in rt.tokens && rt.tokens[g] == token && Spares(rt, a, g, token)
    ensures g in Next(rt, a).tokens && Next(rt, a).tokens[g] == token
  {
    hide HoldersOk, WaitersOk;
    if a.Begin? && Enabled(rt, a) {
      TokenBurst.BeginWon(rt, a, g);
      hide Next;
    } else {
      hide Counted, Lookup;
    }
  }

  lemma {:induction false} SparedStaysOver(actions: seq<Action>, k: nat, n: nat, g: Grant, token: Token)
    requires k <= n <= |actions| && g in StateAt(actions, k).rt.tokens && StateAt(actions, k).rt.tokens[g] == token
    requires forall i :: k <= i < n ==> Spares(StateAt(actions, i).rt, actions[i], g, token)
    ensures g in StateAt(actions, n).rt.tokens && StateAt(actions, n).rt.tokens[g] == token
    decreases n
  {
    hide Next, StateAt, HoldersOk, WaitersOk, Spares;
    if k < n {
      SparedStaysOver(actions, k, n - 1, g, token);
      ReachableLocks(actions, n - 1);
      OneStep(actions, n - 1);
      SparedStays(StateAt(actions, n - 1).rt, actions[n - 1], g, token);
    }
  }

  /** A token once won is what every later caller is told at once, whatever was invalidated or
      swept before it came, until the grant is invalidated, exchanged again, or the token is
      found within 60 seconds of its end. */
  lemma WonTokenIsServed(actions: seq<Action>, k: nat, n: nat, c: CallId, d: CallId, g: Grant, token: Token)
    requires k < n < |actions| && EndsAt(actions, k, c, g, Some(token))
    requires forall i :: k < i <= n ==> Spares(StateAt(actions, i).rt, actions[i], g, token)
    requires actions[n].Begin? && actions[n].c == d && actions[n].grant == g && g != "" && d !in StateAt(actions, n).rt.calls
    ensures d in StateAt(actions, n + 1).rt.calls
    ensures StateAt(actions, n + 1).rt.calls[d] == Call(g, Returned(Some(token.accessToken)))
  {
    hide Next, StateAt, HoldersOk, WaitersOk, Spares;
    ReachableLocks(actions, k);
    FinishAnswers(StateAt(actions, k).rt, c, g, Some(token));
    OneStep(actions, k);
    SparedStaysOver(actions, k + 1, n, g, token);
    OneStep(actions, n);
    SparedBegin(StateAt(actions, n).rt, actions[n], g, token);
  }

  lemma SparedBegin(rt: Runtime, a: Action, g: Grant, token: Token)
    requires TableOk(rt) && g in rt.tokens && rt.tokens[g] == token && Spares(rt, a, g, token)
    requires a.Begin? && a.grant == g && g != "" && a.c !in rt.calls
    ensures a.c in Next(rt, a).calls && Next(rt, a).calls[a.c] == Call(g, Returned(Some(token.accessToken)))
  {
    TokenBurst.BeginWon(rt, a, g);
    hide Next;
  }

  // ---------- the sweep ----------

  lemma {:induction false} CallsAreCounted(actions: seq<Action>, n: nat)
    requires n <= |actions|
    ensures StateAt(actions, n).rt.callCount == |StateAt(actions, n).rt.calls|
  {
    hide Next, Observe, StateAt;
    if n == 0 {
      assert StateAt(actions, 0) == START by { StartsAt(actions); }
    } else {
      CallsAreCounted(actions, n - 1);
      OneStep(actions, n - 1);
      CountStep(StateAt(actions, n - 1).rt, actions[n - 1]);
    }
  }

  lemma StartsAt(actions: seq<Action>)
    ensures StateAt(actions, 0) == START
  {
  }

  lemma CountStep(rt: Runtime, a: Action)
    requires TableOk(rt) && rt.callCount == |rt.calls|
    ensures Next(rt, a).callCount == |Next(rt, a).calls|
  {
    var after := Next(rt, a);
    GrantsFixed(rt, a);
    CountMoves(rt, a);
    hide Next;
    var begun := after.calls.Keys - rt.calls.Keys;
    assert |after.calls| == |after.calls.Keys| && |rt.calls| == |rt.calls.Keys|;
    assert after.calls.Keys == rt.calls.Keys + begun;
  }

  lemma CountMoves(rt: Runtime, a: Action)
    requires TableOk(rt)
    ensures if a.Begin? && Enabled(rt, a) then Next(rt, a).callCount == rt.callCount + 1 && Next(rt, a).calls.Keys - rt.calls.Keys == {a.c}
            else Next(rt, a).callCount == rt.callCount && Next(rt, a).calls.Keys - rt.calls.Keys == {}
  {
  }

  /** The lock entry of `g` would go in a sweep at this moment. */
  ghost predicate Sweepable(rt: Runtime, g: Grant, now: real)
    requires g in rt.table && rt.table[g] < |rt.locks|
  {
    g in rt.tokens && now >= rt.tokens[g].expiresAt - 60.0 && rt.locks[rt.table[g]].holder.None?
  }

  /** What a call does to the grants other than its own: nothing, unless it is a 64th one. */
  ghost predicate OthersSwept(rt: Runtime, after: Runtime, sweeps: bool, now: real, h: Grant)
    requires TableOk(rt)
  {
    && (h in after.tokens <==> h in rt.tokens && !(sweeps && now >= rt.tokens[h].expiresAt - 60.0))
    && (h in after.tokens ==> after.tokens[h] == rt.tokens[h])
    && (h in after.table <==> h in rt.table && !(sweeps && Sweepable(rt, h, now)))
    && (h in after.table ==> after.table[h] == rt.table[h])
  }

  lemma SweepStep(rt: Runtime, a: Action, h: Grant)
    requires TableOk(rt) && a.Begin? && Enabled(rt, a)
    ensures h != a.grant ==> OthersSwept(rt, Next(rt, a), (rt.callCount + 1) % 64 == 0, a.sweepNow, h)
    ensures (rt.callCount + 1) % 64 == 0 && h in Next(rt, a).tokens ==> a.sweepNow < Next(rt, a).tokens[h].expiresAt - 60.0
  {
    var counted := Counted(rt, a.sweepNow);
    assert h in counted.tokens <==> h in rt.tokens && !((rt.callCount + 1) % 64 == 0 && a.sweepNow >= rt.tokens[h].expiresAt - 60.0);
    assert h in counted.table <==> h in rt.table && !((rt.callCount + 1) % 64 == 0 && Sweepable(rt, h, a.sweepNow));
    LookupElsewhere(counted, a, h);
    hide Counted, Lookup, Sweepable;
  }

  lemma LookupElsewhere(rt: Runtime, a: Action, h: Grant)
    requires TableOk(rt) && a.Begin?
    ensures var after := Lookup(rt, a.c, a.grant, a.now, a.recheckNow);
            && (h in after.tokens ==> h in rt.tokens && after.tokens[h] == rt.tokens[h])
            && (h != a.grant ==>
                  && (h in after.tokens <==> h in rt.tokens)
                  && (h in after.table <==> h in rt.table) && (h in rt.table ==> after.table[h] == rt.table[h]))
  {
  }

  /** Every 64th call sweeps, and no other: it leaves no token within 60 seconds of its end,
      spares every other one, and takes with a token exactly a lock that nobody holds. */
  lemma Every64thCallSweeps(actions: seq<Action>, n: nat, h: Grant)
    requires n < |actions| && actions[n].Begin? && actions[n].c !in StateAt(actions, n).rt.calls && actions[n].grant != ""
    ensures var rt, after, a := StateAt(actions, n).rt, StateAt(actions, n + 1).rt, actions[n];
            var sweeps := (|rt.calls| + 1) % 64 == 0;
            && (h != a.grant ==> OthersSwept(rt, after, sweeps, a.sweepNow, h))
            && (sweeps && h in after.tokens ==> a.sweepNow < after.tokens[h].expiresAt - 60.0)
  {
    hide Next, StateAt, OthersSwept;
    OneStep(actions, n);
    CallsAreCounted(actions, n);
    SweepStep(StateAt(actions, n).rt, actions[n], h);
  }

  // ---------- the queue ----------

  /** At some moment up to `n` call `c` had begun and `d` had not. */
  ghost predicate CameBefore(actions: seq<Action>, n: nat, c: CallId, d: CallId)
    requires n <= |actions|
  {
    exists k :: 0 <= k <= n && c in StateAt(actions, k).rt.calls && d !in StateAt(actions, k).rt.calls
  }

  ghost predicate InOrder(actions: seq<Action>, n: nat, rt: Runtime)
    requires n <= |actions|
  {
    forall l, c, d :: 0 <= l < |rt.locks| && Precedes(rt.locks[l].waiters, c, d) ==> CameBefore(actions, n, c, d)
  }

  lemma QueueStep(rt: Runtime, a: Action, l: LockId, c: CallId, d: CallId)
    requires LocksOk(rt) && l < |Next(rt, a).locks| && Precedes(Next(rt, a).locks[l].waiters, c, d)
    ensures (c in rt.calls && d !in rt.calls) || (l < |rt.locks| && Precedes(rt.locks[l].waiters, c, d))
  {
    var ws := Next(rt, a).locks[l].waiters;
    var i, j :| 0 <= i < j < |ws| && ws[i] == c && ws[j] == d;
    if !Enabled(rt, a) {
    } else if a.Begin? {
      QueueBegin(rt, a, l, i, j);
    } else if a.Resume? && l == rt.calls[a.c].phase.lock {
      assert rt.locks[l].waiters[i + 1] == c && rt.locks[l].waiters[j + 1] == d;
    } else if a.Cancel? && l == rt.calls[a.c].phase.lock && rt.calls[a.c].phase.Waiting? {
      WithoutKeepsOrder(rt.locks[l].waiters, a.c, c, d);
    } else {
      assert l < |rt.locks| && rt.locks[l].waiters == ws;
    }
  }

  lemma QueueBegin(rt: Runtime, a: Action, l: LockId, i: nat, j: nat)
    requires LocksOk(rt) && a.Begin? && Enabled(rt, a)
    requires l < |Next(rt, a).locks| && i < j < |Next(rt, a).locks[l].waiters|
    ensures var ws := Next(rt, a).locks[l].waiters;
            || (ws[i] in rt.calls && ws[j] !in rt.calls)
            || (l < |rt.locks| && Precedes(rt.locks[l].waiters, ws[i], ws[j]))
  {
    var ws := Next(rt, a).locks[l].waiters;
    assert l < |rt.locks| && (ws == rt.locks[l].waiters || ws == rt.locks[l].waiters + [a.c]) by {
      LookupQueues(Counted(rt, a.sweepNow), a, l);
    }
    hide Next, HoldersOk;
    var queue := rt.locks[l].waiters;
    assert queue[i] == ws[i];
    if j < |queue| {
      assert queue[j] == ws[j];
    } else {
      assert ws[i] in queue && ws[j] == a.c;
    }
  }

  lemma LookupQueues(rt: Runtime, a: Action, l: LockId)
    requires TableOk(rt) && a.Begin? && l < |Lookup(rt, a.c, a.grant, a.now, a.recheckNow).locks|
    ensures var ws := Lookup(rt, a.c, a.grant, a.now, a.recheckNow).locks[l].waiters;
            if l < |rt.locks| then ws == rt.locks[l].waiters || ws == rt.locks[l].waiters + [a.c] else ws == []
  {
  }

  /** Those who queue for a lock stand in the order in which they came, so the head waiter,
      the only one that may resume, is the one that has waited longest. */
  lemma {:induction false} QueueIsFair(actions: seq<Action>, n: nat)
    requires n <= |actions|
    ensures InOrder(actions, n, StateAt(actions, n).rt)
  {
    hide Next, StateAt, HoldersOk, WaitersOk, CameBefore, Precedes;
    if n == 0 {
      StartsAt(actions);
    } else {
      QueueIsFair(actions, n - 1);
      ReachableLocks(actions, n - 1);
      OneStep(actions, n - 1);
      var rt, after := StateAt(actions, n - 1).rt, StateAt(actions, n).rt;
      forall l, c, d | 0 <= l < |after.locks| && Precedes(after.locks[l].waiters, c, d) ensures CameBefore(actions, n, c, d) {
        QueueStep(rt, actions[n - 1], l, c, d);
        CameBeforeStep(actions, n - 1, c, d);
      }
    }
  }

  lemma CameBeforeStep(actions: seq<Action>, n: nat, c: CallId, d: CallId)
    requires n < |actions|
    requires CameBefore(actions, n, c, d) || (c in StateAt(actions, n).rt.calls && d !in StateAt(actions, n).rt.calls)
    ensures CameBefore(actions, n + 1, c, d)
  {
    hide StateAt;
  }
}
