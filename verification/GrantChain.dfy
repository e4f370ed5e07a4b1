/**
 Delegation grants over whole runs: which records a send writes, from validated claims in an
 API request or from the grant a worker holds, and what a chain of such sends preserves.
 A send is two actions, because other tasks run between its read of the held grant and its
 write of the new one.
 */
module GrantChain {
  import opened Options
  import opened Signature

  type Id = string
  type TaskId = nat

  const DEFAULT_GRANT_TTL_SECONDS: int := 2 * 24 * 60 * 60

  datatype Record = Record(
    tenantId: string, userId: string, organizationId: string, tokenVersion: string,
    securityStamp: string, clientId: string, impersonationSessionId: string, originalTenantId: string)
  {
    predicate IsClientGrant() { userId == "" && clientId != "" }
  }

  datatype Context = Context(
    tenantId: string, userId: string, organizationId: string, clientId: string, isAuthenticated: bool,
    impersonated: bool, impersonationSessionId: string, originalTenantId: string)

  /** The claims of a validated token, as far as a send reads them. */
  datatype Claims = Claims(
    userId: Option<string>, clientId: Option<string>, tokenVersion: Option<string>, securityStamp: Option<string>)

  datatype Stored = Stored(record: Record, expiresAt: int)

  type Store = map<Id, Stored>

  predicate Truthy(s: Option<string>) {
    s.Some? && s.value != ""
  }

  // ---------- the store ----------

  predicate Live(store: Store, id: Id, now: int) {
    id in store && now < store[id].expiresAt
  }

  /** A malformed id is absent without a look at the store. */
  function Get(store: Store, id: Option<Id>, now: int): Option<Record> {
    if IsWellFormed(id) && Live(store, id.value, now) then Some(store[id.value].record) else None
  }

  function Lifetime(ttl: Option<int>): int {
    if ttl.Some? && ttl.value > 0 then ttl.value else DEFAULT_GRANT_TTL_SECONDS
  }

  // ---------- what a send decides ----------

  /** Where a grant's authority comes from: the grant the worker held, or validated claims. */
  datatype Origin = Held(parent: Id) | Claimed(claims: Claims)

  datatype Grant = Grant(record: Record, origin: Origin)

  datatype Decision = NoGrant | Raise | Issue(grant: Grant)

  function UserRecord(ctx: Context, tokenVersion: string, securityStamp: string): Record {
    Record(ctx.tenantId, ctx.userId, ctx.organizationId, tokenVersion, securityStamp, "",
           if ctx.impersonated then ctx.impersonationSessionId else "",
           if ctx.impersonated then ctx.originalTenantId else "")
  }

  function ClientRecord(tenantId: string, clientId: string, organizationId: string): Record {
    Record(tenantId, "", organizationId, "", "", clientId, "", "")
  }

  function VersionMaterial(claims: Option<Claims>): (Option<string>, Option<string>) {
    match claims
    case None => (None, None)
    case Some(c) => (c.tokenVersion, c.securityStamp)
  }

  /** The held grant, unless it belongs to another tenant. */
  function ReadHeld(store: Store, held: Option<Id>, tenantId: string, now: int): Option<Record> {
    match Get(store, held, now)
    case None => None
    case Some(r) => if r.tenantId == tenantId then Some(r) else None
  }

  function PlanForUser(store: Store, now: int, ctx: Context, claims: Option<Claims>, held: Option<Id>, readOk: bool): Decision {
    var (version, stamp) := VersionMaterial(claims);
    if Truthy(version) || Truthy(stamp) then
      if Truthy(version) && Truthy(stamp) then Issue(Grant(UserRecord(ctx, version.value, stamp.value), Claimed(claims.value)))
      else NoGrant
    else if IsWellFormed(held) && !readOk then Raise
    else
      match ReadHeld(store, held, ctx.tenantId, now)
      case None => NoGrant
      case Some(r) =>
        if r.IsClientGrant() || r.userId != ctx.userId || r.organizationId != ctx.organizationId
           || r.tokenVersion == "" || r.securityStamp == ""
        then NoGrant
        else Issue(Grant(UserRecord(ctx, r.tokenVersion, r.securityStamp), Held(held.value)))
  }

  function PlanForClient(store: Store, now: int, ctx: Context, claims: Option<Claims>, held: Option<Id>, readOk: bool): Decision {
    if claims.Some? && !Truthy(claims.value.userId) && Truthy(claims.value.clientId) then
      Issue(Grant(ClientRecord(ctx.tenantId, claims.value.clientId.value, ctx.organizationId), Claimed(claims.value)))
    else if IsWellFormed(held) && !readOk then Raise
    else
      match ReadHeld(store, held, ctx.tenantId, now)
      case None => NoGrant
      case Some(r) =>
        if !r.IsClientGrant() || r.clientId != ctx.clientId then NoGrant
        else Issue(Grant(ClientRecord(ctx.tenantId, r.clientId, r.organizationId), Held(held.value)))
  }

  function PlanSend(store: Store, now: int, ctx: Option<Context>, claims: Option<Claims>, held: Option<Id>, readOk: bool): Decision {
    if ctx.None? || !ctx.value.isAuthenticated || ctx.value.tenantId == "" then NoGrant
    else if ctx.value.userId != "" then PlanForUser(store, now, ctx.value, claims, held, readOk)
    else if ctx.value.clientId != "" then PlanForClient(store, now, ctx.value, claims, held, readOk)
    else NoGrant
  }

  // ---------- the machine ----------

  datatype Action =
    | Tick(seconds: nat)
    | Plan(task: TaskId, ctx: Option<Context>, claims: Option<Claims>, held: Option<Id>, readOk: bool)
    | Write(task: TaskId, random: seq<Byte>, ttl: Option<int>, writeOk: bool)
    | Delete(id: Option<Id>, deleteOk: bool)

  /** `log` keeps every grant ever written, whether or not it is still stored. */
  datatype State = State(now: int, store: Store, pending: map<TaskId, Grant>, log: map<Id, Grant>)

  const START := State(0, map[], map[], map[])

  predicate Enabled(s: State, a: Action) {
    match a
    case Tick(_) => true
    case Plan(task, _, _, _, _) => task !in s.pending
    case Write(task, random, _, _) =>
      task in s.pending && |random| == GRANT_ID_RANDOM_BYTES && NewGrantId(random) !in s.log
    case Delete(_, _) => true
  }

  function Step(s: State, a: Action): State {
    if !Enabled(s, a) then s else
    match a
    case Tick(seconds) => s.(now := s.now + seconds)
    case Plan(task, ctx, claims, held, readOk) =>
      var d := PlanSend(s.store, s.now, ctx, claims, held, readOk);
      if d.Issue? then s.(pending := s.pending[task := d.grant]) else s
    case Write(task, random, ttl, writeOk) =>
      var g, left := s.pending[task], s.(pending := s.pending - {task});
      if writeOk then
        left.(store := s.store[NewGrantId(random) := Stored(g.record, s.now + Lifetime(ttl))],
              log := s.log[NewGrantId(random) := g])
      else left
    case Delete(id, deleteOk) =>
      if IsWellFormed(id) && deleteOk then s.(store := s.store - {id.value}) else s
  }

  function RunFrom(s: State, actions: seq<Action>): State
    decreases |actions|
  {
    if actions == [] then s
    else Step(RunFrom(s, actions[..|actions| - 1]), actions[|actions| - 1])
  }

  // ---------- what every run keeps ----------

  /** What IAM trusts a grant for. */
  datatype Subject =
    | User(tenantId: string, userId: string, organizationId: string, tokenVersion: string, securityStamp: string)
    | Client(tenantId: string, clientId: string, organizationId: string)

  function SubjectOf(r: Record): Subject {
    if r.userId != "" then User(r.tenantId, r.userId, r.organizationId, r.tokenVersion, r.securityStamp)
    else Client(r.tenantId, r.clientId, r.organizationId)
  }

  /** A record names one kind of subject, completely, and nothing of the other kind. */
  predicate OneSubject(r: Record) {
    && r.tenantId != ""
    && ((r.userId != "" && r.tokenVersion != "" && r.securityStamp != "" && r.clientId == "")
        || (r.clientId != "" && r.userId == "" && r.tokenVersion == "" && r.securityStamp == ""))
  }

  /** The claims that stand behind a record written without a held grant. */
  predicate Vouches(claims: Claims, r: Record) {
    if r.userId != "" then claims.tokenVersion == Some(r.tokenVersion) && claims.securityStamp == Some(r.securityStamp)
    else claims.clientId == Some(r.clientId) && !Truthy(claims.userId)
  }

  ghost predicate GrantOk(log: map<Id, Grant>, g: Grant) {
    && OneSubject(g.record)
    && match g.origin
       case Held(parent) => parent in log && SubjectOf(g.record) == SubjectOf(log[parent].record)
       case Claimed(claims) => Vouches(claims, g.record)
  }

  ghost predicate Inv(s: State) {
    && (forall id :: id in s.store ==> id in s.log && s.store[id].record == s.log[id].record)
    && (forall id :: id in s.log ==> GrantOk(s.log, s.log[id]))
    && (forall t :: t in s.pending ==> GrantOk(s.log, s.pending[t]))
  }

  /** A planned record names one subject, which is that of the live held grant it comes from,
      or is vouched for by the claims. */
  lemma PlannedGrants(store: Store, now: int, ctx: Option<Context>, claims: Option<Claims>, held: Option<Id>, readOk: bool)
    requires forall id :: id in store ==> OneSubject(store[id].record)
    ensures var d := PlanSend(store, now, ctx, claims, held, readOk);
            d.Issue? ==>
              && OneSubject(d.grant.record)
              && match d.grant.origin
                 case Held(parent) => held == Some(parent) && IsWellFormed(held) && Live(store, parent, now)
                                      && SubjectOf(d.grant.record) == SubjectOf(store[parent].record)
                 case Claimed(c) => claims == Some(c) && Vouches(c, d.grant.record)
  {
    hide IsWellFormed;
  }

  lemma GrantStaysOk(log: map<Id, Grant>, more: map<Id, Grant>, g: Grant)
    requires GrantOk(log, g) && forall id :: id in log ==> id in more && more[id] == log[id]
    ensures GrantOk(more, g)
  {
  }

  /** The log only grows, by grants planned before. */
  ghost predicate LogExtends(s: State, t: State) {
    && (forall id :: id in s.log ==> id in t.log && t.log[id] == s.log[id])
    && (forall id :: id in t.log && id !in s.log ==> exists task :: task in s.pending && t.log[id] == s.pending[task])
  }

  lemma StepExtendsLog(s: State, a: Action)
    ensures LogExtends(s, Step(s, a))
  {
    hide PlanSend, IsWellFormed, NewGrantId;
  }

  lemma StepKeepsStore(s: State, a: Action)
    requires forall id :: id in s.store ==> id in s.log && s.store[id].record == s.log[id].record
    ensures var t := Step(s, a); forall id :: id in t.store ==> id in t.log && t.store[id].record == t.log[id].record
  {
    hide PlanSend, IsWellFormed, NewGrantId;
  }

  lemma StepKeepsPending(s: State, a: Action)
    requires Inv(s)
    ensures forall t :: t in Step(s, a).pending ==> GrantOk(s.log, Step(s, a).pending[t])
  {
    if a.Plan? {
      assert forall id :: id in s.store ==> GrantOk(s.log, s.log[id]);
      PlannedGrants(s.store, s.now, a.ctx, a.claims, a.held, a.readOk);
    }
    hide PlanSend, IsWellFormed, NewGrantId, OneSubject, Vouches, SubjectOf;
  }

  lemma StepKeepsInv(s: State, a: Action)
    requires Inv(s)
    ensures Inv(Step(s, a)) && LogExtends(s, Step(s, a))
  {
    var t := Step(s, a);
    StepExtendsLog(s, a);
    StepKeepsStore(s, a);
    StepKeepsPending(s, a);
    hide Step, GrantOk;
    forall id | id in t.log ensures GrantOk(t.log, t.log[id]) {
      GrantStaysOk(s.log, t.log, t.log[id]);
    }
    forall task | task in t.pending ensures GrantOk(t.log, t.pending[task]) {
      GrantStaysOk(s.log, t.log, t.pending[task]);
    }
  }

  lemma {:induction false} Reachable(actions: seq<Action>)
    ensures Inv(RunFrom(START, actions))
  {
    if actions != [] {
      Reachable(actions[..|actions| - 1]);
      StepKeepsInv(RunFrom(START, actions[..|actions| - 1]), actions[|actions| - 1]);
    }
  }

  /** Each grant of the path was carried forward from the one before it. */
  ghost predicate IsChain(log: map<Id, Grant>, path: seq<Id>) {
    && path != []
    && (forall i :: 0 <= i < |path| ==> path[i] in log)
    && (forall i :: 0 < i < |path| ==> log[path[i]].origin == Held(path[i - 1]))
  }

  lemma {:induction false} ChainSubject(log: map<Id, Grant>, path: seq<Id>)
    requires IsChain(log, path) && forall id :: id in log ==> GrantOk(log, log[id])
    ensures SubjectOf(log[path[|path| - 1]].record) == SubjectOf(log[path[0]].record)
  {
    hide SubjectOf, OneSubject, Vouches;
    if |path| > 1 {
      ChainSubject(log, path[..|path| - 1]);
      assert GrantOk(log, log[path[|path| - 1]]);
    }
  }

  /** However long a chain of worker sends is, and whatever contexts its messages carried, its
      last grant names the subject of its first: the same tenant, organization and user with
      the same version and stamp, or the same tenant, organization and client. */
  lemma ChainKeepsSubject(actions: seq<Action>, path: seq<Id>)
    requires IsChain(RunFrom(START, actions).log, path)
    ensures var log := RunFrom(START, actions).log;
            SubjectOf(log[path[|path| - 1]].record) == SubjectOf(log[path[0]].record)
  {
    Reachable(actions);
    ChainSubject(RunFrom(START, actions).log, path);
  }

  /** Every record ever written names exactly one kind of subject. */
  lemma WrittenRecordsNameOneSubject(actions: seq<Action>, id: Id)
    requires id in RunFrom(START, actions).log
    ensures OneSubject(RunFrom(START, actions).log[id].record)
  {
    Reachable(actions);
    assert GrantOk(RunFrom(START, actions).log, RunFrom(START, actions).log[id]);
  }

  /** A send without validated claims writes a record only for the subject of the live grant
      it holds: a message context alone never obtains one. */
  lemma WorkerSendNeedsHeldGrant(store: Store, now: int, ctx: Option<Context>, held: Option<Id>, readOk: bool)
    requires forall id :: id in store ==> OneSubject(store[id].record)
    ensures var d := PlanSend(store, now, ctx, None, held, readOk);
            d.Issue? ==> IsWellFormed(held) && Live(store, held.value, now) && d.grant.origin == Held(held.value)
                         && SubjectOf(d.grant.record) == SubjectOf(store[held.value].record)
  {
    PlannedGrants(store, now, ctx, None, held, readOk);
  }

  /** The other direction: a worker whose context names the subject of the live grant it holds
      can chain it. */
  lemma WorkerSendChains(store: Store, now: int, ctx: Context, held: Id)
    requires IsWellFormed(Some(held)) && Live(store, held, now) && OneSubject(store[held].record)
    requires var r := store[held].record;
             && ctx.isAuthenticated && ctx.tenantId == r.tenantId
             && if r.userId != "" then ctx.userId == r.userId && ctx.organizationId == r.organizationId
                else ctx.userId == "" && ctx.clientId == r.clientId
    ensures var d := PlanSend(store, now, Some(ctx), None, Some(held), true);
            d.Issue? && SubjectOf(d.grant.record) == SubjectOf(store[held].record)
  {
  }

  /** Authority has a source: behind every grant of every run stands one with the same subject
      that was written under validated claims carrying that subject's credentials. */
  lemma {:induction false} EveryGrantIsVouchedFor(actions: seq<Action>, id: Id)
    requires id in RunFrom(START, actions).log
    ensures var log := RunFrom(START, actions).log;
            exists root :: root in log && log[root].origin.Claimed? && Vouches(log[root].origin.claims, log[root].record)
                           && SubjectOf(log[root].record) == SubjectOf(log[id].record)
    decreases |actions|
  {
    hide SubjectOf, OneSubject, Vouches, Step;
    if actions != [] {
      var before, a := RunFrom(START, actions[..|actions| - 1]), actions[|actions| - 1];
      Reachable(actions[..|actions| - 1]);
      StepKeepsInv(before, a);
      var log := Step(before, a).log;
      if id in before.log {
        EveryGrantIsVouchedFor(actions[..|actions| - 1], id);
      } else if log[id].origin.Held? {
        EveryGrantIsVouchedFor(actions[..|actions| - 1], log[id].origin.parent);
      }
    }
  }

  /** The record follows the context: its tenant, its user and a user's organization are the
      context's, and it names an impersonation session only while the context impersonates. */
  lemma RecordFollowsContext(store: Store, now: int, ctx: Context, claims: Option<Claims>, held: Option<Id>, readOk: bool)
    requires PlanSend(store, now, Some(ctx), claims, held, readOk).Issue?
    ensures var r := PlanSend(store, now, Some(ctx), claims, held, readOk).grant.record;
            && r.tenantId == ctx.tenantId && r.userId == ctx.userId
            && (r.userId != "" ==> r.organizationId == ctx.organizationId)
            && (r.impersonationSessionId != "" ==> ctx.impersonated && r.impersonationSessionId == ctx.impersonationSessionId)
            && (r.originalTenantId != "" ==> ctx.impersonated && r.originalTenantId == ctx.originalTenantId)
  {
  }

  // ---------- when a send obtains a grant, and which ----------

  /** The validated claims carry both credentials of a user. */
  predicate ClaimsVouchForUser(claims: Option<Claims>) {
    claims.Some? && |TextOf(claims.value.tokenVersion)| > 0 && |TextOf(claims.value.securityStamp)| > 0
  }

  /** The validated claims carry neither. */
  predicate ClaimsSayNothing(claims: Option<Claims>) {
    claims.Some? ==> TextOf(claims.value.tokenVersion) == "" && TextOf(claims.value.securityStamp) == ""
  }

  /** The validated claims are those of a client, and of no user. */
  predicate ClaimsVouchForClient(claims: Option<Claims>) {
    claims.Some? && TextOf(claims.value.userId) == "" && |TextOf(claims.value.clientId)| > 0
  }

  function TextOf(claim: Option<string>): string {
    match claim
    case None => ""
    case Some(text) => text
  }

  /** A grant is held and can be read: well formed, stored and not expired. */
  predicate Readable(store: Store, now: int, held: Option<Id>, readOk: bool) {
    IsWellFormed(held) && readOk && held.value in store && now < store[held.value].expiresAt
  }

  lemma ReadableIsRead(store: Store, now: int, held: Option<Id>, readOk: bool)
    ensures Readable(store, now, held, readOk) <==> readOk && Get(store, held, now).Some?
    ensures Readable(store, now, held, readOk) ==> Get(store, held, now) == Some(store[held.value].record)
    ensures IsWellFormed(held) ==> held.Some?
  {
  }

  /** A user's send obtains a grant if and only if the claims carry both credentials, or neither
      and the held grant is the same tenant's, user's and organization's with both in it. The
      record is the context's user in full: with the credentials of the claims or the held
      grant, no client, and the impersonation of a context that impersonates. */
  lemma UserSendObtainsIff(store: Store, now: int, ctx: Context, claims: Option<Claims>, held: Option<Id>, readOk: bool)
    requires ctx.isAuthenticated && ctx.tenantId != "" && ctx.userId != ""
    ensures PlanSend(store, now, Some(ctx), claims, held, readOk).Issue? <==>
              || ClaimsVouchForUser(claims)
              || (&& ClaimsSayNothing(claims) && Readable(store, now, held, readOk)
                  && var r := store[held.value].record;
                  && r.tenantId == ctx.tenantId && r.userId == ctx.userId && r.organizationId == ctx.organizationId
                  && r.tokenVersion != "" && r.securityStamp != "")
    ensures var d := PlanSend(store, now, Some(ctx), claims, held, readOk);
            && (d.Issue? ==>
                  var r := d.grant.record;
                  && r.tenantId == ctx.tenantId && r.userId == ctx.userId && r.organizationId == ctx.organizationId && r.clientId == ""
                  && r.impersonationSessionId == (if ctx.impersonated then ctx.impersonationSessionId else "")
                  && r.originalTenantId == (if ctx.impersonated then ctx.originalTenantId else "")
                  && if ClaimsVouchForUser(claims) then
                       && d.grant.origin == Claimed(claims.value)
                       && Some(r.tokenVersion) == claims.value.tokenVersion && Some(r.securityStamp) == claims.value.securityStamp
                     else
                       && d.grant.origin == Held(held.value)
                       && r.tokenVersion == store[held.value].record.tokenVersion
                       && r.securityStamp == store[held.value].record.securityStamp)
  {
    ReadableIsRead(store, now, held, readOk);
  }

  /** A client's send obtains a grant if and only if the claims are a client's, or the held
      grant is one of the same tenant's for the client of the context. The record names that
      client and nothing of a user, with the context's or the held grant's organization. */
  lemma ClientSendObtainsIff(store: Store, now: int, ctx: Context, claims: Option<Claims>, held: Option<Id>, readOk: bool)
    requires ctx.isAuthenticated && ctx.tenantId != "" && ctx.userId == "" && ctx.clientId != ""
    ensures PlanSend(store, now, Some(ctx), claims, held, readOk).Issue? <==>
              || ClaimsVouchForClient(claims)
              || (&& Readable(store, now, held, readOk)
                  && var r := store[held.value].record;
                  r.tenantId == ctx.tenantId && r.userId == "" && r.clientId == ctx.clientId)
    ensures var d := PlanSend(store, now, Some(ctx), claims, held, readOk);
            && (d.Issue? ==>
                  var r := d.grant.record;
                  && r.tenantId == ctx.tenantId && r.userId == "" && r.tokenVersion == "" && r.securityStamp == ""
                  && r.impersonationSessionId == "" && r.originalTenantId == ""
                  && if ClaimsVouchForClient(claims) then
                       d.grant.origin == Claimed(claims.value) && Some(r.clientId) == claims.value.clientId && r.organizationId == ctx.organizationId
                     else
                       && d.grant.origin == Held(held.value) && r.clientId == ctx.clientId
                       && r.organizationId == store[held.value].record.organizationId)
  {
    ReadableIsRead(store, now, held, readOk);
  }

  /** Nobody else's send obtains one, or raises. */
  lemma OthersObtainNothing(store: Store, now: int, ctx: Option<Context>, claims: Option<Claims>, held: Option<Id>, readOk: bool)
    requires ctx.None? || !ctx.value.isAuthenticated || ctx.value.tenantId == "" || (ctx.value.userId == "" && ctx.value.clientId == "")
    ensures PlanSend(store, now, ctx, claims, held, readOk) == NoGrant
  {
  }

  /** A planned send that writes is the only thing that stores a grant, and it stores exactly
      the planned record; a removal takes exactly one away. */
  lemma StoreChanges(s: State, a: Action, id: Id)
    requires Enabled(s, a)
    ensures var t := Step(s, a);
            match a
            case Write(task, random, ttl, true) =>
              id in t.store <==> id in s.store || id == NewGrantId(random)
            case Delete(Some(gone), true) => id in t.store <==> id in s.store && !(id == gone && IsWellFormed(Some(gone)))
            case _ => id in t.store <==> id in s.store
    ensures id in Step(s, a).store && !(a.Write? && id == NewGrantId(a.random)) ==> Step(s, a).store[id] == s.store[id]
  {
    hide PlanSend, IsWellFormed, NewGrantId;
  }

  /** A written record reads back until its lifetime has passed, and not after: the stated
      one when it is positive, else two days. */
  lemma {:induction false} ReadsUntilExpiry(s: State, task: TaskId, random: seq<Byte>, ttl: Option<int>, ticks: seq<nat>)
    requires Enabled(s, Write(task, random, ttl, true))
    ensures var id := NewGrantId(random);
            var t := RunFrom(Step(s, Write(task, random, ttl, true)), seq(|ticks|, i requires 0 <= i < |ticks| => Tick(ticks[i])));
            && t.now == s.now + Sum(ticks)
            && t.store == Step(s, Write(task, random, ttl, true)).store
            && Get(t.store, Some(id), t.now) ==
                 if Sum(ticks) < (if ttl.Some? && ttl.value > 0 then ttl.value else 172800) then Some(s.pending[task].record) else None
    decreases |ticks|
  {
    hide IsWellFormed, NewGrantId;
    WellFormedIffGenerated(NewGrantId(random));
    var actions := seq(|ticks|, i requires 0 <= i < |ticks| => Tick(ticks[i]));
    if ticks != [] {
      var front := ticks[..|ticks| - 1];
      ReadsUntilExpiry(s, task, random, ttl, front);
      assert actions[..|actions| - 1] == seq(|front|, i requires 0 <= i < |front| => Tick(front[i]));
    }
  }

  function Sum(ticks: seq<nat>): nat {
    if ticks == [] then 0 else Sum(ticks[..|ticks| - 1]) + ticks[|ticks| - 1]
  }

  /** A send raises only because the store could not be read, which the factory does not
      catch: exactly when it needs the held grant, has a well-formed one, and the read fails. */
  lemma SendRaisesIff(store: Store, now: int, ctx: Option<Context>, claims: Option<Claims>, held: Option<Id>, readOk: bool)
    ensures PlanSend(store, now, ctx, claims, held, readOk).Raise? <==>
              && ctx.Some? && ctx.value.isAuthenticated && ctx.value.tenantId != ""
              && IsWellFormed(held) && !readOk
              && if ctx.value.userId != "" then ClaimsSayNothing(claims)
                 else ctx.value.clientId != "" && !ClaimsVouchForClient(claims)
  {
  }
}
