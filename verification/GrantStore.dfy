/**
 `DelegationGrantStore` and `DelegationGrantFactory` acting on the shared store in place.
 Each method is a stretch of code between two awaits and extends `trace` by the matching
 action of the machine in `GrantChain`; between a send's read and its write other tasks may
 call any of them. `pending` holds the sends that are suspended there, `log` the grants
 written so far.
 */
module GrantStore {
  import opened Options
  import opened Signature
  import opened GrantChain

  class DelegationGrants {
    var now: int
    var entries: Store
    var pending: map<TaskId, Grant>
    var log: map<Id, Grant>
    ghost var trace: seq<Action>

    ghost function View(): State
      reads this
    {
      State(now, entries, pending, log)
    }

    ghost predicate Valid()
      reads this
    {
      View() == RunFrom(START, trace)
    }

    constructor ()
      ensures Valid() && trace == [] && entries == map[]
    {
      now, entries, pending, log, trace := 0, map[], map[], map[], [];
    }

    ghost method Record(a: Action)
      requires View() == Step(RunFrom(START, trace), a)
      modifies this`trace
      ensures Valid() && trace == old(trace) + [a]
    {
      trace := trace + [a];
      assert trace[..|trace| - 1] == old(trace);
    }

    /** The write of a planned record, with the lifetime in the same command. */
    method WriteAsync(task: TaskId, random: seq<Byte>, ttl: Option<int>, writeOk: bool) returns (id: Option<Id>)
      requires Valid() && Enabled(View(), Write(task, random, ttl, writeOk))
      modifies this`entries, this`pending, this`log, this`trace
      ensures Valid() && trace == old(trace) + [Write(task, random, ttl, writeOk)]
      ensures id == if writeOk then Some(NewGrantId(random)) else None
      ensures writeOk ==> Get(entries, id, now) == Some(old(pending)[task].record)
      ensures forall k :: Some(k) != id ==> (k in entries <==> k in old(entries)) && (k in entries ==> entries[k] == old(entries)[k])
    {
      hide PlanSend, IsWellFormed;
      var g := pending[task];
      pending := pending - {task};
      id := None;
      if writeOk {
        var delegationId := NewGrantId(random);
        var lifetime := if ttl.Some? && ttl.value > 0 then ttl.value else DEFAULT_GRANT_TTL_SECONDS;
        entries := entries[delegationId := Stored(g.record, now + lifetime)];
        log := log[delegationId := g];
        id := Some(delegationId);
        WellFormedIffGenerated(delegationId);
      }
      Record(Write(task, random, ttl, writeOk));
    }

    /** Best-effort removal; a malformed id is ignored and a failing removal is swallowed. */
    method DeleteAsync(id: Option<Id>, deleteOk: bool)
      requires Valid()
      modifies this`entries, this`trace
      ensures Valid() && trace == old(trace) + [Delete(id, deleteOk)]
      ensures entries == if IsWellFormed(id) && deleteOk then old(entries) - {id.value} else old(entries)
    {
      if IsWellFormed(id) && deleteOk {
        entries := entries - {id.value};
      }
      Record(Delete(id, deleteOk));
    }

    method GetAsync(id: Option<Id>) returns (r: Option<Record>)
      ensures r == Get(entries, id, now)
    {
      if !IsWellFormed(id) {
        return None;
      }
      if id.value !in entries || now >= entries[id.value].expiresAt {
        return None;
      }
      return Some(entries[id.value].record);
    }

    method Elapse(seconds: nat)
      requires Valid()
      modifies this`now, this`trace
      ensures Valid() && now == old(now) + seconds && entries == old(entries)
    {
      now := now + seconds;
      Record(Tick(seconds));
    }

    /** create_for_send_async up to its write: the guards, the claims, the held grant.
        `raised` reports a store read that failed. */
    method CreateForSendAsync(task: TaskId, ctx: Option<Context>, claims: Option<Claims>, held: Option<Id>, readOk: bool)
      returns (planned: bool, raised: bool)
      requires Valid() && task !in pending
      modifies this`pending, this`trace
      ensures Valid() && trace == old(trace) + [Plan(task, ctx, claims, held, readOk)]
      ensures planned <==> PlanSend(entries, now, ctx, claims, held, readOk).Issue?
      ensures raised <==> PlanSend(entries, now, ctx, claims, held, readOk).Raise?
      ensures pending == if planned then old(pending)[task := PlanSend(entries, now, ctx, claims, held, readOk).grant] else old(pending)
    {
      planned, raised := false, false;
      if ctx.None? || !ctx.value.isAuthenticated || ctx.value.tenantId == "" {
      } else if ctx.value.userId != "" {
        planned, raised := CreateForUser(task, ctx.value, claims, held, readOk);
      } else if ctx.value.clientId != "" {
        planned, raised := CreateForClient(task, ctx.value, claims, held, readOk);
      }
      Record(Plan(task, ctx, claims, held, readOk));
    }

    method CreateForUser(task: TaskId, ctx: Context, claims: Option<Claims>, held: Option<Id>, readOk: bool)
      returns (planned: bool, raised: bool)
      modifies this`pending
      ensures var d := PlanForUser(entries, now, ctx, claims, held, readOk);
              && planned == d.Issue? && raised == d.Raise?
              && pending == if planned then old(pending)[task := d.grant] else old(pending)
    {
      planned, raised := false, false;
      var version, stamp := None, None;
      if claims.Some? {
        version, stamp := claims.value.tokenVersion, claims.value.securityStamp;
      }
      if Truthy(version) || Truthy(stamp) {
        if Truthy(version) && Truthy(stamp) {
          planned := true;
          pending := pending[task := Grant(UserRecord(ctx, version.value, stamp.value), Claimed(claims.value))];
        }
        return;
      }
      if IsWellFormed(held) && !readOk {
        raised := true;
        return;
      }
      var r := GetAsync(held);
      if r.None? || r.value.tenantId != ctx.tenantId || r.value.IsClientGrant() {
        return;
      }
      if r.value.userId != ctx.userId || r.value.organizationId != ctx.organizationId {
        return;
      }
      if r.value.tokenVersion != "" && r.value.securityStamp != "" {
        planned := true;
        pending := pending[task := Grant(UserRecord(ctx, r.value.tokenVersion, r.value.securityStamp), Held(held.value))];
      }
    }

    method CreateForClient(task: TaskId, ctx: Context, claims: Option<Claims>, held: Option<Id>, readOk: bool)
      returns (planned: bool, raised: bool)
      modifies this`pending
      ensures var d := PlanForClient(entries, now, ctx, claims, held, readOk);
              && planned == d.Issue? && raised == d.Raise?
              && pending == if planned then old(pending)[task := d.grant] else old(pending)
    {
      planned, raised := false, false;
      if claims.Some? && !Truthy(claims.value.userId) && Truthy(claims.value.clientId) {
        planned := true;
        pending := pending[task := Grant(ClientRecord(ctx.tenantId, claims.value.clientId.value, ctx.organizationId), Claimed(claims.value))];
        return;
      }
      if IsWellFormed(held) && !readOk {
        raised := true;
        return;
      }
      var r := GetAsync(held);
      if r.None? || r.value.tenantId != ctx.tenantId || !r.value.IsClientGrant() || r.value.clientId != ctx.clientId {
        return;
      }
      planned := true;
      pending := pending[task := Grant(ClientRecord(ctx.tenantId, r.value.clientId, r.value.organizationId), Held(held.value))];
    }
  }
}
