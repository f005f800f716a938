/**
 * The service's transactions as methods that rewrite the tables in place. Each is proved to be the
 * corresponding function of Catalog or Leasing, and each keeps the invariant of reachable stores.
 */
module Database {
  import opened Types
  import opened Ranks
  import opened Catalog
  import opened CatalogContracts
  import opened Leasing
  import opened Lifecycle
  import opened Invariants
  import opened Draining
  import opened LeaseContracts

  /** Part-way through a batch, the next selected lease is untouched and still overdue. */
  lemma NextIsDue(s: Store, now: Time, limit: nat, ids: seq<Id>, i: nat)
    requires ids == SweepIds(s, now, limit) && i < |ids|
    ensures
      var t, l := ExpireAll(s, ids[..i]), ids[i];
      && l in s.leases && l in t.leases && t.leases[l] == s.leases[l] && DueAt(t.leases[l], now)
      && ExpireAll(s, ids[..i + 1]) == ExpireLease(t, l)
  {
    SweepTakesDue(s, now, limit);
    assert ids[..i + 1] == ids[..i] + [ids[i]] && ids[i] !in ids[..i];
    ExpireNext(s, ids[..i], ids[i]);
  }

  lemma NoneExpired(s: Store)
    ensures ExpireAll(s, []) == s
  {
    assert ExpireAll(s, []).leases == s.leases && ExpireAll(s, []).audit == s.audit;
  }

  /** One round of the worker's loop: it ends, or continues with fewer leases to end. */
  lemma WorkerRound(s: Store, at: nat -> Time, i: nat, batch: nat)
    requires batch >= 1 && Rising(at)
    ensures
      var (t, n) := ExpireBatch(s, at(i), batch);
      if n == 0 then DrainAlong(s, at, i, batch) == (t, i)
      else
        && |Unended(t)| < |Unended(s)| && at(i) <= at(i + 1)
        && DrainAlong(s, at, i, batch) == DrainAlong(t, at, i + 1, batch)
  {
    if ExpireBatch(s, at(i), batch).1 > 0 {
      BatchEndsSome(s, at(i), batch);
    }
  }

  lemma ExpireSound(s: Store, clock: Time, now: Time, limit: nat)
    requires Sound(s, clock) && clock <= now
    ensures Sound(ExpireBatch(s, now, limit).0, now)
  {
    StepSound(s, clock, now, ExpireOp(limit));
    assert Step(s, now, ExpireOp(limit)).0 == ExpireBatch(s, now, limit).0;
  }

  lemma AcquireSound(s: Store, clock: Time, now: Time, dir: Directory, q: Request, key: string,
                     caller: Caller, newId: Id)
    requires Sound(s, clock) && clock <= now
    ensures Sound(Acquire(s, now, dir, q, key, caller, newId).0, now)
  {
    StepSound(s, clock, now, AcquireOp(dir, q, key, caller, newId));
    assert Step(s, now, AcquireOp(dir, q, key, caller, newId)).0 == Acquire(s, now, dir, q, key, caller, newId).0;
  }

  lemma RenewSound(s: Store, clock: Time, now: Time, l: Id, intent: TtlIntent, principal: Id)
    requires Sound(s, clock) && clock <= now
    ensures Sound(Renew(s, now, l, intent, principal).0, now)
    ensures Renew(s, now, l, intent, principal).1.Ok? ==>
      l in s.leases && Renew(s, now, l, intent, principal).1.value
        == Asked(now, intent, s.resources[s.leases[l].resource].defaultTtl)
  {
    StepSound(s, clock, now, RenewOp(l, intent, principal));
    assert Step(s, now, RenewOp(l, intent, principal)).0 == Renew(s, now, l, intent, principal).0;
  }

  lemma CreateSound(s: Store, clock: Time, id: Id, d: Draft, actor: Id)
    requires Sound(s, clock)
    ensures Sound(Create(s, id, d, actor).0, clock)
  {
    StepSound(s, clock, clock, CreateOp(id, d, actor));
    assert Step(s, clock, CreateOp(id, d, actor)).0 == Create(s, id, d, actor).0;
  }

  lemma UpdateSound(s: Store, clock: Time, id: Id, p: Patch, actor: Id)
    requires Sound(s, clock)
    ensures Sound(Update(s, id, p, actor).0, clock)
  {
    StepSound(s, clock, clock, UpdateOp(id, p, actor));
    assert Step(s, clock, UpdateOp(id, p, actor)).0 == Update(s, id, p, actor).0;
  }

  lemma ArchiveSound(s: Store, clock: Time, now: Time, id: Id, actor: Id)
    requires Sound(s, clock) && clock <= now
    ensures Sound(Archive(s, now, id, actor).0, now)
  {
    StepSound(s, clock, now, ArchiveOp(id, actor));
    assert Step(s, now, ArchiveOp(id, actor)).0 == Archive(s, now, id, actor).0;
  }

  /** What a fresh success grants: a resource with every requested label, until the requested expiry. */
  predicate GrantedAsAsked(s: Store, now: Time, q: Request, principal: Id, x: Lease) {
    && x.owner == principal && x.acquiredAt == now && x.resource in s.resources
    && s.resources[x.resource].kind == q.kind && Carries(s.resources[x.resource].labels, q.labels)
    && x.expiresAt == Asked(now, q.ttl, s.resources[x.resource].defaultTtl)
  }

  lemma AcquireGrants(s: Store, clock: Time, now: Time, dir: Directory, q: Request, key: string, caller: Caller,
                      newId: Id)
    requires Sound(s, clock)
    ensures
      var (t, r) := Acquire(s, now, dir, q, key, caller, newId);
      r.Ok? && r.value !in s.leases ==>
        r.value == newId && newId in t.leases && GrantedAsAsked(s, now, q, caller.id, t.leases[newId])
  {
    if newId !in s.leases && KeyUnused(s, caller.id, key) {
      AcquireWrites(s, now, dir, q, key, caller, newId);
      AcquireChooses(s, clock, now, dir, q, key, caller, newId);
    }
    UnusedHasNoHolders(s, caller.id, key);
  }

  class Tables {
    var resources: map<Id, Resource>
    var leases: map<Id, Lease>
    var grants: set<(Id, Grantee)>
    var audit: seq<Event>
    ghost var clock: Time

    function State(): Store
      reads this
    {
      Store(resources, leases, grants, audit)
    }

    /** The tables are sound as of the latest transaction. */
    ghost predicate Valid()
      reads this
    {
      Sound(State(), clock)
    }

    constructor (now: Time)
      ensures Valid() && State() == EMPTY_STORE && clock == now
    {
      resources, leases, grants, audit := map[], map[], {}, [];
      clock := now;
    }

    method RecordAuditEvent(actor: Option<Id>, action: Action, subject: Id)
      modifies this`audit
      ensures State() == Log(old(State()), actor, action, subject)
    {
      audit := audit + [Event(actor, action, subject)];
    }

    // ----- Leasing -----

    /** The first candidate in selection order, read again for activity before it is taken. */
    method SelectResource(now: Time, dir: Directory, q: Request, caller: Caller) returns (candidate: Option<Id>)
      ensures
        var candidates := Candidates(State(), now, dir, q, caller);
        candidate == if candidates == {} then None else Some(First(candidates).id)
    {
      var candidates := Candidates(State(), now, dir, q, caller);
      candidate := if candidates == {} then None else Some(First(candidates).id);
      // Run alone, the second read always agrees with the selection.
      if candidate.None? || (q.sharing == Exclusive && ActiveLeases(State(), candidate.value, now) != {}) {
        candidate := None;
      }
    }

    /** The insert, the stamp on the resource and the audit event. */
    method InsertLease(row: Id, l: Id, lease: Lease)
      requires row in resources
      modifies this`resources, this`leases, this`audit
      ensures State() == Granted(old(State()), row, l, lease)
    {
      leases := leases[l := lease];
      resources := resources[row := resources[row].(lastLeasedAt := Some(lease.acquiredAt))];
      RecordAuditEvent(Some(lease.owner), LeaseAcquired, l);
    }

    method AcquireLease(now: Time, dir: Directory, q: Request, key: string, caller: Caller, newId: Id)
      returns (r: Result<Id>)
      requires Valid() && clock <= now
      modifies this
      ensures (State(), r) == Acquire(old(State()), now, dir, q, key, caller, newId)
      ensures Valid() && clock == now
      ensures r.Ok? && r.value !in old(leases) ==>
        r.value == newId && newId in leases && GrantedAsAsked(old(State()), now, q, caller.id, leases[newId])
    {
      AcquireGrants(State(), clock, now, dir, q, key, caller, newId);
      AcquireSound(State(), clock, now, dir, q, key, caller, newId);
      clock := now;
      var existing := Holders(State(), caller.id, key);
      if existing != {} {
        var l := First(existing).id;
        return if leases[l].hash != Canonical(q) then Err(KeyReused) else Ok(l);
      }
      var candidate := SelectResource(now, dir, q, caller);
      if candidate.None? {
        return Err(NoMatch);
      }
      var ttl := ResolveTtl(resources[candidate.value], q.ttl);
      if ttl.Err? {
        return Err(ttl.error);
      }
      if newId in leases {
        return Err(IdTaken);
      }
      InsertLease(candidate.value, newId, NewLease(candidate.value, caller.id, key, q, now, ttl.value));
      return Ok(newId);
    }

    method RenewLease(now: Time, l: Id, intent: TtlIntent, principal: Id) returns (r: Result<Option<Time>>)
      requires Valid() && clock <= now
      modifies this
      ensures (State(), r) == Renew(old(State()), now, l, intent, principal)
      ensures Valid() && clock == now
      ensures r.Ok? ==>
        && l in old(leases) && l in leases && old(leases)[l].resource in resources
        && r.value == leases[l].expiresAt == Asked(now, intent, resources[old(leases)[l].resource].defaultTtl)
    {
      RenewSound(State(), clock, now, l, intent, principal);
      clock := now;
      if l !in leases || leases[l].owner != principal {
        return Err(NotFound);
      }
      var lease := leases[l];
      if lease.endedAt.Some? || (lease.expiresAt.Some? && lease.expiresAt.value <= now) {
        return Err(NotActive);
      }
      var ttl := ResolveTtl(resources[lease.resource], intent);
      if ttl.Err? {
        return Err(ttl.error);
      }
      var expiresAt := if ttl.value.Some? then Some(now + ttl.value.value * SECOND) else None;
      leases := leases[l := lease.(expiresAt := expiresAt, lastRenewedAt := Some(now))];
      RecordAuditEvent(Some(principal), LeaseRenewed, l);
      return Ok(expiresAt);
    }

    method EndLease(now: Time, l: Id, e: Ending, principal: Id) returns (r: Result<()>)
      requires Valid() && clock <= now
      modifies this
      ensures (State(), r) == End(old(State()), now, l, e, principal)
      ensures Valid() && clock == now
      ensures r.Ok? ==>
        && l in old(leases)
        && var x := old(leases)[l];
        && var reason := if e == Release then Released else Revoked;
        leases == if x.endedAt.Some? then old(leases)
                  else old(leases)[l := x.(endedAt := Some(now), endReason := Some(reason))]
    {
      StepSound(State(), clock, now, EndOp(l, e, principal));
      clock := now;
      if l !in leases || (e == Release && leases[l].owner != principal) {
        return Err(NotFound);
      }
      if leases[l].endedAt.None? {
        leases := leases[l := leases[l].(endedAt := Some(now), endReason := Some(ReasonOf(e)))];
        RecordAuditEvent(Some(principal), ActionOf(e), l);
      }
      return Ok(());
    }

    /** The guarded update of one lease of a batch, and its event when it took effect. */
    method ExpireOne(now: Time, l: Id) returns (changed: bool)
      requires l in leases
      modifies this`leases, this`audit
      ensures changed <==> DueAt(old(leases)[l], now)
      ensures State() == if changed then ExpireLease(old(State()), l) else old(State())
    {
      var lease := leases[l];
      changed := lease.endedAt.None? && lease.expiresAt.Some? && lease.expiresAt.value <= now;
      if changed {
        leases := leases[l := lease.(endedAt := lease.expiresAt, endReason := Some(Expired))];
        RecordAuditEvent(None, LeaseExpired, l);
      }
    }

    /** One batch: select in order, then write the leases down one by one, counting. */
    method ExpireDueLeases(now: Time, batchSize: nat) returns (expired: nat)
      requires Valid() && clock <= now
      modifies this
      ensures (State(), expired) == ExpireBatch(old(State()), now, batchSize)
      ensures Valid() && clock == now
    {
      ghost var before := State();
      ExpireSound(before, clock, now, batchSize);
      clock := now;
      var ids := SweepIds(State(), now, batchSize);
      NoneExpired(before);
      expired := 0;
      for i := 0 to |ids|
        invariant State() == ExpireAll(before, ids[..i]) && expired == i && clock == now
      {
        NextIsDue(before, now, batchSize, ids, i);
        var changed := ExpireOne(now, ids[i]);
        if changed {
          expired := expired + 1;
        }
      }
      assert ids[..|ids|] == ids;
    }

    /** The worker as it runs: each batch reads the clock anew, and an idle one ends the round. */
    method RunWorker(at: nat -> Time, batchSize: nat) returns (batches: nat)
      requires Valid() && Rising(at) && clock <= at(0) && batchSize >= 1
      modifies this
      ensures (State(), batches) == DrainAlong(old(State()), at, 0, batchSize)
      ensures Valid() && clock == at(batches)
    {
      batches := 0;
      while true
        invariant Valid() && clock <= at(batches)
        invariant DrainAlong(State(), at, batches, batchSize) == DrainAlong(old(State()), at, 0, batchSize)
        decreases |Unended(State())|
      {
        WorkerRound(State(), at, batches, batchSize);
        var expired := ExpireDueLeases(at(batches), batchSize);
        if expired == 0 {
          break;
        }
        batches := batches + 1;
      }
    }

    /** The same worker while the clock stands still. */
    method DrainOverdueLeases(now: Time, batchSize: nat) returns (rounds: nat)
      requires Valid() && clock <= now && batchSize >= 1
      modifies this
      ensures (State(), rounds) == Drain(old(State()), now, batchSize)
      ensures Valid() && clock == now
    {
      var still: nat -> Time := _ => now;
      StandingStill(State(), still, now, 0, batchSize);
      rounds := RunWorker(still, batchSize);
    }

    // ----- The catalog -----

    method CreateResource(id: Id, d: Draft, actor: Id) returns (r: Result<()>)
      requires Valid()
      modifies this
      ensures (State(), r) == Create(old(State()), id, d, actor)
      ensures Valid() && clock == old(clock)
    {
      CreateSound(State(), clock, id, d, actor);
      if !PolicyValid(d.expiration, d.defaultTtl, d.maxTtl) {
        return Err(InvalidPolicy);
      }
      if id in resources {
        return Err(IdTaken);
      }
      if !NameFree(State(), d.name, {}) {
        return Err(NameTaken);
      }
      resources := resources[id := NewResource(d)];
      RecordAuditEvent(Some(actor), ResourceCreated, id);
      return Ok(());
    }

    method UpdateResource(id: Id, p: Patch, actor: Id) returns (r: Result<()>)
      requires Valid()
      modifies this
      ensures (State(), r) == Update(old(State()), id, p, actor)
      ensures Valid() && clock == old(clock)
    {
      UpdateSound(State(), clock, id, p, actor);
      if id !in resources {
        return Err(NotFound);
      }
      var target := resources[id];
      if target.archivedAt.Some? {
        return Err(ArchivedTarget);
      }
      if target.version != p.version {
        return Err(StaleVersion);
      }
      if IsEmpty(p) {
        return Ok(());
      }
      if !PolicyValid(Or(p.expiration, target.expiration),
                      Or(p.defaultTtl, target.defaultTtl),
                      Or(p.maxTtl, target.maxTtl)) {
        return Err(InvalidPolicy);
      }
      if !NameFree(State(), Or(p.name, target.name), {id}) {
        return Err(NameTaken);
      }
      resources := resources[id := Patched(target, p)];
      RecordAuditEvent(Some(actor), ResourceUpdated, id);
      return Ok(());
    }

    method ArchiveResource(now: Time, id: Id, actor: Id) returns (r: Result<()>)
      requires Valid() && clock <= now
      modifies this
      ensures (State(), r) == Archive(old(State()), now, id, actor)
      ensures Valid() && clock == now
      ensures r == Err(HasActiveLeases) <==>
        && id in old(resources) && old(resources)[id].archivedAt == None
        && exists l :: l in old(leases) && old(leases)[l].resource == id && Runs(old(leases)[l], now)
    {
      ArchiveWrites(State(), now, id, actor);
      ArchiveSound(State(), clock, now, id, actor);
      clock := now;
      if id !in resources {
        return Err(NotFound);
      }
      if resources[id].archivedAt.Some? {
        return Ok(());
      }
      if ActiveLeases(State(), id, now) != {} {
        return Err(HasActiveLeases);
      }
      resources := resources[id := resources[id].(archivedAt := Some(now), version := resources[id].version + 1)];
      RecordAuditEvent(Some(actor), ResourceArchived, id);
      return Ok(());
    }

    method TransitionResource(id: Id, t: Transition, actor: Id) returns (r: Result<()>)
      requires Valid()
      modifies this
      ensures (State(), r) == Transit(old(State()), id, t, actor)
      ensures Valid() && clock == old(clock)
    {
      StepSound(State(), clock, clock, TransitionOp(id, t, actor));
      if id !in resources {
        return Err(NotFound);
      }
      var target := resources[id];
      if target.archivedAt.Some? {
        return Err(ArchivedTarget);
      }
      if target.status !in Sources(t) {
        return Err(IllegalTransition);
      }
      resources := resources[id := target.(status := Destination(t), version := target.version + 1)];
      RecordAuditEvent(Some(actor), TransitionAction(t), id);
      return Ok(());
    }

    method SetResourceGrant(dir: Directory, id: Id, g: Grantee, granted: bool, actor: Id) returns (r: Result<()>)
      requires Valid()
      modifies this
      ensures (State(), r) == SetGrant(old(State()), dir, id, g, granted, actor)
      ensures Valid() && clock == old(clock)
    {
      StepSound(State(), clock, clock, GrantOp(dir, id, g, granted, actor));
      if id !in resources {
        return Err(NotFound);
      }
      if resources[id].archivedAt.Some? {
        return Err(ArchivedTarget);
      }
      if granted && !Grantable(dir, g) {
        return Err(NotFound);
      }
      var changed := granted != ((id, g) in grants);
      grants := if granted then grants + {(id, g)} else grants - {(id, g)};
      if changed {
        RecordAuditEvent(Some(actor), if granted then AccessGranted(g) else AccessRevoked(g), id);
      } else {
        assert grants == old(grants);
      }
      return Ok(());
    }
  }
}
