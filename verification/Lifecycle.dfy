/** Whole runs of the store: every operation as a step, and what every step does to a row. */
module Lifecycle {
  import opened Types
  import opened Ranks
  import opened Catalog
  import opened Leasing

  datatype Op =
    | AcquireOp(dir: Directory, request: Request, key: string, caller: Caller, newId: Id)
    | RenewOp(lease: Id, intent: TtlIntent, principal: Id)
    | EndOp(lease: Id, ending: Ending, principal: Id)
    | ExpireOp(limit: nat)
    | CreateOp(resource: Id, draft: Draft, actor: Id)
    | UpdateOp(resource: Id, patch: Patch, actor: Id)
    | ArchiveOp(resource: Id, actor: Id)
    | TransitionOp(resource: Id, transition: Transition, actor: Id)
    | GrantOp(dir: Directory, resource: Id, grantee: Grantee, granted: bool, actor: Id)

  datatype Outcome =
    | Failed(error: Error)
    | Acquired(lease: Id, resource: Id)
    | Renewed(expiresAt: Option<Time>)
    | Finished
    | Swept(count: nat)

  function Plain(r: Result<()>): Outcome {
    if r.Ok? then Finished else Failed(r.error)
  }

  /** One committed transaction, run alone at one instant. */
  function Step(s: Store, now: Time, op: Op): (Store, Outcome)
    requires Linked(s)
  {
    match op
    case AcquireOp(dir, q, key, caller, newId) =>
      var (t, r) := Acquire(s, now, dir, q, key, caller, newId);
      (t, if r.Err? then Failed(r.error)
          else if r.value in t.leases then Acquired(r.value, t.leases[r.value].resource)
          else Failed(NotFound))
    case RenewOp(l, intent, principal) =>
      var (t, r) := Renew(s, now, l, intent, principal);
      (t, if r.Ok? then Renewed(r.value) else Failed(r.error))
    case EndOp(l, e, principal) => var (t, r) := End(s, now, l, e, principal); (t, Plain(r))
    case ExpireOp(limit) => var (t, n) := ExpireBatch(s, now, limit); (t, Swept(n))
    case CreateOp(id, d, actor) => var (t, r) := Create(s, id, d, actor); (t, Plain(r))
    case UpdateOp(id, p, actor) => var (t, r) := Update(s, id, p, actor); (t, Plain(r))
    case ArchiveOp(id, actor) => var (t, r) := Archive(s, now, id, actor); (t, Plain(r))
    case TransitionOp(id, tr, actor) => var (t, r) := Transit(s, id, tr, actor); (t, Plain(r))
    case GrantOp(dir, id, g, on, actor) => var (t, r) := SetGrant(s, dir, id, g, on, actor); (t, Plain(r))
  }

  datatype Timed = At(now: Time, op: Op)

  /** The clock never runs backwards along a trace that starts no earlier than `from`. */
  predicate Ordered(from: Time, trace: seq<Timed>)
    decreases trace
  {
    trace != [] ==> from <= trace[0].now && Ordered(trace[0].now, trace[1..])
  }

  function ClockAfter(from: Time, trace: seq<Timed>): Time {
    if trace == [] then from else trace[|trace| - 1].now
  }

  function Run(s: Store, trace: seq<Timed>): (t: Store)
    requires Linked(s)
    ensures Linked(t)
    decreases trace
  {
    if trace == [] then s
    else
      StepMoves(s, trace[0].now, trace[0].op);
      Run(Step(s, trace[0].now, trace[0].op).0, trace[1..])
  }

  const EMPTY_STORE := Store(map[], map[], {}, [])

  // ----- What one step may do to a row -----

  datatype LeaseMove = Stays | Renews(ttl: Option<Ttl>) | Ends(ending: Ending) | Expires

  function Moved(a: Lease, now: Time, m: LeaseMove): Lease {
    match m
    case Stays => a
    case Renews(ttl) => RenewedRow(a, now, ttl)
    case Ends(e) => EndedRow(a, now, ReasonOf(e))
    case Expires => ExpiredRow(a)
  }

  /** A policy admits a lifetime: indefinite only when optional, finite only within the maximum. */
  predicate Admits(x: Resource, ttl: Option<Ttl>) {
    && (ttl.None? ==> x.expiration == Optional)
    && (ttl.Some? && x.maxTtl.Some? ==> ttl.value <= x.maxTtl.value)
  }

  predicate LegalMove(s: Store, a: Lease, now: Time, m: LeaseMove)
    requires a.resource in s.resources
  {
    match m
    case Stays => true
    case Renews(ttl) => ActiveAt(a, now) && Admits(s.resources[a.resource], ttl)
    case Ends(_) => a.endedAt.None?
    case Expires => DueAt(a, now)
  }

  ghost predicate LeaseStep(s: Store, now: Time, a: Lease, b: Lease) {
    a.resource in s.resources && exists m :: LegalMove(s, a, now, m) && b == Moved(a, now, m)
  }

  /** A lease that one step inserted, and what held of the store it was granted from. */
  ghost predicate Inserts(s: Store, now: Time, t: Store, l: Id) {
    && l in t.leases && l !in s.leases
    && var b := t.leases[l];
    && b.resource in s.resources
    && s.resources[b.resource].archivedAt.None?
    && s.resources[b.resource].sharing == b.hash.sharing
    && (b.hash.sharing == Exclusive ==> ActiveLeases(s, b.resource, now) == {})
    && Holders(s, b.owner, b.key) == {}
    && b.acquiredAt == now
    && b.lastRenewedAt.None? && b.endedAt.None? && b.endReason.None?
    && (exists ttl :: Admits(s.resources[b.resource], ttl) && b.expiresAt == ExpiryFrom(now, ttl))
    && t.leases == s.leases[l := b]
  }

  /** Either existing leases make legal moves, or exactly one lease is inserted. */
  ghost predicate LeasesStep(s: Store, now: Time, t: Store) {
    || (&& t.leases.Keys == s.leases.Keys
        && (forall l :: l in s.leases ==> LeaseStep(s, now, s.leases[l], t.leases[l])))
    || (exists l :: Inserts(s, now, t, l))
  }

  /** A resource row stays, is marked as leased now, or is rewritten under its next version. */
  ghost predicate ResourceStep(s: Store, now: Time, a: Resource, b: Resource, t: Store) {
    || b == a
    || (a.archivedAt.None? && b == a.(lastLeasedAt := Some(now)))
    || (&& a.archivedAt.None? && b.version == a.version + 1 && b.lastLeasedAt == a.lastLeasedAt
        && (HasValidPolicy(a) ==> HasValidPolicy(b))
        && (b.status == a.status || b.status != Cleaning)
        && (b.archivedAt.None? || b.archivedAt == Some(now))
        && t.leases == s.leases)
  }

  ghost predicate FreshResource(x: Resource) {
    HasValidPolicy(x) && x.status == Active && x.version == 1 && x.archivedAt.None? && x.lastLeasedAt.None?
  }

  ghost predicate ResourcesStep(s: Store, now: Time, t: Store) {
    && s.resources.Keys <= t.resources.Keys
    && (forall r :: r in s.resources ==> ResourceStep(s, now, s.resources[r], t.resources[r], t))
    && (forall r :: r in t.resources && r !in s.resources ==> FreshResource(t.resources[r]))
    && (forall r :: r in s.resources && s.resources[r].archivedAt.None? && t.resources[r].archivedAt.Some?
         ==> ActiveLeases(s, r, now) == {})
  }

  // ----- Every operation is such a step -----

  lemma StayingPut(s: Store, now: Time, l: Id)
    requires Linked(s) && l in s.leases
    ensures LeaseStep(s, now, s.leases[l], s.leases[l])
  {
    assert LegalMove(s, s.leases[l], now, Stays) && s.leases[l] == Moved(s.leases[l], now, Stays);
  }

  lemma SameLeases(s: Store, now: Time, t: Store)
    requires Linked(s) && t.leases == s.leases
    ensures LeasesStep(s, now, t)
  {
    forall l | l in s.leases ensures LeaseStep(s, now, s.leases[l], t.leases[l]) {
      StayingPut(s, now, l);
    }
  }

  lemma OneLeaseMoves(s: Store, now: Time, t: Store, l: Id, m: LeaseMove)
    requires Linked(s) && l in s.leases && LegalMove(s, s.leases[l], now, m)
    requires t.leases == s.leases[l := Moved(s.leases[l], now, m)]
    ensures LeasesStep(s, now, t)
  {
    forall k | k in s.leases ensures LeaseStep(s, now, s.leases[k], t.leases[k]) {
      StayingPut(s, now, k);
    }
  }

  lemma ResolvedIsAdmitted(x: Resource, intent: TtlIntent)
    requires ResolveTtl(x, intent).Ok?
    ensures Admits(x, ResolveTtl(x, intent).value)
  {}

  lemma AcquireMoves(s: Store, now: Time, dir: Directory, q: Request, key: string, caller: Caller, newId: Id)
    requires Linked(s)
    ensures
      var (t, r) := Acquire(s, now, dir, q, key, caller, newId);
      && Linked(t) && LeasesStep(s, now, t) && ResourcesStep(s, now, t)
      && (r.Err? ==> t == s) && (r.Ok? ==> r.value in t.leases)
  {
    var (t, r) := Acquire(s, now, dir, q, key, caller, newId);
    if t == s {
      SameLeases(s, now, t);
    } else {
      var c := First(Candidates(s, now, dir, q, caller)).id;
      var ttl := ResolveTtl(s.resources[c], q.ttl).value;
      ResolvedIsAdmitted(s.resources[c], q.ttl);
      assert t.leases[newId].expiresAt == ExpiryFrom(now, ttl);
      assert Inserts(s, now, t, newId);
    }
  }

  /** A batch leaves a lease alone or expires it once, and only when it was overdue. */
  lemma ExpireMoves(s: Store, now: Time, limit: nat)
    requires Linked(s)
    ensures
      var t := ExpireBatch(s, now, limit).0;
      && Linked(t) && t.resources == s.resources && t.grants == s.grants
      && t.leases.Keys == s.leases.Keys
      && (forall l :: l in s.leases ==>
            t.leases[l] == s.leases[l] || (DueAt(s.leases[l], now) && t.leases[l] == ExpiredRow(s.leases[l])))
  {
    SweepTakesDue(s, now, limit);
  }

  lemma RenewMoves(s: Store, now: Time, l: Id, intent: TtlIntent, principal: Id)
    requires Linked(s)
    ensures
      var t := Renew(s, now, l, intent, principal).0;
      Linked(t) && LeasesStep(s, now, t) && t.resources == s.resources
  {
    var t := Renew(s, now, l, intent, principal).0;
    if t == s {
      SameLeases(s, now, t);
    } else {
      var x := s.resources[s.leases[l].resource];
      ResolvedIsAdmitted(x, intent);
      OneLeaseMoves(s, now, t, l, Renews(ResolveTtl(x, intent).value));
    }
  }

  lemma EndMoves(s: Store, now: Time, l: Id, e: Ending, principal: Id)
    requires Linked(s)
    ensures
      var t := End(s, now, l, e, principal).0;
      Linked(t) && LeasesStep(s, now, t) && t.resources == s.resources
  {
    var t := End(s, now, l, e, principal).0;
    if t == s {
      SameLeases(s, now, t);
    } else {
      OneLeaseMoves(s, now, t, l, Ends(e));
    }
  }

  lemma BatchMoves(s: Store, now: Time, limit: nat)
    requires Linked(s)
    ensures
      var t := ExpireBatch(s, now, limit).0;
      Linked(t) && LeasesStep(s, now, t) && t.resources == s.resources
  {
    var t := ExpireBatch(s, now, limit).0;
    ExpireMoves(s, now, limit);
    forall l | l in s.leases ensures LeaseStep(s, now, s.leases[l], t.leases[l]) {
      StayingPut(s, now, l);
      if t.leases[l] != s.leases[l] {
        assert LegalMove(s, s.leases[l], now, Expires) && t.leases[l] == Moved(s.leases[l], now, Expires);
      }
    }
  }

  lemma ArchiveMoves(s: Store, now: Time, r: Id, actor: Id)
    requires Linked(s)
    ensures
      var t := Archive(s, now, r, actor).0;
      Linked(t) && t.leases == s.leases && ResourcesStep(s, now, t)
  {}

  lemma UpdateMoves(s: Store, now: Time, r: Id, p: Patch, actor: Id)
    requires Linked(s)
    ensures
      var t := Update(s, r, p, actor).0;
      Linked(t) && t.leases == s.leases && ResourcesStep(s, now, t)
  {}

  lemma TransitMoves(s: Store, now: Time, r: Id, tr: Transition, actor: Id)
    requires Linked(s)
    ensures
      var t := Transit(s, r, tr, actor).0;
      Linked(t) && t.leases == s.leases && ResourcesStep(s, now, t)
  {}

  lemma CreateMoves(s: Store, now: Time, r: Id, d: Draft, actor: Id)
    requires Linked(s)
    ensures
      var t := Create(s, r, d, actor).0;
      Linked(t) && t.leases == s.leases && ResourcesStep(s, now, t)
  {}

  lemma GrantMoves(s: Store, dir: Directory, r: Id, g: Grantee, granted: bool, actor: Id)
    requires Linked(s)
    ensures
      var t := SetGrant(s, dir, r, g, granted, actor).0;
      t.leases == s.leases && t.resources == s.resources
  {}

  lemma SameResources(s: Store, now: Time, t: Store)
    requires t.resources == s.resources
    ensures ResourcesStep(s, now, t)
  {}

  /** The step relation that the whole-run invariants are proved from. */
  lemma StepMoves(s: Store, now: Time, op: Op)
    requires Linked(s)
    ensures var t := Step(s, now, op).0; Linked(t) && LeasesStep(s, now, t) && ResourcesStep(s, now, t)
  {
    var t := Step(s, now, op).0;
    match op
    case AcquireOp(dir, q, key, caller, newId) => AcquireMoves(s, now, dir, q, key, caller, newId);
    case RenewOp(l, intent, principal) => RenewMoves(s, now, l, intent, principal); SameResources(s, now, t);
    case EndOp(l, e, principal) => EndMoves(s, now, l, e, principal); SameResources(s, now, t);
    case ExpireOp(limit) => BatchMoves(s, now, limit); SameResources(s, now, t);
    case CreateOp(r, d, actor) => CreateMoves(s, now, r, d, actor); SameLeases(s, now, t);
    case UpdateOp(r, p, actor) => UpdateMoves(s, now, r, p, actor); SameLeases(s, now, t);
    case ArchiveOp(r, actor) => ArchiveMoves(s, now, r, actor); SameLeases(s, now, t);
    case TransitionOp(r, tr, actor) => TransitMoves(s, now, r, tr, actor); SameLeases(s, now, t);
    case GrantOp(dir, r, g, granted, actor) =>
      GrantMoves(s, dir, r, g, granted, actor);
      SameLeases(s, now, t);
      SameResources(s, now, t);
  }
}
