/** What holds of every store that some run of operations reaches. */
module Invariants {
  import opened Types
  import opened Ranks
  import opened Catalog
  import opened Leasing
  import opened Lifecycle

  // ----- The invariant -----

  /** The instant a finite expiry is counted from. */
  function Base(x: Lease): Time {
    if x.lastRenewedAt.Some? then x.lastRenewedAt.value else x.acquiredAt
  }

  ghost predicate LeaseSound(x: Lease, clock: Time) {
    && x.acquiredAt <= Base(x) <= clock
    && (x.endedAt.Some? <==> x.endReason.Some?)
    && (x.endedAt.Some? ==> Base(x) <= x.endedAt.value <= clock)
    && (x.endReason == Some(Expired) ==> x.endedAt == x.expiresAt)
    && (exists ttl :: x.expiresAt == ExpiryFrom(Base(x), ttl))
  }

  ghost predicate ResourceSound(x: Resource, clock: Time) {
    && HasValidPolicy(x)
    && x.status != Cleaning
    && (x.archivedAt.Some? ==> x.archivedAt.value <= clock)
    && (x.lastLeasedAt.Some? ==> x.lastLeasedAt.value <= clock)
  }

  ghost predicate Sound(s: Store, clock: Time) {
    && Linked(s)
    && (forall l :: l in s.leases ==> LeaseSound(s.leases[l], clock))
    && (forall r :: r in s.resources ==> ResourceSound(s.resources[r], clock))
    && SealedRows(s)
    && UniqueKeys(s)
    && UniqueNames(s)
  }

  // ----- One step keeps it -----

  lemma LeaseStepSound(s: Store, clock: Time, now: Time, a: Lease, b: Lease)
    requires clock <= now && LeaseSound(a, clock) && LeaseStep(s, now, a, b)
    ensures LeaseSound(b, now)
    ensures forall t :: now >= t && !ActiveAt(a, t) ==> !ActiveAt(b, t)
    ensures b.resource == a.resource && b.owner == a.owner && b.key == a.key && b.hash == a.hash
    ensures b.acquiredAt == a.acquiredAt
  {
    var m :| LegalMove(s, a, now, m) && b == Moved(a, now, m);
    var ttl :| a.expiresAt == ExpiryFrom(Base(a), ttl);
    if m.Renews? {
      assert b.expiresAt == ExpiryFrom(Base(b), m.ttl);
    } else {
      assert b.expiresAt == ExpiryFrom(Base(b), ttl);
    }
  }

  lemma SealedLease(s: Store, clock: Time, now: Time, t: Store, l: Id)
    requires Sound(s, clock) && clock <= now && l in s.leases && l in t.leases && Linked(t)
    requires ResourcesStep(s, now, t) && LeaseStep(s, now, s.leases[l], t.leases[l])
    requires t.resources[t.leases[l].resource].archivedAt.Some?
    ensures !ActiveAt(t.leases[l], t.resources[t.leases[l].resource].archivedAt.value)
  {
    var r := t.leases[l].resource;
    LeaseStepSound(s, clock, now, s.leases[l], t.leases[l]);
    assert ResourceStep(s, now, s.resources[r], t.resources[r], t);
    if s.resources[r].archivedAt.None? {
      assert l !in ActiveLeases(s, r, now);
    } else {
      assert ResourceSound(s.resources[r], clock);
    }
  }

  lemma SealedNewLease(s: Store, now: Time, t: Store, l: Id)
    requires Linked(s) && Linked(t) && ResourcesStep(s, now, t) && l in t.leases && l !in s.leases
    requires LeasesStep(s, now, t)
    ensures t.resources[t.leases[l].resource].archivedAt.None?
  {
    var k :| Inserts(s, now, t, k);
    var r := t.leases[l].resource;
    assert ResourceStep(s, now, s.resources[r], t.resources[r], t);
  }

  lemma OldLeaseSteps(s: Store, now: Time, t: Store, l: Id)
    requires Linked(s) && LeasesStep(s, now, t) && l in s.leases
    ensures l in t.leases && LeaseStep(s, now, s.leases[l], t.leases[l])
  {
    StayingPut(s, now, l);
  }

  lemma SealedStep(s: Store, clock: Time, now: Time, t: Store)
    requires Sound(s, clock) && clock <= now && Linked(t)
    requires LeasesStep(s, now, t) && ResourcesStep(s, now, t)
    ensures SealedRows(t)
  {
    forall l | l in t.leases && t.resources[t.leases[l].resource].archivedAt.Some?
      ensures !ActiveAt(t.leases[l], t.resources[t.leases[l].resource].archivedAt.value)
    {
      if l in s.leases {
        OldLeaseSteps(s, now, t, l);
        SealedLease(s, clock, now, t, l);
      } else {
        SealedNewLease(s, now, t, l);
      }
    }
  }

  lemma UniqueKeysStep(s: Store, clock: Time, now: Time, t: Store)
    requires Sound(s, clock) && clock <= now && LeasesStep(s, now, t)
    ensures UniqueKeys(t)
  {
    if t.leases.Keys == s.leases.Keys && forall l :: l in s.leases ==> LeaseStep(s, now, s.leases[l], t.leases[l]) {
      forall l | l in s.leases
        ensures t.leases[l].owner == s.leases[l].owner && t.leases[l].key == s.leases[l].key
      {
        LeaseStepSound(s, clock, now, s.leases[l], t.leases[l]);
      }
    } else {
      var k :| Inserts(s, now, t, k);
      forall i | i in s.leases ensures s.leases[i].owner != t.leases[k].owner || s.leases[i].key != t.leases[k].key {
        assert Rank(0, None, i) !in Holders(s, t.leases[k].owner, t.leases[k].key);
      }
    }
  }

  lemma LeasesStepSound(s: Store, clock: Time, now: Time, t: Store)
    requires Sound(s, clock) && clock <= now && LeasesStep(s, now, t)
    ensures forall l :: l in t.leases ==> LeaseSound(t.leases[l], now)
  {
    if k :| Inserts(s, now, t, k) {
      forall l | l in t.leases ensures LeaseSound(t.leases[l], now) {
        if l == k {
          var ttl :| Admits(s.resources[t.leases[k].resource], ttl) && t.leases[k].expiresAt == ExpiryFrom(now, ttl);
          assert Base(t.leases[l]) == now;
        } else {
          StayingPut(s, now, l);
          LeaseStepSound(s, clock, now, s.leases[l], t.leases[l]);
        }
      }
    } else {
      forall l | l in t.leases ensures LeaseSound(t.leases[l], now) {
        LeaseStepSound(s, clock, now, s.leases[l], t.leases[l]);
      }
    }
  }

  /** Rows that keep their names keep them apart. */
  lemma NamesStay(s: Store, t: Store)
    requires UniqueNames(s)
    requires forall r :: r in t.resources ==> r in s.resources && t.resources[r].name == s.resources[r].name
    ensures UniqueNames(t)
  {}

  lemma UniqueNamesStep(s: Store, now: Time, op: Op)
    requires Linked(s) && UniqueNames(s)
    ensures UniqueNames(Step(s, now, op).0)
  {
    match op
    case AcquireOp(dir, q, key, caller, newId) => AcquireKeepsNames(s, now, dir, q, key, caller, newId);
    case CreateOp(r, d, actor) => CreateKeepsNames(s, r, d, actor);
    case UpdateOp(r, p, actor) => UpdateKeepsNames(s, r, p, actor);
    case ArchiveOp(r, actor) => ArchiveKeepsNames(s, now, r, actor);
    case TransitionOp(r, t, actor) => TransitKeepsNames(s, r, t, actor);
    case _ => OthersKeepResources(s, now, op);
  }

  lemma OthersKeepResources(s: Store, now: Time, op: Op)
    requires Linked(s) && (op.RenewOp? || op.EndOp? || op.ExpireOp? || op.GrantOp?)
    ensures Step(s, now, op).0.resources == s.resources
  {
    if op.ExpireOp? {
      ExpireMoves(s, now, op.limit);
    }
  }

  lemma ArchiveKeepsNames(s: Store, now: Time, r: Id, actor: Id)
    requires UniqueNames(s)
    ensures UniqueNames(Archive(s, now, r, actor).0)
  {
    NamesStay(s, Archive(s, now, r, actor).0);
  }

  lemma TransitKeepsNames(s: Store, r: Id, t: Transition, actor: Id)
    requires UniqueNames(s)
    ensures UniqueNames(Transit(s, r, t, actor).0)
  {
    NamesStay(s, Transit(s, r, t, actor).0);
  }

  lemma AcquireKeepsNames(s: Store, now: Time, dir: Directory, q: Request, key: string, caller: Caller, newId: Id)
    requires UniqueNames(s)
    ensures UniqueNames(Acquire(s, now, dir, q, key, caller, newId).0)
  {
    NamesStay(s, Acquire(s, now, dir, q, key, caller, newId).0);
  }

  lemma CreateKeepsNames(s: Store, r: Id, d: Draft, actor: Id)
    requires UniqueNames(s)
    ensures UniqueNames(Create(s, r, d, actor).0)
  {}

  lemma UpdateKeepsNames(s: Store, r: Id, p: Patch, actor: Id)
    requires UniqueNames(s)
    ensures UniqueNames(Update(s, r, p, actor).0)
  {}

  lemma StepSound(s: Store, clock: Time, now: Time, op: Op)
    requires Sound(s, clock) && clock <= now
    ensures Sound(Step(s, now, op).0, now)
  {
    var t := Step(s, now, op).0;
    StepMoves(s, now, op);
    LeasesStepSound(s, clock, now, t);
    SealedStep(s, clock, now, t);
    UniqueKeysStep(s, clock, now, t);
    UniqueNamesStep(s, now, op);
    forall r | r in t.resources ensures ResourceSound(t.resources[r], now) {
      if r in s.resources {
        assert ResourceStep(s, now, s.resources[r], t.resources[r], t);
      }
    }
  }

  lemma {:induction false} RunSound(s: Store, clock: Time, trace: seq<Timed>)
    requires Sound(s, clock) && Ordered(clock, trace)
    ensures Sound(Run(s, trace), ClockAfter(clock, trace))
    decreases trace
  {
    if trace != [] {
      var t := Step(s, trace[0].now, trace[0].op).0;
      StepSound(s, clock, trace[0].now, trace[0].op);
      RunSound(t, trace[0].now, trace[1..]);
    }
  }

  lemma EmptyIsSound(clock: Time)
    ensures Sound(EMPTY_STORE, clock)
  {}

  // ----- Archival -----

  /** No lease on an archived resource is active at any instant from the archival on. */
  lemma ArchivedNeverActive(clock: Time, trace: seq<Timed>, l: Id, at: Time)
    requires Ordered(clock, trace)
    ensures
      var s := Run(EMPTY_STORE, trace);
      && (l in s.leases ==> s.leases[l].resource in s.resources)
      && (l in s.leases && s.resources[s.leases[l].resource].archivedAt.Some?
          && s.resources[s.leases[l].resource].archivedAt.value <= at
          ==> !ActiveAt(s.leases[l], at))
  {
    EmptyIsSound(clock);
    RunSound(EMPTY_STORE, clock, trace);
  }

  /** Archival is absorbing for the resource row and for its grants. */
  lemma {:induction false} ArchivedIsFrozen(s: Store, trace: seq<Timed>, r: Id)
    requires Linked(s) && r in s.resources && s.resources[r].archivedAt.Some?
    ensures
      var t := Run(s, trace);
      && r in t.resources && t.resources[r] == s.resources[r]
      && (forall g :: (r, g) in t.grants <==> (r, g) in s.grants)
    decreases trace
  {
    if trace != [] {
      var t := Step(s, trace[0].now, trace[0].op).0;
      StepMoves(s, trace[0].now, trace[0].op);
      assert ResourceStep(s, trace[0].now, s.resources[r], t.resources[r], t);
      ArchivedGrants(s, trace[0].now, trace[0].op, r);
      ArchivedIsFrozen(t, trace[1..], r);
    }
  }

  lemma ArchivedGrants(s: Store, now: Time, op: Op, r: Id)
    requires Linked(s) && r in s.resources && s.resources[r].archivedAt.Some?
    ensures forall g :: (r, g) in Step(s, now, op).0.grants <==> (r, g) in s.grants
  {
    if op.ExpireOp? {
      ExpireMoves(s, now, op.limit);
    }
  }

  // ----- Death is monotone, and the end is final -----

  /** One step keeps every lease, its origin, its death and its end. */
  lemma LeaseContinues(s: Store, clock: Time, now: Time, op: Op, l: Id)
    requires Sound(s, clock) && clock <= now && l in s.leases
    ensures
      var t := Step(s, now, op).0;
      && l in t.leases && t.leases[l].owner == s.leases[l].owner
      && t.leases[l].key == s.leases[l].key && t.leases[l].hash == s.leases[l].hash
      && (!ActiveAt(s.leases[l], clock) ==> !ActiveAt(t.leases[l], now))
  {
    var t := Step(s, now, op).0;
    StepMoves(s, now, op);
    OldLeaseSteps(s, now, t, l);
    LeaseStepSound(s, clock, now, s.leases[l], t.leases[l]);
  }

  lemma EndedStays(s: Store, now: Time, a: Lease, b: Lease)
    requires LeaseStep(s, now, a, b) && a.endedAt.Some?
    ensures b == a
  {}

  lemma EndIsFinal(s: Store, now: Time, op: Op, l: Id)
    requires Linked(s) && l in s.leases && s.leases[l].endedAt.Some?
    ensures l in Step(s, now, op).0.leases && Step(s, now, op).0.leases[l] == s.leases[l]
  {
    var t := Step(s, now, op).0;
    StepMoves(s, now, op);
    OldLeaseSteps(s, now, t, l);
    EndedStays(s, now, s.leases[l], t.leases[l]);
  }

  lemma {:induction false} DeadStaysDead(s: Store, clock: Time, trace: seq<Timed>, l: Id)
    requires Sound(s, clock) && Ordered(clock, trace) && l in s.leases && !ActiveAt(s.leases[l], clock)
    ensures
      var t := Run(s, trace);
      l in t.leases && !ActiveAt(t.leases[l], ClockAfter(clock, trace))
    decreases trace
  {
    if trace != [] {
      StepSound(s, clock, trace[0].now, trace[0].op);
      LeaseContinues(s, clock, trace[0].now, trace[0].op, l);
      DeadStaysDead(Step(s, trace[0].now, trace[0].op).0, trace[0].now, trace[1..], l);
    }
  }

  lemma {:induction false} EndedNeverChanges(s: Store, trace: seq<Timed>, l: Id)
    requires Linked(s) && l in s.leases && s.leases[l].endedAt.Some?
    ensures l in Run(s, trace).leases && Run(s, trace).leases[l] == s.leases[l]
    decreases trace
  {
    if trace != [] {
      StepMoves(s, trace[0].now, trace[0].op);
      EndIsFinal(s, trace[0].now, trace[0].op, l);
      EndedNeverChanges(Step(s, trace[0].now, trace[0].op).0, trace[1..], l);
    }
  }

  /** Once a lease is dead, no caller is ever shown a secret through it again. */
  lemma {:induction false} DeadLeaseDisclosesNothing(s: Store, clock: Time, trace: seq<Timed>, l: Id,
                                  later: Time, dir: Directory, caller: Caller)
    requires Sound(s, clock) && Ordered(clock, trace) && l in s.leases && !ActiveAt(s.leases[l], clock)
    requires ClockAfter(clock, trace) <= later
    ensures !MayDisclose(Run(s, trace), later, dir, l, caller)
  {
    DeadStaysDead(s, clock, trace, l);
  }

  // ----- Exclusivity, serially -----

  /** When a lease is granted to an Exclusive request, every other lease on its resource is dead. */
  lemma ExclusiveGrantIsAlone(s: Store, clock: Time, now: Time, dir: Directory, q: Request, key: string,
                              caller: Caller, newId: Id, other: Id)
    requires Sound(s, clock) && q.sharing == Exclusive
    ensures
      var (t, r) := Acquire(s, now, dir, q, key, caller, newId);
      r.Ok? && t != s && other in s.leases && other != r.value && s.leases[other].resource == t.leases[r.value].resource
      ==> t.leases[other] == s.leases[other] && !ActiveAt(t.leases[other], now)
  {
    var (t, r) := Acquire(s, now, dir, q, key, caller, newId);
    if r.Ok? && t != s && other in s.leases {
      var c := First(Candidates(s, now, dir, q, caller)).id;
      assert |ActiveLeases(s, c, now)| == 0;
      assert other !in ActiveLeases(s, c, now);
    }
  }

  /** A patch that does nothing but make a resource Exclusive. */
  function MakeExclusive(version: int): Patch {
    Patch(version, None, None, Some(Exclusive), None, None, None, None, None)
  }

  /**
   * The guarantee is about grants, not about the resource's present mode: a Shared resource with
   * any number of active leases can be made Exclusive, and keeps them all.
   */
  lemma ModeChangesUnderLeases(s: Store, clock: Time, now: Time, r: Id, actor: Id)
    requires Sound(s, clock) && r in s.resources && s.resources[r].archivedAt.None?
    ensures
      var (t, o) := Step(s, now, UpdateOp(r, MakeExclusive(s.resources[r].version), actor));
      && o == Finished && r in t.resources && t.resources[r].sharing == Exclusive
      && ActiveLeases(t, r, now) == ActiveLeases(s, r, now)
  {
    assert ResourceSound(s.resources[r], clock);
  }

  // ----- TTL policies -----

  /** The selection filters leave no row on which resolving the requested TTL could fail. */
  lemma CandidatesResolve(x: Resource, q: Request)
    requires HasValidPolicy(x) && RowMatches(x, q)
    ensures ResolveTtl(x, q.ttl).Ok?
  {}

  /** In a reachable store, an acquisition is never refused over its TTL. */
  lemma AcquireNeverRefusesTtl(s: Store, clock: Time, now: Time, dir: Directory, q: Request, key: string,
                               caller: Caller, newId: Id)
    requires Sound(s, clock)
    ensures
      var r := Acquire(s, now, dir, q, key, caller, newId).1;
      r != Err(RequiresExpiration) && r != Err(ExceedsMaximum)
  {
    var candidates := Candidates(s, now, dir, q, caller);
    if candidates != {} {
      CandidatesResolve(s.resources[First(candidates).id], q);
    }
  }

  /** A finite expiry lies strictly after acquisition, at most 2^31 - 1 seconds after its base. */
  lemma ExpiryBounds(clock: Time, trace: seq<Timed>, l: Id)
    requires Ordered(clock, trace)
    ensures
      var s := Run(EMPTY_STORE, trace);
      l in s.leases && s.leases[l].expiresAt.Some? ==>
        && s.leases[l].acquiredAt < s.leases[l].expiresAt.value
        && (s.leases[l].expiresAt.value - Base(s.leases[l])) % SECOND == 0
        && 1 <= (s.leases[l].expiresAt.value - Base(s.leases[l])) / SECOND <= MAX_TTL_SECONDS
  {
    EmptyIsSound(clock);
    RunSound(EMPTY_STORE, clock, trace);
    var s := Run(EMPTY_STORE, trace);
    if l in s.leases && s.leases[l].expiresAt.Some? {
      assert LeaseSound(s.leases[l], ClockAfter(clock, trace));
      var ttl :| s.leases[l].expiresAt == ExpiryFrom(Base(s.leases[l]), ttl);
    }
  }

  /** The TTL field of an acquisition or a renewal, and who sent it. */
  function TtlField(op: Op): TtlIntent
    requires op.AcquireOp? || op.RenewOp?
  {
    if op.AcquireOp? then op.request.ttl else op.intent
  }

  function Sender(op: Op): Id
    requires op.AcquireOp? || op.RenewOp?
  {
    if op.AcquireOp? then op.caller.id else op.principal
  }

  /**
   * `at` is the step of a run that gave lease `l` its present expiry: its owner's acquisition, or a
   * renewal while it was active. The expiry is the requested number of seconds from that instant, or
   * the default then in force where the field was omitted, and the policy then in force admits it.
   */
  ghost predicate SetsExpiry(before: Store, at: Timed, l: Id, x: Lease) {
    && ((at.op.AcquireOp? && l == at.op.newId && l !in before.leases)
        || (at.op.RenewOp? && l == at.op.lease && l in before.leases && ActiveAt(before.leases[l], at.now)))
    && Sender(at.op) == x.owner
    && x.resource in before.resources
    && var policy := before.resources[x.resource];
    && var ttl := if TtlField(at.op).Omitted? then policy.defaultTtl else TtlField(at.op).seconds;
    && Admits(policy, ttl)
    && Base(x) == at.now
    && (ttl == None ==> x.expiresAt == None)
    && (forall n: Ttl :: ttl == Some(n) ==> x.expiresAt == Some(at.now + n * 1_000_000))
  }

  ghost predicate HasSource(s: Store, trace: seq<Timed>, l: Id, x: Lease)
    requires Linked(s)
  {
    exists k: nat :: k < |trace| && SetsExpiry(Run(s, trace[..k]), trace[k], l, x)
  }

  predicate SameExpiry(a: Lease, b: Lease) {
    && b.expiresAt == a.expiresAt && b.lastRenewedAt == a.lastRenewedAt
    && b.acquiredAt == a.acquiredAt && b.resource == a.resource && b.owner == a.owner
  }

  lemma AcquireSetsExpiry(s: Store, now: Time, op: Op, l: Id)
    requires Linked(s) && op.AcquireOp? && l in Step(s, now, op).0.leases
    ensures
      var x := Step(s, now, op).0.leases[l];
      (l in s.leases && SameExpiry(s.leases[l], x)) || SetsExpiry(s, At(now, op), l, x)
  {
    var t := Step(s, now, op).0;
    if t != s && l == op.newId {
      ResolvedIsAdmitted(s.resources[t.leases[l].resource], op.request.ttl);
    }
  }

  lemma RenewSetsExpiry(s: Store, now: Time, op: Op, l: Id)
    requires Linked(s) && op.RenewOp? && l in Step(s, now, op).0.leases
    ensures
      var x := Step(s, now, op).0.leases[l];
      (l in s.leases && SameExpiry(s.leases[l], x)) || SetsExpiry(s, At(now, op), l, x)
  {
    var t := Step(s, now, op).0;
    if t != s && l == op.lease {
      ResolvedIsAdmitted(s.resources[t.leases[l].resource], op.intent);
    }
  }

  lemma StepSetsExpiry(s: Store, now: Time, op: Op, l: Id)
    requires Linked(s) && l in Step(s, now, op).0.leases
    ensures
      var x := Step(s, now, op).0.leases[l];
      (l in s.leases && SameExpiry(s.leases[l], x)) || SetsExpiry(s, At(now, op), l, x)
  {
    match op
    case AcquireOp(_, _, _, _, _) => AcquireSetsExpiry(s, now, op, l);
    case RenewOp(_, _, _) => RenewSetsExpiry(s, now, op, l);
    case ExpireOp(limit) => ExpireMoves(s, now, limit);
    case _ =>
  }

  lemma ShiftSource(s: Store, trace: seq<Timed>, l: Id, x: Lease)
    requires Linked(s) && trace != []
    requires Linked(Step(s, trace[0].now, trace[0].op).0)
    requires HasSource(Step(s, trace[0].now, trace[0].op).0, trace[1..], l, x)
    ensures HasSource(s, trace, l, x)
  {
    var t := Step(s, trace[0].now, trace[0].op).0;
    var k: nat :| k < |trace[1..]| && SetsExpiry(Run(t, trace[1..][..k]), trace[1..][k], l, x);
    assert trace[..k + 1][1..] == trace[1..][..k] && trace[..k + 1][0] == trace[0];
    assert SetsExpiry(Run(s, trace[..k + 1]), trace[k + 1], l, x);
  }

  lemma SourceMoves(before: Store, at: Timed, l: Id, x: Lease, y: Lease)
    requires SetsExpiry(before, at, l, x) && SameExpiry(x, y)
    ensures SetsExpiry(before, at, l, y)
  {}

  lemma FirstIsSource(s: Store, trace: seq<Timed>, l: Id, x: Lease)
    requires Linked(s) && trace != [] && SetsExpiry(s, trace[0], l, x)
    ensures HasSource(s, trace, l, x)
  {
    assert trace[..0] == [];
    assert SetsExpiry(Run(s, trace[..0]), trace[0], l, x);
  }

  /**
   * Every expiry in a reachable store was set by one acquisition or renewal of that lease, by the
   * requested TTL or the default in force at that very step, and nothing has moved it since.
   */
  lemma {:induction false} ExpiryHasSource(s: Store, trace: seq<Timed>, l: Id)
    requires Linked(s) && l in Run(s, trace).leases
    ensures
      var x := Run(s, trace).leases[l];
      || (l in s.leases && SameExpiry(s.leases[l], x))
      || HasSource(s, trace, l, x)
    decreases trace
  {
    if trace != [] {
      var t := Step(s, trace[0].now, trace[0].op).0;
      StepMoves(s, trace[0].now, trace[0].op);
      ExpiryHasSource(t, trace[1..], l);
      var x := Run(t, trace[1..]).leases[l];
      if HasSource(t, trace[1..], l, x) {
        ShiftSource(s, trace, l, x);
      } else {
        StepSetsExpiry(s, trace[0].now, trace[0].op, l);
        if SetsExpiry(s, trace[0], l, t.leases[l]) {
          SourceMoves(s, trace[0], l, t.leases[l], x);
          FirstIsSource(s, trace, l, x);
        }
      }
    }
  }

  // ----- Idempotency -----

  lemma {:induction false} HolderPersists(s: Store, clock: Time, trace: seq<Timed>, l: Id)
    requires Sound(s, clock) && Ordered(clock, trace) && l in s.leases
    ensures
      var t := Run(s, trace);
      && l in t.leases && t.leases[l].owner == s.leases[l].owner
      && t.leases[l].key == s.leases[l].key && t.leases[l].hash == s.leases[l].hash
    decreases trace
  {
    if trace != [] {
      StepSound(s, clock, trace[0].now, trace[0].op);
      LeaseContinues(s, clock, trace[0].now, trace[0].op, l);
      HolderPersists(Step(s, trace[0].now, trace[0].op).0, trace[0].now, trace[1..], l);
    }
  }

  lemma AnsweredLease(s: Store, now: Time, dir: Directory, q: Request, key: string, caller: Caller, newId: Id)
    ensures
      var (t, r) := Acquire(s, now, dir, q, key, caller, newId);
      r.Ok? ==>
        && r.value in t.leases && t.leases[r.value].owner == caller.id
        && t.leases[r.value].key == key && t.leases[r.value].hash == Canonical(q)
  {}

  /** A stored key answers with its own lease to the stored request, and conflicts otherwise. */
  lemma KeyReplays(u: Store, clock: Time, l: Id, later: Time, dir: Directory, q: Request, administrator: bool,
                   newId: Id)
    requires Sound(u, clock) && l in u.leases
    ensures
      Acquire(u, later, dir, q, u.leases[l].key, Caller(u.leases[l].owner, administrator), newId)
        == (u, if u.leases[l].hash == Canonical(q) then Ok(l) else Err(KeyReused))
  {
    var holders := Holders(u, u.leases[l].owner, u.leases[l].key);
    assert Rank(0, None, l) in holders;
    assert First(holders).id == l;
  }

  /**
   * After an acquisition answered `l`, whatever happens next, repeating the key answers `l` again
   * and changes nothing, exactly when the request is the same; any other request conflicts.
   */
  lemma {:induction false} AcquireIsIdempotent(s: Store, clock: Time, now: Time, dir: Directory, q: Request,
                                              key: string, caller: Caller, newId: Id, trace: seq<Timed>,
                                              later: Time, dir': Directory, q': Request,
                                              administrator: bool, newId': Id)
    requires Sound(s, clock) && clock <= now && Ordered(now, trace)
    requires Acquire(s, now, dir, q, key, caller, newId).1.Ok?
    ensures
      var (t, r) := Acquire(s, now, dir, q, key, caller, newId);
      Linked(t) &&
      var u := Run(t, trace);
      Acquire(u, later, dir', q', key, Caller(caller.id, administrator), newId')
        == (u, if q' == q then Ok(r.value) else Err(KeyReused))
  {
    var (t, r) := Acquire(s, now, dir, q, key, caller, newId);
    AcquireMoves(s, now, dir, q, key, caller, newId);
    StepSound(s, clock, now, AcquireOp(dir, q, key, caller, newId));
    AnsweredLease(s, now, dir, q, key, caller, newId);
    HolderPersists(t, now, trace, r.value);
    RunSound(t, now, trace);
    KeyReplays(Run(t, trace), ClockAfter(now, trace), r.value, later, dir', q', administrator, newId');
    CanonicalInjective(q, q');
  }

  /** A key is taken after an acquisition exactly when it was before or the acquisition succeeded. */
  lemma FailureKeepsKeyFree(s: Store, now: Time, dir: Directory, q: Request, key: string, caller: Caller, newId: Id)
    ensures
      var (t, r) := Acquire(s, now, dir, q, key, caller, newId);
      && (Holders(t, caller.id, key) != {} <==> Holders(s, caller.id, key) != {} || r.Ok?)
      && (r.Err? ==> t == s)
  {
    var (t, r) := Acquire(s, now, dir, q, key, caller, newId);
    if r.Ok? {
      assert Rank(0, None, r.value) in Holders(t, caller.id, key);
    }
  }

  // ----- Optimistic concurrency -----

  /** A patch that carried version `p.version` and was applied. */
  predicate Applies(s: Store, now: Time, r: Id, p: Patch, actor: Id)
    requires Linked(s)
  {
    !IsEmpty(p) && Step(s, now, UpdateOp(r, p, actor)).1 == Finished
  }

  lemma {:induction false} VersionsGrow(s: Store, trace: seq<Timed>, r: Id)
    requires Linked(s) && r in s.resources
    ensures r in Run(s, trace).resources && s.resources[r].version <= Run(s, trace).resources[r].version
    decreases trace
  {
    if trace != [] {
      var t := Step(s, trace[0].now, trace[0].op).0;
      StepMoves(s, trace[0].now, trace[0].op);
      assert ResourceStep(s, trace[0].now, s.resources[r], t.resources[r], t);
      VersionsGrow(t, trace[1..], r);
    }
  }

  /** Of two non-empty updates to a resource, both applied, the later carries the larger version. */
  lemma NoLostUpdate(s: Store, now: Time, r: Id, p: Patch, actor: Id, trace: seq<Timed>,
                     later: Time, p': Patch, actor': Id)
    requires Linked(s) && Applies(s, now, r, p, actor)
    requires Linked(Step(s, now, UpdateOp(r, p, actor)).0)
    requires Applies(Run(Step(s, now, UpdateOp(r, p, actor)).0, trace), later, r, p', actor')
    ensures p.version < p'.version
  {
    VersionsGrow(Step(s, now, UpdateOp(r, p, actor)).0, trace, r);
  }

  /** No operation here puts a resource into Cleaning. */
  lemma CleaningUnreachable(clock: Time, trace: seq<Timed>, r: Id)
    requires Ordered(clock, trace)
    ensures r in Run(EMPTY_STORE, trace).resources ==> Run(EMPTY_STORE, trace).resources[r].status != Cleaning
  {
    EmptyIsSound(clock);
    RunSound(EMPTY_STORE, clock, trace);
  }
}
