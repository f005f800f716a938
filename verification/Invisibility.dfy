/** The expiration worker writes down only what was already true: no decision can tell it ran. */
module Invisibility {
  import opened Types
  import opened Ranks
  import opened Catalog
  import opened Leasing
  import opened Lifecycle

  /** A lease without its end. */
  function Body(l: Lease): Lease {
    l.(endedAt := None, endReason := None)
  }

  /** Equal rows, or rows of one lease that both count as dead and differ only in how it ended. */
  predicate Alike(a: Lease, b: Lease, now: Time) {
    a == b || (Body(a) == Body(b) && !ActiveAt(a, now) && !ActiveAt(b, now))
  }

  /** Stores that only the end fields of dead leases, and the log of those ends, tell apart. */
  ghost predicate Similar(s: Store, t: Store, now: Time) {
    && s.resources == t.resources && s.grants == t.grants
    && s.leases.Keys == t.leases.Keys
    && (forall l :: l in s.leases ==> Alike(s.leases[l], t.leases[l], now))
  }

  // ----- What similar stores agree on -----

  lemma SameActivity(s: Store, t: Store, now: Time, later: Time, r: Id)
    requires Similar(s, t, now) && now <= later
    ensures ActiveLeases(s, r, later) == ActiveLeases(t, r, later)
  {
    forall l | l in s.leases
      ensures s.leases[l].resource == t.leases[l].resource
        && ActiveAt(s.leases[l], later) == ActiveAt(t.leases[l], later)
    {
      assert Alike(s.leases[l], t.leases[l], now);
      assert Body(s.leases[l]).resource == Body(t.leases[l]).resource;
    }
  }

  lemma SameHolders(s: Store, t: Store, now: Time, principal: Id, key: string)
    requires Similar(s, t, now)
    ensures Holders(s, principal, key) == Holders(t, principal, key)
    ensures forall l :: l in s.leases ==> s.leases[l].hash == t.leases[l].hash
  {
    forall l | l in s.leases
      ensures s.leases[l].owner == t.leases[l].owner && s.leases[l].key == t.leases[l].key
        && s.leases[l].hash == t.leases[l].hash
    {
      assert Alike(s.leases[l], t.leases[l], now);
      assert Body(s.leases[l]).owner == Body(t.leases[l]).owner;
    }
  }

  lemma SameEligible(s: Store, t: Store, now: Time, dir: Directory, q: Request, caller: Caller, r: Id)
    requires Similar(s, t, now) && r in s.resources
    ensures Eligible(s, now, dir, q, caller, r) == Eligible(t, now, dir, q, caller, r)
    ensures RankOf(s, now, r) == RankOf(t, now, r)
  {
    SameActivity(s, t, now, now, r);
    assert Visible(s, dir, r, caller.id) == Visible(t, dir, r, caller.id);
  }

  lemma SameCandidates(s: Store, t: Store, now: Time, dir: Directory, q: Request, caller: Caller)
    requires Similar(s, t, now)
    ensures Candidates(s, now, dir, q, caller) == Candidates(t, now, dir, q, caller)
  {
    forall r | r in s.resources
      ensures Eligible(s, now, dir, q, caller, r) == Eligible(t, now, dir, q, caller, r)
        && RankOf(s, now, r) == RankOf(t, now, r)
    {
      SameEligible(s, t, now, dir, q, caller, r);
    }
    forall x ensures x in Candidates(s, now, dir, q, caller) <==> x in Candidates(t, now, dir, q, caller) {}
  }

  /** Availability, active counts, listings and disclosure through a lease never see the difference. */
  lemma {:induction false} SameView(s: Store, t: Store, now: Time, later: Time, r: Id, dir: Directory,
                                   query: Query, l: Id, caller: Caller)
    requires Similar(s, t, now) && now <= later && Linked(s) && Linked(t)
    ensures |ActiveLeases(s, r, later)| == |ActiveLeases(t, r, later)|
    ensures r in s.resources ==> Available(s, r, later) == Available(t, r, later)
    ensures Listing(s, later, dir, query, caller) == Listing(t, later, dir, query, caller)
    ensures MayDisclose(s, later, dir, l, caller) == MayDisclose(t, later, dir, l, caller)
  {
    SameActivity(s, t, now, later, r);
    forall k | k in s.resources
      ensures Available(s, k, later) == Available(t, k, later)
        && Visible(s, dir, k, caller.id) == Visible(t, dir, k, caller.id)
    {
      SameActivity(s, t, now, later, k);
    }
    SameDisclosure(s, t, now, later, dir, l, caller);
  }

  lemma SameDisclosure(s: Store, t: Store, now: Time, later: Time, dir: Directory, l: Id, caller: Caller)
    requires Similar(s, t, now) && now <= later && Linked(s) && Linked(t)
    ensures MayDisclose(s, later, dir, l, caller) == MayDisclose(t, later, dir, l, caller)
  {
    if l in s.leases {
      assert Alike(s.leases[l], t.leases[l], now);
      assert Body(s.leases[l]).owner == Body(t.leases[l]).owner;
      var r := s.leases[l].resource;
      assert Visible(s, dir, r, caller.id) == Visible(t, dir, r, caller.id);
    }
  }

  // ----- Client operations keep similarity and answer alike -----

  lemma Ages(s: Store, t: Store, now: Time, later: Time)
    requires Similar(s, t, now) && now <= later
    ensures Similar(s, t, later)
  {
    forall l | l in s.leases ensures Alike(s.leases[l], t.leases[l], later) {
      assert Alike(s.leases[l], t.leases[l], now);
    }
  }

  lemma PutBoth(s: Store, t: Store, now: Time, l: Id, a: Lease, b: Lease)
    requires Similar(s, t, now) && Alike(a, b, now)
    ensures Similar(PutLease(s, l, a), PutLease(t, l, b), now)
  {}

  lemma AcquireAlike(s: Store, t: Store, now: Time, dir: Directory, q: Request, key: string, caller: Caller, newId: Id)
    requires Similar(s, t, now)
    ensures
      var (s', r), (t', r') := Acquire(s, now, dir, q, key, caller, newId), Acquire(t, now, dir, q, key, caller, newId);
      && r == r' && Similar(s', t', now)
      && (r.Ok? && r.value in s'.leases ==> s'.leases[r.value].resource == t'.leases[r.value].resource)
  {
    SameHolders(s, t, now, caller.id, key);
    SameCandidates(s, t, now, dir, q, caller);
    var candidates := Candidates(s, now, dir, q, caller);
    if Holders(s, caller.id, key) == {} && candidates != {} {
      var r := First(candidates).id;
      var ttl := ResolveTtl(s.resources[r], q.ttl);
      if ttl.Ok? && newId !in s.leases {
        var row := NewLease(r, caller.id, key, q, now, ttl.value);
        PutBoth(s, t, now, newId, row, row);
      }
    } else if Holders(s, caller.id, key) != {} {
      var l := First(Holders(s, caller.id, key)).id;
      assert Alike(s.leases[l], t.leases[l], now);
      assert Body(s.leases[l]).resource == Body(t.leases[l]).resource;
    }
  }

  lemma RenewAlike(s: Store, t: Store, now: Time, l: Id, intent: TtlIntent, principal: Id)
    requires Similar(s, t, now) && Linked(s) && Linked(t)
    ensures
      var (s', r), (t', r') := Renew(s, now, l, intent, principal), Renew(t, now, l, intent, principal);
      r == r' && Similar(s', t', now)
  {
    if l in s.leases {
      assert Alike(s.leases[l], t.leases[l], now);
      assert Body(s.leases[l]).owner == Body(t.leases[l]).owner;
    }
  }

  lemma EndAlike(s: Store, t: Store, now: Time, l: Id, e: Ending, principal: Id)
    requires Similar(s, t, now)
    ensures
      var (s', r), (t', r') := End(s, now, l, e, principal), End(t, now, l, e, principal);
      r == r' && Similar(s', t', now)
  {
    if l in s.leases {
      assert Alike(s.leases[l], t.leases[l], now);
      assert Body(s.leases[l]).owner == Body(t.leases[l]).owner;
      assert Body(EndedRow(s.leases[l], now, ReasonOf(e))) == Body(s.leases[l]);
      assert Body(EndedRow(t.leases[l], now, ReasonOf(e))) == Body(t.leases[l]);
    }
  }

  lemma ArchiveAlike(s: Store, t: Store, now: Time, r: Id, actor: Id)
    requires Similar(s, t, now)
    ensures
      var (s', o), (t', o') := Archive(s, now, r, actor), Archive(t, now, r, actor);
      o == o' && Similar(s', t', now)
  {
    SameActivity(s, t, now, now, r);
  }

  lemma CreateAlike(s: Store, t: Store, now: Time, r: Id, d: Draft, actor: Id)
    requires Similar(s, t, now)
    ensures
      var (s', o), (t', o') := Create(s, r, d, actor), Create(t, r, d, actor);
      o == o' && Similar(s', t', now)
  {}

  lemma UpdateAlike(s: Store, t: Store, now: Time, r: Id, p: Patch, actor: Id)
    requires Similar(s, t, now)
    ensures
      var (s', o), (t', o') := Update(s, r, p, actor), Update(t, r, p, actor);
      o == o' && Similar(s', t', now)
  {}

  lemma TransitAlike(s: Store, t: Store, now: Time, r: Id, tr: Transition, actor: Id)
    requires Similar(s, t, now)
    ensures
      var (s', o), (t', o') := Transit(s, r, tr, actor), Transit(t, r, tr, actor);
      o == o' && Similar(s', t', now)
  {}

  lemma GrantAlike(s: Store, t: Store, now: Time, dir: Directory, r: Id, g: Grantee, granted: bool, actor: Id)
    requires Similar(s, t, now)
    ensures
      var (s', o), (t', o') := SetGrant(s, dir, r, g, granted, actor), SetGrant(t, dir, r, g, granted, actor);
      o == o' && Similar(s', t', now)
  {}

  /** One client operation cannot tell two similar stores apart, and leaves them similar. */
  lemma {:induction false} ClientStepAlike(s: Store, t: Store, now: Time, op: Op)
    requires Similar(s, t, now) && Linked(s) && Linked(t) && !op.ExpireOp?
    ensures
      var (s', o), (t', o') := Step(s, now, op), Step(t, now, op);
      o == o' && Similar(s', t', now)
  {
    match op
    case AcquireOp(dir, q, key, caller, newId) => AcquireAlike(s, t, now, dir, q, key, caller, newId);
    case RenewOp(l, intent, principal) => RenewAlike(s, t, now, l, intent, principal);
    case EndOp(l, e, principal) => EndAlike(s, t, now, l, e, principal);
    case ArchiveOp(r, actor) => ArchiveAlike(s, t, now, r, actor);
    case GrantOp(dir, r, g, granted, actor) => GrantAlike(s, t, now, dir, r, g, granted, actor);
    case CreateOp(r, d, actor) => CreateAlike(s, t, now, r, d, actor);
    case UpdateOp(r, p, actor) => UpdateAlike(s, t, now, r, p, actor);
    case TransitionOp(r, tr, actor) => TransitAlike(s, t, now, r, tr, actor);
  }

  lemma BatchIsAlike(s: Store, t: Store, now: Time, limit: nat)
    requires Similar(s, t, now) && Linked(s)
    ensures Similar(ExpireBatch(s, now, limit).0, t, now)
  {
    var u := ExpireBatch(s, now, limit).0;
    ExpireMoves(s, now, limit);
    forall l | l in u.leases ensures Alike(u.leases[l], t.leases[l], now) {
      assert Alike(s.leases[l], t.leases[l], now);
      assert Body(ExpiredRow(s.leases[l])) == Body(s.leases[l]);
    }
  }

  // ----- Whole runs -----

  /** The same trace without the worker. */
  function Clients(trace: seq<Timed>): seq<Timed>
    decreases trace
  {
    if trace == [] then []
    else if trace[0].op.ExpireOp? then Clients(trace[1..])
    else [trace[0]] + Clients(trace[1..])
  }

  /** What the clients of a run are told, in order. */
  function Decisions(s: Store, trace: seq<Timed>): seq<Outcome>
    requires Linked(s)
    decreases trace
  {
    if trace == [] then []
    else
      StepMoves(s, trace[0].now, trace[0].op);
      var (t, o) := Step(s, trace[0].now, trace[0].op);
      if trace[0].op.ExpireOp? then Decisions(t, trace[1..]) else [o] + Decisions(t, trace[1..])
  }

  lemma ClientsNext(trace: seq<Timed>)
    requires trace != []
    ensures
      if trace[0].op.ExpireOp? then Clients(trace) == Clients(trace[1..])
      else Clients(trace) != [] && Clients(trace)[0] == trace[0] && Clients(trace)[1..] == Clients(trace[1..])
  {}

  lemma {:induction false} RunsAlike(s: Store, t: Store, clock: Time, trace: seq<Timed>)
    requires Similar(s, t, clock) && Linked(s) && Linked(t) && Ordered(clock, trace)
    ensures Decisions(s, trace) == Decisions(t, Clients(trace))
    ensures Similar(Run(s, trace), Run(t, Clients(trace)), ClockAfter(clock, trace))
    decreases trace
  {
    if trace != [] {
      var now, op := trace[0].now, trace[0].op;
      ClientsNext(trace);
      Ages(s, t, clock, now);
      StepMoves(s, now, op);
      if op.ExpireOp? {
        BatchIsAlike(s, t, now, op.limit);
        RunsAlike(Step(s, now, op).0, t, now, trace[1..]);
      } else {
        StepMoves(t, now, op);
        ClientStepAlike(s, t, now, op);
        RunsAlike(Step(s, now, op).0, Step(t, now, op).0, now, trace[1..]);
      }
    }
  }

  /**
   * Inserting worker batches anywhere in a run changes no client's answer and no later view: the
   * two final stores differ only in the end fields of leases that are dead in both.
   */
  lemma WorkerIsInvisible(s: Store, clock: Time, trace: seq<Timed>)
    requires Linked(s) && Ordered(clock, trace)
    ensures Decisions(s, trace) == Decisions(s, Clients(trace))
    ensures Similar(Run(s, trace), Run(s, Clients(trace)), ClockAfter(clock, trace))
  {
    RunsAlike(s, s, clock, trace);
  }

  /** Two schedules of the worker around the same client operations are told apart by nobody. */
  lemma AnyTwoWorkersAgree(s: Store, clock: Time, a: seq<Timed>, b: seq<Timed>)
    requires Linked(s) && Ordered(clock, a) && Ordered(clock, b) && Clients(a) == Clients(b)
    ensures Decisions(s, a) == Decisions(s, b)
  {
    WorkerIsInvisible(s, clock, a);
    WorkerIsInvisible(s, clock, b);
  }
}
