/** When a resource whose present mode is Exclusive carries at most one active lease. */
module Occupancy {
  import opened Sets
  import opened Types
  import opened Catalog
  import opened Lifecycle
  import opened Invariants

  predicate OnePerExclusive(s: Store, now: Time) {
    forall r | r in s.resources :: s.resources[r].sharing == Exclusive ==> |ActiveLeases(s, r, now)| <= 1
  }

  /** The update passes every check of its branch and writes the row. */
  predicate Accepted(s: Store, r: Id, p: Patch) {
    && r in s.resources && s.resources[r].archivedAt.None?
    && s.resources[r].version == p.version && !IsEmpty(p)
    && HasValidPolicy(Patched(s.resources[r], p))
    && Catalog.NameFree(s, Patched(s.resources[r], p).name, {r})
  }

  /** An accepted update that makes a resource with two or more active leases Exclusive. */
  predicate Overfills(s: Store, now: Time, op: Op) {
    && op.UpdateOp? && Accepted(s, op.resource, op.patch) && op.patch.sharing == Some(Exclusive)
    && |ActiveLeases(s, op.resource, now)| >= 2
  }

  /** Leases that only move never become active again, so no resource gains one. */
  lemma MovesGainNothing(s: Store, clock: Time, now: Time, t: Store, r: Id)
    requires Sound(s, clock) && clock <= now && t.leases.Keys == s.leases.Keys
    requires forall l :: l in s.leases ==> LeaseStep(s, now, s.leases[l], t.leases[l])
    ensures |ActiveLeases(t, r, now)| <= |ActiveLeases(s, r, now)|
  {
    forall l | l in ActiveLeases(t, r, now) ensures l in ActiveLeases(s, r, now) {
      LeaseStepSound(s, clock, now, s.leases[l], t.leases[l]);
    }
    SubsetSize(ActiveLeases(t, r, now), ActiveLeases(s, r, now));
  }

  /** A new lease on an Exclusive resource is the only active one. */
  lemma InsertionGains(s: Store, now: Time, t: Store, l: Id, r: Id)
    requires Inserts(s, now, t, l) && r in s.resources
    requires s.resources[r].sharing == Exclusive
    ensures |ActiveLeases(t, r, now)| <= if t.leases[l].resource == r then 1 else |ActiveLeases(s, r, now)|
  {
    if t.leases[l].resource == r {
      assert ActiveLeases(t, r, now) <= ActiveLeases(s, r, now) + {l};
      SubsetSize(ActiveLeases(t, r, now), {l});
    } else {
      assert ActiveLeases(t, r, now) == ActiveLeases(s, r, now);
    }
  }

  lemma StepGains(s: Store, clock: Time, now: Time, t: Store, r: Id)
    requires Sound(s, clock) && clock <= now && LeasesStep(s, now, t)
    requires r in s.resources && s.resources[r].sharing == Exclusive && |ActiveLeases(s, r, now)| <= 1
    ensures |ActiveLeases(t, r, now)| <= 1
  {
    if l :| Inserts(s, now, t, l) {
      InsertionGains(s, now, t, l, r);
    } else {
      MovesGainNothing(s, clock, now, t, r);
    }
  }

  /** No operation but an update changes the mode of an existing resource. */
  lemma ModesStay(s: Store, now: Time, op: Op, r: Id)
    requires Linked(s) && !op.UpdateOp? && r in s.resources
    ensures var t := Step(s, now, op).0; r in t.resources && t.resources[r].sharing == s.resources[r].sharing
  {
    if op.ExpireOp? {
      ExpireMoves(s, now, op.limit);
    }
  }

  lemma OnlyCreationAdds(s: Store, now: Time, op: Op, r: Id)
    requires Linked(s) && r !in s.resources && r in Step(s, now, op).0.resources
    ensures Step(s, now, op).0.leases == s.leases
  {
    if op.ExpireOp? {
      ExpireMoves(s, now, op.limit);
    }
  }

  lemma NewResourcesAreEmpty(s: Store, t: Store, now: Time, r: Id)
    requires Linked(s) && r !in s.resources && t.leases == s.leases
    ensures ActiveLeases(t, r, now) == {}
  {}

  lemma OtherStepKeepsOne(s: Store, clock: Time, now: Time, op: Op)
    requires Sound(s, clock) && clock <= now && OnePerExclusive(s, now) && !op.UpdateOp?
    ensures OnePerExclusive(Step(s, now, op).0, now)
  {
    var t := Step(s, now, op).0;
    StepMoves(s, now, op);
    forall r | r in t.resources && t.resources[r].sharing == Exclusive ensures |ActiveLeases(t, r, now)| <= 1 {
      if r in s.resources {
        ModesStay(s, now, op, r);
        StepGains(s, clock, now, t, r);
      } else {
        OnlyCreationAdds(s, now, op, r);
        NewResourcesAreEmpty(s, t, now, r);
      }
    }
  }

  lemma UpdateAccepts(s: Store, r: Id, p: Patch, actor: Id)
    ensures
      var t := Update(s, r, p, actor).0;
      && t.leases == s.leases
      && t.resources == if Accepted(s, r, p) then s.resources[r := Patched(s.resources[r], p)] else s.resources
  {}

  lemma UpdateKeepsOneExactly(s: Store, now: Time, r: Id, p: Patch, actor: Id)
    requires OnePerExclusive(s, now)
    ensures OnePerExclusive(Update(s, r, p, actor).0, now) <==> !Overfills(s, now, UpdateOp(r, p, actor))
  {
    var t := Update(s, r, p, actor).0;
    UpdateAccepts(s, r, p, actor);
    forall k ensures ActiveLeases(t, k, now) == ActiveLeases(s, k, now) {}
  }

  /**
   * From a reachable store in which every Exclusive resource carries at most one active lease, a
   * step keeps that exactly when it is not an accepted update that makes a resource with two or
   * more active leases Exclusive.
   */
  lemma KeepsOneExactlyWhen(s: Store, clock: Time, now: Time, op: Op)
    requires Sound(s, clock) && clock <= now && OnePerExclusive(s, now)
    ensures OnePerExclusive(Step(s, now, op).0, now) <==> !Overfills(s, now, op)
  {
    if op.UpdateOp? {
      UpdateKeepsOneExactly(s, now, op.resource, op.patch, op.actor);
    } else {
      OtherStepKeepsOne(s, clock, now, op);
    }
  }

  lemma OneLater(s: Store, clock: Time, now: Time)
    requires OnePerExclusive(s, clock) && clock <= now
    ensures OnePerExclusive(s, now)
  {
    forall r | r in s.resources && s.resources[r].sharing == Exclusive ensures |ActiveLeases(s, r, now)| <= 1 {
      SubsetSize(ActiveLeases(s, r, now), ActiveLeases(s, r, clock));
    }
  }

  /** No step of the run overfills a resource at its own moment. */
  predicate NeverOverfills(s: Store, trace: seq<Timed>)
    requires Linked(s)
    decreases trace
  {
    trace != [] ==> (
      StepMoves(s, trace[0].now, trace[0].op);
      && !Overfills(s, trace[0].now, trace[0].op)
      && NeverOverfills(Step(s, trace[0].now, trace[0].op).0, trace[1..]))
  }

  /** In every run without such an update, an Exclusive resource has at most one active lease at the end. */
  lemma {:induction false} RunKeepsOne(s: Store, clock: Time, trace: seq<Timed>)
    requires Sound(s, clock) && Ordered(clock, trace) && OnePerExclusive(s, clock) && NeverOverfills(s, trace)
    ensures OnePerExclusive(Run(s, trace), ClockAfter(clock, trace))
    decreases trace
  {
    if trace != [] {
      var now, op := trace[0].now, trace[0].op;
      OneLater(s, clock, now);
      StepSound(s, clock, now, op);
      KeepsOneExactlyWhen(s, clock, now, op);
      RunKeepsOne(Step(s, now, op).0, now, trace[1..]);
    }
  }
}
