/**
 * The two layers meet: the store that any serial run reaches is a database at rest from which the
 * interleaved results hold. Leases are numbered in the order in which the run granted them.
 */
module AtRest {
  import opened Types
  import opened Catalog
  import opened Lifecycle
  import opened Invariants
  import opened Fairness
  import opened Interleaving
  import opened Exclusivity
  import opened Stamps

  function Resting(s: Store, serial: map<Id, nat>, clock: Time): Sys {
    Sys(s, serial, map[], map[], clock, [])
  }

  /** One number for each lease, and every grant to an Exclusive request found the earlier ones dead. */
  ghost predicate Ranked(s: Store, serial: map<Id, nat>) {
    && serial.Keys == s.leases.Keys && Numbered(serial)
    && GrantsExclude(Resting(s, serial, 0))
  }

  lemma RankedIsIdle(s: Store, serial: map<Id, nat>, clock: Time)
    requires Sound(s, clock) && Ranked(s, serial)
    ensures Idle(Resting(s, serial, clock))
  {
    var t := Resting(s, serial, clock);
    forall l | l in s.leases ensures s.leases[l].acquiredAt <= clock {
      assert LeaseSound(s.leases[l], clock);
    }
    forall r | r in s.resources && s.resources[r].archivedAt.Some?
      ensures s.resources[r].archivedAt.value <= clock
    {
      assert ResourceSound(s.resources[r], clock);
    }
    forall a, b | Later(t, a, b) ensures Later(Resting(s, serial, 0), a, b) {}
    assert GrantsExclude(t);
  }

  lemma MovesStayRanked(s: Store, clock: Time, now: Time, t: Store, serial: map<Id, nat>)
    requires Sound(s, clock) && clock <= now && Ranked(s, serial) && t.leases.Keys == s.leases.Keys
    requires forall l :: l in s.leases ==> LeaseStep(s, now, s.leases[l], t.leases[l])
    ensures Ranked(t, serial)
  {
    forall a, b | a in t.leases && b in t.leases && Later(Resting(t, serial, 0), a, b)
      ensures t.leases[a].resource == t.leases[b].resource && t.leases[b].hash.sharing == Exclusive
        ==> !ActiveAt(t.leases[a], t.leases[b].acquiredAt)
    {
      LeaseStepSound(s, clock, now, s.leases[a], t.leases[a]);
      LeaseStepSound(s, clock, now, s.leases[b], t.leases[b]);
      assert Later(Resting(s, serial, 0), a, b) && LeaseSound(s.leases[b], clock);
    }
  }

  lemma InsertStaysRanked(s: Store, now: Time, t: Store, serial: map<Id, nat>, l: Id)
    requires Ranked(s, serial) && Inserts(s, now, t, l)
    ensures Ranked(t, serial[l := |serial|])
  {
    NumberedGrows(serial, l);
    var next := serial[l := |serial|];
    forall a, b | a in t.leases && b in t.leases && Later(Resting(t, next, 0), a, b)
      ensures t.leases[a].resource == t.leases[b].resource && t.leases[b].hash.sharing == Exclusive
        ==> !ActiveAt(t.leases[a], t.leases[b].acquiredAt)
    {
      assert a != l;
      if b == l {
        assert a !in ActiveLeases(s, t.leases[l].resource, now) || t.leases[l].hash.sharing == Shared;
      } else {
        assert Later(Resting(s, serial, 0), a, b);
      }
    }
  }

  // ----- The stamps of a serial run -----

  lemma OnlyAcquisitionsInsert(s: Store, now: Time, op: Op, l: Id)
    requires Linked(s) && Inserts(s, now, Step(s, now, op).0, l)
    ensures op.AcquireOp? && op.newId == l
    ensures
      var t := Step(s, now, op).0;
      var r := t.leases[l].resource;
      t.resources == s.resources[r := s.resources[r].(lastLeasedAt := Some(now))]
  {
    if op.ExpireOp? {
      ExpireMoves(s, now, op.limit);
    }
  }

  lemma InsertStaysStamped(s: Store, clock: Time, now: Time, op: Op, serial: map<Id, nat>, l: Id)
    requires Sound(s, clock) && clock <= now && Ranked(s, serial) && Stamped(Resting(s, serial, 0))
    requires Inserts(s, now, Step(s, now, op).0, l)
    ensures Stamped(Resting(Step(s, now, op).0, serial[l := |serial|], 0))
  {
    var t := Step(s, now, op).0;
    OnlyAcquisitionsInsert(s, now, op, l);
    var x := t.leases[l];
    assert ResourceSound(s.resources[x.resource], clock);
    GrantStamps(Resting(s, serial, 0), Resting(t, serial[l := |serial|], 0), x.resource, l, x);
  }

  lemma MovesStayStamped(s: Store, clock: Time, now: Time, op: Op, serial: map<Id, nat>)
    requires Sound(s, clock) && clock <= now && Stamped(Resting(s, serial, 0))
    requires
      var t := Step(s, now, op).0;
      t.leases.Keys == s.leases.Keys && forall l :: l in s.leases ==> LeaseStep(s, now, s.leases[l], t.leases[l])
    ensures Stamped(Resting(Step(s, now, op).0, serial, 0))
  {
    var t := Step(s, now, op).0;
    StepMoves(s, now, op);
    forall l | l in s.leases
      ensures t.leases[l].resource == s.leases[l].resource && t.leases[l].acquiredAt == s.leases[l].acquiredAt
    {
      LeaseStepSound(s, clock, now, s.leases[l], t.leases[l]);
    }
    forall r | r in s.resources ensures t.resources[r].lastLeasedAt == s.resources[r].lastLeasedAt {
      LastLeased(s, now, op, r);
    }
    StaysStamped(Resting(s, serial, 0), Resting(t, serial, 0));
  }

  lemma StepStaysRanked(s: Store, clock: Time, now: Time, op: Op, serial: map<Id, nat>) returns (next: map<Id, nat>)
    requires Sound(s, clock) && clock <= now && Ranked(s, serial) && Stamped(Resting(s, serial, 0))
    ensures Ranked(Step(s, now, op).0, next) && Stamped(Resting(Step(s, now, op).0, next, 0))
  {
    var t := Step(s, now, op).0;
    StepMoves(s, now, op);
    if l :| Inserts(s, now, t, l) {
      InsertStaysRanked(s, now, t, serial, l);
      InsertStaysStamped(s, clock, now, op, serial, l);
      next := serial[l := |serial|];
    } else {
      MovesStayRanked(s, clock, now, t, serial);
      MovesStayStamped(s, clock, now, op, serial);
      next := serial;
    }
  }

  lemma {:induction false} RunStaysRanked(s: Store, clock: Time, trace: seq<Timed>, serial: map<Id, nat>)
    returns (last: map<Id, nat>)
    requires Sound(s, clock) && Ordered(clock, trace) && Ranked(s, serial) && Stamped(Resting(s, serial, 0))
    ensures Ranked(Lifecycle.Run(s, trace), last) && Stamped(Resting(Lifecycle.Run(s, trace), last, 0))
    decreases trace
  {
    last := serial;
    if trace != [] {
      last := StepStaysRanked(s, clock, trace[0].now, trace[0].op, serial);
      StepSound(s, clock, trace[0].now, trace[0].op);
      last := RunStaysRanked(Step(s, trace[0].now, trace[0].op).0, trace[0].now, trace[1..], last);
    }
  }

  /** Whatever a serial run has done, what it leaves is at rest, and correctly stamped, under some numbering. */
  lemma SerialRunsEndAtRest(clock: Time, trace: seq<Timed>) returns (serial: map<Id, nat>)
    requires Ordered(clock, trace)
    ensures
      var s := Resting(Lifecycle.Run(EMPTY_STORE, trace), serial, ClockAfter(clock, trace));
      Numbered(serial) && Idle(s) && Stamped(s)
  {
    EmptyIsSound(clock);
    RunSound(EMPTY_STORE, clock, trace);
    serial := RunStaysRanked(EMPTY_STORE, clock, trace, map[]);
    var last := Lifecycle.Run(EMPTY_STORE, trace);
    RankedIsIdle(last, serial, ClockAfter(clock, trace));
    StaysStamped(Resting(last, serial, 0), Resting(last, serial, ClockAfter(clock, trace)));
  }
}
