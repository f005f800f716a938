/**
 * Interleavings in which no resource row is rewritten: grants may change, leases may come and go,
 * but nobody updates, archives or transitions a resource. There only batches can deadlock.
 */
module StableRows {
  import opened Types
  import opened Catalog
  import opened Interleaving
  import opened Exclusivity
  import opened Deadlock

  /** Work that leaves every resource row alone: on grants, or an update that names no field. */
  predicate Sparing(w: Work) {
    w.Regranting? || (w.Patching? && IsEmpty(w.patch))
  }

  /** No transaction of the run sets out to rewrite a resource row. */
  predicate RewritesNothing(moves: seq<Move>) {
    forall i | 0 <= i < |moves| :: moves[i].Begin? && moves[i].point.Managing? ==> Sparing(moves[i].point.work)
  }

  /** The same rows up to the stamp of their last lease. */
  ghost predicate SameRows(a: Store, b: Store) {
    forall r :: r in a.resources ==>
      r in b.resources && b.resources[r] == a.resources[r].(lastLeasedAt := b.resources[r].lastLeasedAt)
  }

  /** A selection under way sees today's rows, and has passed over none. */
  ghost predicate Fresh(s: Sys, tx: Tx, seen: Store) {
    SameRows(seen, s.db) && forall r :: !Holds(s, tx, ResourceRow(r))
  }

  ghost predicate Steady(s: Sys, tx: Tx)
    requires tx in s.txns
  {
    match s.txns[tx].point
    case Choosing(_, seen) => Fresh(s, tx, seen)
    case Claiming(a, seen, row) => Fresh(s, tx, seen) && Interleaving.Offered(seen, s.txns[tx].start, a, row)
    case Managing(_, w) => Sparing(w)
    case Managed(_, w) => Sparing(w)
    case Settled(_, w) => Sparing(w)
    case _ => true
  }

  ghost predicate AllSteady(s: Sys) {
    forall tx :: tx in s.txns ==> Steady(s, tx)
  }

  /** On unchanged rows the re-evaluation never fails. */
  lemma NothingIsPassedOver(seen: Store, db: Store, start: Time, a: Ask, row: Id)
    requires SameRows(seen, db) && Interleaving.Offered(seen, start, a, row)
    ensures Requalifies(seen, db, start, a, row)
  {
    var now := seen.(resources := db.resources);
    assert ActiveLeases(now, row, start) == ActiveLeases(seen, row, start);
    assert now.resources[row].visibility == seen.resources[row].visibility;
    assert Visible(now, a.dir, row, a.caller.id) == Visible(seen, a.dir, row, a.caller.id);
  }

  // ----- Statements -----

  /** Another transaction's statement leaves a steady one steady. */
  lemma OtherStaysSteady(s: Sys, t: Sys, tx: Tx, u: Tx)
    requires Private(s, t, tx) && u != tx && u in s.txns && u in t.txns && t.txns[u] == s.txns[u] && Steady(s, u)
    ensures Steady(t, u)
  {}

  lemma TriedIsSteady(s: Sys, tx: Tx, a: Ask, seen: Store, row: Id)
    requires tx in s.txns && Fresh(s, tx, seen) && Interleaving.Offered(seen, s.txns[tx].start, a, row)
    ensures tx in Tried(s, tx, a, seen, row).txns && Tried(s, tx, a, seen, row).txns[tx].point.Claimed?
  {
    NothingIsPassedOver(seen, s.db, s.txns[tx].start, a, row);
  }

  lemma AcquiringStaysSteady(h: Hash, s: Sys, tx: Tx, act: Act)
    requires Disciplined(s) && tx in s.txns && Steady(s, tx)
    requires Acquiring(s.txns[tx].point) && NextAcquiring(h, s, tx, act).Some?
    ensures var t := NextAcquiring(h, s, tx, act).value; tx in t.txns ==> Steady(t, tx)
  {
    match s.txns[tx].point
    case Unheld(_) =>
      forall r ensures !Holds(s, tx, ResourceRow(r)) {
        assert !MayHold(s.txns[tx].point, ResourceRow(r));
      }
    case Choosing(a, seen) =>
      if act.Claim? {
        TriedIsSteady(s, tx, a, seen, act.row);
      }
    case Claiming(a, seen, row) => TriedIsSteady(s, tx, a, seen, row);
    case _ =>
  }

  lemma OwnStaysSteady(h: Hash, s: Sys, tx: Tx, act: Act)
    requires Disciplined(s) && tx in s.txns && Steady(s, tx) && Next(h, s, tx, act).Some?
    ensures var t := Next(h, s, tx, act).value; tx in t.txns ==> Steady(t, tx)
  {
    var p := s.txns[tx].point;
    if Acquiring(p) {
      AcquiringStaysSteady(h, s, tx, act);
    } else if Renewal(p) {
      RenewingStaysSteady(s, tx, act);
    } else if p.Managing? || p.Managed? {
      ManagingStaysSteady(s, tx, act);
    } else {
      OthersStaySteady(h, s, tx, act);
    }
  }

  lemma OthersStaySteady(h: Hash, s: Sys, tx: Tx, act: Act)
    requires tx in s.txns && Next(h, s, tx, act).Some?
    requires var p := s.txns[tx].point; !Acquiring(p) && !Renewal(p) && !p.Managing? && !p.Managed?
    ensures var t := Next(h, s, tx, act).value; tx in t.txns ==> Steady(t, tx)
  {
    if s.txns[tx].point.Finishing? || s.txns[tx].point.EndLeased? {
      EndingStaysSteady(s, tx, act);
    }
  }

  lemma EndingStaysSteady(s: Sys, tx: Tx, act: Act)
    requires tx in s.txns && (s.txns[tx].point.Finishing? || s.txns[tx].point.EndLeased?)
    requires NextEnding(s, tx, act).Some?
    ensures Steady(NextEnding(s, tx, act).value, tx)
  {}

  lemma RenewingStaysSteady(s: Sys, tx: Tx, act: Act)
    requires tx in s.txns && Renewal(s.txns[tx].point) && NextRenewing(s, tx, act).Some?
    ensures Steady(NextRenewing(s, tx, act).value, tx)
  {}

  lemma ManagingStaysSteady(s: Sys, tx: Tx, act: Act)
    requires tx in s.txns && (s.txns[tx].point.Managing? || s.txns[tx].point.Managed?) && Steady(s, tx)
    requires NextManaging(s, tx, act).Some?
    ensures Steady(NextManaging(s, tx, act).value, tx)
  {}

  // ----- Commits -----

  lemma CommitKeepsRows(s: Sys, tx: Tx)
    requires tx in s.txns && Steady(s, tx) && Published(s, tx).Some?
    ensures SameRows(s.db, Published(s, tx).value.db)
  {}

  /** A commit that keeps the rows keeps everybody else steady. */
  lemma CommitStaysSteady(s: Sys, t: Sys, tx: Tx, u: Tx)
    requires t.txns == s.txns && t.locks == s.locks && SameRows(s.db, t.db)
    requires u in s.txns && u != tx && Steady(s, u)
    ensures Steady(Ended(t, tx), u)
  {}

  // ----- Whole runs -----

  lemma RunningStaysSteady(h: Hash, s: Sys, tx: Tx, act: Act)
    requires Disciplined(s) && AllSteady(s) && Fire(h, s, Run(tx, act)).Some?
    ensures AllSteady(Fire(h, s, Run(tx, act)).value)
  {
    var t := Fire(h, s, Run(tx, act)).value;
    if act == Commit {
      CommitKeepsRows(s, tx);
      PublishingKeepsLocks(s, tx);
      forall u | u in t.txns ensures Steady(t, u) {
        CommitStaysSteady(s, Published(s, tx).value, tx, u);
      }
    } else if act == Abort {
      forall u | u in t.txns ensures Steady(t, u) {
        CommitStaysSteady(s, s, tx, u);
      }
    } else {
      NextIsPrivate(h, s, tx, act);
      OwnStaysSteady(h, s, tx, act);
      forall u | u in t.txns ensures Steady(t, u) {
        if u != tx {
          OtherStaysSteady(s, t, tx, u);
        }
      }
    }
  }

  lemma QuietStaysSteady(h: Hash, s: Sys, m: Move)
    requires AllSteady(s) && !m.Run? && Fire(h, s, m).Some? && RewritesNothing([m])
    ensures AllSteady(Fire(h, s, m).value)
  {
    var t := Fire(h, s, m).value;
    assert m == [m][0];
    forall u | u in t.txns ensures Steady(t, u) {
      if u in s.txns {
        assert t.txns[u] == s.txns[u] && Steady(s, u);
      }
    }
  }

  lemma {:induction false} ReachSteady(h: Hash, s: Sys, moves: seq<Move>, t: Sys)
    requires Disciplined(s) && AllSteady(s) && Reaches(h, s, moves, t) && RewritesNothing(moves)
    ensures Disciplined(t) && AllSteady(t)
    decreases moves
  {
    if moves != [] {
      var m, u := moves[0], Fire(h, s, moves[0]).value;
      FireDisciplined(h, s, m);
      if m.Run? {
        RunningStaysSteady(h, s, m.tx, m.act);
      } else {
        QuietStaysSteady(h, s, m);
      }
      ReachSteady(h, u, moves[1..], t);
    }
  }

  /** Where no resource row is rewritten, every member of every waits-for cycle is a batch. */
  lemma {:induction false} OnlyBatchesDeadlock(h: Hash, s: Sys, moves: seq<Move>, t: Sys, ring: seq<Tx>, k: nat)
    requires Idle(s) && Reaches(h, s, moves, t) && RewritesNothing(moves)
    requires Cycle(h, t, ring) && k < |ring|
    ensures ring[k] in t.txns && t.txns[ring[k]].point.Sweeping?
  {
    DeadlockShape(h, s, moves, t, ring, k);
    ReachSteady(h, s, moves, t);
    assert Steady(t, ring[k]);
  }

  /** So with at most one batch in flight there is no deadlock. */
  lemma {:induction false} OneBatchNeverDeadlocks(h: Hash, s: Sys, moves: seq<Move>, t: Sys, ring: seq<Tx>)
    requires Idle(s) && Reaches(h, s, moves, t) && RewritesNothing(moves)
    requires forall a, b ::
      a in t.txns && b in t.txns && t.txns[a].point.Sweeping? && t.txns[b].point.Sweeping? ==> a == b
    ensures !Cycle(h, t, ring)
  {
    ReachSteady(h, s, moves, t);
    forall a | a in t.txns && t.txns[a].point.Claiming? ensures forall r :: !Holds(t, a, ResourceRow(r)) {
      assert Steady(t, a);
    }
    NoDeadlockWithoutKeptRows(h, s, moves, t, ring);
  }
}
