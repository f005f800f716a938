/** Which transactions can be part of a deadlock, and which never are. */
module Deadlock {
  import opened Types
  import opened Interleaving
  import opened Exclusivity

  /** The lock whose statement the transaction has to get through next, if it is about to wait. */
  function Wants(h: Hash, db: Store, p: Point): Option<Lock> {
    match p
    case Keying(a) => Some(SlotOf(h, a))
    case Claiming(_, _, row) => Some(ResourceRow(row))
    case Renewing(id, _, _) => Some(LeaseRow(id))
    case RenewLeased(_, _, read) => Some(ResourceRow(read.resource))
    case Finishing(id, _, _) => Some(LeaseRow(id))
    case EndLeased(_, _, read) => Some(ResourceRow(read.resource))
    case Sweeping(ids, done) =>
      if done < |ids| && ids[done] in db.leases then Some(ResourceRow(db.leases[ids[done]].resource)) else None
    case Managing(row, _) => Some(ResourceRow(row))
    case Disclosing(path) => if path == [] then None else Some(path[0])
    case _ => None
  }

  predicate WaitsFor(h: Hash, s: Sys, a: Tx, b: Tx) {
    && a in s.txns && b in s.txns && a != b
    && Wants(h, s.db, s.txns[a].point).Some?
    && Holds(s, b, Wants(h, s.db, s.txns[a].point).value)
  }

  function Following(i: nat, n: nat): nat {
    if i + 1 < n then i + 1 else 0
  }

  /** Transactions that wait for each other in a ring. */
  predicate Cycle(h: Hash, s: Sys, ring: seq<Tx>) {
    ring != [] && forall i | 0 <= i < |ring| :: WaitsFor(h, s, ring[i], ring[Following(i, |ring|)])
  }

  // ----- What each point can be holding -----

  predicate MayHold(p: Point, lock: Lock) {
    match p
    case Keying(_) => false
    case Keyed(_) => lock.Advisory?
    case Unheld(_) => lock.Advisory?
    case Choosing(_, _) => lock.Advisory? || lock.ResourceRow?
    case Claiming(_, _, _) => lock.Advisory? || lock.ResourceRow?
    case Claimed(_, _) => true
    case Clear(_, _) => true
    case Inserted(_, _, _, _) => true
    case Renewing(_, _, _) => false
    case RenewLeased(_, _, _) => lock.LeaseRow?
    case RenewLocked(_, _, _) => true
    case RenewChecked(_, _, _) => true
    case RenewWritten(_, _, _, _) => true
    case Finishing(_, _, _) => false
    case EndLeased(_, _, _) => lock.LeaseRow?
    case EndLocked(_, _, _) => true
    case Scanning(_) => false
    case Sweeping(_, _) => lock.LeaseRow? || lock.ResourceRow?
    case Creating(_, _) => false
    case Managing(_, _) => false
    case Managed(_, _) => true
    case Settled(_, _) => true
    case Disclosing(path) => Ascending(path) && (path == [] || Level(lock) < Level(path[0]))
  }

  /** Secret paths go upwards, and only a Shared request ever waits for the row it has chosen. */
  predicate Orderly(p: Point) {
    (p.Disclosing? ==> Ascending(p.path)) && (p.Claiming? ==> p.ask.request.sharing == Shared)
  }

  ghost predicate Disciplined(s: Sys) {
    && (forall k :: k in s.locks ==> s.locks[k] in s.txns && MayHold(s.txns[s.locks[k]].point, k))
    && (forall tx :: tx in s.txns ==> Orderly(s.txns[tx].point))
  }

  /** If `tx` itself stays within what its new point may hold, everybody does. */
  lemma OwnStep(s: Sys, t: Sys, tx: Tx)
    requires Disciplined(s) && tx in s.txns && Private(s, t, tx)
    requires forall u :: u in s.txns && u != tx ==> u in t.txns
    requires forall k :: Holds(t, tx, k) ==> tx in t.txns && MayHold(t.txns[tx].point, k)
    requires tx in t.txns ==> Orderly(t.txns[tx].point)
    ensures Disciplined(t)
  {
    forall k | k in t.locks ensures t.locks[k] in t.txns && MayHold(t.txns[t.locks[k]].point, k) {
      var u := t.locks[k];
      if u == tx {
        assert Holds(t, tx, k);
      } else {
        assert k in s.locks && s.locks[k] == u && u in s.txns;
        assert u in t.txns && t.txns[u] == s.txns[u];
      }
    }
  }

  lemma MoveDisciplined(s: Sys, tx: Tx, p: Point)
    requires Disciplined(s) && tx in s.txns && Orderly(p)
    requires forall k :: MayHold(s.txns[tx].point, k) ==> MayHold(p, k)
    ensures Disciplined(At(s, tx, p))
  {
    OwnStep(s, At(s, tx, p), tx);
  }

  lemma LockDisciplined(s: Sys, tx: Tx, lock: Lock, p: Point)
    requires Disciplined(s) && tx in s.txns && Free(s, tx, lock)
    requires Orderly(p)
    requires MayHold(p, lock) && forall k :: MayHold(s.txns[tx].point, k) ==> MayHold(p, k)
    ensures Disciplined(At(Locking(s, tx, lock), tx, p))
  {
    LockIsPrivate(s, tx, lock, p);
    OwnStep(s, At(Locking(s, tx, lock), tx, p), tx);
  }

  lemma EndDisciplined(s: Sys, t: Sys, tx: Tx)
    requires Disciplined(s) && t.txns == s.txns && t.locks == s.locks
    ensures Disciplined(Ended(t, tx))
  {}

  lemma LookUpDisciplined(s: Sys, tx: Tx, a: Ask)
    requires Disciplined(s) && tx in s.txns && s.txns[tx].point == Keyed(a)
    ensures Disciplined(LookedUp(s, tx, a))
  {
    var t := LookedUp(s, tx, a);
    if tx in t.txns {
      MoveDisciplined(s, tx, Unheld(a));
    } else {
      EndDisciplined(s, s.(replies := t.replies), tx);
    }
  }

  lemma TriedDisciplined(s: Sys, tx: Tx, a: Ask, seen: Store, row: Id)
    requires Disciplined(s) && tx in s.txns && Free(s, tx, ResourceRow(row))
    requires s.txns[tx].point.Choosing? || s.txns[tx].point.Claiming?
    ensures Disciplined(Tried(s, tx, a, seen, row))
  {
    LockDisciplined(s, tx, ResourceRow(row), Tried(s, tx, a, seen, row).txns[tx].point);
  }

  lemma AcquiringDisciplined(h: Hash, s: Sys, tx: Tx, act: Act)
    requires Disciplined(s) && tx in s.txns && Acquiring(s.txns[tx].point) && NextAcquiring(h, s, tx, act).Some?
    ensures Disciplined(NextAcquiring(h, s, tx, act).value)
  {
    match s.txns[tx].point
    case Keying(a) => LockDisciplined(s, tx, SlotOf(h, a), Keyed(a));
    case Keyed(a) => LookUpDisciplined(s, tx, a);
    case Unheld(a) => MoveDisciplined(s, tx, Choosing(a, s.db));
    case Choosing(a, seen) =>
      if act.Await? {
        MoveDisciplined(s, tx, Claiming(a, seen, act.row));
      } else {
        TriedDisciplined(s, tx, a, seen, act.row);
      }
    case Claiming(a, seen, row) => TriedDisciplined(s, tx, a, seen, row);
    case Claimed(a, row) => MoveDisciplined(s, tx, Clear(a, row));
    case Clear(_, _) => MoveDisciplined(s, tx, NextAcquiring(h, s, tx, act).value.txns[tx].point);
  }

  lemma RenewingDisciplined(s: Sys, tx: Tx, act: Act)
    requires Disciplined(s) && tx in s.txns && Renewal(s.txns[tx].point) && NextRenewing(s, tx, act).Some?
    ensures Disciplined(NextRenewing(s, tx, act).value)
  {
    var q := NextRenewing(s, tx, act).value.txns[tx].point;
    match s.txns[tx].point
    case Renewing(id, _, _) => LockDisciplined(s, tx, LeaseRow(id), q);
    case RenewLeased(_, _, read) => LockDisciplined(s, tx, ResourceRow(read.resource), q);
    case RenewLocked(_, _, _) => MoveDisciplined(s, tx, q);
    case RenewChecked(_, _, _) => MoveDisciplined(s, tx, q);
  }

  lemma EndingDisciplined(s: Sys, tx: Tx, act: Act)
    requires Disciplined(s) && tx in s.txns && (s.txns[tx].point.Finishing? || s.txns[tx].point.EndLeased?)
    requires NextEnding(s, tx, act).Some?
    ensures Disciplined(NextEnding(s, tx, act).value)
  {
    var q := NextEnding(s, tx, act).value.txns[tx].point;
    match s.txns[tx].point
    case Finishing(id, _, _) => LockDisciplined(s, tx, LeaseRow(id), q);
    case EndLeased(_, _, read) => LockDisciplined(s, tx, ResourceRow(read.resource), q);
  }

  lemma LockAllLocks(locks: map<Lock, Tx>, ids: seq<Id>, tx: Tx, k: Lock)
    requires k in LockAll(locks, ids, tx)
    ensures (k.LeaseRow? && LockAll(locks, ids, tx)[k] == tx) || (k in locks && LockAll(locks, ids, tx)[k] == locks[k])
  {}

  lemma ScanningDisciplined(s: Sys, tx: Tx, limit: nat, ids: seq<Id>)
    requires Disciplined(s) && tx in s.txns && s.txns[tx].point == Scanning(limit)
    ensures Disciplined(At(s.(locks := LockAll(s.locks, ids, tx)), tx, Sweeping(ids, 0)))
  {
    var t := At(s.(locks := LockAll(s.locks, ids, tx)), tx, Sweeping(ids, 0));
    forall k | k in t.locks ensures t.locks[k] in t.txns && MayHold(t.txns[t.locks[k]].point, k) {
      LockAllLocks(s.locks, ids, tx, k);
      if t.locks[k] != tx {
        assert t.txns[t.locks[k]] == s.txns[s.locks[k]];
      }
    }
  }

  lemma ManagingDisciplined(s: Sys, tx: Tx, act: Act)
    requires Disciplined(s) && tx in s.txns && (s.txns[tx].point.Managing? || s.txns[tx].point.Managed?)
    requires NextManaging(s, tx, act).Some?
    ensures Disciplined(NextManaging(s, tx, act).value)
  {
    match s.txns[tx].point
    case Managing(row, w) => LockDisciplined(s, tx, ResourceRow(row), Managed(row, w));
    case Managed(row, w) => MoveDisciplined(s, tx, Settled(row, w));
  }

  lemma DisclosingDisciplined(s: Sys, tx: Tx, path: seq<Lock>)
    requires Disciplined(s) && tx in s.txns && s.txns[tx].point == Disclosing(path)
    requires path != [] && Free(s, tx, path[0])
    ensures Disciplined(At(Locking(s, tx, path[0]), tx, Disclosing(path[1..])))
  {
    assert Ascending(path);
    LockDisciplined(s, tx, path[0], Disclosing(path[1..]));
  }

  lemma NextDisciplined(h: Hash, s: Sys, tx: Tx, act: Act)
    requires Disciplined(s) && tx in s.txns && Next(h, s, tx, act).Some?
    ensures Disciplined(Next(h, s, tx, act).value)
  {
    var p := s.txns[tx].point;
    if Acquiring(p) {
      AcquiringDisciplined(h, s, tx, act);
    } else if Renewal(p) {
      RenewingDisciplined(s, tx, act);
    } else if p.Finishing? || p.EndLeased? {
      EndingDisciplined(s, tx, act);
    } else if p.Scanning? {
      ScanningDisciplined(s, tx, p.limit, act.ids);
    } else if p.Sweeping? {
      LockDisciplined(s, tx, ResourceRow(s.db.leases[p.ids[p.done]].resource), Sweeping(p.ids, p.done + 1));
    } else if p.Managing? || p.Managed? {
      ManagingDisciplined(s, tx, act);
    } else {
      DisclosingDisciplined(s, tx, p.path);
    }
  }

  lemma FireDisciplined(h: Hash, s: Sys, m: Move)
    requires Disciplined(s) && Fire(h, s, m).Some?
    ensures Disciplined(Fire(h, s, m).value)
  {
    match m
    case Tick(_) =>
    case Begin(tx, p) => BeginDisciplined(s, tx, p);
    case Run(tx, act) =>
      if act == Commit {
        PublishingKeepsLocks(s, tx);
        EndDisciplined(s, Published(s, tx).value, tx);
      } else if act == Abort {
        EndDisciplined(s, s, tx);
      } else {
        NextDisciplined(h, s, tx, act);
      }
  }

  lemma BeginDisciplined(s: Sys, tx: Tx, p: Point)
    requires Disciplined(s) && tx !in s.txns && Initial(p)
    ensures Disciplined(s.(txns := s.txns[tx := Txn(s.clock, p)]))
  {}

  lemma PublishingKeepsLocks(s: Sys, tx: Tx)
    requires tx in s.txns && Published(s, tx).Some?
    ensures Published(s, tx).value.txns == s.txns && Published(s, tx).value.locks == s.locks
  {}

  lemma {:induction false} ReachDisciplined(h: Hash, s: Sys, moves: seq<Move>, t: Sys)
    requires Disciplined(s) && Reaches(h, s, moves, t)
    ensures Disciplined(t)
    decreases moves
  {
    if moves != [] {
      FireDisciplined(h, s, moves[0]);
      ReachDisciplined(h, Fire(h, s, moves[0]).value, moves[1..], t);
    }
  }

  /**
   * What the two lock modes do at the row that is chosen: a Shared request queues for it, whoever holds
   * it; an Exclusive one chooses among rows that nobody else has locked, and has it at once.
   */
  lemma SharedWaitsExclusiveSkips(h: Hash, s: Sys, tx: Tx, act: Act)
    requires tx in s.txns && s.txns[tx].point.Choosing? && Next(h, s, tx, act).Some?
    ensures
      var u := Next(h, s, tx, act).value;
      var a := s.txns[tx].point.ask;
      && tx in u.txns
      && (a.request.sharing == Shared ==> u.locks == s.locks && u.txns[tx].point.Claiming?)
      && (a.request.sharing == Exclusive ==>
            && act.Claim? && (ResourceRow(act.row) in s.locks ==> s.locks[ResourceRow(act.row)] == tx)
            && u.locks == s.locks[ResourceRow(act.row) := tx]
            && (u.txns[tx].point.Claimed? || u.txns[tx].point.Choosing?))
  {}

  // ----- The shape of a deadlock -----

  /** A batch, or a shared acquisition still holding a row that failed its re-evaluation. */
  ghost predicate HoldsWhileWaiting(s: Sys, tx: Tx) {
    && tx in s.txns
    && (s.txns[tx].point.Sweeping?
        || (s.txns[tx].point.Claiming? && s.txns[tx].point.ask.request.sharing == Shared))
    && exists r :: Holds(s, tx, ResourceRow(r))
  }

  function WantedLevel(h: Hash, s: Sys, tx: Tx): nat
    requires tx in s.txns && Wants(h, s.db, s.txns[tx].point).Some?
  {
    Level(Wants(h, s.db, s.txns[tx].point).value)
  }

  /** Along an edge the wanted level never falls, and stays level only at those two kinds. */
  lemma EdgeRises(h: Hash, s: Sys, a: Tx, b: Tx)
    requires Disciplined(s) && WaitsFor(h, s, a, b) && Wants(h, s.db, s.txns[b].point).Some?
    ensures WantedLevel(h, s, a) <= WantedLevel(h, s, b)
    ensures WantedLevel(h, s, a) == WantedLevel(h, s, b) ==> HoldsWhileWaiting(s, b)
  {
    var lock := Wants(h, s.db, s.txns[a].point).value;
    assert MayHold(s.txns[b].point, lock);
  }

  lemma {:induction false} LevelsAlong(h: Hash, s: Sys, ring: seq<Tx>, k: nat)
    requires Disciplined(s) && Cycle(h, s, ring) && k < |ring|
    ensures forall i :: 0 <= i < |ring| ==> ring[i] in s.txns && Wants(h, s.db, s.txns[ring[i]].point).Some?
    ensures WantedLevel(h, s, ring[0]) <= WantedLevel(h, s, ring[k]) <= WantedLevel(h, s, ring[|ring| - 1])
    decreases |ring| - k
  {
    forall i | 0 <= i < |ring| ensures ring[i] in s.txns && Wants(h, s.db, s.txns[ring[i]].point).Some? {
      assert WaitsFor(h, s, ring[i], ring[Following(i, |ring|)]);
    }
    LevelsFrom(h, s, ring, k);
    LevelsTo(h, s, ring, k);
  }

  lemma {:induction false} LevelsFrom(h: Hash, s: Sys, ring: seq<Tx>, k: nat)
    requires Disciplined(s) && Cycle(h, s, ring) && k < |ring|
    requires forall i :: 0 <= i < |ring| ==> ring[i] in s.txns && Wants(h, s.db, s.txns[ring[i]].point).Some?
    ensures WantedLevel(h, s, ring[0]) <= WantedLevel(h, s, ring[k])
  {
    if k > 0 {
      LevelsFrom(h, s, ring, k - 1);
      assert WaitsFor(h, s, ring[k - 1], ring[Following(k - 1, |ring|)]);
      EdgeRises(h, s, ring[k - 1], ring[k]);
    }
  }

  lemma {:induction false} LevelsTo(h: Hash, s: Sys, ring: seq<Tx>, k: nat)
    requires Disciplined(s) && Cycle(h, s, ring) && k < |ring|
    requires forall i :: 0 <= i < |ring| ==> ring[i] in s.txns && Wants(h, s.db, s.txns[ring[i]].point).Some?
    ensures WantedLevel(h, s, ring[k]) <= WantedLevel(h, s, ring[|ring| - 1])
    decreases |ring| - k
  {
    if k + 1 < |ring| {
      LevelsTo(h, s, ring, k + 1);
      assert WaitsFor(h, s, ring[k], ring[Following(k, |ring|)]);
      EdgeRises(h, s, ring[k], ring[k + 1]);
    }
  }

  lemma RingShape(h: Hash, t: Sys, ring: seq<Tx>, k: nat)
    requires Disciplined(t) && Cycle(h, t, ring) && k < |ring|
    ensures HoldsWhileWaiting(t, ring[k])
  {
    var n := |ring|;
    var before := if k == 0 then n - 1 else k - 1;
    LevelsAlong(h, t, ring, k);
    LevelsAlong(h, t, ring, before);
    assert WaitsFor(h, t, ring[n - 1], ring[Following(n - 1, n)]);
    EdgeRises(h, t, ring[n - 1], ring[0]);
    assert Following(before, n) == k;
    assert WaitsFor(h, t, ring[before], ring[k]);
    EdgeRises(h, t, ring[before], ring[k]);
  }

  /**
   * In every reachable state, every member of a waits-for cycle is an expiration batch or a
   * shared acquisition that keeps a passed-over row locked while it waits for another one.
   */
  lemma DeadlockShape(h: Hash, s: Sys, moves: seq<Move>, t: Sys, ring: seq<Tx>, k: nat)
    requires Idle(s) && Reaches(h, s, moves, t) && Cycle(h, t, ring) && k < |ring|
    ensures HoldsWhileWaiting(t, ring[k])
  {
    ReachDisciplined(h, s, moves, t);
    RingShape(h, t, ring, k);
  }

  /** With at most one batch running and no passed-over row kept, there is no cycle. */
  lemma NoDeadlockWithoutKeptRows(h: Hash, s: Sys, moves: seq<Move>, t: Sys, ring: seq<Tx>)
    requires Idle(s) && Reaches(h, s, moves, t)
    requires forall a, b ::
      a in t.txns && b in t.txns && t.txns[a].point.Sweeping? && t.txns[b].point.Sweeping? ==> a == b
    requires forall a :: a in t.txns && t.txns[a].point.Claiming? ==> forall r :: !Holds(t, a, ResourceRow(r))
    ensures !Cycle(h, t, ring)
  {
    if Cycle(h, t, ring) {
      var next := Following(0, |ring|);
      assert WaitsFor(h, t, ring[0], ring[next]);
      DeadlockShape(h, s, moves, t, ring, 0);
      DeadlockShape(h, s, moves, t, ring, next);
    }
  }
}
