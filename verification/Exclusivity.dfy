/** Safety of every statement-level interleaving: exclusivity and archival. */
module Exclusivity {
  import opened Types
  import opened Ranks
  import opened Catalog
  import opened Leasing
  import opened Interleaving

  // ----- The committed state -----

  ghost predicate Later(s: Sys, a: Id, b: Id) {
    a in s.serial && b in s.serial && s.serial[a] < s.serial[b]
  }

  /** A lease granted to an Exclusive request finds every earlier lease on its resource dead. */
  ghost predicate GrantsExclude(s: Sys) {
    forall a, b :: a in s.db.leases && b in s.db.leases && Later(s, a, b) ==>
      s.db.leases[a].resource == s.db.leases[b].resource && s.db.leases[b].hash.sharing == Exclusive
      ==> !ActiveAt(s.db.leases[a], s.db.leases[b].acquiredAt)
  }

  ghost predicate Committed(s: Sys) {
    && Linked(s.db)
    && s.serial.Keys == s.db.leases.Keys
    && (forall l :: l in s.serial ==> s.serial[l] < |s.serial|)
    && (forall l :: l in s.db.leases ==> s.db.leases[l].acquiredAt <= s.clock)
    && (forall r :: r in s.db.resources && s.db.resources[r].archivedAt.Some?
          ==> s.db.resources[r].archivedAt.value <= s.clock)
    && GrantsExclude(s)
    && SealedRows(s.db)
    && UniqueKeys(s.db)
  }

  // ----- What a running transaction may rely on -----

  /** Every committed lease on the row is dead at the transaction's frozen now(). */
  ghost predicate Quiet(s: Sys, row: Id, start: Time) {
    forall l :: l in s.db.leases && s.db.leases[l].resource == row ==> !ActiveAt(s.db.leases[l], start)
  }

  ghost predicate KeyReserved(h: Hash, s: Sys, tx: Tx, a: Ask) {
    && Holds(s, tx, SlotOf(h, a))
    && (forall l :: l in s.db.leases ==> s.db.leases[l].owner != a.caller.id || s.db.leases[l].key != a.key)
  }

  ghost predicate RowTaken(s: Sys, tx: Tx, row: Id) {
    Holds(s, tx, ResourceRow(row)) && row in s.db.resources && s.db.resources[row].archivedAt.None?
  }

  ghost predicate Cleared(s: Sys, tx: Tx, a: Ask, row: Id, start: Time) {
    RowTaken(s, tx, row) && (a.request.sharing == Exclusive ==> Quiet(s, row, start))
  }

  /** A locked lease row is the one that was read, because its lock keeps every writer out. */
  ghost predicate Owned(s: Sys, tx: Tx, id: Id, read: Lease) {
    Holds(s, tx, LeaseRow(id)) && id in s.db.leases && s.db.leases[id] == read
  }

  /** A renewal past its check: no later exclusive lease, and no archival, can have intervened. */
  ghost predicate Renewable(s: Sys, tx: Tx, id: Id, read: Lease) {
    && Owned(s, tx, id, read)
    && Holds(s, tx, ResourceRow(read.resource))
    && read.endedAt.None?
    && (read.resource in s.db.resources ==> s.db.resources[read.resource].archivedAt.None?)
    && (forall b :: b in s.db.leases && Later(s, id, b) ==>
          s.db.leases[b].resource != read.resource || s.db.leases[b].hash.sharing == Shared)
  }

  ghost predicate Local(h: Hash, s: Sys, tx: Tx)
    requires tx in s.txns
  {
    var start := s.txns[tx].start;
    && start <= s.clock
    && match s.txns[tx].point
       case Keying(_) => true
       case Keyed(a) => Holds(s, tx, SlotOf(h, a))
       case Unheld(a) => KeyReserved(h, s, tx, a)
       case Choosing(a, _) => KeyReserved(h, s, tx, a)
       case Claiming(a, _, _) => KeyReserved(h, s, tx, a)
       case Claimed(a, row) => KeyReserved(h, s, tx, a) && RowTaken(s, tx, row)
       case Clear(a, row) => KeyReserved(h, s, tx, a) && Cleared(s, tx, a, row, start)
       case Inserted(a, row, id, x) =>
         && KeyReserved(h, s, tx, a) && Cleared(s, tx, a, row, start)
         && x.resource == row && x.owner == a.caller.id && x.key == a.key && x.hash == Canonical(a.request)
         && start <= x.acquiredAt <= s.clock
       case Renewing(_, _, _) => true
       case RenewLeased(id, _, read) => Owned(s, tx, id, read)
       case RenewLocked(id, _, read) => Owned(s, tx, id, read) && Holds(s, tx, ResourceRow(read.resource))
       case RenewChecked(id, _, read) => Renewable(s, tx, id, read)
       case RenewWritten(id, read, _, _) => Renewable(s, tx, id, read)
       case Finishing(_, _, _) => true
       case EndLeased(id, _, read) => Owned(s, tx, id, read)
       case EndLocked(id, _, read) => Owned(s, tx, id, read)
       case Scanning(_) => true
       case Sweeping(ids, done) =>
         && done <= |ids|
         && (forall l :: l in ids ==> Holds(s, tx, LeaseRow(l)) && l in s.db.leases
                                      && DueAt(s.db.leases[l], start))
       case Creating(_, _) => true
       case Managing(_, _) => true
       case Managed(row, _) => Holds(s, tx, ResourceRow(row))
       case Settled(row, w) =>
         && RowTaken(s, tx, row)
         && (w == Archiving ==> Quiet(s, row, start))
         && (w.Patching? ==> w.patch.version == s.db.resources[row].version)
       case Disclosing(_) => true
  }

  ghost predicate Inv(h: Hash, s: Sys) {
    Committed(s) && forall tx :: tx in s.txns ==> Local(h, s, tx)
  }

  // ----- Moves that publish nothing -----

  /** What one transaction relies on survives anything that leaves the database and its locks alone. */
  lemma LocalStays(h: Hash, s: Sys, t: Sys, tx: Tx)
    requires tx in s.txns && tx in t.txns && s.txns[tx] == t.txns[tx] && Local(h, s, tx)
    requires t.db == s.db && t.serial == s.serial && s.clock <= t.clock
    requires forall k :: Holds(s, tx, k) ==> Holds(t, tx, k)
    ensures Local(h, t, tx)
  {}

  lemma CommittedStays(s: Sys, t: Sys)
    requires Committed(s) && t.db == s.db && t.serial == s.serial && s.clock <= t.clock
    ensures Committed(t)
  {
    forall a, b | Later(t, a, b) ensures Later(s, a, b) {}
  }

  /** A step that only moves `tx` and its locks keeps the invariant if it keeps `tx`'s own part. */
  lemma QuietStep(h: Hash, s: Sys, t: Sys, tx: Tx)
    requires Inv(h, s)
    requires t.db == s.db && t.serial == s.serial && s.clock <= t.clock
    requires forall u :: u in t.txns && u != tx ==> u in s.txns && t.txns[u] == s.txns[u]
    requires forall k :: k in s.locks && s.locks[k] != tx ==> k in t.locks && t.locks[k] == s.locks[k]
    requires tx in t.txns ==> Local(h, t, tx)
    ensures Inv(h, t)
  {
    CommittedStays(s, t);
    forall u | u in t.txns ensures Local(h, t, u) {
      if u != tx {
        LocalStays(h, s, t, u);
      }
    }
  }

  lemma JustMoves(h: Hash, s: Sys, tx: Tx, p: Point)
    requires Inv(h, s) && tx in s.txns && Local(h, At(s, tx, p), tx)
    ensures Inv(h, At(s, tx, p))
  {
    QuietStep(h, s, At(s, tx, p), tx);
  }

  lemma LocksAndMoves(h: Hash, s: Sys, tx: Tx, lock: Lock, p: Point)
    requires Inv(h, s) && tx in s.txns && Free(s, tx, lock)
    requires Local(h, At(Locking(s, tx, lock), tx, p), tx)
    ensures Inv(h, At(Locking(s, tx, lock), tx, p))
  {
    var t := At(Locking(s, tx, lock), tx, p);
    LockIsPrivate(s, tx, lock, p);
    forall k | k in s.locks && s.locks[k] != tx ensures k in t.locks && t.locks[k] == s.locks[k] {}
    QuietStep(h, s, t, tx);
  }

  lemma LocksManyAndMoves(h: Hash, s: Sys, tx: Tx, locks: map<Lock, Tx>, p: Point)
    requires Inv(h, s) && tx in s.txns && (forall k :: k in s.locks ==> k in locks && locks[k] == s.locks[k])
    requires Local(h, At(s.(locks := locks), tx, p), tx)
    ensures Inv(h, At(s.(locks := locks), tx, p))
  {
    QuietStep(h, s, At(s.(locks := locks), tx, p), tx);
  }

  lemma LeavesQuietly(h: Hash, s: Sys, t: Sys, tx: Tx)
    requires Inv(h, s) && t == s.(replies := t.replies)
    ensures Inv(h, Ended(t, tx))
  {
    QuietStep(h, s, Ended(t, tx), tx);
  }

  lemma KeyingStep(h: Hash, s: Sys, tx: Tx, a: Ask)
    requires Inv(h, s) && tx in s.txns && Free(s, tx, SlotOf(h, a))
    ensures Inv(h, At(Locking(s, tx, SlotOf(h, a)), tx, Keyed(a)))
  {
    assert Local(h, s, tx);
    LocksAndMoves(h, s, tx, SlotOf(h, a), Keyed(a));
  }

  lemma LookUpStep(h: Hash, s: Sys, tx: Tx, a: Ask)
    requires Inv(h, s) && tx in s.txns && s.txns[tx].point == Keyed(a)
    ensures Inv(h, LookedUp(s, tx, a))
  {
    assert Local(h, s, tx);
    if Holders(s.db, a.caller.id, a.key) == {} {
      forall l | l in s.db.leases ensures s.db.leases[l].owner != a.caller.id || s.db.leases[l].key != a.key {
        assert Rank(0, None, l) !in Holders(s.db, a.caller.id, a.key);
      }
      JustMoves(h, s, tx, Unheld(a));
    } else {
      var t := LookedUp(s, tx, a);
      LeavesQuietly(h, s, s.(replies := t.replies), tx);
    }
  }

  lemma ChoosingStep(h: Hash, s: Sys, tx: Tx, a: Ask, p: Point)
    requires Inv(h, s) && tx in s.txns
    requires s.txns[tx].point.Unheld? || s.txns[tx].point.Choosing? || s.txns[tx].point.Claiming?
    requires s.txns[tx].point.ask == a
    requires (p.Choosing? || p.Claiming?) && p.ask == a
    ensures Inv(h, At(s, tx, p))
  {
    assert Local(h, s, tx);
    assert KeyReserved(h, At(s, tx, p), tx, a);
    JustMoves(h, s, tx, p);
  }

  /** Only an unarchived row passes the re-evaluation, and it stays locked. */
  lemma TriedStep(h: Hash, s: Sys, tx: Tx, a: Ask, seen: Store, row: Id)
    requires Inv(h, s) && tx in s.txns && Free(s, tx, ResourceRow(row))
    requires s.txns[tx].point == Choosing(a, seen) || s.txns[tx].point == Claiming(a, seen, row)
    ensures Inv(h, Tried(s, tx, a, seen, row))
  {
    assert Local(h, s, tx);
    var p := if Requalifies(seen, s.db, s.txns[tx].start, a, row) then Claimed(a, row) else Choosing(a, seen);
    var t := At(Locking(s, tx, ResourceRow(row)), tx, p);
    assert KeyReserved(h, t, tx, a);
    assert p.Claimed? ==> RowTaken(t, tx, row);
    LocksAndMoves(h, s, tx, ResourceRow(row), p);
  }

  lemma RecheckStep(h: Hash, s: Sys, tx: Tx, a: Ask, row: Id)
    requires Inv(h, s) && tx in s.txns && s.txns[tx].point == Claimed(a, row)
    requires a.request.sharing == Exclusive ==> ActiveLeases(s.db, row, s.txns[tx].start) == {}
    ensures Inv(h, At(s, tx, Clear(a, row)))
  {
    assert Local(h, s, tx);
    if a.request.sharing == Exclusive {
      EmptyMeansQuiet(s, row, s.txns[tx].start);
    }
    JustMoves(h, s, tx, Clear(a, row));
  }

  lemma EmptyMeansQuiet(s: Sys, row: Id, start: Time)
    requires ActiveLeases(s.db, row, start) == {}
    ensures Quiet(s, row, start)
  {
    forall l | l in s.db.leases && s.db.leases[l].resource == row ensures !ActiveAt(s.db.leases[l], start) {
      assert l !in ActiveLeases(s.db, row, start);
    }
  }

  lemma InsertStep(h: Hash, s: Sys, tx: Tx, a: Ask, row: Id, id: Id, x: Lease)
    requires Inv(h, s) && tx in s.txns && s.txns[tx].point == Clear(a, row)
    requires x.resource == row && x.owner == a.caller.id && x.key == a.key && x.hash == Canonical(a.request)
    requires x.acquiredAt == s.clock
    ensures Inv(h, At(s, tx, Inserted(a, row, id, x)))
  {
    assert Local(h, s, tx);
    JustMoves(h, s, tx, Inserted(a, row, id, x));
  }

  /** The overdue test: a lease active now has no later exclusive lease, and its row is unarchived. */
  lemma CheckPasses(s: Sys, tx: Tx, id: Id, read: Lease)
    requires Committed(s) && Owned(s, tx, id, read) && Holds(s, tx, ResourceRow(read.resource))
    requires ActiveAt(read, s.clock)
    ensures Renewable(s, tx, id, read)
  {
    forall b | b in s.db.leases && Later(s, id, b)
      ensures s.db.leases[b].resource != read.resource || s.db.leases[b].hash.sharing == Shared
    {
      assert s.db.leases[b].acquiredAt <= s.clock;
    }
  }

  lemma LockLeaseStep(h: Hash, s: Sys, tx: Tx, id: Id, p: Point)
    requires Inv(h, s) && tx in s.txns && id in s.db.leases && Free(s, tx, LeaseRow(id))
    requires p.RenewLeased? || p.EndLeased?
    requires p.id == id && p.read == s.db.leases[id]
    ensures Inv(h, At(Locking(s, tx, LeaseRow(id)), tx, p))
  {
    assert Local(h, s, tx);
    LocksAndMoves(h, s, tx, LeaseRow(id), p);
  }

  lemma LockParentStep(h: Hash, s: Sys, tx: Tx, id: Id, read: Lease, p: Point)
    requires Inv(h, s) && tx in s.txns && Free(s, tx, ResourceRow(read.resource))
    requires s.txns[tx].point.RenewLeased? || s.txns[tx].point.EndLeased?
    requires s.txns[tx].point.id == id && s.txns[tx].point.read == read
    requires p.RenewLocked? || p.EndLocked?
    requires p.id == id && p.read == read
    ensures Inv(h, At(Locking(s, tx, ResourceRow(read.resource)), tx, p))
  {
    assert Local(h, s, tx);
    assert Owned(At(Locking(s, tx, ResourceRow(read.resource)), tx, p), tx, id, read);
    LocksAndMoves(h, s, tx, ResourceRow(read.resource), p);
  }

  lemma RenewStep(h: Hash, s: Sys, tx: Tx, id: Id, read: Lease, p: Point)
    requires Inv(h, s) && tx in s.txns
    requires (s.txns[tx].point.RenewLocked? && ActiveAt(read, s.clock)) || s.txns[tx].point.RenewChecked?
    requires s.txns[tx].point.id == id && s.txns[tx].point.read == read
    requires p.RenewChecked? || p.RenewWritten?
    requires p.id == id && p.read == read
    ensures Inv(h, At(s, tx, p))
  {
    assert Local(h, s, tx);
    if s.txns[tx].point.RenewLocked? {
      CheckPasses(s, tx, id, read);
    }
    RenewableMoves(s, tx, id, read, p);
    JustMoves(h, s, tx, p);
  }

  lemma RenewableMoves(s: Sys, tx: Tx, id: Id, read: Lease, p: Point)
    requires tx in s.txns && Renewable(s, tx, id, read)
    ensures Renewable(At(s, tx, p), tx, id, read)
  {
    forall b | b in s.db.leases && Later(At(s, tx, p), id, b) ensures Later(s, id, b) {}
  }

  lemma LockAllHolds(locks: map<Lock, Tx>, ids: seq<Id>, tx: Tx)
    requires forall l :: l in ids ==> LeaseRow(l) !in locks || locks[LeaseRow(l)] == tx
    ensures forall l :: l in ids ==>
      LeaseRow(l) in LockAll(locks, ids, tx) && LockAll(locks, ids, tx)[LeaseRow(l)] == tx
    ensures forall k :: k in locks ==> k in LockAll(locks, ids, tx) && LockAll(locks, ids, tx)[k] == locks[k]
  {}

  lemma ScanStep(h: Hash, s: Sys, tx: Tx, limit: nat, ids: seq<Id>)
    requires Inv(h, s) && tx in s.txns && Sweepable(s, tx, limit, ids)
    ensures Inv(h, At(s.(locks := LockAll(s.locks, ids, tx)), tx, Sweeping(ids, 0)))
  {
    assert Local(h, s, tx);
    LockAllHolds(s.locks, ids, tx);
    LocksManyAndMoves(h, s, tx, LockAll(s.locks, ids, tx), Sweeping(ids, 0));
  }

  lemma SweepStep(h: Hash, s: Sys, tx: Tx, lock: Lock, ids: seq<Id>, done: nat)
    requires Inv(h, s) && tx in s.txns && s.txns[tx].point == Sweeping(ids, done) && done < |ids|
    requires Free(s, tx, lock)
    ensures Inv(h, At(Locking(s, tx, lock), tx, Sweeping(ids, done + 1)))
  {
    assert Local(h, s, tx);
    LocksAndMoves(h, s, tx, lock, Sweeping(ids, done + 1));
  }

  lemma ManageStep(h: Hash, s: Sys, tx: Tx, row: Id, w: Work)
    requires Inv(h, s) && tx in s.txns && Free(s, tx, ResourceRow(row))
    ensures Inv(h, At(Locking(s, tx, ResourceRow(row)), tx, Managed(row, w)))
  {
    assert Local(h, s, tx);
    LocksAndMoves(h, s, tx, ResourceRow(row), Managed(row, w));
  }

  lemma SettleStep(h: Hash, s: Sys, tx: Tx, row: Id, w: Work)
    requires Inv(h, s) && tx in s.txns && s.txns[tx].point == Managed(row, w)
    requires Permitted(s.db, s.txns[tx].start, row, w)
    ensures Inv(h, At(s, tx, Settled(row, w)))
  {
    assert Local(h, s, tx);
    if w == Archiving {
      EmptyMeansQuiet(s, row, s.txns[tx].start);
    }
    JustMoves(h, s, tx, Settled(row, w));
  }

  lemma DiscloseStep(h: Hash, s: Sys, tx: Tx, lock: Lock, path: seq<Lock>)
    requires Inv(h, s) && tx in s.txns && Free(s, tx, lock)
    ensures Inv(h, At(Locking(s, tx, lock), tx, Disclosing(path)))
  {
    assert Local(h, s, tx);
    LocksAndMoves(h, s, tx, lock, Disclosing(path));
  }

  lemma AskingInv(h: Hash, s: Sys, tx: Tx, act: Act)
    requires Inv(h, s) && tx in s.txns && Acquiring(s.txns[tx].point) && NextAcquiring(h, s, tx, act).Some?
    requires var p := s.txns[tx].point; p.Keying? || p.Keyed? || p.Unheld?
    ensures Inv(h, NextAcquiring(h, s, tx, act).value)
  {
    match s.txns[tx].point
    case Keying(a) => KeyingStep(h, s, tx, a);
    case Keyed(a) => LookUpStep(h, s, tx, a);
    case Unheld(a) => ChoosingStep(h, s, tx, a, Choosing(a, s.db));
    case _ =>
  }

  lemma ClaimingInv(h: Hash, s: Sys, tx: Tx, act: Act)
    requires Inv(h, s) && tx in s.txns && Acquiring(s.txns[tx].point) && NextAcquiring(h, s, tx, act).Some?
    requires var p := s.txns[tx].point; p.Choosing? || p.Claiming?
    ensures Inv(h, NextAcquiring(h, s, tx, act).value)
  {
    match s.txns[tx].point
    case Choosing(a, seen) =>
      if act.Await? {
        ChoosingStep(h, s, tx, a, Claiming(a, seen, act.row));
      } else {
        TriedStep(h, s, tx, a, seen, act.row);
      }
    case Claiming(a, seen, row) => TriedStep(h, s, tx, a, seen, row);
    case _ =>
  }

  lemma GrantingInv(h: Hash, s: Sys, tx: Tx, act: Act)
    requires Inv(h, s) && tx in s.txns && Acquiring(s.txns[tx].point) && NextAcquiring(h, s, tx, act).Some?
    requires var p := s.txns[tx].point; p.Claimed? || p.Clear?
    ensures Inv(h, NextAcquiring(h, s, tx, act).value)
  {
    match s.txns[tx].point
    case Claimed(a, row) => RecheckStep(h, s, tx, a, row);
    case Clear(a, row) =>
      var ttl := ResolveTtl(s.db.resources[row], a.request.ttl).value;
      InsertStep(h, s, tx, a, row, act.id, NewLease(row, a.caller.id, a.key, a.request, s.clock, ttl));
    case _ =>
  }

  lemma RenewalLocksInv(h: Hash, s: Sys, tx: Tx, act: Act)
    requires Inv(h, s) && tx in s.txns && (s.txns[tx].point.Renewing? || s.txns[tx].point.RenewLeased?)
    requires NextRenewing(s, tx, act).Some?
    ensures Inv(h, NextRenewing(s, tx, act).value)
  {
    match s.txns[tx].point
    case Renewing(id, intent, _) => LockLeaseStep(h, s, tx, id, RenewLeased(id, intent, s.db.leases[id]));
    case RenewLeased(id, intent, read) => LockParentStep(h, s, tx, id, read, RenewLocked(id, intent, read));
    case _ =>
  }

  lemma RenewalWritesInv(h: Hash, s: Sys, tx: Tx, act: Act)
    requires Inv(h, s) && tx in s.txns && (s.txns[tx].point.RenewLocked? || s.txns[tx].point.RenewChecked?)
    requires NextRenewing(s, tx, act).Some?
    ensures Inv(h, NextRenewing(s, tx, act).value)
  {
    match s.txns[tx].point
    case RenewLocked(id, intent, read) => RenewStep(h, s, tx, id, read, RenewChecked(id, intent, read));
    case RenewChecked(id, intent, read) =>
      var ttl := ResolveTtl(s.db.resources[read.resource], intent).value;
      RenewStep(h, s, tx, id, read, RenewWritten(id, read, s.clock, ttl));
    case _ =>
  }

  lemma FinishingInv(h: Hash, s: Sys, tx: Tx, act: Act)
    requires Inv(h, s) && tx in s.txns && s.txns[tx].point.Finishing? && NextEnding(s, tx, act).Some?
    ensures Inv(h, NextEnding(s, tx, act).value)
  {
    var p := s.txns[tx].point;
    LockLeaseStep(h, s, tx, p.id, EndLeased(p.id, p.ending, s.db.leases[p.id]));
  }

  lemma EndLeasedInv(h: Hash, s: Sys, tx: Tx, act: Act)
    requires Inv(h, s) && tx in s.txns && s.txns[tx].point.EndLeased? && NextEnding(s, tx, act).Some?
    ensures Inv(h, NextEnding(s, tx, act).value)
  {
    var p := s.txns[tx].point;
    LockParentStep(h, s, tx, p.id, p.read, EndLocked(p.id, p.ending, p.read));
  }

  lemma SweepingInv(h: Hash, s: Sys, tx: Tx, act: Act, ids: seq<Id>, done: nat)
    requires Inv(h, s) && tx in s.txns && s.txns[tx].point == Sweeping(ids, done)
    requires NextSweeping(s, tx, act, ids, done).Some?
    ensures Inv(h, NextSweeping(s, tx, act, ids, done).value)
  {
    SweepStep(h, s, tx, ResourceRow(s.db.leases[ids[done]].resource), ids, done);
  }

  lemma ManagingInv(h: Hash, s: Sys, tx: Tx, act: Act)
    requires Inv(h, s) && tx in s.txns && (s.txns[tx].point.Managing? || s.txns[tx].point.Managed?)
    requires NextManaging(s, tx, act).Some?
    ensures Inv(h, NextManaging(s, tx, act).value)
  {
    match s.txns[tx].point
    case Managing(row, w) => ManageStep(h, s, tx, row, w);
    case Managed(row, w) => SettleStep(h, s, tx, row, w);
  }

  lemma NextInv(h: Hash, s: Sys, tx: Tx, act: Act)
    requires Inv(h, s) && tx in s.txns && Next(h, s, tx, act).Some?
    ensures Inv(h, Next(h, s, tx, act).value)
  {
    var p := s.txns[tx].point;
    if p.Keying? || p.Keyed? || p.Unheld? {
      AskingInv(h, s, tx, act);
    } else if p.Choosing? || p.Claiming? {
      ClaimingInv(h, s, tx, act);
    } else if p.Claimed? || p.Clear? {
      GrantingInv(h, s, tx, act);
    } else if p.Renewing? || p.RenewLeased? {
      RenewalLocksInv(h, s, tx, act);
    } else if p.RenewLocked? || p.RenewChecked? {
      RenewalWritesInv(h, s, tx, act);
    } else if p.Finishing? {
      FinishingInv(h, s, tx, act);
    } else if p.EndLeased? {
      EndLeasedInv(h, s, tx, act);
    } else if p.Scanning? {
      ScanStep(h, s, tx, p.limit, act.ids);
    } else if p.Sweeping? {
      SweepingInv(h, s, tx, act, p.ids, p.done);
    } else if p.Managing? || p.Managed? {
      ManagingInv(h, s, tx, act);
    } else {
      DiscloseStep(h, s, tx, p.path[0], p.path[1..]);
    }
  }

  // ----- Commits -----

  /** A lease row changes without coming back to life, or only ends. */
  ghost predicate OnlyDies(a: Lease, b: Lease) {
    && b.resource == a.resource && b.owner == a.owner && b.key == a.key && b.hash == a.hash
    && b.acquiredAt == a.acquiredAt
    && (forall t: Time :: !ActiveAt(a, t) ==> !ActiveAt(b, t))
  }

  /** Publishing ended leases: no transaction relies on a lease being alive unless it has it locked. */
  lemma DyingCommit(h: Hash, s: Sys, t: Sys, tx: Tx)
    requires Inv(h, s) && tx in s.txns
    requires t.serial == s.serial && t.clock == s.clock && t.txns == s.txns && t.locks == s.locks
    requires t.db.resources == s.db.resources && t.db.leases.Keys == s.db.leases.Keys
    requires forall l :: l in s.db.leases ==> OnlyDies(s.db.leases[l], t.db.leases[l])
    requires forall l :: l in s.db.leases && t.db.leases[l] != s.db.leases[l] ==> Holds(s, tx, LeaseRow(l))
    ensures Inv(h, Ended(t, tx))
  {
    var u := Ended(t, tx);
    CommittedUnderDeath(s, u);
    forall v | v in u.txns ensures Local(h, u, v) {
      assert Local(h, s, v);
      KeepsLocks(s, t, tx, v);
      LocalUnderDeath(h, s, u, v);
    }
  }

  /** Another transaction's end releases none of `v`'s locks, and gives `v` no lock of its own. */
  lemma KeepsLocks(s: Sys, t: Sys, tx: Tx, v: Tx)
    requires t.locks == s.locks && v != tx
    ensures forall k :: Holds(s, v, k) ==> Holds(Ended(t, tx), v, k)
    ensures forall k :: Holds(s, tx, k) ==> !Holds(s, v, k)
  {}

  lemma CommittedUnderDeath(s: Sys, t: Sys)
    requires Committed(s)
    requires t.serial == s.serial && t.clock == s.clock
    requires t.db.resources == s.db.resources && t.db.leases.Keys == s.db.leases.Keys
    requires forall l :: l in s.db.leases ==> OnlyDies(s.db.leases[l], t.db.leases[l])
    ensures Committed(t)
  {
    forall l | l in t.db.leases ensures t.db.leases[l].resource in t.db.resources {
      assert OnlyDies(s.db.leases[l], t.db.leases[l]);
    }
    forall a, b | a in t.db.leases && b in t.db.leases && Later(t, a, b)
      ensures t.db.leases[a].resource == t.db.leases[b].resource && t.db.leases[b].hash.sharing == Exclusive
        ==> !ActiveAt(t.db.leases[a], t.db.leases[b].acquiredAt)
    {
      assert OnlyDies(s.db.leases[a], t.db.leases[a]) && OnlyDies(s.db.leases[b], t.db.leases[b]);
      assert Later(s, a, b);
    }
  }

  /** A renewal past its check still finds its own row, and no later exclusive lease. */
  lemma RenewableUnderDeath(s: Sys, t: Sys, v: Tx, id: Id, read: Lease)
    requires Renewable(s, v, id, read)
    requires t.serial == s.serial && t.db.resources == s.db.resources && t.db.leases.Keys == s.db.leases.Keys
    requires forall k :: Holds(s, v, k) ==> Holds(t, v, k)
    requires forall l :: l in s.db.leases ==> OnlyDies(s.db.leases[l], t.db.leases[l])
    requires t.db.leases[id] == s.db.leases[id]
    ensures Renewable(t, v, id, read)
  {
    forall b | b in t.db.leases && Later(t, id, b)
      ensures t.db.leases[b].resource != read.resource || t.db.leases[b].hash.sharing == Shared
    {
      assert Later(s, id, b) && OnlyDies(s.db.leases[b], t.db.leases[b]);
    }
  }

  lemma LocalUnderDeath(h: Hash, s: Sys, t: Sys, v: Tx)
    requires v in s.txns && v in t.txns && s.txns[v] == t.txns[v] && Local(h, s, v)
    requires t.serial == s.serial && t.clock == s.clock
    requires t.db.resources == s.db.resources && t.db.leases.Keys == s.db.leases.Keys
    requires forall k :: Holds(s, v, k) ==> Holds(t, v, k)
    requires forall l :: l in s.db.leases ==> OnlyDies(s.db.leases[l], t.db.leases[l])
    requires forall l :: l in s.db.leases && Holds(s, v, LeaseRow(l)) ==> t.db.leases[l] == s.db.leases[l]
    ensures Local(h, t, v)
  {
    var p := s.txns[v].point;
    if p.RenewChecked? || p.RenewWritten? {
      RenewableUnderDeath(s, t, v, p.id, p.read);
    }
  }

  lemma EndPublishes(s: Sys, tx: Tx)
    requires tx in s.txns && s.txns[tx].point.EndLocked? && Published(s, tx).Some?
    requires var p := s.txns[tx].point; Owned(s, tx, p.id, p.read)
    ensures
      var t := Published(s, tx).value;
      && t == s.(db := t.db) && t.db.resources == s.db.resources && t.db.leases.Keys == s.db.leases.Keys
      && (forall l :: l in s.db.leases ==> OnlyDies(s.db.leases[l], t.db.leases[l]))
      && (forall l :: l in s.db.leases && t.db.leases[l] != s.db.leases[l] ==> Holds(s, tx, LeaseRow(l)))
  {}

  lemma EndCommit(h: Hash, s: Sys, tx: Tx)
    requires Inv(h, s) && tx in s.txns && s.txns[tx].point.EndLocked? && Published(s, tx).Some?
    ensures Inv(h, Ended(Published(s, tx).value, tx))
  {
    assert Local(h, s, tx);
    EndPublishes(s, tx);
    DyingCommit(h, s, Published(s, tx).value, tx);
  }

  lemma SweepPublishes(s: Sys, tx: Tx)
    requires tx in s.txns && s.txns[tx].point.Sweeping? && Published(s, tx).Some?
    requires forall l :: l in s.txns[tx].point.ids ==>
      Holds(s, tx, LeaseRow(l)) && l in s.db.leases && DueAt(s.db.leases[l], s.txns[tx].start)
    ensures
      var t := Published(s, tx).value;
      && t == s.(db := t.db) && t.db.resources == s.db.resources && t.db.leases.Keys == s.db.leases.Keys
      && (forall l :: l in s.db.leases ==> OnlyDies(s.db.leases[l], t.db.leases[l]))
      && (forall l :: l in s.db.leases && t.db.leases[l] != s.db.leases[l] ==> Holds(s, tx, LeaseRow(l)))
  {}

  lemma SweepCommit(h: Hash, s: Sys, tx: Tx)
    requires Inv(h, s) && tx in s.txns && s.txns[tx].point.Sweeping? && Published(s, tx).Some?
    ensures Inv(h, Ended(Published(s, tx).value, tx))
  {
    assert Local(h, s, tx);
    SweepPublishes(s, tx);
    DyingCommit(h, s, Published(s, tx).value, tx);
  }

  /** A renewal revives only a lease that no exclusive grant and no archival relied on being dead. */
  lemma RenewCommit(h: Hash, s: Sys, tx: Tx)
    requires Inv(h, s) && tx in s.txns && s.txns[tx].point.RenewWritten? && Published(s, tx).Some?
    ensures Inv(h, Ended(Published(s, tx).value, tx))
  {
    var p := s.txns[tx].point;
    assert Local(h, s, tx);
    RenewPublishes(h, s, tx, s.(db := PutLease(s.db, p.id, RenewedRow(p.read, p.at, p.ttl))), p.id, p.read);
  }

  lemma RenewPublishes(h: Hash, s: Sys, tx: Tx, t: Sys, id: Id, read: Lease)
    requires Inv(h, s) && tx in s.txns && Renewable(s, tx, id, read)
    requires t == s.(db := t.db) && t.db.resources == s.db.resources && id in t.db.leases
    requires t.db.leases == s.db.leases[id := t.db.leases[id]] && SameOrigin(read, t.db.leases[id])
    ensures Inv(h, Ended(t, tx))
  {
    var u := Ended(t, tx);
    CommittedUnderRenewal(s, u, tx, id, read);
    forall v | v in u.txns ensures Local(h, u, v) {
      assert Local(h, s, v);
      KeepsLocks(s, t, tx, v);
      LocalUnderRenewal(h, s, u, v, id);
    }
  }

  ghost predicate SameOrigin(a: Lease, b: Lease) {
    && b.resource == a.resource && b.owner == a.owner && b.key == a.key && b.hash == a.hash
    && b.acquiredAt == a.acquiredAt
  }

  lemma CommittedUnderRenewal(s: Sys, t: Sys, tx: Tx, id: Id, read: Lease)
    requires Committed(s) && Renewable(s, tx, id, read)
    requires t.serial == s.serial && t.clock == s.clock && t.db.resources == s.db.resources && id in t.db.leases
    requires t.db.leases == s.db.leases[id := t.db.leases[id]] && SameOrigin(read, t.db.leases[id])
    ensures Committed(t)
  {
    ExclusiveUnderRenewal(s, t, tx, id, read);
    SealedUnderRenewal(s, t, tx, id, read);
    OneHolderUnderRenewal(s, t, id, read);
  }

  lemma SealedUnderRenewal(s: Sys, t: Sys, tx: Tx, id: Id, read: Lease)
    requires SealedRows(s.db) && Renewable(s, tx, id, read)
    requires t.db.resources == s.db.resources && id in t.db.leases
    requires t.db.leases == s.db.leases[id := t.db.leases[id]] && SameOrigin(read, t.db.leases[id])
    ensures SealedRows(t.db)
  {}

  lemma OneHolderUnderRenewal(s: Sys, t: Sys, id: Id, read: Lease)
    requires UniqueKeys(s.db) && id in s.db.leases && s.db.leases[id] == read && id in t.db.leases
    requires t.db.leases == s.db.leases[id := t.db.leases[id]] && SameOrigin(read, t.db.leases[id])
    ensures UniqueKeys(t.db)
  {}

  lemma ExclusiveUnderRenewal(s: Sys, t: Sys, tx: Tx, id: Id, read: Lease)
    requires Committed(s) && Renewable(s, tx, id, read)
    requires t.serial == s.serial && id in t.db.leases
    requires t.db.leases == s.db.leases[id := t.db.leases[id]] && SameOrigin(read, t.db.leases[id])
    ensures GrantsExclude(t)
  {
    forall a, b | a in t.db.leases && b in t.db.leases && Later(t, a, b)
      ensures t.db.leases[a].resource == t.db.leases[b].resource && t.db.leases[b].hash.sharing == Exclusive
        ==> !ActiveAt(t.db.leases[a], t.db.leases[b].acquiredAt)
    {
      assert Later(s, a, b);
    }
  }

  lemma LocalUnderRenewal(h: Hash, s: Sys, t: Sys, v: Tx, id: Id)
    requires v in s.txns && v in t.txns && s.txns[v] == t.txns[v] && Local(h, s, v)
    requires t.serial == s.serial && t.clock == s.clock && t.db.resources == s.db.resources
    requires id in s.db.leases && t.db.leases.Keys == s.db.leases.Keys
    requires forall k :: Holds(s, v, k) ==> Holds(t, v, k)
    requires forall l :: l in s.db.leases && l != id ==> t.db.leases[l] == s.db.leases[l]
    requires SameOrigin(s.db.leases[id], t.db.leases[id])
    requires !Holds(s, v, LeaseRow(id)) && !Holds(s, v, ResourceRow(s.db.leases[id].resource))
    ensures Local(h, t, v)
  {}

  /** A grant under the row lock: the recheck it made still holds, and nobody else relied on the row. */
  lemma InsertCommit(h: Hash, s: Sys, tx: Tx)
    requires Inv(h, s) && tx in s.txns && s.txns[tx].point.Inserted? && Published(s, tx).Some?
    ensures Inv(h, Ended(Published(s, tx).value, tx))
  {
    var p := s.txns[tx].point;
    var u := Ended(Published(s, tx).value, tx);
    assert Local(h, s, tx);
    InsertCommitted(h, s, u, p.ask, p.row, p.id, p.lease, s.txns[tx].start);
    forall v | v in u.txns ensures Local(h, u, v) {
      assert Local(h, s, v);
      KeepsLocks(s, s, tx, v);
      LocalUnderInsert(h, s, u, v, p.ask, p.row, p.id, p.lease);
    }
  }

  ghost predicate Grants(s: Sys, t: Sys, row: Id, id: Id, x: Lease) {
    && id !in s.db.leases && row in s.db.resources
    && t.db.leases == s.db.leases[id := x] && x.resource == row
    && t.db.resources == s.db.resources[row := s.db.resources[row].(lastLeasedAt := Some(x.acquiredAt))]
    && t.serial == s.serial[id := |s.serial|] && t.clock == s.clock
  }

  lemma SerialGrows(serial: map<Id, nat>, id: Id, next: map<Id, nat>)
    requires id !in serial && (forall l :: l in serial ==> serial[l] < |serial|)
    requires next == serial[id := |serial|]
    ensures forall l :: l in next ==> next[l] < |next|
  {
    assert next.Keys == serial.Keys + {id};
    assert |next.Keys| == |serial.Keys| + 1;
  }

  /** The new lease comes last, so only it can be the later one of a new pair. */
  lemma ExclusiveUnderInsert(s: Sys, t: Sys, row: Id, id: Id, x: Lease)
    requires Committed(s) && Grants(s, t, row, id, x)
    requires x.hash.sharing == Exclusive ==> Quiet(s, row, x.acquiredAt)
    ensures GrantsExclude(t)
  {
    forall m, n | m in t.db.leases && n in t.db.leases && Later(t, m, n)
      ensures t.db.leases[m].resource == t.db.leases[n].resource && t.db.leases[n].hash.sharing == Exclusive
        ==> !ActiveAt(t.db.leases[m], t.db.leases[n].acquiredAt)
    {
      assert m != id;
      if n != id {
        assert Later(s, m, n);
      }
    }
  }

  lemma SealedUnderInsert(s: Sys, t: Sys, row: Id, id: Id, x: Lease)
    requires SealedRows(s.db) && Grants(s, t, row, id, x) && s.db.resources[row].archivedAt.None?
    ensures SealedRows(t.db)
  {}

  lemma HoldersUnderInsert(s: Sys, t: Sys, row: Id, id: Id, x: Lease)
    requires UniqueKeys(s.db) && Grants(s, t, row, id, x)
    requires forall l :: l in s.db.leases ==> s.db.leases[l].owner != x.owner || s.db.leases[l].key != x.key
    ensures UniqueKeys(t.db)
  {}

  lemma InsertCommitted(h: Hash, s: Sys, t: Sys, a: Ask, row: Id, id: Id, x: Lease, start: Time)
    requires Committed(s) && Grants(s, t, row, id, x)
    requires forall l :: l in s.db.leases ==> s.db.leases[l].owner != x.owner || s.db.leases[l].key != x.key
    requires s.db.resources[row].archivedAt.None?
    requires x.hash == Canonical(a.request) && start <= x.acquiredAt <= s.clock
    requires a.request.sharing == Exclusive ==> Quiet(s, row, start)
    ensures Committed(t)
  {
    SerialGrows(s.serial, id, t.serial);
    ExclusiveUnderInsert(s, t, row, id, x);
    SealedUnderInsert(s, t, row, id, x);
    HoldersUnderInsert(s, t, row, id, x);
  }

  predicate Reserving(p: Point) {
    p.Unheld? || p.Choosing? || p.Claiming? || p.Claimed? || p.Clear? || p.Inserted?
  }

  lemma AskUnderInsert(h: Hash, s: Sys, t: Sys, v: Tx, a: Ask, row: Id, id: Id, x: Lease)
    requires v in s.txns && v in t.txns && s.txns[v] == t.txns[v] && Local(h, s, v)
    requires Grants(s, t, row, id, x) && Reserving(s.txns[v].point)
    requires x.owner == a.caller.id && x.key == a.key
    requires forall k :: Holds(s, v, k) ==> Holds(t, v, k)
    requires !Holds(s, v, SlotOf(h, a)) && !Holds(s, v, ResourceRow(row))
    ensures Local(h, t, v)
  {
    ReservedUnderInsert(h, s, t, v, s.txns[v].point.ask, a, row, id, x);
  }

  lemma LocalUnderInsert(h: Hash, s: Sys, t: Sys, v: Tx, a: Ask, row: Id, id: Id, x: Lease)
    requires v in s.txns && v in t.txns && s.txns[v] == t.txns[v] && Local(h, s, v) && s.serial.Keys == s.db.leases.Keys
    requires Grants(s, t, row, id, x)
    requires x.owner == a.caller.id && x.key == a.key
    requires forall k :: Holds(s, v, k) ==> Holds(t, v, k)
    requires !Holds(s, v, SlotOf(h, a)) && !Holds(s, v, ResourceRow(row))
    ensures Local(h, t, v)
  {
    if Reserving(s.txns[v].point) {
      AskUnderInsert(h, s, t, v, a, row, id, x);
    } else if s.txns[v].point.RenewChecked? || s.txns[v].point.RenewWritten? {
      RenewableUnderInsert(s, t, v, s.txns[v].point.id, s.txns[v].point.read, row, id, x);
    }
  }

  lemma ReservedUnderInsert(h: Hash, s: Sys, t: Sys, v: Tx, b: Ask, a: Ask, row: Id, id: Id, x: Lease)
    requires KeyReserved(h, s, v, b) && Grants(s, t, row, id, x)
    requires x.owner == a.caller.id && x.key == a.key && !Holds(s, v, SlotOf(h, a))
    requires forall k :: Holds(s, v, k) ==> Holds(t, v, k)
    ensures KeyReserved(h, t, v, b)
  {}

  lemma RenewableUnderInsert(s: Sys, t: Sys, v: Tx, k: Id, read: Lease, row: Id, id: Id, x: Lease)
    requires Renewable(s, v, k, read) && Grants(s, t, row, id, x) && s.serial.Keys == s.db.leases.Keys
    requires forall m :: Holds(s, v, m) ==> Holds(t, v, m)
    requires !Holds(s, v, ResourceRow(row))
    ensures Renewable(t, v, k, read)
  {
    forall b | b in t.db.leases && Later(t, k, b)
      ensures t.db.leases[b].resource != read.resource || t.db.leases[b].hash.sharing == Shared
    {
      if b != id {
        assert Later(s, k, b);
      }
    }
  }

  /** A catalog write under the row lock; an archival publishes a row that its own check emptied. */
  lemma ManageCommit(h: Hash, s: Sys, tx: Tx)
    requires Inv(h, s) && tx in s.txns && s.txns[tx].point.Settled? && Published(s, tx).Some?
    ensures Inv(h, Ended(Published(s, tx).value, tx))
  {
    var p := s.txns[tx].point;
    var u := Ended(Published(s, tx).value, tx);
    assert Local(h, s, tx);
    CommittedUnderManage(s, u, p.row, p.work, s.txns[tx].start);
    forall v | v in u.txns ensures Local(h, u, v) {
      assert Local(h, s, v);
      KeepsLocks(s, s, tx, v);
      LocalUnderManage(h, s, u, v, p.row);
    }
  }

  lemma CommittedUnderManage(s: Sys, t: Sys, row: Id, w: Work, start: Time)
    requires Committed(s) && row in s.db.resources && s.db.resources[row].archivedAt.None?
    requires t.serial == s.serial && t.clock == s.clock && start <= s.clock
    requires t.db == Rewritten(s.db, start, row, w)
    requires w == Archiving ==> Quiet(s, row, start)
    ensures Committed(t)
    ensures t.db.leases == s.db.leases && t.db.resources.Keys == s.db.resources.Keys
    ensures forall r :: r in s.db.resources && r != row ==> t.db.resources[r] == s.db.resources[r]
  {
    ManageRewrites(s.db, start, row, w);
    SealedUnderManage(s, t, row, w, start);
    SameOrder(s, t);
  }

  lemma ManageRewrites(db: Store, start: Time, row: Id, w: Work)
    requires row in db.resources && db.resources[row].archivedAt.None?
    ensures
      var next := Rewritten(db, start, row, w);
      && next.leases == db.leases && next.resources.Keys == db.resources.Keys
      && (forall r :: r in db.resources && r != row ==> next.resources[r] == db.resources[r])
      && next.resources[row].archivedAt == if w == Archiving then Some(start) else None
  {}

  lemma SealedUnderManage(s: Sys, t: Sys, row: Id, w: Work, start: Time)
    requires SealedRows(s.db) && row in s.db.resources && t.db.leases == s.db.leases
    requires t.db.resources.Keys == s.db.resources.Keys
    requires forall r :: r in s.db.resources && r != row ==> t.db.resources[r] == s.db.resources[r]
    requires t.db.resources[row].archivedAt == if w == Archiving then Some(start) else None
    requires w == Archiving ==> Quiet(s, row, start)
    ensures SealedRows(t.db)
  {
    forall l | l in t.db.leases && t.db.leases[l].resource in t.db.resources
      && t.db.resources[t.db.leases[l].resource].archivedAt.Some?
      ensures !ActiveAt(t.db.leases[l], t.db.resources[t.db.leases[l].resource].archivedAt.value)
    {
      if t.db.leases[l].resource != row {
        assert t.db.resources[t.db.leases[l].resource] == s.db.resources[t.db.leases[l].resource];
      }
    }
  }

  lemma SameOrder(s: Sys, t: Sys)
    requires GrantsExclude(s) && t.db.leases == s.db.leases && t.serial == s.serial
    ensures GrantsExclude(t)
  {
    forall a, b | a in t.db.leases && b in t.db.leases && Later(t, a, b) ensures Later(s, a, b) {}
  }

  lemma LocalUnderManage(h: Hash, s: Sys, t: Sys, v: Tx, row: Id)
    requires v in s.txns && v in t.txns && s.txns[v] == t.txns[v] && Local(h, s, v)
    requires t.serial == s.serial && t.clock == s.clock && t.db.leases == s.db.leases
    requires t.db.resources.Keys == s.db.resources.Keys
    requires forall r :: r in s.db.resources && r != row ==> t.db.resources[r] == s.db.resources[r]
    requires forall k :: Holds(s, v, k) ==> Holds(t, v, k)
    requires !Holds(s, v, ResourceRow(row))
    ensures Local(h, t, v)
  {}

  /** All that a creation changes is one new, unarchived row. */
  ghost predicate Adds(s: Sys, t: Sys, id: Id) {
    && t == s.(db := t.db) && t.db.leases == s.db.leases
    && id !in s.db.resources && id in t.db.resources && t.db.resources[id].archivedAt.None?
    && t.db.resources == s.db.resources[id := t.db.resources[id]]
  }

  lemma CreatePublishes(s: Sys, tx: Tx)
    requires tx in s.txns && s.txns[tx].point.Creating? && Published(s, tx).Some?
    ensures Adds(s, Published(s, tx).value, s.txns[tx].point.id)
  {}

  /** A new row carries no lease yet, and nobody can have relied on it. */
  lemma CreateCommit(h: Hash, s: Sys, tx: Tx)
    requires Inv(h, s) && tx in s.txns && s.txns[tx].point.Creating? && Published(s, tx).Some?
    ensures Inv(h, Ended(Published(s, tx).value, tx))
  {
    CreatePublishes(s, tx);
    AdditionKeepsInv(h, s, Published(s, tx).value, tx, s.txns[tx].point.id);
  }

  lemma AdditionKeepsInv(h: Hash, s: Sys, t: Sys, tx: Tx, id: Id)
    requires Inv(h, s) && Adds(s, t, id)
    ensures Inv(h, Ended(t, tx))
  {
    var u := Ended(t, tx);
    CommittedUnderCreate(s, u, id);
    forall v | v in u.txns ensures Local(h, u, v) {
      assert Local(h, s, v);
      KeepsLocks(s, t, tx, v);
      LocalUnderCreate(h, s, u, v, id);
    }
  }

  lemma CommittedUnderCreate(s: Sys, t: Sys, id: Id)
    requires Committed(s) && t.db.leases == s.db.leases && t.serial == s.serial && t.clock == s.clock
    requires id !in s.db.resources && id in t.db.resources && t.db.resources[id].archivedAt.None?
    requires t.db.resources == s.db.resources[id := t.db.resources[id]]
    ensures Committed(t)
  {
    forall a, b | Later(t, a, b) ensures Later(s, a, b) {}
  }

  lemma LocalUnderCreate(h: Hash, s: Sys, t: Sys, v: Tx, id: Id)
    requires v in s.txns && v in t.txns && s.txns[v] == t.txns[v] && Local(h, s, v)
    requires t.db.leases == s.db.leases && t.serial == s.serial && t.clock == s.clock && Linked(s.db)
    requires id !in s.db.resources && id in t.db.resources
    requires t.db.resources == s.db.resources[id := t.db.resources[id]]
    requires forall k :: Holds(s, v, k) ==> Holds(t, v, k)
    ensures Local(h, t, v)
  {
    var p := s.txns[v].point;
    if p.RenewChecked? || p.RenewWritten? {
      assert p.read.resource in s.db.resources;
      forall b | Later(t, p.id, b) ensures Later(s, p.id, b) {}
    }
  }

  lemma CommitInv(h: Hash, s: Sys, tx: Tx)
    requires Inv(h, s) && tx in s.txns && Published(s, tx).Some?
    ensures Inv(h, Ended(Published(s, tx).value, tx))
  {
    match s.txns[tx].point
    case Inserted(_, _, _, _) => InsertCommit(h, s, tx);
    case RenewWritten(_, _, _, _) => RenewCommit(h, s, tx);
    case EndLocked(_, _, _) => EndCommit(h, s, tx);
    case Sweeping(_, _) => SweepCommit(h, s, tx);
    case Creating(_, _) => CreateCommit(h, s, tx);
    case Settled(_, _) => ManageCommit(h, s, tx);
    case Disclosing(_) => QuietStep(h, s, Ended(s, tx), tx);
    case _ =>
  }

  // ----- Whole interleavings -----

  lemma FireInv(h: Hash, s: Sys, m: Move)
    requires Inv(h, s) && Fire(h, s, m).Some?
    ensures Inv(h, Fire(h, s, m).value)
  {
    match m
    case Tick(to) => TickInv(h, s, to);
    case Begin(tx, p) => BeginInv(h, s, tx, p);
    case Run(tx, act) =>
      if act == Abort {
        LeavesQuietly(h, s, s, tx);
      } else if act == Commit {
        CommitInv(h, s, tx);
      } else {
        NextInv(h, s, tx, act);
      }
  }

  lemma BeginInv(h: Hash, s: Sys, tx: Tx, p: Point)
    requires Inv(h, s) && tx !in s.txns && Initial(p)
    ensures Inv(h, s.(txns := s.txns[tx := Txn(s.clock, p)]))
  {
    QuietStep(h, s, s.(txns := s.txns[tx := Txn(s.clock, p)]), tx);
  }

  lemma TickInv(h: Hash, s: Sys, to: Time)
    requires Inv(h, s) && s.clock <= to
    ensures Inv(h, s.(clock := to))
  {
    var t := s.(clock := to);
    forall u | u in t.txns ensures Local(h, t, u) {
      LocalStays(h, s, t, u);
    }
    forall a, b | a in t.db.leases && b in t.db.leases && Later(t, a, b) ensures Later(s, a, b) {}
  }

  lemma {:induction false} ReachInv(h: Hash, s: Sys, moves: seq<Move>, t: Sys)
    requires Inv(h, s) && Reaches(h, s, moves, t)
    ensures Inv(h, t)
    decreases moves
  {
    if moves != [] {
      FireInv(h, s, moves[0]);
      ReachInv(h, Fire(h, s, moves[0]).value, moves[1..], t);
    }
  }

  /** A database at rest: nothing running, nothing answered yet. */
  ghost predicate Idle(s: Sys) {
    Committed(s) && s.txns == map[] && s.locks == map[] && s.replies == []
  }

  /**
   * Exclusivity. In every interleaving, once lease `b` has been granted to an Exclusive request,
   * every lease granted earlier on the same resource is inactive from b's acquisition on.
   */
  lemma {:induction false} ExclusiveInEveryInterleaving(h: Hash, s: Sys, moves: seq<Move>, t: Sys,
                                                       a: Id, b: Id, at: Time)
    requires Idle(s) && Reaches(h, s, moves, t)
    requires a in t.db.leases && b in t.db.leases && Later(t, a, b)
    requires t.db.leases[a].resource == t.db.leases[b].resource
    requires t.db.leases[b].hash.sharing == Exclusive && t.db.leases[b].acquiredAt <= at
    ensures !ActiveAt(t.db.leases[a], at)
  {
    ReachInv(h, s, moves, t);
  }

  // ----- Serial numbers -----

  ghost predicate Numbered(serial: map<Id, nat>) {
    && (forall l :: l in serial ==> serial[l] < |serial|)
    && (forall l, k | l in serial && k in serial :: serial[l] == serial[k] ==> l == k)
  }

  lemma NumberedGrows(serial: map<Id, nat>, id: Id)
    requires Numbered(serial) && id !in serial
    ensures Numbered(serial[id := |serial|])
  {
    SerialGrows(serial, id, serial[id := |serial|]);
  }

  lemma CommitNumbered(s: Sys, tx: Tx)
    requires Numbered(s.serial) && s.serial.Keys == s.db.leases.Keys && tx in s.txns && Published(s, tx).Some?
    ensures Numbered(Published(s, tx).value.serial)
  {
    if s.txns[tx].point.Inserted? {
      NumberedGrows(s.serial, s.txns[tx].point.id);
    }
  }

  lemma FireNumbered(h: Hash, s: Sys, m: Move)
    requires Numbered(s.serial) && s.serial.Keys == s.db.leases.Keys && Fire(h, s, m).Some?
    ensures Numbered(Fire(h, s, m).value.serial)
  {
    if m.Run? && m.act == Commit {
      CommitNumbered(s, m.tx);
    } else if m.Run? && m.act != Abort {
      NextIsPrivate(h, s, m.tx, m.act);
    }
  }

  lemma {:induction false} ReachNumbered(h: Hash, s: Sys, moves: seq<Move>, t: Sys)
    requires Inv(h, s) && Numbered(s.serial) && Reaches(h, s, moves, t)
    ensures Numbered(t.serial)
    decreases moves
  {
    if moves != [] {
      FireNumbered(h, s, moves[0]);
      FireInv(h, s, moves[0]);
      ReachNumbered(h, Fire(h, s, moves[0]).value, moves[1..], t);
    }
  }

  /** At no instant are two leases that were granted to Exclusive requests active on one resource. */
  lemma OneExclusiveAtATime(h: Hash, s: Sys, moves: seq<Move>, t: Sys, a: Id, b: Id)
    requires Idle(s) && Numbered(s.serial) && Reaches(h, s, moves, t)
    requires a in t.db.leases && b in t.db.leases && a != b
    requires t.db.leases[a].resource == t.db.leases[b].resource
    requires t.db.leases[a].hash.sharing == Exclusive && t.db.leases[b].hash.sharing == Exclusive
    ensures !(ActiveAt(t.db.leases[a], t.clock) && ActiveAt(t.db.leases[b], t.clock))
  {
    ReachInv(h, s, moves, t);
    ReachNumbered(h, s, moves, t);
    if Later(t, a, b) {
      ExclusiveInEveryInterleaving(h, s, moves, t, a, b, t.clock);
    } else {
      assert Later(t, b, a);
      ExclusiveInEveryInterleaving(h, s, moves, t, b, a, t.clock);
    }
  }

  /** Archival. In every interleaving, an archived resource has no active lease from its archival on. */
  lemma ArchivedInEveryInterleaving(h: Hash, s: Sys, moves: seq<Move>, t: Sys, l: Id, at: Time)
    requires Idle(s) && Reaches(h, s, moves, t) && l in t.db.leases
    ensures t.db.leases[l].resource in t.db.resources
    ensures
      var x := t.db.resources[t.db.leases[l].resource];
      x.archivedAt.Some? && x.archivedAt.value <= at ==> !ActiveAt(t.db.leases[l], at)
  {
    ReachInv(h, s, moves, t);
  }
}
