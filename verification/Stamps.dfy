/**
 * The stamp on a resource that the selection order reads: in every interleaving it is the latest
 * acquisition on the resource, and it never moves back, because the instant of an acquisition is
 * read only once the resource row is locked.
 */
module Stamps {
  import opened Types
  import opened Catalog
  import opened Interleaving
  import opened Exclusivity

  /** No stamp, or an instant not after `at`. */
  predicate NotAfter(stamp: Option<Time>, at: Time) {
    stamp.Some? ==> stamp.value <= at
  }

  /** Grants on one resource follow each other in time. */
  ghost predicate GrantedInTurn(s: Sys) {
    forall a, b :: a in s.db.leases && b in s.db.leases && Later(s, a, b)
      && s.db.leases[a].resource == s.db.leases[b].resource
      ==> s.db.leases[a].acquiredAt <= s.db.leases[b].acquiredAt
  }

  /** The stamp is the acquisition of some lease on the resource, and no lease on it was acquired later. */
  ghost predicate StampIsLatest(db: Store, r: Id)
    requires r in db.resources
  {
    var stamp := db.resources[r].lastLeasedAt;
    && (forall l :: l in db.leases && db.leases[l].resource == r ==>
          stamp.Some? && db.leases[l].acquiredAt <= stamp.value)
    && (stamp.Some? ==>
          exists l :: l in db.leases && db.leases[l].resource == r && db.leases[l].acquiredAt == stamp.value)
  }

  ghost predicate Stamped(s: Sys) {
    GrantedInTurn(s) && forall r :: r in s.db.resources ==> StampIsLatest(s.db, r)
  }

  /** A lease about to be committed is acquired no earlier than its resource was last leased. */
  predicate Timely(s: Sys, tx: Tx)
    requires tx in s.txns
  {
    var p := s.txns[tx].point;
    p.Inserted? && p.row in s.db.resources ==> NotAfter(s.db.resources[p.row].lastLeasedAt, p.lease.acquiredAt)
  }

  ghost predicate StampInv(h: Hash, s: Sys) {
    Inv(h, s) && Stamped(s) && forall tx :: tx in s.txns ==> Timely(s, tx)
  }

  /** No grant between the two: rows may be rewritten and added, but origins and stamps stay. */
  ghost predicate GrantsNothing(s: Sys, t: Sys) {
    && t.serial == s.serial && t.db.leases.Keys == s.db.leases.Keys
    && (forall l :: l in s.db.leases ==>
          t.db.leases[l].resource == s.db.leases[l].resource && t.db.leases[l].acquiredAt == s.db.leases[l].acquiredAt)
    && s.db.resources.Keys <= t.db.resources.Keys
    && (forall r :: r in s.db.resources ==> t.db.resources[r].lastLeasedAt == s.db.resources[r].lastLeasedAt)
    && (forall r :: r in t.db.resources && r !in s.db.resources ==> t.db.resources[r].lastLeasedAt.None?)
  }

  lemma StaysStamped(s: Sys, t: Sys)
    requires Linked(s.db) && Stamped(s) && GrantsNothing(s, t)
    ensures Stamped(t)
  {
    forall a, b | a in t.db.leases && b in t.db.leases && Later(t, a, b) ensures Later(s, a, b) {}
    forall r | r in t.db.resources ensures StampIsLatest(t.db, r) {
      if r in s.db.resources {
        assert StampIsLatest(s.db, r);
      }
    }
  }

  lemma LeaseWriteGrantsNothing(s: Sys, tx: Tx)
    requires tx in s.txns && Published(s, tx).Some?
    requires s.txns[tx].point.RenewWritten? || s.txns[tx].point.EndLocked?
    ensures GrantsNothing(s, Published(s, tx).value)
  {}

  lemma BatchGrantsNothing(s: Sys, tx: Tx)
    requires tx in s.txns && Published(s, tx).Some? && s.txns[tx].point.Sweeping?
    ensures GrantsNothing(s, Published(s, tx).value)
  {}

  lemma WorkGrantsNothing(s: Sys, tx: Tx)
    requires tx in s.txns && Published(s, tx).Some?
    requires s.txns[tx].point.Settled?
    ensures GrantsNothing(s, Published(s, tx).value)
  {}

  lemma CreationGrantsNothing(s: Sys, tx: Tx)
    requires tx in s.txns && Published(s, tx).Some?
    requires s.txns[tx].point.Creating? || s.txns[tx].point.Disclosing?
    ensures GrantsNothing(s, Published(s, tx).value)
  {}

  predicate Publishing(p: Point) {
    || p.Inserted? || p.RenewWritten? || p.EndLocked? || p.Sweeping? || p.Settled? || p.Creating? || p.Disclosing?
  }

  lemma OnlyThesePublish(s: Sys, tx: Tx)
    requires tx in s.txns && Published(s, tx).Some?
    ensures Publishing(s.txns[tx].point) && Published(s, tx).value.txns == s.txns
  {}

  lemma WriteGrantsNothing(s: Sys, tx: Tx)
    requires tx in s.txns && Published(s, tx).Some? && !s.txns[tx].point.Inserted?
    ensures GrantsNothing(s, Published(s, tx).value)
  {
    OnlyThesePublish(s, tx);
    match s.txns[tx].point
    case RenewWritten(_, _, _, _) => LeaseWriteGrantsNothing(s, tx);
    case EndLocked(_, _, _) => LeaseWriteGrantsNothing(s, tx);
    case Sweeping(_, _) => BatchGrantsNothing(s, tx);
    case Settled(_, _) => WorkGrantsNothing(s, tx);
    case _ => CreationGrantsNothing(s, tx);
  }

  /** One grant between the two: lease `id` on `row`, acquired at `at`. */
  ghost predicate GrantsOne(s: Sys, t: Sys, row: Id, id: Id, x: Lease) {
    && id !in s.db.leases && t.db.leases == s.db.leases[id := x] && t.serial == s.serial[id := |s.serial|]
    && x.resource == row && row in s.db.resources
    && NotAfter(s.db.resources[row].lastLeasedAt, x.acquiredAt)
    && t.db.resources
         == s.db.resources[row := s.db.resources[row].(lastLeasedAt := Some(x.acquiredAt))]
  }

  lemma InsertGrantsOne(h: Hash, s: Sys, tx: Tx)
    requires StampInv(h, s) && tx in s.txns && s.txns[tx].point.Inserted? && Published(s, tx).Some?
    ensures var p := s.txns[tx].point; GrantsOne(s, Published(s, tx).value, p.row, p.id, p.lease)
  {
    assert Local(h, s, tx) && Timely(s, tx);
  }

  // ----- One move -----

  lemma GrantStamps(s: Sys, t: Sys, row: Id, id: Id, x: Lease)
    requires s.serial.Keys == s.db.leases.Keys && (forall l :: l in s.serial ==> s.serial[l] < |s.serial|)
    requires Stamped(s) && GrantsOne(s, t, row, id, x)
    ensures Stamped(t)
  {
    forall a, b | a in t.db.leases && b in t.db.leases && Later(t, a, b)
      && t.db.leases[a].resource == t.db.leases[b].resource
      ensures t.db.leases[a].acquiredAt <= t.db.leases[b].acquiredAt
    {
      if b == id {
        assert StampIsLatest(s.db, row);
      } else {
        assert Later(s, a, b);
      }
    }
    forall r | r in t.db.resources ensures StampIsLatest(t.db, r) {
      GrantIsLatest(s, t, row, id, x, r);
    }
  }

  lemma GrantIsLatest(s: Sys, t: Sys, row: Id, id: Id, x: Lease, r: Id)
    requires Stamped(s) && GrantsOne(s, t, row, id, x) && r in s.db.resources
    ensures StampIsLatest(t.db, r)
  {
    assert StampIsLatest(s.db, r);
    if r == row {
      assert t.db.leases[id].resource == r;
    } else if s.db.resources[r].lastLeasedAt.Some? {
      var l :| l in s.db.leases && s.db.leases[l].resource == r
        && s.db.leases[l].acquiredAt == s.db.resources[r].lastLeasedAt.value;
      assert t.db.leases[l] == s.db.leases[l];
    }
  }

  /** Two transactions cannot be about to grant the same row: each would hold its lock. */
  lemma OthersStayTimely(h: Hash, s: Sys, tx: Tx, u: Tx)
    requires StampInv(h, s) && tx in s.txns && Published(s, tx).Some? && u in s.txns && u != tx
    ensures u in Published(s, tx).value.txns && Timely(Published(s, tx).value, u)
  {
    OnlyThesePublish(s, tx);
    assert Timely(s, u);
    if s.txns[tx].point.Inserted? {
      InsertGrantsOne(h, s, tx);
      RowsDiffer(h, s, tx, u);
    } else {
      WriteGrantsNothing(s, tx);
    }
  }

  lemma RowsDiffer(h: Hash, s: Sys, tx: Tx, u: Tx)
    requires Inv(h, s) && tx in s.txns && u in s.txns && u != tx && s.txns[tx].point.Inserted?
    ensures s.txns[u].point.Inserted? ==>
      s.txns[u].point.row != s.txns[tx].point.row && s.txns[u].point.row in s.db.resources
  {
    assert Local(h, s, tx) && Local(h, s, u);
  }

  lemma CommitStamps(h: Hash, s: Sys, tx: Tx)
    requires StampInv(h, s) && tx in s.txns && Published(s, tx).Some?
    ensures
      var t := Ended(Published(s, tx).value, tx);
      Stamped(t) && forall u :: u in t.txns ==> Timely(t, u)
  {
    var t := Published(s, tx).value;
    OnlyThesePublish(s, tx);
    CommitStampsRows(h, s, tx);
    EndKeepsStamps(t, tx);
    forall u | u in Ended(t, tx).txns ensures Timely(Ended(t, tx), u) {
      OthersStayTimely(h, s, tx, u);
    }
  }

  lemma CommitStampsRows(h: Hash, s: Sys, tx: Tx)
    requires StampInv(h, s) && tx in s.txns && Published(s, tx).Some?
    ensures Stamped(Published(s, tx).value)
  {
    var t, p := Published(s, tx).value, s.txns[tx].point;
    if p.Inserted? {
      InsertGrantsOne(h, s, tx);
      GrantStamps(s, t, p.row, p.id, p.lease);
    } else {
      WriteGrantsNothing(s, tx);
      StaysStamped(s, t);
    }
  }

  lemma EndKeepsStamps(s: Sys, tx: Tx)
    requires Stamped(s)
    ensures Stamped(Ended(s, tx))
  {
    forall a, b | Later(Ended(s, tx), a, b) ensures Later(s, a, b) {}
  }

  /** The instant of the lease is read while the row is locked, so no committed stamp is later. */
  lemma InsertIsTimely(h: Hash, s: Sys, tx: Tx, act: Act)
    requires StampInv(h, s) && tx in s.txns && s.txns[tx].point.Clear? && NextAcquiring(h, s, tx, act).Some?
    ensures Timely(NextAcquiring(h, s, tx, act).value, tx)
  {
    var row := s.txns[tx].point.row;
    assert StampIsLatest(s.db, row);
  }

  lemma NextStaysTimely(h: Hash, s: Sys, tx: Tx, act: Act, u: Tx)
    requires StampInv(h, s) && tx in s.txns && Next(h, s, tx, act).Some? && u in Next(h, s, tx, act).value.txns
    ensures Timely(Next(h, s, tx, act).value, u)
  {
    NextIsPrivate(h, s, tx, act);
    if u == tx && s.txns[tx].point.Clear? {
      InsertIsTimely(h, s, tx, act);
    } else if u == tx {
      OnlyClearInserts(h, s, tx, act);
    } else {
      assert Timely(s, u);
    }
  }

  lemma AskingInsertsLast(h: Hash, s: Sys, tx: Tx, act: Act)
    requires tx in s.txns && Acquiring(s.txns[tx].point) && !s.txns[tx].point.Clear?
    requires NextAcquiring(h, s, tx, act).Some?
    ensures var t := NextAcquiring(h, s, tx, act).value; tx in t.txns ==> !t.txns[tx].point.Inserted?
  {}

  lemma OthersNeverInsert(h: Hash, s: Sys, tx: Tx, act: Act)
    requires tx in s.txns && !Acquiring(s.txns[tx].point) && !Renewal(s.txns[tx].point) && Next(h, s, tx, act).Some?
    ensures var t := Next(h, s, tx, act).value; tx in t.txns ==> !t.txns[tx].point.Inserted?
  {}

  lemma RenewalsNeverInsert(s: Sys, tx: Tx, act: Act)
    requires tx in s.txns && Renewal(s.txns[tx].point) && NextRenewing(s, tx, act).Some?
    ensures var t := NextRenewing(s, tx, act).value; tx in t.txns ==> !t.txns[tx].point.Inserted?
  {}

  lemma OnlyClearInserts(h: Hash, s: Sys, tx: Tx, act: Act)
    requires tx in s.txns && Next(h, s, tx, act).Some? && !s.txns[tx].point.Clear?
    ensures var t := Next(h, s, tx, act).value; tx in t.txns ==> !t.txns[tx].point.Inserted?
  {
    if Acquiring(s.txns[tx].point) {
      AskingInsertsLast(h, s, tx, act);
    } else if Renewal(s.txns[tx].point) {
      RenewalsNeverInsert(s, tx, act);
    } else {
      OthersNeverInsert(h, s, tx, act);
    }
  }

  lemma NextStamps(h: Hash, s: Sys, tx: Tx, act: Act)
    requires StampInv(h, s) && tx in s.txns && Next(h, s, tx, act).Some?
    ensures var t := Next(h, s, tx, act).value; Stamped(t) && forall u :: u in t.txns ==> Timely(t, u)
  {
    var t := Next(h, s, tx, act).value;
    NextIsPrivate(h, s, tx, act);
    assert GrantsNothing(s, t);
    StaysStamped(s, t);
    forall u | u in t.txns ensures Timely(t, u) {
      NextStaysTimely(h, s, tx, act, u);
    }
  }

  lemma ClockStamps(s: Sys, to: Time)
    requires Linked(s.db) && Stamped(s)
    ensures Stamped(s.(clock := to))
  {
    StaysStamped(s, s.(clock := to));
  }

  lemma BeginStamps(s: Sys, tx: Tx, p: Point)
    requires Linked(s.db) && Stamped(s)
    ensures Stamped(s.(txns := s.txns[tx := Txn(s.clock, p)]))
  {
    StaysStamped(s, s.(txns := s.txns[tx := Txn(s.clock, p)]));
  }

  /** Time, beginnings and rollbacks. */
  lemma OtherMovesStamp(h: Hash, s: Sys, m: Move)
    requires StampInv(h, s) && Fire(h, s, m).Some? && (m.Run? ==> m.act == Abort)
    ensures Stamped(Fire(h, s, m).value)
  {
    match m
    case Tick(to) => ClockStamps(s, to);
    case Begin(tx, p) => BeginStamps(s, tx, p);
    case Run(tx, _) => EndKeepsStamps(s, tx);
  }

  lemma OtherMovesStayTimely(s: Sys, h: Hash, m: Move)
    requires Fire(h, s, m).Some? && (m.Run? ==> m.act == Abort)
    requires forall tx :: tx in s.txns ==> Timely(s, tx)
    ensures var t := Fire(h, s, m).value; forall u :: u in t.txns ==> Timely(t, u)
  {
    var t := Fire(h, s, m).value;
    forall u | u in t.txns ensures Timely(t, u) {
      assert u in s.txns && t.txns[u] == s.txns[u] ==> Timely(s, u);
    }
  }

  lemma FireStamps(h: Hash, s: Sys, m: Move)
    requires StampInv(h, s) && Fire(h, s, m).Some?
    ensures StampInv(h, Fire(h, s, m).value)
  {
    var t := Fire(h, s, m).value;
    FireInv(h, s, m);
    if m.Run? && m.act == Commit {
      CommitStamps(h, s, m.tx);
    } else if m.Run? && m.act != Abort {
      NextStamps(h, s, m.tx, m.act);
    } else {
      OtherMovesStamp(h, s, m);
      OtherMovesStayTimely(s, h, m);
    }
  }

  /** A stamp only moves forward. */
  ghost predicate Forward(a: Store, b: Store) {
    forall r :: r in a.resources ==>
      && r in b.resources
      && (a.resources[r].lastLeasedAt.Some? ==>
            b.resources[r].lastLeasedAt.Some? && a.resources[r].lastLeasedAt.value <= b.resources[r].lastLeasedAt.value)
  }

  lemma CommitMovesForward(h: Hash, s: Sys, tx: Tx)
    requires StampInv(h, s) && tx in s.txns && Published(s, tx).Some?
    ensures Forward(s.db, Published(s, tx).value.db)
  {
    if s.txns[tx].point.Inserted? {
      InsertGrantsOne(h, s, tx);
    } else {
      WriteGrantsNothing(s, tx);
    }
  }

  lemma FireMovesForward(h: Hash, s: Sys, m: Move)
    requires StampInv(h, s) && Fire(h, s, m).Some?
    ensures Forward(s.db, Fire(h, s, m).value.db)
  {
    if m.Run? && m.act == Commit {
      CommitMovesForward(h, s, m.tx);
    } else if m.Run? && m.act != Abort {
      NextIsPrivate(h, s, m.tx, m.act);
    }
  }

  lemma {:induction false} ReachStamps(h: Hash, s: Sys, moves: seq<Move>, t: Sys)
    requires StampInv(h, s) && Reaches(h, s, moves, t)
    ensures StampInv(h, t) && Forward(s.db, t.db)
    decreases moves
  {
    if moves != [] {
      FireStamps(h, s, moves[0]);
      FireMovesForward(h, s, moves[0]);
      ReachStamps(h, Fire(h, s, moves[0]).value, moves[1..], t);
    }
  }

  /**
   * From any database at rest whose stamps are its latest acquisitions, every interleaving keeps them
   * so: grants on one resource follow each other in time, and no stamp ever moves back.
   */
  lemma StampsInEveryInterleaving(h: Hash, s: Sys, moves: seq<Move>, t: Sys, more: seq<Move>, u: Sys)
    requires Idle(s) && Stamped(s) && Reaches(h, s, moves, t) && Reaches(h, t, more, u)
    ensures Stamped(t) && Stamped(u) && Forward(t.db, u.db)
  {
    ReachStamps(h, s, moves, t);
    ReachStamps(h, t, more, u);
  }
}
