/** Optimistic versions in every interleaving: no version outlives a committed, non-empty update. */
module Versions {
  import opened Types
  import opened Catalog
  import opened Interleaving
  import opened Exclusivity
  import opened Realization

  ghost predicate NoVersionFalls(a: Store, b: Store) {
    forall r :: r in a.resources ==> r in b.resources && a.resources[r].version <= b.resources[r].version
  }

  lemma RewriteRaises(db: Store, start: Time, row: Id, w: Work)
    requires row in db.resources
    ensures NoVersionFalls(db, Rewritten(db, start, row, w))
  {}

  lemma SettledRaises(s: Sys, tx: Tx)
    requires tx in s.txns && s.txns[tx].point.Settled? && Published(s, tx).Some?
    ensures NoVersionFalls(s.db, Published(s, tx).value.db)
  {
    RewriteRaises(s.db, s.txns[tx].start, s.txns[tx].point.row, s.txns[tx].point.work);
  }

  lemma OthersRaise(s: Sys, tx: Tx)
    requires tx in s.txns && !s.txns[tx].point.Settled? && Published(s, tx).Some?
    ensures NoVersionFalls(s.db, Published(s, tx).value.db)
  {}

  lemma CommitRaises(s: Sys, tx: Tx)
    requires tx in s.txns && Published(s, tx).Some?
    ensures NoVersionFalls(s.db, Published(s, tx).value.db)
  {
    if s.txns[tx].point.Settled? {
      SettledRaises(s, tx);
    } else {
      OthersRaise(s, tx);
    }
  }

  lemma FireRaises(h: Hash, s: Sys, m: Move)
    requires Fire(h, s, m).Some?
    ensures NoVersionFalls(s.db, Fire(h, s, m).value.db)
  {
    if m.Run? && m.act == Commit {
      CommitRaises(s, m.tx);
    } else if m.Run? && m.act != Abort {
      NextIsPrivate(h, s, m.tx, m.act);
    }
  }

  lemma {:induction false} ReachRaises(h: Hash, s: Sys, moves: seq<Move>, t: Sys)
    requires Reaches(h, s, moves, t)
    ensures NoVersionFalls(s.db, t.db)
    decreases moves
  {
    if moves != [] {
      FireRaises(h, s, moves[0]);
      ReachRaises(h, Fire(h, s, moves[0]).value, moves[1..], t);
    }
  }

  /** Ready to commit the update `p` of `row`. */
  predicate Updating(s: Sys, tx: Tx, row: Id, p: Patch) {
    tx in s.txns && s.txns[tx].point == Settled(row, Patching(p))
  }

  lemma UpdateIsCurrent(h: Hash, s: Sys, tx: Tx, row: Id, p: Patch)
    requires Inv(h, s) && Updating(s, tx, row, p)
    ensures row in s.db.resources && s.db.resources[row].version == p.version
  {
    assert Local(h, s, tx);
  }

  /** The transaction commits the update, leading to `t`. */
  ghost predicate CommitsUpdate(h: Hash, s: Sys, tx: Tx, row: Id, p: Patch, t: Sys) {
    Updating(s, tx, row, p) && Fire(h, s, Run(tx, Commit)) == Some(t)
  }

  /** An update raises the version by one exactly when it names a field. */
  lemma UpdateCommits(h: Hash, s: Sys, tx: Tx, row: Id, p: Patch, t: Sys)
    requires CommitsUpdate(h, s, tx, row, p, t)
    requires row in s.db.resources && s.db.resources[row].version == p.version
    ensures
      row in t.db.resources && t.db.resources[row].version == if IsEmpty(p) then p.version else p.version + 1
  {}

  /**
   * In every interleaving, of two committed updates of one resource the later never carries a
   * smaller version, and it carries a larger one when the earlier was not empty.
   */
  lemma {:induction false} NoLostUpdateInEveryInterleaving(h: Hash, s: Sys, moves: seq<Move>, t: Sys, tx: Tx,
                                                           row: Id, p: Patch, t': Sys, more: seq<Move>, u: Sys,
                                                           tx': Tx, p': Patch, u': Sys)
    requires Idle(s) && Reaches(h, s, moves, t) && CommitsUpdate(h, t, tx, row, p, t')
    requires Reaches(h, t', more, u) && CommitsUpdate(h, u, tx', row, p', u')
    ensures p.version <= p'.version && (!IsEmpty(p) ==> p.version < p'.version)
  {
    ReachInv(h, s, moves, t);
    UpdateIsCurrent(h, t, tx, row, p);
    UpdateCommits(h, t, tx, row, p, t');
    FireInv(h, t, Run(tx, Commit));
    ReachInv(h, t', more, u);
    ReachRaises(h, t', more, u);
    UpdateIsCurrent(h, u, tx', row, p');
  }

  /**
   * The exception occurs at every store at rest: an empty update with the present version commits,
   * and any update accepted before it is accepted, with the same version, after it.
   */
  lemma {:induction false} EmptyUpdatesShareVersions(h: Hash, s: Sys, row: Id, p: Patch, p': Patch)
    returns (moves: seq<Move>, t: Sys, t': Sys, more: seq<Move>, u: Sys, u': Sys)
    requires Quiescent(s) && IsEmpty(p)
    requires Permitted(s.db, s.clock, row, Patching(p)) && Permitted(s.db, s.clock, row, Patching(p'))
    requires Storable(s.db, row, Patching(p'))
    ensures Reaches(h, s, moves, t) && CommitsUpdate(h, t, 1, row, p, t')
    ensures Reaches(h, t', more, u) && CommitsUpdate(h, u, 1, row, p', u') && p'.version == p.version
  {
    moves, t := WorkSettles(h, s, row, Patching(p));
    t' := EmptyUpdateCommits(h, s, t, row, p);
    more, u := WorkSettles(h, t', row, Patching(p'));
    u' := PatchCommits(h, t', u, row, p');
  }

  lemma EmptyUpdateCommits(h: Hash, s: Sys, t: Sys, row: Id, p: Patch) returns (t': Sys)
    requires Alone(s, t, Settled(row, Patching(p))) && IsEmpty(p) && row in s.db.resources
    ensures CommitsUpdate(h, t, 1, row, p, t') && Quiescent(t') && t'.db == s.db && t'.clock == s.clock
  {
    t' := Ended(t, 1);
  }

  lemma PatchCommits(h: Hash, s: Sys, t: Sys, row: Id, p: Patch) returns (t': Sys)
    requires Alone(s, t, Settled(row, Patching(p))) && row in s.db.resources && Storable(s.db, row, Patching(p))
    ensures CommitsUpdate(h, t, 1, row, p, t')
  {
    t' := Fire(h, t, Run(1, Commit)).value;
  }

  // ----- Names -----

  lemma LeasingKeepsNames(s: Sys, tx: Tx)
    requires tx in s.txns && Published(s, tx).Some? && UniqueNames(s.db)
    requires !s.txns[tx].point.Settled? && !s.txns[tx].point.Creating?
    ensures UniqueNames(Published(s, tx).value.db)
  {}

  lemma CreationKeepsNames(s: Sys, tx: Tx)
    requires tx in s.txns && Published(s, tx).Some? && UniqueNames(s.db) && s.txns[tx].point.Creating?
    ensures UniqueNames(Published(s, tx).value.db)
  {}

  lemma WorkKeepsNames(s: Sys, tx: Tx)
    requires tx in s.txns && Published(s, tx).Some? && UniqueNames(s.db) && s.txns[tx].point.Settled?
    ensures UniqueNames(Published(s, tx).value.db)
  {}

  lemma FireKeepsNames(h: Hash, s: Sys, m: Move)
    requires Fire(h, s, m).Some? && UniqueNames(s.db)
    ensures UniqueNames(Fire(h, s, m).value.db)
  {
    if m.Run? && m.act == Commit {
      if s.txns[m.tx].point.Settled? {
        WorkKeepsNames(s, m.tx);
      } else if s.txns[m.tx].point.Creating? {
        CreationKeepsNames(s, m.tx);
      } else {
        LeasingKeepsNames(s, m.tx);
      }
    } else if m.Run? && m.act != Abort {
      NextIsPrivate(h, s, m.tx, m.act);
    }
  }

  /** In every interleaving of creations, renames and everything else, resource names stay unique. */
  lemma {:induction false} NamesStayUniqueInEveryInterleaving(h: Hash, s: Sys, moves: seq<Move>, t: Sys)
    requires UniqueNames(s.db) && Reaches(h, s, moves, t)
    ensures UniqueNames(t.db)
    decreases moves
  {
    if moves != [] {
      FireKeepsNames(h, s, moves[0]);
      NamesStayUniqueInEveryInterleaving(h, Fire(h, s, moves[0]).value, moves[1..], t);
    }
  }
}
