/** Extending an interleaving by one move. */
module Paths {
  import opened Types
  import opened Ranks
  import opened Leasing
  import opened Interleaving

  lemma {:induction false} Extend(h: Hash, s: Sys, moves: seq<Move>, t: Sys, m: Move)
    requires Reaches(h, s, moves, t) && Fire(h, t, m).Some?
    ensures Reaches(h, s, moves + [m], Fire(h, t, m).value)
    decreases moves
  {
    if moves == [] {
      assert Reaches(h, Fire(h, s, m).value, [], Fire(h, t, m).value);
      assert ([] + [m])[1..] == [];
    } else {
      assert (moves + [m])[1..] == moves[1..] + [m];
      Extend(h, Fire(h, s, moves[0]).value, moves[1..], t, m);
    }
  }

  lemma Prepend(h: Hash, s: Sys, m: Move, moves: seq<Move>, t: Sys)
    requires Fire(h, s, m).Some? && Reaches(h, Fire(h, s, m).value, moves, t)
    ensures Reaches(h, s, [m] + moves, t)
  {
    assert ([m] + moves)[1..] == moves;
  }

  function Begun(s: Sys, tx: Tx, p: Point): Sys {
    s.(txns := s.txns[tx := Txn(s.clock, p)])
  }

  function Scanned(s: Sys, tx: Tx, ids: seq<Id>): Sys
    requires tx in s.txns
  {
    At(s.(locks := LockAll(s.locks, ids, tx)), tx, Sweeping(ids, 0))
  }

  function SweptOnce(s: Sys, tx: Tx, ids: seq<Id>, row: Id): Sys
    requires tx in s.txns
  {
    At(Locking(s, tx, ResourceRow(row)), tx, Sweeping(ids, 1))
  }

  lemma Begins(h: Hash, s: Sys, moves: seq<Move>, t: Sys, tx: Tx, limit: nat)
    requires Reaches(h, s, moves, t) && tx !in t.txns
    ensures Reaches(h, s, moves + [Begin(tx, Scanning(limit))], Begun(t, tx, Scanning(limit)))
  {
    Extend(h, s, moves, t, Begin(tx, Scanning(limit)));
  }

  lemma Scans(h: Hash, s: Sys, moves: seq<Move>, t: Sys, tx: Tx, limit: nat, ids: seq<Id>)
    requires Reaches(h, s, moves, t) && tx in t.txns && t.txns[tx].point == Scanning(limit)
    requires Sweepable(t, tx, limit, ids)
    ensures Reaches(h, s, moves + [Run(tx, Scan(ids))], Scanned(t, tx, ids))
  {
    Extend(h, s, moves, t, Run(tx, Scan(ids)));
  }

  lemma Sweeps(h: Hash, s: Sys, moves: seq<Move>, t: Sys, tx: Tx, ids: seq<Id>, row: Id)
    requires Reaches(h, s, moves, t) && tx in t.txns && t.txns[tx].point == Sweeping(ids, 0)
    requires ids != [] && ids[0] in t.db.leases && t.db.leases[ids[0]].resource == row
    requires Free(t, tx, ResourceRow(row))
    ensures Reaches(h, s, moves + [Run(tx, Sweep)], SweptOnce(t, tx, ids, row))
  {
    Extend(h, s, moves, t, Run(tx, Sweep));
  }

  /** Any statement short of commit and rollback. */
  lemma Steps(h: Hash, s: Sys, before: seq<Move>, t: Sys, tx: Tx, act: Act, u: Sys) returns (moves: seq<Move>)
    requires Reaches(h, s, before, t) && tx in t.txns && act != Commit && act != Abort
    requires Next(h, t, tx, act) == Some(u)
    ensures Reaches(h, s, moves, u)
  {
    Extend(h, s, before, t, Run(tx, act));
    moves := before + [Run(tx, act)];
  }

  /** The leases that a batch selects can be locked together when nobody holds a lease row. */
  lemma SelectionIsSweepable(t: Sys, tx: Tx, limit: nat)
    requires tx in t.txns && forall l :: LeaseRow(l) !in t.locks
    ensures Sweepable(t, tx, limit, SweepIds(t.db, t.txns[tx].start, limit))
  {
    var now := t.txns[tx].start;
    var due, ids := DueLeases(t.db, now), SweepIds(t.db, now, limit);
    var rows := Leading(due, limit);
    SweepTakesDue(t.db, now, limit);
    LeadingSize(due, limit);
    LeadingLeads(due, limit);
    forall i | 0 <= i < |rows| ensures rows[i] == Rank(0, t.db.leases[ids[i]].expiresAt, ids[i]) {
      assert rows[i] in due;
    }
    assert ByExpiry(t.db, ids);
  }
}
