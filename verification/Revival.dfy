/** A lease that every reader sees as dead does come back, from every store with a finite lease. */
module Revival {
  import opened Types
  import opened Interleaving
  import opened Paths
  import opened Realization
  import opened Exclusivity
  import opened Answers

  /** The renewal passes its overdue test in time, and then lets the expiry go by. */
  lemma RenewalStalls(h: Hash, s: Sys, l: Id, intent: TtlIntent) returns (moves: seq<Move>, t: Sys)
    requires Quiescent(s) && ActiveIn(s, l) && s.db.leases[l].expiresAt.Some?
    ensures Reaches(h, s, moves, t) && t.db == s.db && t.clock == s.db.leases[l].expiresAt.value
    ensures 1 in t.txns && t.txns[1].point == RenewChecked(l, intent, s.db.leases[l])
  {
    var read := s.db.leases[l];
    moves, t := RenewalLocks(h, s, l, intent, read.owner);
    moves, t := Moves(h, s, moves, t, RenewLocked(l, intent, read), Check, RenewChecked(l, intent, read));
    Extend(h, s, moves, t, Tick(read.expiresAt.value));
    moves, t := moves + [Tick(read.expiresAt.value)], t.(clock := read.expiresAt.value);
  }

  /**
   * From every database at rest with an active lease of finite expiry, and a TTL that its resource
   * resolves, some interleaving makes the lease inactive and then active again.
   */
  lemma DeadLeaseComesBack(h: Hash, s: Sys, l: Id, intent: TtlIntent)
    returns (first: seq<Move>, t: Sys, second: seq<Move>, u: Sys)
    requires Idle(s) && ActiveIn(s, l) && s.db.leases[l].expiresAt.Some?
    requires Resolvable(s.db, s.db.leases[l], intent)
    ensures Reaches(h, s, first, t) && l in t.db.leases && !ActiveIn(t, l)
    ensures Reaches(h, t, second, u) && ActiveIn(u, l)
  {
    first, t := RenewalStalls(h, s, l, intent);
    ReachInv(h, s, first, t);
    assert Reviving(t, t.txns[1].point, l, t.clock);
    RevivesExactlyWhen(h, t, l);
    second, u :| Reaches(h, t, second, u) && ActiveIn(u, l);
  }
}
