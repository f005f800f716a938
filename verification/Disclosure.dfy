/**
 * Secrets read through a lease while other transactions run. The access compares the lease with its
 * frozen now(), but reads the row only once it has the row's lock, in whatever state that is.
 */
module Disclosure {
  import opened Types
  import opened Catalog
  import opened Leasing
  import opened Interleaving
  import opened Paths
  import opened Exclusivity
  import opened Answers

  /** An access begun at `start` that gets to read the tables of `t` is let through. */
  predicate Admitted(t: Sys, start: Time, dir: Directory, l: Id, caller: Caller) {
    Linked(t.db) && MayDisclose(t.db, start, dir, l, caller)
  }

  /** Some continuation lets an access through that begins now. */
  ghost predicate MayPass(h: Hash, s: Sys, dir: Directory, l: Id, caller: Caller) {
    exists moves, t :: Reaches(h, s, moves, t) && Admitted(t, s.clock, dir, l, caller)
  }

  /**
   * An access that begins once the lease is dead, with no reviving renewal under way, discloses
   * nothing to anybody, however long it waits and whatever commits meanwhile.
   */
  lemma {:induction false} NothingAfterDeath(h: Hash, s: Sys, moves: seq<Move>, t: Sys, start: Time,
                                             dir: Directory, l: Id, caller: Caller)
    requires Inv(h, s) && Dead(s, l) && s.clock <= start && Reaches(h, s, moves, t)
    ensures !Admitted(t, start, dir, l, caller)
  {
    DeathInEveryInterleaving(h, s, moves, t, l, s.clock);
  }

  lemma StaysHere(h: Hash, s: Sys, dir: Directory, l: Id, caller: Caller)
    requires Admitted(s, s.clock, dir, l, caller)
    ensures MayPass(h, s, dir, l, caller)
  {
    assert Reaches(h, s, [], s);
  }

  /** A renewal about to be committed lets in an access that begins before its commit. */
  lemma PassesAfterRevival(h: Hash, s: Sys, dir: Directory, l: Id, caller: Caller)
    requires Inv(h, s) && l in s.db.leases && MayRevive(h, s, l) && caller.administrator
    ensures MayPass(h, s, dir, l, caller)
  {
    var moves, t :| Reaches(h, s, moves, t) && ActiveIn(t, l);
    ReachInv(h, s, moves, t);
    ReachClock(h, s, moves, t);
    assert Admitted(t, s.clock, dir, l, caller);
  }

  lemma CommitClock(s: Sys, tx: Tx)
    requires tx in s.txns && Published(s, tx).Some?
    ensures Published(s, tx).value.clock == s.clock
  {}

  lemma FireClock(h: Hash, s: Sys, m: Move)
    requires Fire(h, s, m).Some?
    ensures s.clock <= Fire(h, s, m).value.clock
  {
    if m.Run? && m.act == Commit {
      CommitClock(s, m.tx);
    } else if m.Run? && m.act != Abort {
      NextIsPrivate(h, s, m.tx, m.act);
    }
  }

  lemma {:induction false} ReachClock(h: Hash, s: Sys, moves: seq<Move>, t: Sys)
    requires Reaches(h, s, moves, t)
    ensures s.clock <= t.clock
    decreases moves
  {
    if moves != [] {
      FireClock(h, s, moves[0]);
      ReachClock(h, Fire(h, s, moves[0]).value, moves[1..], t);
    }
  }

  /**
   * An administrator's access that begins now can get through exactly when the lease is active now
   * or a reviving renewal of it is under way; for anybody else that is necessary.
   */
  lemma PassesExactlyWhen(h: Hash, s: Sys, dir: Directory, l: Id, caller: Caller)
    requires Inv(h, s) && l in s.db.leases
    ensures MayPass(h, s, dir, l, caller) ==> ActiveIn(s, l) || RenewalPending(s, l)
    ensures caller.administrator && (ActiveIn(s, l) || RenewalPending(s, l)) ==> MayPass(h, s, dir, l, caller)
  {
    if ActiveIn(s, l) {
      if caller.administrator {
        StaysHere(h, s, dir, l, caller);
      }
    } else {
      RevivesExactlyWhen(h, s, l);
      if RenewalPending(s, l) {
        if caller.administrator {
          PassesAfterRevival(h, s, dir, l, caller);
        }
      } else {
        forall moves, t | Reaches(h, s, moves, t) ensures !Admitted(t, s.clock, dir, l, caller) {
          NothingAfterDeath(h, s, moves, t, s.clock, dir, l, caller);
        }
      }
    }
  }

  /**
   * The frozen now() shows: whoever may read through a finite lease now may still be let through,
   * by an access begun now, at an instant at which the lease has run out.
   */
  lemma AccessOutlivesLease(h: Hash, s: Sys, dir: Directory, l: Id, caller: Caller) returns (moves: seq<Move>, t: Sys)
    requires Admitted(s, s.clock, dir, l, caller) && s.db.leases[l].expiresAt.Some?
    ensures Reaches(h, s, moves, t) && !ActiveIn(t, l) && Admitted(t, s.clock, dir, l, caller)
  {
    var expiry := s.db.leases[l].expiresAt.value;
    t := s.(clock := expiry);
    assert Reaches(h, t, [], t);
    Prepend(h, s, Tick(expiry), [], t);
    moves := [Tick(expiry)] + [];
  }
}
