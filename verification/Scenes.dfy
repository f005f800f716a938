/** Stretches of an interleaving that the deadlock witnesses are put together from. */
module Scenes {
  import opened Types
  import opened Ranks
  import opened Catalog
  import opened Leasing
  import opened Interleaving
  import opened Paths

  /** The first two rows of a request's selection order, when it reads the tables at `clock`. */
  predicate Prefers(db: Store, clock: Time, a: Ask, liked: Id, other: Id) {
    && liked in db.resources && other in db.resources && liked != other
    && Leading(Candidates(db, clock, a.dir, a.request, a.caller), 2)
         == [RankOf(db, clock, liked), RankOf(db, clock, other)]
  }

  lemma BothOffered(db: Store, clock: Time, a: Ask, liked: Id, other: Id)
    requires Prefers(db, clock, a, liked, other)
    ensures Offered(db, clock, a, liked) && Offered(db, clock, a, other)
  {
    var candidates := Candidates(db, clock, a.dir, a.request, a.caller);
    LeadingSize(candidates, 2);
    assert RankOf(db, clock, liked) in Leading(candidates, 2) && RankOf(db, clock, other) in Leading(candidates, 2);
  }

  lemma RequestKeys(h: Hash, s: Sys, before: seq<Move>, b: Sys, tx: Tx, a: Ask) returns (moves: seq<Move>, t: Sys)
    requires Reaches(h, s, before, b) && tx !in b.txns && SlotOf(h, a) !in b.locks
    ensures Reaches(h, s, moves, t) && t.db == b.db && t.clock == b.clock
    ensures t.txns == b.txns[tx := Txn(b.clock, Keyed(a))] && t.locks == b.locks[SlotOf(h, a) := tx]
  {
    Extend(h, s, before, b, Begin(tx, Keying(a)));
    moves := before + [Begin(tx, Keying(a))];
    var u := Begun(b, tx, Keying(a));
    t := At(Locking(u, tx, SlotOf(h, a)), tx, Keyed(a));
    moves := Steps(h, s, moves, u, tx, TakeKey, t);
  }

  /** The request has found its key unused. */
  lemma RequestStarts(h: Hash, s: Sys, before: seq<Move>, b: Sys, tx: Tx, a: Ask) returns (moves: seq<Move>, t: Sys)
    requires Reaches(h, s, before, b) && tx !in b.txns && SlotOf(h, a) !in b.locks
    requires Holders(b.db, a.caller.id, a.key) == {}
    ensures Reaches(h, s, moves, t) && t.db == b.db && t.clock == b.clock
    ensures t.txns == b.txns[tx := Txn(b.clock, Unheld(a))] && t.locks == b.locks[SlotOf(h, a) := tx]
  {
    var u: Sys;
    moves, u := RequestKeys(h, s, before, b, tx, a);
    t := At(u, tx, Unheld(a));
    moves := Steps(h, s, moves, u, tx, LookUp, t);
  }

  lemma DisablingLocks(h: Hash, s: Sys, before: seq<Move>, b: Sys, tx: Tx, row: Id) returns (moves: seq<Move>, t: Sys)
    requires Reaches(h, s, before, b) && tx !in b.txns && ResourceRow(row) !in b.locks
    ensures Reaches(h, s, moves, t) && t.db == b.db && t.clock == b.clock
    ensures t.txns == b.txns[tx := Txn(b.clock, Managed(row, Transiting(Disable)))]
    ensures t.locks == b.locks[ResourceRow(row) := tx]
  {
    var w := Transiting(Disable);
    Extend(h, s, before, b, Begin(tx, Managing(row, w)));
    moves := before + [Begin(tx, Managing(row, w))];
    var u := Begun(b, tx, Managing(row, w));
    t := At(Locking(u, tx, ResourceRow(row)), tx, Managed(row, w));
    moves := Steps(h, s, moves, u, tx, LockManaged, t);
  }

  /** An administrator is about to commit the disabling of a resource. */
  lemma DisablingSettles(h: Hash, s: Sys, before: seq<Move>, b: Sys, tx: Tx, row: Id)
    returns (moves: seq<Move>, t: Sys)
    requires Reaches(h, s, before, b) && tx !in b.txns && ResourceRow(row) !in b.locks
    requires Permitted(b.db, b.clock, row, Transiting(Disable))
    ensures Reaches(h, s, moves, t) && t.db == b.db && t.clock == b.clock
    ensures t.txns == b.txns[tx := Txn(b.clock, Settled(row, Transiting(Disable)))]
    ensures t.locks == b.locks[ResourceRow(row) := tx]
  {
    var u: Sys;
    moves, u := DisablingLocks(h, s, before, b, tx, row);
    t := At(u, tx, Settled(row, Transiting(Disable)));
    moves := Steps(h, s, moves, u, tx, Settle, t);
  }

  /** The request has taken its snapshot and waits for a row. */
  lemma RequestWaits(h: Hash, s: Sys, before: seq<Move>, b: Sys, tx: Tx, a: Ask, row: Id)
    returns (moves: seq<Move>, t: Sys)
    requires Reaches(h, s, before, b) && tx in b.txns && b.txns[tx] == Txn(b.clock, Unheld(a))
    requires a.request.sharing == Shared && Offered(b.db, b.clock, a, row)
    ensures Reaches(h, s, moves, t) && t == At(b, tx, Claiming(a, b.db, row))
  {
    var u := At(b, tx, Choosing(a, b.db));
    moves := Steps(h, s, before, b, tx, TakeSnapshot, u);
    t := At(b, tx, Claiming(a, b.db, row));
    assert t == At(u, tx, Claiming(a, b.db, row));
    moves := Steps(h, s, moves, u, tx, Await(row), t);
  }

  lemma OfferedCanBeDisabled(db: Store, now: Time, a: Ask, row: Id)
    requires Offered(db, now, a, row)
    ensures Permitted(db, now, row, Transiting(Disable))
  {}

  lemma DisabledFails(seen: Store, db: Store, start: Time, a: Ask, row: Id)
    requires row in db.resources && db.resources[row].status == Disabled
    ensures !Requalifies(seen, db, start, a, row)
  {}

  lemma PutUnder(txns: map<Tx, Txn>, tx: Tx, holder: Tx, x: Txn, y: Txn, z: Txn)
    requires tx != holder
    ensures txns[tx := x][holder := y][tx := z] == txns[tx := z][holder := y]
  {}

  lemma RequestThenDisabling(h: Hash, s: Sys, before: seq<Move>, b: Sys, tx: Tx, holder: Tx, a: Ask, row: Id)
    returns (moves: seq<Move>, t: Sys)
    requires Reaches(h, s, before, b) && tx !in b.txns && holder !in b.txns && tx != holder
    requires SlotOf(h, a) !in b.locks && ResourceRow(row) !in b.locks
    requires Holders(b.db, a.caller.id, a.key) == {} && Permitted(b.db, b.clock, row, Transiting(Disable))
    ensures Reaches(h, s, moves, t) && t.db == b.db && t.clock == b.clock
    ensures
      t.txns == b.txns[tx := Txn(b.clock, Unheld(a))][holder := Txn(b.clock, Settled(row, Transiting(Disable)))]
    ensures t.locks == b.locks[SlotOf(h, a) := tx][ResourceRow(row) := holder]
  {
    moves, t := RequestStarts(h, s, before, b, tx, a);
    moves, t := DisablingSettles(h, s, moves, t, holder, row);
  }

  /** A request waits for the row that an uncommitted disabling has locked. */
  lemma RequestMeetsDisabling(h: Hash, s: Sys, before: seq<Move>, b: Sys, tx: Tx, holder: Tx, a: Ask, row: Id)
    returns (moves: seq<Move>, t: Sys)
    requires Reaches(h, s, before, b) && tx !in b.txns && holder !in b.txns && tx != holder
    requires SlotOf(h, a) !in b.locks && ResourceRow(row) !in b.locks
    requires a.request.sharing == Shared && Holders(b.db, a.caller.id, a.key) == {}
    requires Offered(b.db, b.clock, a, row)
    ensures Reaches(h, s, moves, t) && t.db == b.db && t.clock == b.clock
    ensures
      t.txns == b.txns[tx := Txn(b.clock, Claiming(a, b.db, row))]
                      [holder := Txn(b.clock, Settled(row, Transiting(Disable)))]
    ensures t.locks == b.locks[SlotOf(h, a) := tx][ResourceRow(row) := holder]
  {
    OfferedCanBeDisabled(b.db, b.clock, a, row);
    moves, t := RequestThenDisabling(h, s, before, b, tx, holder, a, row);
    moves, t := RequestWaits(h, s, moves, t, tx, a, row);
    PutUnder(b.txns, tx, holder, Txn(b.clock, Unheld(a)), Txn(b.clock, Settled(row, Transiting(Disable))),
             Txn(b.clock, Claiming(a, b.db, row)));
  }

  /** The disabling commits and lets go of its row. */
  lemma DisablingCommits(h: Hash, s: Sys, before: seq<Move>, b: Sys, tx: Tx, row: Id)
    returns (moves: seq<Move>, t: Sys)
    requires Reaches(h, s, before, b) && row in b.db.resources
    requires tx in b.txns && b.txns[tx].point == Settled(row, Transiting(Disable))
    ensures Reaches(h, s, moves, t) && t.clock == b.clock && t.txns == b.txns - {tx}
    ensures t.db.leases == b.db.leases && row in t.db.resources && t.db.resources[row].status == Disabled
    ensures t.db.resources == b.db.resources[row := t.db.resources[row]]
    ensures forall k :: k in t.locks <==> k in b.locks && b.locks[k] != tx
    ensures forall k :: k in t.locks ==> t.locks[k] == b.locks[k]
  {
    t := Ended(Published(b, tx).value, tx);
    Extend(h, s, before, b, Run(tx, Commit));
    moves := before + [Run(tx, Commit)];
  }

  /** The request locks the row it waited for, passes it over, and waits for the next one. */
  lemma RequestPassesOver(h: Hash, s: Sys, before: seq<Move>, b: Sys, tx: Tx, a: Ask, seen: Store,
                          liked: Id, other: Id)
    returns (moves: seq<Move>, t: Sys)
    requires Reaches(h, s, before, b) && tx in b.txns && b.txns[tx].point == Claiming(a, seen, liked)
    requires a.request.sharing == Shared && Offered(seen, b.txns[tx].start, a, other)
    requires liked in b.db.resources && b.db.resources[liked].status == Disabled && ResourceRow(liked) !in b.locks
    ensures Reaches(h, s, moves, t) && t.db == b.db
    ensures t.txns == b.txns[tx := b.txns[tx].(point := Claiming(a, seen, other))]
    ensures t.locks == b.locks[ResourceRow(liked) := tx]
  {
    var u := At(Locking(b, tx, ResourceRow(liked)), tx, Choosing(a, seen));
    DisabledFails(seen, b.db, b.txns[tx].start, a, liked);
    moves := Steps(h, s, before, b, tx, Claim(liked), u);
    t := At(u, tx, Claiming(a, seen, other));
    moves := Steps(h, s, moves, u, tx, Await(other), t);
  }
}
