/** Both kinds of transaction in the deadlock shape do occur in one, from every store of the right shape. */
module DeadlockWitnesses {
  import opened Types
  import opened Catalog
  import opened Leasing
  import opened Interleaving
  import opened Paths
  import opened Scenes
  import opened Deadlock

  // ----- The crossing -----

  /** Overdue leases `a` before `b` in batch order, on different resources. */
  predicate Pair(db: Store, clock: Time, a: Id, b: Id) {
    && a in db.leases && b in db.leases
    && DueAt(db.leases[a], clock) && DueAt(db.leases[b], clock)
    && db.leases[a].expiresAt.value < db.leases[b].expiresAt.value
    && db.leases[a].resource != db.leases[b].resource
  }

  /** Two batches' worth of overdue leases that visit two resources in opposite orders. */
  predicate Crossing(db: Store, clock: Time, a: Id, b: Id, c: Id, d: Id) {
    && Pair(db, clock, a, b) && Pair(db, clock, c, d)
    && db.leases[a].resource == db.leases[d].resource
    && db.leases[b].resource == db.leases[c].resource
    && a != d && b != c
  }

  lemma CrossingLeases(s: Sys, a: Id, b: Id, c: Id, d: Id)
    requires Crossing(s.db, s.clock, a, b, c, d)
    ensures a != b && a != c && a != d && b != c && b != d && c != d
  {}

  lemma BothBegin(h: Hash, s: Sys) returns (moves: seq<Move>, t: Sys)
    requires s.txns == map[] && s.locks == map[]
    ensures Reaches(h, s, moves, t) && t.db == s.db && t.clock == s.clock && t.locks == map[]
    ensures t.txns == map[1 := Txn(s.clock, Scanning(2)), 2 := Txn(s.clock, Scanning(2))]
  {
    Begins(h, s, [], s, 1, 2);
    moves := [] + [Begin(1, Scanning(2))];
    t := Begun(s, 1, Scanning(2));
    Begins(h, s, moves, t, 2, 2);
    moves := moves + [Begin(2, Scanning(2))];
    t := Begun(t, 2, Scanning(2));
  }

  lemma OneScans(h: Hash, s: Sys, before: seq<Move>, u: Sys, tx: Tx, a: Id, b: Id) returns (moves: seq<Move>, t: Sys)
    requires Reaches(h, s, before, u) && tx in u.txns && u.txns[tx] == Txn(u.clock, Scanning(2))
    requires Pair(u.db, u.clock, a, b) && LeaseRow(a) !in u.locks && LeaseRow(b) !in u.locks
    ensures Reaches(h, s, moves, t) && t.db == u.db && t.clock == u.clock
    ensures t.txns == u.txns[tx := Txn(u.clock, Sweeping([a, b], 0))]
    ensures forall k :: k in t.locks <==> k in u.locks || k == LeaseRow(a) || k == LeaseRow(b)
  {
    Scans(h, s, before, u, tx, 2, [a, b]);
    moves := before + [Run(tx, Scan([a, b]))];
    t := Scanned(u, tx, [a, b]);
  }

  lemma OneSweeps(h: Hash, s: Sys, before: seq<Move>, u: Sys, tx: Tx, a: Id, b: Id) returns (moves: seq<Move>, t: Sys)
    requires Reaches(h, s, before, u) && tx in u.txns && u.txns[tx] == Txn(u.clock, Sweeping([a, b], 0))
    requires a in u.db.leases && ResourceRow(u.db.leases[a].resource) !in u.locks
    ensures Reaches(h, s, moves, t) && t.db == u.db && t.clock == u.clock
    ensures t.txns == u.txns[tx := Txn(u.clock, Sweeping([a, b], 1))]
    ensures t.locks == u.locks[ResourceRow(u.db.leases[a].resource) := tx]
  {
    var row := u.db.leases[a].resource;
    Sweeps(h, s, before, u, tx, [a, b], row);
    moves := before + [Run(tx, Sweep)];
    t := SweptOnce(u, tx, [a, b], row);
  }

  lemma BothWait(h: Hash, t: Sys, a: Id, b: Id, c: Id, d: Id)
    requires b in t.db.leases && d in t.db.leases && t.txns.Keys == {1, 2}
    requires t.txns[1].point == Sweeping([a, b], 1) && t.txns[2].point == Sweeping([c, d], 1)
    requires Holds(t, 2, ResourceRow(t.db.leases[b].resource)) && Holds(t, 1, ResourceRow(t.db.leases[d].resource))
    ensures Cycle(h, t, [1, 2])
  {
    assert WaitsFor(h, t, 1, 2) && WaitsFor(h, t, 2, 1);
  }

  lemma BothScan(h: Hash, s: Sys, a: Id, b: Id, c: Id, d: Id) returns (moves: seq<Move>, t: Sys)
    requires s.txns == map[] && s.locks == map[] && Crossing(s.db, s.clock, a, b, c, d)
    ensures Reaches(h, s, moves, t) && t.db == s.db && t.clock == s.clock && t.txns.Keys == {1, 2}
    ensures t.txns[1] == Txn(s.clock, Sweeping([a, b], 0)) && t.txns[2] == Txn(s.clock, Sweeping([c, d], 0))
    ensures forall k :: k in t.locks ==> k.LeaseRow?
  {
    CrossingLeases(s, a, b, c, d);
    moves, t := BothBegin(h, s);
    moves, t := OneScans(h, s, moves, t, 1, a, b);
    moves, t := OneScans(h, s, moves, t, 2, c, d);
  }

  /**
   * Every idle store with four such leases has an interleaving in which two batches of two, on
   * disjoint leases, each hold the resource that the other one needs next.
   */
  lemma TwoBatchesDeadlock(h: Hash, s: Sys, a: Id, b: Id, c: Id, d: Id) returns (moves: seq<Move>, t: Sys)
    requires s.txns == map[] && s.locks == map[] && Crossing(s.db, s.clock, a, b, c, d)
    ensures Reaches(h, s, moves, t) && Cycle(h, t, [1, 2])
    ensures t.txns.Keys == {1, 2} && t.txns[1].point.Sweeping? && t.txns[2].point.Sweeping?
  {
    moves, t := BothScan(h, s, a, b, c, d);
    moves, t := OneSweeps(h, s, moves, t, 1, a, b);
    moves, t := OneSweeps(h, s, moves, t, 2, c, d);
    BothWait(h, t, a, b, c, d);
  }

  // ----- One batch and one acquisition -----

  /**
   * What a Shared request and a batch meet in: the request's first choice is the resource of the
   * batch's second lease, and its second choice the resource of the batch's first lease.
   */
  predicate Entangled(db: Store, clock: Time, a: Ask, liked: Id, other: Id, x: Id, y: Id) {
    && a.request.sharing == Shared && Holders(db, a.caller.id, a.key) == {}
    && Prefers(db, clock, a, liked, other)
    && SweepIds(db, clock, 2) == [x, y]
    && x in db.leases && y in db.leases && db.leases[x].resource == other && db.leases[y].resource == liked
  }

  /** Locks that `t` has and `b` had not. */
  predicate Gained(b: Sys, t: Sys, k: Lock) {
    k in t.locks && k !in b.locks
  }

  function ScannedBy3(b: Sys, x: Id, y: Id): Sys {
    Scanned(Begun(b, 3, Scanning(2)), 3, [x, y])
  }

  lemma BatchScans(h: Hash, s: Sys, before: seq<Move>, b: Sys, x: Id, y: Id) returns (moves: seq<Move>)
    requires Reaches(h, s, before, b) && 3 !in b.txns && forall l :: LeaseRow(l) !in b.locks
    requires SweepIds(b.db, b.clock, 2) == [x, y]
    ensures Reaches(h, s, moves, ScannedBy3(b, x, y))
  {
    var t := Begun(b, 3, Scanning(2));
    Begins(h, s, before, b, 3, 2);
    SelectionIsSweepable(t, 3, 2);
    Scans(h, s, before + [Begin(3, Scanning(2))], t, 3, 2, [x, y]);
    moves := before + [Begin(3, Scanning(2))] + [Run(3, Scan([x, y]))];
  }

  lemma BatchLocks(b: Sys, x: Id, y: Id)
    requires 3 !in b.txns && forall l :: LeaseRow(l) !in b.locks
    ensures
      var t := ScannedBy3(b, x, y);
      && t.db == b.db && t.clock == b.clock && t.txns == b.txns[3 := Txn(b.clock, Sweeping([x, y], 0))]
      && (forall k :: k in b.locks ==> k in t.locks && t.locks[k] == b.locks[k])
      && (forall k :: Gained(b, t, k) ==> k.LeaseRow? && t.locks[k] == 3)
  {
    LockAllKeeps(b.locks, [x, y], 3);
  }

  lemma BatchStarts(h: Hash, s: Sys, before: seq<Move>, b: Sys, x: Id, y: Id) returns (moves: seq<Move>, t: Sys)
    requires Reaches(h, s, before, b) && 3 !in b.txns && forall l :: LeaseRow(l) !in b.locks
    requires SweepIds(b.db, b.clock, 2) == [x, y]
    ensures Reaches(h, s, moves, t) && t.db == b.db && t.clock == b.clock
    ensures t.txns == b.txns[3 := Txn(b.clock, Sweeping([x, y], 0))]
    ensures forall k :: k in b.locks ==> k in t.locks && t.locks[k] == b.locks[k]
    ensures forall k :: Gained(b, t, k) ==> k.LeaseRow? && t.locks[k] == 3
  {
    moves := BatchScans(h, s, before, b, x, y);
    t := ScannedBy3(b, x, y);
    BatchLocks(b, x, y);
  }

  /** One batch of two has locked its leases and the resource of the first. */
  lemma BatchSweeps(h: Hash, s: Sys, before: seq<Move>, b: Sys, x: Id, y: Id, row: Id)
    returns (moves: seq<Move>, t: Sys)
    requires Reaches(h, s, before, b) && 3 !in b.txns && forall l :: LeaseRow(l) !in b.locks
    requires SweepIds(b.db, b.clock, 2) == [x, y] && x in b.db.leases && b.db.leases[x].resource == row
    requires ResourceRow(row) !in b.locks
    ensures Reaches(h, s, moves, t) && t.db == b.db && t.clock == b.clock
    ensures t.txns == b.txns[3 := Txn(b.clock, Sweeping([x, y], 1))]
    ensures Holds(t, 3, ResourceRow(row))
    ensures forall k :: k in b.locks ==> k in t.locks && t.locks[k] == b.locks[k]
    ensures forall k :: Gained(b, t, k) ==> t.locks[k] == 3 && (k.LeaseRow? || k == ResourceRow(row))
  {
    var u: Sys;
    moves, u := BatchStarts(h, s, before, b, x, y);
    Sweeps(h, s, moves, u, 3, [x, y], row);
    moves, t := moves + [Run(3, Sweep)], SweptOnce(u, 3, [x, y], row);
  }

  lemma LockAllKeeps(locks: map<Lock, Tx>, ids: seq<Id>, tx: Tx)
    requires forall l :: LeaseRow(l) !in locks
    ensures forall k :: k in locks ==> k in LockAll(locks, ids, tx) && LockAll(locks, ids, tx)[k] == locks[k]
    ensures forall k :: k in LockAll(locks, ids, tx) && k !in locks ==> k.LeaseRow? && LockAll(locks, ids, tx)[k] == tx
  {}

  /** Where the disabling holds its row, the request waits for it, and the batch holds the other row. */
  ghost predicate Knotted(h: Hash, s: Sys, t: Sys, a: Ask, liked: Id, other: Id, x: Id, y: Id) {
    && t.db == s.db && t.clock == s.clock && t.txns.Keys == {1, 2, 3}
    && t.txns[1] == Txn(s.clock, Claiming(a, s.db, liked))
    && t.txns[2].point == Settled(liked, Transiting(Disable))
    && t.txns[3].point == Sweeping([x, y], 1)
    && Holds(t, 2, ResourceRow(liked)) && Holds(t, 3, ResourceRow(other))
  }

  lemma Knot(h: Hash, s: Sys, a: Ask, liked: Id, other: Id, x: Id, y: Id) returns (moves: seq<Move>, t: Sys)
    requires s.txns == map[] && s.locks == map[] && Entangled(s.db, s.clock, a, liked, other, x, y)
    ensures Reaches(h, s, moves, t) && Knotted(h, s, t, a, liked, other, x, y)
  {
    BothOffered(s.db, s.clock, a, liked, other);
    assert Reaches(h, s, [], s);
    moves, t := RequestMeetsDisabling(h, s, [], s, 1, 2, a, liked);
    var u: Sys;
    moves, u := BatchSweeps(h, s, moves, t, x, y, other);
    assert Holds(t, 2, ResourceRow(liked));
    t := u;
  }

  lemma KnotLoosens(h: Hash, s: Sys, before: seq<Move>, b: Sys, a: Ask, liked: Id, other: Id, x: Id, y: Id)
    returns (moves: seq<Move>, t: Sys)
    requires Reaches(h, s, before, b) && Knotted(h, s, b, a, liked, other, x, y)
    requires liked in s.db.resources
    ensures Reaches(h, s, moves, t) && t.txns.Keys == {1, 3} && t.db.leases == s.db.leases
    ensures t.txns[1] == Txn(s.clock, Claiming(a, s.db, liked)) && t.txns[3].point == Sweeping([x, y], 1)
    ensures liked in t.db.resources && t.db.resources[liked].status == Disabled
    ensures ResourceRow(liked) !in t.locks && Holds(t, 3, ResourceRow(other))
  {
    moves, t := DisablingCommits(h, s, before, b, 2, liked);
  }

  lemma KnotTightens(h: Hash, s: Sys, before: seq<Move>, b: Sys, a: Ask, liked: Id, other: Id, x: Id, y: Id)
    returns (moves: seq<Move>, t: Sys)
    requires Reaches(h, s, before, b) && Knotted(h, s, b, a, liked, other, x, y) && liked != other
    requires a.request.sharing == Shared && liked in s.db.resources && Offered(s.db, s.clock, a, other)
    ensures Reaches(h, s, moves, t) && t.txns.Keys == {1, 3} && t.db.leases == s.db.leases
    ensures t.txns[1].point == Claiming(a, s.db, other) && t.txns[3].point == Sweeping([x, y], 1)
    ensures Holds(t, 1, ResourceRow(liked)) && Holds(t, 3, ResourceRow(other))
  {
    var u: Sys;
    moves, u := KnotLoosens(h, s, before, b, a, liked, other, x, y);
    moves, t := RequestPassesOver(h, s, moves, u, 1, a, s.db, liked, other);
  }

  lemma RequestAndBatchWait(h: Hash, t: Sys, a: Ask, seen: Store, liked: Id, other: Id, x: Id, y: Id)
    requires y in t.db.leases && t.db.leases[y].resource == liked && t.txns.Keys == {1, 3}
    requires t.txns[1].point == Claiming(a, seen, other) && t.txns[3].point == Sweeping([x, y], 1)
    requires Holds(t, 1, ResourceRow(liked)) && Holds(t, 3, ResourceRow(other))
    ensures Cycle(h, t, [1, 3])
  {
    assert WaitsFor(h, t, 1, 3) && WaitsFor(h, t, 3, 1);
  }

  /**
   * One batch suffices. From every store at rest in which the first two choices of a Shared request
   * are the resources of the batch's two leases in the opposite order, some interleaving with the
   * disabling of the first choice leaves the request and the only batch waiting for each other.
   */
  lemma OneBatchDeadlocks(h: Hash, s: Sys, a: Ask, liked: Id, other: Id, x: Id, y: Id)
    returns (moves: seq<Move>, t: Sys)
    requires s.txns == map[] && s.locks == map[] && Entangled(s.db, s.clock, a, liked, other, x, y)
    ensures Reaches(h, s, moves, t) && Cycle(h, t, [1, 3])
    ensures t.txns.Keys == {1, 3} && t.txns[1].point.Claiming? && t.txns[3].point.Sweeping?
  {
    moves, t := Knot(h, s, a, liked, other, x, y);
    BothOffered(s.db, s.clock, a, liked, other);
    moves, t := KnotTightens(h, s, moves, t, a, liked, other, x, y);
    RequestAndBatchWait(h, t, a, s.db, liked, other, x, y);
  }

  // ----- Two acquisitions and no batch -----

  /** Two Shared requests that prefer two resources in opposite orders, each at its own reading. */
  predicate Opposed(h: Hash, db: Store, early: Time, late: Time, a: Ask, b: Ask, p: Id, q: Id) {
    && early <= late && SlotOf(h, a) != SlotOf(h, b)
    && a.request.sharing == Shared && Holders(db, a.caller.id, a.key) == {} && Prefers(db, early, a, p, q)
    && b.request.sharing == Shared && Holders(db, b.caller.id, b.key) == {} && Prefers(db, late, b, q, p)
  }

  /** Each request waits for its first choice, which an uncommitted disabling has locked. */
  ghost predicate Facing(s: Sys, t: Sys, late: Time, a: Ask, b: Ask, p: Id, q: Id) {
    && t.db == s.db && t.txns.Keys == {1, 2, 3, 4}
    && t.txns[1] == Txn(s.clock, Claiming(a, s.db, p)) && t.txns[3].point == Settled(p, Transiting(Disable))
    && t.txns[2] == Txn(late, Claiming(b, s.db, q)) && t.txns[4].point == Settled(q, Transiting(Disable))
    && Holds(t, 3, ResourceRow(p)) && Holds(t, 4, ResourceRow(q))
  }

  lemma FirstWaits(h: Hash, s: Sys, late: Time, a: Ask, p: Id) returns (moves: seq<Move>, t: Sys)
    requires s.txns == map[] && s.locks == map[] && s.clock <= late && a.request.sharing == Shared
    requires Holders(s.db, a.caller.id, a.key) == {} && Offered(s.db, s.clock, a, p)
    ensures Reaches(h, s, moves, t) && t.db == s.db && t.clock == late && t.txns.Keys == {1, 3}
    ensures t.txns[1] == Txn(s.clock, Claiming(a, s.db, p)) && t.txns[3].point == Settled(p, Transiting(Disable))
    ensures t.locks == map[SlotOf(h, a) := 1][ResourceRow(p) := 3]
  {
    assert Reaches(h, s, [], s);
    moves, t := RequestMeetsDisabling(h, s, [], s, 1, 3, a, p);
    Extend(h, s, moves, t, Tick(late));
    moves, t := moves + [Tick(late)], t.(clock := late);
  }

  lemma SecondWaits(h: Hash, s: Sys, before: seq<Move>, c: Sys, late: Time, a: Ask, b: Ask, p: Id, q: Id)
    returns (moves: seq<Move>, t: Sys)
    requires Reaches(h, s, before, c) && c.db == s.db && c.clock == late && c.txns.Keys == {1, 3}
    requires c.txns[1] == Txn(s.clock, Claiming(a, s.db, p)) && c.txns[3].point == Settled(p, Transiting(Disable))
    requires c.locks == map[SlotOf(h, a) := 1][ResourceRow(p) := 3] && SlotOf(h, a) != SlotOf(h, b) && p != q
    requires b.request.sharing == Shared && Holders(s.db, b.caller.id, b.key) == {} && Offered(s.db, late, b, q)
    ensures Reaches(h, s, moves, t) && Facing(s, t, late, a, b, p, q)
  {
    moves, t := RequestMeetsDisabling(h, s, before, c, 2, 4, b, q);
  }

  lemma BothWaiting(h: Hash, s: Sys, late: Time, a: Ask, b: Ask, p: Id, q: Id) returns (moves: seq<Move>, t: Sys)
    requires s.txns == map[] && s.locks == map[] && s.clock <= late && SlotOf(h, a) != SlotOf(h, b) && p != q
    requires a.request.sharing == Shared && Holders(s.db, a.caller.id, a.key) == {} && Offered(s.db, s.clock, a, p)
    requires b.request.sharing == Shared && Holders(s.db, b.caller.id, b.key) == {} && Offered(s.db, late, b, q)
    ensures Reaches(h, s, moves, t) && Facing(s, t, late, a, b, p, q)
  {
    var u: Sys;
    moves, u := FirstWaits(h, s, late, a, p);
    moves, t := SecondWaits(h, s, moves, u, late, a, b, p, q);
  }

  lemma BothDisabled(h: Hash, s: Sys, before: seq<Move>, c: Sys, late: Time, a: Ask, b: Ask, p: Id, q: Id)
    returns (moves: seq<Move>, t: Sys)
    requires Reaches(h, s, before, c) && Facing(s, c, late, a, b, p, q)
    requires p in s.db.resources && q in s.db.resources && p != q
    ensures Reaches(h, s, moves, t) && t.txns.Keys == {1, 2} && t.db.leases == s.db.leases
    ensures t.txns[1] == Txn(s.clock, Claiming(a, s.db, p)) && t.txns[2] == Txn(late, Claiming(b, s.db, q))
    ensures p in t.db.resources && t.db.resources[p].status == Disabled && ResourceRow(p) !in t.locks
    ensures q in t.db.resources && t.db.resources[q].status == Disabled && ResourceRow(q) !in t.locks
  {
    moves, t := DisablingCommits(h, s, before, c, 3, p);
    moves, t := DisablingCommits(h, s, moves, t, 4, q);
  }

  lemma BothPassOver(h: Hash, s: Sys, before: seq<Move>, c: Sys, late: Time, a: Ask, b: Ask, p: Id, q: Id)
    returns (moves: seq<Move>, t: Sys)
    requires Reaches(h, s, before, c) && c.txns.Keys == {1, 2} && p != q
    requires c.txns[1] == Txn(s.clock, Claiming(a, s.db, p)) && c.txns[2] == Txn(late, Claiming(b, s.db, q))
    requires p in c.db.resources && c.db.resources[p].status == Disabled && ResourceRow(p) !in c.locks
    requires q in c.db.resources && c.db.resources[q].status == Disabled && ResourceRow(q) !in c.locks
    requires a.request.sharing == Shared && Offered(s.db, s.clock, a, q)
    requires b.request.sharing == Shared && Offered(s.db, late, b, p)
    ensures Reaches(h, s, moves, t) && t.txns.Keys == {1, 2}
    ensures t.txns[1].point == Claiming(a, s.db, q) && t.txns[2].point == Claiming(b, s.db, p)
    ensures Holds(t, 1, ResourceRow(p)) && Holds(t, 2, ResourceRow(q))
  {
    moves, t := RequestPassesOver(h, s, before, c, 1, a, s.db, p, q);
    moves, t := RequestPassesOver(h, s, moves, t, 2, b, s.db, q, p);
  }

  lemma RequestsWait(h: Hash, t: Sys, a: Ask, b: Ask, seen: Store, p: Id, q: Id)
    requires t.txns.Keys == {1, 2}
    requires t.txns[1].point == Claiming(a, seen, q) && t.txns[2].point == Claiming(b, seen, p)
    requires Holds(t, 1, ResourceRow(p)) && Holds(t, 2, ResourceRow(q))
    ensures Cycle(h, t, [1, 2])
  {
    assert WaitsFor(h, t, 1, 2) && WaitsFor(h, t, 2, 1);
  }

  /**
   * No batch is needed. From every store at rest that two Shared requests, starting at two readings
   * of the clock, see in opposite selection orders, some interleaving with the disabling of both
   * first choices leaves the two requests waiting for each other.
   */
  lemma NoBatchDeadlocks(h: Hash, s: Sys, late: Time, a: Ask, b: Ask, p: Id, q: Id)
    returns (moves: seq<Move>, t: Sys)
    requires s.txns == map[] && s.locks == map[] && Opposed(h, s.db, s.clock, late, a, b, p, q)
    ensures Reaches(h, s, moves, t) && Cycle(h, t, [1, 2])
    ensures t.txns.Keys == {1, 2} && t.txns[1].point.Claiming? && t.txns[2].point.Claiming?
  {
    BothOffered(s.db, s.clock, a, p, q);
    BothOffered(s.db, late, b, q, p);
    moves, t := BothWaiting(h, s, late, a, b, p, q);
    moves, t := BothDisabled(h, s, moves, t, late, a, b, p, q);
    moves, t := BothPassOver(h, s, moves, t, late, a, b, p, q);
    RequestsWait(h, t, a, b, s.db, p, q);
  }
}
