/**
 * The interleaved layer contains the serial one: every committed effect of a serial operation is
 * also the effect of some interleaving in which its transaction runs alone, statement by statement.
 */
module Realization {
  import opened Types
  import opened Ranks
  import opened Catalog
  import opened Leasing
  import opened Interleaving
  import opened Paths

  ghost predicate Quiescent(s: Sys) {
    s.txns == map[] && s.locks == map[]
  }

  /** The tables of a store; the interleaved layer keeps no log. */
  ghost predicate SameTables(a: Store, b: Store) {
    a.resources == b.resources && a.leases == b.leases && a.grants == b.grants
  }

  /** Some interleaving from `s` comes to rest with the tables of `goal`. */
  ghost predicate Attains(h: Hash, s: Sys, goal: Store) {
    exists moves, t :: Reaches(h, s, moves, t) && Quiescent(t) && SameTables(t.db, goal)
  }

  /** One transaction alone, holding every lock there is. */
  ghost predicate Alone(s: Sys, t: Sys, p: Point) {
    && t.txns == map[1 := Txn(s.clock, p)] && t.db == s.db && t.serial == s.serial && t.clock == s.clock
    && forall k :: k in t.locks ==> t.locks[k] == 1
  }

  lemma Starts(h: Hash, s: Sys, p: Point) returns (moves: seq<Move>, t: Sys)
    requires Quiescent(s) && Initial(p)
    ensures Reaches(h, s, moves, t) && Alone(s, t, p) && t.locks == map[]
  {
    t := Begun(s, 1, p);
    assert Reaches(h, s, [], s);
    Extend(h, s, [], s, Begin(1, p));
    moves := [] + [Begin(1, p)];
  }

  /** One statement that locks `lock`. */
  lemma Takes(h: Hash, s: Sys, before: seq<Move>, t: Sys, p: Point, act: Act, lock: Lock, q: Point)
    returns (moves: seq<Move>, u: Sys)
    requires Reaches(h, s, before, t) && Alone(s, t, p) && act != Commit && act != Abort
    requires Next(h, t, 1, act) == Some(At(Locking(t, 1, lock), 1, q))
    ensures Reaches(h, s, moves, u) && Alone(s, u, q)
  {
    u := At(Locking(t, 1, lock), 1, q);
    Extend(h, s, before, t, Run(1, act));
    moves := before + [Run(1, act)];
  }

  /** One statement that locks nothing. */
  lemma Moves(h: Hash, s: Sys, before: seq<Move>, t: Sys, p: Point, act: Act, q: Point)
    returns (moves: seq<Move>, u: Sys)
    requires Reaches(h, s, before, t) && Alone(s, t, p) && act != Commit && act != Abort
    requires Next(h, t, 1, act) == Some(At(t, 1, q))
    ensures Reaches(h, s, moves, u) && Alone(s, u, q)
  {
    u := At(t, 1, q);
    Extend(h, s, before, t, Run(1, act));
    moves := before + [Run(1, act)];
  }

  lemma Commits(h: Hash, s: Sys, before: seq<Move>, t: Sys, p: Point, goal: Store)
    requires Reaches(h, s, before, t) && Alone(s, t, p)
    requires Published(t, 1).Some? && SameTables(Published(t, 1).value.db, goal)
    requires Published(t, 1).value.txns == t.txns && Published(t, 1).value.locks == t.locks
    ensures Attains(h, s, goal)
  {
    var u := Ended(Published(t, 1).value, 1);
    Extend(h, s, before, t, Run(1, Commit));
    assert Quiescent(u);
    assert Reaches(h, s, before + [Run(1, Commit)], u);
  }

  // ----- Renewal, release and revocation -----

  lemma RenewalLocks(h: Hash, s: Sys, l: Id, intent: TtlIntent, principal: Id) returns (moves: seq<Move>, t: Sys)
    requires Quiescent(s) && l in s.db.leases && s.db.leases[l].owner == principal
    ensures Reaches(h, s, moves, t) && Alone(s, t, RenewLocked(l, intent, s.db.leases[l]))
  {
    var read := s.db.leases[l];
    var p0, p1 := Renewing(l, intent, principal), RenewLeased(l, intent, read);
    moves, t := Starts(h, s, p0);
    moves, t := Takes(h, s, moves, t, p0, LockLease, LeaseRow(l), p1);
    moves, t := Takes(h, s, moves, t, p1, LockParent, ResourceRow(read.resource), RenewLocked(l, intent, read));
  }

  lemma RenewalWrites(h: Hash, s: Sys, before: seq<Move>, b: Sys, l: Id, intent: TtlIntent, ttl: Option<Ttl>)
    returns (moves: seq<Move>, t: Sys)
    requires l in s.db.leases && s.db.leases[l].resource in s.db.resources
    requires Reaches(h, s, before, b) && Alone(s, b, RenewLocked(l, intent, s.db.leases[l]))
    requires ActiveAt(s.db.leases[l], s.clock) && ResolveTtl(s.db.resources[s.db.leases[l].resource], intent) == Ok(ttl)
    ensures Reaches(h, s, moves, t) && Alone(s, t, RenewWritten(l, s.db.leases[l], s.clock, ttl))
  {
    var read := s.db.leases[l];
    var p2, p3 := RenewLocked(l, intent, read), RenewChecked(l, intent, read);
    moves, t := Moves(h, s, before, b, p2, Check, p3);
    moves, t := Moves(h, s, moves, t, p3, Write, RenewWritten(l, read, s.clock, ttl));
  }

  lemma RenewalIsRealized(h: Hash, s: Sys, l: Id, intent: TtlIntent, principal: Id)
    requires Quiescent(s) && Linked(s.db) && Renew(s.db, s.clock, l, intent, principal).1.Ok?
    ensures Attains(h, s, Renew(s.db, s.clock, l, intent, principal).0)
  {
    var read := s.db.leases[l];
    var ttl := ResolveTtl(s.db.resources[read.resource], intent).value;
    var moves, t := RenewalLocks(h, s, l, intent, principal);
    moves, t := RenewalWrites(h, s, moves, t, l, intent, ttl);
    Commits(h, s, moves, t, RenewWritten(l, read, s.clock, ttl), Renew(s.db, s.clock, l, intent, principal).0);
  }

  lemma EndingLocks(h: Hash, s: Sys, l: Id, e: Ending, principal: Id) returns (moves: seq<Move>, t: Sys)
    requires Quiescent(s) && l in s.db.leases && (e == Release ==> s.db.leases[l].owner == principal)
    ensures Reaches(h, s, moves, t) && Alone(s, t, EndLocked(l, e, s.db.leases[l]))
  {
    var read := s.db.leases[l];
    var p0, p1 := Finishing(l, e, principal), EndLeased(l, e, read);
    moves, t := Starts(h, s, p0);
    moves, t := Takes(h, s, moves, t, p0, LockLease, LeaseRow(l), p1);
    moves, t := Takes(h, s, moves, t, p1, LockParent, ResourceRow(read.resource), EndLocked(l, e, read));
  }

  lemma EndingIsRealized(h: Hash, s: Sys, l: Id, e: Ending, principal: Id)
    requires Quiescent(s) && End(s.db, s.clock, l, e, principal).1.Ok?
    ensures Attains(h, s, End(s.db, s.clock, l, e, principal).0)
  {
    var moves, t := EndingLocks(h, s, l, e, principal);
    Commits(h, s, moves, t, EndLocked(l, e, s.db.leases[l]), End(s.db, s.clock, l, e, principal).0);
  }

  // ----- Acquisition -----

  lemma AskingReads(h: Hash, s: Sys, a: Ask) returns (moves: seq<Move>, t: Sys)
    requires Quiescent(s) && Holders(s.db, a.caller.id, a.key) == {}
    ensures Reaches(h, s, moves, t) && Alone(s, t, Choosing(a, s.db))
  {
    moves, t := Starts(h, s, Keying(a));
    moves, t := Takes(h, s, moves, t, Keying(a), TakeKey, SlotOf(h, a), Keyed(a));
    moves, t := Moves(h, s, moves, t, Keyed(a), LookUp, Unheld(a));
    moves, t := Moves(h, s, moves, t, Unheld(a), TakeSnapshot, Choosing(a, s.db));
  }

  /** Nothing has changed since the snapshot, so the re-evaluation agrees with it. */
  lemma Requalified(s: Sys, t: Sys, a: Ask, row: Id)
    requires Offered(s.db, s.clock, a, row) && t.db == s.db
    ensures Requalifies(s.db, t.db, s.clock, a, row)
  {
    assert s.db.(resources := t.db.resources) == s.db;
  }

  lemma SharedTakes(h: Hash, s: Sys, before: seq<Move>, b: Sys, a: Ask, row: Id) returns (moves: seq<Move>, t: Sys)
    requires Reaches(h, s, before, b) && Alone(s, b, Claiming(a, s.db, row))
    requires Requalifies(s.db, s.db, s.clock, a, row)
    ensures Reaches(h, s, moves, t) && Alone(s, t, Claimed(a, row))
  {
    moves, t := Takes(h, s, before, b, Claiming(a, s.db, row), Claim(row), ResourceRow(row), Claimed(a, row));
  }

  lemma SharedClaims(h: Hash, s: Sys, before: seq<Move>, b: Sys, a: Ask, row: Id) returns (moves: seq<Move>, t: Sys)
    requires Reaches(h, s, before, b) && Alone(s, b, Choosing(a, s.db)) && Offered(s.db, s.clock, a, row)
    requires a.request.sharing == Shared && Requalifies(s.db, s.db, s.clock, a, row)
    ensures Reaches(h, s, moves, t) && Alone(s, t, Claimed(a, row))
  {
    moves, t := Moves(h, s, before, b, Choosing(a, s.db), Await(row), Claiming(a, s.db, row));
    moves, t := SharedTakes(h, s, moves, t, a, row);
  }

  lemma ExclusiveClaims(h: Hash, s: Sys, before: seq<Move>, b: Sys, a: Ask, row: Id)
    returns (moves: seq<Move>, t: Sys)
    requires Reaches(h, s, before, b) && Alone(s, b, Choosing(a, s.db)) && Offered(s.db, s.clock, a, row)
    requires a.request.sharing == Exclusive && Requalifies(s.db, s.db, s.clock, a, row)
    ensures Reaches(h, s, moves, t) && Alone(s, t, Claimed(a, row))
  {
    moves, t := Takes(h, s, before, b, Choosing(a, s.db), Claim(row), ResourceRow(row), Claimed(a, row));
  }

  lemma AskingClaims(h: Hash, s: Sys, before: seq<Move>, b: Sys, a: Ask, row: Id) returns (moves: seq<Move>, t: Sys)
    requires Reaches(h, s, before, b) && Alone(s, b, Choosing(a, s.db)) && Offered(s.db, s.clock, a, row)
    ensures Reaches(h, s, moves, t) && Alone(s, t, Claimed(a, row))
  {
    Requalified(s, s, a, row);
    if a.request.sharing == Shared {
      moves, t := SharedClaims(h, s, before, b, a, row);
    } else {
      moves, t := ExclusiveClaims(h, s, before, b, a, row);
    }
  }

  lemma AskingInserts(h: Hash, s: Sys, before: seq<Move>, b: Sys, a: Ask, row: Id, id: Id, ttl: Option<Ttl>)
    returns (moves: seq<Move>, t: Sys)
    requires Reaches(h, s, before, b) && Alone(s, b, Claimed(a, row)) && row in s.db.resources
    requires a.request.sharing == Exclusive ==> ActiveLeases(s.db, row, s.clock) == {}
    requires ResolveTtl(s.db.resources[row], a.request.ttl) == Ok(ttl)
    ensures Reaches(h, s, moves, t)
    ensures Alone(s, t, Inserted(a, row, id, NewLease(row, a.caller.id, a.key, a.request, s.clock, ttl)))
  {
    var lease := NewLease(row, a.caller.id, a.key, a.request, s.clock, ttl);
    moves, t := Moves(h, s, before, b, Claimed(a, row), Recheck, Clear(a, row));
    moves, t := Moves(h, s, moves, t, Clear(a, row), Insert(id), Inserted(a, row, id, lease));
  }

  lemma AcquisitionIsRealized(h: Hash, s: Sys, a: Ask, newId: Id)
    requires Quiescent(s) && Holders(s.db, a.caller.id, a.key) == {}
    requires Acquire(s.db, s.clock, a.dir, a.request, a.key, a.caller, newId).1.Ok?
    ensures Attains(h, s, Acquire(s.db, s.clock, a.dir, a.request, a.key, a.caller, newId).0)
  {
    var goal := Acquire(s.db, s.clock, a.dir, a.request, a.key, a.caller, newId).0;
    var row := First(Candidates(s.db, s.clock, a.dir, a.request, a.caller)).id;
    var ttl := ResolveTtl(s.db.resources[row], a.request.ttl).value;
    assert Offered(s.db, s.clock, a, row);
    var moves, t := AskingReads(h, s, a);
    moves, t := AskingClaims(h, s, moves, t, a, row);
    moves, t := AskingInserts(h, s, moves, t, a, row, newId, ttl);
    AskingCommits(h, s, moves, t, a, row, newId, NewLease(row, a.caller.id, a.key, a.request, s.clock, ttl));
    AttainsSame(h, s, Granted(s.db, row, newId, NewLease(row, a.caller.id, a.key, a.request, s.clock, ttl)), goal);
  }

  lemma AskingCommits(h: Hash, s: Sys, before: seq<Move>, t: Sys, a: Ask, row: Id, id: Id, lease: Lease)
    requires Reaches(h, s, before, t) && Alone(s, t, Inserted(a, row, id, lease))
    requires id !in s.db.leases && row in s.db.resources
    ensures Attains(h, s, Granted(s.db, row, id, lease))
  {
    Commits(h, s, before, t, Inserted(a, row, id, lease), Granted(s.db, row, id, lease));
  }

  // ----- One batch -----

  lemma {:induction false} BatchSweeps(h: Hash, s: Sys, before: seq<Move>, b: Sys, ids: seq<Id>, done: nat)
    returns (moves: seq<Move>, t: Sys)
    requires Reaches(h, s, before, b) && Alone(s, b, Sweeping(ids, done)) && done <= |ids|
    requires forall l :: l in ids ==> l in s.db.leases
    ensures Reaches(h, s, moves, t) && Alone(s, t, Sweeping(ids, |ids|))
    decreases |ids| - done
  {
    moves, t := before, b;
    if done < |ids| {
      var lock := ResourceRow(s.db.leases[ids[done]].resource);
      moves, t := Takes(h, s, moves, t, Sweeping(ids, done), Sweep, lock, Sweeping(ids, done + 1));
      moves, t := BatchSweeps(h, s, moves, t, ids, done + 1);
    }
  }

  lemma BatchScans(h: Hash, s: Sys, limit: nat) returns (moves: seq<Move>, t: Sys)
    requires Quiescent(s)
    ensures Reaches(h, s, moves, t) && Alone(s, t, Sweeping(SweepIds(s.db, s.clock, limit), 0))
  {
    var ids := SweepIds(s.db, s.clock, limit);
    moves, t := Starts(h, s, Scanning(limit));
    SelectionIsSweepable(t, 1, limit);
    Scans(h, s, moves, t, 1, limit, ids);
    moves, t := moves + [Run(1, Scan(ids))], Scanned(t, 1, ids);
  }

  lemma BatchIsRealized(h: Hash, s: Sys, limit: nat)
    requires Quiescent(s)
    ensures Attains(h, s, ExpireBatch(s.db, s.clock, limit).0)
  {
    var ids := SweepIds(s.db, s.clock, limit);
    SweepTakesDue(s.db, s.clock, limit);
    var moves, t := BatchScans(h, s, limit);
    moves, t := BatchSweeps(h, s, moves, t, ids, 0);
    BatchCommits(h, s, moves, t, ids);
  }

  lemma BatchCommits(h: Hash, s: Sys, before: seq<Move>, t: Sys, ids: seq<Id>)
    requires Reaches(h, s, before, t) && Alone(s, t, Sweeping(ids, |ids|))
    ensures Attains(h, s, ExpireAll(s.db, ids))
  {
    Commits(h, s, before, t, Sweeping(ids, |ids|), ExpireAll(s.db, ids));
  }

  // ----- Catalog writes -----

  /** The serial operation that a piece of work stands for. */
  function Serially(db: Store, now: Time, dir: Directory, row: Id, w: Work, actor: Id): (Store, Result<()>) {
    match w
    case Archiving => Archive(db, now, row, actor)
    case Patching(p) => Update(db, row, p, actor)
    case Transiting(t) => Transit(db, row, t, actor)
    case Regranting(g, granted) => SetGrant(db, dir, row, g, granted, actor)
  }

  /** A serial write that succeeds and changes a table passes the interleaved checks, to the same tables. */
  lemma WritesAgree(db: Store, now: Time, dir: Directory, row: Id, w: Work, actor: Id)
    requires
      var (t, r) := Serially(db, now, dir, row, w, actor);
      r.Ok? && t != db
    ensures Permitted(db, now, row, w) && Storable(db, row, w)
    ensures SameTables(Rewritten(db, now, row, w), Serially(db, now, dir, row, w, actor).0)
  {}

  lemma WorkLocks(h: Hash, s: Sys, row: Id, w: Work) returns (moves: seq<Move>, t: Sys)
    requires Quiescent(s)
    ensures Reaches(h, s, moves, t) && Alone(s, t, Managed(row, w))
  {
    moves, t := Starts(h, s, Managing(row, w));
    moves, t := Takes(h, s, moves, t, Managing(row, w), LockManaged, ResourceRow(row), Managed(row, w));
  }

  lemma WorkSettles(h: Hash, s: Sys, row: Id, w: Work) returns (moves: seq<Move>, t: Sys)
    requires Quiescent(s) && Permitted(s.db, s.clock, row, w)
    ensures Reaches(h, s, moves, t) && Alone(s, t, Settled(row, w))
  {
    moves, t := WorkLocks(h, s, row, w);
    moves, t := Moves(h, s, moves, t, Managed(row, w), Settle, Settled(row, w));
  }

  lemma WorkIsRealized(h: Hash, s: Sys, row: Id, w: Work)
    requires Quiescent(s) && Permitted(s.db, s.clock, row, w) && Storable(s.db, row, w)
    ensures Attains(h, s, Rewritten(s.db, s.clock, row, w))
  {
    var moves, t := WorkSettles(h, s, row, w);
    Commits(h, s, moves, t, Settled(row, w), Rewritten(s.db, s.clock, row, w));
  }

  lemma AttainsSame(h: Hash, s: Sys, a: Store, b: Store)
    requires Attains(h, s, a) && SameTables(a, b)
    ensures Attains(h, s, b)
  {
    var moves, t :| Reaches(h, s, moves, t) && Quiescent(t) && SameTables(t.db, a);
    assert SameTables(t.db, b);
  }

  lemma WriteIsRealized(h: Hash, s: Sys, dir: Directory, row: Id, w: Work, actor: Id)
    requires Quiescent(s)
    requires
      var (t, r) := Serially(s.db, s.clock, dir, row, w, actor);
      r.Ok? && t != s.db
    ensures Attains(h, s, Serially(s.db, s.clock, dir, row, w, actor).0)
  {
    WritesAgree(s.db, s.clock, dir, row, w, actor);
    WorkIsRealized(h, s, row, w);
    AttainsSame(h, s, Rewritten(s.db, s.clock, row, w), Serially(s.db, s.clock, dir, row, w, actor).0);
  }

  lemma CreationStarts(h: Hash, s: Sys, id: Id, d: Draft) returns (moves: seq<Move>, t: Sys)
    requires Quiescent(s) && PolicyValid(d.expiration, d.defaultTtl, d.maxTtl)
    ensures Reaches(h, s, moves, t) && Alone(s, t, Creating(id, d))
  {
    moves, t := Starts(h, s, Creating(id, d));
  }

  lemma CreationIsRealized(h: Hash, s: Sys, id: Id, d: Draft, actor: Id)
    requires Quiescent(s) && Create(s.db, id, d, actor).1.Ok?
    ensures Attains(h, s, Create(s.db, id, d, actor).0)
  {
    var moves, t := CreationStarts(h, s, id, d);
    Commits(h, s, moves, t, Creating(id, d), Create(s.db, id, d, actor).0);
  }
}
