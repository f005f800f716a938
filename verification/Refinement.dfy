/**
 * The other direction: a transaction that runs alone does its serial operation and nothing else.
 * Whatever its statements, its rollback or the database's choices lead to, the tables end as they
 * were or as that operation leaves them.
 */
module Refinement {
  import opened Types
  import opened Catalog
  import opened Leasing
  import opened Interleaving
  import opened Realization

  // ----- The serial effect of a transaction -----

  /** A grant of some eligible resource; which of them is left to the database in this layer. */
  ghost predicate Grants(db: Store, now: Time, a: Ask, row: Id, id: Id, after: Store) {
    && Holders(db, a.caller.id, a.key) == {}
    && Offered(db, now, a, row) && id !in db.leases
    && ResolveTtl(db.resources[row], a.request.ttl).Ok?
    && var ttl := ResolveTtl(db.resources[row], a.request.ttl).value;
    SameTables(after, Granted(db, row, id, NewLease(row, a.caller.id, a.key, a.request, now, ttl)))
  }

  /** Some of the overdue leases, up to the limit, taken by expiry and id, written down as expired. */
  ghost predicate Sweeps(db: Store, now: Time, limit: nat, ids: seq<Id>, after: Store) {
    && |ids| <= limit
    && (forall l :: l in ids ==> l in db.leases && DueAt(db.leases[l], now))
    && (forall i, j :: 0 <= i < j < |ids| ==>
          var d, e := db.leases[ids[i]].expiresAt.value, db.leases[ids[j]].expiresAt.value;
          ids[i] != ids[j] && (d < e || (d == e && ids[i] < ids[j])))
    && SameTables(after, ExpireAll(db, ids))
  }

  ghost predicate Succeeds<T>(result: (Store, Result<T>), after: Store) {
    result.1.Ok? && SameTables(after, result.0)
  }

  /** What the operation behind a starting point leaves when it succeeds. */
  ghost predicate Serial(db: Store, now: Time, dir: Directory, actor: Id, p: Point, after: Store)
    requires Linked(db) && Initial(p)
  {
    match p
    case Keying(a) => exists row, id :: Grants(db, now, a, row, id, after)
    case Renewing(id, intent, owner) => Succeeds(Renew(db, now, id, intent, owner), after)
    case Finishing(id, e, owner) => Succeeds(End(db, now, id, e, owner), after)
    case Scanning(limit) => exists ids :: Sweeps(db, now, limit, ids, after)
    case Creating(id, draft) => Succeeds(Create(db, id, draft, actor), after)
    case Managing(row, w) => Succeeds(Serially(db, now, dir, row, w, actor), after)
    case Disclosing(_) => SameTables(after, db)
  }

  // ----- On the way -----

  predicate AskingOn(db: Store, now: Time, a: Ask, p: Point) {
    || p == Keying(a) || p == Keyed(a)
    || (&& Holders(db, a.caller.id, a.key) == {}
        && (match p
            case Unheld(b) => b == a
            case Choosing(b, seen) => b == a && seen == db
            case Claiming(b, seen, _) => b == a && seen == db
            case Claimed(b, row) => b == a && Offered(db, now, a, row)
            case Clear(b, row) => b == a && Offered(db, now, a, row)
            case Inserted(b, row, id, lease) =>
              && b == a && Offered(db, now, a, row) && ResolveTtl(db.resources[row], a.request.ttl).Ok?
              && lease == NewLease(row, a.caller.id, a.key, a.request, now,
                                   ResolveTtl(db.resources[row], a.request.ttl).value)
            case _ => false))
  }

  predicate RenewingOn(db: Store, now: Time, id: Id, intent: TtlIntent, owner: Id, p: Point) {
    || p == Renewing(id, intent, owner)
    || (&& id in db.leases && db.leases[id].owner == owner
        && var x := db.leases[id];
        || p == RenewLeased(id, intent, x) || p == RenewLocked(id, intent, x)
        || (&& ActiveAt(x, now)
            && (p == RenewChecked(id, intent, x)
                || (&& x.resource in db.resources && ResolveTtl(db.resources[x.resource], intent).Ok?
                    && p == RenewWritten(id, x, now, ResolveTtl(db.resources[x.resource], intent).value)))))
  }

  predicate EndingOn(db: Store, id: Id, e: Ending, owner: Id, p: Point) {
    || p == Finishing(id, e, owner)
    || (&& id in db.leases && (e == Release ==> db.leases[id].owner == owner)
        && (p == EndLeased(id, e, db.leases[id]) || p == EndLocked(id, e, db.leases[id])))
  }

  predicate SweepingOn(db: Store, now: Time, limit: nat, p: Point) {
    || p == Scanning(limit)
    || (&& p.Sweeping? && |p.ids| <= limit && Distinct(p.ids)
        && (forall l | l in p.ids :: l in db.leases && DueAt(db.leases[l], now)) && ByExpiry(db, p.ids))
  }

  predicate WritingOn(db: Store, now: Time, row: Id, w: Work, p: Point) {
    p == Managing(row, w) || p == Managed(row, w) || (p == Settled(row, w) && Permitted(db, now, row, w))
  }

  /** The points that a transaction started at `p0` passes when nothing else moves. */
  predicate OnTrack(db: Store, now: Time, p0: Point, p: Point) {
    match p0
    case Keying(a) => AskingOn(db, now, a, p)
    case Renewing(id, intent, owner) => RenewingOn(db, now, id, intent, owner, p)
    case Finishing(id, e, owner) => EndingOn(db, id, e, owner, p)
    case Scanning(limit) => SweepingOn(db, now, limit, p)
    case Creating(_, _) => p == p0
    case Managing(row, w) => WritingOn(db, now, row, w, p)
    case Disclosing(_) => p.Disclosing?
    case _ => false
  }

  ghost predicate InFlight(s: Sys, t: Sys, p0: Point) {
    && t.txns.Keys == {1} && t.txns[1].start == s.clock
    && t.db == s.db && t.clock == s.clock
    && OnTrack(s.db, s.clock, p0, t.txns[1].point)
  }

  /** The lookup can end an acquisition, with an answer and without a write. */
  ghost predicate Answered(s: Sys, t: Sys) {
    t.txns == map[] && t.db == s.db
  }

  lemma PassesTo(s: Sys, t: Sys, p0: Point, q: Point)
    requires InFlight(s, t, p0) && OnTrack(s.db, s.clock, p0, q)
    ensures InFlight(s, At(t, 1, q), p0)
  {}

  lemma LocksTo(s: Sys, t: Sys, p0: Point, lock: Lock, q: Point)
    requires InFlight(s, t, p0) && OnTrack(s.db, s.clock, p0, q)
    ensures InFlight(s, At(Locking(t, 1, lock), 1, q), p0)
  {}

  lemma LookUpKeepsOn(s: Sys, t: Sys, p0: Point)
    requires p0.Keying? && InFlight(s, t, p0) && t.txns[1].point == Keyed(p0.ask)
    ensures InFlight(s, LookedUp(t, 1, p0.ask), p0) || Answered(s, LookedUp(t, 1, p0.ask))
  {}

  /** On the snapshot it was chosen from, a row that requalifies was on offer. */
  lemma TriedKeepsOn(s: Sys, t: Sys, p0: Point, row: Id)
    requires p0.Keying? && InFlight(s, t, p0) && Holders(s.db, p0.ask.caller.id, p0.ask.key) == {}
    ensures InFlight(s, Tried(t, 1, p0.ask, s.db, row), p0)
  {
    assert s.db.(resources := s.db.resources) == s.db;
    var q := if Requalifies(s.db, t.db, s.clock, p0.ask, row) then Claimed(p0.ask, row) else Choosing(p0.ask, s.db);
    LocksTo(s, t, p0, ResourceRow(row), q);
  }

  lemma InsertKeepsOn(h: Hash, s: Sys, t: Sys, p0: Point, act: Act)
    requires p0.Keying? && InFlight(s, t, p0) && t.txns[1].point.Clear? && NextAcquiring(h, t, 1, act).Some?
    ensures InFlight(s, NextAcquiring(h, t, 1, act).value, p0)
  {
    var a, row := p0.ask, t.txns[1].point.row;
    var ttl := ResolveTtl(s.db.resources[row], a.request.ttl).value;
    PassesTo(s, t, p0, Inserted(a, row, act.id, NewLease(row, a.caller.id, a.key, a.request, s.clock, ttl)));
  }

  lemma AskingKeepsOn(h: Hash, s: Sys, t: Sys, p0: Point, act: Act)
    requires p0.Keying? && InFlight(s, t, p0) && Acquiring(t.txns[1].point) && NextAcquiring(h, t, 1, act).Some?
    ensures var u := NextAcquiring(h, t, 1, act).value; InFlight(s, u, p0) || Answered(s, u)
  {
    var a := p0.ask;
    match t.txns[1].point
    case Keying(_) => LocksTo(s, t, p0, SlotOf(h, a), Keyed(a));
    case Keyed(_) => LookUpKeepsOn(s, t, p0);
    case Unheld(_) => PassesTo(s, t, p0, Choosing(a, s.db));
    case Choosing(_, _) =>
      if act.Await? {
        PassesTo(s, t, p0, Claiming(a, s.db, act.row));
      } else {
        TriedKeepsOn(s, t, p0, act.row);
      }
    case Claiming(_, _, row) => TriedKeepsOn(s, t, p0, row);
    case Claimed(_, row) => PassesTo(s, t, p0, Clear(a, row));
    case Clear(_, _) => InsertKeepsOn(h, s, t, p0, act);
  }

  lemma RenewalLocksOn(s: Sys, t: Sys, p0: Point, act: Act)
    requires p0.Renewing? && InFlight(s, t, p0) && (t.txns[1].point.Renewing? || t.txns[1].point.RenewLeased?)
    requires NextRenewing(t, 1, act).Some?
    ensures InFlight(s, NextRenewing(t, 1, act).value, p0)
  {
    match t.txns[1].point
    case Renewing(id, intent, _) => LocksTo(s, t, p0, LeaseRow(id), RenewLeased(id, intent, s.db.leases[id]));
    case RenewLeased(id, intent, x) => LocksTo(s, t, p0, ResourceRow(x.resource), RenewLocked(id, intent, x));
  }

  lemma RenewalWritesOn(s: Sys, t: Sys, p0: Point, act: Act)
    requires p0.Renewing? && InFlight(s, t, p0) && (t.txns[1].point.RenewLocked? || t.txns[1].point.RenewChecked?)
    requires NextRenewing(t, 1, act).Some?
    ensures InFlight(s, NextRenewing(t, 1, act).value, p0)
  {
    match t.txns[1].point
    case RenewLocked(id, intent, x) => PassesTo(s, t, p0, RenewChecked(id, intent, x));
    case RenewChecked(id, intent, x) =>
      PassesTo(s, t, p0, RenewWritten(id, x, s.clock, ResolveTtl(s.db.resources[x.resource], intent).value));
  }

  lemma RenewingKeepsOn(s: Sys, t: Sys, p0: Point, act: Act)
    requires p0.Renewing? && InFlight(s, t, p0) && Renewal(t.txns[1].point) && NextRenewing(t, 1, act).Some?
    ensures InFlight(s, NextRenewing(t, 1, act).value, p0)
  {
    if t.txns[1].point.Renewing? || t.txns[1].point.RenewLeased? {
      RenewalLocksOn(s, t, p0, act);
    } else {
      RenewalWritesOn(s, t, p0, act);
    }
  }

  lemma EndingKeepsOn(s: Sys, t: Sys, p0: Point, act: Act)
    requires p0.Finishing? && InFlight(s, t, p0) && (t.txns[1].point.Finishing? || t.txns[1].point.EndLeased?)
    requires NextEnding(t, 1, act).Some?
    ensures InFlight(s, NextEnding(t, 1, act).value, p0)
  {
    match t.txns[1].point
    case Finishing(id, e, _) => LocksTo(s, t, p0, LeaseRow(id), EndLeased(id, e, s.db.leases[id]));
    case EndLeased(id, e, x) => LocksTo(s, t, p0, ResourceRow(x.resource), EndLocked(id, e, x));
  }

  lemma ScanKeepsOn(s: Sys, t: Sys, p0: Point, act: Act)
    requires p0.Scanning? && InFlight(s, t, p0) && NextScanning(t, 1, act, p0.limit).Some?
    ensures InFlight(s, NextScanning(t, 1, act, p0.limit).value, p0)
  {
    PassesTo(s, t.(locks := LockAll(t.locks, act.ids, 1)), p0, Sweeping(act.ids, 0));
  }

  lemma SweepKeepsOn(s: Sys, t: Sys, p0: Point, act: Act)
    requires p0.Scanning? && InFlight(s, t, p0) && t.txns[1].point.Sweeping?
    requires var p := t.txns[1].point; NextSweeping(t, 1, act, p.ids, p.done).Some?
    ensures var p := t.txns[1].point; InFlight(s, NextSweeping(t, 1, act, p.ids, p.done).value, p0)
  {
    var Sweeping(ids, done) := t.txns[1].point;
    LocksTo(s, t, p0, ResourceRow(t.db.leases[ids[done]].resource), Sweeping(ids, done + 1));
  }

  lemma WriteKeepsOn(s: Sys, t: Sys, p0: Point, act: Act)
    requires p0.Managing? && InFlight(s, t, p0) && (t.txns[1].point.Managing? || t.txns[1].point.Managed?)
    requires NextManaging(t, 1, act).Some?
    ensures InFlight(s, NextManaging(t, 1, act).value, p0)
  {
    match t.txns[1].point
    case Managing(row, w) => LocksTo(s, t, p0, ResourceRow(row), Managed(row, w));
    case Managed(row, w) => PassesTo(s, t, p0, Settled(row, w));
  }

  lemma PathKeepsOn(s: Sys, t: Sys, p0: Point, act: Act)
    requires p0.Disclosing? && InFlight(s, t, p0) && NextDisclosing(t, 1, act, t.txns[1].point.path).Some?
    ensures InFlight(s, NextDisclosing(t, 1, act, t.txns[1].point.path).value, p0)
  {
    var path := t.txns[1].point.path;
    LocksTo(s, t, p0, path[0], Disclosing(path[1..]));
  }

  lemma OthersKeepOn(h: Hash, s: Sys, t: Sys, p0: Point, act: Act)
    requires p0.Scanning? || p0.Managing? || p0.Disclosing?
    requires InFlight(s, t, p0) && Next(h, t, 1, act).Some?
    ensures InFlight(s, Next(h, t, 1, act).value, p0)
  {
    match t.txns[1].point
    case Scanning(_) => ScanKeepsOn(s, t, p0, act);
    case Sweeping(_, _) => SweepKeepsOn(s, t, p0, act);
    case Managing(_, _) => WriteKeepsOn(s, t, p0, act);
    case Managed(_, _) => WriteKeepsOn(s, t, p0, act);
    case Disclosing(_) => PathKeepsOn(s, t, p0, act);
    case _ =>
  }

  lemma NextKeepsOn(h: Hash, s: Sys, t: Sys, p0: Point, act: Act)
    requires Initial(p0) && InFlight(s, t, p0) && Next(h, t, 1, act).Some?
    ensures var u := Next(h, t, 1, act).value; InFlight(s, u, p0) || Answered(s, u)
  {
    match p0
    case Keying(_) => AskingKeepsOn(h, s, t, p0, act);
    case Renewing(_, _, _) => RenewingKeepsOn(s, t, p0, act);
    case Finishing(_, _, _) => EndingKeepsOn(s, t, p0, act);
    case Creating(_, _) =>
    case _ => OthersKeepOn(h, s, t, p0, act);
  }

  // ----- Commit -----

  lemma AskingCommitsSerially(s: Sys, t: Sys, dir: Directory, actor: Id, p0: Point)
    requires Linked(s.db) && p0.Keying? && InFlight(s, t, p0) && Published(t, 1).Some?
    ensures Serial(s.db, s.clock, dir, actor, p0, Published(t, 1).value.db)
  {
    var p := t.txns[1].point;
    assert Grants(s.db, s.clock, p0.ask, p.row, p.id, Published(t, 1).value.db);
  }

  lemma BatchCommitsSerially(s: Sys, t: Sys, dir: Directory, actor: Id, p0: Point)
    requires Linked(s.db) && p0.Scanning? && InFlight(s, t, p0) && Published(t, 1).Some?
    ensures Serial(s.db, s.clock, dir, actor, p0, Published(t, 1).value.db)
  {
    assert Sweeps(s.db, s.clock, p0.limit, t.txns[1].point.ids, Published(t, 1).value.db);
  }

  lemma LeaseCommitsSerially(s: Sys, t: Sys, dir: Directory, actor: Id, p0: Point)
    requires Linked(s.db) && (p0.Renewing? || p0.Finishing?) && InFlight(s, t, p0) && Published(t, 1).Some?
    ensures Serial(s.db, s.clock, dir, actor, p0, Published(t, 1).value.db)
  {}

  lemma WriteCommitsSerially(s: Sys, t: Sys, dir: Directory, actor: Id, p0: Point)
    requires Linked(s.db) && p0.Managing? && InFlight(s, t, p0) && Published(t, 1).Some?
    requires p0.work.Regranting? ==> Grantable(dir, p0.work.grantee)
    ensures Serial(s.db, s.clock, dir, actor, p0, Published(t, 1).value.db)
  {}

  lemma OtherCommitsSerially(s: Sys, t: Sys, dir: Directory, actor: Id, p0: Point)
    requires Linked(s.db) && Initial(p0) && (p0.Creating? || p0.Disclosing?)
    requires InFlight(s, t, p0) && Published(t, 1).Some?
    ensures Serial(s.db, s.clock, dir, actor, p0, Published(t, 1).value.db)
  {}

  lemma CommitsSerially(s: Sys, t: Sys, dir: Directory, actor: Id, p0: Point)
    requires Linked(s.db) && Initial(p0) && InFlight(s, t, p0) && Published(t, 1).Some?
    requires p0.Managing? && p0.work.Regranting? ==> Grantable(dir, p0.work.grantee)
    ensures Serial(s.db, s.clock, dir, actor, p0, Published(t, 1).value.db)
  {
    match p0
    case Keying(_) => AskingCommitsSerially(s, t, dir, actor, p0);
    case Scanning(_) => BatchCommitsSerially(s, t, dir, actor, p0);
    case Managing(_, _) => WriteCommitsSerially(s, t, dir, actor, p0);
    case Renewing(_, _, _) => LeaseCommitsSerially(s, t, dir, actor, p0);
    case Finishing(_, _, _) => LeaseCommitsSerially(s, t, dir, actor, p0);
    case _ => OtherCommitsSerially(s, t, dir, actor, p0);
  }

  // ----- Whole runs of one transaction -----

  /** Nothing moves but transaction 1. */
  predicate Alone(moves: seq<Move>) {
    forall i | 0 <= i < |moves| :: moves[i].Run? && moves[i].tx == 1
  }

  /** Under way and without effect yet, or over, with its serial effect or none. */
  ghost predicate Refines(s: Sys, t: Sys, dir: Directory, actor: Id, p0: Point)
    requires Linked(s.db) && Initial(p0)
  {
    || InFlight(s, t, p0)
    || (t.txns == map[] && (SameTables(t.db, s.db) || Serial(s.db, s.clock, dir, actor, p0, t.db)))
  }

  lemma PublishingKeepsPoints(t: Sys)
    requires 1 in t.txns && Published(t, 1).Some?
    ensures Published(t, 1).value.txns == t.txns
  {}

  lemma OverRefines(s: Sys, t: Sys, dir: Directory, actor: Id, p0: Point)
    requires Linked(s.db) && Initial(p0) && t.txns.Keys == {1} && Serial(s.db, s.clock, dir, actor, p0, t.db)
    ensures Refines(s, Ended(t, 1), dir, actor, p0)
  {
    assert Ended(t, 1).txns == map[];
  }

  lemma CommitRefines(s: Sys, t: Sys, dir: Directory, actor: Id, p0: Point)
    requires Linked(s.db) && Initial(p0) && InFlight(s, t, p0) && Published(t, 1).Some?
    requires p0.Managing? && p0.work.Regranting? ==> Grantable(dir, p0.work.grantee)
    ensures Refines(s, Ended(Published(t, 1).value, 1), dir, actor, p0)
  {
    var u := Published(t, 1).value;
    PublishingKeepsPoints(t);
    CommitsSerially(s, t, dir, actor, p0);
    OverRefines(s, u, dir, actor, p0);
  }

  lemma FireRefines(h: Hash, s: Sys, t: Sys, dir: Directory, actor: Id, p0: Point, act: Act)
    requires Linked(s.db) && Initial(p0) && Refines(s, t, dir, actor, p0)
    requires p0.Managing? && p0.work.Regranting? ==> Grantable(dir, p0.work.grantee)
    requires Fire(h, t, Run(1, act)).Some?
    ensures Refines(s, Fire(h, t, Run(1, act)).value, dir, actor, p0)
  {
    if act == Commit {
      CommitRefines(s, t, dir, actor, p0);
    } else if act == Abort {
      assert Ended(t, 1).txns == map[];
    } else {
      NextKeepsOn(h, s, t, p0, act);
    }
  }

  lemma {:induction false} ReachRefines(h: Hash, s: Sys, t: Sys, dir: Directory, actor: Id, p0: Point,
                                        moves: seq<Move>, u: Sys)
    requires Linked(s.db) && Initial(p0) && Refines(s, t, dir, actor, p0)
    requires p0.Managing? && p0.work.Regranting? ==> Grantable(dir, p0.work.grantee)
    requires Alone(moves) && Reaches(h, t, moves, u)
    ensures Refines(s, u, dir, actor, p0)
    decreases moves
  {
    if moves != [] {
      FireRefines(h, s, t, dir, actor, p0, moves[0].act);
      ReachRefines(h, s, Fire(h, t, moves[0]).value, dir, actor, p0, moves[1..], u);
    }
  }

  /**
   * Started at rest and left alone, a transaction changes no table before it is over, and then the
   * tables are unchanged or exactly what its serial operation makes of them.
   */
  lemma RunAloneIsSerial(h: Hash, s: Sys, dir: Directory, actor: Id, p: Point, moves: seq<Move>, t: Sys)
    requires Quiescent(s) && Linked(s.db) && Initial(p) && Alone(moves)
    requires p.Managing? && p.work.Regranting? ==> Grantable(dir, p.work.grantee)
    requires Reaches(h, s, [Begin(1, p)] + moves, t)
    ensures t.txns != map[] ==> t.db == s.db
    ensures t.txns == map[] ==> SameTables(t.db, s.db) || Serial(s.db, s.clock, dir, actor, p, t.db)
  {
    assert ([Begin(1, p)] + moves)[1..] == moves;
    ReachRefines(h, s, Fire(h, s, Begin(1, p)).value, dir, actor, p, moves, t);
  }
}
