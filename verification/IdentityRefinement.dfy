/**
 * The identity transactions of the interleaved layer, run alone, are the serial operations on the
 * identity tables: they end in exactly the rows those answer with, and they always get there.
 */
module IdentityRefinement {
  import opened Types
  import opened Administrators
  import opened Identity

  // ----- The serial operation behind a transaction -----

  /** The operation behind a starting point. */
  function Serially(ps: Principals, p: Point): (Principals, Reply)
    requires Initial(p)
  {
    match p
    case Demoting(i) => UpdateUser(ps, i, Some(Member))
    case Updating(i, kind, role) => UpdatePrincipal(ps, i, kind, role)
    case Archiving(i) => ArchivePrincipal(ps, i, Person)
    case Selecting(i, kind) => ArchivePrincipal(ps, i, kind)
    case Creating(id, who) => CreatePrincipal(ps, id, who.kind, who.role, who.password)
    case Bootstrapping(id) => Bootstrap(ps, id)
  }

  predicate Found(ps: Principals, i: Id, kind: Kind) {
    i in ps && ps[i].kind == kind
  }

  /** The points that a transaction started at `p0` passes when nothing else moves. */
  predicate OnTrack(ps: Principals, p0: Point, p: Point) {
    || p == p0
    || (match p0
        case Demoting(i) =>
          || p == Listing(i)
          || (&& Admins(ps) != {i}
              && (p == Listed(i, Admins(ps)) || (p == Demoted(i, Admins(ps)) && Found(ps, i, Person))))
        case Updating(i, kind, role) => p == Updated(i, role) && Found(ps, i, kind)
        case Archiving(i) => p == Selecting(i, Person) || ArchivingOn(ps, i, Person, p)
        case Selecting(i, kind) => ArchivingOn(ps, i, kind, p)
        case Bootstrapping(id) => p == Checking(id) || (p == Clear(id) && Admins(ps) == {})
        case _ => false)
  }

  predicate ArchivingOn(ps: Principals, i: Id, kind: Kind, p: Point) {
    && Found(ps, i, kind)
    && var admin := kind == Person && ps[i].role == Admin;
    p == Selected(i, admin) || (p == Guarded(i) && !(admin && Admins(ps) == {i}))
  }

  /** Under way and without effect yet, or over with exactly the serial result. */
  ghost predicate Refines(s: Sys, t: Sys, p0: Point)
    requires Initial(p0)
  {
    if t.txns == map[] then t.principals == Serially(s.principals, p0).0
    else t.txns.Keys == {1} && t.principals == s.principals && OnTrack(s.principals, p0, t.txns[1])
  }

  lemma PassesTo(s: Sys, t: Sys, p0: Point)
    requires Initial(p0) && Refines(s, t, p0) && 1 in t.txns && !Commits(t.txns[1]) && Advance(t, 1).Some?
    ensures Refines(s, Advance(t, 1).value, p0)
  {
    var u := Advance(t, 1).value;
    if 1 in u.txns {
      assert u.txns == t.txns[1 := u.txns[1]];
    } else {
      assert u.txns == map[];
    }
  }

  lemma CommitsTo(s: Sys, t: Sys, p0: Point)
    requires Initial(p0) && Refines(s, t, p0) && 1 in t.txns && Commits(t.txns[1]) && Advance(t, 1).Some?
    ensures Refines(s, Advance(t, 1).value, p0)
  {
    assert Advance(t, 1).value.txns == map[];
  }

  lemma StepRefines(s: Sys, t: Sys, p0: Point)
    requires Initial(p0) && Refines(s, t, p0) && 1 in t.txns && Advance(t, 1).Some?
    ensures Refines(s, Advance(t, 1).value, p0)
  {
    if Commits(t.txns[1]) {
      CommitsTo(s, t, p0);
    } else {
      PassesTo(s, t, p0);
    }
  }

  /** Nothing moves but transaction 1, and it is not rolled back. */
  predicate Alone(moves: seq<Move>) {
    forall i | 0 <= i < |moves| :: moves[i] == Step(1)
  }

  lemma {:induction false} ReachRefines(s: Sys, t: Sys, p0: Point, moves: seq<Move>, u: Sys)
    requires Initial(p0) && Refines(s, t, p0) && Alone(moves) && Reaches(t, moves, u)
    ensures Refines(s, u, p0)
    decreases moves
  {
    if moves != [] {
      StepRefines(s, t, p0);
      ReachRefines(s, Fire(t, moves[0]).value, p0, moves[1..], u);
    }
  }

  /**
   * Started at rest by somebody it accepts and left alone, an identity transaction changes no row
   * before it is over, and then the rows are what its serial operation answers with.
   */
  lemma RunAloneIsSerial(s: Sys, p: Point, c: Id, moves: seq<Move>, t: Sys)
    requires Idle(s) && Alone(moves) && Reaches(s, [Begin(1, p, c)] + moves, t)
    ensures Initial(p) && (p.Bootstrapping? || c in s.sessions)
    ensures t.principals == if t.txns == map[] then Serially(s.principals, p).0 else s.principals
  {
    assert ([Begin(1, p, c)] + moves)[1..] == moves;
    ReachRefines(s, Fire(s, Begin(1, p, c)).value, p, moves, t);
  }

  /** Every lock is its own, and the shared one is still free where it is about to be taken. */
  ghost predicate Unhindered(t: Sys) {
    && t.txns.Keys == {1} && (forall i :: i in t.rows ==> t.rows[i] == 1)
    && (t.advisory == None || t.advisory == Some(1))
    && (t.txns[1].Demoting? || t.txns[1].Archiving? || t.txns[1].Bootstrapping? ==> t.advisory == None)
  }

  /** The statements left at most. */
  function Ahead(p: Point): nat {
    if Commits(p) then 1
    else if p.Listed? || p.Updating? || p.Selected? || p.Checking? then 2
    else if p.Listing? || p.Selecting? || p.Bootstrapping? then 3
    else 4
  }

  lemma Proceeds(s: Sys, t: Sys, p0: Point)
    requires Initial(p0) && Refines(s, t, p0) && Unhindered(t)
    requires t.txns[1].Creating? || t.txns[1].Clear? ==> t.txns[1].id !in t.principals
    ensures Advance(t, 1).Some?
  {}

  lemma OverIsIdle(t: Sys)
    requires Unhindered(t)
    ensures Idle(Ended(t, 1))
  {
    assert Ended(t, 1).txns == map[] && Ended(t, 1).rows == map[];
  }

  ghost predicate Nearer(t: Sys, u: Sys)
    requires 1 in t.txns
  {
    if u.txns == map[] then Idle(u) else Unhindered(u) && Ahead(u.txns[1]) < Ahead(t.txns[1])
  }

  lemma CommitNears(t: Sys)
    requires Unhindered(t) && Commits(t.txns[1]) && Advance(t, 1).Some?
    ensures Nearer(t, Advance(t, 1).value)
  {
    var u := Advance(t, 1).value;
    assert u.txns == map[] && u.rows == map[];
  }

  lemma TakingNears(t: Sys, q: Point)
    requires Unhindered(t) && !(q.Demoting? || q.Archiving? || q.Bootstrapping?) && Ahead(q) < Ahead(t.txns[1])
    requires TakeAdvisory(t, 1, q).Some?
    ensures Nearer(t, TakeAdvisory(t, 1, q).value)
  {
    assert TakeAdvisory(t, 1, q).value.txns[1] == q;
  }

  lemma RowNears(t: Sys, i: Id, kind: Kind, q: Point)
    requires Unhindered(t) && !(q.Demoting? || q.Archiving? || q.Bootstrapping?) && Ahead(q) < Ahead(t.txns[1])
    requires TakeRow(t, 1, i, kind, q).Some?
    ensures Nearer(t, TakeRow(t, 1, i, kind, q).value)
  {
    OverIsIdle(t);
  }

  lemma MovingNears(t: Sys, q: Point)
    requires Unhindered(t) && !(q.Demoting? || q.Archiving? || q.Bootstrapping?) && Ahead(q) < Ahead(t.txns[1])
    ensures Nearer(t, At(t, 1, q)) && Nearer(t, Ended(t, 1))
  {
    OverIsIdle(t);
  }

  lemma StatementNears(t: Sys)
    requires Unhindered(t) && !Commits(t.txns[1]) && Advance(t, 1).Some?
    ensures Nearer(t, Advance(t, 1).value)
  {
    match t.txns[1]
    case Demoting(i) => TakingNears(t, Listing(i));
    case Listing(i) => MovingNears(t, Listed(i, Admins(t.principals)));
    case Listed(i, found) => RowNears(t, i, Person, Demoted(i, found));
    case Updating(i, kind, role) => RowNears(t, i, kind, Updated(i, role));
    case Archiving(i) => TakingNears(t, Selecting(i, Person));
    case Selecting(i, kind) =>
      RowNears(t, i, kind, Selected(i, kind == Person && i in t.principals && t.principals[i].role == Admin));
    case Selected(i, _) => MovingNears(t, Guarded(i));
    case Bootstrapping(id) => TakingNears(t, Checking(id));
    case Checking(id) => MovingNears(t, Clear(id));
    case _ =>
  }

  lemma Nears(t: Sys)
    requires Unhindered(t) && Advance(t, 1).Some?
    ensures Nearer(t, Advance(t, 1).value)
  {
    if Commits(t.txns[1]) {
      CommitNears(t);
    } else {
      StatementNears(t);
    }
  }

  lemma {:induction false} Completes(s: Sys, t: Sys, p0: Point) returns (moves: seq<Move>, u: Sys)
    requires Initial(p0) && Refines(s, t, p0) && Unhindered(t)
    ensures Reaches(t, moves, u) && Idle(u) && u.principals == Serially(s.principals, p0).0
    decreases Ahead(t.txns[1])
  {
    if (t.txns[1].Creating? || t.txns[1].Clear?) && t.txns[1].id in t.principals {
      moves, u := Once(t, Abort(1));
      assert u.txns == map[] && u.rows == map[];
    } else {
      Proceeds(s, t, p0);
      StepRefines(s, t, p0);
      Nears(t);
      moves, u := Once(t, Step(1));
      if u.txns != map[] {
        moves, u := Completes(s, u, p0);
        Then(t, Step(1), moves, u);
        moves := [Step(1)] + moves;
      }
    }
  }

  /** And every serial result is so attained, refusals included. */
  lemma SerialIsAttained(s: Sys, p: Point, c: Id) returns (moves: seq<Move>, t: Sys)
    requires Idle(s) && Initial(p) && (p.Bootstrapping? || c in s.sessions)
    ensures Reaches(s, moves, t) && Idle(t) && t.principals == Serially(s.principals, p).0
  {
    var begun := Fire(s, Begin(1, p, c)).value;
    moves, t := Completes(s, begun, p);
    Then(s, Begin(1, p, c), moves, t);
    moves := [Begin(1, p, c)] + moves;
  }

  // ----- Who may start one -----

  ghost predicate WasAdministrator(s: Sys, moves: seq<Move>, c: Id) {
    exists k: nat, u :: k <= |moves| && Reaches(s, moves[..k], u)
      && c in u.principals && u.principals[c].role == Admin && !u.principals[c].archived
  }

  lemma LaterWasAdministrator(s: Sys, moves: seq<Move>, c: Id)
    requires moves != [] && Fire(s, moves[0]).Some?
    requires WasAdministrator(Fire(s, moves[0]).value, moves[1..], c)
    ensures WasAdministrator(s, moves, c)
  {
    var t := Fire(s, moves[0]).value;
    var k: nat, u :| k <= |moves[1..]| && Reaches(t, moves[1..][..k], u)
      && c in u.principals && u.principals[c].role == Admin && !u.principals[c].archived;
    assert moves[..k + 1] == [moves[0]] + moves[1..][..k];
    Then(s, moves[0], moves[1..][..k], u);
  }

  /** Whoever is accepted as a caller was an unarchived administrator, user or service, at some moment. */
  lemma {:induction false} SessionsWereAdministrators(s: Sys, moves: seq<Move>, t: Sys, c: Id)
    requires Reaches(s, moves, t) && c in t.sessions && c !in s.sessions
    ensures WasAdministrator(s, moves, c)
    decreases moves
  {
    var u := Fire(s, moves[0]).value;
    if c in u.sessions {
      assert Reaches(s, moves[..0], s);
    } else {
      SessionsWereAdministrators(u, moves[1..], t, c);
      LaterWasAdministrator(s, moves, c);
    }
  }
}
