/**
 * The final administrator: identity transactions interleaved statement by statement under Read
 * Committed. Demotions, archivals of users and the bootstrap share one advisory lock; promotions
 * take only the row lock of their UPDATE.
 */
module Administrators {
  import opened Types

  type Tx = nat

  datatype Kind = Person | Service
  datatype Role = Admin | Member

  /** `password` says whether the principal has a password credential. */
  datatype Principal = Principal(kind: Kind, role: Role, archived: bool, password: bool)

  type Principals = map<Id, Principal>

  predicate IsAdmin(x: Principal) {
    x.kind == Person && x.role == Admin && !x.archived && x.password
  }

  /** The administrator query: unarchived users with the Admin role and a password. */
  function Admins(ps: Principals): set<Id> {
    set i | i in ps && IsAdmin(ps[i])
  }

  /** Who the API accepts as an administrator: services count here, but not in the query above. */
  predicate Authorized(ps: Principals, i: Id) {
    i in ps && ps[i].role == Admin && !ps[i].archived
  }

  datatype Point =
    // update_user with role User
    | Demoting(target: Id)
    | Listing(target: Id)
    | Listed(target: Id, found: set<Id>)
    | Demoted(target: Id, found: set<Id>)
    // every other update
    | Updating(target: Id, kind: Kind, role: Option<Role>)
    | Updated(target: Id, role: Option<Role>)
    // archive_principal
    | Archiving(target: Id)
    | Selecting(target: Id, kind: Kind)
    | Selected(target: Id, admin: bool)
    | Guarded(target: Id)
    // create_principal and the bootstrap
    | Creating(id: Id, who: Principal)
    | Bootstrapping(id: Id)
    | Checking(id: Id)
    | Clear(id: Id)

  /** `sessions` are the callers that were authenticated as administrators at some time. */
  datatype Sys = Sys(
    principals: Principals,
    txns: map<Tx, Point>,
    advisory: Option<Tx>,
    rows: map<Id, Tx>,
    sessions: set<Id>,
    bootstraps: nat
  )

  datatype Move =
    | Login(caller: Id)
    | Begin(tx: Tx, point: Point, caller: Id)
    | Step(tx: Tx)
    | Abort(tx: Tx)

  predicate Initial(p: Point) {
    || p.Demoting? || p.Archiving? || p.Bootstrapping?
    || (p.Updating? && !(p.kind == Person && p.role == Some(Member)))
    || (p.Selecting? && p.kind == Service)
    || (p.Creating? && !p.who.archived && (p.who.password <==> p.who.kind == Person))
  }

  // ----- Statements -----

  function At(s: Sys, tx: Tx, p: Point): Sys {
    s.(txns := s.txns[tx := p])
  }

  /** Commit, refusal and rollback all release the transaction's locks. */
  function Ended(s: Sys, tx: Tx): Sys {
    s.(txns := s.txns - {tx},
       advisory := if s.advisory == Some(tx) then None else s.advisory,
       rows := map i | i in s.rows && s.rows[i] != tx :: s.rows[i])
  }

  function TakeAdvisory(s: Sys, tx: Tx, p: Point): Option<Sys> {
    if s.advisory.None? then Some(At(s.(advisory := Some(tx)), tx, p)) else None
  }

  predicate RowFree(s: Sys, tx: Tx, i: Id) {
    i !in s.rows || s.rows[i] == tx
  }

  /** A statement that locks the target's row: it finds no row, waits, or goes on holding the lock. */
  function TakeRow(s: Sys, tx: Tx, i: Id, kind: Kind, p: Point): Option<Sys> {
    if i !in s.principals || s.principals[i].kind != kind then Some(Ended(s, tx))
    else if RowFree(s, tx, i) then Some(At(s.(rows := s.rows[i := tx]), tx, p))
    else None
  }

  function Put(s: Sys, tx: Tx, i: Id, x: Principal): Sys {
    Ended(s.(principals := s.principals[i := x]), tx)
  }

  function Advance(s: Sys, tx: Tx): Option<Sys>
    requires tx in s.txns
  {
    match s.txns[tx]
    case Demoting(t) => TakeAdvisory(s, tx, Listing(t))
    case Listing(t) =>
      var found := Admins(s.principals);
      Some(if found == {t} then Ended(s, tx) else At(s, tx, Listed(t, found)))
    case Listed(t, found) => TakeRow(s, tx, t, Person, Demoted(t, found))
    case Demoted(t, _) =>
      if t in s.principals then Some(Put(s, tx, t, s.principals[t].(role := Member))) else None
    case Updating(t, kind, role) => TakeRow(s, tx, t, kind, Updated(t, role))
    case Updated(t, role) =>
      if t !in s.principals then None
      else Some(Put(s, tx, t, if role.Some? then s.principals[t].(role := role.value) else s.principals[t]))
    case Archiving(t) => TakeAdvisory(s, tx, Selecting(t, Person))
    case Selecting(t, kind) =>
      TakeRow(s, tx, t, kind, Selected(t, kind == Person && t in s.principals && s.principals[t].role == Admin))
    case Selected(t, admin) =>
      Some(if admin && Admins(s.principals) == {t} then Ended(s, tx) else At(s, tx, Guarded(t)))
    case Guarded(t) =>
      if t in s.principals then Some(Put(s, tx, t, s.principals[t].(archived := true))) else None
    case Creating(id, who) => if id in s.principals then None else Some(Put(s, tx, id, who))
    case Bootstrapping(id) => TakeAdvisory(s, tx, Checking(id))
    case Checking(id) => Some(if Admins(s.principals) != {} then Ended(s, tx) else At(s, tx, Clear(id)))
    case Clear(id) =>
      if id in s.principals then None
      else Some(Put(s, tx, id, Principal(Person, Admin, false, true)).(bootstraps := s.bootstraps + 1))
  }

  function Fire(s: Sys, m: Move): Option<Sys> {
    match m
    case Login(c) => if Authorized(s.principals, c) then Some(s.(sessions := s.sessions + {c})) else None
    case Begin(tx, p, c) =>
      if tx !in s.txns && Initial(p) && (p.Bootstrapping? || c in s.sessions) then Some(At(s, tx, p)) else None
    case Step(tx) => if tx in s.txns then Advance(s, tx) else None
    case Abort(tx) => if tx in s.txns then Some(Ended(s, tx)) else None
  }

  ghost predicate Reaches(s: Sys, moves: seq<Move>, t: Sys)
    decreases moves
  {
    if moves == [] then t == s
    else Fire(s, moves[0]).Some? && Reaches(Fire(s, moves[0]).value, moves[1..], t)
  }

  // ----- The invariant -----

  predicate HasRow(s: Sys, tx: Tx, i: Id) {
    i in s.principals && i in s.rows && s.rows[i] == tx
  }

  predicate Local(s: Sys, tx: Tx)
    requires tx in s.txns
  {
    match s.txns[tx]
    case Demoting(_) => true
    case Listing(_) => s.advisory == Some(tx)
    case Listed(t, found) => s.advisory == Some(tx) && found != {t} && found <= Admins(s.principals)
    case Demoted(t, found) =>
      && s.advisory == Some(tx) && HasRow(s, tx, t)
      && found != {t} && found <= Admins(s.principals)
    case Updating(_, kind, role) => kind == Person ==> role != Some(Member)
    case Updated(t, role) => HasRow(s, tx, t) && (s.principals[t].kind == Person ==> role != Some(Member))
    case Archiving(_) => true
    case Selecting(_, kind) => kind == Person ==> s.advisory == Some(tx)
    case Selected(t, admin) =>
      && HasRow(s, tx, t)
      && (s.principals[t].kind == Person ==>
            s.advisory == Some(tx) && (admin <==> s.principals[t].role == Admin))
    case Guarded(t) =>
      && HasRow(s, tx, t) && Admins(s.principals) != {t}
      && (s.principals[t].kind == Person ==> s.advisory == Some(tx))
    case Creating(_, _) => true
    case Bootstrapping(_) => true
    case Checking(_) => s.advisory == Some(tx)
    case Clear(_) => s.advisory == Some(tx)
  }

  ghost predicate Inv(s: Sys) {
    && (forall tx :: tx in s.txns ==> Local(s, tx))
    && (forall i :: i in s.rows ==> s.rows[i] in s.txns)
  }

  ghost predicate Idle(s: Sys) {
    s.txns == map[] && s.advisory == None && s.rows == map[]
  }

  predicate AdminExists(s: Sys) {
    Admins(s.principals) != {}
  }

  /** A demotion that found no administrator at all, and so has nothing to protect. */
  predicate Blind(p: Point) {
    (p.Listed? || p.Demoted?) && p.found == {}
  }

  /** Its target has meanwhile become the only administrator. */
  ghost predicate Doomed(s: Sys) {
    exists tx :: tx in s.txns && Blind(s.txns[tx]) && Admins(s.principals) == {s.txns[tx].target}
  }

  // ----- What one move does to the administrators -----

  /** Everybody but `tx` keeps point and rows, and the advisory lock if it held it. */
  ghost predicate Others(s: Sys, t: Sys, tx: Tx) {
    && (forall u :: u in t.txns && u != tx ==> u in s.txns && t.txns[u] == s.txns[u])
    && (forall u :: u in s.txns && u != tx ==> u in t.txns)
    && (forall i :: i in s.rows && s.rows[i] != tx ==> i in t.rows && t.rows[i] == s.rows[i])
    && (forall i :: i in t.rows && t.rows[i] != tx ==> i in s.rows && t.rows[i] == s.rows[i])
    && (s.advisory.Some? && s.advisory != Some(tx) ==> t.advisory == s.advisory)
  }

  /** Rows locked by others are untouched; nobody disappears. */
  ghost predicate Respectful(s: Sys, t: Sys, tx: Tx) {
    && (forall i :: i in s.principals ==> i in t.principals && t.principals[i].kind == s.principals[i].kind)
    && (forall i :: i in s.principals && i in s.rows && s.rows[i] != tx ==> t.principals[i] == s.principals[i])
  }

  /** The administrators only grow, unless the holder of the advisory lock removes its target. */
  ghost predicate Grows(s: Sys, t: Sys, tx: Tx) {
    || Admins(s.principals) <= Admins(t.principals)
    || (&& s.advisory == Some(tx) && tx in s.txns && (s.txns[tx].Demoted? || s.txns[tx].Guarded?)
        && Admins(t.principals) == Admins(s.principals) - {s.txns[tx].target})
  }

  lemma PutRespects(s: Sys, tx: Tx, i: Id, x: Principal)
    requires i in s.principals ==> x.kind == s.principals[i].kind && HasRow(s, tx, i)
    ensures var t := Put(s, tx, i, x); Others(s, t, tx) && Respectful(s, t, tx)
    ensures
      var t := Put(s, tx, i, x);
      Admins(t.principals) == Admins(s.principals) - {i} + if IsAdmin(x) then {i} else {}
  {}

  predicate Commits(p: Point) {
    p.Demoted? || p.Updated? || p.Guarded? || p.Creating? || p.Clear?
  }

  /** A statement short of the commit changes no row. */
  lemma StatementMoves(s: Sys, tx: Tx)
    requires tx in s.txns && !Commits(s.txns[tx]) && Advance(s, tx).Some?
    ensures var t := Advance(s, tx).value; Others(s, t, tx) && t.principals == s.principals
  {}

  lemma CommitMoves(s: Sys, tx: Tx)
    requires tx in s.txns && Local(s, tx) && Commits(s.txns[tx]) && Advance(s, tx).Some?
    ensures var t := Advance(s, tx).value; Others(s, t, tx) && Respectful(s, t, tx) && Grows(s, t, tx)
  {
    match s.txns[tx]
    case Demoted(t, _) => PutRespects(s, tx, t, s.principals[t].(role := Member));
    case Updated(t, role) =>
      var x := s.principals[t];
      PutRespects(s, tx, t, if role.Some? then x.(role := role.value) else x);
    case Guarded(t) => PutRespects(s, tx, t, s.principals[t].(archived := true));
    case Creating(id, who) => PutRespects(s, tx, id, who);
    case Clear(id) => PutRespects(s, tx, id, Principal(Person, Admin, false, true));
    case _ =>
  }

  lemma AdvanceMoves(s: Sys, tx: Tx)
    requires Inv(s) && tx in s.txns && Advance(s, tx).Some?
    ensures var t := Advance(s, tx).value; Others(s, t, tx) && Respectful(s, t, tx) && Grows(s, t, tx)
  {
    assert Local(s, tx);
    if Commits(s.txns[tx]) {
      CommitMoves(s, tx);
    } else {
      StatementMoves(s, tx);
    }
  }

  lemma OtherLocal(s: Sys, t: Sys, tx: Tx, u: Tx)
    requires u in s.txns && u != tx && u in t.txns && t.txns[u] == s.txns[u] && Local(s, u)
    requires Others(s, t, tx) && Respectful(s, t, tx) && Grows(s, t, tx)
    ensures Local(t, u)
  {
    if s.txns[u].Guarded? && s.principals[s.txns[u].target].kind == Service {
      assert s.txns[u].target !in Admins(t.principals);
    } else if s.txns[u].Guarded? && !(Admins(s.principals) <= Admins(t.principals)) {
      assert s.advisory == Some(tx);
    }
  }

  lemma OwnLocal(s: Sys, tx: Tx)
    requires Inv(s) && tx in s.txns && Advance(s, tx).Some?
    ensures var t := Advance(s, tx).value; tx in t.txns ==> Local(t, tx)
  {
    assert Local(s, tx);
  }

  lemma AdvanceInv(s: Sys, tx: Tx)
    requires Inv(s) && tx in s.txns && Advance(s, tx).Some?
    ensures Inv(Advance(s, tx).value)
  {
    var t := Advance(s, tx).value;
    AdvanceMoves(s, tx);
    OwnLocal(s, tx);
    forall u | u in t.txns ensures Local(t, u) {
      if u != tx {
        OtherLocal(s, t, tx, u);
      }
    }
    OwnRows(s, tx);
  }

  lemma OwnRows(s: Sys, tx: Tx)
    requires tx in s.txns && Advance(s, tx).Some?
    ensures var t := Advance(s, tx).value; forall i :: i in t.rows && t.rows[i] == tx ==> tx in t.txns
  {}

  lemma EndedInv(s: Sys, tx: Tx)
    requires Inv(s)
    ensures Inv(Ended(s, tx)) && Others(s, Ended(s, tx), tx)
  {
    var t := Ended(s, tx);
    forall u | u in t.txns ensures Local(t, u) {
      OtherLocal(s, t, tx, u);
    }
  }

  lemma FireInv(s: Sys, m: Move)
    requires Inv(s) && Fire(s, m).Some?
    ensures Inv(Fire(s, m).value)
  {
    var t := Fire(s, m).value;
    match m
    case Step(tx) => AdvanceInv(s, tx);
    case Abort(tx) => EndedInv(s, tx);
    case Begin(tx, _, _) =>
      forall u | u in t.txns ensures Local(t, u) {
        if u != tx {
          OtherLocal(s, t, tx, u);
        }
      }
    case Login(_) =>
      forall u | u in t.txns ensures Local(t, u) {
        assert Local(s, u);
      }
  }

  // ----- An administrator survives -----

  ghost predicate Safe(s: Sys) {
    Inv(s) && AdminExists(s) && !Doomed(s)
  }

  lemma AtMostOne(ids: set<Id>, i: Id)
    ensures ids - {i} == {} ==> ids == {} || ids == {i}
  {}

  lemma Another(ids: set<Id>, i: Id) returns (j: Id)
    requires ids != {} && ids != {i}
    ensures j in ids && j != i
  {
    AtMostOne(ids, i);
    j :| j in ids - {i};
  }

  /** A commit that removes an administrator leaves another one, unless it was doomed. */
  lemma RemovalLeavesOne(s: Sys, tx: Tx)
    requires Safe(s) && tx in s.txns && (s.txns[tx].Demoted? || s.txns[tx].Guarded?)
    ensures Admins(s.principals) - {s.txns[tx].target} != {}
  {
    var p := s.txns[tx];
    assert Local(s, tx);
    if p.Demoted? && p.found != {} {
      var j := Another(p.found, p.target);
      assert j in Admins(s.principals);
    } else {
      assert p.Demoted? ==> Blind(p);
      var j := Another(Admins(s.principals), p.target);
    }
  }

  lemma StaysUndoomed(s: Sys, tx: Tx, u: Tx)
    requires Safe(s) && tx in s.txns && Advance(s, tx).Some?
    requires var t := Advance(s, tx).value; u in t.txns && Blind(t.txns[u])
    ensures var t := Advance(s, tx).value; Admins(t.principals) != {t.txns[u].target}
  {
    var t := Advance(s, tx).value;
    AdvanceMoves(s, tx);
    assert Local(s, tx);
    if u == tx {
      assert s.txns[tx].Listed? && Blind(s.txns[tx]);
    } else {
      assert Local(s, u) && Blind(s.txns[u]);
      var j := Another(Admins(s.principals), s.txns[u].target);
      assert j in Admins(t.principals);
    }
  }

  lemma AdvanceSafe(s: Sys, tx: Tx)
    requires Safe(s) && tx in s.txns && Advance(s, tx).Some?
    ensures Safe(Advance(s, tx).value)
  {
    var t := Advance(s, tx).value;
    AdvanceInv(s, tx);
    AdvanceMoves(s, tx);
    if !(Admins(s.principals) <= Admins(t.principals)) {
      RemovalLeavesOne(s, tx);
    }
    forall u | u in t.txns && Blind(t.txns[u]) ensures Admins(t.principals) != {t.txns[u].target} {
      StaysUndoomed(s, tx, u);
    }
  }

  lemma FireSafe(s: Sys, m: Move)
    requires Safe(s) && Fire(s, m).Some?
    ensures Safe(Fire(s, m).value)
  {
    FireInv(s, m);
    if m.Step? {
      AdvanceSafe(s, m.tx);
    } else {
      var t := Fire(s, m).value;
      forall u | u in t.txns && Blind(t.txns[u]) ensures u in s.txns && t.txns[u] == s.txns[u] {}
    }
  }

  lemma {:induction false} ReachSafe(s: Sys, moves: seq<Move>, t: Sys)
    requires Safe(s) && Reaches(s, moves, t)
    ensures Safe(t)
    decreases moves
  {
    if moves != [] {
      FireSafe(s, moves[0]);
      ReachSafe(Fire(s, moves[0]).value, moves[1..], t);
    }
  }

  /** From rest with at least one administrator, every interleaving keeps at least one. */
  lemma AdministratorSurvives(s: Sys, moves: seq<Move>, t: Sys)
    requires Idle(s) && AdminExists(s) && Reaches(s, moves, t)
    ensures AdminExists(t)
  {
    ReachSafe(s, moves, t);
  }

  lemma {:induction false} ReachInv(s: Sys, moves: seq<Move>, t: Sys)
    requires Inv(s) && Reaches(s, moves, t)
    ensures Inv(t)
    decreases moves
  {
    if moves != [] {
      FireInv(s, moves[0]);
      ReachInv(Fire(s, moves[0]).value, moves[1..], t);
    }
  }

  // ----- Exactly when it does -----

  lemma Then(s: Sys, m: Move, moves: seq<Move>, t: Sys)
    requires Fire(s, m).Some? && Reaches(Fire(s, m).value, moves, t)
    ensures Reaches(s, [m] + moves, t)
  {
    assert ([m] + moves)[1..] == moves;
  }

  lemma Once(s: Sys, m: Move) returns (moves: seq<Move>, t: Sys)
    requires Fire(s, m).Some?
    ensures Reaches(s, moves, t) && t == Fire(s, m).value
  {
    t := Fire(s, m).value;
    assert Reaches(t, [], t);
    Then(s, m, [], t);
    moves := [m] + [];
  }

  /** A doomed demotion that has its row needs only to commit. */
  lemma CommitDooms(s: Sys, u: Tx) returns (moves: seq<Move>, t: Sys)
    requires Inv(s) && u in s.txns && s.txns[u].Demoted? && Admins(s.principals) == {s.txns[u].target}
    ensures Reaches(s, moves, t) && !AdminExists(t)
  {
    var i := s.txns[u].target;
    assert Local(s, u);
    PutRespects(s, u, i, s.principals[i].(role := Member));
    moves, t := Once(s, Step(u));
  }

  lemma TakeDooms(s: Sys, u: Tx) returns (moves: seq<Move>, t: Sys)
    requires Inv(s) && u in s.txns && s.txns[u].Listed? && Admins(s.principals) == {s.txns[u].target}
    requires RowFree(s, u, s.txns[u].target)
    ensures Reaches(s, moves, t) && !AdminExists(t)
  {
    var i := s.txns[u].target;
    assert i in Admins(s.principals);
    var v := Fire(s, Step(u)).value;
    FireInv(s, Step(u));
    moves, t := CommitDooms(v, u);
    Then(s, Step(u), moves, t);
    moves := [Step(u)] + moves;
  }

  /** A doomed state is always some moves away from having no administrator. */
  lemma DoomedFalls(s: Sys, u: Tx) returns (moves: seq<Move>, t: Sys)
    requires Inv(s) && u in s.txns && Blind(s.txns[u]) && Admins(s.principals) == {s.txns[u].target}
    ensures Reaches(s, moves, t) && !AdminExists(t)
  {
    var i := s.txns[u].target;
    if s.txns[u].Demoted? {
      moves, t := CommitDooms(s, u);
    } else if RowFree(s, u, i) {
      moves, t := TakeDooms(s, u);
    } else {
      var holder := s.rows[i];
      EndedInv(s, holder);
      moves, t := TakeDooms(Ended(s, holder), u);
      Then(s, Abort(holder), moves, t);
      moves := [Abort(holder)] + moves;
    }
  }

  ghost predicate AlwaysAdministered(s: Sys) {
    forall moves, t :: Reaches(s, moves, t) ==> AdminExists(t)
  }

  /**
   * In any state between transactions' statements, an administrator survives every continuation
   * exactly when no demotion that found no administrator is now aimed at the only one.
   */
  lemma SurvivesExactlyWhen(s: Sys)
    requires Inv(s) && AdminExists(s)
    ensures AlwaysAdministered(s) <==> !Doomed(s)
  {
    if Doomed(s) {
      var u :| u in s.txns && Blind(s.txns[u]) && Admins(s.principals) == {s.txns[u].target};
      var moves, t := DoomedFalls(s, u);
      assert Reaches(s, moves, t) && !AdminExists(t);
    } else {
      forall moves, t | Reaches(s, moves, t) ensures AdminExists(t) {
        ReachSafe(s, moves, t);
      }
    }
  }

  // ----- The exception occurs: a database whose only administrators are services -----

  lemma Extend(s: Sys, moves: seq<Move>, t: Sys, m: Move) returns (longer: seq<Move>, u: Sys)
    requires Reaches(s, moves, t) && Fire(t, m).Some?
    ensures Reaches(s, longer, u) && u == Fire(t, m).value
    decreases moves
  {
    if moves == [] {
      longer, u := Once(s, m);
    } else {
      longer, u := Extend(Fire(s, moves[0]).value, moves[1..], t, m);
      Then(s, moves[0], longer, u);
      longer := [moves[0]] + longer;
    }
  }

  /** An ordinary user that would count as an administrator if promoted. */
  predicate Promotable(ps: Principals, i: Id) {
    i in ps && ps[i] == Principal(Person, Member, false, true)
  }

  /** The demotion of a member reads an empty administrator list and keeps the advisory lock. */
  lemma DemotionStarts(s: Sys, c: Id, x: Id) returns (moves: seq<Move>, t: Sys)
    requires Idle(s) && Admins(s.principals) == {} && Authorized(s.principals, c) && Promotable(s.principals, x)
    ensures Reaches(s, moves, t) && t.principals == s.principals && t.rows == map[]
    ensures t.txns == map[1 := Listed(x, {})] && c in t.sessions
  {
    moves, t := Once(s, Login(c));
    moves, t := Extend(s, moves, t, Begin(1, Demoting(x), c));
    moves, t := Extend(s, moves, t, Step(1));
    moves, t := Extend(s, moves, t, Step(1));
  }

  lemma PromotionLocks(s: Sys, before: seq<Move>, t: Sys, c: Id, x: Id) returns (moves: seq<Move>, u: Sys)
    requires Reaches(s, before, t) && t.rows == map[] && t.txns == map[1 := Listed(x, {})] && c in t.sessions
    requires Promotable(t.principals, x)
    ensures Reaches(s, moves, u) && u.principals == t.principals && HasRow(u, 2, x)
    ensures u.txns == map[1 := Listed(x, {}), 2 := Updated(x, Some(Admin))]
  {
    moves, u := Extend(s, before, t, Begin(2, Updating(x, Person, Some(Admin)), c));
    moves, u := Extend(s, moves, u, Step(2));
  }

  /** Meanwhile the same user is promoted, which takes no advisory lock. */
  lemma PromotionPasses(s: Sys, before: seq<Move>, t: Sys, c: Id, x: Id) returns (moves: seq<Move>, u: Sys)
    requires Reaches(s, before, t) && t.rows == map[] && t.txns == map[1 := Listed(x, {})] && c in t.sessions
    requires Admins(t.principals) == {} && Promotable(t.principals, x)
    ensures Reaches(s, moves, u) && Admins(u.principals) == {x} && 1 in u.txns && u.txns[1] == Listed(x, {})
  {
    moves, u := PromotionLocks(s, before, t, c, x);
    PutRespects(u, 2, x, u.principals[x].(role := Admin));
    moves, u := Extend(s, moves, u, Step(2));
  }

  /**
   * From every database at rest whose only administrators are services, and which has a user,
   * some interleaving first gains an administrator and then loses the last one.
   */
  lemma ServicesMayLoseTheLast(s: Sys, c: Id, x: Id)
    returns (first: seq<Move>, t: Sys, second: seq<Move>, u: Sys)
    requires Idle(s) && Admins(s.principals) == {} && Authorized(s.principals, c) && Promotable(s.principals, x)
    ensures Reaches(s, first, t) && AdminExists(t)
    ensures Reaches(t, second, u) && !AdminExists(u)
  {
    first, t := DemotionStarts(s, c, x);
    first, t := PromotionPasses(s, first, t, c, x);
    ReachInv(s, first, t);
    second, u := DoomedFalls(t, 1);
  }

  // ----- Bootstrap -----

  /** At most one bootstrap has succeeded since `b`, and after it no second one can be under way. */
  ghost predicate BootedOnce(s: Sys, b: nat) {
    && Inv(s)
    && (s.bootstraps == b
        || (s.bootstraps == b + 1 && Safe(s) && forall tx :: tx in s.txns ==> !s.txns[tx].Clear?))
  }

  lemma BootstrapCommits(s: Sys, tx: Tx)
    requires Inv(s) && tx in s.txns && s.txns[tx].Clear? && Advance(s, tx).Some?
    ensures
      var t := Advance(s, tx).value;
      && Safe(t) && t.bootstraps == s.bootstraps + 1
      && forall u :: u in t.txns ==> !t.txns[u].Clear? && !Blind(t.txns[u])
  {
    var t := Advance(s, tx).value;
    AdvanceInv(s, tx);
    AdvanceMoves(s, tx);
    assert Local(s, tx) && s.txns[tx].id in Admins(t.principals);
    forall u | u in t.txns ensures !t.txns[u].Clear? && !Blind(t.txns[u]) {
      assert Local(s, u);
    }
  }

  lemma NoSecondClear(s: Sys, m: Move)
    requires Inv(s) && AdminExists(s) && Fire(s, m).Some?
    requires forall tx :: tx in s.txns ==> !s.txns[tx].Clear?
    ensures Fire(s, m).value.bootstraps == s.bootstraps
    ensures forall tx :: tx in Fire(s, m).value.txns ==> !Fire(s, m).value.txns[tx].Clear?
  {}

  lemma FireBootedOnce(s: Sys, m: Move, b: nat)
    requires BootedOnce(s, b) && Fire(s, m).Some?
    ensures BootedOnce(Fire(s, m).value, b)
  {
    FireInv(s, m);
    if s.bootstraps == b + 1 {
      FireSafe(s, m);
      NoSecondClear(s, m);
    } else if m.Step? && s.txns[m.tx].Clear? {
      BootstrapCommits(s, m.tx);
    }
  }

  lemma {:induction false} ReachBootedOnce(s: Sys, moves: seq<Move>, t: Sys, b: nat)
    requires BootedOnce(s, b) && Reaches(s, moves, t)
    ensures BootedOnce(t, b)
    decreases moves
  {
    if moves != [] {
      FireBootedOnce(s, moves[0], b);
      ReachBootedOnce(Fire(s, moves[0]).value, moves[1..], t, b);
    }
  }

  /** From any database at rest, at most one bootstrap ever succeeds, and an administrator then stays. */
  lemma BootstrapAtMostOnce(s: Sys, moves: seq<Move>, t: Sys)
    requires Idle(s) && Reaches(s, moves, t)
    ensures s.bootstraps <= t.bootstraps <= s.bootstraps + 1
    ensures t.bootstraps == s.bootstraps + 1 ==> AdminExists(t)
  {
    ReachBootedOnce(s, moves, t, s.bootstraps);
  }

  // ----- From an empty database -----

  /** Before the bootstrap there is nobody who could start anything else. */
  ghost predicate Unborn(s: Sys) {
    && s.principals == map[] && s.sessions == {}
    && forall tx :: tx in s.txns ==> s.txns[tx].Bootstrapping? || s.txns[tx].Checking? || s.txns[tx].Clear?
  }

  lemma FireUnborn(s: Sys, m: Move)
    requires Inv(s) && Unborn(s) && Fire(s, m).Some?
    ensures Unborn(Fire(s, m).value) || Safe(Fire(s, m).value)
  {
    if m.Step? && s.txns[m.tx].Clear? {
      BootstrapCommits(s, m.tx);
    }
  }

  lemma {:induction false} ReachBorn(s: Sys, moves: seq<Move>, t: Sys)
    requires Inv(s) && Unborn(s) && Reaches(s, moves, t)
    ensures Unborn(t) || Safe(t)
    decreases moves
  {
    if moves != [] {
      var u := Fire(s, moves[0]).value;
      FireInv(s, moves[0]);
      FireUnborn(s, moves[0]);
      if Safe(u) {
        ReachSafe(u, moves[1..], t);
      } else {
        ReachBorn(u, moves[1..], t);
      }
    }
  }

  /**
   * From an empty database the promise holds without condition: in every interleaving, either
   * there is still no principal at all, or an administrator exists from then on.
   */
  lemma FromEmptyAlwaysAdministered(s: Sys, moves: seq<Move>, t: Sys, more: seq<Move>, u: Sys)
    requires Idle(s) && s.principals == map[] && s.sessions == {}
    requires Reaches(s, moves, t) && Reaches(t, more, u)
    ensures t.principals == map[] || AdminExists(t)
    ensures AdminExists(t) ==> AdminExists(u)
  {
    ReachBorn(s, moves, t);
    if Safe(t) {
      ReachSafe(t, more, u);
    }
  }
}
