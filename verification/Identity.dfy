/** The identity tables in place, one transaction at a time: the guards refuse exactly what they must. */
module Identity {
  import opened Types
  import opened Administrators

  datatype Refusal =
    | NoSuchPrincipal
    | FinalAdministrator
    | AlreadyBootstrapped
    | PasswordMismatch
    | IdInUse

  datatype Reply = Done | Refused(why: Refusal)

  function UpdatePrincipal(ps: Principals, i: Id, kind: Kind, role: Option<Role>): (Principals, Reply) {
    if i !in ps || ps[i].kind != kind then (ps, Refused(NoSuchPrincipal))
    else (ps[i := if role.Some? then ps[i].(role := role.value) else ps[i]], Done)
  }

  /** The update of a user, with the guard on demotions. */
  function UpdateUser(ps: Principals, i: Id, role: Option<Role>): (Principals, Reply) {
    if role == Some(Member) && Admins(ps) == {i} then (ps, Refused(FinalAdministrator))
    else UpdatePrincipal(ps, i, Person, role)
  }

  function Archived(ps: Principals, i: Id): Principals
    requires i in ps
  {
    ps[i := ps[i].(archived := true)]
  }

  function ArchivePrincipal(ps: Principals, i: Id, kind: Kind): (Principals, Reply) {
    if i !in ps || ps[i].kind != kind then (ps, Refused(NoSuchPrincipal))
    else if kind == Person && ps[i].role == Admin && Admins(ps) == {i} then (ps, Refused(FinalAdministrator))
    else (Archived(ps, i), Done)
  }

  function CreatePrincipal(ps: Principals, i: Id, kind: Kind, role: Role, password: bool): (Principals, Reply) {
    if password != (kind == Person) then (ps, Refused(PasswordMismatch))
    else if i in ps then (ps, Refused(IdInUse))
    else (ps[i := Principal(kind, role, false, password)], Done)
  }

  function Bootstrap(ps: Principals, i: Id): (Principals, Reply) {
    if Admins(ps) != {} then (ps, Refused(AlreadyBootstrapped))
    else if i in ps then (ps, Refused(IdInUse))
    else (ps[i := Principal(Person, Admin, false, true)], Done)
  }

  // ----- What each operation answers and writes -----

  /** The only unarchived user with the Admin role and a password. */
  predicate Last(ps: Principals, i: Id) {
    && i in ps && ps[i] == Principal(Person, Admin, false, true)
    && forall j | j in ps && ps[j] == Principal(Person, Admin, false, true) :: j == i
  }

  lemma LastIsOnly(ps: Principals, i: Id)
    ensures Last(ps, i) <==> Admins(ps) == {i}
  {
    if Admins(ps) == {i} {
      assert i in Admins(ps);
      forall j | j in ps && ps[j] == Principal(Person, Admin, false, true) ensures j == i {
        assert j in Admins(ps);
      }
    }
  }

  /** An update finds its principal by id and kind, and sets the role it carries, nothing else. */
  lemma UpdateWrites(ps: Principals, i: Id, kind: Kind, role: Option<Role>)
    ensures
      var (qs, r) := UpdatePrincipal(ps, i, kind, role);
      var found := i in ps && ps[i].kind == kind;
      && r == (if found then Done else Refused(NoSuchPrincipal))
      && (!found ==> qs == ps)
      && (found ==>
            && i in qs && qs == ps[i := qs[i]]
            && qs[i].kind == kind && qs[i].archived == ps[i].archived && qs[i].password == ps[i].password
            && (role == None ==> qs[i].role == ps[i].role)
            && (role.Some? ==> qs[i].role == role.value))
  {
    assert i in ps ==> ps[i := ps[i]] == ps;
  }

  /** The guarded update differs in one answer: it does not make the last administrator a member. */
  lemma UserUpdateRefuses(ps: Principals, i: Id, role: Option<Role>)
    ensures
      var (qs, r) := UpdateUser(ps, i, role);
      && (r == Refused(FinalAdministrator) <==> role == Some(Member) && Last(ps, i))
      && (r == Refused(FinalAdministrator) ==> qs == ps)
      && (r != Refused(FinalAdministrator) ==> (qs, r) == UpdatePrincipal(ps, i, Person, role))
  {
    LastIsOnly(ps, i);
  }

  lemma ArchiveWrites(ps: Principals, i: Id, kind: Kind)
    ensures
      var (qs, r) := ArchivePrincipal(ps, i, kind);
      var found := i in ps && ps[i].kind == kind;
      && (r == Refused(NoSuchPrincipal) <==> !found)
      && (r == Refused(FinalAdministrator) <==> kind == Person && Last(ps, i))
      && (r == Done <==> found && !(kind == Person && Last(ps, i)))
      && (r != Done ==> qs == ps)
      && (r == Done ==> qs == ps[i := Principal(kind, ps[i].role, true, ps[i].password)])
  {
    LastIsOnly(ps, i);
  }

  /** Users have a password and services have none; the row is the request, unarchived. */
  lemma CreateWrites(ps: Principals, i: Id, kind: Kind, role: Role, password: bool)
    ensures
      var (qs, r) := CreatePrincipal(ps, i, kind, role, password);
      var mismatch := (kind == Person && !password) || (kind == Service && password);
      && (r == Refused(PasswordMismatch) <==> mismatch)
      && (r == Refused(IdInUse) <==> !mismatch && i in ps)
      && (r == Done <==> !mismatch && i !in ps)
      && (r != Done ==> qs == ps)
      && (r == Done ==>
            && i in qs && qs == ps[i := qs[i]]
            && qs[i].kind == kind && qs[i].role == role && !qs[i].archived && (qs[i].password <==> kind == Person))
  {}

  /** Service administrators do not stand in the way of the bootstrap, archived users do not either. */
  lemma BootstrapWrites(ps: Principals, i: Id)
    ensures
      var (qs, r) := Bootstrap(ps, i);
      var taken := exists j :: j in ps && ps[j] == Principal(Person, Admin, false, true);
      && (r == Refused(AlreadyBootstrapped) <==> taken)
      && (r == Refused(IdInUse) <==> !taken && i in ps)
      && (r == Done <==> !taken && i !in ps)
      && (r != Done ==> qs == ps)
      && (r == Done ==> qs == ps[i := Principal(Person, Admin, false, true)])
  {
    if j :| j in ps && ps[j] == Principal(Person, Admin, false, true) {
      assert j in Admins(ps);
    } else {
      assert Admins(ps) == {};
    }
  }

  /** A demotion is refused exactly when carrying it out would take the last administrator away. */
  lemma DemotionGuardIsExact(ps: Principals, i: Id)
    ensures
      UpdateUser(ps, i, Some(Member)).1 == Refused(FinalAdministrator)
      <==> Admins(ps) != {} && Admins(UpdatePrincipal(ps, i, Person, Some(Member)).0) == {}
  {
    var qs := UpdatePrincipal(ps, i, Person, Some(Member)).0;
    if i in ps && ps[i].kind == Person {
      assert Admins(qs) == Admins(ps) - {i};
      AtMostOne(Admins(ps), i);
    } else {
      assert i !in Admins(ps);
    }
  }

  /** And so is the archival of a user; no other archival touches the administrators. */
  lemma ArchivalGuardIsExact(ps: Principals, i: Id, kind: Kind)
    requires i in ps && ps[i].kind == kind
    ensures
      ArchivePrincipal(ps, i, kind).1 == Refused(FinalAdministrator)
      <==> Admins(ps) != {} && Admins(Archived(ps, i)) == {}
  {
    assert Admins(Archived(ps, i)) == Admins(ps) - {i};
    AtMostOne(Admins(ps), i);
  }

  /** Only a guarded operation could remove an administrator, and it never removes the last. */
  lemma EveryUpdateKeepsOne(ps: Principals, i: Id, kind: Kind, role: Option<Role>)
    requires Admins(ps) != {}
    ensures Admins(UpdateUser(ps, i, role).0) != {}
    ensures Admins(UpdatePrincipal(ps, i, Service, role).0) == Admins(ps)
    ensures Admins(ArchivePrincipal(ps, i, kind).0) != {}
  {
    if i in ps && ps[i].kind == kind {
      ArchivalGuardIsExact(ps, i, kind);
    }
    if role == Some(Member) {
      DemotionGuardIsExact(ps, i);
    } else {
      assert Admins(ps) <= Admins(UpdateUser(ps, i, role).0);
    }
  }

  /** The tables and their transactions. */
  class Registry {
    var principals: Principals

    constructor ()
      ensures principals == map[]
    {
      principals := map[];
    }

    method Update(i: Id, kind: Kind, role: Option<Role>) returns (r: Reply)
      modifies this
      ensures (principals, r) == UpdatePrincipal(old(principals), i, kind, role)
      ensures kind == Service ==> Admins(principals) == Admins(old(principals))
      ensures kind == Person && role != Some(Member) ==> Admins(old(principals)) <= Admins(principals)
      ensures kind == Person && role == Some(Member) && r == Done
        ==> Admins(principals) == Admins(old(principals)) - {i}
      ensures kind == Person && role == Some(Admin) && r == Done
        ==> (i in Admins(principals) <==> !old(principals)[i].archived && old(principals)[i].password)
    {
      if i !in principals || principals[i].kind != kind {
        return Refused(NoSuchPrincipal);
      }
      var row := principals[i];
      if role.Some? {
        row := row.(role := role.value);
      }
      principals := principals[i := row];
      return Done;
    }

    method UpdateAccount(i: Id, role: Option<Role>) returns (r: Reply)
      modifies this
      ensures (principals, r) == UpdateUser(old(principals), i, role)
      ensures Admins(old(principals)) != {} ==> Admins(principals) != {}
    {
      if Admins(principals) != {} {
        EveryUpdateKeepsOne(principals, i, Person, role);
      }
      if role == Some(Member) {
        var administrators := Admins(principals);
        if administrators == {i} {
          return Refused(FinalAdministrator);
        }
      }
      r := Update(i, Person, role);
    }

    method Archive(i: Id, kind: Kind) returns (r: Reply)
      modifies this
      ensures (principals, r) == ArchivePrincipal(old(principals), i, kind)
      ensures Admins(old(principals)) != {} ==> Admins(principals) != {}
    {
      if Admins(principals) != {} {
        EveryUpdateKeepsOne(principals, i, kind, None);
      }
      if i !in principals || principals[i].kind != kind {
        return Refused(NoSuchPrincipal);
      }
      if kind == Person && principals[i].role == Admin {
        var administrators := Admins(principals);
        if administrators == {i} {
          return Refused(FinalAdministrator);
        }
      }
      principals := principals[i := principals[i].(archived := true)];
      return Done;
    }

    method Create(i: Id, kind: Kind, role: Role, password: bool) returns (r: Reply)
      modifies this
      ensures (principals, r) == CreatePrincipal(old(principals), i, kind, role, password)
      ensures Admins(old(principals)) <= Admins(principals)
    {
      if kind == Person && !password {
        return Refused(PasswordMismatch);
      }
      if kind == Service && password {
        return Refused(PasswordMismatch);
      }
      if i in principals {
        return Refused(IdInUse);
      }
      principals := principals[i := Principal(kind, role, false, password)];
      return Done;
    }

    /** Refused exactly when an administrator exists; after success one does. */
    method BootstrapAdministrator(i: Id) returns (r: Reply)
      modifies this
      ensures (principals, r) == Bootstrap(old(principals), i)
      ensures r == Refused(AlreadyBootstrapped) <==> Admins(old(principals)) != {}
      ensures r == Done ==> Admins(principals) == {i}
    {
      if Admins(principals) != {} {
        return Refused(AlreadyBootstrapped);
      }
      if i in principals {
        return Refused(IdInUse);
      }
      principals := principals[i := Principal(Person, Admin, false, true)];
      return Done;
    }
  }
}
