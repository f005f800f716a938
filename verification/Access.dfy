/** What the administrator's writes mean to callers: who sees a resource, and what undoes what. */
module Access {
  import opened Types
  import opened Catalog
  import opened Leasing
  import opened Invariants

  // ----- Grants and visibility -----

  /** The principals that a grantee stands for, as far as it is unarchived. */
  predicate Covers(dir: Directory, g: Grantee, principal: Id) {
    match g
    case ToPrincipal(p) => p == principal
    case ToGroup(group) => group in dir.groups && (group, principal) in dir.members
  }

  /** Visibility is being public or covered by some grant. */
  lemma VisibleWhenCovered(s: Store, dir: Directory, r: Id, principal: Id)
    requires r in s.resources
    ensures
      Visible(s, dir, r, principal)
      <==> s.resources[r].visibility == Public || exists g :: (r, g) in s.grants && Covers(dir, g, principal)
  {}

  /**
   * A successful grant shows the resource to exactly those it covers and those who saw it before;
   * a successful revocation keeps exactly those whom something else still lets in. Other resources
   * look the same to everybody.
   */
  lemma GrantDecidesVisibility(s: Store, dir: Directory, r: Id, g: Grantee, granted: bool, actor: Id,
                               k: Id, principal: Id)
    requires SetGrant(s, dir, r, g, granted, actor).1.Ok? && k in s.resources
    ensures
      var t := SetGrant(s, dir, r, g, granted, actor).0;
      && k in t.resources
      && (k != r ==> Visible(t, dir, k, principal) == Visible(s, dir, k, principal))
      && (k == r && granted ==>
            (Visible(t, dir, r, principal) <==> Visible(s, dir, r, principal) || Covers(dir, g, principal)))
      && (k == r && !granted ==>
            (Visible(t, dir, r, principal)
             <==> s.resources[r].visibility == Public
                  || exists g' :: g' != g && (r, g') in s.grants && Covers(dir, g', principal)))
  {}

  /** Repeating a grant or a revocation changes nothing and logs nothing; each undoes the other. */
  lemma GrantsUndo(s: Store, dir: Directory, r: Id, g: Grantee, granted: bool, actor: Id)
    requires SetGrant(s, dir, r, g, granted, actor).1.Ok?
    requires granted != ((r, g) in s.grants) && Grantable(dir, g)
    ensures
      var t := SetGrant(s, dir, r, g, granted, actor).0;
      && SetGrant(t, dir, r, g, granted, actor) == (t, Ok(()))
      && SetGrant(t, dir, r, g, !granted, actor).1.Ok?
      && SetGrant(t, dir, r, g, !granted, actor).0.grants == s.grants
      && |t.audit| == |s.audit| + 1
  {}

  // ----- Status transitions -----

  function Inverse(t: Transition): Transition {
    match t
    case Disable => Enable
    case Enable => Disable
    case Quarantine => Recover
    case Recover => Quarantine
  }

  /**
   * From an allocatable resource, disabling and quarantining close it to every acquisition and are
   * undone by enabling and recovering, which leave only the version further on.
   */
  lemma TransitionsUndo(s: Store, r: Id, t: Transition, actor: Id)
    requires r in s.resources && s.resources[r].archivedAt.None? && s.resources[r].status == Active
    ensures
      var (u, o) := Transit(s, r, t, actor);
      && (o.Ok? <==> t == Disable || t == Quarantine)
      && (o.Ok? ==>
            && (forall q :: !RowMatches(u.resources[r], q))
            && Transit(u, r, Inverse(t), actor).1.Ok?
            && Transit(u, r, Inverse(t), actor).0.resources
                 == s.resources[r := s.resources[r].(version := s.resources[r].version + 2)])
  {}

  // ----- Partial updates -----

  /** The patch that puts back what `p` overwrote. */
  function Reverting(x: Resource, p: Patch): Patch {
    Patch(x.version + 1,
          if p.name.Some? then Some(x.name) else None,
          if p.kind.Some? then Some(x.kind) else None,
          if p.sharing.Some? then Some(x.sharing) else None,
          if p.visibility.Some? then Some(x.visibility) else None,
          if p.expiration.Some? then Some(x.expiration) else None,
          if p.defaultTtl.Some? then Some(x.defaultTtl) else None,
          if p.maxTtl.Some? then Some(x.maxTtl) else None,
          if p.labels.Some? then Some(x.labels) else None)
  }

  /** An applied update can always be taken back: the store differs only in version and log. */
  lemma UpdateCanBeReverted(s: Store, clock: Time, r: Id, p: Patch, actor: Id)
    requires Sound(s, clock) && r in s.resources
    requires Update(s, r, p, actor).1.Ok? && !IsEmpty(p)
    ensures
      var t := Update(s, r, p, actor).0;
      var (u, o) := Update(t, r, Reverting(s.resources[r], p), actor);
      && o.Ok? && u.leases == s.leases && u.grants == s.grants
      && u.resources == s.resources[r := s.resources[r].(version := s.resources[r].version + 2)]
  {
    var x, t := s.resources[r], Update(s, r, p, actor).0;
    assert ResourceSound(x, clock);
    assert Patched(Patched(x, p), Reverting(x, p)) == x.(version := x.version + 2);
    assert NameFree(t, x.name, {r});
  }
}
