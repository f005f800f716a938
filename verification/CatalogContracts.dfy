/**
 * What every catalog operation answers and writes, said in the fields of rows and requests alone: no
 * clause here goes through the functions that the operations are made of.
 */
module CatalogContracts {
  import opened Types
  import opened Catalog

  // ----- What rows say -----

  /** Neither ended nor past its expiry. */
  predicate Runs(x: Lease, now: Time) {
    x.endedAt == None && (x.expiresAt == None || x.expiresAt.value > now)
  }

  function RunningLeases(s: Store, now: Time, r: Id): set<Id> {
    set l | l in s.leases && s.leases[l].resource == r && Runs(s.leases[l], now)
  }

  /** Public, granted to the principal itself, or granted to an unarchived group that it belongs to. */
  predicate Reaches(s: Store, dir: Directory, r: Id, principal: Id)
    requires r in s.resources
  {
    || s.resources[r].visibility == Public
    || (r, ToPrincipal(principal)) in s.grants
    || exists g | g in dir.groups :: (r, ToGroup(g)) in s.grants && (g, principal) in dir.members
  }

  /** Usable now: unarchived, Active, and for an Exclusive resource without a running lease. */
  predicate Vacant(s: Store, r: Id, now: Time)
    requires r in s.resources
  {
    var x := s.resources[r];
    && x.archivedAt == None && x.status == Active
    && (x.sharing == Exclusive ==> forall l | l in s.leases && s.leases[l].resource == r :: !Runs(s.leases[l], now))
  }

  /** Every requested label is there, with the requested value. */
  predicate Carries(labels: map<string, string>, wanted: map<string, string>) {
    forall k | k in wanted :: k in labels && labels[k] == wanted[k]
  }

  lemma CountsRunning(s: Store, now: Time, r: Id)
    ensures RunningLeases(s, now, r) == ActiveLeases(s, r, now)
    ensures RunningLeases(s, now, r) == {} <==>
      forall l :: l in s.leases && s.leases[l].resource == r ==> !Runs(s.leases[l], now)
  {
    assert RunningLeases(s, now, r) == {} <==>
      forall l :: l in s.leases && s.leases[l].resource == r ==> l !in RunningLeases(s, now, r);
  }

  // ----- Policies and names -----

  /** A policy without a contradiction: a required expiration has a default, and no default exceeds the maximum. */
  predicate Coherent(expiration: ExpirationMode, default: Option<Ttl>, max: Option<Ttl>) {
    && !(expiration == Required && default == None)
    && !(default.Some? && max.Some? && default.value > max.value)
  }

  predicate HasName(s: Store, name: string, r: Id) {
    r in s.resources && s.resources[r].name == name
  }

  // ----- Creation -----

  /** Refused for the policy, the id or the name, in this order; otherwise one row as drafted and one event. */
  lemma CreateWrites(s: Store, id: Id, d: Draft, actor: Id)
    ensures
      var (t, o) := Create(s, id, d, actor);
      var coherent := Coherent(d.expiration, d.defaultTtl, d.maxTtl);
      var taken := exists r :: HasName(s, d.name, r);
      && (o == Err(InvalidPolicy) <==> !coherent)
      && (o == Err(IdTaken) <==> coherent && id in s.resources)
      && (o == Err(NameTaken) <==> coherent && id !in s.resources && taken)
      && (o == Ok(()) <==> coherent && id !in s.resources && !taken)
      && (o.Err? ==> t == s)
      && (o.Ok? ==>
            && id in t.resources
            && var x := t.resources[id];
            && x.name == d.name && x.kind == d.kind && x.labels == d.labels
            && x.sharing == d.sharing && x.visibility == d.visibility
            && x.expiration == d.expiration && x.defaultTtl == d.defaultTtl && x.maxTtl == d.maxTtl
            && x.status == Active && x.version == 1 && x.lastLeasedAt == None && x.archivedAt == None
            && t.resources == s.resources[id := x] && t.leases == s.leases && t.grants == s.grants
            && t.audit == s.audit + [Event(Some(actor), ResourceCreated, id)])
  {
    if NameFree(s, d.name, {}) {
      assert forall r :: !HasName(s, d.name, r);
    } else {
      var r :| r in s.resources && s.resources[r].name == d.name;
      assert HasName(s, d.name, r);
    }
  }

  // ----- Update -----

  /** The value of a field after a patch: the one it carries, or the one that was there. */
  ghost predicate Takes<T(!new)>(after: T, before: T, patch: Option<T>) {
    (patch == None ==> after == before) && (forall v :: patch == Some(v) ==> after == v)
  }

  /** The row that a patch asks for: each field of its own, the version one up, the rest as it was. */
  ghost predicate Rewrites(x: Resource, p: Patch, y: Resource) {
    && Takes(y.name, x.name, p.name) && Takes(y.kind, x.kind, p.kind)
    && Takes(y.sharing, x.sharing, p.sharing) && Takes(y.visibility, x.visibility, p.visibility)
    && Takes(y.expiration, x.expiration, p.expiration)
    && Takes(y.defaultTtl, x.defaultTtl, p.defaultTtl) && Takes(y.maxTtl, x.maxTtl, p.maxTtl)
    && Takes(y.labels, x.labels, p.labels)
    && y.version == x.version + 1
    && y.status == x.status && y.lastLeasedAt == x.lastLeasedAt && y.archivedAt == x.archivedAt
  }

  /** There is one such row. */
  lemma RewritesOneWay(x: Resource, p: Patch, y: Resource)
    ensures Rewrites(x, p, y) <==> y == Patched(x, p)
  {
    if Rewrites(x, p, y) {
      TakesOr(y.name, x.name, p.name);
      TakesOr(y.kind, x.kind, p.kind);
      TakesOr(y.sharing, x.sharing, p.sharing);
      TakesOr(y.visibility, x.visibility, p.visibility);
      TakesOr(y.expiration, x.expiration, p.expiration);
      TakesOr(y.defaultTtl, x.defaultTtl, p.defaultTtl);
      TakesOr(y.maxTtl, x.maxTtl, p.maxTtl);
      TakesOr(y.labels, x.labels, p.labels);
    }
  }

  lemma TakesOr<T(!new)>(after: T, before: T, patch: Option<T>)
    requires Takes(after, before, patch)
    ensures after == if patch.Some? then patch.value else before
  {
    if patch.Some? {
      assert patch == Some(patch.value);
    }
  }

  /** Nothing to change: every field of the patch is absent. */
  predicate Nothing(p: Patch) {
    p == Patch(p.version, None, None, None, None, None, None, None, None)
  }

  /** When an update is refused, and why, in the order of its tests. */
  lemma UpdateRefuses(s: Store, r: Id, p: Patch, actor: Id, y: Resource)
    requires r in s.resources ==> Rewrites(s.resources[r], p, y)
    ensures
      var (t, o) := Update(s, r, p, actor);
      && (o.Err? ==> t == s)
      && (o == Err(NotFound) <==> r !in s.resources)
      && (r in s.resources ==>
            var x := s.resources[r];
            var current := x.archivedAt == None && x.version == p.version;
            var coherent := Coherent(y.expiration, y.defaultTtl, y.maxTtl);
            var taken := exists k :: k != r && HasName(s, y.name, k);
            && (o == Err(ArchivedTarget) <==> x.archivedAt != None)
            && (o == Err(StaleVersion) <==> x.archivedAt == None && x.version != p.version)
            && (o == Err(InvalidPolicy) <==> current && !Nothing(p) && !coherent)
            && (o == Err(NameTaken) <==> current && !Nothing(p) && coherent && taken)
            && (o == Ok(()) <==> current && (Nothing(p) || (coherent && !taken))))
  {
    if r in s.resources {
      RewritesOneWay(s.resources[r], p, y);
      if NameFree(s, y.name, {r}) {
        assert forall k :: k != r ==> !HasName(s, y.name, k);
      } else {
        var k :| k in s.resources && k != r && s.resources[k].name == y.name;
        assert HasName(s, y.name, k);
      }
    }
  }

  /** An accepted patch rewrites its own row and logs that, unless it carries nothing. */
  lemma UpdateWrites(s: Store, r: Id, p: Patch, actor: Id)
    requires Update(s, r, p, actor).1.Ok?
    ensures
      var t := Update(s, r, p, actor).0;
      && r in s.resources && r in t.resources
      && (Nothing(p) ==> t == s)
      && (!Nothing(p) ==>
            && Rewrites(s.resources[r], p, t.resources[r])
            && t == Store(s.resources[r := t.resources[r]], s.leases, s.grants,
                          s.audit + [Event(Some(actor), ResourceUpdated, r)]))
  {
    RewritesOneWay(s.resources[r], p, Patched(s.resources[r], p));
  }

  // ----- Archival -----

  /** Refused exactly over a running lease; otherwise the row is stamped once, with the present instant. */
  lemma ArchiveWrites(s: Store, now: Time, r: Id, actor: Id)
    ensures
      var (t, o) := Archive(s, now, r, actor);
      && (o == Err(NotFound) <==> r !in s.resources)
      && (o == Ok(()) || o == Err(NotFound) || o == Err(HasActiveLeases))
      && (o.Err? ==> t == s)
      && (r in s.resources ==>
            var x := s.resources[r];
            && (o == Err(HasActiveLeases) <==>
                  x.archivedAt == None
                  && exists l :: l in s.leases && s.leases[l].resource == r && Runs(s.leases[l], now))
            && (x.archivedAt != None ==> t == s)
            && (o == Ok(()) && x.archivedAt == None ==>
                  t == Store(s.resources[r := x.(archivedAt := Some(now), version := x.version + 1)],
                             s.leases, s.grants, s.audit + [Event(Some(actor), ResourceArchived, r)])))
  {
    if r in s.resources {
      CountsRunning(s, now, r);
    }
  }

  // ----- Transitions -----

  /** The table of legal transitions: from which status to which, and under which name in the log. */
  predicate Legal(before: Status, t: Transition, after: Status, action: Action) {
    || (before == Active && t == Disable && after == Disabled && action == ResourceDisabled)
    || (before == Quarantined && t == Disable && after == Disabled && action == ResourceDisabled)
    || (before == Disabled && t == Enable && after == Active && action == ResourceEnabled)
    || (before == Active && t == Quarantine && after == Quarantined && action == ResourceQuarantined)
    || (before == Quarantined && t == Recover && after == Active && action == ResourceRecovered)
  }

  /** Every entry of the table is carried out on an unarchived row. */
  lemma TransitFollowsTable(s: Store, r: Id, tr: Transition, actor: Id, after: Status, action: Action)
    requires r in s.resources && s.resources[r].archivedAt == None
    requires Legal(s.resources[r].status, tr, after, action)
    ensures
      var (t, o) := Transit(s, r, tr, actor);
      && o == Ok(())
      && t == Store(s.resources[r := s.resources[r].(status := after, version := s.resources[r].version + 1)],
                    s.leases, s.grants, s.audit + [Event(Some(actor), action, r)])
  {}

  /** And nothing that is not in it. */
  lemma TransitRefuses(s: Store, r: Id, tr: Transition, actor: Id)
    ensures
      var (t, o) := Transit(s, r, tr, actor);
      && (o.Err? ==> t == s)
      && (o == Err(NotFound) <==> r !in s.resources)
      && (o == Err(ArchivedTarget) <==> r in s.resources && s.resources[r].archivedAt != None)
      && (o == Err(IllegalTransition) <==>
            && r in s.resources && s.resources[r].archivedAt == None
            && forall u: Status, a: Action :: !Legal(s.resources[r].status, tr, u, a))
      && (o == Ok(()) || o == Err(NotFound) || o == Err(ArchivedTarget) || o == Err(IllegalTransition))
  {
    if r in s.resources && s.resources[r].status in Sources(tr) {
      assert Legal(s.resources[r].status, tr, Destination(tr), TransitionAction(tr));
    }
  }

  // ----- Grants -----

  /** Who can be granted access: an unarchived principal or an unarchived group. */
  predicate Known(dir: Directory, g: Grantee) {
    (g.ToPrincipal? && g.id in dir.principals) || (g.ToGroup? && g.id in dir.groups)
  }

  /** Refusals of a grant or revocation, and otherwise exactly this pair, in or out, logged once if it moved. */
  lemma SetGrantWrites(s: Store, dir: Directory, r: Id, g: Grantee, granted: bool, actor: Id)
    ensures
      var (t, o) := SetGrant(s, dir, r, g, granted, actor);
      && (o == Err(ArchivedTarget) <==> r in s.resources && s.resources[r].archivedAt != None)
      && (o == Err(NotFound) <==>
            r !in s.resources || (s.resources[r].archivedAt == None && granted && !Known(dir, g)))
      && (o == Ok(()) <==> o != Err(ArchivedTarget) && o != Err(NotFound))
      && (o.Err? ==> t == s)
      && t.resources == s.resources && t.leases == s.leases
      && (o.Ok? ==>
            && ((r, g) in t.grants <==> granted)
            && (forall e :: e != (r, g) ==> (e in t.grants <==> e in s.grants))
            && t.audit ==
                 if ((r, g) in s.grants) == granted then s.audit
                 else s.audit + [Event(Some(actor), if granted then AccessGranted(g) else AccessRevoked(g), r)])
  {}

  // ----- Reading the catalog -----

  lemma VacantIsAvailable(s: Store, r: Id, now: Time)
    requires r in s.resources
    ensures Vacant(s, r, now) <==> Available(s, r, now)
  {
    CountsRunning(s, now, r);
  }

  /** A row is listed exactly when the caller sees it and it passes every filter that was given. */
  lemma ListsExactly(s: Store, now: Time, dir: Directory, q: Query, caller: Caller, r: Id)
    ensures r in Listing(s, now, dir, q, caller) <==>
      && r in s.resources
      && var x := s.resources[r];
      && (caller.administrator || Reaches(s, dir, r, caller.id))
      && (x.archivedAt != None ==> q.includeArchived)
      && q.kind in {None, Some(x.kind)} && q.sharing in {None, Some(x.sharing)} && q.status in {None, Some(x.status)}
      && q.available in {None, Some(Vacant(s, r, now))}
      && Carries(x.labels, q.labels)
  {
    if r in s.resources {
      VacantIsAvailable(s, r, now);
    }
  }
}
