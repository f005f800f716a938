/** The resource catalog: visibility, derived availability, and the administrator's writes. */
module Catalog {
  import opened Types

  // ----- Shared predicates -----

  /** Effective activity: not ended, and not past a finite expiry, whatever the worker did. */
  predicate ActiveAt(l: Lease, now: Time) {
    l.endedAt.None? && (l.expiresAt.None? || l.expiresAt.value > now)
  }

  /** Overdue: not ended yet, but past a finite expiry. */
  predicate DueAt(l: Lease, now: Time) {
    l.endedAt.None? && l.expiresAt.Some? && l.expiresAt.value <= now
  }

  function ActiveLeases(s: Store, r: Id, now: Time): set<Id> {
    set l | l in s.leases && s.leases[l].resource == r && ActiveAt(s.leases[l], now)
  }

  /** Public, directly granted, or granted through an unarchived group of the principal. */
  predicate Visible(s: Store, dir: Directory, r: Id, principal: Id)
    requires r in s.resources
  {
    || s.resources[r].visibility == Public
    || (r, ToPrincipal(principal)) in s.grants
    || exists g | g in dir.groups :: (r, ToGroup(g)) in s.grants && (g, principal) in dir.members
  }

  /** JSONB containment of a flat string map. */
  predicate Contains(have: map<string, string>, want: map<string, string>) {
    forall k | k in want :: k in have && have[k] == want[k]
  }

  predicate PolicyValid(mode: ExpirationMode, default: Option<Ttl>, max: Option<Ttl>) {
    && (mode == Required ==> default.Some?)
    && (default.Some? && max.Some? ==> default.value <= max.value)
  }

  predicate HasValidPolicy(x: Resource) {
    PolicyValid(x.expiration, x.defaultTtl, x.maxTtl)
  }

  /** The foreign key from leases to resources. */
  predicate Linked(s: Store) {
    forall l :: l in s.leases ==> s.leases[l].resource in s.resources
  }

  /** Archived rows carry no lease that is active at, or at any time after, their archival. */
  ghost predicate SealedRows(s: Store) {
    forall l :: l in s.leases && s.leases[l].resource in s.resources
      && s.resources[s.leases[l].resource].archivedAt.Some?
      ==> !ActiveAt(s.leases[l], s.resources[s.leases[l].resource].archivedAt.value)
  }

  /** The unique constraint on (acquired_by, idempotency_key) is never what keeps keys apart. */
  ghost predicate UniqueKeys(s: Store) {
    forall i, j | i in s.leases && j in s.leases ::
      s.leases[i].owner == s.leases[j].owner && s.leases[i].key == s.leases[j].key ==> i == j
  }

  ghost predicate UniqueNames(s: Store) {
    forall i, j | i in s.resources && j in s.resources :: s.resources[i].name == s.resources[j].name ==> i == j
  }

  predicate NameFree(s: Store, name: string, except: set<Id>) {
    forall r | r in s.resources :: r in except || s.resources[r].name != name
  }

  // ----- Writes -----

  function Log(s: Store, actor: Option<Id>, action: Action, subject: Id): Store {
    s.(audit := s.audit + [Event(actor, action, subject)])
  }

  function PutResource(s: Store, r: Id, x: Resource): Store {
    s.(resources := s.resources[r := x])
  }

  /** The fields an administrator supplies for a new resource, already validated. */
  datatype Draft = Draft(
    name: string,
    kind: string,
    sharing: SharingMode,
    visibility: VisibilityMode,
    expiration: ExpirationMode,
    defaultTtl: Option<Ttl>,
    maxTtl: Option<Ttl>,
    labels: map<string, string>
  )

  function NewResource(d: Draft): Resource {
    Resource(d.name, d.kind, d.labels, d.sharing, d.visibility, d.expiration,
             d.defaultTtl, d.maxTtl, Active, 1, None, None)
  }

  function Create(s: Store, id: Id, d: Draft, actor: Id): (Store, Result<()>) {
    if !PolicyValid(d.expiration, d.defaultTtl, d.maxTtl) then (s, Err(InvalidPolicy))
    else if id in s.resources then (s, Err(IdTaken))
    else if !NameFree(s, d.name, {}) then (s, Err(NameTaken))
    else (Log(PutResource(s, id, NewResource(d)), Some(actor), ResourceCreated, id), Ok(()))
  }

  /** A partial update; `None` is an absent field, and the TTL fields may be set to null. */
  datatype Patch = Patch(
    version: int,
    name: Option<string>,
    kind: Option<string>,
    sharing: Option<SharingMode>,
    visibility: Option<VisibilityMode>,
    expiration: Option<ExpirationMode>,
    defaultTtl: Option<Option<Ttl>>,
    maxTtl: Option<Option<Ttl>>,
    labels: Option<map<string, string>>
  )

  predicate IsEmpty(p: Patch) {
    && p.name.None? && p.kind.None? && p.sharing.None? && p.visibility.None?
    && p.expiration.None? && p.defaultTtl.None? && p.maxTtl.None? && p.labels.None?
  }

  function Or<T>(o: Option<T>, fallback: T): T {
    if o.Some? then o.value else fallback
  }

  function Patched(x: Resource, p: Patch): Resource {
    x.(name := Or(p.name, x.name),
       kind := Or(p.kind, x.kind),
       labels := Or(p.labels, x.labels),
       sharing := Or(p.sharing, x.sharing),
       visibility := Or(p.visibility, x.visibility),
       expiration := Or(p.expiration, x.expiration),
       defaultTtl := Or(p.defaultTtl, x.defaultTtl),
       maxTtl := Or(p.maxTtl, x.maxTtl),
       version := x.version + 1)
  }

  function Update(s: Store, r: Id, p: Patch, actor: Id): (Store, Result<()>) {
    if r !in s.resources then (s, Err(NotFound))
    else
      var x := s.resources[r];
      if x.archivedAt.Some? then (s, Err(ArchivedTarget))
      else if x.version != p.version then (s, Err(StaleVersion))
      else if IsEmpty(p) then (s, Ok(()))
      else if !HasValidPolicy(Patched(x, p)) then (s, Err(InvalidPolicy))
      else if !NameFree(s, Patched(x, p).name, {r}) then (s, Err(NameTaken))
      else (Log(PutResource(s, r, Patched(x, p)), Some(actor), ResourceUpdated, r), Ok(()))
  }

  function ArchivedRow(x: Resource, now: Time): Resource {
    x.(archivedAt := Some(now), version := x.version + 1)
  }

  function Archive(s: Store, now: Time, r: Id, actor: Id): (Store, Result<()>) {
    if r !in s.resources then (s, Err(NotFound))
    else if s.resources[r].archivedAt.Some? then (s, Ok(()))
    else if ActiveLeases(s, r, now) != {} then (s, Err(HasActiveLeases))
    else
      var row := ArchivedRow(s.resources[r], now);
      (Log(PutResource(s, r, row), Some(actor), ResourceArchived, r), Ok(()))
  }

  datatype Transition = Disable | Enable | Quarantine | Recover

  function Sources(t: Transition): set<Status> {
    match t
    case Disable => {Active, Quarantined}
    case Enable => {Disabled}
    case Quarantine => {Active}
    case Recover => {Quarantined}
  }

  function Destination(t: Transition): Status {
    match t
    case Disable => Disabled
    case Enable => Active
    case Quarantine => Quarantined
    case Recover => Active
  }

  function TransitionAction(t: Transition): Action {
    match t
    case Disable => ResourceDisabled
    case Enable => ResourceEnabled
    case Quarantine => ResourceQuarantined
    case Recover => ResourceRecovered
  }

  function Transit(s: Store, r: Id, t: Transition, actor: Id): (Store, Result<()>) {
    if r !in s.resources then (s, Err(NotFound))
    else
      var x := s.resources[r];
      if x.archivedAt.Some? then (s, Err(ArchivedTarget))
      else if x.status !in Sources(t) then (s, Err(IllegalTransition))
      else
        var row := x.(status := Destination(t), version := x.version + 1);
        (Log(PutResource(s, r, row), Some(actor), TransitionAction(t), r), Ok(()))
  }

  predicate Grantable(dir: Directory, g: Grantee) {
    match g
    case ToPrincipal(p) => p in dir.principals
    case ToGroup(p) => p in dir.groups
  }

  function SetGrant(s: Store, dir: Directory, r: Id, g: Grantee, granted: bool, actor: Id): (Store, Result<()>) {
    if r !in s.resources then (s, Err(NotFound))
    else if s.resources[r].archivedAt.Some? then (s, Err(ArchivedTarget))
    else if granted && !Grantable(dir, g) then (s, Err(NotFound))
    else if granted == ((r, g) in s.grants) then (s, Ok(()))
    else if granted then
      (Log(s.(grants := s.grants + {(r, g)}), Some(actor), AccessGranted(g), r), Ok(()))
    else
      (Log(s.(grants := s.grants - {(r, g)}), Some(actor), AccessRevoked(g), r), Ok(()))
  }

  // ----- Reads -----

  /** The derived column of the canonical projection. */
  predicate Available(s: Store, r: Id, now: Time)
    requires r in s.resources
  {
    var x := s.resources[r];
    && x.archivedAt.None?
    && x.status == Active
    && (x.sharing == Shared || ActiveLeases(s, r, now) == {})
  }

  /** The filters of a catalog listing; `None` leaves a criterion out. */
  datatype Query = Query(
    kind: Option<string>,
    sharing: Option<SharingMode>,
    status: Option<Status>,
    available: Option<bool>,
    labels: map<string, string>,
    includeArchived: bool
  )

  /** The rows a listing matches, before paging. */
  function Listing(s: Store, now: Time, dir: Directory, q: Query, caller: Caller): set<Id> {
    set r | r in s.resources
      && (q.includeArchived || s.resources[r].archivedAt.None?)
      && (q.kind.Some? ==> s.resources[r].kind == q.kind.value)
      && (q.sharing.Some? ==> s.resources[r].sharing == q.sharing.value)
      && (q.status.Some? ==> s.resources[r].status == q.status.value)
      && (q.labels != map[] ==> Contains(s.resources[r].labels, q.labels))
      && (caller.administrator || Visible(s, dir, r, caller.id))
      && (q.available.Some? ==> Available(s, r, now) == q.available.value)
  }
}
