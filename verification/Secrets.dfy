/** Resource secrets: versioned material, and disclosure to administrators or through a live lease. */
module Secrets {
  import opened Types
  import opened Catalog
  import opened CatalogContracts
  import opened Leasing
  import opened Lifecycle
  import opened Invariants
  import opened Cipher

  datatype Material = ManagedValue(value: string) | ExternalRef(provider: string, reference: string)

  datatype Mode = Managed | External

  /** The material columns; a check constraint keeps those of the other mode null. */
  datatype Columns = Columns(
    mode: Mode,
    envelope: Option<Envelope>,
    keyId: Option<string>,
    provider: Option<string>,
    reference: Option<string>
  )

  datatype Secret = Secret(resource: Id, name: string, description: Option<string>, columns: Columns, version: int)

  datatype Path = Administration | ThroughLease(lease: Id)

  datatype Note =
    | SecretCreated(secret: Id, resource: Id, mode: Mode)
    | SecretUpdated(secret: Id, resource: Id)
    | SecretDeleted(secret: Id, resource: Id)
    | SecretAccessed(secret: Id, resource: Id, path: Path)

  datatype Entry = Entry(actor: Id, note: Note)

  datatype Vault = Vault(secrets: map<Id, Secret>, log: seq<Entry>)

  datatype Problem =
    | NoResource
    | NoSecret
    | NoLease
    | ArchivedResource
    | StaleSecret
    | NameInUse
    | IdInUse
    | KeysUnavailable
    | NotReadable

  datatype Answer = Denied(problem: Problem) | Saved | Disclosed(material: Material)

  // ----- Material in columns -----

  predicate MatchesMode(x: Columns) {
    if x.mode == Managed then x.envelope.Some? && x.keyId.Some? && x.provider.None? && x.reference.None?
    else x.envelope.None? && x.keyId.None? && x.provider.Some? && x.reference.Some?
  }

  function ModeOf(m: Material): Mode {
    if m.ManagedValue? then Managed else External
  }

  /** One complete replacement of the material columns; None when nothing can be encrypted. */
  function MaterialValues(a: Aead, ring: KeyRing, m: Material, c: Context, nonce: Nonce): Option<Columns> {
    match m
    case ManagedValue(v) =>
      var e := Encrypt(a, ring, v, c, nonce);
      if e.None? then None else Some(Columns(Managed, Some(e.value.envelope), Some(e.value.keyId), None, None))
    case ExternalRef(provider, reference) => Some(Columns(External, None, None, Some(provider), Some(reference)))
  }

  /** What an access reveals from the columns. */
  function Reveal(a: Aead, ring: KeyRing, x: Columns, c: Context): Answer {
    if x.mode == Managed then
      if x.envelope.None? || x.keyId.None? then Denied(NotReadable)
      else
        match Decrypt(a, ring, x.envelope.value, x.keyId.value, c)
        case Plain(v) => Disclosed(ManagedValue(v))
        case NoKey => Denied(KeysUnavailable)
        case Unreadable => Denied(NotReadable)
    else if x.provider.None? || x.reference.None? then Denied(NotReadable)
    else Disclosed(ExternalRef(x.provider.value, x.reference.value))
  }

  /** Writing material and revealing it, under the same ring or any later one, is the identity. */
  lemma RevealsWhatWasWritten(a: Aead, ring: KeyRing, later: KeyRing, m: Material, c: Context, nonce: Nonce)
    requires Lawful(a) && Extends(ring, later)
    ensures
      var x := MaterialValues(a, ring, m, c, nonce);
      && (x.None? <==> m.ManagedValue? && !CanEncrypt(ring))
      && (x.Some? ==> MatchesMode(x.value) && Reveal(a, later, x.value, c) == Disclosed(m))
  {
    if m.ManagedValue? && CanEncrypt(ring) {
      DecryptAfterRotation(a, ring, later, m.value, c, nonce);
    }
  }

  /** A revealed value stays revealed when keys are added and the active key changes. */
  lemma RotationKeepsReveals(a: Aead, ring: KeyRing, later: KeyRing, x: Columns, c: Context)
    requires Extends(ring, later) && Reveal(a, ring, x, c).Disclosed?
    ensures Reveal(a, later, x, c) == Reveal(a, ring, x, c)
  {}

  // ----- Operations -----

  predicate NameFree(v: Vault, r: Id, name: string, except: set<Id>) {
    forall k | k in v.secrets :: k in except || v.secrets[k].resource != r || v.secrets[k].name != name
  }

  function Put(v: Vault, id: Id, x: Secret, actor: Id, note: Note): Vault {
    Vault(v.secrets[id := x], v.log + [Entry(actor, note)])
  }

  function Create(a: Aead, ring: KeyRing, s: Store, v: Vault, r: Id, id: Id, name: string,
                  description: Option<string>, m: Material, nonce: Nonce, actor: Id): (Vault, Answer)
  {
    if r !in s.resources then (v, Denied(NoResource))
    else if s.resources[r].archivedAt.Some? then (v, Denied(ArchivedResource))
    else
      var x := MaterialValues(a, ring, m, Context(r, id), nonce);
      if x.None? then (v, Denied(KeysUnavailable))
      else if id in v.secrets then (v, Denied(IdInUse))
      else if !NameFree(v, r, name, {}) then (v, Denied(NameInUse))
      else (Put(v, id, Secret(r, name, description, x.value, 1), actor, SecretCreated(id, r, ModeOf(m))), Saved)
  }

  /** A partial update; the description may be set to null, name and material may not. */
  datatype Change = Change(
    version: int,
    name: Option<string>,
    description: Option<Option<string>>,
    material: Option<Material>
  )

  function Changed(x: Secret, p: Change, columns: Columns): Secret {
    Secret(x.resource, Or(p.name, x.name), Or(p.description, x.description), columns, x.version + 1)
  }

  function Update(a: Aead, ring: KeyRing, s: Store, v: Vault, r: Id, id: Id, p: Change, nonce: Nonce, actor: Id)
    : (Vault, Answer)
  {
    if r !in s.resources then (v, Denied(NoResource))
    else if s.resources[r].archivedAt.Some? then (v, Denied(ArchivedResource))
    else if id !in v.secrets || v.secrets[id].resource != r then (v, Denied(NoSecret))
    else
      var x := v.secrets[id];
      if x.version != p.version then (v, Denied(StaleSecret))
      else
        var columns :=
          if p.material.Some? then MaterialValues(a, ring, p.material.value, Context(r, id), nonce)
          else Some(x.columns);
        if columns.None? then (v, Denied(KeysUnavailable))
        else if p.name.None? && p.description.None? && p.material.None? then (v, Saved)
        else if !NameFree(v, r, Or(p.name, x.name), {id}) then (v, Denied(NameInUse))
        else (Put(v, id, Changed(x, p, columns.value), actor, SecretUpdated(id, r)), Saved)
  }

  function Delete(s: Store, v: Vault, r: Id, id: Id, actor: Id): (Vault, Answer) {
    if r !in s.resources then (v, Denied(NoResource))
    else if id !in v.secrets || v.secrets[id].resource != r then (v, Saved)
    else (Vault(v.secrets - {id}, v.log + [Entry(actor, SecretDeleted(id, r))]), Saved)
  }

  /** Reveal a secret of resource `r` and, when that succeeds, log the access. */
  function Open(a: Aead, ring: KeyRing, v: Vault, r: Id, id: Id, actor: Id, path: Path): (Vault, Answer) {
    if id !in v.secrets || v.secrets[id].resource != r then (v, Denied(NoSecret))
    else
      var answer := Reveal(a, ring, v.secrets[id].columns, Context(r, id));
      (if answer.Disclosed? then v.(log := v.log + [Entry(actor, SecretAccessed(id, r, path))]) else v, answer)
  }

  function AccessAsAdmin(a: Aead, ring: KeyRing, s: Store, v: Vault, r: Id, id: Id, actor: Id): (Vault, Answer) {
    if r !in s.resources then (v, Denied(NoResource)) else Open(a, ring, v, r, id, actor, Administration)
  }

  function AccessThroughLease(a: Aead, ring: KeyRing, s: Store, now: Time, dir: Directory, v: Vault, l: Id, id: Id,
                              caller: Caller): (Vault, Answer)
    requires Linked(s)
  {
    if !MayDisclose(s, now, dir, l, caller) then (v, Denied(NoLease))
    else Open(a, ring, v, s.leases[l].resource, id, caller.id, ThroughLease(l))
  }

  // ----- Runs that mix secrets, leasing, catalog changes and restarts -----

  datatype World = World(store: Store, vault: Vault, ring: KeyRing)

  datatype Deed =
    | Serving(op: Op)
    | Restarting(ring: KeyRing)
    | Creating(resource: Id, id: Id, name: string, description: Option<string>, material: Material, nonce: Nonce,
               actor: Id)
    | Updating(resource: Id, id: Id, change: Change, nonce: Nonce, actor: Id)
    | Deleting(resource: Id, id: Id, actor: Id)
    | Administering(resource: Id, id: Id, actor: Id)
    | Borrowing(dir: Directory, lease: Id, id: Id, caller: Caller)

  datatype Dated = On(now: Time, deed: Deed)

  /** Restarts may add keys and move the active one, never drop a key. */
  predicate Possible(w: World, d: Deed) {
    d.Restarting? ==> Extends(w.ring, d.ring)
  }

  function Act(a: Aead, w: World, now: Time, d: Deed): (World, Answer)
    requires Linked(w.store)
  {
    var World(s, v, ring) := w;
    match d
    case Serving(op) => (w.(store := Step(s, now, op).0), Saved)
    case Restarting(later) => (w.(ring := later), Saved)
    case Creating(r, id, name, description, m, nonce, actor) =>
      var (v', o) := Create(a, ring, s, v, r, id, name, description, m, nonce, actor);
      (w.(vault := v'), o)
    case Updating(r, id, p, nonce, actor) =>
      var (v', o) := Update(a, ring, s, v, r, id, p, nonce, actor);
      (w.(vault := v'), o)
    case Deleting(r, id, actor) =>
      var (v', o) := Delete(s, v, r, id, actor);
      (w.(vault := v'), o)
    case Administering(r, id, actor) =>
      var (v', o) := AccessAsAdmin(a, ring, s, v, r, id, actor);
      (w.(vault := v'), o)
    case Borrowing(dir, l, id, caller) =>
      var (v', o) := AccessThroughLease(a, ring, s, now, dir, v, l, id, caller);
      (w.(vault := v'), o)
  }

  lemma ActLinked(a: Aead, w: World, now: Time, d: Deed)
    requires Linked(w.store)
    ensures Linked(Act(a, w, now, d).0.store)
  {
    if d.Serving? {
      StepMoves(w.store, now, d.op);
    }
  }

  function Live(a: Aead, w: World, days: seq<Dated>): (u: World)
    requires Linked(w.store)
    ensures Linked(u.store)
    decreases days
  {
    if days == [] then w
    else
      ActLinked(a, w, days[0].now, days[0].deed);
      Live(a, Act(a, w, days[0].now, days[0].deed).0, days[1..])
  }

  ghost predicate Feasible(a: Aead, w: World, clock: Time, days: seq<Dated>)
    requires Linked(w.store)
    decreases days
  {
    days != [] ==> (
      ActLinked(a, w, days[0].now, days[0].deed);
      && clock <= days[0].now && Possible(w, days[0].deed)
      && Feasible(a, Act(a, w, days[0].now, days[0].deed).0, days[0].now, days[1..]))
  }

  function EndOf(clock: Time, days: seq<Dated>): Time {
    if days == [] then clock else days[|days| - 1].now
  }

  // ----- The ledger: what was last written, without encryption -----

  /** What one answered deed does to the plain record of current materials. */
  function Record(ledger: map<Id, Material>, d: Deed, held: bool, o: Answer): map<Id, Material> {
    match d
    case Creating(_, id, _, _, m, _, _) => if o.Saved? then ledger[id := m] else ledger
    case Updating(_, id, p, _, _) => if o.Saved? && p.material.Some? then ledger[id := p.material.value] else ledger
    case Deleting(_, id, _) => if o.Saved? && held then ledger - {id} else ledger
    case _ => ledger
  }

  /** A deletion takes effect only under the resource that the secret belongs to. */
  predicate Held(v: Vault, d: Deed) {
    d.Deleting? && d.id in v.secrets && v.secrets[d.id].resource == d.resource
  }

  function Ledger(a: Aead, w: World, days: seq<Dated>, ledger: map<Id, Material>): map<Id, Material>
    requires Linked(w.store)
    decreases days
  {
    if days == [] then ledger
    else
      ActLinked(a, w, days[0].now, days[0].deed);
      var (u, o) := Act(a, w, days[0].now, days[0].deed);
      Ledger(a, u, days[1..], Record(ledger, days[0].deed, Held(w.vault, days[0].deed), o))
  }

  /** Every stored row is well formed and reveals exactly its entry. */
  ghost predicate Keeps(a: Aead, ring: KeyRing, secrets: map<Id, Secret>, ledger: map<Id, Material>) {
    && secrets.Keys == ledger.Keys
    && (forall id :: id in secrets ==>
          && MatchesMode(secrets[id].columns)
          && Reveal(a, ring, secrets[id].columns, Context(secrets[id].resource, id)) == Disclosed(ledger[id]))
  }

  lemma PutKeeps(a: Aead, ring: KeyRing, secrets: map<Id, Secret>, ledger: map<Id, Material>,
                 id: Id, x: Secret, m: Material)
    requires Keeps(a, ring, secrets, ledger) && MatchesMode(x.columns)
    requires Reveal(a, ring, x.columns, Context(x.resource, id)) == Disclosed(m)
    ensures Keeps(a, ring, secrets[id := x], ledger[id := m])
  {}

  lemma CreateKeeps(a: Aead, ring: KeyRing, s: Store, v: Vault, r: Id, id: Id, name: string,
                    description: Option<string>, m: Material, nonce: Nonce, actor: Id, ledger: map<Id, Material>)
    requires Lawful(a) && Keeps(a, ring, v.secrets, ledger)
    ensures
      var (v', o) := Create(a, ring, s, v, r, id, name, description, m, nonce, actor);
      Keeps(a, ring, v'.secrets, if o.Saved? then ledger[id := m] else ledger)
  {
    RevealsWhatWasWritten(a, ring, ring, m, Context(r, id), nonce);
    var (v', o) := Create(a, ring, s, v, r, id, name, description, m, nonce, actor);
    if o.Saved? {
      PutKeeps(a, ring, v.secrets, ledger, id, v'.secrets[id], m);
    }
  }

  lemma UpdateKeeps(a: Aead, ring: KeyRing, s: Store, v: Vault, r: Id, id: Id, p: Change, nonce: Nonce, actor: Id,
                    ledger: map<Id, Material>)
    requires Lawful(a) && Keeps(a, ring, v.secrets, ledger)
    ensures
      var (v', o) := Update(a, ring, s, v, r, id, p, nonce, actor);
      Keeps(a, ring, v'.secrets, if o.Saved? && p.material.Some? then ledger[id := p.material.value] else ledger)
  {
    var (v', o) := Update(a, ring, s, v, r, id, p, nonce, actor);
    if o.Saved? && p.material.Some? {
      RevealsWhatWasWritten(a, ring, ring, p.material.value, Context(r, id), nonce);
      PutKeeps(a, ring, v.secrets, ledger, id, v'.secrets[id], p.material.value);
    } else if o.Saved? {
      PutKeeps(a, ring, v.secrets, ledger, id, v'.secrets[id], ledger[id]);
      assert ledger[id := ledger[id]] == ledger;
    }
  }

  lemma ActKeeps(a: Aead, w: World, now: Time, d: Deed, ledger: map<Id, Material>)
    requires Lawful(a) && Linked(w.store) && Keeps(a, w.ring, w.vault.secrets, ledger) && Possible(w, d)
    ensures
      var (u, o) := Act(a, w, now, d);
      Keeps(a, u.ring, u.vault.secrets, Record(ledger, d, Held(w.vault, d), o))
  {
    if d.Creating? {
      CreateKeeps(a, w.ring, w.store, w.vault, d.resource, d.id, d.name, d.description, d.material, d.nonce, d.actor,
                  ledger);
    } else if d.Updating? {
      UpdateKeeps(a, w.ring, w.store, w.vault, d.resource, d.id, d.change, d.nonce, d.actor, ledger);
    } else if d.Restarting? {
      forall id | id in w.vault.secrets
        ensures var x := w.vault.secrets[id];
          Reveal(a, d.ring, x.columns, Context(x.resource, id)) == Disclosed(ledger[id])
      {
        RotationKeepsReveals(a, w.ring, d.ring, w.vault.secrets[id].columns, Context(w.vault.secrets[id].resource, id));
      }
    }
  }

  /**
   * Over every run, and across every rotation of the key ring, each stored secret reveals exactly
   * the material last written to it, whichever of the two modes it went through before.
   */
  lemma {:induction false} RunKeeps(a: Aead, w: World, clock: Time, days: seq<Dated>, ledger: map<Id, Material>)
    requires Lawful(a) && Linked(w.store) && Keeps(a, w.ring, w.vault.secrets, ledger)
    requires Feasible(a, w, clock, days)
    ensures
      var u := Live(a, w, days);
      Keeps(a, u.ring, u.vault.secrets, Ledger(a, w, days, ledger))
    decreases days
  {
    if days != [] {
      var now, d := days[0].now, days[0].deed;
      ActLinked(a, w, now, d);
      ActKeeps(a, w, now, d, ledger);
      var (u, o) := Act(a, w, now, d);
      RunKeeps(a, u, now, days[1..], Record(ledger, d, Held(w.vault, d), o));
    }
  }

  // ----- Disclosure -----

  /**
   * Access through a lease, after any run: it discloses exactly when the lease is running, owned by
   * the caller and on an unarchived resource that reaches him (or the caller is an administrator), and
   * the secret belongs to that resource; and then it is the last written material, and it is logged.
   */
  lemma LeaseAccessIsExact(a: Aead, w: World, clock: Time, days: seq<Dated>, now: Time, dir: Directory,
                           l: Id, id: Id, caller: Caller)
    requires Lawful(a) && Linked(w.store) && w.vault.secrets == map[] && Feasible(a, w, clock, days)
    ensures
      var u, ledger := Live(a, w, days), Ledger(a, w, days, map[]);
      var (v, o) := AccessThroughLease(a, u.ring, u.store, now, dir, u.vault, l, id, caller);
      && u.vault.secrets.Keys == ledger.Keys
      && (o.Disclosed? <==>
            && l in u.store.leases
            && var x := u.store.leases[l];
            && x.endedAt == None && (x.expiresAt == None || x.expiresAt.value > now)
            && (caller.administrator
                || (&& x.owner == caller.id
                    && u.store.resources[x.resource].archivedAt == None
                    && Reaches(u.store, dir, x.resource, caller.id)))
            && id in u.vault.secrets && u.vault.secrets[id].resource == x.resource)
      && (o.Disclosed? ==>
            && o == Disclosed(ledger[id])
            && v.log == u.vault.log
                 + [Entry(caller.id, SecretAccessed(id, u.store.leases[l].resource, ThroughLease(l)))])
      && (o.Denied? ==> v == u.vault && o.problem in {NoLease, NoSecret})
  {
    RunKeeps(a, w, clock, days, map[]);
  }

  /** Access as an administrator never fails on stored material, and reveals the last written one. */
  lemma AdminAccessIsExact(a: Aead, w: World, clock: Time, days: seq<Dated>, r: Id, id: Id, actor: Id)
    requires Lawful(a) && Linked(w.store) && w.vault.secrets == map[] && Feasible(a, w, clock, days)
    ensures
      var u, ledger := Live(a, w, days), Ledger(a, w, days, map[]);
      var o := AccessAsAdmin(a, u.ring, u.store, u.vault, r, id, actor).1;
      && u.vault.secrets.Keys == ledger.Keys
      && (o.Disclosed? <==> r in u.store.resources && id in u.vault.secrets && u.vault.secrets[id].resource == r)
      && (o.Disclosed? ==> o == Disclosed(ledger[id]))
  {
    RunKeeps(a, w, clock, days, map[]);
  }

  lemma {:induction false} DeadThrough(a: Aead, w: World, clock: Time, days: seq<Dated>, l: Id)
    requires Sound(w.store, clock) && Feasible(a, w, clock, days)
    requires l in w.store.leases && !ActiveAt(w.store.leases[l], clock)
    ensures
      var u := Live(a, w, days);
      && Sound(u.store, EndOf(clock, days))
      && l in u.store.leases && !ActiveAt(u.store.leases[l], EndOf(clock, days))
    decreases days
  {
    if days != [] {
      var now, d := days[0].now, days[0].deed;
      ActLinked(a, w, now, d);
      DeadStep(a, w, clock, now, d, l);
      DeadThrough(a, Act(a, w, now, d).0, now, days[1..], l);
    }
  }

  lemma DeadStep(a: Aead, w: World, clock: Time, now: Time, d: Deed, l: Id)
    requires Sound(w.store, clock) && clock <= now && l in w.store.leases && !ActiveAt(w.store.leases[l], clock)
    ensures
      var u := Act(a, w, now, d).0;
      Sound(u.store, now) && l in u.store.leases && !ActiveAt(u.store.leases[l], now)
  {
    if d.Serving? {
      StepSound(w.store, clock, now, d.op);
      LeaseContinues(w.store, clock, now, d.op, l);
    } else {
      SoundLater(w.store, clock, now);
    }
  }

  lemma SoundLater(s: Store, clock: Time, now: Time)
    requires Sound(s, clock) && clock <= now
    ensures Sound(s, now)
  {
    forall l | l in s.leases ensures LeaseSound(s.leases[l], now) {
      assert LeaseSound(s.leases[l], clock);
    }
  }

  /** Once a lease has ended or run out, no later access through it discloses anything to anyone. */
  lemma {:induction false} NothingThroughDeadLeases(a: Aead, w: World, clock: Time, days: seq<Dated>, l: Id,
                                 later: Time, dir: Directory, id: Id, caller: Caller)
    requires Sound(w.store, clock) && Feasible(a, w, clock, days) && EndOf(clock, days) <= later
    requires l in w.store.leases && !ActiveAt(w.store.leases[l], clock)
    ensures
      var u := Live(a, w, days);
      AccessThroughLease(a, u.ring, u.store, later, dir, u.vault, l, id, caller) == (u.vault, Denied(NoLease))
  {
    DeadThrough(a, w, clock, days, l);
  }

  // ----- Optimistic versions -----

  /** Ids are fresh: a deleted secret's id does not come back. */
  predicate NeverCreates(days: seq<Dated>, id: Id) {
    forall i | 0 <= i < |days| :: days[i].deed.Creating? ==> days[i].deed.id != id
  }

  lemma ActVersions(a: Aead, w: World, now: Time, d: Deed, id: Id)
    requires Linked(w.store) && !(d.Creating? && d.id == id)
    ensures
      var u := Act(a, w, now, d).0;
      id in u.vault.secrets ==>
        && id in w.vault.secrets
        && w.vault.secrets[id].version <= u.vault.secrets[id].version
        && (u.vault.secrets[id] != w.vault.secrets[id] ==> w.vault.secrets[id].version < u.vault.secrets[id].version)
  {}

  lemma {:induction false} SecretVersionsGrow(a: Aead, w: World, days: seq<Dated>, id: Id)
    requires Linked(w.store) && NeverCreates(days, id)
    ensures
      var u := Live(a, w, days);
      id in u.vault.secrets ==>
        id in w.vault.secrets && w.vault.secrets[id].version <= u.vault.secrets[id].version
    decreases days
  {
    if days != [] {
      ActLinked(a, w, days[0].now, days[0].deed);
      ActVersions(a, w, days[0].now, days[0].deed, id);
      SecretVersionsGrow(a, Act(a, w, days[0].now, days[0].deed).0, days[1..], id);
    }
  }

  /** A change that was applied, not merely accepted as empty. */
  predicate AppliesChange(a: Aead, w: World, now: Time, d: Deed)
    requires Linked(w.store) && d.Updating?
  {
    Act(a, w, now, d).1.Saved? && Act(a, w, now, d).0.vault != w.vault
  }

  /** Of two changes applied to one secret the later carries the larger version, never the same. */
  lemma NoLostSecretUpdate(a: Aead, w: World, now: Time, d: Deed, days: seq<Dated>, later: Time, d': Deed)
    requires Linked(w.store) && d.Updating? && d'.Updating? && d'.id == d.id && NeverCreates(days, d.id)
    requires AppliesChange(a, w, now, d)
    requires Linked(Act(a, w, now, d).0.store)
    requires AppliesChange(a, Live(a, Act(a, w, now, d).0, days), later, d')
    ensures d.change.version < d'.change.version
  {
    SecretVersionsGrow(a, Act(a, w, now, d).0, days, d.id);
  }
}
