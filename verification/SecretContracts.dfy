/**
 * What every operation on secrets answers, writes and logs, said in the fields of rows, requests and
 * envelopes alone: no clause here goes through the functions that the operations are made of.
 */
module SecretContracts {
  import opened Types
  import Catalog
  import opened CatalogContracts
  import opened Cipher
  import opened Secrets

  predicate Archived(s: Store, r: Id) {
    r in s.resources && s.resources[r].archivedAt != None
  }

  /** The ring can encrypt: it names an active key and holds it. */
  predicate Ready(ring: KeyRing) {
    exists k | k in ring.keys :: ring.active == Some(k)
  }

  /** Some other secret of the resource has the name. */
  predicate Clashes(v: Vault, r: Id, name: string, id: Id) {
    exists k | k in v.secrets :: k != id && v.secrets[k].resource == r && v.secrets[k].name == name
  }

  // ----- Columns and envelopes -----

  /** What is stored for a material: a managed value sealed under the active key, or the reference itself. */
  predicate Stores(a: Aead, ring: KeyRing, m: Material, c: Context, nonce: Nonce, x: Columns) {
    match m
    case ManagedValue(v) =>
      && Ready(ring)
      && x.mode == Mode.Managed && x.keyId == ring.active && x.provider == None && x.reference == None
      && x.envelope == Some(Envelope(1, "AES-256-GCM", nonce, a.seal(ring.keys[ring.active.value], nonce, c, v)))
    case ExternalRef(provider, reference) =>
      x == Columns(Mode.External, None, None, Some(provider), Some(reference))
  }

  lemma MaterialIsStored(a: Aead, ring: KeyRing, m: Material, c: Context, nonce: Nonce)
    ensures
      var x := MaterialValues(a, ring, m, c, nonce);
      && (x == None <==> m.ManagedValue? && !Ready(ring))
      && (x.Some? ==> Stores(a, ring, m, c, nonce, x.value))
  {}

  /** A value opens only under its own key, in its own place, and in the one supported format. */
  lemma DecryptRefuses(a: Aead, ring: KeyRing, e: Envelope, keyId: string, c: Context)
    ensures
      var o := Decrypt(a, ring, e, keyId, c);
      && (o == NoKey <==> keyId !in ring.keys)
      && (forall v :: o == Plain(v) <==>
            && keyId in ring.keys && e.version == 1 && e.algorithm == "AES-256-GCM"
            && a.unseal(ring.keys[keyId], e.nonce, c, e.ciphertext) == Some(v))
  {}

  // ----- Administration -----

  lemma CreateRefuses(a: Aead, ring: KeyRing, s: Store, v: Vault, r: Id, id: Id, name: string,
                      description: Option<string>, m: Material, nonce: Nonce, actor: Id)
    ensures
      var (v', o) := Create(a, ring, s, v, r, id, name, description, m, nonce, actor);
      var ready := r in s.resources && !Archived(s, r);
      var locked := m.ManagedValue? && !Ready(ring);
      && (o != Saved ==> v' == v)
      && (o == Denied(NoResource) <==> r !in s.resources)
      && (o == Denied(ArchivedResource) <==> Archived(s, r))
      && (o == Denied(KeysUnavailable) <==> ready && locked)
      && (o == Denied(IdInUse) <==> ready && !locked && id in v.secrets)
      && (o == Denied(NameInUse) <==> ready && !locked && id !in v.secrets && Clashes(v, r, name, id))
      && (o == Saved <==> ready && !locked && id !in v.secrets && !Clashes(v, r, name, id))
  {
    MaterialIsStored(a, ring, m, Context(r, id), nonce);
    assert id !in v.secrets ==> (Clashes(v, r, name, id) <==> !NameFree(v, r, name, {}));
  }

  lemma CreateWrites(a: Aead, ring: KeyRing, s: Store, v: Vault, r: Id, id: Id, name: string,
                     description: Option<string>, m: Material, nonce: Nonce, actor: Id)
    requires Create(a, ring, s, v, r, id, name, description, m, nonce, actor).1 == Saved
    ensures
      var v' := Create(a, ring, s, v, r, id, name, description, m, nonce, actor).0;
      && id in v'.secrets
      && var x := v'.secrets[id];
      && x.resource == r && x.name == name && x.description == description && x.version == 1
      && Stores(a, ring, m, Context(r, id), nonce, x.columns)
      && v'.secrets == v.secrets[id := x]
      && v'.log == v.log + [Entry(actor, SecretCreated(id, r, if m.ManagedValue? then Mode.Managed else Mode.External))]
  {}

  /** When a change is refused, and why, in the order of its tests. */
  lemma UpdateRefuses(a: Aead, ring: KeyRing, s: Store, v: Vault, r: Id, id: Id, p: Change, nonce: Nonce, actor: Id)
    ensures
      var (v', o) := Update(a, ring, s, v, r, id, p, nonce, actor);
      && (o != Saved ==> v' == v)
      && (o == Denied(NoResource) <==> r !in s.resources)
      && (o == Denied(ArchivedResource) <==> Archived(s, r))
      && (o == Denied(NoSecret) <==>
            r in s.resources && !Archived(s, r) && (id !in v.secrets || v.secrets[id].resource != r))
      && (r in s.resources && !Archived(s, r) && id in v.secrets && v.secrets[id].resource == r ==>
            var current := v.secrets[id].version == p.version;
            var locked := p.material.Some? && p.material.value.ManagedValue? && !Ready(ring);
            var nothing := p.name == None && p.description == None && p.material == None;
            var clash := Clashes(v, r, if p.name == None then v.secrets[id].name else p.name.value, id);
            && (o == Denied(StaleSecret) <==> !current)
            && (o == Denied(KeysUnavailable) <==> current && locked)
            && (o == Denied(NameInUse) <==> current && !locked && !nothing && clash)
            && (o == Saved <==> current && !locked && (nothing || !clash)))
  {
    if p.material.Some? {
      MaterialIsStored(a, ring, p.material.value, Context(r, id), nonce);
    }
    if id in v.secrets {
      var name := if p.name == None then v.secrets[id].name else p.name.value;
      assert Clashes(v, r, name, id) <==> !NameFree(v, r, name, {id});
    }
  }

  /** An applied change writes what it carries, field by field, keeps the rest and counts the version up. */
  lemma UpdateWrites(a: Aead, ring: KeyRing, s: Store, v: Vault, r: Id, id: Id, p: Change, nonce: Nonce, actor: Id)
    requires Update(a, ring, s, v, r, id, p, nonce, actor).1 == Saved
    ensures
      var v' := Update(a, ring, s, v, r, id, p, nonce, actor).0;
      && id in v.secrets && id in v'.secrets
      && var x, y := v.secrets[id], v'.secrets[id];
      && (p.name == None && p.description == None && p.material == None ==> v' == v)
      && (!(p.name == None && p.description == None && p.material == None) ==>
            && y.resource == x.resource == r && y.version == x.version + 1
            && Takes(y.name, x.name, p.name) && Takes(y.description, x.description, p.description)
            && (p.material == None ==> y.columns == x.columns)
            && (p.material.Some? ==> Stores(a, ring, p.material.value, Context(r, id), nonce, y.columns))
            && v'.secrets == v.secrets[id := y]
            && v'.log == v.log + [Entry(actor, SecretUpdated(id, r))])
  {}

  /** Deletion answers the same whether or not there was anything to delete, and logs only what it deleted. */
  lemma DeleteWrites(s: Store, v: Vault, r: Id, id: Id, actor: Id)
    ensures
      var (v', o) := Delete(s, v, r, id, actor);
      var there := id in v.secrets && v.secrets[id].resource == r;
      && (o == Denied(NoResource) <==> r !in s.resources)
      && (o == Saved <==> r in s.resources)
      && (o == Saved && there ==>
            && id !in v'.secrets && (forall k :: k != id ==> (k in v'.secrets <==> k in v.secrets))
            && (forall k :: k in v'.secrets ==> v'.secrets[k] == v.secrets[k])
            && v'.log == v.log + [Entry(actor, SecretDeleted(id, r))])
      && (!(o == Saved && there) ==> v' == v)
  {}

  // ----- Access -----

  /** Every access that is let through and finds its secret is answered from that very row, and logged. */
  predicate Served(a: Aead, ring: KeyRing, v: Vault, r: Id, id: Id, actor: Id, path: Path, v': Vault, o: Answer) {
    && (o == Denied(NoSecret) <==> id !in v.secrets || v.secrets[id].resource != r)
    && (o == Denied(KeysUnavailable) <==>
          && id in v.secrets && v.secrets[id].resource == r
          && var x := v.secrets[id].columns;
          && x.mode == Mode.Managed && x.envelope.Some? && x.keyId.Some? && x.keyId.value !in ring.keys)
    && (o.Denied? ==> v' == v)
    && (o.Disclosed? ==>
          && v' == Vault(v.secrets, v.log + [Entry(actor, SecretAccessed(id, r, path))])
          && var x := v.secrets[id].columns;
          && (o.material.ExternalRef? ==>
                && x.mode == Mode.External
                && x.provider == Some(o.material.provider) && x.reference == Some(o.material.reference))
          && (o.material.ManagedValue? ==>
                && x.mode == Mode.Managed && x.envelope.Some? && x.keyId.Some? && x.keyId.value in ring.keys
                && var e := x.envelope.value;
                a.unseal(ring.keys[x.keyId.value], e.nonce, Context(r, id), e.ciphertext) == Some(o.material.value)))
  }

  lemma AdministrationServes(a: Aead, ring: KeyRing, s: Store, v: Vault, r: Id, id: Id, actor: Id)
    ensures
      var (v', o) := AccessAsAdmin(a, ring, s, v, r, id, actor);
      && (o == Denied(NoResource) <==> r !in s.resources)
      && (o.Denied? ==> v' == v)
      && (r in s.resources ==> Served(a, ring, v, r, id, actor, Administration, v', o))
  {}

  /** Whoever is not admitted learns nothing, not even whether the secret exists. */
  lemma LeaseServes(a: Aead, ring: KeyRing, s: Store, now: Time, dir: Directory, v: Vault, l: Id, id: Id,
                    caller: Caller)
    requires Catalog.Linked(s)
    ensures
      var (v', o) := AccessThroughLease(a, ring, s, now, dir, v, l, id, caller);
      var admitted :=
        && l in s.leases && Runs(s.leases[l], now)
        && (caller.administrator
            || (&& s.leases[l].owner == caller.id
                && s.resources[s.leases[l].resource].archivedAt == None
                && Reaches(s, dir, s.leases[l].resource, caller.id)));
      && (o == Denied(NoLease) <==> !admitted)
      && (o.Denied? ==> v' == v)
      && (admitted ==> Served(a, ring, v, s.leases[l].resource, id, caller.id, ThroughLease(l), v', o))
  {}
}
