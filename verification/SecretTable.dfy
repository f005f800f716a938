/**
 * The secret rows and their log in place. A ghost ledger holds the plain material last written to
 * each secret; every method keeps the encrypted rows in agreement with it.
 */
module SecretTable {
  import opened Types
  import opened Catalog
  import opened CatalogContracts
  import opened Cipher
  import S = Secrets

  class Table {
    const aead: Aead
    var secrets: map<Id, S.Secret>
    var log: seq<S.Entry>
    ghost var ledger: map<Id, S.Material>

    function State(): S.Vault
      reads this
    {
      S.Vault(secrets, log)
    }

    /** Under this key ring, each row reveals exactly its ledger entry. */
    ghost predicate Valid(ring: KeyRing)
      reads this
    {
      Lawful(aead) && S.Keeps(aead, ring, secrets, ledger)
    }

    constructor (a: Aead)
      requires Lawful(a)
      ensures aead == a && State() == S.Vault(map[], []) && ledger == map[]
      ensures forall ring :: Valid(ring)
    {
      aead, secrets, log, ledger := a, map[], [], map[];
    }

    /** A restart with a larger key ring leaves every row readable as before. */
    lemma Restarts(ring: KeyRing, later: KeyRing)
      requires Valid(ring) && Extends(ring, later)
      ensures Valid(later)
    {
      forall id | id in secrets
        ensures S.Reveal(aead, later, secrets[id].columns, Context(secrets[id].resource, id)) == S.Disclosed(ledger[id])
      {
        S.RotationKeepsReveals(aead, ring, later, secrets[id].columns, Context(secrets[id].resource, id));
      }
    }

    method RecordAuditEvent(actor: Id, note: S.Note)
      modifies this`log
      ensures log == old(log) + [S.Entry(actor, note)]
    {
      log := log + [S.Entry(actor, note)];
    }

    method CreateResourceSecret(ring: KeyRing, s: Store, r: Id, id: Id, name: string, description: Option<string>,
                                m: S.Material, nonce: Nonce, actor: Id)
      returns (o: S.Answer)
      requires Valid(ring)
      modifies this
      ensures (State(), o) == S.Create(aead, ring, s, old(State()), r, id, name, description, m, nonce, actor)
      ensures Valid(ring) && ledger == if o.Saved? then old(ledger)[id := m] else old(ledger)
    {
      S.CreateKeeps(aead, ring, s, State(), r, id, name, description, m, nonce, actor, ledger);
      if r !in s.resources {
        return S.Denied(S.NoResource);
      }
      if s.resources[r].archivedAt.Some? {
        return S.Denied(S.ArchivedResource);
      }
      var values := S.MaterialValues(aead, ring, m, Context(r, id), nonce);
      if values.None? {
        return S.Denied(S.KeysUnavailable);
      }
      if id in secrets {
        return S.Denied(S.IdInUse);
      }
      if !S.NameFree(State(), r, name, {}) {
        return S.Denied(S.NameInUse);
      }
      secrets := secrets[id := S.Secret(r, name, description, values.value, 1)];
      ledger := ledger[id := m];
      RecordAuditEvent(actor, S.SecretCreated(id, r, S.ModeOf(m)));
      return S.Saved;
    }

    method UpdateResourceSecret(ring: KeyRing, s: Store, r: Id, id: Id, p: S.Change, nonce: Nonce, actor: Id)
      returns (o: S.Answer)
      requires Valid(ring)
      modifies this
      ensures (State(), o) == S.Update(aead, ring, s, old(State()), r, id, p, nonce, actor)
      ensures Valid(ring)
      ensures ledger == if o.Saved? && p.material.Some? then old(ledger)[id := p.material.value] else old(ledger)
    {
      S.UpdateKeeps(aead, ring, s, State(), r, id, p, nonce, actor, ledger);
      if r !in s.resources {
        return S.Denied(S.NoResource);
      }
      if s.resources[r].archivedAt.Some? {
        return S.Denied(S.ArchivedResource);
      }
      if id !in secrets || secrets[id].resource != r {
        return S.Denied(S.NoSecret);
      }
      var target := secrets[id];
      if target.version != p.version {
        return S.Denied(S.StaleSecret);
      }
      var columns := target.columns;
      if p.material.Some? {
        var values := S.MaterialValues(aead, ring, p.material.value, Context(r, id), nonce);
        if values.None? {
          return S.Denied(S.KeysUnavailable);
        }
        columns := values.value;
      }
      if p.name.None? && p.description.None? && p.material.None? {
        return S.Saved;
      }
      if !S.NameFree(State(), r, Or(p.name, target.name), {id}) {
        return S.Denied(S.NameInUse);
      }
      secrets := secrets[id := S.Changed(target, p, columns)];
      if p.material.Some? {
        ledger := ledger[id := p.material.value];
      }
      RecordAuditEvent(actor, S.SecretUpdated(id, r));
      return S.Saved;
    }

    method DeleteResourceSecret(ring: KeyRing, s: Store, r: Id, id: Id, actor: Id) returns (o: S.Answer)
      requires Valid(ring)
      modifies this
      ensures (State(), o) == S.Delete(s, old(State()), r, id, actor)
      ensures Valid(ring)
      ensures ledger == if o.Saved? && id in old(secrets) && old(secrets)[id].resource == r
                        then old(ledger) - {id} else old(ledger)
    {
      if r !in s.resources {
        return S.Denied(S.NoResource);
      }
      if id in secrets && secrets[id].resource == r {
        secrets, ledger := secrets - {id}, ledger - {id};
        RecordAuditEvent(actor, S.SecretDeleted(id, r));
      }
      return S.Saved;
    }

    /** Reveal a locked row; on stored material this cannot fail. */
    method AccessLockedSecret(ring: KeyRing, id: Id, actor: Id, path: S.Path) returns (o: S.Answer)
      requires Valid(ring) && id in secrets
      modifies this`log
      ensures o == S.Disclosed(ledger[id])
      ensures log == old(log) + [S.Entry(actor, S.SecretAccessed(id, secrets[id].resource, path))]
    {
      var row := secrets[id];
      if row.columns.mode == S.Managed {
        var text := Decrypt(aead, ring, row.columns.envelope.value, row.columns.keyId.value, Context(row.resource, id));
        o := S.Disclosed(S.ManagedValue(text.value));
      } else {
        o := S.Disclosed(S.ExternalRef(row.columns.provider.value, row.columns.reference.value));
      }
      RecordAuditEvent(actor, S.SecretAccessed(id, row.resource, path));
    }

    method AccessAsAdmin(ring: KeyRing, s: Store, r: Id, id: Id, actor: Id) returns (o: S.Answer)
      requires Valid(ring)
      modifies this`log
      ensures (State(), o) == S.AccessAsAdmin(aead, ring, s, old(State()), r, id, actor)
      ensures o.Disclosed? ==> o == S.Disclosed(ledger[id])
    {
      if r !in s.resources {
        return S.Denied(S.NoResource);
      }
      if id !in secrets || secrets[id].resource != r {
        return S.Denied(S.NoSecret);
      }
      o := AccessLockedSecret(ring, id, actor, S.Administration);
    }

    method AccessLeaseSecret(ring: KeyRing, s: Store, now: Time, dir: Directory, l: Id, id: Id, caller: Caller)
      returns (o: S.Answer)
      requires Valid(ring) && Linked(s)
      modifies this`log
      ensures (State(), o) == S.AccessThroughLease(aead, ring, s, now, dir, old(State()), l, id, caller)
      ensures o.Disclosed? <==>
        && l in s.leases
        && var x := s.leases[l];
        && x.endedAt == None && (x.expiresAt == None || x.expiresAt.value > now)
        && (caller.administrator
            || (&& x.owner == caller.id
                && s.resources[x.resource].archivedAt == None && Reaches(s, dir, x.resource, caller.id)))
        && id in secrets && secrets[id].resource == x.resource
      ensures o.Disclosed? ==> o == S.Disclosed(ledger[id])
    {
      // The locked read filters on activity and, for other callers than administrators, ownership.
      if l !in s.leases || !ActiveAt(s.leases[l], now) || (!caller.administrator && s.leases[l].owner != caller.id) {
        return S.Denied(S.NoLease);
      }
      var r := s.leases[l].resource;
      if !caller.administrator && (s.resources[r].archivedAt.Some? || !Visible(s, dir, r, caller.id)) {
        return S.Denied(S.NoLease);
      }
      if id !in secrets || secrets[id].resource != r {
        return S.Denied(S.NoSecret);
      }
      o := AccessLockedSecret(ring, id, caller.id, S.ThroughLease(l));
    }
  }
}
