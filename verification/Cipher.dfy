/** Secret encryption over an abstract authenticated cipher and a key ring. */
module Cipher {
  import opened Types

  type Key = nat
  type Nonce = nat
  type Ciphertext = nat

  /** The associated data: which secret of which resource a value belongs to. */
  datatype Context = Context(resource: Id, secret: Id)

  /** AES-256-GCM, of which only the two laws below are used. */
  datatype Aead = Aead(
    seal: (Key, Nonce, Context, string) -> Ciphertext,
    unseal: (Key, Nonce, Context, Ciphertext) -> Option<string>
  )

  /** What was sealed opens again under the same key, nonce and context. */
  ghost predicate Lawful(a: Aead) {
    forall k: Key, n: Nonce, c: Context, v: string :: a.unseal(k, n, c, a.seal(k, n, c, v)) == Some(v)
  }

  /** And under no other key or context. */
  ghost predicate Binding(a: Aead) {
    forall k: Key, n: Nonce, c: Context, v: string, k': Key, c': Context ::
      k' != k || c' != c ==> a.unseal(k', n, c', a.seal(k, n, c, v)) == None
  }

  const ALGORITHM := "AES-256-GCM"

  /** The stored JSON envelope, field by field. */
  datatype Envelope = Envelope(version: int, algorithm: string, nonce: Nonce, ciphertext: Ciphertext)

  datatype Encrypted = Encrypted(envelope: Envelope, keyId: string)

  /** The active key encrypts; every key of the ring may decrypt. */
  datatype KeyRing = KeyRing(active: Option<string>, keys: map<string, Key>)

  datatype Plain = Plain(value: string) | NoKey | Unreadable

  predicate CanEncrypt(ring: KeyRing) {
    ring.active.Some? && ring.active.value in ring.keys
  }

  function Encrypt(a: Aead, ring: KeyRing, v: string, c: Context, nonce: Nonce): Option<Encrypted> {
    if !CanEncrypt(ring) then None
    else
      var id := ring.active.value;
      Some(Encrypted(Envelope(1, ALGORITHM, nonce, a.seal(ring.keys[id], nonce, c, v)), id))
  }

  function Decrypt(a: Aead, ring: KeyRing, e: Envelope, keyId: string, c: Context): Plain {
    if keyId !in ring.keys then NoKey
    else if e.version != 1 || e.algorithm != ALGORITHM then Unreadable
    else
      var text := a.unseal(ring.keys[keyId], e.nonce, c, e.ciphertext);
      if text.Some? then Plain(text.value) else Unreadable
  }

  /** Later configurations keep every key they had; the active one may change or disappear. */
  predicate Extends(earlier: KeyRing, later: KeyRing) {
    forall id | id in earlier.keys :: id in later.keys && later.keys[id] == earlier.keys[id]
  }

  /** Round trip across rotations: an old value opens under every later ring. */
  lemma DecryptAfterRotation(a: Aead, ring: KeyRing, later: KeyRing, v: string, c: Context, nonce: Nonce)
    requires Lawful(a) && Extends(ring, later) && Encrypt(a, ring, v, c, nonce).Some?
    ensures
      var e := Encrypt(a, ring, v, c, nonce).value;
      Decrypt(a, later, e.envelope, e.keyId, c) == Plain(v)
  {
    var id := ring.active.value;
    assert a.unseal(ring.keys[id], nonce, c, a.seal(ring.keys[id], nonce, c, v)) == Some(v);
  }

  /** Under any ring at all, a value opens exactly in its own place and with its own key. */
  lemma DecryptsExactlyWhen(a: Aead, ring: KeyRing, other: KeyRing, v: string, c: Context, c': Context, nonce: Nonce)
    requires Lawful(a) && Binding(a) && Encrypt(a, ring, v, c, nonce).Some?
    ensures
      var e := Encrypt(a, ring, v, c, nonce).value;
      && (Decrypt(a, other, e.envelope, e.keyId, c') == Plain(v)
          <==> c' == c && e.keyId in other.keys && other.keys[e.keyId] == ring.keys[e.keyId])
      && (Decrypt(a, other, e.envelope, e.keyId, c').NoKey? <==> e.keyId !in other.keys)
  {
    var id := ring.active.value;
    assert a.unseal(ring.keys[id], nonce, c, a.seal(ring.keys[id], nonce, c, v)) == Some(v);
    if id in other.keys && (other.keys[id] != ring.keys[id] || c' != c) {
      assert a.unseal(other.keys[id], nonce, c', a.seal(ring.keys[id], nonce, c, v)) == None;
    }
  }
}
