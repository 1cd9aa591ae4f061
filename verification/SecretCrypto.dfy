/**
 * Envelope encryption with ideal authenticated encryption: a box opens under the key and the associated data
 * it was made with, and under nothing else.
 */
module SecretCrypto {
  import opened Options
  import Decimal

  type Dek = nat

  datatype Key = LocalKey(material: nat, bytes: nat) | TransitKey(name: string, version: nat)

  /** The bytes of a wrapped data key; `nonce` makes two wraps of the same key differ. */
  datatype Box = Box(key: Key, nonce: nat, context: string, dek: Dek) | Malformed

  datatype WrappedKey = WrappedKey(wrapped: Box, keyId: string, version: Option<nat>)

  datatype ProviderId = Local | VaultTransit

  /** The configured key-encryption provider. Vault keeps all versions of its key and wraps under the latest. */
  datatype Kek =
    | LocalKeys(kek: Key, keyId: string, previous: map<string, Key>)
    | Vault(key: string, latest: nat)

  function IdOf(k: Kek): ProviderId {
    if k.LocalKeys? then Local else VaultTransit
  }

  const KEY_BYTES := 32

  function VaultId(key: string): (id: string)
    ensures |id| >= 6 && id[6..] == key
  {
    "vault:" + key
  }

  /** The map keeps the last key given under an id. */
  predicate LastOfItsId(previous: seq<(Key, string)>, i: nat)
    requires i < |previous|
  {
    forall j :: i < j < |previous| ==> previous[j].1 != previous[i].1
  }

  lemma StillLast(previous: seq<(Key, string)>, i: nat)
    requires i < |previous| - 1 && LastOfItsId(previous, i)
    ensures LastOfItsId(previous[..|previous| - 1], i) && previous[|previous| - 1].1 != previous[i].1
  {
  }

  /** The constructor of the local provider; a bad key or a reused id is a configuration error. */
  method Configure(kek: Key, keyId: string, previous: seq<(Key, string)>) returns (k: Option<Kek>)
    requires kek.LocalKey? && forall i :: 0 <= i < |previous| ==> previous[i].0.LocalKey?
    ensures k.Some? <==> kek.bytes == KEY_BYTES && forall i :: 0 <= i < |previous| ==>
      previous[i].0.bytes == KEY_BYTES && previous[i].1 != keyId
    ensures k.Some? ==> k.value.LocalKeys? && k.value.kek == kek && k.value.keyId == keyId
    ensures k.Some? ==> keyId !in k.value.previous
    ensures k.Some? ==> forall i :: 0 <= i < |previous| && LastOfItsId(previous, i) ==>
      previous[i].1 in k.value.previous && k.value.previous[previous[i].1] == previous[i].0
  {
    if kek.bytes != KEY_BYTES {
      return None;
    }
    var keys: map<string, Key> := map[];
    for n := 0 to |previous|
      invariant forall i :: 0 <= i < n ==> previous[i].0.bytes == KEY_BYTES && previous[i].1 != keyId
      invariant keyId !in keys
      invariant forall i :: 0 <= i < n && LastOfItsId(previous[..n], i) ==>
        previous[i].1 in keys && keys[previous[i].1] == previous[i].0
    {
      if previous[n].0.bytes != KEY_BYTES || previous[n].1 == keyId {
        return None;
      }
      keys := keys[previous[n].1 := previous[n].0];
      forall i | 0 <= i < n && LastOfItsId(previous[..n + 1], i)
        ensures LastOfItsId(previous[..n], i) && previous[n].1 != previous[i].1
      {
        StillLast(previous[..n + 1], i);
      }
      assert previous[..n + 1][..n] == previous[..n];
    }
    assert previous[..|previous|] == previous;
    return Some(LocalKeys(kek, keyId, keys));
  }

  /** The key a wrapped key asks for, if the provider has it. */
  function KeyFor(k: Kek, w: WrappedKey): Option<Key> {
    match k
    case LocalKeys(kek, keyId, previous) =>
      if w.keyId == keyId then Some(kek)
      else if w.keyId in previous then Some(previous[w.keyId])
      else None
    case Vault(name, _) =>
      if w.keyId == VaultId(name) && w.wrapped.Box? && w.wrapped.key.TransitKey? && w.wrapped.key.name == name
      then Some(w.wrapped.key) else None
  }

  /** Vault does not bind the context when wrapping; the local provider does. */
  function BoundContext(k: Kek, context: string): string {
    if k.LocalKeys? then "zernflow:kek:v1|" + context else ""
  }

  function Wrap(k: Kek, dek: Dek, context: string, nonce: nat): WrappedKey {
    match k
    case LocalKeys(kek, keyId, _) => WrappedKey(Box(kek, nonce, BoundContext(k, context), dek), keyId, Some(1))
    case Vault(name, latest) =>
      WrappedKey(Box(TransitKey(name, latest), nonce, "", dek), VaultId(name), if latest == 0 then None else Some(latest))
  }

  function Unwrap(k: Kek, w: WrappedKey, context: string): Option<Dek> {
    var key := KeyFor(k, w);
    if key.Some? && w.wrapped.Box? && w.wrapped.key == key.value && w.wrapped.context == BoundContext(k, context)
    then Some(w.wrapped.dek) else None
  }

  /** Wrapped under the key the provider wraps with now. */
  predicate UnderCurrent(k: Kek, w: WrappedKey) {
    match k
    case LocalKeys(kek, keyId, _) => w.keyId == keyId && w.wrapped.Box? && w.wrapped.key == kek
    case Vault(name, latest) => w.keyId == VaultId(name) && w.wrapped.Box? && w.wrapped.key == TransitKey(name, latest)
  }

  predicate NeedsRewrap(k: Kek, w: WrappedKey) {
    match k
    case LocalKeys(_, keyId, _) => w.keyId != keyId
    case Vault(name, _) => w.keyId == VaultId(name)
  }

  function Rewrap(k: Kek, w: WrappedKey, context: string, nonce: nat): Option<WrappedKey> {
    if k.LocalKeys? && !NeedsRewrap(k, w) then Some(w)
    else
      var dek := Unwrap(k, w, context);
      if dek.Some? then Some(Wrap(k, dek.value, context, nonce)) else None
  }

  /** Ciphertext, IV and tag of one value. */
  datatype Cipher = Cipher(dek: Dek, aad: string, plaintext: string) | BadCipher

  datatype Sealed = Sealed(cipher: Cipher, dek: WrappedKey, provider: ProviderId)

  const MAX_SECRET_BYTES := 64 * 1024

  function SecretAad(workspace: string, secret: string, version: nat): string {
    "zernflow:secret:v1|" + workspace + "|" + secret + "|" + Decimal.Print(version)
  }

  function Seal(plaintext: string, aad: string, k: Kek, dek: Dek, nonce: nat): Option<Sealed> {
    if plaintext == "" || |plaintext| > MAX_SECRET_BYTES then None
    else Some(Sealed(Cipher(dek, aad, plaintext), Wrap(k, dek, aad, nonce), IdOf(k)))
  }

  function Unseal(s: Sealed, aad: string, k: Kek): Option<string> {
    if s.provider != IdOf(k) then None
    else
      var dek := Unwrap(k, s.dek, aad);
      if dek.Some? && s.cipher.Cipher? && s.cipher.dek == dek.value && s.cipher.aad == aad
      then Some(s.cipher.plaintext) else None
  }

  /** The two providers' keys as one book: an id names one key everywhere. */
  type KeyBook = map<string, Key>

  predicate InBook(book: KeyBook, k: Kek) {
    k.LocalKeys? ==>
      && k.keyId in book && book[k.keyId] == k.kek
      && forall id :: id in k.previous ==> id in book && book[id] == k.previous[id]
  }

  /** A row really holds `value`: any provider that has the key it asks for reads exactly that. */
  predicate Holds(book: KeyBook, s: Sealed, aad: string, value: string) {
    && s.cipher == Cipher(if s.dek.wrapped.Box? then s.dek.wrapped.dek else 0, aad, value)
    && s.dek.wrapped.Box?
    && match s.provider
       case Local =>
         && s.dek.keyId in book && s.dek.wrapped.key == book[s.dek.keyId]
         && s.dek.wrapped.context == "zernflow:kek:v1|" + aad
       case VaultTransit =>
         && s.dek.wrapped.key.TransitKey? && s.dek.keyId == VaultId(s.dek.wrapped.key.name)
         && s.dek.wrapped.context == ""
  }

  /** The provider has the key this row names. */
  predicate Knows(k: Kek, s: Sealed) {
    && s.provider == IdOf(k)
    && match k
       case LocalKeys(_, keyId, previous) => s.dek.keyId == keyId || s.dek.keyId in previous
       case Vault(name, _) => s.dek.keyId == VaultId(name)
  }

  /** Whatever is sealed is read back by every provider that has the key, and by nobody under other associated data. */
  lemma SealUnseal(book: KeyBook, plaintext: string, aad: string, other: string, k: Kek, reader: Kek, dek: Dek, nonce: nat)
    requires Seal(plaintext, aad, k, dek, nonce).Some? && InBook(book, k) && InBook(book, reader)
    ensures var s := Seal(plaintext, aad, k, dek, nonce).value;
      && Holds(book, s, aad, plaintext) && UnderCurrent(k, s.dek)
      && Unseal(s, other, reader) == if Knows(reader, s) && other == aad then Some(plaintext) else None
  {
    var s := Seal(plaintext, aad, k, dek, nonce).value;
    HeldIsRead(book, s, aad, plaintext, other, reader);
  }

  lemma HeldIsRead(book: KeyBook, s: Sealed, aad: string, value: string, other: string, reader: Kek)
    requires Holds(book, s, aad, value) && InBook(book, reader)
    ensures Unseal(s, other, reader) == if Knows(reader, s) && other == aad then Some(value) else None
  {
    if reader.Vault? && s.dek.wrapped.key.TransitKey? && s.dek.keyId == VaultId(reader.key) == VaultId(s.dek.wrapped.key.name) {
      assert VaultId(reader.key)[6..] == reader.key;
    }
  }

  /** Re-wrapping keeps what a row holds, and after it the row asks for the current key. */
  lemma RewrapHolds(book: KeyBook, s: Sealed, aad: string, value: string, k: Kek, nonce: nat)
    requires Holds(book, s, aad, value) && InBook(book, k) && s.provider == IdOf(k)
    requires Rewrap(k, s.dek, aad, nonce).Some?
    ensures var t := s.(dek := Rewrap(k, s.dek, aad, nonce).value);
      Holds(book, t, aad, value) && Knows(k, t) && UnderCurrent(k, t.dek)
  {
  }

  predicate NoBar(s: string) {
    '|' !in s
  }

  lemma BarAt(a: string, x: string, b: string, y: string)
    requires NoBar(b) && a + "|" + x == b + "|" + y
    ensures |b| <= |a|
  {
    var r := b + "|" + y;
    assert (a + "|" + x)[|a|] == '|';
    assert forall i :: 0 <= i < |b| ==> r[i] == b[i];
  }

  lemma {:induction false} SplitAtBar(a: string, x: string, b: string, y: string)
    requires NoBar(a) && NoBar(b) && a + "|" + x == b + "|" + y
    ensures a == b && x == y
  {
    var l, r := a + "|" + x, b + "|" + y;
    assert l[|a|] == '|' && r[|b|] == '|';
    BarAt(a, x, b, y);
    BarAt(b, y, a, x);
    assert l[..|a|] == a && l[|a| + 1..] == x;
    assert r[..|b|] == b && r[|b| + 1..] == y;
  }

  /** Ids without a bar give each tenant, secret and version its own associated data, so rows cannot be swapped. */
  lemma AadInjective(w1: string, s1: string, v1: nat, w2: string, s2: string, v2: nat)
    requires NoBar(w1) && NoBar(s1) && NoBar(w2) && NoBar(s2)
    requires SecretAad(w1, s1, v1) == SecretAad(w2, s2, v2)
    ensures w1 == w2 && s1 == s2 && v1 == v2
  {
    var head := "zernflow:secret:v1|";
    var x1, x2 := s1 + "|" + Decimal.Print(v1), s2 + "|" + Decimal.Print(v2);
    assert SecretAad(w1, s1, v1) == head + (w1 + "|" + x1);
    assert SecretAad(w2, s2, v2) == head + (w2 + "|" + x2);
    assert SecretAad(w1, s1, v1)[|head|..] == w1 + "|" + x1;
    assert SecretAad(w2, s2, v2)[|head|..] == w2 + "|" + x2;
    SplitAtBar(w1, x1, w2, x2);
    SplitAtBar(s1, Decimal.Print(v1), s2, Decimal.Print(v2));
    Decimal.PrintInjective(v1, v2);
  }
}
