/**
 * Storage keys. Every secret is stored under one key derived from the
 * namespace of the application and the kind of secret.
 */
module KeyMaker {
  import opened Wrappers

  /** The kinds of secret the stores keep, one key function each. */
  datatype SecretKind = RefreshToken | AnonymousKeyId | BiometricKeyId

  const PREFIX: string := "authgear_"

  function Suffix(kind: SecretKind): string
  {
    match kind
    case RefreshToken => "_refreshToken"
    case AnonymousKeyId => "_anonymousKeyID"
    case BiometricKeyId => "_biometricKeyID"
  }

  /** The key scoped to the SDK: the prefix followed by `key`, which can be read back. */
  function ScopedKey(key: string): (r: string)
    ensures |r| == |PREFIX| + |key|
    ensures r[..|PREFIX|] == PREFIX && r[|PREFIX|..] == key
  {
    PREFIX + key
  }

  function KeyRefreshToken(namespace: string): (r: string)
    ensures r == PREFIX + namespace + Suffix(RefreshToken)
  {
    ScopedKey(namespace + "_refreshToken")
  }

  function KeyAnonymousKeyId(namespace: string): (r: string)
    ensures r == PREFIX + namespace + Suffix(AnonymousKeyId)
  {
    ScopedKey(namespace + "_anonymousKeyID")
  }

  function KeyBiometricKeyId(namespace: string): (r: string)
    ensures r == PREFIX + namespace + Suffix(BiometricKeyId)
  {
    ScopedKey(namespace + "_biometricKeyID")
  }

  /** The key of `kind` for `namespace`: the prefix, the namespace, then the kind's suffix. */
  function Key(namespace: string, kind: SecretKind): (r: string)
    ensures r == PREFIX + namespace + Suffix(kind)
  {
    match kind
    case RefreshToken => KeyRefreshToken(namespace)
    case AnonymousKeyId => KeyAnonymousKeyId(namespace)
    case BiometricKeyId => KeyBiometricKeyId(namespace)
  }

  predicate EndsWith(s: string, suffix: string)
  {
    |suffix| <= |s| && s[|s| - |suffix|..] == suffix
  }

  /** The kind whose suffix ends `rest`, tried in declaration order. */
  function KindOf(rest: string): Option<SecretKind>
  {
    if EndsWith(rest, Suffix(RefreshToken)) then Some(RefreshToken)
    else if EndsWith(rest, Suffix(AnonymousKeyId)) then Some(AnonymousKeyId)
    else if EndsWith(rest, Suffix(BiometricKeyId)) then Some(BiometricKeyId)
    else None
  }

  /**
   * The inverse of Key: recovers the namespace and the kind from a storage
   * key, or None for a string that no key function produces.
   */
  function ParseKey(key: string): (r: Option<(string, SecretKind)>)
    ensures r.Some? ==> Key(r.value.0, r.value.1) == key
  {
    if |key| < |PREFIX| || key[..|PREFIX|] != PREFIX then None
    else
      var rest := key[|PREFIX|..];
      match KindOf(rest)
      case None => None
      case Some(kind) =>
        var namespace := rest[..|rest| - |Suffix(kind)|];
        assert rest == namespace + Suffix(kind);
        assert key == PREFIX + rest;
        Some((namespace, kind))
  }

  /** The kind's suffix is recognised at the end of a namespace followed by it. */
  lemma KindOfSuffixed(namespace: string, kind: SecretKind)
    ensures KindOf(namespace + Suffix(kind)) == Some(kind)
  {
    var rest := namespace + Suffix(kind);
    assert rest[|rest| - |Suffix(kind)|..] == Suffix(kind);
    match kind
    case RefreshToken =>
    case AnonymousKeyId =>
      assert rest[|rest| - 1] == 'D';
    case BiometricKeyId =>
      assert rest[|rest| - 1] == 'D';
      assert rest[|rest| - 14] == 'b';
  }

  /** Parsing a derived key gives back the namespace and the kind it was derived from. */
  lemma ParseKeyOfKey(namespace: string, kind: SecretKind)
    ensures ParseKey(Key(namespace, kind)) == Some((namespace, kind))
  {
    var key := Key(namespace, kind);
    var rest := namespace + Suffix(kind);
    assert key == PREFIX + rest;
    assert key[..|PREFIX|] == PREFIX;
    assert key[|PREFIX|..] == rest;
    KindOfSuffixed(namespace, kind);
    assert rest[..|rest| - |Suffix(kind)|] == namespace;
  }

  /**
   * Key derivation is injective over (namespace, kind) pairs: two different
   * namespaces never share a key for one kind, and the three kinds of one
   * namespace have three different keys.
   */
  lemma KeyInjective(n1: string, k1: SecretKind, n2: string, k2: SecretKind)
    requires Key(n1, k1) == Key(n2, k2)
    ensures n1 == n2 && k1 == k2
  {
    ParseKeyOfKey(n1, k1);
    ParseKeyOfKey(n2, k2);
  }
}
