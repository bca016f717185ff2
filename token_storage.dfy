/**
 * The stores the rest of the SDK uses. Each operation derives the key of its
 * kind of secret for the namespace and forwards to its driver, returning or
 * throwing whatever the driver does: the transient token store over the
 * in-memory driver, the persistent token store and the persistent container
 * store over the keychain driver.
 */
module TokenStorage {
  import opened Wrappers
  import opened KeyMaker
  import opened MemoryStorage
  import opened SecItem
  import opened KeychainStorage

  class TransientTokenStorage {
    const driver: MemoryStorageDriver

    constructor()
      ensures fresh(driver) && driver.backingStorage == map[]
    {
      driver := new MemoryStorageDriver();
    }

    method SetRefreshToken(namespace: string, token: string)
      modifies driver
      ensures driver.backingStorage == old(driver.backingStorage)[KeyRefreshToken(namespace) := token]
    {
      driver.Set(KeyRefreshToken(namespace), token);
    }

    method GetRefreshToken(namespace: string) returns (r: Option<string>)
      ensures r == Lookup(driver.backingStorage, KeyRefreshToken(namespace))
    {
      r := driver.Get(KeyRefreshToken(namespace));
    }

    method DelRefreshToken(namespace: string)
      modifies driver
      ensures driver.backingStorage == old(driver.backingStorage) - {KeyRefreshToken(namespace)}
    {
      driver.Del(KeyRefreshToken(namespace));
    }
  }

  class PersistentTokenStorage {
    const driver: KeychainStorageDriver

    /** `keychain` is the device's keychain, which every persistent store shares. */
    constructor(keychain: Keychain)
      ensures fresh(driver) && driver.keychain == keychain
    {
      driver := new KeychainStorageDriver(keychain);
    }

    method SetRefreshToken(namespace: string, token: string) returns (r: Result<(), AuthgearError>)
      modifies driver.keychain
      ensures Effect(r, driver.keychain.State())
              == SetEffect(old(driver.keychain.State()), KeyRefreshToken(namespace), token)
    {
      r := driver.Set(KeyRefreshToken(namespace), token);
    }

    method GetRefreshToken(namespace: string) returns (r: Result<Option<string>, AuthgearError>)
      modifies driver.keychain
      ensures Effect(r, driver.keychain.State())
              == GetEffect(old(driver.keychain.State()), KeyRefreshToken(namespace))
    {
      r := driver.Get(KeyRefreshToken(namespace));
    }

    method DelRefreshToken(namespace: string) returns (r: Result<(), AuthgearError>)
      modifies driver.keychain
      ensures Effect(r, driver.keychain.State())
              == DelEffect(old(driver.keychain.State()), KeyRefreshToken(namespace))
    {
      r := driver.Del(KeyRefreshToken(namespace));
    }
  }

  class PersistentContainerStorage {
    const driver: KeychainStorageDriver

    /** `keychain` is the device's keychain, which every persistent store shares. */
    constructor(keychain: Keychain)
      ensures fresh(driver) && driver.keychain == keychain
    {
      driver := new KeychainStorageDriver(keychain);
    }

    method SetAnonymousKeyId(namespace: string, kid: string) returns (r: Result<(), AuthgearError>)
      modifies driver.keychain
      ensures Effect(r, driver.keychain.State())
              == SetEffect(old(driver.keychain.State()), KeyAnonymousKeyId(namespace), kid)
    {
      r := driver.Set(KeyAnonymousKeyId(namespace), kid);
    }

    method SetBiometricKeyId(namespace: string, kid: string) returns (r: Result<(), AuthgearError>)
      modifies driver.keychain
      ensures Effect(r, driver.keychain.State())
              == SetEffect(old(driver.keychain.State()), KeyBiometricKeyId(namespace), kid)
    {
      r := driver.Set(KeyBiometricKeyId(namespace), kid);
    }

    method GetAnonymousKeyId(namespace: string) returns (r: Result<Option<string>, AuthgearError>)
      modifies driver.keychain
      ensures Effect(r, driver.keychain.State())
              == GetEffect(old(driver.keychain.State()), KeyAnonymousKeyId(namespace))
    {
      r := driver.Get(KeyAnonymousKeyId(namespace));
    }

    method GetBiometricKeyId(namespace: string) returns (r: Result<Option<string>, AuthgearError>)
      modifies driver.keychain
      ensures Effect(r, driver.keychain.State())
              == GetEffect(old(driver.keychain.State()), KeyBiometricKeyId(namespace))
    {
      r := driver.Get(KeyBiometricKeyId(namespace));
    }

    method DelAnonymousKeyId(namespace: string) returns (r: Result<(), AuthgearError>)
      modifies driver.keychain
      ensures Effect(r, driver.keychain.State())
              == DelEffect(old(driver.keychain.State()), KeyAnonymousKeyId(namespace))
    {
      r := driver.Del(KeyAnonymousKeyId(namespace));
    }

    method DelBiometricKeyId(namespace: string) returns (r: Result<(), AuthgearError>)
      modifies driver.keychain
      ensures Effect(r, driver.keychain.State())
              == DelEffect(old(driver.keychain.State()), KeyBiometricKeyId(namespace))
    {
      r := driver.Del(KeyBiometricKeyId(namespace));
    }
  }

  /**
   * In the transient store, setting or deleting the refresh token of one
   * namespace leaves the refresh token of every other namespace as it was.
   */
  lemma TransientNamespacesIsolated(m: map<string, string>, n1: string, n2: string, token: string)
    requires n1 != n2
    ensures Lookup(m[KeyRefreshToken(n1) := token], KeyRefreshToken(n2)) == Lookup(m, KeyRefreshToken(n2))
    ensures Lookup(m - {KeyRefreshToken(n1)}, KeyRefreshToken(n2)) == Lookup(m, KeyRefreshToken(n2))
  {
    assert Key(n1, RefreshToken) == KeyRefreshToken(n1) && Key(n2, RefreshToken) == KeyRefreshToken(n2);
    if KeyRefreshToken(n1) == KeyRefreshToken(n2) {
      KeyInjective(n1, RefreshToken, n2, RefreshToken);
    }
  }

  /**
   * In the keychain, setting or deleting the secret of one (namespace, kind)
   * leaves the secret of every other (namespace, kind) as it was, whatever
   * the keychain reports: refresh tokens of different namespaces, and the
   * three kinds of one namespace, never interfere.
   */
  lemma PersistentSecretsIsolated(s: KeychainState, n1: string, k1: SecretKind, n2: string, k2: SecretKind, value: string)
    requires n1 != n2 || k1 != k2
    ensures Lookup(SetEffect(s, Key(n1, k1), value).after.items, Key(n2, k2)) == Lookup(s.items, Key(n2, k2))
    ensures Lookup(DelEffect(s, Key(n1, k1)).after.items, Key(n2, k2)) == Lookup(s.items, Key(n2, k2))
  {
    if Key(n1, k1) == Key(n2, k2) {
      KeyInjective(n1, k1, n2, k2);
    }
    OtherKeysUntouched(s, Key(n1, k1), Key(n2, k2), value);
  }

  /** Scenario: a refresh token set in the persistent store is read back, and is gone after delete. */
  method PersistentRoundTripScenario(keychain: Keychain) returns (stored: Result<Option<string>, AuthgearError>, deleted: Result<Option<string>, AuthgearError>)
    requires NoFaultsAhead(keychain.State(), 5)
    modifies keychain
    ensures stored == Ok(Some("rt-123"))
    ensures deleted == Ok(None)
  {
    var store := new PersistentTokenStorage(keychain);
    var s0 := keychain.State();
    var setResult := store.SetRefreshToken("tenantA", "rt-123");
    SetThenGet(s0, KeyRefreshToken("tenantA"), "rt-123");
    stored := store.GetRefreshToken("tenantA");
    var s1 := keychain.State();
    NoFaultsAheadLater(s0, s1, 3, 2);
    var delResult := store.DelRefreshToken("tenantA");
    DelThenGet(s1, KeyRefreshToken("tenantA"));
    deleted := store.GetRefreshToken("tenantA");
  }

  /** Scenario: two namespaces keep their refresh tokens apart in the transient store. */
  method TwoNamespacesScenario() returns (a: Option<string>, b: Option<string>)
    ensures a == Some("x") && b == Some("y")
  {
    var store := new TransientTokenStorage();
    store.SetRefreshToken("A", "x");
    ghost var afterA := store.driver.backingStorage;
    store.SetRefreshToken("B", "y");
    TransientNamespacesIsolated(afterA, "B", "A", "y");
    a := store.GetRefreshToken("A");
    b := store.GetRefreshToken("B");
  }

  /**
   * Scenario: when the keychain write fails, setting a refresh token throws
   * the keychain's status and nothing is written.
   */
  method FailedWriteScenario(keychain: Keychain, namespace: string, token: string, code: FailureStatus)
    returns (r: Result<(), AuthgearError>)
    requires FaultAt(keychain.State(), 0).None? && FaultAt(keychain.State(), 1) == Some(code)
    modifies keychain
    ensures r == Err(OsStatus(code))
    ensures keychain.items == old(keychain.items)
  {
    var store := new PersistentTokenStorage(keychain);
    r := store.SetRefreshToken(namespace, token);
  }
}
