# Secret storage of the Authgear iOS SDK, in Dafny

This project models the storage layer of the Authgear iOS SDK (`Sources/Storage.swift`), the layer that keeps refresh tokens and key identifiers for a namespace (one application or tenant). It has four parts:

- **Key derivation** (`KeyMaker`): the storage key of a secret is `"authgear_" + namespace + suffix`. There is one suffix per kind of secret: `_refreshToken`, `_anonymousKeyID` or `_biometricKeyID`.
- **The in-memory driver** (`MemoryStorage.MemoryStorageDriver`): a dictionary changed in place that never fails.
- **The keychain driver** (`KeychainStorage`): get, set and delete over the keychain's four primitives.
  - get maps success to the value, not-found to `nil`, and any other status to the error `osStatus(status)`.
  - set is a read-before-write upsert: a get first, then an update if the item exists or an add if it does not.
  - delete treats not-found as success, so deleting twice is fine.
- **The stores** (`TokenStorage`): the transient token store over the memory driver, and the persistent token store and persistent container store over the keychain driver. Each derives a key and forwards the call.

The keychain is modelled in `SecItem` as a value, `KeychainState`, with one field for each of these:

- the items it holds;
- a failure *plan*;
- the log of primitive calls issued so far.

The class `SecItem.Keychain` holds that state and offers the four primitives as methods, and every persistent store is given the same `Keychain`. Each primitive behaves in one of two ways:

- **Normal behaviour.** Copy-matching finds the item or reports not-found. Add refuses an existing item with duplicate-item. Update and delete report not-found on a missing item.
- **Failure.** The plan can name a failure status for the n-th call ever issued. That call then answers with that status and changes nothing. Failure statuses exclude success and not-found.

`GetEffect`, `SetEffect` and `DelEffect` are the specification of one driver call: what it returns or throws, and the keychain it leaves behind. The driver's methods and the stores' methods are proved to do exactly that. The lemmas then state what sequences of calls do.

Key derivation needs no precondition on namespaces. With the suffixes the code uses, it is injective for every namespace, even one that itself contains a suffix or the prefix (`KeyMaker.KeyInjective` has no `requires`):

- `_refreshToken` ends in `n` and the other two suffixes end in `D`.
- The other two suffixes have the same length and differ.

## Model

| member | source | states |
|---|---|---|
| `KeyMaker.ScopedKey` | Sources/Storage.swift:88-90 | scopes a key to the SDK: the result starts with `authgear_`, the rest of it is the given key, and it is longer than the key by exactly the prefix |
| `KeyMaker.KeyRefreshToken` | Sources/Storage.swift:92-94 | the refresh-token key: `authgear_`, the namespace, then `_refreshToken`; it is `Key(namespace, RefreshToken)`, whose format and injectivity `KeyMaker.Key` and `KeyMaker.KeyInjective` state |
| `KeyMaker.KeyAnonymousKeyId` | Sources/Storage.swift:96-98 | the anonymous-key-ID key: `authgear_`, the namespace, then `_anonymousKeyID`; it is `Key(namespace, AnonymousKeyId)`, whose format and injectivity `KeyMaker.Key` and `KeyMaker.KeyInjective` state |
| `KeyMaker.KeyBiometricKeyId` | Sources/Storage.swift:100-102 | the biometric-key-ID key: `authgear_`, the namespace, then `_biometricKeyID`; it is `Key(namespace, BiometricKeyId)`, whose format and injectivity `KeyMaker.Key` and `KeyMaker.KeyInjective` state |
| `KeyMaker.Key` | Sources/Storage.swift:87-103 | every key is the `authgear_` prefix, the namespace and the kind's suffix, in that order |
| `KeyMaker.ParseKey` | Sources/Storage.swift:87-103 | the inverse of the key functions: whatever it recovers from a string derives that string again |
| `KeyMaker.KindOfSuffixed` | Sources/Storage.swift:92-102 | the three suffix literals can be told apart at the end of any namespace |
| `KeyMaker.ParseKeyOfKey` | Sources/Storage.swift:87-103 | parsing a derived key gives back exactly the namespace and kind it came from |
| `KeyMaker.KeyInjective` | Sources/Storage.swift:88-102 | equal keys come from equal namespaces and equal kinds: for one kind the keys of different namespaces differ, and one namespace's three keys are distinct |
| `MemoryStorage.MemoryStorageDriver.constructor` | Sources/Storage.swift:106 | a new driver holds no entries |
| `MemoryStorage.MemoryStorageDriver.Get` | Sources/Storage.swift:108-110 | returns a value exactly when the key has an entry, and then that entry's value; an absent key gives None, never an error |
| `MemoryStorage.MemoryStorageDriver.Set` | Sources/Storage.swift:112-114 | the key now maps to the value and every other entry is unchanged |
| `MemoryStorage.MemoryStorageDriver.Del` | Sources/Storage.swift:116-118 | the key's entry is removed and every other entry is unchanged |
| `MemoryStorage.MapSetThenGet` | Sources/Storage.swift:108-114 | after a set, get of that key returns the value and get of every other key is as before |
| `MemoryStorage.MapDelThenGet` | Sources/Storage.swift:108-118 | after a delete, get of that key returns None and get of every other key is as before |
| `MemoryStorage.DelAbsentIsNoOp` | Sources/Storage.swift:116-118 | deleting an absent key leaves the dictionary unchanged |
| `SecItem.Keychain.constructor` | Sources/Storage.swift:130-133 | the keychain starts with the given items and failure plan, and no calls issued |
| `SecItem.Keychain.SecItemCopyMatching` | Sources/Storage.swift:130-133 | the copy-matching primitive behaves as the keychain model says (found, not found, or the planned failure) and logs the call |
| `SecItem.Keychain.SecItemUpdate` | Sources/Storage.swift:155 | the update primitive overwrites an existing item, reports not-found otherwise, or answers with the planned failure |
| `SecItem.Keychain.SecItemAdd` | Sources/Storage.swift:163 | the add primitive creates a missing item, reports duplicate-item otherwise, or answers with the planned failure |
| `SecItem.Keychain.SecItemDelete` | Sources/Storage.swift:178 | the delete primitive removes an existing item, reports not-found otherwise, or answers with the planned failure |
| `KeychainStorage.GetEffect` | Sources/Storage.swift:122-144 | a found item gives its stored value, a missing one gives None, and a failure status is thrown as `osStatus` with that same code; the items never change |
| `KeychainStorage.SetEffect` | Sources/Storage.swift:146-171 | the existence check comes first and its error is thrown before any write. If the item exists, update is issued and add is not; if it does not exist, add is issued and update is not. It succeeds exactly when neither call fails, and then the key maps to the value. A failure throws `osStatus` with the failing call's code and writes nothing |
| `KeychainStorage.DelEffect` | Sources/Storage.swift:173-185 | completes normally whether or not the item existed, leaving the key absent; any other status is thrown as `osStatus` with that code and nothing changes |
| `KeychainStorage.NoFaultsAheadLater` | Sources/Storage.swift:146-171 | a helper for the failure plan of the keychain model: a state k calls later, with the same plan, sees the failures planned k calls further on |
| `KeychainStorage.SetThenGet` | Sources/Storage.swift:122-171 | with no failures, set followed by get returns the value that was set |
| `KeychainStorage.Upsert` | Sources/Storage.swift:146-171 | with no failures, setting twice succeeds both times, the second set takes the update branch, and get returns the second value |
| `KeychainStorage.DelAbsentSucceeds` | Sources/Storage.swift:173-185 | deleting a key without an item completes normally and changes nothing |
| `KeychainStorage.DelThenGet` | Sources/Storage.swift:122-185 | with no failures, get after delete returns None |
| `KeychainStorage.OtherKeysUntouched` | Sources/Storage.swift:146-185 | whatever the keychain reports, set and delete of one key never change another key's item |
| `KeychainStorage.KeychainStorageDriver.constructor` | Sources/Storage.swift:121 | the driver talks to the given keychain |
| `KeychainStorage.KeychainStorageDriver.Get` | Sources/Storage.swift:122-144 | returns, throws and leaves the keychain exactly as `GetEffect` says |
| `KeychainStorage.KeychainStorageDriver.Set` | Sources/Storage.swift:146-171 | returns, throws and leaves the keychain exactly as `SetEffect` says |
| `KeychainStorage.KeychainStorageDriver.Del` | Sources/Storage.swift:173-185 | returns, throws and leaves the keychain exactly as `DelEffect` says |
| `TokenStorage.TransientTokenStorage.constructor` | Sources/Storage.swift:20-24 | a new transient store has its own empty memory driver |
| `TokenStorage.TransientTokenStorage.SetRefreshToken` | Sources/Storage.swift:26-28 | the refresh-token key of the namespace now maps to the token; nothing else changes |
| `TokenStorage.TransientTokenStorage.GetRefreshToken` | Sources/Storage.swift:30-32 | returns the entry under the namespace's refresh-token key, or None |
| `TokenStorage.TransientTokenStorage.DelRefreshToken` | Sources/Storage.swift:34-36 | removes only the namespace's refresh-token entry |
| `TokenStorage.PersistentTokenStorage.constructor` | Sources/Storage.swift:39-43 | a new persistent store has its own driver over the shared keychain |
| `TokenStorage.PersistentTokenStorage.SetRefreshToken` | Sources/Storage.swift:45-47 | is the keychain set of the namespace's refresh-token key |
| `TokenStorage.PersistentTokenStorage.GetRefreshToken` | Sources/Storage.swift:49-51 | is the keychain get of the namespace's refresh-token key |
| `TokenStorage.PersistentTokenStorage.DelRefreshToken` | Sources/Storage.swift:53-55 | is the keychain delete of the namespace's refresh-token key |
| `TokenStorage.PersistentContainerStorage.constructor` | Sources/Storage.swift:58-60 | a new container store has its own driver over the shared keychain |
| `TokenStorage.PersistentContainerStorage.SetAnonymousKeyId` | Sources/Storage.swift:62-64 | is the keychain set of the namespace's anonymous-key-ID key |
| `TokenStorage.PersistentContainerStorage.SetBiometricKeyId` | Sources/Storage.swift:66-68 | is the keychain set of the namespace's biometric-key-ID key |
| `TokenStorage.PersistentContainerStorage.GetAnonymousKeyId` | Sources/Storage.swift:70-72 | is the keychain get of the namespace's anonymous-key-ID key |
| `TokenStorage.PersistentContainerStorage.GetBiometricKeyId` | Sources/Storage.swift:74-76 | is the keychain get of the namespace's biometric-key-ID key |
| `TokenStorage.PersistentContainerStorage.DelAnonymousKeyId` | Sources/Storage.swift:78-80 | is the keychain delete of the namespace's anonymous-key-ID key |
| `TokenStorage.PersistentContainerStorage.DelBiometricKeyId` | Sources/Storage.swift:82-84 | is the keychain delete of the namespace's biometric-key-ID key |
| `TokenStorage.TransientNamespacesIsolated` | Sources/Storage.swift:26-36 | in the transient store, set and delete of one namespace's refresh token leave every other namespace's token as it was |
| `TokenStorage.PersistentSecretsIsolated` | Sources/Storage.swift:45-84 | in the keychain, set and delete of one (namespace, kind) secret leave every other (namespace, kind) secret as it was, whatever the keychain reports. This covers refresh tokens of two namespaces, and the anonymous and biometric key IDs of one namespace |
| `TokenStorage.PersistentRoundTripScenario` | Sources/Storage.swift:45-55 | with no keychain failures, `setRefreshToken("tenantA", "rt-123")` is read back as `"rt-123"`, and after `delRefreshToken` it reads as None |
| `TokenStorage.TwoNamespacesScenario` | Sources/Storage.swift:26-32 | refresh tokens set for namespaces `A` and `B` are read back independently |
| `TokenStorage.FailedWriteScenario` | Sources/Storage.swift:45-47 | when the keychain write fails, setting a refresh token throws that status and writes nothing |

## Left out

- The keychain query dictionaries (`kSecClass`, `kSecAttrAccount`, `kSecMatchLimit`, `kSecReturnData`), the bridging to `CFDictionary` and the pointer passing are left out. The keychain is addressed by account name through four abstract primitives that return a status.
- The UTF-8 conversions between `String` and `Data` are left out, and so are the crashes of their force-unwraps. Values are stored as strings directly, so the model has no decode failure.
- Failures of the keychain other than not-found and duplicate-item are not derived from anything. They come from the failure plan, because their causes (a locked device, missing entitlements) lie outside the SDK.
- Concurrency is left out, including the window between the existence check and the add or update in set. Every call is atomic and sequential. So set never meets not-found from update, and it meets duplicate-item from add only when the plan names that status. In particular the model's set never throws `osStatus(errSecItemNotFound)`, which the source's set throws when the item disappears between the check and the update.
- The keychain is one process-wide service in the source. Here it is a `Keychain` object passed to the persistent stores' constructors. The stores' own argument-less initialisers create their drivers over that same global service.
- The protocols `TokenStorage` and `ContainerStorage` (Sources/Storage.swift:4-18) have no Dafny counterpart, because the model has no interfaces. Each store class has the methods of its protocol.
- `AuthgearError` is defined outside this file. Only its `osStatus` case is modelled, as `KeychainStorage.AuthgearError.OsStatus`.
- TokenStorage.TransientTokenStorage.SetRefreshToken: it returns no error result, although the protocol's methods are declared `throws`. The memory driver never throws, so the result types state that nothing can fail. The same holds for `GetRefreshToken`, for `DelRefreshToken` and for the memory driver's methods.
- Keys and namespaces are compared character by character, as Dafny strings are sequences of characters. Swift's `String` equality, which also decides `[String: String]` keys, treats canonically equivalent strings as equal (for example `"Caf\u{E9}"` and `"Cafe\u{301}"`); that comparison is not modelled. The isolation lemmas (`TokenStorage.TransientNamespacesIsolated`, `TokenStorage.PersistentSecretsIsolated`, `KeyMaker.KeyInjective`) are about namespaces that differ as character sequences.
