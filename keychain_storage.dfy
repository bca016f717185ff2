/**
 * The keychain driver: get, set and delete of string values over the
 * keychain's primitives, with its read-before-write upsert and the mapping
 * of statuses to values, to absence or to errors.
 *
 * GetEffect, SetEffect and DelEffect say what one call of the driver does to
 * the keychain and what it returns; the driver's methods are proved to do
 * exactly that, and the lemmas below say what sequences of calls do.
 */
module KeychainStorage {
  import opened Wrappers
  import opened SecItem

  /** The one error this layer raises: a status the keychain reported, carried unchanged. */
  datatype AuthgearError = OsStatus(status: OSStatus)

  /** What a call returns or throws, and the keychain it leaves behind. */
  datatype Effect<T> = Effect(result: Result<T, AuthgearError>, after: KeychainState)

  /**
   * get: success gives the stored value, not-found gives None, any other
   * status is thrown; the items are never changed.
   */
  function GetEffect(s: KeychainState, key: string): (e: Effect<Option<string>>)
    ensures e.after == Issue(s, CopyMatching(key))
    ensures FaultAt(s, 0).None? ==> e.result == Ok(Lookup(s.items, key))
    ensures FaultAt(s, 0).Some? ==> e.result == Err(OsStatus(FaultAt(s, 0).value))
  {
    var reply := CopyMatchingStep(s, key);
    if reply.status == ERR_SEC_SUCCESS then Effect(Ok(reply.data), reply.next)
    else if reply.status == ERR_SEC_ITEM_NOT_FOUND then Effect(Ok(None), reply.next)
    else Effect(Err(OsStatus(reply.status)), reply.next)
  }

  /**
   * set: a get first (its error propagates before anything is written), then
   * update when the item exists and add when it does not; any status but
   * success is thrown. On success the key maps to the value; on failure the
   * items are as they were.
   */
  function SetEffect(s: KeychainState, key: string, value: string): (e: Effect<()>)
    ensures e.after.plan == s.plan
    ensures e.result.Ok? <==> FaultAt(s, 0).None? && FaultAt(s, 1).None?
    ensures e.result.Ok? ==> e.after.items == s.items[key := value]
    ensures e.result.Err? ==> e.after.items == s.items
    ensures FaultAt(s, 0).Some? ==>
              e.result == Err(OsStatus(FaultAt(s, 0).value)) && e.after.log == s.log + [CopyMatching(key)]
    ensures FaultAt(s, 0).None? && FaultAt(s, 1).Some? ==>
              e.result == Err(OsStatus(FaultAt(s, 1).value))
    ensures FaultAt(s, 0).None? && key in s.items ==>
              e.after.log == s.log + [CopyMatching(key), Update(key, value)]
    ensures FaultAt(s, 0).None? && key !in s.items ==>
              e.after.log == s.log + [CopyMatching(key), Add(key, value)]
  {
    var existing := GetEffect(s, key);
    match existing.result
    case Err(error) => Effect(Err(error), existing.after)
    case Ok(found) =>
      var reply := if found.Some? then UpdateStep(existing.after, key, value)
                   else AddStep(existing.after, key, value);
      if reply.status == ERR_SEC_SUCCESS then Effect(Ok(()), reply.next)
      else Effect(Err(OsStatus(reply.status)), reply.next)
  }

  /**
   * del: success and not-found both complete normally, so deleting is
   * idempotent; any other status is thrown. Afterwards the key is absent
   * unless the delete failed, in which case nothing changed.
   */
  function DelEffect(s: KeychainState, key: string): (e: Effect<()>)
    ensures e.after.plan == s.plan && e.after.log == s.log + [Delete(key)]
    ensures e.result.Ok? <==> FaultAt(s, 0).None?
    ensures e.result.Ok? ==> e.after.items == s.items - {key}
    ensures e.result.Err? ==> e.after.items == s.items && e.result.error == OsStatus(FaultAt(s, 0).value)
  {
    var reply := DeleteStep(s, key);
    if reply.status == ERR_SEC_SUCCESS || reply.status == ERR_SEC_ITEM_NOT_FOUND then Effect(Ok(()), reply.next)
    else Effect(Err(OsStatus(reply.status)), reply.next)
  }

  /** A state k calls later with the same plan sees the plan k places further on. */
  lemma NoFaultsAheadLater(s: KeychainState, t: KeychainState, k: nat, n: nat)
    requires t.plan == s.plan && |t.log| == |s.log| + k
    requires NoFaultsAhead(s, k + n)
    ensures NoFaultsAhead(t, n)
  {
    forall i: nat | i < n
      ensures FaultAt(t, i).None?
    {
      assert FaultAt(t, i) == FaultAt(s, k + i);
    }
  }

  /** With no failures, a value that was set is what get returns. */
  lemma SetThenGet(s: KeychainState, key: string, value: string)
    requires NoFaultsAhead(s, 3)
    ensures SetEffect(s, key, value).result == Ok(())
    ensures GetEffect(SetEffect(s, key, value).after, key).result == Ok(Some(value))
  {
    assert FaultAt(s, 0).None? && FaultAt(s, 1).None?;
    var e := SetEffect(s, key, value);
    NoFaultsAheadLater(s, e.after, 2, 1);
    assert FaultAt(e.after, 0).None?;
  }

  /**
   * The upsert: with no failures, setting a key twice succeeds both times,
   * the second set updates the existing item instead of adding one, and get
   * then returns the second value.
   */
  lemma Upsert(s: KeychainState, key: string, v1: string, v2: string)
    requires NoFaultsAhead(s, 5)
    ensures var first := SetEffect(s, key, v1);
            var second := SetEffect(first.after, key, v2);
            && first.result == Ok(())
            && second.result == Ok(())
            && second.after.log == first.after.log + [CopyMatching(key), Update(key, v2)]
            && GetEffect(second.after, key).result == Ok(Some(v2))
  {
    assert FaultAt(s, 0).None? && FaultAt(s, 1).None?;
    var first := SetEffect(s, key, v1);
    NoFaultsAheadLater(s, first.after, 2, 3);
    assert FaultAt(first.after, 0).None? && FaultAt(first.after, 1).None?;
    var second := SetEffect(first.after, key, v2);
    NoFaultsAheadLater(first.after, second.after, 2, 1);
    assert FaultAt(second.after, 0).None?;
  }

  /** Deleting a key that has no item completes normally and changes nothing. */
  lemma DelAbsentSucceeds(s: KeychainState, key: string)
    requires FaultAt(s, 0).None? && key !in s.items
    ensures DelEffect(s, key).result == Ok(())
    ensures DelEffect(s, key).after.items == s.items
  {
  }

  /** With no failures, get after delete returns None, whether or not the item existed. */
  lemma DelThenGet(s: KeychainState, key: string)
    requires NoFaultsAhead(s, 2)
    ensures DelEffect(s, key).result == Ok(())
    ensures GetEffect(DelEffect(s, key).after, key).result == Ok(None)
  {
    assert FaultAt(s, 0).None?;
    var e := DelEffect(s, key);
    NoFaultsAheadLater(s, e.after, 1, 1);
    assert FaultAt(e.after, 0).None?;
  }

  /** Whatever the keychain reports, set and delete of one key leave every other key's item alone. */
  lemma OtherKeysUntouched(s: KeychainState, key: string, other: string, value: string)
    requires key != other
    ensures Lookup(SetEffect(s, key, value).after.items, other) == Lookup(s.items, other)
    ensures Lookup(DelEffect(s, key).after.items, other) == Lookup(s.items, other)
  {
  }

  /** The driver; its only state is the keychain it talks to. */
  class KeychainStorageDriver {
    const keychain: Keychain

    constructor(keychain: Keychain)
      ensures this.keychain == keychain
    {
      this.keychain := keychain;
    }

    method Get(key: string) returns (r: Result<Option<string>, AuthgearError>)
      modifies keychain
      ensures Effect(r, keychain.State()) == GetEffect(old(keychain.State()), key)
    {
      var status, data := keychain.SecItemCopyMatching(key);
      if status == ERR_SEC_SUCCESS {
        r := Ok(data);
      } else if status == ERR_SEC_ITEM_NOT_FOUND {
        r := Ok(None);
      } else {
        r := Err(OsStatus(status));
      }
    }

    method Set(key: string, value: string) returns (r: Result<(), AuthgearError>)
      modifies keychain
      ensures Effect(r, keychain.State()) == SetEffect(old(keychain.State()), key, value)
    {
      var existing := Get(key);
      if existing.Err? {
        return Err(existing.error);
      }
      var status: OSStatus;
      if existing.value.Some? {
        status := keychain.SecItemUpdate(key, value);
      } else {
        status := keychain.SecItemAdd(key, value);
      }
      if status == ERR_SEC_SUCCESS {
        r := Ok(());
      } else {
        r := Err(OsStatus(status));
      }
    }

    method Del(key: string) returns (r: Result<(), AuthgearError>)
      modifies keychain
      ensures Effect(r, keychain.State()) == DelEffect(old(keychain.State()), key)
    {
      var status := keychain.SecItemDelete(key);
      if status == ERR_SEC_SUCCESS || status == ERR_SEC_ITEM_NOT_FOUND {
        r := Ok(());
      } else {
        r := Err(OsStatus(status));
      }
    }
  }
}
