/**
 * The in-memory driver: a dictionary from storage key to value, changed in
 * place, that lives as long as the process and never fails.
 */
module MemoryStorage {
  import opened Wrappers

  class MemoryStorageDriver {
    var backingStorage: map<string, string>

    constructor()
      ensures backingStorage == map[]
    {
      backingStorage := map[];
    }

    /** The value stored under `key`; an absent key gives None, not an error. */
    method Get(key: string) returns (r: Option<string>)
      ensures r.Some? <==> key in backingStorage
      ensures r.Some? ==> r.value == backingStorage[key]
    {
      if key in backingStorage {
        r := Some(backingStorage[key]);
      } else {
        r := None;
      }
    }

    /** Stores `value` under `key`, replacing any earlier value; no other entry changes. */
    method Set(key: string, value: string)
      modifies this
      ensures backingStorage == old(backingStorage)[key := value]
    {
      backingStorage := backingStorage[key := value];
    }

    /** Removes the entry of `key`, if there is one; no other entry changes. */
    method Del(key: string)
      modifies this
      ensures backingStorage == old(backingStorage) - {key}
    {
      backingStorage := backingStorage - {key};
    }
  }

  /** After a set, a get of that key returns the value and every other key reads as before. */
  lemma MapSetThenGet(m: map<string, string>, key: string, value: string)
    ensures Lookup(m[key := value], key) == Some(value)
    ensures forall other :: other != key ==> Lookup(m[key := value], other) == Lookup(m, other)
  {
  }

  /** After a delete, a get of that key returns None and every other key reads as before. */
  lemma MapDelThenGet(m: map<string, string>, key: string)
    ensures Lookup(m - {key}, key) == None
    ensures forall other :: other != key ==> Lookup(m - {key}, other) == Lookup(m, other)
  {
  }

  /** Deleting an absent key leaves the dictionary as it was. */
  lemma DelAbsentIsNoOp(m: map<string, string>, key: string)
    requires key !in m
    ensures m - {key} == m
  {
  }
}
