/**
 * The operating system's secure-item service (the keychain), as the storage
 * driver sees it: four primitives over generic-password items addressed by
 * account name, each answering with a 32-bit status code.
 *
 * Which calls fail for reasons the driver cannot see (a locked device, a
 * denied entitlement) is not known to the model: it is an oracle, the
 * `plan`, that names for the n-th primitive call ever issued either nothing
 * (the service behaves normally) or the failure status it answers with.
 */
module SecItem {
  import opened Wrappers

  /** Security framework statuses are signed 32-bit integers. */
  newtype OSStatus = x: int | -0x8000_0000 <= x < 0x8000_0000

  const ERR_SEC_SUCCESS: OSStatus := 0
  const ERR_SEC_ITEM_NOT_FOUND: OSStatus := -25300
  const ERR_SEC_DUPLICATE_ITEM: OSStatus := -25299

  /** A status other than success and not-found: what an unforeseen failure reports. */
  type FailureStatus = s: OSStatus | s != 0 && s != -25300 witness -1

  /** A primitive call issued to the service. */
  datatype Call =
    | CopyMatching(key: string)
    | Add(key: string, value: string)
    | Update(key: string, value: string)
    | Delete(key: string)

  /** The items held, the failure plan, and every call issued so far. */
  datatype KeychainState = KeychainState(
    items: map<string, string>,
    plan: seq<Option<FailureStatus>>,
    log: seq<Call>)

  /** The failure planned for the i-th call from now, if any. */
  function FaultAt(s: KeychainState, i: nat): Option<FailureStatus>
  {
    if |s.log| + i < |s.plan| then s.plan[|s.log| + i] else None
  }

  /** None of the next n calls fails unforeseen. */
  predicate NoFaultsAhead(s: KeychainState, n: nat)
  {
    forall i: nat :: i < n ==> FaultAt(s, i).None?
  }

  /** What a primitive answers: its status, the payload found (CopyMatching only), the new state. */
  datatype Reply = Reply(status: OSStatus, data: Option<string>, next: KeychainState)

  function Issue(s: KeychainState, c: Call): KeychainState
  {
    s.(log := s.log + [c])
  }

  /** Finds the item of `key` and returns its payload. */
  function CopyMatchingStep(s: KeychainState, key: string): Reply
  {
    var next := Issue(s, CopyMatching(key));
    match FaultAt(s, 0)
    case Some(f) => Reply(f, None, next)
    case None =>
      if key in s.items then Reply(ERR_SEC_SUCCESS, Some(s.items[key]), next)
      else Reply(ERR_SEC_ITEM_NOT_FOUND, None, next)
  }

  /** Creates the item of `key`; refuses when it already exists. */
  function AddStep(s: KeychainState, key: string, value: string): Reply
  {
    var next := Issue(s, Add(key, value));
    match FaultAt(s, 0)
    case Some(f) => Reply(f, None, next)
    case None =>
      if key in s.items then Reply(ERR_SEC_DUPLICATE_ITEM, None, next)
      else Reply(ERR_SEC_SUCCESS, None, next.(items := s.items[key := value]))
  }

  /** Overwrites the payload of the item of `key`; refuses when there is none. */
  function UpdateStep(s: KeychainState, key: string, value: string): Reply
  {
    var next := Issue(s, Update(key, value));
    match FaultAt(s, 0)
    case Some(f) => Reply(f, None, next)
    case None =>
      if key in s.items then Reply(ERR_SEC_SUCCESS, None, next.(items := s.items[key := value]))
      else Reply(ERR_SEC_ITEM_NOT_FOUND, None, next)
  }

  /** Removes the item of `key`; reports not-found when there is none. */
  function DeleteStep(s: KeychainState, key: string): Reply
  {
    var next := Issue(s, Delete(key));
    match FaultAt(s, 0)
    case Some(f) => Reply(f, None, next)
    case None =>
      if key in s.items then Reply(ERR_SEC_SUCCESS, None, next.(items := s.items - {key}))
      else Reply(ERR_SEC_ITEM_NOT_FOUND, None, next)
  }

  /** The keychain itself: one shared, mutable service object. */
  class Keychain {
    var items: map<string, string>
    const plan: seq<Option<FailureStatus>>
    var log: seq<Call>

    function State(): KeychainState
      reads this
    {
      KeychainState(items, plan, log)
    }

    constructor(items: map<string, string>, plan: seq<Option<FailureStatus>>)
      ensures State() == KeychainState(items, plan, [])
    {
      this.items := items;
      this.plan := plan;
      this.log := [];
    }

    method SecItemCopyMatching(key: string) returns (status: OSStatus, data: Option<string>)
      modifies this
      ensures Reply(status, data, State()) == CopyMatchingStep(old(State()), key)
    {
      var fault := FaultAt(State(), 0);
      log := log + [CopyMatching(key)];
      if fault.Some? {
        status, data := fault.value, None;
      } else if key in items {
        status, data := ERR_SEC_SUCCESS, Some(items[key]);
      } else {
        status, data := ERR_SEC_ITEM_NOT_FOUND, None;
      }
    }

    method SecItemAdd(key: string, value: string) returns (status: OSStatus)
      modifies this
      ensures Reply(status, None, State()) == AddStep(old(State()), key, value)
    {
      var fault := FaultAt(State(), 0);
      log := log + [Add(key, value)];
      if fault.Some? {
        status := fault.value;
      } else if key in items {
        status := ERR_SEC_DUPLICATE_ITEM;
      } else {
        items := items[key := value];
        status := ERR_SEC_SUCCESS;
      }
    }

    method SecItemUpdate(key: string, value: string) returns (status: OSStatus)
      modifies this
      ensures Reply(status, None, State()) == UpdateStep(old(State()), key, value)
    {
      var fault := FaultAt(State(), 0);
      log := log + [Update(key, value)];
      if fault.Some? {
        status := fault.value;
      } else if key in items {
        items := items[key := value];
        status := ERR_SEC_SUCCESS;
      } else {
        status := ERR_SEC_ITEM_NOT_FOUND;
      }
    }

    method SecItemDelete(key: string) returns (status: OSStatus)
      modifies this
      ensures Reply(status, None, State()) == DeleteStep(old(State()), key)
    {
      var fault := FaultAt(State(), 0);
      log := log + [Delete(key)];
      if fault.Some? {
        status := fault.value;
      } else if key in items {
        items := items - {key};
        status := ERR_SEC_SUCCESS;
      } else {
        status := ERR_SEC_ITEM_NOT_FOUND;
      }
    }
  }
}
