/**
 * AsyncStorage, the device's persistent key-value store, as a map of
 * strings that its owner's methods rewrite, and the three keys the app
 * keeps there.
 */
module Storage {
  import opened Wrappers

  const USER_TOKEN := "userToken"
  const REFRESH_TOKEN := "refreshToken"
  const USER_INFO := "userInfo"

  /** The keys a failed token refresh removes. */
  const SessionKeys := {USER_TOKEN, REFRESH_TOKEN, USER_INFO}

  /** JavaScript truthiness of a string that may be `null`: present and non-empty. */
  predicate HasText(s: Option<string>) {
    s.Some? && s.value != ""
  }

  class Store {
    var items: map<string, string>

    constructor(initial: map<string, string>)
      ensures items == initial
    {
      items := initial;
    }

    /** `getItem(key)`: `null` for a missing key. */
    function GetItem(key: string): (r: Option<string>)
      reads this
      ensures r.Some? <==> key in items
      ensures r.Some? ==> r.value == items[key]
    {
      if key in items then Some(items[key]) else None
    }

    method SetItem(key: string, value: string)
      modifies this
      ensures items == old(items)[key := value]
    {
      items := items[key := value];
    }

    method RemoveItem(key: string)
      modifies this
      ensures items == old(items) - {key}
    {
      items := items - {key};
    }
  }

  /**
   * Where a sequence of storage calls throws: `ThrowsAt(i)` means calls
   * `0 .. i-1` complete and call `i` raises.
   */
  datatype Fault = NoFault | ThrowsAt(call: nat)

  /** Storage call number `i` completes under `f`. */
  predicate Completes(f: Fault, i: nat) {
    f.NoFault? || i < f.call
  }
}
