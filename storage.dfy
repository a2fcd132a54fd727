/**
 * The browser's page-scoped key/value store (`localStorage`) and the fixed keys the
 * dashboard reads and writes. Every value is a string; booleans are written through
 * JavaScript's string conversion and read back by comparing with the literal "true".
 */
module BrowserStorage {
  import opened Wrappers

  const AuthToken := "authToken"
  const RefreshToken := "refreshToken"
  const User := "user"
  const DarkMode := "darkMode"
  const Notifications := "notifications"
  const MuteAlerts := "muteAlerts"
  const UserEmail := "userEmail"

  /** `String(b)`: what `localStorage.setItem(key, b)` stores for a boolean. */
  function BoolString(b: bool): (s: string)
    ensures s == "true" || s == "false"
  {
    if b then "true" else "false"
  }

  /** `localStorage.getItem(key) === "true"` on the storage contents `items`. */
  predicate StoredTrue(items: map<string, string>, key: string)
  {
    key in items && items[key] == "true"
  }

  /** A boolean written with `setItem` reads back as itself. */
  lemma BoolRoundTrip(items: map<string, string>, key: string, b: bool)
    ensures StoredTrue(items[key := BoolString(b)], key) <==> b
  {
  }

  /**
   * `!localStorage.getItem("authToken")` is false: the key is present and its value is
   * not the empty string (both `null` and `""` are falsy).
   */
  predicate HasToken(items: map<string, string>)
  {
    AuthToken in items && items[AuthToken] != ""
  }

  /** The `localStorage` object: a mutable map from keys to strings. */
  class LocalStorage {
    var items: map<string, string>

    constructor (initial: map<string, string>)
      ensures items == initial
    {
      items := initial;
    }

    /** `getItem(key)`: the stored string, or `null` when the key is absent. */
    function GetItem(key: string): (r: Option<string>)
      reads this
      ensures r.Some? <==> key in items
      ensures r.Some? ==> r.value == items[key]
    {
      if key in items then Some(items[key]) else None
    }

    method SetItem(key: string, value: string)
      modifies this
      ensures items == old(items)[key := value]
    {
      items := items[key := value];
    }

    method RemoveItem(key: string)
      modifies this
      ensures items == old(items) - {key}
    {
      items := items - {key};
    }
  }
}
