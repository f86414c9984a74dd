/** The browser's `localStorage` and `sessionStorage`: string keys mapped to
    string values, changed in place by `setItem` and `removeItem`. */
module Storage {
  import opened Wrappers
  import opened Text

  class WebStorage {
    var items: map<string, string>

    constructor (initial: map<string, string>)
      ensures items == initial
    {
      items := initial;
    }

    /** `getItem(key)`: the stored value, or null. */
    function GetItem(key: string): (r: Option<string>)
      reads this
      ensures r.Some? <==> key in items
      ensures r.Some? ==> r.value == items[key]
    {
      if key in items then Some(items[key]) else None
    }

    method SetItem(key: string, value: string)
      modifies this
      ensures items == old(items)[key := value]
    {
      items := items[key := value];
    }

    method RemoveItem(key: string)
      modifies this
      ensures items == old(items) - {key}
    {
      items := items - {key};
    }

    /** `Object.keys(storage).forEach(k => k.startsWith(prefix) && removeItem(k))`:
        one pass over the keys present when it starts. */
    method RemovePrefixed(prefix: string)
      modifies this
      ensures items == WithoutPrefix(old(items), prefix)
    {
      var keys := items.Keys;
      while keys != {}
        invariant keys <= old(items).Keys
        invariant items == map k | k in old(items) && (k in keys || !StartsWith(k, prefix)) :: old(items)[k]
        decreases |keys|
      {
        var key :| key in keys;
        if StartsWith(key, prefix) {
          RemoveItem(key);
        }
        keys := keys - {key};
      }
    }
  }

  /** The entries of `m` whose key does not start with `prefix`. */
  function WithoutPrefix(m: map<string, string>, prefix: string): map<string, string> {
    map k | k in m && !StartsWith(k, prefix) :: m[k]
  }

  /** A `getItem` result as a JavaScript condition sees it: null and "" are false. */
  predicate IsTruthy(v: Option<string>) {
    v.Some? && v.value != ""
  }

  /** `getItem(key) || fallback`. */
  function ItemOr(v: Option<string>, fallback: string): (r: string)
    ensures IsTruthy(v) ==> r == v.value
    ensures !IsTruthy(v) ==> r == fallback
  {
    if IsTruthy(v) then v.value else fallback
  }

  const AuthPrefix := "auth_"

  /** Where the page that sent a user to log in wants them back. */
  const PostLoginRedirectKey := "postLoginRedirect"

  /** The quiz answers kept while a signed-out user logs in. */
  const PendingAnswersKey := "pendingQuizAnswers"

  /** The local-storage entries that survive the sign-out cleanup. */
  function ClearedLocal(m: map<string, string>): map<string, string> {
    WithoutPrefix(m - {"auth_token", "user_id"}, AuthPrefix)
  }

  /** The session-storage entries that survive the sign-out cleanup. */
  function ClearedSession(m: map<string, string>): map<string, string> {
    WithoutPrefix(m - {"session_id"}, AuthPrefix)
  }

  /** The cleanup shared by `logout` and the 401/419 response handler: the
      token and user id from local storage, the session id from session
      storage, and every "auth_" key from both. */
  method ClearAuthKeys(local: WebStorage, session: WebStorage)
    requires local != session
    modifies local, session
    ensures local.items == ClearedLocal(old(local.items))
    ensures session.items == ClearedSession(old(session.items))
  {
    local.RemoveItem("auth_token");
    local.RemoveItem("user_id");
    session.RemoveItem("session_id");
    local.RemovePrefixed(AuthPrefix);
    session.RemovePrefixed(AuthPrefix);
  }

  /** After the cleanup no authentication key is left, and every other entry
      is still there with its value. */
  lemma ClearedKeys(m: map<string, string>)
    ensures forall k :: k in ClearedLocal(m) ==> !StartsWith(k, AuthPrefix) && k != "user_id" && ClearedLocal(m)[k] == m[k]
    ensures forall k :: k in m && !StartsWith(k, AuthPrefix) && k != "user_id" && k != "auth_token" ==> k in ClearedLocal(m)
    ensures forall k :: k in ClearedSession(m) ==> !StartsWith(k, AuthPrefix) && k != "session_id" && ClearedSession(m)[k] == m[k]
    ensures forall k :: k in m && !StartsWith(k, AuthPrefix) && k != "session_id" ==> k in ClearedSession(m)
  {
  }

  /** Running the cleanup again changes nothing. */
  lemma ClearIdempotent(m: map<string, string>)
    ensures ClearedLocal(ClearedLocal(m)) == ClearedLocal(m)
    ensures ClearedSession(ClearedSession(m)) == ClearedSession(m)
  {
  }
}
