/**
 * The browser's persisted key-value store (`localStorage`) as the shell sees it:
 * the session user, the bearer credential derived from the stored token, and
 * the session teardown performed on logout.
 */
module Session {
  import opened Wrappers

  /** `localStorage`: string keys to string values. */
  type Storage = map<string, string>

  const TokenKey: string := "token"
  const UserKey: string := "user"
  const BearerPrefix: string := "Bearer "
  const AuthorizationHeader: string := "Authorization"

  /** The stored identity record once parsed; `createdAt` is only displayed and is not modelled. */
  datatype User = User(id: string, name: string, role: string)

  /** `localStorage.getItem(key)`: the stored value, or `null` when the key is absent. */
  function GetItem(s: Storage, key: string): (r: Option<string>)
    ensures r.Some? <==> key in s
    ensures r.Some? ==> r.value == s[key]
  {
    if key in s then Some(s[key]) else None
  }

  /** JavaScript truthiness of a `getItem` result: `null` and `""` are falsy. */
  predicate Truthy(v: Option<string>)
  {
    v.Some? && v.value != ""
  }

  /**
   * The raw text `JSON.parse` receives for the user record: the stored item,
   * or the text `"null"` when the item is absent or empty (`getItem(...) || "null"`).
   */
  function UserText(s: Storage): (t: string)
    ensures Truthy(GetItem(s, UserKey)) ==> t == s[UserKey]
    ensures !Truthy(GetItem(s, UserKey)) ==> t == "null"
  {
    var v := GetItem(s, UserKey);
    if Truthy(v) then v.value else "null"
  }

  /**
   * What the caller may pass as the parsed user for store `s`: when the item is
   * absent or empty the parser is given `"null"`, so the user must be absent.
   */
  predicate ParsedFrom(s: Storage, parsed: Option<User>)
  {
    UserText(s) == "null" ==> parsed.None?
  }

  /** An axios request configuration: either `{}` or `{ headers: {...} }`. */
  datatype RequestConfig = RequestConfig(headers: Option<map<string, string>>)

  /** `getAuthHeaders`: a Bearer header exactly when a truthy token is stored. */
  function AuthHeaders(s: Storage): (c: RequestConfig)
    ensures c.headers.Some? <==> (TokenKey in s && s[TokenKey] != "")
    ensures c.headers.Some? ==>
              c.headers.value.Keys == {AuthorizationHeader}
              && c.headers.value[AuthorizationHeader] == BearerPrefix + s[TokenKey]
  {
    var token := GetItem(s, TokenKey);
    if Truthy(token) then RequestConfig(Some(map[AuthorizationHeader := BearerPrefix + token.value]))
    else RequestConfig(None)
  }

  /** The credential carried by an `Authorization` value, if it is a Bearer value. */
  function BearerToken(value: string): (t: Option<string>)
    ensures t.Some? <==> BearerPrefix <= value
    ensures t.Some? ==> BearerPrefix + t.value == value
  {
    if BearerPrefix <= value then Some(value[|BearerPrefix|..]) else None
  }

  /** The header built by `AuthHeaders` carries back exactly the stored token. */
  lemma AuthHeaderCarriesToken(s: Storage)
    requires AuthHeaders(s).headers.Some?
    ensures BearerToken(AuthHeaders(s).headers.value[AuthorizationHeader]) == Some(s[TokenKey])
  {
    var v := BearerPrefix + s[TokenKey];
    assert v[..|BearerPrefix|] == BearerPrefix;
    assert v[|BearerPrefix|..] == s[TokenKey];
  }

  /** `localStorage.removeItem(key)`: the key is gone, every other entry is kept. */
  function RemoveItem(s: Storage, key: string): (r: Storage)
    ensures r.Keys == s.Keys - {key}
    ensures forall k :: k in r ==> r[k] == s[k]
  {
    s - {key}
  }

  /** The two removals of `handleLogout`: the token and then the user record. */
  function ClearSession(s: Storage): (r: Storage)
    ensures r.Keys == s.Keys - {TokenKey, UserKey}
    ensures forall k :: k in r ==> r[k] == s[k]
  {
    RemoveItem(RemoveItem(s, TokenKey), UserKey)
  }

  /** Clearing the session twice leaves the same store as clearing it once. */
  lemma ClearSessionIdempotent(s: Storage)
    ensures ClearSession(ClearSession(s)) == ClearSession(s)
  {
  }

  /** After logout no credential is sent and the parsed user must be absent. */
  lemma ClearSessionEndsSession(s: Storage, parsed: Option<User>)
    requires ParsedFrom(ClearSession(s), parsed)
    ensures AuthHeaders(ClearSession(s)).headers.None?
    ensures GetItem(ClearSession(s), TokenKey).None? && GetItem(ClearSession(s), UserKey).None?
    ensures parsed.None?
  {
  }
}
