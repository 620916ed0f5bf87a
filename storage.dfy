/**
 * AsyncStorage, the device's durable key-value store, as a map from keys to
 * strings. Reads return `null` for a missing key.
 */
module Storage {
  import opened Wrappers
  import opened JsStrings

  type Store = map<string, string>

  const AccessTokenKey: string := "accessToken"
  const RefreshTokenKey: string := "refreshToken"

  /** `AsyncStorage.getItem(key)`. */
  function GetItem(store: Store, key: string): (r: Option<string>)
    ensures r.Some? <==> key in store
    ensures r.Some? ==> r.value == store[key]
  {
    if key in store then Some(store[key]) else None
  }

  /** The client's token test: the stored value passes `if (token)`, so it is present and non-empty. */
  predicate HasToken(store: Store, key: string) {
    Truthy(GetItem(store, key))
  }

  /** `AsyncStorage.multiSet` of the two tokens; every other key keeps its value. */
  function SetTokens(store: Store, accessToken: string, refreshToken: string): (r: Store)
    ensures r.Keys == store.Keys + {AccessTokenKey, RefreshTokenKey}
    ensures r[AccessTokenKey] == accessToken && r[RefreshTokenKey] == refreshToken
    ensures forall k :: k in store && k != AccessTokenKey && k != RefreshTokenKey ==> r[k] == store[k]
  {
    store[AccessTokenKey := accessToken][RefreshTokenKey := refreshToken]
  }

  /** `AsyncStorage.multiRemove` of the two tokens; every other key keeps its value. */
  function RemoveTokens(store: Store): (r: Store)
    ensures r.Keys == store.Keys - {AccessTokenKey, RefreshTokenKey}
    ensures forall k :: k in r ==> r[k] == store[k]
    ensures !HasToken(r, AccessTokenKey) && !HasToken(r, RefreshTokenKey)
  {
    store - {AccessTokenKey, RefreshTokenKey}
  }
}
