/**
  `TokenService`: the auth token, cached in memory in front of the browser's
  `localStorage` key `'token'`. The cache is filled lazily by the first read
  that finds it empty.
*/
module Tokens {
  import opened Wrappers
  import opened BrowserStorage

  const TokenKey: string := "token"

  /** What `localStorage.getItem('token') || null` yields: an empty stored text counts as no token. */
  function Stored(items: map<string, string>): (t: Option<string>)
    ensures t.Some? ==> TokenKey in items && t.value == items[TokenKey] && t.value != ""
    ensures t.None? ==> TokenKey !in items || items[TokenKey] == ""
  {
    if TokenKey in items && items[TokenKey] != "" then Some(items[TokenKey]) else None
  }

  class TokenService {
    /** The closure variable `token`. */
    var token: Option<string>
    const store: WebStorage

    constructor (store: WebStorage)
      ensures token == None && this.store == store
    {
      token := None;
      this.store := store;
    }

    /** `get`: the cached token; when there is none, the stored one is loaded into the cache first. */
    method Get() returns (r: Option<string>)
      modifies this
      ensures old(token).Some? ==> token == old(token)
      ensures old(token).None? ==> token == Stored(store.items)
      ensures r == token
    {
      if token.None? {
        var raw := store.GetItem(TokenKey);
        token := if raw.Some? && raw.value != "" then raw else None;
      }
      return token;
    }

    /** `set`: persists `val` under `'token'`, caches it and returns it. */
    method Set(val: string) returns (r: string)
      modifies this, store
      ensures store.items == old(store.items)[TokenKey := val]
      ensures token == Some(val) && r == val
    {
      store.SetItem(TokenKey, val);
      token := Some(val);
      return val;
    }

    /** `remove`: deletes the stored token and empties the cache. */
    method Remove()
      modifies this, store
      ensures store.items == old(store.items) - {TokenKey}
      ensures token == None
    {
      store.RemoveItem(TokenKey);
      token := None;
    }
  }

  /** A read right after `set(v)` returns `v`, even the empty string. */
  method SetThenGet(tokens: TokenService, v: string) returns (r: Option<string>)
    modifies tokens, tokens.store
    ensures r == Some(v)
  {
    var _ := tokens.Set(v);
    r := tokens.Get();
  }

  /** A read right after `remove()` finds no token. */
  method RemoveThenGet(tokens: TokenService) returns (r: Option<string>)
    modifies tokens, tokens.store
    ensures r == None
    ensures tokens.store.items == old(tokens.store.items) - {TokenKey}
  {
    tokens.Remove();
    r := tokens.Get();
  }

  /**
    After `remove()`, whoever next writes the key `'token'` into the shared
    `localStorage` decides what `get()` returns.
  */
  method RemoveRewriteGet(tokens: TokenService, text: string) returns (r: Option<string>)
    modifies tokens, tokens.store
    ensures r == if text == "" then None else Some(text)
  {
    tokens.Remove();
    tokens.store.SetItem(TokenKey, text);
    r := tokens.Get();
  }
}
