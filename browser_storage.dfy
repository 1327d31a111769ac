/** The two persisted entries the session store and the request pipeline share:
    `tokens` (an `{access, refresh}` pair) and `user` (the cached profile).
    Each entry is a field; JSON serialisation is not modelled. */
module BrowserStorage {
  import opened JsValues

  /** The stored `{access, refresh}` object; a property left undefined is `None`. */
  datatype TokenPair = TokenPair(access: Option<string>, refresh: Option<string>)

  /** The profile record the server returns; only the fields the client logic reads. */
  datatype User = User(id: int, email: string, role: string)

  /** `tokens.access` is truthy (a missing entry reads as `{}`). */
  predicate HasAccess(tokens: Option<TokenPair>) {
    tokens.Some? && Present(tokens.value.access)
  }

  /** `tokens.refresh` (or `tokens?.refresh`) is truthy. */
  predicate HasRefresh(tokens: Option<TokenPair>) {
    tokens.Some? && Present(tokens.value.refresh)
  }

  /** `localStorage`, restricted to the `tokens` and `user` keys. */
  class LocalStorage {
    var tokens: Option<TokenPair>
    var user: Option<User>

    constructor()
      ensures tokens == None && user == None
    {
      tokens := None;
      user := None;
    }

    /** `localStorage.setItem('tokens', ...)`. */
    method SetTokens(pair: TokenPair)
      modifies this
      ensures tokens == Some(pair) && user == old(user)
    {
      tokens := Some(pair);
    }

    /** `localStorage.setItem('user', ...)`. */
    method SetUser(u: User)
      modifies this
      ensures user == Some(u) && tokens == old(tokens)
    {
      user := Some(u);
    }

    /** `localStorage.removeItem('tokens')`. */
    method RemoveTokens()
      modifies this
      ensures tokens == None && user == old(user)
    {
      tokens := None;
    }

    /** `localStorage.removeItem('user')`. */
    method RemoveUser()
      modifies this
      ensures user == None && tokens == old(tokens)
    {
      user := None;
    }
  }
}
