/** The token service: the access/refresh pair kept in the browser's local
    key-value store, and the expiry tests read from the access token's
    decoded payload. `Date.now()` is the parameter `now` (milliseconds) and
    the JWT decoder is the parameter `decode`. */
module TokenStorage {
  import opened Remote
  import opened Text

  const ACCESS_TOKEN_KEY: string := "paladin_access_token"
  const REFRESH_TOKEN_KEY: string := "paladin_refresh_token"

  /** The payload fields the service reads. A field that the payload lacks
      is None. */
  datatype Claims = Claims(exp: Option<int>, userId: Option<string>, sub: Option<string>, email: Option<string>)

  /** The decoder: None when the token is not three dot-separated parts
      whose middle one is base64url-encoded JSON (`decodeToken` returns null). */
  type Decoder = string -> Option<Claims>

  datatype TokenUser = TokenUser(userId: Option<string>, email: Option<string>)

  /** JavaScript truthiness of an optional string: present and non-empty. */
  predicate Truthy(o: Option<string>) {
    o.Some? && o.value != ""
  }

  /** `a || b` on optional strings. */
  function OrElse(a: Option<string>, b: Option<string>): Option<string> {
    if Truthy(a) then a else b
  }

  /** The expiry the service acts on, in seconds since the epoch: None when
      `!decoded || !decoded.exp`, which also discards an `exp` of 0. */
  function ExpiryOf(decoded: Option<Claims>): (e: Option<int>)
    ensures e.Some? <==> decoded.Some? && decoded.value.exp.Some? && decoded.value.exp.value != 0
    ensures e.Some? ==> e.value == decoded.value.exp.value
  {
    if decoded.Some? && decoded.value.exp.Some? && decoded.value.exp.value != 0
    then decoded.value.exp else None
  }

  /** `localStorage.getItem(key)` filtered by the service's emptiness rule:
      an absent or blank value reads as no token. Outside the browser every
      read is null. */
  function ReadToken(storage: map<string, string>, key: string, browser: bool): (t: Option<string>)
  {
    if browser && key in storage && !IsBlank(storage[key])
    then Some(storage[key]) else None
  }

  /** The user `getUserFromToken` builds from a decoded payload. */
  function TokenUserOf(d: Option<Claims>): Option<TokenUser> {
    if d.None? then None
    else Some(TokenUser(OrElse(d.value.userId, d.value.sub), OrElse(d.value.sub, d.value.email)))
  }

  /** The store after `setTokens(access, refresh)`. */
  function StoreTokens(storage: map<string, string>, browser: bool, access: string, refresh: string): map<string, string>
  {
    if !browser || access == "" || refresh == "" then storage
    else storage[ACCESS_TOKEN_KEY := access][REFRESH_TOKEN_KEY := refresh]
  }

  /** The store after `clearTokens()`. */
  function RemoveTokens(storage: map<string, string>, browser: bool): map<string, string>
  {
    if !browser then storage else storage - {ACCESS_TOKEN_KEY, REFRESH_TOKEN_KEY}
  }

  /** A read returns the stored string itself exactly when that string is
      not blank; otherwise no token. */
  lemma ReadTokenMeaning(storage: map<string, string>, key: string)
    ensures ReadToken(storage, key, true).Some? <==> key in storage && !IsBlank(storage[key])
    ensures ReadToken(storage, key, true).Some? ==> ReadToken(storage, key, true).value == storage[key]
    ensures ReadToken(storage, key, false) == None
  {
  }

  /** `setTokens` with an empty string writes neither key. */
  lemma StoreRejectsEmpty(storage: map<string, string>, browser: bool, access: string, refresh: string)
    requires access == "" || refresh == ""
    ensures StoreTokens(storage, browser, access, refresh) == storage
  {
  }

  /** After storing a pair of non-empty strings, each reads back as itself
      unless it is whitespace only, in which case it reads as no token although
      it is stored. Every other key is untouched. */
  lemma ReadAfterStore(storage: map<string, string>, access: string, refresh: string)
    requires access != "" && refresh != ""
    ensures var s := StoreTokens(storage, true, access, refresh);
      && s[ACCESS_TOKEN_KEY] == access && s[REFRESH_TOKEN_KEY] == refresh
      && ReadToken(s, ACCESS_TOKEN_KEY, true) == (if IsBlank(access) then None else Some(access))
      && ReadToken(s, REFRESH_TOKEN_KEY, true) == (if IsBlank(refresh) then None else Some(refresh))
      && forall k :: k in storage && k != ACCESS_TOKEN_KEY && k != REFRESH_TOKEN_KEY ==> k in s && s[k] == storage[k]
  {
    assert ACCESS_TOKEN_KEY != REFRESH_TOKEN_KEY;
  }

  /** After clearing, neither key reads as a token. */
  lemma ReadAfterRemove(storage: map<string, string>, browser: bool)
    ensures ReadToken(RemoveTokens(storage, browser), ACCESS_TOKEN_KEY, browser) == None
    ensures ReadToken(RemoveTokens(storage, browser), REFRESH_TOKEN_KEY, browser) == None
  {
  }

  /** `isTokenValid(token)`: false for the empty token or without a usable
      `exp`, otherwise `exp * 1000 > now`. */
  function IsTokenValid(token: string, decode: Decoder, now: int): bool {
    token != "" && ExpiryOf(decode(token)).Some? && ExpiryOf(decode(token)).value * 1000 > now
  }

  /** `isTokenExpired(token)`: false for the empty token, true without a
      usable `exp`, otherwise `exp * 1000 < now`. */
  function IsTokenExpired(token: string, decode: Decoder, now: int): bool {
    token != "" && (ExpiryOf(decode(token)).None? || ExpiryOf(decode(token)).value * 1000 < now)
  }

  /** The two tests never hold together; both fail only for the empty token
      or at the exact millisecond of expiry. */
  lemma ValidExpiredExclusive(token: string, decode: Decoder, now: int)
    ensures !(IsTokenValid(token, decode, now) && IsTokenExpired(token, decode, now))
    ensures !IsTokenValid(token, decode, now) && !IsTokenExpired(token, decode, now)
            <==> token == "" || (ExpiryOf(decode(token)).Some? && ExpiryOf(decode(token)).value * 1000 == now)
  {
  }

  /** A token with no usable `exp` is expired but not valid; the empty token
      is neither. */
  lemma NoExpiryIsExpired(token: string, decode: Decoder, now: int)
    requires ExpiryOf(decode(token)).None?
    ensures !IsTokenValid(token, decode, now)
    ensures IsTokenExpired(token, decode, now) <==> token != ""
  {
  }

  class TokenService {
    /** Whether the code runs in a browser (SvelteKit's `browser` flag). */
    const browser: bool
    /** The browser's local storage as a key-value map. */
    var storage: map<string, string>

    constructor (browser: bool, storage: map<string, string>)
      ensures this.browser == browser && this.storage == storage
    {
      this.browser := browser;
      this.storage := storage;
    }

    method SetTokens(accessToken: string, refreshToken: string)
      modifies this
      ensures storage == StoreTokens(old(storage), browser, accessToken, refreshToken)
      ensures browser && accessToken != "" && refreshToken != "" && !IsBlank(accessToken) && !IsBlank(refreshToken)
              ==> HasTokens()
      ensures browser && accessToken != "" && refreshToken != ""
              ==> (NeedsRefresh() <==> IsBlank(accessToken) && !IsBlank(refreshToken))
      ensures browser && accessToken != "" && refreshToken != "" && !IsBlank(accessToken)
              ==> forall decode: Decoder :: GetUserFromToken(decode) == TokenUserOf(decode(accessToken))
    {
      if !browser {
        return;
      }
      if accessToken == "" || refreshToken == "" {
        return;
      }
      storage := storage[ACCESS_TOKEN_KEY := accessToken];
      storage := storage[REFRESH_TOKEN_KEY := refreshToken];
      ReadAfterStore(old(storage), accessToken, refreshToken);
    }

    method ClearTokens()
      modifies this
      ensures storage == RemoveTokens(old(storage), browser)
      ensures GetAccessToken() == None && GetRefreshToken() == None && !HasTokens()
      ensures !NeedsRefresh() && forall decode: Decoder :: GetUserFromToken(decode) == None
    {
      if !browser {
        return;
      }
      storage := storage - {ACCESS_TOKEN_KEY, REFRESH_TOKEN_KEY};
    }

    function GetAccessToken(): Option<string>
      reads this
    {
      ReadToken(storage, ACCESS_TOKEN_KEY, browser)
    }

    function GetRefreshToken(): Option<string>
      reads this
    {
      ReadToken(storage, REFRESH_TOKEN_KEY, browser)
    }

    /** Both tokens are present. */
    predicate HasTokens()
      reads this
    {
      GetAccessToken().Some? && GetRefreshToken().Some?
    }

    /** No access token but a refresh token. */
    predicate NeedsRefresh()
      reads this
    {
      GetAccessToken().None? && GetRefreshToken().Some?
    }

    /** `shouldRefreshToken(minutesBeforeExpiry)`. */
    predicate ShouldRefreshToken(decode: Decoder, now: int, minutesBeforeExpiry: int := 1)
      reads this
    {
      GetAccessToken().Some? &&
      var e := ExpiryOf(decode(GetAccessToken().value));
      e.None? || e.value * 1000 - now < minutesBeforeExpiry * 60 * 1000
    }

    /** `getTimeUntilExpiration()` in milliseconds. */
    function GetTimeUntilExpiration(decode: Decoder, now: int): (ms: int)
      reads this
      ensures ms >= 0
    {
      if GetAccessToken().None? then 0
      else
        var e := ExpiryOf(decode(GetAccessToken().value));
        if e.None? then 0
        else if e.value * 1000 - now > 0 then e.value * 1000 - now else 0
    }

    /** `getUserFromToken()`. */
    function GetUserFromToken(decode: Decoder): Option<TokenUser>
      reads this
    {
      if GetAccessToken().None? then None else TokenUserOf(decode(GetAccessToken().value))
    }
  }

  /** Needing a refresh and having both tokens exclude each other, and
      needing a refresh means exactly: no access token, a refresh token. */
  lemma NeedsRefreshMeaning(ts: TokenService)
    ensures ts.NeedsRefresh() ==> !ts.HasTokens()
    ensures ts.NeedsRefresh() <==> ts.GetAccessToken() == None && ts.GetRefreshToken().Some?
  {
  }

  /** Without an access token nothing is refreshed; with one but no usable
      `exp` a refresh is due; otherwise the rule is "expires within
      `minutes` minutes", one minute when the argument is left out. A wider
      margin never withdraws a due refresh, an expired token is always due,
      and a token not due within a margin of a minute or more is valid. */
  lemma ShouldRefreshRule(ts: TokenService, decode: Decoder, now: int, minutes: int, wider: int)
    ensures ts.GetAccessToken().None? ==> !ts.ShouldRefreshToken(decode, now, minutes)
    ensures ts.GetAccessToken().Some? && ExpiryOf(decode(ts.GetAccessToken().value)).None?
            ==> ts.ShouldRefreshToken(decode, now, minutes)
    ensures ts.GetAccessToken().Some? && ExpiryOf(decode(ts.GetAccessToken().value)).Some?
            ==> (ts.ShouldRefreshToken(decode, now, minutes)
                 <==> ExpiryOf(decode(ts.GetAccessToken().value)).value * 1000 - now < minutes * 60000)
    ensures ts.ShouldRefreshToken(decode, now) == ts.ShouldRefreshToken(decode, now, 1)
    ensures minutes <= wider && ts.ShouldRefreshToken(decode, now, minutes) ==> ts.ShouldRefreshToken(decode, now, wider)
    ensures ts.GetAccessToken().Some? && minutes >= 0 && IsTokenExpired(ts.GetAccessToken().value, decode, now)
            ==> ts.ShouldRefreshToken(decode, now, minutes)
    ensures ts.GetAccessToken().Some? && minutes >= 1 && !ts.ShouldRefreshToken(decode, now, minutes)
            ==> IsTokenValid(ts.GetAccessToken().value, decode, now)
  {
  }

  /** The time left is zero without a token, without a usable `exp` or once
      expired, and otherwise the milliseconds until `exp * 1000`. It is
      positive exactly when the access token is valid. */
  lemma TimeUntilExpirationRule(ts: TokenService, decode: Decoder, now: int)
    ensures ts.GetAccessToken().None? ==> ts.GetTimeUntilExpiration(decode, now) == 0
    ensures ts.GetAccessToken().Some? ==>
      var e := ExpiryOf(decode(ts.GetAccessToken().value));
      && (e.None? ==> ts.GetTimeUntilExpiration(decode, now) == 0)
      && (e.Some? && e.value * 1000 <= now ==> ts.GetTimeUntilExpiration(decode, now) == 0)
      && (e.Some? && e.value * 1000 > now ==> ts.GetTimeUntilExpiration(decode, now) == e.value * 1000 - now)
    ensures ts.GetAccessToken().Some? ==>
      (ts.GetTimeUntilExpiration(decode, now) > 0 <==> IsTokenValid(ts.GetAccessToken().value, decode, now))
  {
  }

  /** With an unexpired usable `exp`, a refresh is due exactly when the time
      left is under the threshold. */
  lemma ShouldRefreshByTimeLeft(ts: TokenService, decode: Decoder, now: int, minutes: int)
    requires ts.GetTimeUntilExpiration(decode, now) > 0
    ensures ts.ShouldRefreshToken(decode, now, minutes) <==> ts.GetTimeUntilExpiration(decode, now) < minutes * 60000
  {
  }

  /** The user read from the token: none without a token or a decodable
      payload; otherwise the id falls back to `sub` and the e-mail prefers
      `sub`. A user is only ever read from a stored access token, and a
      token `isTokenValid` accepts at time `now` always yields one. */
  lemma UserFromTokenRule(ts: TokenService, decode: Decoder, now: int)
    ensures ts.GetAccessToken().None? ==> ts.GetUserFromToken(decode).None?
    ensures ts.GetAccessToken().Some? ==>
      var d := decode(ts.GetAccessToken().value);
      && (d.None? ==> ts.GetUserFromToken(decode).None?)
      && (d.Some? ==>
            && ts.GetUserFromToken(decode).Some?
            && ts.GetUserFromToken(decode).value.userId == (if Truthy(d.value.userId) then d.value.userId else d.value.sub)
            && ts.GetUserFromToken(decode).value.email == (if Truthy(d.value.sub) then d.value.sub else d.value.email))
    ensures ts.GetUserFromToken(decode).Some? ==> ts.GetAccessToken().Some?
    ensures ts.GetAccessToken().Some? && IsTokenValid(ts.GetAccessToken().value, decode, now)
            ==> ts.GetUserFromToken(decode).Some?
  {
  }
}
