/** The background token-refresh hook: a periodic and visibility-driven
    check of the access token's expiry, with a guard against overlapping
    refreshes. The refresh call is split at its `await`: the check starts it
    and `FinishRefresh` is its completion. */
module TokenRefresh {
  import opened Remote
  import opened TokenStorage

  /** The check interval, 3 minutes. */
  const CHECK_INTERVAL: nat := 180000

  /** Tokens expiring within 10 minutes are refreshed. */
  const REFRESH_WINDOW: int := 600000

  datatype RefreshDecision =
    | NotInBrowser
    | AlreadyRefreshing
    | NoAccessToken
    | NoExpiry
    | RefreshNow
    | AlreadyExpired
    | StillValid

  /** The branch `checkAndRefreshToken` takes. */
  function Decide(browser: bool, isRefreshing: bool, accessToken: Option<string>, decode: Decoder, now: int): RefreshDecision {
    if !browser then NotInBrowser
    else if isRefreshing then AlreadyRefreshing
    else if accessToken.None? then NoAccessToken
    else match ExpiryOf(decode(accessToken.value))
      case None => NoExpiry
      case Some(exp) =>
        var expiresIn := exp * 1000 - now;
        if expiresIn < REFRESH_WINDOW && expiresIn > 0 then RefreshNow
        else if expiresIn <= 0 then AlreadyExpired
        else StillValid
  }

  /** A refresh starts exactly inside the window `0 < exp*1000 - now <
      600000`, for a token with a decodable expiry, in the browser, with no
      refresh running; an expired token is left to the next API call. */
  lemma RefreshWindow(browser: bool, isRefreshing: bool, accessToken: Option<string>, decode: Decoder, now: int)
    ensures Decide(browser, isRefreshing, accessToken, decode, now) == RefreshNow <==>
      && browser && !isRefreshing && accessToken.Some?
      && ExpiryOf(decode(accessToken.value)).Some?
      && 0 < ExpiryOf(decode(accessToken.value)).value * 1000 - now < REFRESH_WINDOW
    ensures Decide(browser, isRefreshing, accessToken, decode, now) == AlreadyExpired <==>
      && browser && !isRefreshing && accessToken.Some?
      && ExpiryOf(decode(accessToken.value)).Some?
      && ExpiryOf(decode(accessToken.value)).value * 1000 <= now
    ensures isRefreshing && browser ==> Decide(browser, isRefreshing, accessToken, decode, now) == AlreadyRefreshing
  {
  }

  /** The hook's window agrees with the token service: a token it refreshes
      is still valid, and `shouldRefreshToken(10)` holds of it; a token it
      sees as expired is not valid. */
  lemma DecisionAgreesWithTokenService(ts: TokenService, isRefreshing: bool, decode: Decoder, now: int)
    ensures Decide(ts.browser, isRefreshing, ts.GetAccessToken(), decode, now) == RefreshNow ==>
      IsTokenValid(ts.GetAccessToken().value, decode, now) && ts.ShouldRefreshToken(decode, now, 10)
    ensures Decide(ts.browser, isRefreshing, ts.GetAccessToken(), decode, now) == AlreadyExpired ==>
      !IsTokenValid(ts.GetAccessToken().value, decode, now)
  {
    if Decide(ts.browser, isRefreshing, ts.GetAccessToken(), decode, now) in {RefreshNow, AlreadyExpired} {
      ReadTokenMeaning(ts.storage, ACCESS_TOKEN_KEY);
    }
  }

  class Monitor {
    const tokens: TokenService
    var isRefreshing: bool
    /** The period of the check interval, while one is set. */
    var refreshInterval: Option<nat>
    /** Whether the `visibilitychange` listener is registered. */
    var listening: bool
    /** Refresh calls issued. */
    var refreshCalls: nat

    ghost predicate Valid()
      reads this, tokens
    {
      (!tokens.browser ==> !listening && refreshInterval.None?)
      && (refreshInterval.Some? ==> refreshInterval.value == CHECK_INTERVAL)
    }

    constructor (tokens: TokenService)
      ensures Valid()
      ensures this.tokens == tokens
      ensures !isRefreshing && refreshInterval.None? && !listening && refreshCalls == 0
    {
      this.tokens := tokens;
      isRefreshing := false;
      refreshInterval := None;
      listening := false;
      refreshCalls := 0;
    }

    /** `checkAndRefreshToken()` up to the refresh call's `await`. */
    method CheckAndRefreshToken(decode: Decoder, now: int) returns (decision: RefreshDecision)
      requires Valid()
      modifies this`isRefreshing, this`refreshCalls
      ensures Valid()
      ensures decision == Decide(tokens.browser, old(isRefreshing), tokens.GetAccessToken(), decode, now)
      ensures isRefreshing == (old(isRefreshing) || decision == RefreshNow)
      ensures refreshCalls == old(refreshCalls) + (if decision == RefreshNow then 1 else 0)
    {
      if !tokens.browser {
        return NotInBrowser;
      }
      if isRefreshing {
        return AlreadyRefreshing;
      }
      var accessToken := tokens.GetAccessToken();
      if accessToken.None? {
        return NoAccessToken;
      }
      var exp := ExpiryOf(decode(accessToken.value));
      if exp.None? {
        return NoExpiry;
      }
      var expiresIn := exp.value * 1000 - now;
      if expiresIn < REFRESH_WINDOW && expiresIn > 0 {
        isRefreshing := true;
        refreshCalls := refreshCalls + 1;
        decision := RefreshNow;
      } else if expiresIn <= 0 {
        decision := AlreadyExpired;
      } else {
        decision := StillValid;
      }
    }

    /** The completion of the refresh call: the guard is released whether
        it succeeded or failed. */
    method FinishRefresh(outcome: Outcome<()>)
      requires Valid()
      modifies this`isRefreshing
      ensures Valid() && !isRefreshing
    {
      isRefreshing := false;
    }

    /** The `onMount` callback: monitoring starts only if both tokens are
        present, with an immediate check, the 3-minute interval and the
        visibility listener. */
    method Mount(decode: Decoder, now: int) returns (started: bool, decision: Option<RefreshDecision>)
      requires Valid()
      modifies this
      ensures Valid()
      ensures started == (tokens.browser && tokens.HasTokens())
      ensures !started ==>
        && decision.None? && isRefreshing == old(isRefreshing) && refreshCalls == old(refreshCalls)
        && refreshInterval == old(refreshInterval) && listening == old(listening)
      ensures started ==>
        && decision == Some(Decide(true, old(isRefreshing), tokens.GetAccessToken(), decode, now))
        && isRefreshing == (old(isRefreshing) || decision.value == RefreshNow)
        && refreshCalls == old(refreshCalls) + (if decision.value == RefreshNow then 1 else 0)
        && refreshInterval == Some(CHECK_INTERVAL) && listening
    {
      if !tokens.browser || !tokens.HasTokens() {
        return false, None;
      }
      var d := CheckAndRefreshToken(decode, now);
      refreshInterval := Some(CHECK_INTERVAL);
      listening := true;
      started, decision := true, Some(d);
    }

    /** A tick of the check interval. */
    method Tick(decode: Decoder, now: int) returns (decision: Option<RefreshDecision>)
      requires Valid()
      modifies this`isRefreshing, this`refreshCalls
      ensures Valid()
      ensures refreshInterval.None? ==> decision.None? && isRefreshing == old(isRefreshing) && refreshCalls == old(refreshCalls)
      ensures refreshInterval.Some? ==>
        && decision == Some(Decide(tokens.browser, old(isRefreshing), tokens.GetAccessToken(), decode, now))
        && isRefreshing == (old(isRefreshing) || decision.value == RefreshNow)
        && refreshCalls == old(refreshCalls) + (if decision.value == RefreshNow then 1 else 0)
    {
      if refreshInterval.None? {
        return None;
      }
      var d := CheckAndRefreshToken(decode, now);
      decision := Some(d);
    }

    /** `handleVisibilityChange`, which runs only while registered; it
        checks only when the document is visible. */
    method VisibilityChange(visible: bool, decode: Decoder, now: int) returns (decision: Option<RefreshDecision>)
      requires Valid()
      modifies this`isRefreshing, this`refreshCalls
      ensures Valid()
      ensures !(listening && visible) ==> decision.None? && isRefreshing == old(isRefreshing) && refreshCalls == old(refreshCalls)
      ensures listening && visible ==>
        && decision == Some(Decide(tokens.browser, old(isRefreshing), tokens.GetAccessToken(), decode, now))
        && isRefreshing == (old(isRefreshing) || decision.value == RefreshNow)
        && refreshCalls == old(refreshCalls) + (if decision.value == RefreshNow then 1 else 0)
    {
      if !listening || !tokens.browser || !visible {
        return None;
      }
      var d := CheckAndRefreshToken(decode, now);
      decision := Some(d);
    }

    /** The `onDestroy` callback. */
    method Destroy()
      requires Valid()
      modifies this
      ensures Valid() && refreshInterval.None? && !listening
      ensures isRefreshing == old(isRefreshing) && refreshCalls == old(refreshCalls)
    {
      if refreshInterval.Some? {
        refreshInterval := None;
      }
      if tokens.browser {
        listening := false;
      }
    }
  }
}
