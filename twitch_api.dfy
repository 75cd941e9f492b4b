/**
 * The Twitch Helix client: an app access token obtained with the OAuth 2.0
 * client-credentials grant (section 4.4 of RFC 6749) and cached in two
 * module-level variables, and authenticated GET requests that drop the
 * cached token and retry once when the server answers 401.
 *
 * The clock and the HTTP replies are parameters. Every request the client
 * makes is recorded in a call log, so that "no request", "one retry" and the
 * order of requests can be stated.
 */
module TwitchApi {
  import opened Wrappers
  import opened Types
  import opened Store
  import opened Naming

  const ApiBase := "https://api.twitch.tv/helix"
  /** A cached token is treated as expired five minutes before the server says it expires. */
  const SafetyMarginMs := 300000
  const ConfigErrorMessage := "Twitch Client ID and Secret not configured"
  const TokenFailurePrefix := "Failed to get Twitch access token: "
  const RequestFailedPrefix := "Twitch API request failed: "

  /** The cache: `accessToken` (null or a string) and `tokenExpiry` in milliseconds. */
  datatype TokenState = TokenState(accessToken: Option<string>, tokenExpiry: int)

  /** The cache as the module starts, and as a 401 leaves it. */
  const NoToken := TokenState(None, 0)

  /** The token endpoint's answer: the token and its lifetime in seconds. */
  datatype TokenResponse = TokenResponse(accessToken: string, expiresIn: int)

  /**
   * A failed HTTP call: the response status if there was a response, the
   * error's message, the `message` field of the response body if any, and the
   * error as a template string renders it.
   */
  datatype HttpError = HttpError(status: Option<int>, message: string, dataMessage: Option<string>, rendered: string)

  /** A request sent to the network. */
  datatype Call =
    | TokenExchange(clientId: string, clientSecret: string, grantType: string)
    | ApiGet(url: string, params: seq<(string, string)>, token: string, clientId: string)

  /** A non-empty string is truthy; null and the empty string are not. */
  predicate Truthy(s: Option<string>)
  {
    s.Some? && s.value != ""
  }

  /** The cached token may be returned without any request. */
  predicate CacheHit(st: TokenState, now: int)
  {
    Truthy(st.accessToken) && st.tokenExpiry > now
  }

  predicate HasCredentials(c: Config)
  {
    c.twitchClientId != "" && c.twitchClientSecret != ""
  }

  /** When a token obtained at `now` stops being reused. */
  function ExpiryAfter(now: int, expiresIn: int): int
  {
    now + expiresIn * 1000 - SafetyMarginMs
  }

  /** The outcome of `getAccessToken`: the new cache, the token or the error, and the requests made. */
  datatype Acquired = Acquired(state: TokenState, result: Result<string, string>, calls: seq<Call>)

  /**
   * `getAccessToken` at time `now`: a cache hit returns the cached token with
   * no request; a miss without credentials fails with no request; otherwise
   * one token exchange is made (`reply` is its outcome) and a success is
   * cached. A failure never changes the cache.
   */
  function AcquireToken(st: TokenState, now: int, config: Config, reply: Result<TokenResponse, HttpError>): (a: Acquired)
    ensures a.calls == [] <==> CacheHit(st, now) || !HasCredentials(config)
    ensures a.calls != [] ==> a.calls == [TokenExchange(config.twitchClientId, config.twitchClientSecret, "client_credentials")]
    ensures CacheHit(st, now) ==> a.result == Success(st.accessToken.value) && a.state == st
    ensures !CacheHit(st, now) && !HasCredentials(config) ==> a.result == Failure(ConfigErrorMessage)
    ensures a.result.Failure? ==> a.state == st
    ensures a.calls != [] && reply.Success? ==>
      && a.result == Success(reply.value.accessToken)
      && a.state == TokenState(Some(reply.value.accessToken), ExpiryAfter(now, reply.value.expiresIn))
    ensures a.calls != [] && reply.Failure? ==> a.result == Failure(TokenFailurePrefix + reply.error.rendered)
  {
    if CacheHit(st, now) then Acquired(st, Success(st.accessToken.value), [])
    else if !HasCredentials(config) then Acquired(st, Failure(ConfigErrorMessage), [])
    else
      var call := TokenExchange(config.twitchClientId, config.twitchClientSecret, "client_credentials");
      match reply
      case Success(t) => Acquired(TokenState(Some(t.accessToken), ExpiryAfter(now, t.expiresIn)), Success(t.accessToken), [call])
      case Failure(e) => Acquired(st, Failure(TokenFailurePrefix + e.rendered), [call])
  }

  /** A fresh token is reused, without any request, until the safety margin before its expiry. */
  lemma TokenReusedUntilMargin(st: TokenState, now: int, later: int, config: Config,
                               t: TokenResponse, reply: Result<TokenResponse, HttpError>, other: Result<TokenResponse, HttpError>)
    requires AcquireToken(st, now, config, reply).calls != [] && reply == Success(t) && t.accessToken != ""
    requires later < ExpiryAfter(now, t.expiresIn)
    ensures var next := AcquireToken(AcquireToken(st, now, config, reply).state, later, config, other);
      next.calls == [] && next.result == Success(t.accessToken)
  {
  }

  /** A token whose lifetime is at most the safety margin is never served from the cache at or after `now`. */
  lemma ShortLivedTokenNeverReused(now: int, expiresIn: int, later: int, token: string)
    requires expiresIn <= 300 && later >= now
    ensures !CacheHit(TokenState(Some(token), ExpiryAfter(now, expiresIn)), later)
  {
  }

  /** The error text of a failed first request: the body's `message` when it is a non-empty string, else the error's own message. */
  function FailureDetail(e: HttpError): string
  {
    if Truthy(e.dataMessage) then e.dataMessage.value else e.message
  }

  /** The outcome of `makeApiRequest`: the new cache, the payload or the error, and the requests made. */
  datatype Requested<T> = Requested(state: TokenState, result: Result<T, string>, calls: seq<Call>)

  /**
   * `makeApiRequest`: obtain a token (at `now`) and GET the endpoint. A 401
   * clears the cache, obtains a new token (at `retryNow`) and repeats the GET
   * exactly once; whatever that attempt gives is the outcome. Any other
   * failure of the first GET is reported with `RequestFailedPrefix`; a
   * failure to obtain a token is passed on as it is.
   */
  function ApiRequest<T>(st: TokenState, now: int, retryNow: int, config: Config, url: string, params: seq<(string, string)>,
                         token1: Result<TokenResponse, HttpError>, get1: Result<T, HttpError>,
                         token2: Result<TokenResponse, HttpError>, get2: Result<T, HttpError>): Requested<T>
  {
    var a := AcquireToken(st, now, config, token1);
    if a.result.Failure? then Requested(a.state, Failure(a.result.error), a.calls)
    else
      var first := a.calls + [ApiGet(url, params, a.result.value, config.twitchClientId)];
      match get1
      case Success(data) => Requested(a.state, Success(data), first)
      case Failure(e) =>
        if e.status == Some(401) then
          var b := AcquireToken(NoToken, retryNow, config, token2);
          if b.result.Failure? then Requested(b.state, Failure(b.result.error), first + b.calls)
          else
            var calls := first + b.calls + [ApiGet(url, params, b.result.value, config.twitchClientId)];
            match get2
            case Success(data) => Requested(b.state, Success(data), calls)
            case Failure(e2) => Requested(b.state, Failure(e2.message), calls)
        else Requested(a.state, Failure(RequestFailedPrefix + FailureDetail(e)), first)
  }

  /** How many GET requests a call log holds. */
  function Gets(calls: seq<Call>): (n: nat)
    ensures n <= |calls|
  {
    if calls == [] then 0 else (if calls[0].ApiGet? then 1 else 0) + Gets(calls[1..])
  }

  lemma {:induction false} GetsConcat(a: seq<Call>, b: seq<Call>)
    ensures Gets(a + b) == Gets(a) + Gets(b)
    decreases |a|
  {
    if a == [] {
      assert a + b == b;
    } else {
      assert (a + b)[1..] == a[1..] + b;
      GetsConcat(a[1..], b);
    }
  }

  lemma GetsOfAcquire(st: TokenState, now: int, config: Config, reply: Result<TokenResponse, HttpError>)
    ensures Gets(AcquireToken(st, now, config, reply).calls) == 0
  {
    var calls := AcquireToken(st, now, config, reply).calls;
    if calls != [] {
      assert calls[1..] == [];
    }
  }

  /**
   * A request makes at most two GETs, and a second one only after the first
   * was answered with 401.
   */
  lemma AtMostOneRetry<T>(st: TokenState, now: int, retryNow: int, config: Config, url: string, params: seq<(string, string)>,
                          token1: Result<TokenResponse, HttpError>, get1: Result<T, HttpError>,
                          token2: Result<TokenResponse, HttpError>, get2: Result<T, HttpError>)
    ensures var r := ApiRequest(st, now, retryNow, config, url, params, token1, get1, token2, get2);
      && Gets(r.calls) <= 2
      && (Gets(r.calls) == 2 ==> get1.Failure? && get1.error.status == Some(401))
  {
    var a := AcquireToken(st, now, config, token1);
    GetsOfAcquire(st, now, config, token1);
    if a.result.Success? {
      var get := ApiGet(url, params, a.result.value, config.twitchClientId);
      var first := a.calls + [get];
      GetsConcat(a.calls, [get]);
      assert Gets([get]) == 1 by { assert [get][1..] == []; }
      if get1.Failure? && get1.error.status == Some(401) {
        var b := AcquireToken(NoToken, retryNow, config, token2);
        GetsOfAcquire(NoToken, retryNow, config, token2);
        GetsConcat(first, b.calls);
        if b.result.Success? {
          var again := ApiGet(url, params, b.result.value, config.twitchClientId);
          GetsConcat(first + b.calls, [again]);
          assert Gets([again]) == 1 by { assert [again][1..] == []; }
        }
      }
    }
  }

  /**
   * A first GET failing with any status other than 401 (or with no response)
   * is not retried: the error is reported with the request-failed prefix and
   * the cache is what obtaining the token left.
   */
  lemma OtherFailuresNotRetried<T>(st: TokenState, now: int, retryNow: int, config: Config, url: string, params: seq<(string, string)>,
                                   token1: Result<TokenResponse, HttpError>, e: HttpError,
                                   token2: Result<TokenResponse, HttpError>, get2: Result<T, HttpError>)
    requires AcquireToken(st, now, config, token1).result.Success? && e.status != Some(401)
    ensures var r := ApiRequest(st, now, retryNow, config, url, params, token1, Failure(e), token2, get2);
      && r.result == Failure(RequestFailedPrefix + FailureDetail(e))
      && r.state == AcquireToken(st, now, config, token1).state
      && Gets(r.calls) == 1
  {
    AtMostOneRetry(st, now, retryNow, config, url, params, token1, Failure(e), token2, get2);
    var a := AcquireToken(st, now, config, token1);
    var get := ApiGet(url, params, a.result.value, config.twitchClientId);
    GetsOfAcquire(st, now, config, token1);
    GetsConcat(a.calls, [get]);
    assert Gets([get]) == 1 by { assert [get][1..] == []; }
  }

  /**
   * A 401 drops the cached token: a new token exchange follows the first GET
   * whenever credentials are configured, even if the cached token had not
   * expired; if that exchange fails the cache stays empty; and a failure of
   * the repeated GET is passed on as its own message, without the prefix.
   */
  lemma UnauthorizedRefetchesToken<T>(st: TokenState, now: int, retryNow: int, config: Config, url: string, params: seq<(string, string)>,
                                      token1: Result<TokenResponse, HttpError>, e: HttpError,
                                      token2: Result<TokenResponse, HttpError>, get2: Result<T, HttpError>)
    requires AcquireToken(st, now, config, token1).result.Success? && e.status == Some(401) && HasCredentials(config)
    ensures var r := ApiRequest(st, now, retryNow, config, url, params, token1, Failure(e), token2, get2);
      var a := AcquireToken(st, now, config, token1);
      && r.calls[..|a.calls| + 2] == a.calls + [ApiGet(url, params, a.result.value, config.twitchClientId),
                                                TokenExchange(config.twitchClientId, config.twitchClientSecret, "client_credentials")]
      && (token2.Failure? ==> r.state == NoToken && r.result == Failure(TokenFailurePrefix + token2.error.rendered))
      && (token2.Success? && get2.Failure? ==> r.result == Failure(get2.error.message))
  {
  }

  /** `response.data[0] || null`: the first element, or nothing for an empty list. */
  function First<T>(xs: seq<T>): (r: Option<T>)
    ensures r.None? <==> xs == []
    ensures r.Some? ==> r.value == xs[0]
  {
    if xs == [] then None else Some(xs[0])
  }

  function MapResult<T, U>(r: Result<T, string>, f: T -> U): Result<U, string>
  {
    if r.Success? then Success(f(r.value)) else Failure(r.error)
  }

  /**
   * The search threshold counts UTF-16 code units: a query of two characters
   * or more is always sent, and so is a query made of one emoji, which is two
   * code units long.
   */
  lemma SearchThreshold(query: string)
    ensures |query| >= 2 ==> Utf16Length(query) >= 2
    ensures Utf16Length("\U{1F389}") == 2
  {
    Utf16LengthBounds(query);
  }

  /** The query parameters each endpoint is called with. */
  function SearchParams(query: string): seq<(string, string)>
  {
    [("query", query), ("first", "10"), ("live_only", "false")]
  }

  function VideosParams(streamerId: string, first: int): seq<(string, string)>
  {
    [("user_id", streamerId), ("first", IntToString(first)), ("type", "archive")]
  }

  class TwitchClient {
    const store: AppStore
    var accessToken: Option<string>
    var tokenExpiry: int
    /** Every request sent, in order. */
    var calls: seq<Call>

    constructor (store: AppStore)
      ensures this.store == store && TokenState(accessToken, tokenExpiry) == NoToken && calls == []
    {
      this.store := store;
      accessToken, tokenExpiry := None, 0;
      calls := [];
    }

    /** `getAccessToken`, proved against `AcquireToken`. */
    method GetAccessToken(now: int, reply: Result<TokenResponse, HttpError>) returns (r: Result<string, string>)
      modifies this`accessToken, this`tokenExpiry, this`calls
      ensures var a := AcquireToken(TokenState(old(accessToken), old(tokenExpiry)), now, store.config, reply);
        && TokenState(accessToken, tokenExpiry) == a.state && r == a.result && calls == old(calls) + a.calls
    {
      if accessToken.Some? && accessToken.value != "" && tokenExpiry > now {
        return Success(accessToken.value);
      }
      var config := store.config;
      if config.twitchClientId == "" || config.twitchClientSecret == "" {
        return Failure(ConfigErrorMessage);
      }
      calls := calls + [TokenExchange(config.twitchClientId, config.twitchClientSecret, "client_credentials")];
      match reply {
        case Success(t) =>
          accessToken := Some(t.accessToken);
          tokenExpiry := now + t.expiresIn * 1000 - SafetyMarginMs;
          r := Success(t.accessToken);
        case Failure(e) =>
          r := Failure(TokenFailurePrefix + e.rendered);
      }
    }

    /** `makeApiRequest`, proved against `ApiRequest`. */
    method MakeApiRequest<T>(endpoint: string, params: seq<(string, string)>, now: int, retryNow: int,
                             token1: Result<TokenResponse, HttpError>, get1: Result<T, HttpError>,
                             token2: Result<TokenResponse, HttpError>, get2: Result<T, HttpError>)
      returns (r: Result<T, string>)
      modifies this`accessToken, this`tokenExpiry, this`calls
      ensures var q := ApiRequest(TokenState(old(accessToken), old(tokenExpiry)), now, retryNow, store.config,
                                  ApiBase + endpoint, params, token1, get1, token2, get2);
        && TokenState(accessToken, tokenExpiry) == q.state && r == q.result && calls == old(calls) + q.calls
    {
      var token := GetAccessToken(now, token1);
      if token.Failure? {
        return Failure(token.error);
      }
      var config := store.config;
      calls := calls + [ApiGet(ApiBase + endpoint, params, token.value, config.twitchClientId)];
      match get1 {
        case Success(data) =>
          r := Success(data);
        case Failure(e) =>
          if e.status == Some(401) {
            r := RetryUnauthorized(ApiBase + endpoint, params, retryNow, token2, get2);
          } else {
            r := Failure(RequestFailedPrefix + FailureDetail(e));
          }
      }
    }

    /**
     * After a 401: drop the cached token, obtain a new one at `retryNow` and
     * repeat the GET once, passing on whatever that gives.
     */
    method RetryUnauthorized<T>(url: string, params: seq<(string, string)>, retryNow: int,
                                token2: Result<TokenResponse, HttpError>, get2: Result<T, HttpError>)
      returns (r: Result<T, string>)
      modifies this`accessToken, this`tokenExpiry, this`calls
      ensures var b := AcquireToken(NoToken, retryNow, store.config, token2);
        && TokenState(accessToken, tokenExpiry) == b.state
        && (b.result.Failure? ==> r == Failure(b.result.error) && calls == old(calls) + b.calls)
        && (b.result.Success? ==>
              && calls == old(calls) + b.calls + [ApiGet(url, params, b.result.value, store.config.twitchClientId)]
              && r == (if get2.Success? then Success(get2.value) else Failure(get2.error.message)))
    {
      accessToken, tokenExpiry := None, 0;
      var newToken := GetAccessToken(retryNow, token2);
      if newToken.Failure? {
        return Failure(newToken.error);
      }
      calls := calls + [ApiGet(url, params, newToken.value, store.config.twitchClientId)];
      match get2 {
        case Success(data) => r := Success(data);
        case Failure(e2) => r := Failure(e2.message);
      }
    }

    /**
     * `searchStreamers`: a query shorter than two UTF-16 code units (the
     * JavaScript length) gives an empty list with no request.
     */
    method SearchStreamers(query: string, now: int, retryNow: int,
                           token1: Result<TokenResponse, HttpError>, get1: Result<seq<Streamer>, HttpError>,
                           token2: Result<TokenResponse, HttpError>, get2: Result<seq<Streamer>, HttpError>)
      returns (r: Result<seq<Streamer>, string>)
      modifies this`accessToken, this`tokenExpiry, this`calls
      ensures Utf16Length(query) < 2 ==>
        && r == Success([]) && calls == old(calls)
        && accessToken == old(accessToken) && tokenExpiry == old(tokenExpiry)
      ensures Utf16Length(query) >= 2 ==>
        var q := ApiRequest(TokenState(old(accessToken), old(tokenExpiry)), now, retryNow, store.config,
                            ApiBase + "/search/channels", SearchParams(query), token1, get1, token2, get2);
        && TokenState(accessToken, tokenExpiry) == q.state && r == q.result && calls == old(calls) + q.calls
    {
      if Utf16Length(query) < 2 {
        return Success([]);
      }
      r := MakeApiRequest("/search/channels", SearchParams(query), now, retryNow, token1, get1, token2, get2);
    }

    /** `getStreamerInfo`: the first user of the answer, or nothing. */
    method GetStreamerInfo(streamerId: string, now: int, retryNow: int,
                           token1: Result<TokenResponse, HttpError>, get1: Result<seq<Streamer>, HttpError>,
                           token2: Result<TokenResponse, HttpError>, get2: Result<seq<Streamer>, HttpError>)
      returns (r: Result<Option<Streamer>, string>)
      modifies this`accessToken, this`tokenExpiry, this`calls
      ensures var q := ApiRequest(TokenState(old(accessToken), old(tokenExpiry)), now, retryNow, store.config,
                                  ApiBase + "/users", [("id", streamerId)], token1, get1, token2, get2);
        && TokenState(accessToken, tokenExpiry) == q.state && calls == old(calls) + q.calls
        && r == MapResult(q.result, First)
    {
      var response := MakeApiRequest("/users", [("id", streamerId)], now, retryNow, token1, get1, token2, get2);
      r := MapResult(response, First);
    }

    /** `getVODs`: the past broadcasts of a streamer, `first` at most. */
    method GetVods(streamerId: string, first: int, now: int, retryNow: int,
                   token1: Result<TokenResponse, HttpError>, get1: Result<seq<Vod>, HttpError>,
                   token2: Result<TokenResponse, HttpError>, get2: Result<seq<Vod>, HttpError>)
      returns (r: Result<seq<Vod>, string>)
      modifies this`accessToken, this`tokenExpiry, this`calls
      ensures var q := ApiRequest(TokenState(old(accessToken), old(tokenExpiry)), now, retryNow, store.config,
                                  ApiBase + "/videos", VideosParams(streamerId, first), token1, get1, token2, get2);
        && TokenState(accessToken, tokenExpiry) == q.state && calls == old(calls) + q.calls && r == q.result
    {
      r := MakeApiRequest("/videos", VideosParams(streamerId, first), now, retryNow, token1, get1, token2, get2);
    }

    /** `getVODInfo`: the first VOD of the answer, or nothing. */
    method GetVodInfo(vodId: string, now: int, retryNow: int,
                      token1: Result<TokenResponse, HttpError>, get1: Result<seq<Vod>, HttpError>,
                      token2: Result<TokenResponse, HttpError>, get2: Result<seq<Vod>, HttpError>)
      returns (r: Result<Option<Vod>, string>)
      modifies this`accessToken, this`tokenExpiry, this`calls
      ensures var q := ApiRequest(TokenState(old(accessToken), old(tokenExpiry)), now, retryNow, store.config,
                                  ApiBase + "/videos", [("id", vodId)], token1, get1, token2, get2);
        && TokenState(accessToken, tokenExpiry) == q.state && calls == old(calls) + q.calls
        && r == MapResult(q.result, First)
    {
      var response := MakeApiRequest("/videos", [("id", vodId)], now, retryNow, token1, get1, token2, get2);
      r := MapResult(response, First);
    }
  }
}
