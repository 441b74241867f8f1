/** The API client (contexts/app/components/lib/api-client.ts): every request
    carries the stored access token; a 401 triggers a token refresh and, when
    that succeeds, the same request is issued again, with no bound on how often
    this happens. The network enters as a finite sequence of exchanges, one per
    attempt: the endpoint's response and the reply the refresh would get. When
    the sequence runs out the request is still in progress (`Unfinished`). */
module ApiClient {
  import opened Common
  import TokenRefresh

  /** getAuthHeader: a bearer header exactly when an access token is stored. */
  function AuthHeader(s: Storage): (h: map<string, string>)
    ensures Stored(s, ACCESS_TOKEN) <==> "Authorization" in h
    ensures Stored(s, ACCESS_TOKEN) ==> h == Bearer(EntryText(s[ACCESS_TOKEN]))
    ensures !Stored(s, ACCESS_TOKEN) ==> h == map[]
  {
    if Stored(s, ACCESS_TOKEN) then Bearer(EntryText(s[ACCESS_TOKEN])) else map[]
  }

  /** `{ ...defaults, ...auth, ...caller }`: later spreads win. */
  function MergeHeaders(defaults: map<string, string>, auth: map<string, string>, caller: map<string, string>)
    : (h: map<string, string>)
    ensures h.Keys == defaults.Keys + auth.Keys + caller.Keys
    ensures forall k :: k in caller ==> h[k] == caller[k]
    ensures forall k :: k in auth && k !in caller ==> h[k] == auth[k]
    ensures forall k :: k in defaults && k !in auth && k !in caller ==> h[k] == defaults[k]
  {
    defaults + auth + caller
  }

  /** The fetch one attempt performs: the caller's options with the merged headers. */
  function Issue(baseURL: string, defaults: map<string, string>, s: Storage, endpoint: string, options: Options)
    : (o: Outbound)
    ensures o.url == baseURL + endpoint && o.init.verb == options.verb && o.init.body == options.body
    ensures forall k :: k in options.headers ==> k in o.init.headers && o.init.headers[k] == options.headers[k]
  {
    Outbound(baseURL + endpoint, options.(headers := MergeHeaders(defaults, AuthHeader(s), options.headers)))
  }

  /** One attempt's worth of network: the endpoint's response and the reply a refresh would get. */
  datatype Exchange = Exchange(response: Reply<JsonObject>, refresh: Reply<string>)

  datatype ApiResult = Success(body: JsonObject) | Failure(message: string) | Unfinished

  /** How a response other than 401 settles the request: an ok response yields
      its parsed body; a non-ok one fails with the body's message or
      `API error: <status>`; an unreadable ok body and a network error fail
      with the error they raise. */
  function Settle(response: Reply<JsonObject>): (r: ApiResult)
    requires !response.Unauthorized()
    ensures !r.Unfinished?
    ensures r.Success? <==> response.Ok?
    ensures response.Ok? ==> r.body == response.payload
    ensures response.Rejected? ==>
      r == Failure(OrElse(response.message, "API error: " + NatToString(response.status)))
    ensures response.Unreadable? && !response.ok ==>
      r == Failure("API error: " + NatToString(response.status))
    ensures response.Unreadable? && response.ok ==> r == Failure(response.error)
    ensures response.NetworkError? ==> r == Failure(response.error)
  {
    match response
    case Ok(body) => Success(body)
    case Rejected(status, m) => Failure(OrElse(m, "API error: " + NatToString(status)))
    case Unreadable(ok, status, e) => if ok then Failure(e) else Failure("API error: " + NatToString(status))
    case NetworkError(e) => Failure(e)
  }

  /** Everything a request does: its result, the storage afterwards, whether
      it sent the window to /login, and the fetches it made in order. */
  datatype Trace = Trace(result: ApiResult, storage: Storage, toLogin: bool, sent: seq<Outbound>)

  /** What one attempt does. `done` is false exactly when a 401 was followed
      by a successful refresh, so that the request goes round again. */
  datatype Attempt = Attempt(done: bool, result: ApiResult, storage: Storage, toLogin: bool, sent: seq<Outbound>)

  function AttemptOf(baseURL: string, defaults: map<string, string>, s: Storage, endpoint: string, options: Options,
                     x: Exchange): (a: Attempt)
    ensures 1 <= |a.sent| <= 2 && a.sent[0] == Issue(baseURL, defaults, s, endpoint, options)
    ensures !a.done <==> x.response.Unauthorized() && Stored(s, REFRESH_TOKEN) && x.refresh.Ok?
    ensures a.toLogin <==> a.done && x.response.Unauthorized()
    ensures a.toLogin ==> a.result == Failure("Session expired") && a.storage == s
    ensures a.done && !a.toLogin ==> a.result == Settle(x.response) && a.storage == s && |a.sent| == 1
  {
    var request := Issue(baseURL, defaults, s, endpoint, options);
    if !x.response.Unauthorized() then
      Attempt(true, Settle(x.response), s, false, [request])
    else
      var o := TokenRefresh.Refresh(baseURL, s, x.refresh);
      if o.refreshed then Attempt(false, Unfinished, o.storage, false, [request] + AsSeq(o.sent))
      else Attempt(true, Failure("Session expired"), o.storage, true, [request] + AsSeq(o.sent))
  }

  /** request(endpoint, options) against the given exchanges: attempts follow
      one another until one is done or the exchanges run out. */
  function Run(baseURL: string, defaults: map<string, string>, s: Storage, endpoint: string, options: Options,
               rounds: seq<Exchange>): (t: Trace)
    decreases |rounds|
    ensures |t.sent| <= 2 * |rounds|
    ensures rounds != [] ==> |t.sent| >= 1 && t.sent[0] == Issue(baseURL, defaults, s, endpoint, options)
    ensures t.toLogin ==> t.result == Failure("Session expired")
    ensures t.result.Unfinished? ==> !t.toLogin
  {
    if rounds == [] then Trace(Unfinished, s, false, [])
    else
      var a := AttemptOf(baseURL, defaults, s, endpoint, options, rounds[0]);
      if a.done then Trace(a.result, a.storage, a.toLogin, a.sent)
      else
        var rest := Run(baseURL, defaults, a.storage, endpoint, options, rounds[1..]);
        Trace(rest.result, rest.storage, rest.toLogin, a.sent + rest.sent)
  }

  /** The options the convenience wrappers pass: a method, no headers, and for
      post and put the JSON encoding of the data as body. */
  function VerbInit(verb: string, body: Body): (o: Options)
    ensures o.verb == Some(verb) && o.headers == map[] && o.body == body
  {
    Options(Some(verb), map[], body)
  }

  /** `window.location.href` after a request that started at `before`. */
  function LocationAfter(t: Trace, before: Option<string>): Option<string> {
    if t.toLogin then Some("/login") else before
  }

  class Client {
    const baseURL: string
    const defaultHeaders: map<string, string>
    var storage: Storage
    /** window.location.href, when the client has assigned it */
    var location: Option<string>

    /** baseURL is NEXT_PUBLIC_API_URL, or http://localhost:3001 when that is unset or empty. */
    constructor (apiUrl: Option<string>, storage: Storage)
      ensures baseURL == OrElse(apiUrl, "http://localhost:3001") && defaultHeaders == JSON_CONTENT
      ensures this.storage == storage && location == None
    {
      baseURL := OrElse(apiUrl, "http://localhost:3001");
      defaultHeaders := JSON_CONTENT;
      this.storage := storage;
      location := None;
    }

    /** refreshToken: the shared refresh exchange against the client's base URL. */
    method RefreshToken(reply: Reply<string>) returns (refreshed: bool, sent: Option<Outbound>)
      modifies this`storage
      ensures var o := TokenRefresh.Refresh(baseURL, old(storage), reply);
        refreshed == o.refreshed && storage == o.storage && sent == o.sent
    {
      if !Stored(storage, REFRESH_TOKEN) {
        return false, None;
      }
      sent := Some(TokenRefresh.RefreshRequest(baseURL, EntryText(storage[REFRESH_TOKEN])));
      if reply.Ok? {
        storage := storage[ACCESS_TOKEN := Text(reply.payload)];
        refreshed := true;
      } else {
        refreshed := false;
      }
    }

    /** request: each attempt re-reads the token; a 401 with a successful
        refresh calls request again on the remaining exchanges, a 401 with a
        failed refresh sets the location to /login and fails with 'Session
        expired'. */
    method Request(endpoint: string, options: Options, rounds: seq<Exchange>)
      returns (result: ApiResult, sent: seq<Outbound>)
      modifies this
      ensures var t := Run(baseURL, defaultHeaders, old(storage), endpoint, options, rounds);
        result == t.result && storage == t.storage && sent == t.sent
        && location == LocationAfter(t, old(location))
      decreases |rounds|
    {
      if rounds == [] {
        return Unfinished, [];
      }
      var done, r, attemptSent := TryOnce(endpoint, options, rounds[0]);
      if done {
        return r, attemptSent;
      }
      var restSent;
      result, restSent := Request(endpoint, options, rounds[1..]);
      sent := attemptSent + restSent;
    }

    /** One attempt of request: fetch with fresh headers, and on a 401 refresh
        and either go round again or redirect to /login. */
    method TryOnce(endpoint: string, options: Options, x: Exchange)
      returns (done: bool, result: ApiResult, sent: seq<Outbound>)
      modifies this
      ensures var a := AttemptOf(baseURL, defaultHeaders, old(storage), endpoint, options, x);
        done == a.done && result == a.result && storage == a.storage && sent == a.sent
        && location == (if a.toLogin then Some("/login") else old(location))
    {
      var request := Issue(baseURL, defaultHeaders, storage, endpoint, options);
      if !x.response.Unauthorized() {
        return true, Settle(x.response), [request];
      }
      var refreshed, refreshSent := RefreshToken(x.refresh);
      sent := [request] + AsSeq(refreshSent);
      if refreshed {
        done, result := false, Unfinished;
      } else {
        location := Some("/login");
        done, result := true, Failure("Session expired");
      }
    }

    method Get(endpoint: string, rounds: seq<Exchange>) returns (result: ApiResult, sent: seq<Outbound>)
      modifies this
      ensures var t := Run(baseURL, defaultHeaders, old(storage), endpoint, VerbInit("GET", NoBody), rounds);
        result == t.result && storage == t.storage && sent == t.sent
        && location == LocationAfter(t, old(location))
    {
      result, sent := Request(endpoint, VerbInit("GET", NoBody), rounds);
    }

    method Post(endpoint: string, data: JsonObject, rounds: seq<Exchange>) returns (result: ApiResult, sent: seq<Outbound>)
      modifies this
      ensures var t := Run(baseURL, defaultHeaders, old(storage), endpoint, VerbInit("POST", JsonBody(data)), rounds);
        result == t.result && storage == t.storage && sent == t.sent
        && location == LocationAfter(t, old(location))
    {
      result, sent := Request(endpoint, VerbInit("POST", JsonBody(data)), rounds);
    }

    method Put(endpoint: string, data: JsonObject, rounds: seq<Exchange>) returns (result: ApiResult, sent: seq<Outbound>)
      modifies this
      ensures var t := Run(baseURL, defaultHeaders, old(storage), endpoint, VerbInit("PUT", JsonBody(data)), rounds);
        result == t.result && storage == t.storage && sent == t.sent
        && location == LocationAfter(t, old(location))
    {
      result, sent := Request(endpoint, VerbInit("PUT", JsonBody(data)), rounds);
    }

    method Delete(endpoint: string, rounds: seq<Exchange>) returns (result: ApiResult, sent: seq<Outbound>)
      modifies this
      ensures var t := Run(baseURL, defaultHeaders, old(storage), endpoint, VerbInit("DELETE", NoBody), rounds);
        result == t.result && storage == t.storage && sent == t.sent
        && location == LocationAfter(t, old(location))
    {
      result, sent := Request(endpoint, VerbInit("DELETE", NoBody), rounds);
    }
  }

  // ----- Properties of request -----

  /** Header precedence in every attempt: a caller header wins over the bearer
      header, which wins over the default Content-Type. */
  lemma IssuedHeaders(baseURL: string, s: Storage, endpoint: string, options: Options)
    ensures var h := Issue(baseURL, JSON_CONTENT, s, endpoint, options).init.headers;
      && ("Authorization" in options.headers ==> h["Authorization"] == options.headers["Authorization"])
      && ("Authorization" !in options.headers && Stored(s, ACCESS_TOKEN) ==>
            h["Authorization"] == "Bearer " + EntryText(s[ACCESS_TOKEN]))
      && ("Authorization" !in options.headers && !Stored(s, ACCESS_TOKEN) ==> "Authorization" !in h)
      && ("Content-Type" !in options.headers ==> h["Content-Type"] == "application/json")
  {
  }

  /** A first response other than 401 settles the request after one fetch. */
  lemma SettledWithoutRetry(baseURL: string, defaults: map<string, string>, s: Storage, endpoint: string,
                            options: Options, rounds: seq<Exchange>)
    requires rounds != [] && !rounds[0].response.Unauthorized()
    ensures var t := Run(baseURL, defaults, s, endpoint, options, rounds);
      && t == Trace(Settle(rounds[0].response), s, false, [Issue(baseURL, defaults, s, endpoint, options)])
      && (rounds[0].response.Ok? ==> t.result == Success(rounds[0].response.payload))
  {
  }

  /** A 401 whose refresh fails ends the request: location /login, 'Session
      expired', storage untouched, and no fetch after the refresh attempt. */
  lemma ExpiredSessionStops(baseURL: string, defaults: map<string, string>, s: Storage, endpoint: string,
                            options: Options, rounds: seq<Exchange>)
    requires rounds != [] && rounds[0].response.Unauthorized()
    requires !TokenRefresh.Refresh(baseURL, s, rounds[0].refresh).refreshed
    ensures var t := Run(baseURL, defaults, s, endpoint, options, rounds);
      && t.result == Failure("Session expired") && t.toLogin && t.storage == s
      && t.sent == [Issue(baseURL, defaults, s, endpoint, options)]
                   + AsSeq(TokenRefresh.Refresh(baseURL, s, rounds[0].refresh).sent)
      && (!Stored(s, REFRESH_TOKEN) ==> |t.sent| == 1)
  {
  }

  /** After a 401 and a successful refresh the same endpoint is fetched again
      with the same method and body; the new token is read from storage, so it
      is the bearer credential unless the caller supplied its own header. */
  lemma RetryReissuesRequest(baseURL: string, defaults: map<string, string>, s: Storage, endpoint: string,
                             options: Options, rounds: seq<Exchange>)
    requires |rounds| >= 2 && rounds[0].response.Unauthorized()
    requires TokenRefresh.Refresh(baseURL, s, rounds[0].refresh).refreshed
    ensures var t := Run(baseURL, defaults, s, endpoint, options, rounds);
      var token := rounds[0].refresh.payload;
      && |t.sent| >= 3
      && t.sent[1] == TokenRefresh.RefreshRequest(baseURL, EntryText(s[REFRESH_TOKEN]))
      && t.sent[2].url == t.sent[0].url == baseURL + endpoint
      && t.sent[2].init.verb == t.sent[0].init.verb == options.verb
      && t.sent[2].init.body == t.sent[0].init.body == options.body
      && ("Authorization" !in options.headers && token != "" ==>
            "Authorization" in t.sent[2].init.headers
            && t.sent[2].init.headers["Authorization"] == "Bearer " + token)
  {
    var o := TokenRefresh.Refresh(baseURL, s, rounds[0].refresh);
    var rest := Run(baseURL, defaults, o.storage, endpoint, options, rounds[1..]);
    assert rounds[1..] != [];
    assert rest.sent[0] == Issue(baseURL, defaults, o.storage, endpoint, options);
    assert GetItem(o.storage, ACCESS_TOKEN) == Some(rounds[0].refresh.payload);
  }

  /** `n` refused attempts whose refreshes all succeed. */
  function Refusals(n: nat, token: string): (r: seq<Exchange>)
    ensures |r| == n
  {
    if n == 0 then [] else [Exchange(Rejected(401, None), Ok(token))] + Refusals(n - 1, token)
  }

  /** One refused attempt followed by a successful refresh: the endpoint and
      the refresh call are fetched, the new token is stored, and the request
      continues with the remaining exchanges. */
  lemma RefusedAttempt(baseURL: string, defaults: map<string, string>, s: Storage, endpoint: string,
                       options: Options, token: string, rest: seq<Exchange>)
    requires Stored(s, REFRESH_TOKEN)
    ensures var t := Run(baseURL, defaults, s, endpoint, options, [Exchange(Rejected(401, None), Ok(token))] + rest);
      var r := Run(baseURL, defaults, s[ACCESS_TOKEN := Text(token)], endpoint, options, rest);
      t == Trace(r.result, r.storage, r.toLogin,
                 [Issue(baseURL, defaults, s, endpoint, options),
                  TokenRefresh.RefreshRequest(baseURL, EntryText(s[REFRESH_TOKEN]))] + r.sent)
  {
    var x := Exchange(Rejected(401, None), Ok(token));
    var rounds := [x] + rest;
    assert rounds[0] == x && rounds[1..] == rest;
    var request := TokenRefresh.RefreshRequest(baseURL, EntryText(s[REFRESH_TOKEN]));
    assert TokenRefresh.Refresh(baseURL, s, x.refresh) == TokenRefresh.Outcome(true, s[ACCESS_TOKEN := Text(token)], Some(request));
    assert AttemptOf(baseURL, defaults, s, endpoint, options, x)
        == Attempt(false, Unfinished, s[ACCESS_TOKEN := Text(token)], false,
                   [Issue(baseURL, defaults, s, endpoint, options), request]);
  }

  /** Prepending an endpoint fetch and a refresh call to a trace that
      alternates between the two keeps it alternating. */
  lemma Alternating(sent: seq<Outbound>, rest: seq<Outbound>, first: Outbound, refresh: Outbound, url: string, n: nat)
    requires n > 0 && sent == [first, refresh] + rest && first.url == url
    requires |rest| == 2 * (n - 1) + 1
    requires forall k :: 0 <= k <= n - 1 ==> rest[2 * k].url == url
    requires forall k :: 0 <= k < n - 1 ==> rest[2 * k + 1] == refresh
    ensures |sent| == 2 * n + 1
    ensures forall k :: 0 <= k <= n ==> sent[2 * k].url == url
    ensures forall k :: 0 <= k < n ==> sent[2 * k + 1] == refresh
  {
    forall k | 1 <= k <= n
      ensures sent[2 * k].url == url
    {
      assert sent[2 * k] == rest[2 * (k - 1)];
    }
    forall k | 1 <= k < n
      ensures sent[2 * k + 1] == refresh
    {
      assert sent[2 * k + 1] == rest[2 * (k - 1) + 1];
    }
  }

  /** There is no bound on re-issues: after any number n of 401 responses with
      successful refreshes, the request is issued an (n+1)-th time and returns
      that attempt's body. Fetches 0, 2, ..., 2n go to the endpoint, fetches
      1, 3, ..., 2n-1 are the refresh call. */
  lemma {:induction false} UnboundedReissue(n: nat, baseURL: string, defaults: map<string, string>, s: Storage,
                                            endpoint: string, options: Options, token: string, body: JsonObject)
    requires Stored(s, REFRESH_TOKEN)
    ensures var t := Run(baseURL, defaults, s, endpoint, options, Refusals(n, token) + [Exchange(Ok(body), NetworkError(""))]);
      && t.result == Success(body) && !t.toLogin
      && |t.sent| == 2 * n + 1
      && (forall k :: 0 <= k <= n ==> t.sent[2 * k].url == baseURL + endpoint)
      && (forall k :: 0 <= k < n ==>
            t.sent[2 * k + 1] == TokenRefresh.RefreshRequest(baseURL, EntryText(s[REFRESH_TOKEN])))
  {
    var last := [Exchange(Ok(body), NetworkError(""))];
    if n > 0 {
      var s' := s[ACCESS_TOKEN := Text(token)];
      var tail := Refusals(n - 1, token) + last;
      assert Refusals(n, token) + last == [Exchange(Rejected(401, None), Ok(token))] + tail;
      assert s'[REFRESH_TOKEN] == s[REFRESH_TOKEN];
      RefusedAttempt(baseURL, defaults, s, endpoint, options, token, tail);
      UnboundedReissue(n - 1, baseURL, defaults, s', endpoint, options, token, body);
      var rest := Run(baseURL, defaults, s', endpoint, options, tail);
      var t := Run(baseURL, defaults, s, endpoint, options, Refusals(n, token) + last);
      Alternating(t.sent, rest.sent, Issue(baseURL, defaults, s, endpoint, options),
                  TokenRefresh.RefreshRequest(baseURL, EntryText(s[REFRESH_TOKEN])), baseURL + endpoint, n);
    } else {
      assert Refusals(n, token) + last == last;
    }
  }
}
