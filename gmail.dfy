/** integrations/gmail.py: the Gmail REST client with its per-user access
    token cache.

    The pure part states what one call does to a `ClientState` (the token
    cache and whether the HTTP client is closed): `EnsureTokenStep` for
    `ensure_token`, `RequestStep` for `_request`, and `ListHistoryStep` /
    `GetMessageStep` for the two Gmail calls. The class `GmailClient` holds
    that state in fields and its methods are proved to move it exactly as
    those functions say.

    What lies outside the process is passed in: the clock as integer
    seconds `now`, the delegated-credential refresh as a function
    `refresh` from the impersonated user to its outcome, and the HTTP
    server as a function `transport` from request to response. */
module Gmail {
  import opened Outcomes
  import Decimal

  /** A cached token is served only while it outlives `now` by more than this. */
  const ExpiryBufferSeconds: int := 60

  const AuthorizationHeader: string := "Authorization"
  const BearerPrefix: string := "Bearer "
  const Get: string := "GET"

  /* ---------------------------------------------------------------------
     Gmail API resources, as far as the ingestion path reads them
     --------------------------------------------------------------------- */

  /** One `messagesAdded` entry; `messageId` is its `message.id`, `None` when
      the entry lacks that key. */
  datatype MessageAdded = MessageAdded(messageId: Option<string>)

  /** One history record; `messagesAdded` is absent for other change kinds. */
  datatype HistoryRecord = HistoryRecord(messagesAdded: Option<seq<MessageAdded>>)

  /** The `users.history.list` response; `history` is absent when nothing changed. */
  datatype HistoryList = HistoryList(history: Option<seq<HistoryRecord>>)

  datatype Header = Header(name: string, value: string)
  datatype MessagePart = MessagePart(headers: Option<seq<Header>>)

  /** The `users.messages.get` response in `full` format. */
  datatype Message = Message(id: string, payload: Option<MessagePart>)

  /* ---------------------------------------------------------------------
     State, requests and responses
     --------------------------------------------------------------------- */

  /** The `{token, expires_at}` dictionary kept per user. */
  datatype CachedToken = CachedToken(token: string, expiresAt: int)

  /** What `delegated_creds.refresh(Request())` ends with. */
  datatype RefreshOutcome = Refreshed(token: string, expiry: int) | RefreshFailed(cause: string)

  datatype ClientState = ClientState(cache: map<string, CachedToken>, closed: bool)

  /** The two Gmail resources the client reads, by their path parameters. */
  datatype Endpoint =
    | HistoryOf(userId: string)
    | MessageOf(userId: string, messageId: string)

  /** A request as handed to the HTTP client. The path is kept as the
      `Endpoint` it renders (`Path` gives its path), and the headers
      as the caller's `headers` plus the bearer `token` that `_request`
      adds (`SentHeaders` gives the header map sent). */
  datatype HttpRequest = HttpRequest(verb: string, endpoint: Endpoint, headers: map<string, string>,
                                     token: string, params: map<string, string>)

  /** A response with its status and decoded body, or a failure to get one. */
  datatype HttpResponse<B> = HttpResponse(status: int, body: B) | ConnectionFailed(reason: string)

  /** What `ensure_token` does: its result, the new cache, and whether it refreshed. */
  datatype TokenStep = TokenStep(result: Result<string>, cache: map<string, CachedToken>, refreshed: bool)

  /** What one API call does: its result, the new state, the users whose
      credentials were refreshed and the requests handed to the transport. */
  datatype Exchange<B> = Exchange(result: Result<B>, state: ClientState,
                                  refreshes: seq<string>, sent: seq<HttpRequest>)

  /* ---------------------------------------------------------------------
     Construction
     --------------------------------------------------------------------- */

  /** `sa_json_path or os.getenv(...)`, refused when the chosen value is
      missing or empty. */
  function ResolveCredentialPath(argument: Option<string>, environment: Option<string>): (r: Result<string>)
    ensures r.Ok? <==> (argument.Some? && argument.value != "")
                       || (environment.Some? && environment.value != "")
    ensures r.Ok? ==> r.value != ""
    ensures argument.Some? && argument.value != "" ==> r == Ok(argument.value)
    ensures !(argument.Some? && argument.value != "") && r.Ok? ==> r == Ok(environment.value)
    ensures r.Err? ==> r.error == MissingCredentialPath
  {
    var chosen := if argument.Some? && argument.value != "" then argument else environment;
    if chosen.Some? && chosen.value != "" then Ok(chosen.value) else Err(MissingCredentialPath)
  }

  /* ---------------------------------------------------------------------
     Token cache
     --------------------------------------------------------------------- */

  predicate Usable(entry: CachedToken, now: int) {
    entry.expiresAt > now + ExpiryBufferSeconds
  }

  /** `ensure_token(user)` at time `now`. */
  function EnsureTokenStep(cache: map<string, CachedToken>, user: string, now: int,
                           refresh: string -> RefreshOutcome): (s: TokenStep)
    // a usable entry is served with no refresh and no write
    ensures user in cache && Usable(cache[user], now) ==>
              s == TokenStep(Ok(cache[user].token), cache, false)
    // a refresh happens exactly when there is no entry or it expires within the buffer
    ensures s.refreshed <==> !(user in cache && cache[user].expiresAt > now + ExpiryBufferSeconds)
    // a successful refresh overwrites the user's slot and returns the new token
    ensures s.refreshed && refresh(user).Refreshed? ==>
              s.result == Ok(refresh(user).token)
              && s.cache == cache[user := CachedToken(refresh(user).token, refresh(user).expiry)]
    // a failed refresh raises and writes nothing, even over a stale entry
    ensures s.refreshed && refresh(user).RefreshFailed? ==>
              s.result == Err(AuthError(user, refresh(user).cause)) && s.cache == cache
    // the cache is left as it was or changed in this user's slot alone
    ensures s.cache == cache || (user in s.cache && s.cache == cache[user := s.cache[user]])
    // whatever token is returned is the one now cached for the user
    ensures s.result.Ok? ==> user in s.cache && s.cache[user].token == s.result.value
  {
    if user in cache && Usable(cache[user], now) then
      TokenStep(Ok(cache[user].token), cache, false)
    else
      match refresh(user)
      case RefreshFailed(cause) => TokenStep(Err(AuthError(user, cause)), cache, true)
      case Refreshed(token, expiry) =>
        TokenStep(Ok(token), cache[user := CachedToken(token, expiry)], true)
  }

  /** `ensure_token` never touches another user's entry, and adds no user but its own. */
  lemma EnsureTokenStepKeepsOthers(cache: map<string, CachedToken>, user: string, now: int,
                                   refresh: string -> RefreshOutcome)
    ensures var s := EnsureTokenStep(cache, user, now, refresh);
            && (forall u :: u in cache && u != user ==> u in s.cache && s.cache[u] == cache[u])
            && s.cache.Keys <= cache.Keys + {user}
  {
  }

  /** A token just refreshed with more than the buffer left is served from
      the cache by the next call at the same time, with no refresh. */
  lemma RefreshedTokenIsServed(cache: map<string, CachedToken>, user: string, now: int,
                               refresh: string -> RefreshOutcome, later: string -> RefreshOutcome)
    requires EnsureTokenStep(cache, user, now, refresh).refreshed
    requires refresh(user).Refreshed? && refresh(user).expiry > now + ExpiryBufferSeconds
    ensures var first := EnsureTokenStep(cache, user, now, refresh);
            var second := EnsureTokenStep(first.cache, user, now, later);
            && !second.refreshed && second.cache == first.cache && second.result == first.result
  {
  }

  /** Where the entry cached for `user` in `cache` can have come from,
      counting from the cache `origin`: it is the entry `origin` had, or
      the token and expiry the refresher hands out for `user`. */
  predicate CachedFrom(cache: map<string, CachedToken>, origin: map<string, CachedToken>, user: string,
                       refresh: string -> RefreshOutcome) {
    user in cache ==>
      || (user in origin && cache[user] == origin[user])
      || (refresh(user).Refreshed? && cache[user] == CachedToken(refresh(user).token, refresh(user).expiry))
  }

  /** `ensure_token` caches for `user` only what the refresher hands out. */
  lemma EnsureTokenStepCachedFrom(cache: map<string, CachedToken>, origin: map<string, CachedToken>,
                                  user: string, now: int, refresh: string -> RefreshOutcome)
    requires CachedFrom(cache, origin, user, refresh)
    ensures CachedFrom(EnsureTokenStep(cache, user, now, refresh).cache, origin, user, refresh)
  {
  }

  /** After `close` every user's next call refreshes. */
  lemma EmptyCacheRefreshes(user: string, now: int, refresh: string -> RefreshOutcome)
    ensures EnsureTokenStep(map[], user, now, refresh).refreshed
  {
  }

  /* ---------------------------------------------------------------------
     Requests
     --------------------------------------------------------------------- */

  /** The credential of section 2.1 of RFC 6750: "Bearer", one space, the token. */
  function BearerCredential(token: string): (v: string)
    ensures BearerToken(v) == Some(token)
  {
    BearerPrefix + token
  }

  /** The token carried by an `Authorization` value of the `Bearer` form. */
  function BearerToken(v: string): (t: Option<string>)
    ensures t.Some? <==> |v| >= |BearerPrefix| && v[..|BearerPrefix|] == BearerPrefix
    ensures t.Some? ==> BearerPrefix + t.value == v
  {
    if |v| >= |BearerPrefix| && v[..|BearerPrefix|] == BearerPrefix
    then Some(v[|BearerPrefix|..]) else None
  }

  /** `headers["Authorization"] = f"Bearer {token}"` on the caller's headers. */
  function WithAuthorization(headers: map<string, string>, token: string): (h: map<string, string>)
    ensures AuthorizationHeader in h && BearerToken(h[AuthorizationHeader]) == Some(token)
    ensures forall k :: k in headers && k != AuthorizationHeader ==> k in h && h[k] == headers[k]
    ensures h.Keys == headers.Keys + {AuthorizationHeader}
  {
    headers[AuthorizationHeader := BearerCredential(token)]
  }

  predicate IsSuccess(status: int) {
    200 <= status < 300
  }

  /** `response.raise_for_status()` then the body. */
  function Interpret<B>(response: HttpResponse<B>): (r: Result<B>)
    ensures r.Ok? <==> response.HttpResponse? && IsSuccess(response.status)
    ensures r.Ok? ==> r.value == response.body
    ensures response.HttpResponse? && !IsSuccess(response.status) ==>
              r == Err(HttpStatusError(response.status))
    ensures response.ConnectionFailed? ==> r == Err(TransportError(response.reason))
  {
    match response
    case ConnectionFailed(reason) => Err(TransportError(reason))
    case HttpResponse(status, body) =>
      if IsSuccess(status) then Ok(body) else Err(HttpStatusError(status))
  }

  /** `_request(verb, endpoint, user, headers=headers, params=params)`. */
  function RequestStep<B>(st: ClientState, verb: string, endpoint: Endpoint, user: string,
                          headers: map<string, string>, params: map<string, string>,
                          now: int, refresh: string -> RefreshOutcome,
                          transport: HttpRequest -> HttpResponse<B>): (x: Exchange<B>)
    // the cache moves only as ensure_token moves it, and only for this user
    ensures x.state == ClientState(EnsureTokenStep(st.cache, user, now, refresh).cache, st.closed)
    ensures x.refreshes == if EnsureTokenStep(st.cache, user, now, refresh).refreshed then [user] else []
    // one request at most: no retry
    ensures |x.sent| <= 1
    // a request goes out exactly when a token was obtained and the client is open
    ensures |x.sent| == 1 <==> EnsureTokenStep(st.cache, user, now, refresh).result.Ok? && !st.closed
    ensures EnsureTokenStep(st.cache, user, now, refresh).result.Err? ==>
              x.result == Err(EnsureTokenStep(st.cache, user, now, refresh).result.error)
    ensures EnsureTokenStep(st.cache, user, now, refresh).result.Ok? && st.closed ==>
              x.result == Err(ClientClosed)
    // the request sent: this verb, endpoint and query, the caller's headers, and
    // the bearer token that ensure_token left cached for the same user
    ensures |x.sent| == 1 ==>
              && x.sent[0].verb == verb
              && x.sent[0].endpoint == endpoint
              && x.sent[0].params == params
              && user in x.state.cache
              && x.sent[0].headers == headers
              && x.sent[0].token == x.state.cache[user].token
    // its outcome is the transport's answer to that request, non-2xx raising
    ensures |x.sent| == 1 ==> x.result == Interpret(transport(x.sent[0]))
    ensures x.result.Ok? ==> |x.sent| == 1
  {
    var t := EnsureTokenStep(st.cache, user, now, refresh);
    var next := ClientState(t.cache, st.closed);
    var refreshes := if t.refreshed then [user] else [];
    if t.result.Err? then Exchange(Err(t.result.error), next, refreshes, [])
    else if st.closed then Exchange(Err(ClientClosed), next, refreshes, [])
    else
      var request := HttpRequest(verb, endpoint, headers, t.result.value, params);
      Exchange(Interpret(transport(request)), next, refreshes, [request])
  }

  /** The f-string path of each endpoint, relative to the client's base URL. */
  function Path(e: Endpoint): string {
    match e
    case HistoryOf(userId) => "/users/" + userId + "/history"
    case MessageOf(userId, messageId) => "/users/" + userId + "/messages/" + messageId
  }

  /** The headers sent: the caller's, with `Authorization` set to the bearer token. */
  function SentHeaders(request: HttpRequest): map<string, string> {
    WithAuthorization(request.headers, request.token)
  }

  /** The sent `Authorization` header is `Bearer <token>` whatever the caller
      put there, and every other header of the caller goes out unchanged. */
  lemma SentHeadersAuthorize(request: HttpRequest)
    ensures AuthorizationHeader in SentHeaders(request)
    ensures SentHeaders(request)[AuthorizationHeader] == BearerPrefix + request.token
    ensures forall k :: k in request.headers && k != AuthorizationHeader ==>
                          k in SentHeaders(request) && SentHeaders(request)[k] == request.headers[k]
    ensures SentHeaders(request).Keys == request.headers.Keys + {AuthorizationHeader}
  {
  }

  /** Different message ids of one user give different path strings. */
  lemma {:induction false} MessagePathsDiffer(userId: string, a: string, b: string)
    requires a != b
    ensures Path(MessageOf(userId, a)) != Path(MessageOf(userId, b))
  {
    var prefix := "/users/" + userId + "/messages/";
    assert Path(MessageOf(userId, a)) == prefix + a;
    assert Path(MessageOf(userId, b)) == prefix + b;
    assert (prefix + a)[|prefix|..] == a;
    assert (prefix + b)[|prefix|..] == b;
  }

  function HistoryParams(startHistoryId: int): (p: map<string, string>)
    ensures p.Keys == {"startHistoryId", "historyTypes"}
    // `str(start_history_id)`: the one integer text that reads back as the id
    ensures p["startHistoryId"] == Decimal.IntToString(startHistoryId)
    ensures Decimal.IsIntText(p["startHistoryId"])
    ensures Decimal.ParseInt(p["startHistoryId"]) == startHistoryId
    ensures p["historyTypes"] == "messageAdded"
  {
    Decimal.IntToStringRoundTrip(startHistoryId);
    map["startHistoryId" := Decimal.IntToString(startHistoryId), "historyTypes" := "messageAdded"]
  }

  const MessageParams: map<string, string> := map["format" := "full"]

  /** The request `list_history(user_id, start_history_id, ...)` issues. */
  predicate IsHistoryRequest(request: HttpRequest, userId: string, startHistoryId: int) {
    && request.verb == Get
    && request.endpoint == HistoryOf(userId)
    && request.params == HistoryParams(startHistoryId)
  }

  /** The request `get_message(user_id, message_id, ...)` issues. */
  predicate IsMessageRequest(request: HttpRequest, userId: string, messageId: string) {
    && request.verb == Get
    && request.endpoint == MessageOf(userId, messageId)
    && request.params == MessageParams
  }

  /** The request adds no header of its own and carries the bearer token
      cached for `user` in `cache`. */
  predicate AuthorizedAs(request: HttpRequest, cache: map<string, CachedToken>, user: string) {
    user in cache && request.headers == map[] && request.token == cache[user].token
  }

  /** The request adds no header of its own and carries a bearer token of
      `user`'s: the one cached for `user` in `origin`, or one the refresher
      handed out for `user`. */
  predicate ActsAs(request: HttpRequest, origin: map<string, CachedToken>, user: string,
                   refresh: string -> RefreshOutcome) {
    && request.headers == map[]
    && (|| (user in origin && request.token == origin[user].token)
        || (refresh(user).Refreshed? && request.token == refresh(user).token))
  }

  /** `list_history(user_id, start_history_id, user)`. */
  function ListHistoryStep(st: ClientState, userId: string, startHistoryId: int, user: string,
                           now: int, refresh: string -> RefreshOutcome,
                           transport: HttpRequest -> HttpResponse<HistoryList>): (x: Exchange<HistoryList>)
    ensures |x.sent| <= 1
    ensures |x.sent| == 1 ==> (IsHistoryRequest(x.sent[0], userId, startHistoryId)
                               && AuthorizedAs(x.sent[0], x.state.cache, user))
    ensures |x.sent| == 1 ==> x.result == Interpret(transport(x.sent[0]))
    ensures x.result.Ok? ==> |x.sent| == 1
    ensures x.state.closed == st.closed
    ensures x.state.cache == EnsureTokenStep(st.cache, user, now, refresh).cache
    ensures forall k :: 0 <= k < |x.refreshes| ==> x.refreshes[k] == user
  {
    RequestStep(st, Get, HistoryOf(userId), user, map[], HistoryParams(startHistoryId),
                now, refresh, transport)
  }

  /** `list_history` sends only a token of `user`'s and caches no other for `user`. */
  lemma ListHistoryStepActsAs(st: ClientState, userId: string, startHistoryId: int, user: string,
                              now: int, refresh: string -> RefreshOutcome,
                              transport: HttpRequest -> HttpResponse<HistoryList>)
    ensures var x := ListHistoryStep(st, userId, startHistoryId, user, now, refresh, transport);
            && CachedFrom(x.state.cache, st.cache, user, refresh)
            && forall k :: 0 <= k < |x.sent| ==> ActsAs(x.sent[k], st.cache, user, refresh)
  {
    EnsureTokenStepCachedFrom(st.cache, st.cache, user, now, refresh);
  }

  /** `get_message(user_id, message_id, user)`. */
  function GetMessageStep(st: ClientState, userId: string, messageId: string, user: string,
                          now: int, refresh: string -> RefreshOutcome,
                          transport: HttpRequest -> HttpResponse<Message>): (x: Exchange<Message>)
    ensures |x.sent| <= 1
    ensures |x.sent| == 1 ==> (IsMessageRequest(x.sent[0], userId, messageId)
                               && AuthorizedAs(x.sent[0], x.state.cache, user))
    ensures |x.sent| == 1 ==> x.result == Interpret(transport(x.sent[0]))
    ensures x.result.Ok? ==> |x.sent| == 1
    ensures x.state.closed == st.closed
    ensures x.state.cache == EnsureTokenStep(st.cache, user, now, refresh).cache
    ensures forall k :: 0 <= k < |x.refreshes| ==> x.refreshes[k] == user
  {
    RequestStep(st, Get, MessageOf(userId, messageId), user, map[], MessageParams,
                now, refresh, transport)
  }

  /* ---------------------------------------------------------------------
     The client object
     --------------------------------------------------------------------- */

  class GmailClient {
    /** The service-account file the base credentials are loaded from. */
    const credentialPath: string
    /** `self.__token_cache`: user -> {token, expires_at}. */
    var tokenCache: map<string, CachedToken>
    /** Whether `close` has closed the underlying HTTP client. */
    var closed: bool
    /** Users whose delegated credentials were refreshed, in order. */
    ghost var refreshLog: seq<string>
    /** Requests handed to the transport, in order. */
    ghost var sentLog: seq<HttpRequest>

    function State(): ClientState
      reads this
    {
      ClientState(tokenCache, closed)
    }

    constructor (credentialPath: string)
      requires credentialPath != ""
      ensures this.credentialPath == credentialPath
      ensures tokenCache == map[] && !closed
      ensures refreshLog == [] && sentLog == []
    {
      this.credentialPath := credentialPath;
      tokenCache := map[];
      closed := false;
      refreshLog := [];
      sentLog := [];
    }

    /** `GmailClient(sa_json_path)`, with the environment variable's value passed in. */
    static method Create(saJsonPath: Option<string>, environment: Option<string>) returns (r: Result<GmailClient>)
      ensures r.Ok? <==> ResolveCredentialPath(saJsonPath, environment).Ok?
      ensures r.Err? ==> r.error == MissingCredentialPath
      ensures r.Ok? ==> && fresh(r.value)
                        && r.value.credentialPath == ResolveCredentialPath(saJsonPath, environment).value
                        && r.value.tokenCache == map[] && !r.value.closed
                        && r.value.refreshLog == [] && r.value.sentLog == []
    {
      var path := ResolveCredentialPath(saJsonPath, environment);
      if path.Err? {
        return Err(path.error);
      }
      var client := new GmailClient(path.value);
      return Ok(client);
    }

    /** `ensure_token(user)` at time `now`. */
    method EnsureToken(user: string, now: int, refresh: string -> RefreshOutcome) returns (r: Result<string>)
      modifies this`tokenCache, this`refreshLog
      ensures var s := EnsureTokenStep(old(tokenCache), user, now, refresh);
              && r == s.result
              && tokenCache == s.cache
              && refreshLog == old(refreshLog) + (if s.refreshed then [user] else [])
    {
      if user in tokenCache && tokenCache[user].expiresAt > now + ExpiryBufferSeconds {
        return Ok(tokenCache[user].token);
      }
      refreshLog := refreshLog + [user];
      var outcome := refresh(user);
      match outcome
      case RefreshFailed(cause) =>
        return Err(AuthError(user, cause));
      case Refreshed(token, expiry) =>
        tokenCache := tokenCache[user := CachedToken(token, expiry)];
        return Ok(token);
    }

    /** `_request(verb, endpoint, user, headers=headers, params=params)`. */
    method Request<B>(verb: string, endpoint: Endpoint, user: string,
                      headers: map<string, string>, params: map<string, string>,
                      now: int, refresh: string -> RefreshOutcome,
                      transport: HttpRequest -> HttpResponse<B>) returns (r: Result<B>)
      modifies this`tokenCache, this`refreshLog, this`sentLog
      ensures var x := RequestStep(old(State()), verb, endpoint, user, headers, params, now, refresh, transport);
              && r == x.result
              && State() == x.state
              && refreshLog == old(refreshLog) + x.refreshes
              && sentLog == old(sentLog) + x.sent
    {
      var token := EnsureToken(user, now, refresh);
      if token.Err? {
        return Err(token.error);
      }
      if closed {
        return Err(ClientClosed);
      }
      var request := HttpRequest(verb, endpoint, headers, token.value, params);
      sentLog := sentLog + [request];
      var response := transport(request);
      r := Interpret(response);
    }

    /** `list_history(user_id, start_history_id, user)`. */
    method ListHistory(userId: string, startHistoryId: int, user: string,
                       now: int, refresh: string -> RefreshOutcome,
                       transport: HttpRequest -> HttpResponse<HistoryList>) returns (r: Result<HistoryList>)
      modifies this`tokenCache, this`refreshLog, this`sentLog
      ensures var x := ListHistoryStep(old(State()), userId, startHistoryId, user, now, refresh, transport);
              && r == x.result
              && State() == x.state
              && refreshLog == old(refreshLog) + x.refreshes
              && sentLog == old(sentLog) + x.sent
    {
      r := Request(Get, HistoryOf(userId), user, map[], HistoryParams(startHistoryId),
                   now, refresh, transport);
    }

    /** `get_message(user_id, message_id, user)`. */
    method GetMessage(userId: string, messageId: string, user: string,
                      now: int, refresh: string -> RefreshOutcome,
                      transport: HttpRequest -> HttpResponse<Message>) returns (r: Result<Message>)
      modifies this`tokenCache, this`refreshLog, this`sentLog
      ensures var x := GetMessageStep(old(State()), userId, messageId, user, now, refresh, transport);
              && r == x.result
              && State() == x.state
              && refreshLog == old(refreshLog) + x.refreshes
              && sentLog == old(sentLog) + x.sent
    {
      r := Request(Get, MessageOf(userId, messageId), user, map[], MessageParams,
                   now, refresh, transport);
    }

    /** `close()`: closes the HTTP client and empties the token cache. */
    method Close()
      modifies this`tokenCache, this`closed
      ensures tokenCache == map[] && closed
    {
      closed := true;
      tokenCache := map[];
    }

    /** `__aexit__`: leaving the `async with` block closes the client. */
    method Exit()
      modifies this`tokenCache, this`closed
      ensures tokenCache == map[] && closed
    {
      Close();
    }
  }
}
