/** The cloud API client: a cached bearer token, lazy login, the one-shot retry on an
    HTTP 401, and the fixed form bodies of each endpoint. The cloud itself is a
    scripted server: its answer to the n-th call it receives is `respond(n, call)`. */
module Api {
  import opened PyJson
  import Const

  const UserAgent := "Jeedom plugin"
  const LoginVersion := "393-J"

  datatype Method = GET | POST

  /** One logical request: method, endpoint and the dict the code passes as the form
      body (`data=`). The URL encoding of that dict is not modelled: on the wire a value
      is sent as its text, so `1` and `"1"` would be the same bytes. */
  datatype Request = Request(verb: Method, url: string, form: map<string, Json>)

  /** One HTTP call as the server receives it: the request and the token interpolated
      into its `Authorization: Bearer ...` header (None for the login POST, which sends
      no Authorization header). */
  datatype Call = Call(request: Request, bearer: Option<Json>)

  /** What the server does with one call: answer with a status and a body (None when
      the body is not JSON), fail at the connection level, or not answer in time. */
  datatype Response =
    | Reply(status: int, body: Option<Json>)
    | ConnectionFailed
    | TimedOut

  /** `response.raise_for_status()` followed by `await response.json(content_type=None)`. */
  function Decode(resp: Response): Result<Json> {
    match resp
    case Reply(status, body) =>
      if status >= 400 then Raise(ClientResponseError(status))
      else if body.Some? then Ok(body.value)
      else Raise(JsonDecodeError)
    case ConnectionFailed => Raise(ClientConnectionError)
    case TimedOut => Raise(Timeout)
  }

  /** The one outcome that triggers a re-login and a retry. */
  predicate Unauthorized(o: Result<Json>) {
    o == Raise(ClientResponseError(401))
  }

  lemma UnauthorizedIsStatus401(resp: Response)
    ensures Unauthorized(Decode(resp)) <==> resp.Reply? && resp.status == 401
  {
  }

  // ---------------------------------------------------------------- request bodies

  function LoginForm(username: string, hashedPassword: string): map<string, Json> {
    map["login" := JStr(username), "password" := JStr(hashedPassword), "version" := JStr(LoginVersion)]
  }

  function LoginRequest(username: string, hashedPassword: string): Request {
    Request(POST, Const.ApiUrlLogin, LoginForm(username, hashedPassword))
  }

  function IndexRequest(): Request {
    Request(GET, Const.ApiUrlGetIndex, map[])
  }

  function PoolDetailsRequest(systemId: Json): Request {
    Request(POST, Const.ApiUrlGetPoolDetails, map["poolID" := systemId])
  }

  function SetOutRequest(systemId: Json, outIndex: Json, mode: int, state: int): Request {
    Request(POST, Const.ApiUrlSetOut,
      map["poolID" := systemId, "outIdx" := outIndex, "newMode" := JInt(mode),
          "newState" := JInt(state), "comMode" := JInt(1)])
  }

  function SetParamRequest(systemId: Json, paramId: Json, value: Json): Request {
    Request(POST, Const.ApiUrlSetParam,
      map["poolID" := systemId, "paramID" := paramId, "newValue" := value, "comMode" := JInt(1)])
  }

  /** The login form carries the user name, the digest of the password and the fixed
      client version, and the credentials can be read back from it unchanged. */
  lemma LoginFormContents(username: string, hashedPassword: string)
    ensures LoginForm(username, hashedPassword).Keys == {"login", "password", "version"}
    ensures LoginForm(username, hashedPassword)["login"] == JStr(username)
    ensures LoginForm(username, hashedPassword)["password"] == JStr(hashedPassword)
    ensures LoginForm(username, hashedPassword)["version"] == JStr("393-J")
  {
  }

  /** A set-output command reaches the server with its four arguments unchanged and
      comMode 1: two commands produce the same request only if all their arguments
      agree, and no set-output request is a set-param, detail, index or login request. */
  lemma SetOutRequestFaithful(s1: Json, i1: Json, m1: int, st1: int, s2: Json, i2: Json, m2: int, st2: int)
    ensures SetOutRequest(s1, i1, m1, st1).form["comMode"] == JInt(1)
    ensures SetOutRequest(s1, i1, m1, st1) == SetOutRequest(s2, i2, m2, st2) <==>
              s1 == s2 && i1 == i2 && m1 == m2 && st1 == st2
    ensures forall id, p, v :: SetOutRequest(s1, i1, m1, st1) != SetParamRequest(id, p, v)
    ensures forall id :: SetOutRequest(s1, i1, m1, st1) != PoolDetailsRequest(id)
    ensures forall u, h :: SetOutRequest(s1, i1, m1, st1) != LoginRequest(u, h)
    ensures SetOutRequest(s1, i1, m1, st1) != IndexRequest()
  {
    Const.EndpointsDistinct();
    var a, b := SetOutRequest(s1, i1, m1, st1), SetOutRequest(s2, i2, m2, st2);
    if a == b {
      assert a.form["poolID"] == b.form["poolID"] && a.form["outIdx"] == b.form["outIdx"];
      assert a.form["newMode"] == b.form["newMode"] && a.form["newState"] == b.form["newState"];
    }
  }

  /** A set-param command reaches the server with its three arguments unchanged and
      comMode 1, and two commands produce the same request only if they agree. */
  lemma SetParamRequestFaithful(s1: Json, p1: Json, v1: Json, s2: Json, p2: Json, v2: Json)
    ensures SetParamRequest(s1, p1, v1).form["comMode"] == JInt(1)
    ensures SetParamRequest(s1, p1, v1) == SetParamRequest(s2, p2, v2) <==> s1 == s2 && p1 == p2 && v1 == v2
    ensures forall id :: SetParamRequest(s1, p1, v1) != PoolDetailsRequest(id)
    ensures forall u, h :: SetParamRequest(s1, p1, v1) != LoginRequest(u, h)
  {
    Const.EndpointsDistinct();
    var a, b := SetParamRequest(s1, p1, v1), SetParamRequest(s2, p2, v2);
    if a == b {
      assert a.form["poolID"] == b.form["poolID"] && a.form["paramID"] == b.form["paramID"];
      assert a.form["newValue"] == b.form["newValue"];
    }
  }

  // ---------------------------------------------------------------- login answer

  /** The token `login` stores from a decoded answer: `jwt` when the answer has it, else
      `token`, else KlereoApiError. The tests use Python's `in` and `[]`, so an answer
      that is not a dict either has neither key or raises TypeError. */
  function TokenFrom(data: Json): (r: Result<Json>)
    ensures r.Ok? ==> data.JObj? && ("jwt" in data.fields || "token" in data.fields)
    ensures data.JObj? && "jwt" in data.fields ==> r == Ok(data.fields["jwt"])
    ensures data.JObj? && "jwt" !in data.fields && "token" in data.fields ==> r == Ok(data.fields["token"])
    ensures data.JObj? && "jwt" !in data.fields && "token" !in data.fields ==> r == Raise(KlereoApiError)
    ensures r.Raise? ==> r.exc == KlereoApiError || (r.exc == TypeError && !data.JObj?)
  {
    match In("jwt", data)
    case Raise(e) => Raise(e)
    case Ok(hasJwt) =>
      if hasJwt then Subscript(data, "jwt")
      else
        match In("token", data)
        case Raise(e) => Raise(e)
        case Ok(hasToken) =>
          if hasToken then Subscript(data, "token")
          else Raise(KlereoApiError)
  }

  /** What one login call yields: the token to store, or the exception `login` raises. */
  function LoginResult(resp: Response): Result<Json> {
    var data :- Decode(resp);
    TokenFrom(data)
  }

  /** Both answer shapes the service has used give the same token, and `jwt` wins
      when an answer carries both. */
  lemma TokenShapes(t: Json, u: Json)
    ensures TokenFrom(JObj(map["jwt" := t])) == Ok(t)
    ensures TokenFrom(JObj(map["token" := t])) == Ok(t)
    ensures TokenFrom(JObj(map["jwt" := t, "token" := u])) == Ok(t)
    ensures TokenFrom(JObj(map[])) == Raise(KlereoApiError)
  {
  }

  /** The Authorization header `_get_auth_header` builds: f"Bearer {token}". A `Call`
      carries the token itself; this is the text the server receives for it. */
  function AuthorizationHeader(token: Json): seq<Piece> {
    [Text("Bearer "), Value(token)]
  }

  lemma AuthorizationOfStringToken(s: string)
    ensures Render(AuthorizationHeader(JStr(s))) == Some("Bearer " + s)
  {
    var h := AuthorizationHeader(JStr(s));
    assert h[1..] == [Value(JStr(s))];
    assert h[1..][1..] == [];
    assert Render(h[1..][1..]) == Some("");
    assert s + "" == s;
    assert Render(h[1..]) == Some(s);
  }

  // ---------------------------------------------------------------- the retry machine

  /** What a run of the client did: the value returned or exception raised, the token
      cached afterwards, and the calls the server received, in order. */
  datatype Trace = Trace(result: Result<Json>, token: Json, sent: seq<Call>)

  /** `_get_auth_header`: with a truthy cached token, no call; otherwise one login call,
      whose token (or exception) is the outcome. The result is the token to send. */
  function Authorize(login: Request, respond: (nat, Call) -> Response, n: nat, token: Json): Trace {
    if Truthy(token) then Trace(Ok(token), token, [])
    else
      var call := Call(login, None);
      match LoginResult(respond(n, call))
      case Ok(newToken) => Trace(Ok(newToken), newToken, [call])
      case Raise(e) => Trace(Raise(e), token, [call])
  }

  /** `_request_with_retry(req)` against a server that answers its n-th call with
      `respond(n, call)`, starting from call number `n` with `token` cached. */
  function Retry(login: Request, respond: (nat, Call) -> Response, n: nat, token: Json, req: Request): Trace {
    var a := Authorize(login, respond, n, token);
    if a.result.Raise? then a
    else
      var s := Attempt(login, respond, n + |a.sent|, a.result.value, req);
      Trace(s.result, s.token, a.sent + s.sent)
  }

  /** The `try` block from call number `m` on, with `token` in the header: one send; a
      401 hands over to the `except` branch, any other answer is the result. */
  function Attempt(login: Request, respond: (nat, Call) -> Response, m: nat, token: Json, req: Request): Trace {
    var first := Call(req, Some(token));
    var o := Decode(respond(m, first));
    if !Unauthorized(o) then Trace(o, token, [first])
    else
      var b := SecondAttempt(login, respond, m + 1, req);
      Trace(b.result, b.token, [first] + b.sent)
  }

  /** The `except` branch after a 401, from call number `n` on: with the token cleared,
      authorize again (a login call) and send the request once more; whatever that
      second attempt gives is final. */
  function SecondAttempt(login: Request, respond: (nat, Call) -> Response, n: nat, req: Request): Trace {
    var b := Authorize(login, respond, n, JNull);
    if b.result.Raise? then b
    else
      var second := Call(req, Some(b.result.value));
      Trace(Decode(respond(n + |b.sent|, second)), b.token, b.sent + [second])
  }


  /** How many calls of `sent` carry request `req`. */
  function Attempts(sent: seq<Call>, req: Request): nat {
    if sent == [] then 0
    else (if sent[0].request == req then 1 else 0) + Attempts(sent[1..], req)
  }

  lemma {:induction false} AttemptsAppend(a: seq<Call>, b: seq<Call>, req: Request)
    ensures Attempts(a + b, req) == Attempts(a, req) + Attempts(b, req)
    decreases |a|
  {
    if a != [] {
      assert (a + b)[0] == a[0];
      assert (a + b)[1..] == a[1..] + b;
      AttemptsAppend(a[1..], b, req);
    } else {
      assert a + b == b;
    }
  }

  /** Login happens lazily: a truthy cached token is sent as it is, and only a missing
      or falsy one makes the first call a login. */
  lemma LazyLogin(login: Request, respond: (nat, Call) -> Response, n: nat, token: Json, req: Request)
    ensures var t := Retry(login, respond, n, token, req);
      |t.sent| > 0 &&
      (Truthy(token) ==> t.sent[0] == Call(req, Some(token))) &&
      (!Truthy(token) ==> t.sent[0] == Call(login, None))
  {
  }

  /** Authorization sends nothing when a truthy token is cached and exactly one login
      call otherwise; when it succeeds, the token it returns is the one it caches. */
  lemma AuthorizeShape(login: Request, respond: (nat, Call) -> Response, n: nat, token: Json)
    ensures var a := Authorize(login, respond, n, token);
      a.sent == (if Truthy(token) then [] else [Call(login, None)]) &&
      (a.result.Ok? ==> a.token == a.result.value) &&
      (a.result.Raise? ==> a.token == token)
  {
  }

  lemma AttemptsSingle(c: Call, req: Request)
    ensures Attempts([c], req) == if c.request == req then 1 else 0
  {
    assert [c][1..] == [];
  }

  /** The `try` block sends the request at most twice and logs in at most once. */
  lemma AttemptBounded(login: Request, respond: (nat, Call) -> Response, m: nat, token: Json, req: Request)
    requires req != login
    ensures var s := Attempt(login, respond, m, token, req);
      Attempts(s.sent, req) <= 2 && Attempts(s.sent, login) <= 1 && |s.sent| <= 3 &&
      forall i :: 0 <= i < |s.sent| ==> s.sent[i] == Call(login, None) || s.sent[i].request == req
  {
    var s := Attempt(login, respond, m, token, req);
    var first, loginCall := Call(req, Some(token)), Call(login, None);
    AttemptsSingle(first, req);
    AttemptsSingle(first, login);
    if Unauthorized(Decode(respond(m, first))) {
      var b := Authorize(login, respond, m + 1, JNull);
      AuthorizeShape(login, respond, m + 1, JNull);
      AttemptsSingle(loginCall, req);
      AttemptsSingle(loginCall, login);
      AttemptsAppend([first], [loginCall], req);
      AttemptsAppend([first], [loginCall], login);
      if b.result.Ok? {
        var second := Call(req, Some(b.result.value));
        AttemptsSingle(second, req);
        AttemptsSingle(second, login);
        AttemptsAppend([first, loginCall], [second], req);
        AttemptsAppend([first, loginCall], [second], login);
        assert s.sent == [first, loginCall] + [second];
      } else {
        assert s.sent == [first] + [loginCall];
      }
    }
  }

  /** No third attempt: whatever the server answers, a request is sent at most twice
      and login is called at most twice, and nothing else is sent. */
  lemma AtMostOneRetry(login: Request, respond: (nat, Call) -> Response, n: nat, token: Json, req: Request)
    requires req != login
    ensures var t := Retry(login, respond, n, token, req);
      Attempts(t.sent, req) <= 2 && Attempts(t.sent, login) <= 2 && |t.sent| <= 4 &&
      forall i :: 0 <= i < |t.sent| ==> t.sent[i] == Call(login, None) || t.sent[i].request == req
  {
    var loginCall := Call(login, None);
    var a := Authorize(login, respond, n, token);
    AuthorizeShape(login, respond, n, token);
    assert Attempts(a.sent, req) == 0 && Attempts(a.sent, login) <= 1 by {
      AttemptsSingle(loginCall, req);
      AttemptsSingle(loginCall, login);
    }
    if a.result.Ok? {
      var s := Attempt(login, respond, n + |a.sent|, a.result.value, req);
      AttemptBounded(login, respond, n + |a.sent|, a.result.value, req);
      AttemptsAppend(a.sent, s.sent, req);
      AttemptsAppend(a.sent, s.sent, login);
      assert Retry(login, respond, n, token, req).sent == a.sent + s.sent;
    }
  }

  /** Only a 401 is retried: once authorization has given a token (the cached one, or
      a lazy login's), any other answer to the first attempt, success or failure, is the
      result as it is, after exactly one send of the request. */
  lemma OtherOutcomesNotRetried(login: Request, respond: (nat, Call) -> Response, n: nat, token: Json, req: Request)
    requires Authorize(login, respond, n, token).result.Ok?
    requires var a := Authorize(login, respond, n, token);
      !Unauthorized(Decode(respond(n + |a.sent|, Call(req, Some(a.result.value)))))
    ensures var a := Authorize(login, respond, n, token);
      var first := Call(req, Some(a.result.value));
      Retry(login, respond, n, token, req) ==
        Trace(Decode(respond(n + |a.sent|, first)), a.result.value, a.sent + [first])
  {
  }

  /** A 401 clears the token, forces one login and re-sends the identical request with
      the new token exactly once; the answer to the retry is final, so a second 401
      propagates. */
  lemma UnauthorizedRetriedOnce(login: Request, respond: (nat, Call) -> Response, n: nat, token: Json, req: Request, newToken: Json)
    requires Authorize(login, respond, n, token).result.Ok?
    requires var a := Authorize(login, respond, n, token); var m := n + |a.sent|;
      Unauthorized(Decode(respond(m, Call(req, Some(a.result.value))))) &&
      LoginResult(respond(m + 1, Call(login, None))) == Ok(newToken)
    ensures var a := Authorize(login, respond, n, token); var m := n + |a.sent|;
      var t := Retry(login, respond, n, token, req);
      t.sent == a.sent + [Call(req, Some(a.result.value)), Call(login, None), Call(req, Some(newToken))] &&
      t.token == newToken &&
      t.result == Decode(respond(m + 2, Call(req, Some(newToken))))
    ensures var m := n + |Authorize(login, respond, n, token).sent|;
      Unauthorized(Decode(respond(m + 2, Call(req, Some(newToken))))) ==>
        Retry(login, respond, n, token, req).result == Raise(ClientResponseError(401))
  {
  }

  /** When the re-login after a 401 fails, its exception propagates, the request is not
      re-sent and the cleared token stays cleared. */
  lemma ReloginFailurePropagates(login: Request, respond: (nat, Call) -> Response, n: nat, token: Json, req: Request)
    requires Truthy(token)
    requires Unauthorized(Decode(respond(n, Call(req, Some(token)))))
    requires LoginResult(respond(n + 1, Call(login, None))).Raise?
    ensures var t := Retry(login, respond, n, token, req);
      t.sent == [Call(req, Some(token)), Call(login, None)] &&
      t.token == JNull &&
      t.result == LoginResult(respond(n + 1, Call(login, None)))
  {
  }

  /** An expired token followed by a successful retry: the call succeeds with exactly
      one re-login. */
  lemma RecoveryNeedsOneLogin(login: Request, respond: (nat, Call) -> Response, n: nat, token: Json, req: Request)
    requires req != login
    requires Truthy(token)
    requires Unauthorized(Decode(respond(n, Call(req, Some(token)))))
    requires LoginResult(respond(n + 1, Call(login, None))).Ok?
    requires Decode(respond(n + 2, Call(req, Some(LoginResult(respond(n + 1, Call(login, None))).value)))).Ok?
    ensures var t := Retry(login, respond, n, token, req);
      t.result.Ok? && Attempts(t.sent, login) == 1 && Attempts(t.sent, req) == 2
  {
    var newToken := LoginResult(respond(n + 1, Call(login, None))).value;
    var t := Retry(login, respond, n, token, req);
    var first, loginCall, second := Call(req, Some(token)), Call(login, None), Call(req, Some(newToken));
    assert t.sent == [first] + [loginCall] + [second];
    AttemptsSingle(first, req);
    AttemptsSingle(first, login);
    AttemptsSingle(loginCall, req);
    AttemptsSingle(loginCall, login);
    AttemptsSingle(second, req);
    AttemptsSingle(second, login);
    AttemptsAppend([first], [loginCall], req);
    AttemptsAppend([first], [loginCall], login);
    AttemptsAppend([first] + [loginCall], [second], req);
    AttemptsAppend([first] + [loginCall], [second], login);
  }

  // ---------------------------------------------------------------- the objects

  /** The scripted cloud: it answers the n-th call it receives with `respond(n, call)`
      and keeps the calls it received. */
  class Server {
    const respond: (nat, Call) -> Response
    var log: seq<Call>

    constructor (respond: (nat, Call) -> Response)
      ensures this.respond == respond && log == []
    {
      this.respond := respond;
      log := [];
    }

    method Send(call: Call) returns (resp: Response)
      modifies this
      ensures log == old(log) + [call]
      ensures resp == respond(|old(log)|, call)
    {
      resp := respond(|log|, call);
      log := log + [call];
    }
  }

  /** One logical request made through `_request_with_retry` and what it returned. */
  datatype Logged = Logged(request: Request, result: Result<Json>)

  /** `KlereoApi`. The SHA-1 hex digest is a foreign library call and is a parameter. */
  class KlereoApi {
    const username: string
    const password: string
    const sha1hex: string -> string
    const server: Server
    var token: Json
    ghost var history: seq<Logged>

    constructor (username: string, password: string, sha1hex: string -> string, server: Server)
      ensures this.username == username && this.password == password
      ensures this.sha1hex == sha1hex && this.server == server
      ensures token == JNull && history == []
    {
      this.username := username;
      this.password := password;
      this.sha1hex := sha1hex;
      this.server := server;
      token := JNull;
      history := [];
    }

    /** The login POST: the password travels only as its SHA-1 hex digest. */
    function LoginCall(): Call {
      Call(LoginRequest(username, sha1hex(password)), None)
    }

    method Login() returns (r: Outcome)
      modifies this`token, server
      ensures server.log == old(server.log) + [LoginCall()]
      ensures var res := LoginResult(server.respond(|old(server.log)|, LoginCall()));
        (res.Ok? ==> r == Done && token == res.value) &&
        (res.Raise? ==> r == Fail(res.exc) && token == old(token))
    {
      var resp := server.Send(LoginCall());
      var data := Decode(resp);
      if data.Raise? {
        return Fail(data.exc);
      }
      var hasJwt := In("jwt", data.value);
      if hasJwt.Raise? {
        return Fail(hasJwt.exc);
      }
      if hasJwt.value {
        var jwt := Subscript(data.value, "jwt");
        if jwt.Raise? {
          return Fail(jwt.exc);
        }
        token := jwt.value;
        return Done;
      }
      var hasToken := In("token", data.value);
      if hasToken.Raise? {
        return Fail(hasToken.exc);
      }
      if hasToken.value {
        var tok := Subscript(data.value, "token");
        if tok.Raise? {
          return Fail(tok.exc);
        }
        token := tok.value;
        return Done;
      }
      r := Fail(KlereoApiError);
    }

    /** `_get_auth_header`: the result is the token put into the Authorization header. */
    method AuthHeader() returns (r: Result<Json>)
      modifies this`token, server
      ensures var t := Authorize(LoginCall().request, server.respond, |old(server.log)|, old(token));
        r == t.result && token == t.token && server.log == old(server.log) + t.sent
    {
      if !Truthy(token) {
        var o := Login();
        if o.Fail? {
          return Raise(o.exc);
        }
      }
      r := Ok(token);
    }

    method RequestWithRetry(req: Request) returns (r: Result<Json>)
      modifies this`token, this`history, server
      ensures var t := Retry(LoginCall().request, server.respond, |old(server.log)|, old(token), req);
        r == t.result && token == t.token && server.log == old(server.log) + t.sent
      ensures history == old(history) + [Logged(req, r)]
    {
      ghost var before := server.log;
      var auth := AuthHeader();
      if auth.Raise? {
        r := Raise(auth.exc);
      } else {
        ghost var authorized := server.log;
        r := SendWithToken(req);
        assert server.log == before + (authorized[|before|..] + server.log[|authorized|..]);
      }
      history := history + [Logged(req, r)];
    }

    /** The `try` block: send with the cached token; on a 401, retry once. */
    method SendWithToken(req: Request) returns (r: Result<Json>)
      modifies this`token, server
      ensures var t := Attempt(LoginCall().request, server.respond, |old(server.log)|, old(token), req);
        r == t.result && token == t.token && server.log == old(server.log) + t.sent
    {
      var resp := server.Send(Call(req, Some(token)));
      r := Decode(resp);
      if Unauthorized(r) {
        r := RetryAfterUnauthorized(req);
      }
    }

    /** The handler of a 401: clear the token, authorize again and re-send once. */
    method RetryAfterUnauthorized(req: Request) returns (r: Result<Json>)
      modifies this`token, server
      ensures var t := SecondAttempt(LoginCall().request, server.respond, |old(server.log)|, req);
        r == t.result && token == t.token && server.log == old(server.log) + t.sent
    {
      token := JNull;
      var auth := AuthHeader();
      if auth.Raise? {
        return Raise(auth.exc);
      }
      var resp := server.Send(Call(req, Some(auth.value)));
      r := Decode(resp);
    }

    method GetSystems() returns (r: Result<Json>)
      modifies this`token, this`history, server
      ensures var t := Retry(LoginCall().request, server.respond, |old(server.log)|, old(token), IndexRequest());
        r == t.result && token == t.token && server.log == old(server.log) + t.sent
      ensures history == old(history) + [Logged(IndexRequest(), r)]
    {
      r := RequestWithRetry(IndexRequest());
    }

    method GetPoolDetails(systemId: Json) returns (r: Result<Json>)
      modifies this`token, this`history, server
      ensures var t := Retry(LoginCall().request, server.respond, |old(server.log)|, old(token), PoolDetailsRequest(systemId));
        r == t.result && token == t.token && server.log == old(server.log) + t.sent
      ensures history == old(history) + [Logged(PoolDetailsRequest(systemId), r)]
    {
      r := RequestWithRetry(PoolDetailsRequest(systemId));
    }

    method SetOutput(systemId: Json, outIndex: Json, mode: int, state: int) returns (r: Result<Json>)
      modifies this`token, this`history, server
      ensures var req := SetOutRequest(systemId, outIndex, mode, state);
        var t := Retry(LoginCall().request, server.respond, |old(server.log)|, old(token), req);
        r == t.result && token == t.token && server.log == old(server.log) + t.sent
      ensures history == old(history) + [Logged(SetOutRequest(systemId, outIndex, mode, state), r)]
    {
      r := RequestWithRetry(SetOutRequest(systemId, outIndex, mode, state));
    }

    method SetParam(systemId: Json, paramId: Json, value: Json) returns (r: Result<Json>)
      modifies this`token, this`history, server
      ensures var req := SetParamRequest(systemId, paramId, value);
        var t := Retry(LoginCall().request, server.respond, |old(server.log)|, old(token), req);
        r == t.result && token == t.token && server.log == old(server.log) + t.sent
      ensures history == old(history) + [Logged(SetParamRequest(systemId, paramId, value), r)]
    {
      r := RequestWithRetry(SetParamRequest(systemId, paramId, value));
    }
  }
}
