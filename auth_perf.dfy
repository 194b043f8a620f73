/** The authentication performance page object: a login that caches the token of
    the first successful response whose body carries a truthy `data.token`, and an
    invalid login that never caches. */
module AuthPerf {
  import opened HttpModel
  import opened BasePerf

  /** A credentials object. Its identity matters: `login` and `invalidLogin` compare
      their argument with the stored object by reference. */
  class Credentials {
    const email: string
    const password: string
    const invalidEmail: string
    const invalidPassword: string

    constructor (email: string, password: string, invalidEmail: string, invalidPassword: string)
      ensures this.email == email && this.password == password
      ensures this.invalidEmail == invalidEmail && this.invalidPassword == invalidPassword
    {
      this.email := email;
      this.password := password;
      this.invalidEmail := invalidEmail;
      this.invalidPassword := invalidPassword;
    }
  }

  /** The `{email, password}` object sent to the login endpoint. */
  datatype LoginPayload = LoginPayload(email: string, password: string) {
    function ToJson(): Json {
      JObj(map["email" := JStr(email), "password" := JStr(password)])
    }
  }

  /** What `login` and `invalidLogin` return. `cached` stands for the key of the same
      name (absent, hence false, except on a cache hit); `error` for the key present
      only when the client threw. */
  datatype LoginResult = LoginResult(
    success: bool,
    status: int,
    body: Json,
    duration: real,
    headers: Headers,
    cached: bool,
    error: Option<string>)

  /** A body of the shape `{success, message, data}`. */
  function ReplyBody(success: bool, message: string, data: Json): Json {
    JObj(map["success" := JBool(success), "message" := JStr(message), "data" := data])
  }

  /** The placeholder body used when the response is not valid JSON. */
  const InvalidJsonBody: Json := ReplyBody(false, "Invalid JSON response", JNull)

  /** The headers of a login call: the fixed set plus `X-Performance-Test`, with `Connection` kept alive. */
  function LoginHeaders(h: Headers): Headers {
    h["X-Performance-Test" := "true"]["Connection" := "keep-alive"]
  }

  /** The timeout of a login call: a literal of its own, not the page object's `requestTimeout`. */
  const LoginTimeout: nat := 5000

  /** The synthetic success returned on a cache hit. */
  function CachedResult(token: Json): LoginResult {
    LoginResult(true, 200,
                ReplyBody(true, "Successfully logged in (cached).", JObj(map["token" := token])),
                0.0, map[], true, None)
  }

  /** The body of a response: its parsed JSON, or the placeholder when parsing fails. */
  function BodyOf(r: Response): Json {
    match r.parsed
    case Parsed(j) => j
    case Unparsable => InvalidJsonBody
  }

  /** The result record built from one call of the client (a response or a thrown error). */
  function ResultOf(o: Outcome): LoginResult {
    match o
    case Got(r) => LoginResult(IsSuccessful(r), r.status, BodyOf(r), r.duration, r.headers, false, None)
    case Threw(m) => LoginResult(false, 0, ReplyBody(false, "Request failed: " + m, JNull), 0.0, map[], false, Some(m))
  }

  /** `body && body.data && body.data.token`, when truthy. */
  function TokenIn(body: Json): (t: Option<Json>)
    ensures t.Some? ==> Truthy(t.value)
  {
    if body.JObj? && "data" in body.fields && body.fields["data"].JObj?
       && "token" in body.fields["data"].fields && Truthy(body.fields["data"].fields["token"])
    then Some(body.fields["data"].fields["token"])
    else None
  }

  /** A token is reported exactly when the body is an object whose `data` is an object
      holding a truthy `token`, and what is reported is that `data.token`. */
  lemma TokenInIsDataToken(body: Json)
    ensures TokenIn(body).Some? ==>
      body.JObj? && "data" in body.fields && body.fields["data"].JObj? &&
      "token" in body.fields["data"].fields &&
      TokenIn(body).value == body.fields["data"].fields["token"]
    ensures (!body.JObj? || "data" !in body.fields || !body.fields["data"].JObj? ||
             "token" !in body.fields["data"].fields) ==> TokenIn(body) == None
  {
  }

  /** Reading back: a body whose `data.token` is `t` yields `t` when it is truthy, and nothing otherwise. */
  lemma TokenInReadsDataToken(m: map<string, Json>, d: map<string, Json>, t: Json)
    ensures TokenIn(JObj(m["data" := JObj(d["token" := t])])) == (if Truthy(t) then Some(t) else None)
  {
  }

  /** The cached token after a login that reached the client with outcome `o`. */
  function NextToken(token: Json, o: Outcome): Json {
    if o.Got? && IsSuccessful(o.response) && TokenIn(BodyOf(o.response)).Some?
    then TokenIn(BodyOf(o.response)).value
    else token
  }

  /** A cache hit reports a success with status 200 and no duration, and its body
      carries the stored token where a real response would. */
  lemma CachedResultCarriesToken(token: Json)
    requires Truthy(token)
    ensures var r := CachedResult(token);
      r.success && r.status == 200 && r.duration == 0.0 && r.cached && r.error.None? &&
      TokenIn(r.body) == Some(token)
  {
    var data := CachedResult(token).body.fields["data"];
    assert data == JObj(map["token" := token]);
  }

  /** Every result record built from a client outcome has `success` exactly when its
      status is in [200, 300); only a thrown error yields `error`, and then status 0
      and duration 0. */
  lemma ResultAgreesWithStatus(o: Outcome)
    ensures var r := ResultOf(o);
      (r.success <==> 200 <= r.status < 300) && !r.cached &&
      (r.error.Some? <==> o.Threw?) &&
      (o.Threw? ==> r.status == 0 && r.duration == 0.0 && r.headers == map[] && r.error == Some(o.message)) &&
      (o.Got? ==> r.status == o.response.status && r.success == IsSuccessful(o.response) &&
                  r.duration == o.response.duration && r.headers == o.response.headers)
  {
  }

  /** A body that is not valid JSON becomes the placeholder `{success: false, message:
      'Invalid JSON response', data: null}`, the status still comes from the response,
      and no token is cached. */
  lemma UnparsableBodyCachesNothing(token: Json, r: Response)
    requires r.parsed == Unparsable
    ensures ResultOf(Got(r)).body == InvalidJsonBody
    ensures ResultOf(Got(r)).status == r.status
    ensures NextToken(token, Got(r)) == token
  {
    assert InvalidJsonBody.fields["data"] == JNull;
  }

  /** A thrown error yields `success: false, status: 0, duration: 0` with the error's
      message, and the cache is left as it was. */
  lemma ThrownErrorCachesNothing(token: Json, message: string)
    ensures var r := ResultOf(Threw(message));
      !r.success && r.status == 0 && r.duration == 0.0 && r.error == Some(message) &&
      r.body == ReplyBody(false, "Request failed: " + message, JNull)
    ensures NextToken(token, Threw(message)) == token
  {
  }

  /** The cache changes only on a successful response whose body carries a truthy
      `data.token`, and then takes that token; a truthy cache stays truthy. */
  lemma TokenChangesOnlyOnSuccess(token: Json, o: Outcome)
    ensures NextToken(token, o) != token ==>
      o.Got? && IsSuccessful(o.response) && TokenIn(BodyOf(o.response)) == Some(NextToken(token, o))
    ensures o.Got? && IsSuccessful(o.response) && TokenIn(BodyOf(o.response)).Some? ==>
      NextToken(token, o) == TokenIn(BodyOf(o.response)).value
    ensures !o.Got? || !IsSuccessful(o.response) ==> NextToken(token, o) == token
    ensures Truthy(token) ==> Truthy(NextToken(token, o))
  {
  }

  /** The login headers keep every fixed header and add `X-Performance-Test: true`. */
  lemma LoginHeadersExtendFixed()
    ensures var h := LoginHeaders(FixedHeaders);
      (forall k :: k in FixedHeaders ==> k in h && h[k] == FixedHeaders[k]) &&
      h["X-Performance-Test"] == "true" &&
      h.Keys == FixedHeaders.Keys + {"X-Performance-Test"}
  {
  }

  class AuthPerformance {
    const base: BasePerformance
    const loginEndpoint: string
    /** The cached token; JNull until a login response carries one. */
    var authToken: Json
    const credentials: Credentials
    const loginPayload: LoginPayload
    const invalidLoginPayload: LoginPayload

    /** The prepared payloads are built from the stored credentials. */
    predicate PayloadsPrepared() {
      loginPayload == LoginPayload(credentials.email, credentials.password) &&
      invalidLoginPayload == LoginPayload(credentials.invalidEmail, credentials.invalidPassword)
    }

    /** The cache is empty (null) or holds a truthy token. */
    ghost predicate Valid()
      reads this
    {
      (authToken == JNull || Truthy(authToken)) && PayloadsPrepared()
    }

    constructor (http: Client, env: map<string, string>, stringify: Json -> string)
      ensures fresh(base) && fresh(credentials)
      ensures base.http == http && base.stringify == stringify
      ensures base.baseUrl == OrDefault(env, "BASE_URL", "http://localhost:3000")
      ensures base.apiUrl == OrDefault(env, "API_URL", "http://localhost:3000/api")
      ensures base.headers == FixedHeaders
      ensures base.requestTimeout == 5000 && base.retryCount == 2 && base.batchRequests
      ensures loginEndpoint == base.apiUrl + "/api/auth/login"
      ensures authToken == JNull
      ensures credentials.email == OrDefault(env, "EMAIL", "admin@admin.com")
      ensures credentials.password == OrDefault(env, "PASSWORD", "12345678")
      ensures credentials.invalidEmail == OrDefault(env, "INVALID_EMAIL", "invalid@admin.com")
      ensures credentials.invalidPassword == OrDefault(env, "INVALID_PASSWORD", "invalid123")
      ensures Valid()
    {
      var b := new BasePerformance(http, env, stringify);
      base := b;
      loginEndpoint := b.apiUrl + "/api/auth/login";
      authToken := JNull;
      var c := new Credentials(
        OrDefault(env, "EMAIL", "admin@admin.com"),
        OrDefault(env, "PASSWORD", "12345678"),
        OrDefault(env, "INVALID_EMAIL", "invalid@admin.com"),
        OrDefault(env, "INVALID_PASSWORD", "invalid123"));
      credentials := c;
      loginPayload := LoginPayload(c.email, c.password);
      invalidLoginPayload := LoginPayload(c.invalidEmail, c.invalidPassword);
    }

    /** The payload `login` sends: the prepared one for the stored credentials object,
        otherwise one built from the argument. */
    function LoginPayloadFor(creds: Credentials): LoginPayload {
      if creds == credentials then loginPayload else LoginPayload(creds.email, creds.password)
    }

    /** The payload `invalidLogin` sends: the prepared invalid one for the stored
        credentials object, otherwise one built from the argument. */
    function InvalidLoginPayloadFor(creds: Credentials): LoginPayload {
      if creds == credentials then invalidLoginPayload else LoginPayload(creds.email, creds.password)
    }

    /** The one request a non-cached `login` or an `invalidLogin` sends. */
    function LoginRequest(p: LoginPayload): Request {
      Request(POST, loginEndpoint, Some(base.stringify(p.ToJson())),
              Params(None, LoginHeaders(base.headers), Some(LoginTimeout), None))
    }

    /** Whichever object is passed, `login` sends that object's email and password:
        the identity test only chooses between two equal payloads. `invalidLogin` on
        the stored object sends the invalid pair instead. */
    lemma PayloadSelection(creds: Credentials)
      requires PayloadsPrepared()
      ensures LoginPayloadFor(creds) == LoginPayload(creds.email, creds.password)
      ensures InvalidLoginPayloadFor(creds)
              == if creds == credentials
                 then LoginPayload(credentials.invalidEmail, credentials.invalidPassword)
                 else LoginPayload(creds.email, creds.password)
    {
    }

    /** On a cache hit, returns the synthetic success without calling the client.
        Otherwise makes exactly one call, builds the result from it, and caches the
        token of a successful response whose body carries one. */
    method Login(creds: Credentials) returns (r: LoginResult)
      requires Valid()
      modifies this`authToken, base.http
      ensures Valid()
      ensures Truthy(old(authToken)) ==>
        r == CachedResult(old(authToken)) && authToken == old(authToken) &&
        base.http.log == old(base.http.log)
      ensures !Truthy(old(authToken)) ==>
        var o := base.http.script(|old(base.http.log)|);
        base.http.log == old(base.http.log) + [LoginRequest(LoginPayloadFor(creds))] &&
        r == ResultOf(o) && authToken == NextToken(old(authToken), o)
    ensures r.success <==> 200 <= r.status < 300
    {
      if Truthy(authToken) {
        return CachedResult(authToken);
      }
      var payload := LoginPayloadFor(creds);
      var o := base.http.Post(loginEndpoint, base.stringify(payload.ToJson()),
                              Params(None, LoginHeaders(base.headers), Some(LoginTimeout), None));
      if o.Got? && IsSuccessful(o.response) {
        var token := TokenIn(BodyOf(o.response));
        if token.Some? {
          authToken := token.value;
        }
      }
      r := ResultOf(o);
    }

    /** Makes exactly one call and maps its outcome to a result record; the cache is
        neither consulted nor changed. */
    method InvalidLogin(creds: Credentials) returns (r: LoginResult)
      modifies base.http
      ensures base.http.log == old(base.http.log) + [LoginRequest(InvalidLoginPayloadFor(creds))]
      ensures r == ResultOf(base.http.script(|old(base.http.log)|))
      ensures authToken == old(authToken)
    {
      var payload := InvalidLoginPayloadFor(creds);
      var o := base.http.Post(loginEndpoint, base.stringify(payload.ToJson()),
                              Params(None, LoginHeaders(base.headers), Some(LoginTimeout), None));
      r := ResultOf(o);
    }
  }
}
