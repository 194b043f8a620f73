/** The base performance page object: a fixed header set, a timeout, single
    GET/PUT/DELETE calls and a POST that is retried while it is unsuccessful. */
module BasePerf {
  import opened HttpModel

  /** A response counts as successful when its status is in [200, 300). */
  function IsSuccessful(r: Response): (ok: bool)
    ensures ok <==> 200 <= r.status < 300
    ensures r.status == 0 ==> !ok
  {
    r.status >= 200 && r.status < 300
  }

  /** `env.KEY || fallback`: the environment's value unless it is absent or the empty (falsy) string. */
  function OrDefault(env: map<string, string>, key: string, fallback: string): (v: string)
    ensures key !in env ==> v == fallback
    ensures v == fallback || (key in env && v == env[key])
    ensures key in env && env[key] != "" ==> v == env[key]
    ensures fallback != "" ==> v != ""
  {
    if key in env && env[key] != "" then env[key] else fallback
  }

  /** The header set every call of the page object carries. */
  const FixedHeaders: Headers := map[
    "Content-Type" := "application/json",
    "Accept" := "application/json",
    "Connection" := "keep-alive",
    "Cache-Control" := "no-cache"
  ]

  /** The metric tag of a POST: `url.split('/').pop()`. */
  function LastSegment(url: string): string {
    if url == [] then []
    else if url[|url| - 1] == '/' then []
    else LastSegment(url[..|url| - 1]) + [url[|url| - 1]]
  }

  /** The tag is the text after the last `/` of the url, or the whole url when it holds no `/`:
      a suffix of the url, free of `/`, and preceded by a `/` unless it is the whole url. */
  lemma {:induction false} LastSegmentSpec(url: string)
    ensures var name := LastSegment(url);
      |name| <= |url| && name == url[|url| - |name|..] &&
      '/' !in name &&
      (|name| < |url| ==> url[|url| - |name| - 1] == '/')
  {
    if url != [] && url[|url| - 1] != '/' {
      var prefix := url[..|url| - 1];
      LastSegmentSpec(prefix);
      var name := LastSegment(prefix);
      assert url[|url| - |name| - 1..] == prefix[|prefix| - |name|..] + [url[|url| - 1]];
    }
  }

  /** The three properties of LastSegmentSpec determine the tag. */
  lemma LastSegmentUnique(url: string, name: string)
    requires |name| <= |url| && name == url[|url| - |name|..]
    requires '/' !in name
    requires |name| < |url| ==> url[|url| - |name| - 1] == '/'
    ensures name == LastSegment(url)
  {
    LastSegmentSpec(url);
  }

  /** The tag of `dir + "/" + name` is `name` whenever `name` holds no `/`. */
  lemma LastSegmentOfPath(dir: string, name: string)
    requires '/' !in name
    ensures LastSegment(dir + "/" + name) == name
  {
    var url := dir + "/" + name;
    assert url[|url| - |name|..] == name;
    assert |name| < |url| && url[|url| - |name| - 1] == '/';
    LastSegmentUnique(url, name);
  }

  /** A POST payload: a string is sent as it is, anything else goes through `JSON.stringify`. */
  datatype Payload = Text(text: string) | Structured(value: Json)

  function Serialize(p: Payload, stringify: Json -> string): string {
    match p
    case Text(s) => s
    case Structured(v) => stringify(v)
  }

  /** An attempt ends the retry loop when the client throws (the error leaves `post`)
      or when the response is successful. */
  predicate Stops(o: Outcome) {
    o.Threw? || IsSuccessful(o.response)
  }

  /** The number of client calls one `post` makes when the next call of the client
      is call number `k` and `left` retries are allowed. */
  function CallsFrom(script: nat -> Outcome, k: nat, left: nat): (n: nat)
    ensures 1 <= n <= left + 1
    decreases left
  {
    if Stops(script(k)) || left == 0 then 1 else 1 + CallsFrom(script, k + 1, left - 1)
  }

  /** Every attempt before the last one failed without throwing, and the last one
      either stopped the loop or used up the retries. */
  lemma {:induction false} CallsFromStopsAtFirst(script: nat -> Outcome, k: nat, left: nat)
    ensures var n := CallsFrom(script, k, left);
      (forall i :: k <= i < k + n - 1 ==> !Stops(script(i))) &&
      (Stops(script(k + n - 1)) || n == left + 1)
    decreases left
  {
    if !Stops(script(k)) && left != 0 {
      CallsFromStopsAtFirst(script, k + 1, left - 1);
    }
  }

  /** Conversely: if the attempt at offset `m` (m <= left) is the first one that stops
      the loop, or every earlier one failed and `m` is the last retry, then exactly
      m + 1 calls are made. */
  lemma {:induction false} FirstStopDeterminesCalls(script: nat -> Outcome, k: nat, left: nat, m: nat)
    requires m <= left
    requires forall i :: k <= i < k + m ==> !Stops(script(i))
    requires Stops(script(k + m)) || m == left
    ensures CallsFrom(script, k, left) == m + 1
    decreases m
  {
    if m > 0 {
      assert !Stops(script(k));
      FirstStopDeterminesCalls(script, k + 1, left - 1, m - 1);
    }
  }

  /** With two retries, two failures followed by a success take three calls, and the
      last of them (the one `post` returns) is the success. */
  lemma TwoFailuresThenSuccess(script: nat -> Outcome, k: nat)
    requires script(k).Got? && !IsSuccessful(script(k).response)
    requires script(k + 1).Got? && !IsSuccessful(script(k + 1).response)
    requires script(k + 2).Got? && IsSuccessful(script(k + 2).response)
    ensures CallsFrom(script, k, 2) == 3
    ensures Stops(script(k + CallsFrom(script, k, 2) - 1))
  {
    FirstStopDeterminesCalls(script, k, 2, 2);
  }

  /** `n` copies of the same request. */
  function Repeat(r: Request, n: nat): seq<Request> {
    seq(n, _ => r)
  }

  class BasePerformance {
    const http: Client
    /** `JSON.stringify`, supplied by the runtime. */
    const stringify: Json -> string
    const baseUrl: string
    const apiUrl: string
    const headers: Headers
    const requestTimeout: nat
    const retryCount: nat
    const batchRequests: bool

    constructor (http: Client, env: map<string, string>, stringify: Json -> string)
      ensures this.http == http && this.stringify == stringify
      ensures baseUrl == OrDefault(env, "BASE_URL", "http://localhost:3000")
      ensures apiUrl == OrDefault(env, "API_URL", "http://localhost:3000/api")
      ensures headers == FixedHeaders
      ensures requestTimeout == 5000 && retryCount == 2 && batchRequests
    {
      this.http := http;
      this.stringify := stringify;
      baseUrl := OrDefault(env, "BASE_URL", "http://localhost:3000");
      apiUrl := OrDefault(env, "API_URL", "http://localhost:3000/api");
      headers := FixedHeaders;
      requestTimeout := 5000;
      retryCount := 2;
      batchRequests := true;
    }

    /** The request every attempt of one `post` sends. */
    function PostRequest(url: string, payload: Payload): Request {
      Request(POST, url, Some(Serialize(payload, stringify)),
              Params(None, headers, Some(requestTimeout), Some(LastSegment(url))))
    }

    method Get(url: string, params: map<string, string>) returns (o: Outcome)
      modifies http
      ensures http.log == old(http.log) + [Request(GET, url, None, Params(Some(params), headers, None, None))]
      ensures o == http.script(|old(http.log)|)
    {
      o := http.Get(url, Params(Some(params), headers, None, None));
    }

    /** Sends the same request until a response is successful or `retryCount`
        retries are used up, and returns the last outcome; an error thrown by the
        client ends `post` at once. */
    method Post(url: string, payload: Payload) returns (o: Outcome)
      modifies http
      ensures var start := |old(http.log)|;
              var n := CallsFrom(http.script, start, retryCount);
              http.log == old(http.log) + Repeat(PostRequest(url, payload), n) &&
              o == http.script(start + n - 1)
      ensures 1 <= |http.log| - |old(http.log)| <= retryCount + 1
    {
      var body := Serialize(payload, stringify);
      var params := Params(None, headers, Some(requestTimeout), Some(LastSegment(url)));
      ghost var start := |http.log|;
      ghost var req := PostRequest(url, payload);
      ghost var calls := CallsFrom(http.script, start, retryCount);
      var retries: nat := 0;
      while retries <= retryCount
        invariant retries <= retryCount
        invariant http.log == old(http.log) + Repeat(req, retries)
        invariant calls == retries + CallsFrom(http.script, start + retries, retryCount - retries)
        decreases retryCount - retries
      {
        o := http.Post(url, body, params);
        assert Repeat(req, retries + 1) == Repeat(req, retries) + [req];
        if o.Threw? {
          // the client's exception is not caught here: it leaves `post`
          return;
        }
        if IsSuccessful(o.response) || retries == retryCount {
          break;
        }
        retries := retries + 1;
      }
    }

    method Put(url: string, payload: Payload) returns (o: Outcome)
      modifies http
      ensures http.log == old(http.log) + [Request(PUT, url, Some(Serialize(payload, stringify)), Params(None, headers, None, None))]
      ensures o == http.script(|old(http.log)|)
    {
      o := http.Put(url, Serialize(payload, stringify), Params(None, headers, None, None));
    }

    method Delete(url: string) returns (o: Outcome)
      modifies http
      ensures http.log == old(http.log) + [Request(DEL, url, None, Params(None, headers, None, None))]
      ensures o == http.script(|old(http.log)|)
    {
      o := http.Del(url, Params(None, headers, None, None));
    }
  }
}
