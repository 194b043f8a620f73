/** The values exchanged with the load engine's HTTP client, and the client itself
    as a scripted stand-in: the k-th call it receives (counting from 0, over every
    verb) yields `script(k)`, and every call is appended to its log. */
module HttpModel {

  datatype Option<+T> = None | Some(value: T)

  /** A JSON value as `response.json()` produces it. Numbers are reals. */
  datatype Json =
    | JNull
    | JBool(b: bool)
    | JNum(n: real)
    | JStr(s: string)
    | JArr(items: seq<Json>)
    | JObj(fields: map<string, Json>)

  /** JavaScript truthiness of a JSON value: null, false, 0 and "" are falsy;
      every array and every object is truthy. */
  predicate Truthy(j: Json) {
    match j
    case JNull => false
    case JBool(b) => b
    case JNum(n) => n != 0.0
    case JStr(s) => s != ""
    case JArr(_) => true
    case JObj(_) => true
  }

  type Headers = map<string, string>

  /** What `response.json()` gives back: a value, or an exception. */
  datatype ParseResult = Parsed(json: Json) | Unparsable

  /** A response of the client: status, the outcome of parsing its body,
      `timings.duration` (passed through, never computed) and its headers. */
  datatype Response = Response(status: int, parsed: ParseResult, duration: real, headers: Headers)

  /** One call of the client either returns a response or throws an error with a message. */
  datatype Outcome = Got(response: Response) | Threw(message: string)

  datatype Verb = GET | POST | PUT | DEL

  /** The request-parameter object handed to the client: the `params` entry of a GET,
      the headers, the timeout and the metric tag `name`, each absent when not given. */
  datatype Params = Params(query: Option<map<string, string>>, headers: Headers, timeout: Option<nat>, tagName: Option<string>)

  /** One call as the client receives it; `body` is None for a GET and for the null body of a DELETE. */
  datatype Request = Request(verb: Verb, url: string, body: Option<string>, params: Params)

  class Client {
    /** The outcome of every call, by its position among all calls made. */
    const script: nat -> Outcome
    /** The calls made so far, in order. */
    var log: seq<Request>

    constructor (script: nat -> Outcome)
      ensures this.script == script && log == []
    {
      this.script := script;
      log := [];
    }

    method Get(url: string, params: Params) returns (o: Outcome)
      modifies this
      ensures log == old(log) + [Request(GET, url, None, params)]
      ensures o == script(|old(log)|)
    {
      o := script(|log|);
      log := log + [Request(GET, url, None, params)];
    }

    method Post(url: string, body: string, params: Params) returns (o: Outcome)
      modifies this
      ensures log == old(log) + [Request(POST, url, Some(body), params)]
      ensures o == script(|old(log)|)
    {
      o := script(|log|);
      log := log + [Request(POST, url, Some(body), params)];
    }

    method Put(url: string, body: string, params: Params) returns (o: Outcome)
      modifies this
      ensures log == old(log) + [Request(PUT, url, Some(body), params)]
      ensures o == script(|old(log)|)
    {
      o := script(|log|);
      log := log + [Request(PUT, url, Some(body), params)];
    }

    method Del(url: string, params: Params) returns (o: Outcome)
      modifies this
      ensures log == old(log) + [Request(DEL, url, None, params)]
      ensures o == script(|old(log)|)
    {
      o := script(|log|);
      log := log + [Request(DEL, url, None, params)];
    }
  }
}
