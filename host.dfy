/**
 * What the node sees of the n8n host runtime and of the HTTP transport, reduced to values
 * and total functions: the per-record parameter lookup, `JSON.parse`, the request helper,
 * and JavaScript's conversion of a value to text inside a template literal.
 */
module RemnawaveHost {
  import opened Wrappers
  import opened JsonValue

  /**
   * A thrown JavaScript error as the node's `catch` block reads it: the `statusCode` the
   * request helper attaches to HTTP failures, `message` ("" when absent or empty), and the
   * error's own string conversion, which `error.message || error` falls back to.
   */
  datatype Thrown = Thrown(statusCode: Option<int>, message: string, asString: string)

  /**
   * An error thrown by the host itself rather than by the request helper: `JSON.parse`'s
   * `SyntaxError` or the host's complaint about a missing parameter. Neither carries a
   * `statusCode`, so the type leaves it out.
   */
  datatype HostError = HostError(message: string, asString: string)

  /** How the `catch` block sees a host error: no status code, the same message and text. */
  function Untagged(e: HostError): (t: Thrown)
    ensures t.statusCode.None? && t.message == e.message && t.asString == e.asString
  {
    Thrown(None, e.message, e.asString)
  }

  /** An error the node itself raises with `new Error(message)`. */
  function NodeError(message: string): (e: Thrown)
    ensures e.statusCode.None? && e.message == message
  {
    Thrown(None, message, "Error: " + message)
  }

  datatype Method = GET | POST | PATCH | DELETE

  /**
   * The options object handed to the request helper: `{method, url, headers, body, json: true}` (`method` is `httpMethod` here).
   * `json: true` is the same for every request and is left implicit; `body` None is `undefined`.
   */
  datatype Request = Request(httpMethod: Method, url: string, headers: map<string, string>, body: Option<map<string, Json>>)

  /** One input record's node parameters, as the host resolves them (declared defaults filled in). */
  datatype Item = Item(params: map<string, Json>)

  /** The credential record `{url, apiKey}`, read once per batch. */
  datatype Credentials = Credentials(url: string, apiKey: string)

  /**
   * The foreign calls.
   * - parse: `JSON.parse`, which either yields a value or throws;
   * - transport: the request helper; its reply may depend on every request sent before in the batch;
   * - missingParameter: what the host throws when a parameter is absent and no fallback is given;
   * - show: the text a non-string value becomes inside a template literal.
   */
  datatype Host = Host(
    parse: string -> Result<Json, HostError>,
    transport: (seq<Request>, Request) -> Result<Json, Thrown>,
    missingParameter: string -> HostError,
    show: Json -> string)

  /** `JSON.parse` with the host's `SyntaxError` turned into what the `catch` block reads. */
  function Parse(host: Host, text: string): (r: Result<Json, Thrown>)
    ensures host.parse(text).Ok? <==> r.Ok?
    ensures r.Ok? ==> r.value == host.parse(text).value
    ensures r.Err? ==> r.error == Untagged(host.parse(text).error)
  {
    match host.parse(text)
    case Ok(v) => Ok(v)
    case Err(e) => Err(Untagged(e))
  }

  /** `getNodeParameter(name, i)`: the value, or the host's error when the record has no such parameter. */
  function Param(host: Host, item: Item, name: string): (r: Result<Json, Thrown>)
    ensures r.Ok? <==> name in item.params
    ensures r.Ok? ==> r.value == item.params[name]
    ensures r.Err? ==> r.error == Untagged(host.missingParameter(name))
  {
    if name in item.params then Ok(item.params[name]) else Err(Untagged(host.missingParameter(name)))
  }

  /** `getNodeParameter(name, i, fallback)`: the value, or the fallback when the parameter is absent. */
  function ParamOr(item: Item, name: string, fallback: Json): (v: Json)
    ensures name in item.params ==> v == item.params[name]
    ensures name !in item.params ==> v == fallback
  {
    if name in item.params then item.params[name] else fallback
  }

  /** `${v}` for a value read with an `as string` cast, which converts nothing: a string stays itself. */
  function Text(host: Host, v: Json): (t: string)
    ensures v.JStr? ==> t == v.s
  {
    if v.JStr? then v.s else host.show(v)
  }
}
