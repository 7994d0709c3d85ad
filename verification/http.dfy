/** The vocabulary shared by every tool handler: the request a handler
    issues, the outcome of that request as the handler's `try`/`catch`
    sees it, and the response envelope the handler returns to the host. */
module Http {
  import opened Wrappers
  import opened Strings
  import opened Json
  import opened Paths

  datatype Method = GET | POST | PUT | PATCH | DELETE

  /** The value given to `form.append(name, value)` for a non-file field:
      either the argument's own value or a text that replaces it. */
  datatype FieldValue = Raw(json: Json) | Text(text: string)

  /** Where the bytes of an uploaded image come from: the response stream
      of a download of `url`, or the base64 text decoded to a buffer. */
  datatype ImageSource = Downloaded(url: string) | Base64(payload: string)

  /** One part of a multipart form body. */
  datatype Part =
    | Field(name: string, value: FieldValue)
    | File(name: string, source: ImageSource, filename: string)

  /** The request body argument: absent, a JSON object, or a form. */
  datatype Body = NoBody | JsonBody(entries: Object) | Multipart(parts: seq<Part>)

  /** One call on the shared API client: method, path relative to the base
      origin, the `params` option (absent when the call passes none) and
      the body. */
  datatype Request = Request(verb: Method, path: string, query: Option<Object>, body: Body)

  /** `error.response`: the HTTP status and the parsed body, if any. */
  datatype Response = Response(status: int, data: Option<Json>)

  /** What a handler's `catch` receives. Errors thrown by the client are
      `Error` instances; a caller may also reject with another value, whose
      `message` property may be missing and whose `String()` is `asString`. */
  datatype Thrown =
    | ErrorInstance(message: string, response: Option<Response>)
    | OtherValue(messageProperty: Option<string>, response: Option<Response>, asString: string)

  /** `${error.message}`: a missing property interpolates as "undefined". */
  function MessageText(t: Thrown): string {
    match t
    case ErrorInstance(m, _) => m
    case OtherValue(m, _, _) => m.GetOr("undefined")
  }

  /** `error.response?.status`. */
  function Status(t: Thrown): Option<int> {
    if t.response.Some? then Some(t.response.value.status) else None
  }

  /** `error.response?.data`, when the response carries a body. */
  function Data(t: Thrown): Option<Json> {
    if t.response.Some? then t.response.value.data else None
  }

  /** The result of awaiting one client call: the response body, or the
      value the call rejected with. */
  datatype Outcome = Ok(data: Json) | Fail(thrown: Thrown)

  /** The handler's return value: one text block, and an `isError` key that
      is absent (`None`) on success and `true` on failure. */
  datatype Envelope = Envelope(text: string, isError: Option<bool>)

  function Succeeded(text: string): Envelope {
    Envelope(text, None)
  }

  function Failed(text: string): Envelope {
    Envelope(text, Some(true))
  }

  /** One invocation of a single-call tool: the request issued and the
      envelope returned. */
  datatype Run = Run(request: Request, envelope: Envelope)

  /** What a tool returns on success: the payload pretty-printed, or a
      fixed confirmation that ignores the payload. */
  datatype Reply = Payload | Confirmation(text: string)

  /** The query `{ page, search }` of the two search tools: both keys, even
      when undefined. */
  function PageSearch(page: Option<int>, search: Option<string>): (q: Object)
    ensures Keys(q) == ["page", "search"]
    ensures Lookup(q, "page") == OptNum(page) && Lookup(q, "search") == OptStr(search)
  {
    var q := [("page", OptNum(page)), ("search", OptStr(search))];
    LookupAt(q, 1);
    q
  }

  /** The request's method and the segments its path parses to. */
  predicate Sends(request: Request, verb: Method, segments: seq<string>) {
    request.verb == verb && ParseRoute(request.path) == Some(segments)
  }

  /** On success the text is exactly the pretty-printed payload and the
      `isError` key is absent. */
  predicate ReportsPayload(r: Run, o: Outcome) {
    o.Ok? ==> r.envelope == Succeeded(Pretty(o.data))
  }

  /** A request on the path of the given segments. */
  function Call(verb: Method, segments: seq<string>, query: Option<Object>, body: Body): (request: Request)
    ensures request.path == Route(segments)
    ensures SlashFree(segments) ==> Sends(request, verb, segments)
    ensures request.verb == verb && request.query == query && request.body == body
  {
    if SlashFree(segments) then RouteRoundTrip(segments); Request(verb, Route(segments), query, body)
    else Request(verb, Route(segments), query, body)
  }

  /** No request addresses a segment list in which some segment holds a
      slash: such a segment is split when the path is read. */
  lemma SlashedSegmentsUnreachable(request: Request, verb: Method, segments: seq<string>)
    requires !SlashFree(segments)
    ensures !Sends(request, verb, segments)
  {
    ParsedSegmentsSlashFree(request.path);
  }

  /** The `try`/`catch` shared by every single-call handler: issue the
      request, reply on success, and on failure return `failure` of the
      caught value with `isError` set. */
  function Exchange(request: Request, o: Outcome, reply: Reply, failure: Thrown -> string): (r: Run)
    ensures r.request == request
    ensures r.envelope.isError.None? <==> o.Ok?
    ensures reply.Payload? ==> ReportsPayload(r, o)
    ensures reply.Confirmation? && o.Ok? ==> r.envelope == Succeeded(reply.text)
    ensures o.Fail? ==> r.envelope == Failed(failure(o.thrown))
  {
    match o
    case Ok(data) =>
      Run(request, Succeeded(if reply.Payload? then Pretty(data) else reply.text))
    case Fail(thrown) =>
      Run(request, Failed(failure(thrown)))
  }

  // ---------------------------------------------------------------------
  // Failure texts shared by several tool families.

  /** `Error: <message>`, the failure text of the self-service shop and
      inventory tools. */
  function ErrorText(t: Thrown): string {
    "Error: " + MessageText(t)
  }

  const BracketOpen := "Error: ["
  /** The label of a failure without a (usable) status. */
  const UnknownStatus := "Unknown"
  const BracketClose := " - "

  /** `Error: [<label>] - <detail>`, the failure text shape of the public
      inventory and theme tools. */
  function BracketedText(badge: string, detail: string): string {
    BracketOpen + badge + "]" + BracketClose + detail
  }

  /** Reads the label and the detail back from a bracketed failure text. */
  function ReadBracketed(text: string): Option<(string, string)> {
    if StartsWith(text, BracketOpen) then
      var rest := text[|BracketOpen|..];
      match FirstIndex(rest, ']')
      case None => None
      case Some(i) =>
        if StartsWith(rest[i + 1..], BracketClose) then Some((rest[..i], rest[i + 1 + |BracketClose|..]))
        else None
    else None
  }

  /** A badge without `]` and any detail can be read back from the text. */
  lemma BracketedRoundTrip(badge: string, detail: string)
    requires ']' !in badge
    ensures ReadBracketed(BracketedText(badge, detail)) == Some((badge, detail))
  {
    var text := BracketedText(badge, detail);
    var rest := badge + [']'] + (BracketClose + detail);
    assert text == BracketOpen + rest;
    assert text[..|BracketOpen|] == BracketOpen;
    assert text[|BracketOpen|..] == rest;
    FirstIndexAfter(badge, ']', BracketClose + detail);
    assert rest[..|badge|] == badge;
    assert rest[|badge| + 1..] == BracketClose + detail;
    assert (BracketClose + detail)[..|BracketClose|] == BracketClose;
    assert (BracketClose + detail)[|BracketClose|..] == detail;
  }
}
