/** The shared API client (src/lib/api-client.ts): its default headers and
    the response interceptor that replaces every transport or HTTP failure
    by a fresh `Error` carrying only a descriptive message. */
module ApiClient {
  import opened Wrappers
  import opened Strings
  import opened Json
  import opened Http

  const UserAgent := "LocaBriques-MCP/1.0.0"
  const JsonContentType := "application/json"

  type Headers = seq<(string, string)>

  /** The value of the first header with that name. */
  function Header(h: Headers, name: string): Option<string> {
    if h == [] then None
    else if h[0].0 == name then Some(h[0].1)
    else Header(h[1..], name)
  }

  /** The token is used when the environment variable is set to a truthy
      (non-empty) string. */
  predicate HasToken(token: Option<string>) {
    token.Some? && token.value != ""
  }

  /** The default headers of every request, given the value of the token
      environment variable at start-up (`None` when it is unset). */
  function DefaultHeaders(token: Option<string>): (h: Headers)
    ensures Header(h, "User-Agent") == Some(UserAgent)
    ensures Header(h, "Content-Type") == Some(JsonContentType)
    ensures Header(h, "Authorization").Some? <==> HasToken(token)
    ensures HasToken(token) ==> Header(h, "Authorization") == Some("Token " + token.value)
    ensures forall i :: 0 <= i < |h| ==> h[i].0 in {"User-Agent", "Content-Type", "Authorization"}
  {
    var extra := if HasToken(token) then [("Authorization", "Token " + token.value)] else [];
    var h := [("User-Agent", UserAgent), ("Content-Type", JsonContentType)] + extra;
    assert h[1..][1..] == extra;
    assert Header(h, "Authorization") == Header(h[1..], "Authorization") == Header(extra, "Authorization");
    h
  }

  /** The failure axios hands to the interceptor: its message, the response
      when the server answered, and whether a request was sent at all. */
  datatype AxiosError = AxiosError(message: string, response: Option<Response>, requestSent: bool)

  /** What the transport produced before the interceptor runs. */
  datatype Raw = Received(data: Json) | Rejected(error: AxiosError)

  const ErrorPrefix := "LocaBriques API Error"
  const StatusOpen := "LocaBriques API Error ["
  const NoResponseMessage := ErrorPrefix + ": No response received from server"

  /** The message of the error the interceptor throws. */
  function NormalizedMessage(e: AxiosError): (m: string)
    ensures StartsWith(m, ErrorPrefix)
    ensures e.response.None? && e.requestSent ==> m == NoResponseMessage
    ensures e.response.None? && !e.requestSent ==> m == ErrorPrefix + ": " + e.message
    ensures e.response.Some? ==>
              var k := |StatusOpen| + |Decimal(e.response.value.status)| + 3;
              var d := Property(e.response.value.data, "message");
              k <= |m| && m[k..] == if d.Some? && Truthy(d.value) then JsString(d.value) else e.message
  {
    if e.response.Some? then
      var r := e.response.value;
      var detail := Property(r.data, "message");
      StatusOpen + Decimal(r.status) + "]: "
      + (if detail.Some? && Truthy(detail.value) then JsString(detail.value) else e.message)
    else if e.requestSent then
      assert NoResponseMessage[..|ErrorPrefix|] == ErrorPrefix;
      NoResponseMessage
    else ErrorPrefix + ": " + e.message
  }

  /** The response interceptor: a response passes through unchanged; a
      failure becomes a fresh `Error` whose only content is its message. */
  function Intercept(raw: Raw): (o: Outcome)
    ensures raw.Received? ==> o == Ok(raw.data)
    ensures raw.Rejected? ==> o.Fail? && o.thrown.ErrorInstance? && o.thrown.response.None?
    ensures raw.Rejected? ==> o.thrown.message == NormalizedMessage(raw.error)
  {
    match raw
    case Received(data) => Ok(data)
    case Rejected(e) => Fail(ErrorInstance(NormalizedMessage(e), None))
  }

  /** The interceptor as the handlers' status branches expect it: the same
      message, with the response kept on the error it throws. */
  function InterceptKeepingResponse(raw: Raw): (o: Outcome)
    ensures raw.Received? ==> o == Ok(raw.data)
    ensures raw.Rejected? ==> o.Fail? && o.thrown.ErrorInstance?
    ensures raw.Rejected? ==> o.thrown.message == NormalizedMessage(raw.error)
    ensures raw.Rejected? ==> o.thrown.response == raw.error.response
  {
    match raw
    case Received(data) => Ok(data)
    case Rejected(e) => Fail(ErrorInstance(NormalizedMessage(e), e.response))
  }

  /** Reads the status back out of a normalized message: the digits between
      `LocaBriques API Error [` and the first `]`. */
  function StatusInMessage(m: string): Option<int> {
    if StartsWith(m, StatusOpen) then
      var rest := m[|StatusOpen|..];
      match FirstIndex(rest, ']')
      case None => None
      case Some(i) => ParseDecimal(rest[..i])
    else None
  }

  lemma StatusReadBack(status: int, tail: string)
    ensures StatusInMessage(StatusOpen + Decimal(status) + "]" + tail) == Some(status)
  {
    var d := Decimal(status);
    var m := StatusOpen + d + "]" + tail;
    assert m[..|StatusOpen|] == StatusOpen;
    assert m[|StatusOpen|..] == d + [']'] + tail;
    FirstIndexAfter(d, ']', tail);
    assert (d + [']'] + tail)[..|d|] == d;
    DecimalRoundTrip(status);
  }

  lemma NoStatusAfterColon(tail: string)
    requires tail != [] && tail[0] == ':'
    ensures StatusInMessage(ErrorPrefix + tail) == None
  {
    var m := ErrorPrefix + tail;
    assert m[|ErrorPrefix|] == ':';
    assert StatusOpen[|ErrorPrefix|] == ' ';
    assert !StartsWith(m, StatusOpen) by {
      if |StatusOpen| <= |m| {
        assert m[..|StatusOpen|][|ErrorPrefix|] == m[|ErrorPrefix|];
      }
    }
  }

  /** The normalized message keeps the status of the response it replaces,
      and only a message made from a response names a status. */
  lemma StatusSurvivesInMessage(e: AxiosError)
    ensures StatusInMessage(NormalizedMessage(e))
            == if e.response.Some? then Some(e.response.value.status) else None
  {
    var m := NormalizedMessage(e);
    if e.response.Some? {
      var r := e.response.value;
      var tail := m[|StatusOpen| + |Decimal(r.status)| + 1..];
      assert m == StatusOpen + Decimal(r.status) + "]" + tail;
      StatusReadBack(r.status, tail);
    } else if e.requestSent {
      NoStatusAfterColon(": No response received from server");
    } else {
      assert m == ErrorPrefix + (": " + e.message);
      NoStatusAfterColon(": " + e.message);
    }
  }
}
