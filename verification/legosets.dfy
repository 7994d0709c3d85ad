/** The tools of src/modules/legosets.ts: searching the LEGO set database,
    retrieving one set (with its own text for a 404) and registering a set
    from Brickset (with its own texts for a 400 and a 500). */
module Legosets {
  import opened Wrappers
  import opened Strings
  import opened Json
  import opened Paths
  import opened Http

  function SearchFailure(t: Thrown): string {
    "Could not search LEGO sets: " + MessageText(t)
  }

  /** legoset_search: both query keys are passed, even when undefined. */
  function Search(page: Option<int>, search: Option<string>, o: Outcome): (r: Run)
    ensures Sends(r.request, GET, ["api", "legosets"])
    ensures r.request.query.Some? && Keys(r.request.query.value) == ["page", "search"]
    ensures Lookup(r.request.query.value, "page") == OptNum(page)
    ensures Lookup(r.request.query.value, "search") == OptStr(search)
    ensures r.request.body == NoBody
    ensures ReportsPayload(r, o)
    ensures o.Fail? ==> r.envelope == Failed("Could not search LEGO sets: " + MessageText(o.thrown))
  {
    assert SlashFree(["api", "legosets"]);
    Exchange(Call(GET, ["api", "legosets"], Some(PageSearch(page, search)), NoBody), o, Payload, SearchFailure)
  }

  function NotFoundText(id: int): string {
    "LEGO set with id '" + Decimal(id) + "' not found"
  }

  function RetrievePrefix(id: int): string {
    "Could not retrieve LEGO set '" + Decimal(id) + "': "
  }

  /** The text of a failed legoset_retrieve. */
  function RetrieveFailure(id: int, t: Thrown): string {
    if Status(t) == Some(404) then NotFoundText(id) else RetrievePrefix(id) + MessageText(t)
  }

  /** legoset_retrieve: a GET on the set's own path. */
  function Retrieve(id: int, o: Outcome): (r: Run)
    ensures Sends(r.request, GET, ["api", "legosets", Decimal(id)])
    ensures r.request.query.None? && r.request.body == NoBody
    ensures ReportsPayload(r, o)
    ensures o.Fail? ==> r.envelope == Failed(RetrieveFailure(id, o.thrown))
  {
    DecimalSlashFree(id);
    assert SlashFree(["api", "legosets", Decimal(id)]);
    Exchange(Call(GET, ["api", "legosets", Decimal(id)], None, NoBody), o, Payload,
             t => RetrieveFailure(id, t))
  }

  /** The not-found text is returned exactly when the failure carries a
      404 response; every other failure names the id and quotes the
      error message after a fixed prefix. */
  lemma RetrieveNotFoundExactlyOn404(id: int, t: Thrown)
    ensures RetrieveFailure(id, t) == NotFoundText(id) <==> Status(t) == Some(404)
    ensures Status(t) != Some(404) ==>
              StartsWith(RetrieveFailure(id, t), RetrievePrefix(id))
              && RetrieveFailure(id, t)[|RetrievePrefix(id)|..] == MessageText(t)
  {
    if Status(t) != Some(404) {
      var text := RetrieveFailure(id, t);
      assert text[0] == 'C';
      assert NotFoundText(id)[0] == 'L';
      assert text[..|RetrievePrefix(id)|] == RetrievePrefix(id);
    }
  }

  // ---------------------------------------------------------------------

  // Written as two literals: the verifier does not evaluate indexing into
  // a single literal of this length, and the lemmas below need its first
  // character.
  const ImportFailedText := "Import has failed" + " for some reason. Team has been informed."
  const BadRequestPrefix := "Bad request when registering set: "
  const RegisterPrefix := "Could not register LEGO set from brickset: "

  /** `error.response?.data?.detail || error.message`. */
  function BadRequestDetail(t: Thrown): string {
    var detail := Property(Data(t), "detail");
    if detail.Some? && Truthy(detail.value) then JsString(detail.value) else MessageText(t)
  }

  /** The text of a failed legoset_register. */
  function RegisterFailure(t: Thrown): string {
    if Status(t) == Some(400) then BadRequestPrefix + BadRequestDetail(t)
    else if Status(t) == Some(500) then ImportFailedText
    else RegisterPrefix + MessageText(t)
  }

  /** legoset_register: a POST whose body holds only the Brickset id, on the
      one path of the API without a trailing slash. */
  function Register(bricksetSetId: int, o: Outcome): (r: Run)
    ensures r.request.verb == POST
    ensures r.request.path + "/" == Route(["api", "legosets", "register_from_brickset"])
    ensures ParseRoute(r.request.path + "/") == Some(["api", "legosets", "register_from_brickset"])
    ensures r.request.query.None?
    ensures r.request.body.JsonBody? && Keys(r.request.body.entries) == ["brickset_set_id"]
    ensures Lookup(r.request.body.entries, "brickset_set_id") == Js(JNum(bricksetSetId))
    ensures ReportsPayload(r, o)
    ensures o.Fail? ==> r.envelope == Failed(RegisterFailure(o.thrown))
  {
    Exchange(Request(POST, RegisterPath(), None, JsonBody(Single("brickset_set_id", Js(JNum(bricksetSetId))))), o, Payload, RegisterFailure)
  }

  /** `/api/legosets/register_from_brickset`: the route of its segments
      without the final slash. */
  function RegisterPath(): (path: string)
    ensures path + "/" == Route(["api", "legosets", "register_from_brickset"])
    ensures ParseRoute(path + "/") == Some(["api", "legosets", "register_from_brickset"])
  {
    var segments := ["api", "legosets", "register_from_brickset"];
    var route := Route(segments);
    assert route[..|route| - 1] + "/" == route;
    RouteRoundTrip(segments);
    route[..|route| - 1]
  }

  /** The fixed import-failure text is returned exactly on a 500 response,
      whatever the message and the response data. */
  lemma ImportFailedExactlyOn500(t: Thrown)
    ensures RegisterFailure(t) == ImportFailedText <==> Status(t) == Some(500)
  {
    if Status(t) == Some(400) {
      assert BadRequestPrefix[0] == 'B';
      assert RegisterFailure(t)[0] == BadRequestPrefix[0];
    } else if Status(t) != Some(500) {
      assert RegisterPrefix[0] == 'C';
      assert RegisterFailure(t)[0] == RegisterPrefix[0];
    }
    assert ImportFailedText[0] == 'I';
  }

  /** A 400 response shows the server's `detail` when it is truthy and the
      error message otherwise, after a fixed prefix. */
  lemma BadRequestShowsDetail(t: Thrown)
    requires Status(t) == Some(400)
    ensures StartsWith(RegisterFailure(t), BadRequestPrefix)
    ensures var detail := Property(Data(t), "detail");
            RegisterFailure(t)[|BadRequestPrefix|..]
            == if detail.Some? && Truthy(detail.value) then JsString(detail.value) else MessageText(t)
  {
    var text := RegisterFailure(t);
    assert text == BadRequestPrefix + BadRequestDetail(t);
    assert text[..|BadRequestPrefix|] == BadRequestPrefix;
    assert text[|BadRequestPrefix|..] == BadRequestDetail(t);
  }
}
