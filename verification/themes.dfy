/** The theme tools of src/modules/themes.ts. Their failure text has the
    same shape as the inventory tools', but the label is
    `error.response?.status || 'Unknown'`, so a zero status also reads
    `Unknown`, and the detail is always the error message. */
module Themes {
  import opened Wrappers
  import opened Json
  import opened Paths
  import opened Http

  /** `error.response?.status || 'Unknown'`. */
  function StatusLabel(t: Thrown): string {
    var status := Status(t);
    if status.Some? && status.value != 0 then Decimal(status.value) else UnknownStatus
  }

  function Failure(t: Thrown): string {
    BracketedText(StatusLabel(t), MessageText(t))
  }

  /** theme_search: both query keys are passed, even when undefined. */
  function Search(page: Option<int>, search: Option<string>, o: Outcome): (r: Run)
    ensures Sends(r.request, GET, ["api", "themes"])
    ensures r.request.query.Some? && Keys(r.request.query.value) == ["page", "search"]
    ensures Lookup(r.request.query.value, "page") == OptNum(page)
    ensures Lookup(r.request.query.value, "search") == OptStr(search)
    ensures r.request.body == NoBody
    ensures ReportsPayload(r, o)
    ensures o.Fail? ==> r.envelope == Failed(Failure(o.thrown))
  {
    assert SlashFree(["api", "themes"]);
    Exchange(Call(GET, ["api", "themes"], Some(PageSearch(page, search)), NoBody), o, Payload, Failure)
  }

  /** theme_retrieve: a GET on the theme's own path. */
  function Retrieve(id: int, o: Outcome): (r: Run)
    ensures Sends(r.request, GET, ["api", "themes", Decimal(id)])
    ensures r.request.query.None? && r.request.body == NoBody
    ensures ReportsPayload(r, o)
    ensures o.Fail? ==> r.envelope == Failed(Failure(o.thrown))
  {
    DecimalSlashFree(id);
    assert SlashFree(["api", "themes", Decimal(id)]);
    Exchange(Call(GET, ["api", "themes", Decimal(id)], None, NoBody), o, Payload, Failure)
  }

  /** The label is `Unknown` exactly when there is no response or its status
      is zero; the detail read back from the text is the error message,
      whatever the response body. */
  lemma FailureNamesNonzeroStatus(t: Thrown)
    ensures StatusLabel(t) == UnknownStatus <==> Status(t).None? || Status(t) == Some(0)
    ensures ReadBracketed(Failure(t)) == Some((StatusLabel(t), MessageText(t)))
  {
    var status := Status(t);
    if status.Some? && status.value != 0 {
      assert Decimal(status.value)[0] != 'U';
    }
    assert UnknownStatus[0] == 'U';
    assert ']' !in StatusLabel(t);
    BracketedRoundTrip(StatusLabel(t), MessageText(t));
  }
}
