/** The catalog tools of src/modules/catalogs.ts: listing the catalogs,
    listing the rentable sets with the caller's filters passed through
    verbatim, and retrieving one set by its LEGO identifier. None of them
    treats any status specially. */
module Catalogs {
  import opened Wrappers
  import opened Strings
  import opened Json
  import opened Paths
  import opened Http

  function ListFailure(t: Thrown): string {
    "Could not fetch catalogs: " + MessageText(t)
  }

  /** catalog_list: takes no argument and passes no query. */
  function List(o: Outcome): (r: Run)
    ensures Sends(r.request, GET, ["api", "catalogs"])
    ensures r.request.query.None? && r.request.body == NoBody
    ensures ReportsPayload(r, o)
    ensures o.Fail? ==> r.envelope == Failed(ListFailure(o.thrown))
  {
    assert SlashFree(["api", "catalogs"]);
    Exchange(Call(GET, ["api", "catalogs"], None, NoBody), o, Payload, ListFailure)
  }

  function ListSetsFailure(t: Thrown): string {
    "Could not fetch catalog sets: " + MessageText(t)
  }

  /** catalog_list_sets: the validated arguments object is the query,
      entry for entry; keys the caller left out stay out. */
  function ListSets(params: Object, o: Outcome): (r: Run)
    ensures Sends(r.request, GET, ["api", "catalogs", "sets"])
    ensures r.request.query == Some(params)
    ensures r.request.body == NoBody
    ensures ReportsPayload(r, o)
    ensures o.Fail? ==> r.envelope == Failed("Could not fetch catalog sets: " + MessageText(o.thrown))
  {
    assert SlashFree(["api", "catalogs", "sets"]);
    Exchange(Call(GET, ["api", "catalogs", "sets"], Some(params), NoBody), o, Payload, ListSetsFailure)
  }

  function RetrieveSetPrefix(legoId: string): string {
    "Could not fetch catalog set '" + legoId + "': "
  }

  /** catalog_retrieve_set: the identifier is interpolated into the path
      as given. */
  function RetrieveSet(legoId: string, o: Outcome): (r: Run)
    ensures r.request.verb == GET
    ensures r.request.path == Route(["api", "catalogs", "sets", legoId])
    ensures '/' !in legoId ==> Sends(r.request, GET, ["api", "catalogs", "sets", legoId])
    ensures r.request.query.None? && r.request.body == NoBody
    ensures ReportsPayload(r, o)
    ensures o.Fail? ==> r.envelope == Failed(RetrieveSetPrefix(legoId) + MessageText(o.thrown))
  {
    var segments := ["api", "catalogs", "sets", legoId];
    assert '/' !in legoId ==> SlashFree(segments);
    Exchange(Call(GET, segments, None, NoBody), o, Payload, t => RetrieveSetPrefix(legoId) + MessageText(t))
  }

  /** An identifier holding a slash is never the last segment of the path
      requested: the path reaches some other resource. */
  lemma SlashedLegoIdMisrouted(legoId: string, o: Outcome)
    requires '/' in legoId
    ensures !Sends(RetrieveSet(legoId, o).request, GET, ["api", "catalogs", "sets", legoId])
  {
    var segments := ["api", "catalogs", "sets", legoId];
    assert '/' in segments[3];
    SlashedSegmentsUnreachable(RetrieveSet(legoId, o).request, GET, segments);
  }
}
