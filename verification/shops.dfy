/** The public shop tools of src/modules/shops.ts: listing shops and
    retrieving one shop by its slug. */
module Shops {
  import opened Wrappers
  import opened Json
  import opened Paths
  import opened Http

  function ListFailure(t: Thrown): string {
    "Could not fetch shops: " + MessageText(t)
  }

  /** The query of list_shops: all three keys, even when undefined. */
  function ListQuery(page: Option<int>, pageSize: Option<int>, openOnly: Option<bool>): (q: Object)
    ensures Keys(q) == ["page", "page_size", "open_only"]
    ensures Lookup(q, "page") == OptNum(page)
    ensures Lookup(q, "page_size") == OptNum(pageSize)
    ensures Lookup(q, "open_only") == OptBool(openOnly)
  {
    var q := [("page", OptNum(page)), ("page_size", OptNum(pageSize)), ("open_only", OptBool(openOnly))];
    LookupAt(q, 1);
    LookupAt(q, 2);
    q
  }

  /** list_shops: the three query keys are passed, even when undefined. */
  function List(page: Option<int>, pageSize: Option<int>, openOnly: Option<bool>, o: Outcome): (r: Run)
    ensures Sends(r.request, GET, ["api", "shops"])
    ensures r.request.query.Some? && Keys(r.request.query.value) == ["page", "page_size", "open_only"]
    ensures Lookup(r.request.query.value, "page") == OptNum(page)
    ensures Lookup(r.request.query.value, "page_size") == OptNum(pageSize)
    ensures Lookup(r.request.query.value, "open_only") == OptBool(openOnly)
    ensures r.request.body == NoBody
    ensures ReportsPayload(r, o)
    ensures o.Fail? ==> r.envelope == Failed("Could not fetch shops: " + MessageText(o.thrown))
  {
    assert SlashFree(["api", "shops"]);
    Exchange(Call(GET, ["api", "shops"], Some(ListQuery(page, pageSize, openOnly)), NoBody), o, Payload, ListFailure)
  }

  function GetPrefix(slug: string): string {
    "Could not fetch shop '" + slug + "': "
  }

  /** get_shop: the slug is interpolated into the path as given. */
  function Get(slug: string, o: Outcome): (r: Run)
    ensures r.request.verb == GET
    ensures r.request.path == Route(["api", "shops", slug])
    ensures '/' !in slug ==> Sends(r.request, GET, ["api", "shops", slug])
    ensures r.request.query.None? && r.request.body == NoBody
    ensures ReportsPayload(r, o)
    ensures o.Fail? ==> r.envelope == Failed(GetPrefix(slug) + MessageText(o.thrown))
  {
    var segments := ["api", "shops", slug];
    assert '/' !in slug ==> SlashFree(segments);
    Exchange(Call(GET, segments, None, NoBody), o, Payload, t => GetPrefix(slug) + MessageText(t))
  }

  /** Distinct slash-free slugs are requested on distinct paths. */
  lemma GetAddressesSlug(a: string, b: string, o: Outcome)
    requires '/' !in a && '/' !in b
    ensures Get(a, o).request.path == Get(b, o).request.path ==> a == b
  {
    var sa, sb := ["api", "shops", a], ["api", "shops", b];
    assert SlashFree(sa) && SlashFree(sb);
    RouteInjective(sa, sb);
    if sa == sb {
      assert sa[2] == sb[2];
    }
  }
}
