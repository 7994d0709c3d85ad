/** The public inventory tools of src/modules/inventories.ts. Their failure
    text is `Error: [<status>] - <detail>`: the response status, or
    `Unknown` without a response, and the compact response body when the
    response carries a truthy one, or the error message otherwise. */
module Inventories {
  import opened Wrappers
  import opened Json
  import opened Paths
  import opened Http

  /** `error.response ? error.response.status : 'Unknown'`. */
  function StatusLabel(t: Thrown): string {
    if t.response.Some? then Decimal(t.response.value.status) else UnknownStatus
  }

  /** `error.response && error.response.data ? JSON.stringify(data) : error.message`. */
  function Detail(t: Thrown): string {
    var data := Data(t);
    if data.Some? && Truthy(data.value) then Compact(data.value) else MessageText(t)
  }

  function Failure(t: Thrown): string {
    BracketedText(StatusLabel(t), Detail(t))
  }

  /** The query of inventory_list: all three keys, even when undefined. */
  function ListQuery(page: Option<int>, pageSize: Option<int>, search: Option<string>): (q: Object)
    ensures Keys(q) == ["page", "page_size", "search"]
    ensures Lookup(q, "page") == OptNum(page)
    ensures Lookup(q, "page_size") == OptNum(pageSize)
    ensures Lookup(q, "search") == OptStr(search)
  {
    var q := [("page", OptNum(page)), ("page_size", OptNum(pageSize)), ("search", OptStr(search))];
    LookupAt(q, 1);
    LookupAt(q, 2);
    q
  }

  /** inventory_list: the three query keys are passed, even when undefined. */
  function List(page: Option<int>, pageSize: Option<int>, search: Option<string>, o: Outcome): (r: Run)
    ensures Sends(r.request, GET, ["api", "inventories"])
    ensures r.request.query.Some? && Keys(r.request.query.value) == ["page", "page_size", "search"]
    ensures Lookup(r.request.query.value, "page") == OptNum(page)
    ensures Lookup(r.request.query.value, "page_size") == OptNum(pageSize)
    ensures Lookup(r.request.query.value, "search") == OptStr(search)
    ensures r.request.body == NoBody
    ensures ReportsPayload(r, o)
    ensures o.Fail? ==> r.envelope == Failed(Failure(o.thrown))
  {
    assert SlashFree(["api", "inventories"]);
    Exchange(Call(GET, ["api", "inventories"], Some(ListQuery(page, pageSize, search)), NoBody), o, Payload, Failure)
  }

  /** inventory_retrieve: a GET on the inventory's own path. */
  function Retrieve(id: int, o: Outcome): (r: Run)
    ensures Sends(r.request, GET, ["api", "inventories", Decimal(id)])
    ensures r.request.query.None? && r.request.body == NoBody
    ensures ReportsPayload(r, o)
    ensures o.Fail? ==> r.envelope == Failed(Failure(o.thrown))
  {
    DecimalSlashFree(id);
    assert SlashFree(["api", "inventories", Decimal(id)]);
    Exchange(Call(GET, ["api", "inventories", Decimal(id)], None, NoBody), o, Payload, Failure)
  }

  /** The failure text names `Unknown` exactly when the caught value has no
      response, and otherwise the response's status; both parts can be read
      back from the text. */
  lemma FailureNamesStatus(t: Thrown)
    ensures ReadBracketed(Failure(t)) == Some((StatusLabel(t), Detail(t)))
    ensures StatusLabel(t) == UnknownStatus <==> t.response.None?
    ensures t.response.Some? ==> ParseDecimal(StatusLabel(t)) == Some(t.response.value.status)
  {
    if t.response.Some? {
      var d := Decimal(t.response.value.status);
      assert d[0] != 'U';
      assert ']' !in d;
      DecimalRoundTrip(t.response.value.status);
    }
    assert UnknownStatus[0] == 'U';
    BracketedRoundTrip(StatusLabel(t), Detail(t));
  }

  /** The response body replaces the message exactly when it is truthy. */
  lemma DetailShowsTruthyData(t: Thrown)
    ensures Data(t).Some? && Truthy(Data(t).value) ==> Detail(t) == Compact(Data(t).value)
    ensures Data(t).None? || !Truthy(Data(t).value) ==> Detail(t) == MessageText(t)
  {
  }
}
