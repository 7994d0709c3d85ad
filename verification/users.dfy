/** The user search tool of src/modules/users.ts. Its failure text shows
    the response body pretty-printed when there is a truthy one, and the
    error message otherwise. */
module Users {
  import opened Wrappers
  import opened Json
  import opened Paths
  import opened Http

  const FailurePrefix := "Could not fetch users: "

  /** `error.response?.data ? JSON.stringify(data, null, 2) : error.message`. */
  function Detail(t: Thrown): string {
    var data := Data(t);
    if data.Some? && Truthy(data.value) then Pretty(data.value) else MessageText(t)
  }

  function Failure(t: Thrown): string {
    FailurePrefix + Detail(t)
  }

  /** The query of user_list: all three keys, the page ones even when
      undefined. */
  function ListQuery(searchedString: string, page: Option<int>, pageSize: Option<int>): (q: Object)
    ensures Keys(q) == ["searched_string", "page", "page_size"]
    ensures Lookup(q, "searched_string") == Js(JStr(searchedString))
    ensures Lookup(q, "page") == OptNum(page)
    ensures Lookup(q, "page_size") == OptNum(pageSize)
  {
    var q := [("searched_string", Js(JStr(searchedString))), ("page", OptNum(page)), ("page_size", OptNum(pageSize))];
    LookupAt(q, 1);
    LookupAt(q, 2);
    q
  }

  /** user_list: the searched string must have at least three characters;
      the three query keys are passed, the page ones even when undefined. */
  function List(searchedString: string, page: Option<int>, pageSize: Option<int>, o: Outcome): (r: Run)
    requires |searchedString| >= 3
    ensures Sends(r.request, GET, ["api", "users"])
    ensures r.request.query.Some? && Keys(r.request.query.value) == ["searched_string", "page", "page_size"]
    ensures Lookup(r.request.query.value, "searched_string") == Js(JStr(searchedString))
    ensures Lookup(r.request.query.value, "page") == OptNum(page)
    ensures Lookup(r.request.query.value, "page_size") == OptNum(pageSize)
    ensures r.request.body == NoBody
    ensures ReportsPayload(r, o)
    ensures o.Fail? ==> r.envelope == Failed(FailurePrefix + Detail(o.thrown))
  {
    assert SlashFree(["api", "users"]);
    Exchange(Call(GET, ["api", "users"], Some(ListQuery(searchedString, page, pageSize)), NoBody), o, Payload, Failure)
  }

  /** The text after the prefix is the pretty response body exactly when
      the response carries a truthy body, and the error message otherwise. */
  lemma FailureShowsBodyOrMessage(t: Thrown)
    ensures Failure(t)[..|FailurePrefix|] == FailurePrefix
    ensures Data(t).Some? && Truthy(Data(t).value) ==> Failure(t)[|FailurePrefix|..] == Pretty(Data(t).value)
    ensures Data(t).None? || !Truthy(Data(t).value) ==> Failure(t)[|FailurePrefix|..] == MessageText(t)
  {
  }
}
