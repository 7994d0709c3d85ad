/** The account tools of src/modules/my_account.ts: back-in-stock alerts
    and the wish list of the authenticated user. Every failure text is
    `formatError(error)`: the message of an `Error`, or `String(error)` of
    any other rejection value. */
module MyAccount {
  import opened Wrappers
  import opened Json
  import opened Paths
  import opened Http
  import opened Validation

  /** formatError. */
  function FormatError(t: Thrown): (text: string)
    ensures t.ErrorInstance? ==> text == t.message
    ensures t.OtherValue? ==> text == t.asString
  {
    match t
    case ErrorInstance(message, _) => message
    case OtherValue(_, _, asString) => asString
  }

  /** For an `Error`, the account text is the shared `Error: <message>`
      text without its prefix. For any other rejection value the two differ
      whenever that value has no `message` property: the account tools show
      its `String()`, the other families interpolate `undefined`. */
  lemma FormatErrorAgainstMessage(t: Thrown)
    ensures t.ErrorInstance? ==> FormatError(t) == MessageText(t) && ErrorText(t) == "Error: " + FormatError(t)
    ensures t.OtherValue? ==> FormatError(t) == t.asString
    ensures t.OtherValue? && t.messageProperty.None? ==>
              (FormatError(t) == MessageText(t) <==> t.asString == "undefined")
  {
  }

  const AlertRemovedText := "Alert removed from your list"
  const WishRemovedText := "Set removed from your wish list"

  /** account_list_stock_alerts. */
  function ListStockAlerts(o: Outcome): (r: Run)
    ensures Sends(r.request, GET, ["api", "my_account", "backinstockalerts"])
    ensures r.request.query.None? && r.request.body == NoBody
    ensures ReportsPayload(r, o)
    ensures o.Fail? ==> r.envelope == Failed(FormatError(o.thrown))
  {
    assert SlashFree(["api", "my_account", "backinstockalerts"]);
    Exchange(Call(GET, ["api", "my_account", "backinstockalerts"], None, NoBody), o, Payload, FormatError)
  }

  /** account_delete_stock_alert: a DELETE on the alert's path; the response
      body is ignored in favour of a fixed confirmation. */
  function DeleteStockAlert(id: int, o: Outcome): (r: Run)
    ensures Sends(r.request, DELETE, ["api", "my_account", "backinstockalerts", Decimal(id)])
    ensures r.request.query.None? && r.request.body == NoBody
    ensures o.Ok? ==> r.envelope == Succeeded(AlertRemovedText)
    ensures o.Fail? ==> r.envelope == Failed(FormatError(o.thrown))
  {
    DecimalSlashFree(id);
    assert SlashFree(["api", "my_account", "backinstockalerts", Decimal(id)]);
    Exchange(Call(DELETE, ["api", "my_account", "backinstockalerts", Decimal(id)], None, NoBody),
             o, Confirmation(AlertRemovedText), FormatError)
  }

  /** account_list_wishlist. */
  function ListWishlist(o: Outcome): (r: Run)
    ensures Sends(r.request, GET, ["api", "my_account", "wishlist"])
    ensures r.request.query.None? && r.request.body == NoBody
    ensures ReportsPayload(r, o)
    ensures o.Fail? ==> r.envelope == Failed(FormatError(o.thrown))
  {
    assert SlashFree(["api", "my_account", "wishlist"]);
    Exchange(Call(GET, ["api", "my_account", "wishlist"], None, NoBody), o, Payload, FormatError)
  }

  /** account_create_wishlist_item: the identifier must match the LEGO
      identifier pattern; the body holds it as its only entry. */
  function CreateWishlistItem(legoId: string, o: Outcome): (r: Run)
    requires IsLegoId(legoId)
    ensures Sends(r.request, POST, ["api", "my_account", "wishlist"])
    ensures r.request.query.None?
    ensures r.request.body.JsonBody? && Keys(r.request.body.entries) == ["legoset_lego_id"]
    ensures Lookup(r.request.body.entries, "legoset_lego_id") == Js(JStr(legoId))
    ensures ReportsPayload(r, o)
    ensures o.Fail? ==> r.envelope == Failed(FormatError(o.thrown))
  {
    assert SlashFree(["api", "my_account", "wishlist"]);
    Exchange(Call(POST, ["api", "my_account", "wishlist"], None, JsonBody(Single("legoset_lego_id", Js(JStr(legoId))))), o, Payload, FormatError)
  }

  /** account_delete_wishlist_item. */
  function DeleteWishlistItem(id: int, o: Outcome): (r: Run)
    ensures Sends(r.request, DELETE, ["api", "my_account", "wishlist", Decimal(id)])
    ensures r.request.query.None? && r.request.body == NoBody
    ensures o.Ok? ==> r.envelope == Succeeded(WishRemovedText)
    ensures o.Fail? ==> r.envelope == Failed(FormatError(o.thrown))
  {
    DecimalSlashFree(id);
    assert SlashFree(["api", "my_account", "wishlist", Decimal(id)]);
    Exchange(Call(DELETE, ["api", "my_account", "wishlist", Decimal(id)], None, NoBody),
             o, Confirmation(WishRemovedText), FormatError)
  }
}
