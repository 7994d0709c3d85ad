/** The per-bag inventory tools of the authenticated user
    (src/modules/my_inventories.ts). Every failure text is
    `Error: <message>`. The bag tools that send data send the same object
    as the JSON body and as the query. */
module MyInventories {
  import opened Wrappers
  import opened Json
  import opened Paths
  import opened Http
  import opened Validation

  const InventoryDeletedText := "Inventory deleted"
  const BagDeletedText := "Bag deleted"

  /** The validated arguments of myinventory_list: only the arguments the
      caller gave are keys of the object. */
  function PageParams(page: Option<int>, pageSize: Option<int>): (params: Object)
    ensures Lookup(params, "page") == OptNum(page)
    ensures Lookup(params, "page_size") == OptNum(pageSize)
    ensures forall e :: e in params ==> e.1 != Undefined && e.0 in {"page", "page_size"}
  {
    var first := if page.Some? then [("page", Js(JNum(page.value)))] else [];
    var second := if pageSize.Some? then [("page_size", Js(JNum(pageSize.value)))] else [];
    if page.Some? && pageSize.Some? then LookupAt(first + second, 1); first + second
    else first + second
  }

  /** myinventory_list. */
  function List(page: Option<int>, pageSize: Option<int>, o: Outcome): (r: Run)
    ensures Sends(r.request, GET, ["api", "inventories", "mine"])
    ensures r.request.query == Some(PageParams(page, pageSize))
    ensures r.request.body == NoBody
    ensures ReportsPayload(r, o)
    ensures o.Fail? ==> r.envelope == Failed(ErrorText(o.thrown))
  {
    assert SlashFree(["api", "inventories", "mine"]);
    Exchange(Call(GET, ["api", "inventories", "mine"], Some(PageParams(page, pageSize)), NoBody), o, Payload, ErrorText)
  }

  /** myinventory_create: the body is the validated arguments object. */
  function Create(setNum: string, o: Outcome): (r: Run)
    requires IsLegoId(setNum)
    ensures Sends(r.request, POST, ["api", "inventories", "mine"])
    ensures r.request.query.None?
    ensures r.request.body.JsonBody? && Keys(r.request.body.entries) == ["set_num"]
    ensures Lookup(r.request.body.entries, "set_num") == Js(JStr(setNum))
    ensures ReportsPayload(r, o)
    ensures o.Fail? ==> r.envelope == Failed(ErrorText(o.thrown))
  {
    assert SlashFree(["api", "inventories", "mine"]);
    Exchange(Call(POST, ["api", "inventories", "mine"], None, JsonBody(Single("set_num", Js(JStr(setNum))))), o, Payload, ErrorText)
  }

  /** `/api/inventories/mine/<id>/`. */
  function InventorySegments(id: int): (segments: seq<string>)
    ensures SlashFree(segments)
    ensures |segments| == 4 && segments[3] == Decimal(id)
  {
    DecimalSlashFree(id);
    ["api", "inventories", "mine", Decimal(id)]
  }

  /** myinventory_retrieve. */
  function Retrieve(id: int, o: Outcome): (r: Run)
    ensures Sends(r.request, GET, InventorySegments(id))
    ensures r.request.query.None? && r.request.body == NoBody
    ensures ReportsPayload(r, o)
    ensures o.Fail? ==> r.envelope == Failed(ErrorText(o.thrown))
  {
    Exchange(Call(GET, InventorySegments(id), None, NoBody), o, Payload, ErrorText)
  }

  /** myinventory_delete: a fixed confirmation replaces the response. */
  function Delete(id: int, o: Outcome): (r: Run)
    ensures Sends(r.request, DELETE, InventorySegments(id))
    ensures r.request.query.None? && r.request.body == NoBody
    ensures o.Ok? ==> r.envelope == Succeeded(InventoryDeletedText)
    ensures o.Fail? ==> r.envelope == Failed(ErrorText(o.thrown))
  {
    Exchange(Call(DELETE, InventorySegments(id), None, NoBody), o, Confirmation(InventoryDeletedText), ErrorText)
  }

  /** `/api/inventories/mine/<id>/bags/`. */
  function BagsSegments(id: int): (segments: seq<string>)
    ensures SlashFree(segments)
    ensures segments == InventorySegments(id) + ["bags"]
  {
    InventorySegments(id) + ["bags"]
  }

  /** myinventory_list_bags. */
  function ListBags(id: int, o: Outcome): (r: Run)
    ensures Sends(r.request, GET, BagsSegments(id))
    ensures r.request.query.None? && r.request.body == NoBody
    ensures ReportsPayload(r, o)
    ensures o.Fail? ==> r.envelope == Failed(ErrorText(o.thrown))
  {
    Exchange(Call(GET, BagsSegments(id), None, NoBody), o, Payload, ErrorText)
  }

  /** myinventory_create_bag: the bag number is sent both as the body and
      as the query. */
  function CreateBag(id: int, bagNumber: string, o: Outcome): (r: Run)
    requires LengthWithin(bagNumber, 1, 32)
    ensures Sends(r.request, POST, BagsSegments(id))
    ensures r.request.body.JsonBody? && r.request.query == Some(r.request.body.entries)
    ensures Keys(r.request.body.entries) == ["bag_number"]
    ensures Lookup(r.request.body.entries, "bag_number") == Js(JStr(bagNumber))
    ensures ReportsPayload(r, o)
    ensures o.Fail? ==> r.envelope == Failed(ErrorText(o.thrown))
  {
    var params := Single("bag_number", Js(JStr(bagNumber)));
    Exchange(Call(POST, BagsSegments(id), Some(params), JsonBody(params)), o, Payload, ErrorText)
  }

  /** `/api/inventories/mine/<id>/bags/<slug>/`, the slug interpolated as
      given. */
  function BagSegments(id: int, slug: string): (segments: seq<string>)
    ensures '/' !in slug ==> SlashFree(segments)
    ensures segments == BagsSegments(id) + [slug]
  {
    BagsSegments(id) + [slug]
  }

  /** myinventory_retrieve_bag. */
  function RetrieveBag(id: int, slug: string, o: Outcome): (r: Run)
    ensures r.request.verb == GET && r.request.path == Route(BagSegments(id, slug))
    ensures '/' !in slug ==> Sends(r.request, GET, BagSegments(id, slug))
    ensures r.request.query.None? && r.request.body == NoBody
    ensures ReportsPayload(r, o)
    ensures o.Fail? ==> r.envelope == Failed(ErrorText(o.thrown))
  {
    Exchange(Call(GET, BagSegments(id, slug), None, NoBody), o, Payload, ErrorText)
  }

  /** myinventory_delete_bag: a fixed confirmation replaces the response. */
  function DeleteBag(id: int, slug: string, o: Outcome): (r: Run)
    ensures r.request.verb == DELETE && r.request.path == Route(BagSegments(id, slug))
    ensures '/' !in slug ==> Sends(r.request, DELETE, BagSegments(id, slug))
    ensures r.request.query.None? && r.request.body == NoBody
    ensures o.Ok? ==> r.envelope == Succeeded(BagDeletedText)
    ensures o.Fail? ==> r.envelope == Failed(ErrorText(o.thrown))
  {
    Exchange(Call(DELETE, BagSegments(id, slug), None, NoBody), o, Confirmation(BagDeletedText), ErrorText)
  }

  /** myinventory_update_bag_number: a PUT whose body and query both hold
      the new bag number. */
  function UpdateBagNumber(id: int, slug: string, bagNumber: string, o: Outcome): (r: Run)
    requires LengthWithin(bagNumber, 1, 32)
    ensures r.request.verb == PUT && r.request.path == Route(BagSegments(id, slug))
    ensures '/' !in slug ==> Sends(r.request, PUT, BagSegments(id, slug))
    ensures r.request.body.JsonBody? && r.request.query == Some(r.request.body.entries)
    ensures Keys(r.request.body.entries) == ["bag_number"]
    ensures Lookup(r.request.body.entries, "bag_number") == Js(JStr(bagNumber))
    ensures ReportsPayload(r, o)
    ensures o.Fail? ==> r.envelope == Failed(ErrorText(o.thrown))
  {
    var params := Single("bag_number", Js(JStr(bagNumber)));
    Exchange(Call(PUT, BagSegments(id, slug), Some(params), JsonBody(params)), o, Payload, ErrorText)
  }

  /** The part line of myinventory_partial_update_bag, in the order the
      handler writes it. */
  function PartParams(partNum: string, colorId: string, quantityUsed: int): (params: Object)
    ensures Keys(params) == ["part_num", "color_id", "quantity_used"]
    ensures Lookup(params, "part_num") == Js(JStr(partNum))
    ensures Lookup(params, "color_id") == Js(JStr(colorId))
    ensures Lookup(params, "quantity_used") == Js(JNum(quantityUsed))
  {
    var params := [("part_num", Js(JStr(partNum))), ("color_id", Js(JStr(colorId))),
                   ("quantity_used", Js(JNum(quantityUsed)))];
    LookupAt(params, 1);
    LookupAt(params, 2);
    params
  }

  /** myinventory_partial_update_bag: a PATCH whose body and query both
      hold the part line. */
  function PartialUpdateBag(id: int, slug: string, partNum: string, colorId: string, quantityUsed: int, o: Outcome): (r: Run)
    requires IsReference(partNum) && IsReference(colorId)
    ensures r.request.verb == PATCH && r.request.path == Route(BagSegments(id, slug))
    ensures '/' !in slug ==> Sends(r.request, PATCH, BagSegments(id, slug))
    ensures r.request.body == JsonBody(PartParams(partNum, colorId, quantityUsed))
    ensures r.request.query == Some(PartParams(partNum, colorId, quantityUsed))
    ensures ReportsPayload(r, o)
    ensures o.Fail? ==> r.envelope == Failed(ErrorText(o.thrown))
  {
    var params := PartParams(partNum, colorId, quantityUsed);
    Exchange(Call(PATCH, BagSegments(id, slug), Some(params), JsonBody(params)), o, Payload, ErrorText)
  }

  /** myinventory_publish: a POST without a body. */
  function Publish(id: int, o: Outcome): (r: Run)
    ensures Sends(r.request, POST, InventorySegments(id) + ["publish"])
    ensures r.request.query.None? && r.request.body == NoBody
    ensures ReportsPayload(r, o)
    ensures o.Fail? ==> r.envelope == Failed(ErrorText(o.thrown))
  {
    assert SlashFree(InventorySegments(id) + ["publish"]);
    Exchange(Call(POST, InventorySegments(id) + ["publish"], None, NoBody), o, Payload, ErrorText)
  }

  /** Operations on an inventory reach that inventory and no other: distinct
      ids give distinct paths. */
  lemma InventoryPathIdentifiesId(a: int, b: int, o: Outcome)
    ensures Retrieve(a, o).request.path == Retrieve(b, o).request.path ==> a == b
  {
    assert InventorySegments(a) == ["api", "inventories", "mine"] + [Decimal(a)];
    assert InventorySegments(b) == ["api", "inventories", "mine"] + [Decimal(b)];
    ItemRouteIdentifiesId(["api", "inventories", "mine"], a, b);
  }

  /** A bag slug holding a slash never addresses that bag: the path reaches
      some other resource. */
  lemma SlashedSlugMisrouted(id: int, slug: string, o: Outcome)
    requires '/' in slug
    ensures !Sends(RetrieveBag(id, slug, o).request, GET, BagSegments(id, slug))
  {
    assert '/' in BagSegments(id, slug)[5];
    SlashedSegmentsUnreachable(RetrieveBag(id, slug, o).request, GET, BagSegments(id, slug));
  }
}
