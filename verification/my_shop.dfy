/** The shop tools of the authenticated owner (src/modules/my_shop.ts): the
    shop profile, written as a multipart form with an optional image, and
    the shop's coupons. Every failure text is `Error: <message>`. */
module MyShop {
  import opened Wrappers
  import opened Strings
  import opened Json
  import opened Paths
  import opened Http

  const ShopSegments := ["api", "my_shop"]
  const CouponsSegments := ["api", "my_shop", "coupons"]

  /** The success envelope of a write and the failure envelope of the
      caught value. */
  function Respond(o: Outcome): (e: Envelope)
    ensures o.Ok? ==> e == Succeeded(Pretty(o.data))
    ensures o.Fail? ==> e == Failed(ErrorText(o.thrown))
  {
    match o
    case Ok(data) => Succeeded(Pretty(data))
    case Fail(thrown) => Failed(ErrorText(thrown))
  }

  /** The shop-profile writes answer exactly as every other single-call
      tool whose failure text is `Error: <message>`. */
  lemma RespondIsExchange(request: Request, o: Outcome)
    ensures Respond(o) == Exchange(request, o, Payload, ErrorText).envelope
    ensures Respond(o).isError.None? <==> o.Ok?
  {
  }

  /** myshop_retrieve. */
  function Retrieve(o: Outcome): (r: Run)
    ensures Sends(r.request, GET, ShopSegments)
    ensures r.request.query.None? && r.request.body == NoBody
    ensures ReportsPayload(r, o)
    ensures o.Fail? ==> r.envelope == Failed(ErrorText(o.thrown))
  {
    assert SlashFree(ShopSegments);
    Exchange(Call(GET, ShopSegments, None, NoBody), o, Payload, ErrorText)
  }

  // ---------------------------------------------------------------------
  // The shop profile form.

  /** An argument entry that becomes a form field: any key but `image`, and
      a defined value. */
  predicate Kept(e: (string, Value)) {
    e.0 != "image" && e.1 != Undefined
  }

  /** `typeof value === 'object' ? JSON.stringify(value) : value`; `null`
      is of type object too. */
  function FieldText(j: Json): FieldValue {
    if IsObjectTyped(j) then Text(Compact(j)) else Raw(j)
  }

  /** The fields appended for the arguments, in argument order. */
  function FormFields(params: Object): (fields: seq<Part>)
    ensures |fields| <= |params|
    ensures forall e :: e in params && Kept(e) ==> Field(e.0, FieldText(e.1.json)) in fields
    ensures forall e :: e in params && e.0 != "image" && e.1 == Js(JNull) ==> Field(e.0, Text("null")) in fields
    ensures forall p :: p in fields ==>
              p.Field? && p.name != "image"
              && exists v :: (p.name, v) in params && v != Undefined && p.value == FieldText(v.json)
  {
    FieldsSound(params);
    Fields(params)
  }

  /** The fields one entry contributes. */
  function EntryFields(e: (string, Value)): seq<Part> {
    if Kept(e) then [Field(e.0, FieldText(e.1.json))] else []
  }

  /** The form loop: each entry's fields in turn. */
  function Fields(params: Object): seq<Part> {
    if params == [] then [] else EntryFields(params[0]) + Fields(params[1..])
  }

  /** Every kept entry gives its field and every field comes from a kept
      entry. */
  lemma {:induction false} FieldsSound(params: Object)
    ensures |Fields(params)| <= |params|
    ensures forall e :: e in params && Kept(e) ==> Field(e.0, FieldText(e.1.json)) in Fields(params)
    ensures forall p :: p in Fields(params) ==>
              p.Field? && p.name != "image"
              && exists v :: (p.name, v) in params && v != Undefined && p.value == FieldText(v.json)
  {
    if params != [] {
      FieldsSound(params[1..]);
      assert forall e :: e in params ==> e == params[0] || e in params[1..];
    }
  }

  lemma {:induction false} FieldsAppend(a: Object, b: Object)
    ensures Fields(a + b) == Fields(a) + Fields(b)
  {
    if a == [] {
      assert a + b == b;
    } else {
      assert (a + b)[0] == a[0];
      assert (a + b)[1..] == a[1..] + b;
      FieldsAppend(a[1..], b);
    }
  }

  /** The fields of a concatenation are the fields of each part in turn, so
      the form keeps the argument order and one field per kept entry. */
  lemma FormFieldsAppend(a: Object, b: Object)
    ensures FormFields(a + b) == FormFields(a) + FormFields(b)
  {
    FieldsAppend(a, b);
  }

  /** A single entry gives one field exactly when it is kept. */
  lemma FormFieldsSingle(e: (string, Value))
    ensures FormFields([e]) == if Kept(e) then [Field(e.0, FieldText(e.1.json))] else []
  {
    assert [e][1..] == [];
    assert Fields([e]) == EntryFields(e) + [];
  }

  /** `s.split(',')[1]`: the text between the first comma and the next one
      (or the end), and undefined when there is no comma. */
  function SecondField(s: string): Option<string> {
    match FirstIndex(s, ',')
    case None => None
    case Some(i) =>
      var rest := s[i + 1..];
      match FirstIndex(rest, ',')
      case None => Some(rest)
      case Some(j) => Some(rest[..j])
  }

  /** A data URL's comma-free payload is what the split yields. */
  lemma SecondFieldOfDataUrl(header: string, payload: string, tail: string)
    requires ',' !in header && ',' !in payload
    ensures SecondField(header + "," + payload) == Some(payload)
    ensures SecondField(header + "," + payload + "," + tail) == Some(payload)
  {
    FirstIndexAfter(header, ',', payload);
    assert (header + "," + payload)[|header| + 1..] == payload;
    var s := header + "," + payload + "," + tail;
    assert s == header + [','] + (payload + "," + tail);
    FirstIndexAfter(header, ',', payload + "," + tail);
    assert s[|header| + 1..] == payload + [','] + tail;
    FirstIndexAfter(payload, ',', tail);
    assert (payload + [','] + tail)[..|payload|] == payload;
  }

  /** What the handler does with the `image` argument. */
  datatype ImagePlan = NoImage | Fetch(url: string) | Decode(segment: Option<string>)

  const HttpPrefix := "http"
  const DataImagePrefix := "data:image"

  /** The image argument is a string when present. */
  predicate ImageArgument(params: Object) {
    var image := Lookup(params, "image");
    image.Undefined? || image.json.JStr?
  }

  function ImageText(params: Object): string
    requires ImageArgument(params)
  {
    var image := Lookup(params, "image");
    if image.Undefined? then "" else image.json.s
  }

  /** Classifies the image argument: empty or absent adds nothing, an
      `http` prefix is fetched, a `data:image` prefix is decoded from the
      second comma-separated field, and anything else adds nothing. */
  function ClassifyImage(s: string): (plan: ImagePlan)
    ensures s == "" ==> plan == NoImage
    ensures plan.Fetch? <==> StartsWith(s, HttpPrefix)
    ensures plan.Fetch? ==> plan.url == s
    ensures StartsWith(s, DataImagePrefix) ==> plan == Decode(SecondField(s))
    ensures !StartsWith(s, HttpPrefix) && !StartsWith(s, DataImagePrefix) ==> plan == NoImage
  {
    if s == [] then NoImage
    else if StartsWith(s, HttpPrefix) then Fetch(s)
    else if StartsWith(s, DataImagePrefix) then Decode(SecondField(s))
    else
      assert !StartsWith(s, DataImagePrefix);
      NoImage
  }

  /** The message of the `TypeError` `Buffer.from(undefined, 'base64')`
      throws, as Node words it. */
  const BufferTypeErrorMessage := "The first argument must be of type string or an instance of Buffer,"
    + " ArrayBuffer, or Array or an Array-like Object. Received undefined"

  /** The file part of the form: always named `image`, always `image.jpg`. */
  function ImagePart(source: ImageSource): Part {
    File("image", source, "image.jpg")
  }

  /** One invocation of a shop-profile write: the URL downloaded (in
      stream mode) if any, the write request if one was issued, and the
      envelope. */
  datatype ShopRun = ShopRun(download: Option<string>, write: Option<Request>, envelope: Envelope)

  /** The handler shared by myshop_update and myshop_partial_update, given
      the outcome of the image download (consulted only when one happens)
      and of the write. */
  function SubmitShop(verb: Method, params: Object, fetched: Outcome, written: Outcome): (r: ShopRun)
    requires ImageArgument(params)
    ensures var plan := ClassifyImage(ImageText(params));
            && (r.download.Some? <==> plan.Fetch?)
            && (r.download.Some? ==> r.download.value == ImageText(params))
            && (r.write.None? <==> (plan.Fetch? && fetched.Fail?) || plan == Decode(None))
    ensures var plan := ClassifyImage(ImageText(params));
            r.write.Some? ==>
              && Sends(r.write.value, verb, ShopSegments)
              && r.write.value.query.None?
              && r.write.value.body.Multipart?
              && var parts := r.write.value.body.parts;
                 && |parts| == |FormFields(params)| + (if plan.NoImage? then 0 else 1)
                 && parts[..|FormFields(params)|] == FormFields(params)
                 && (plan.Fetch? ==> parts[|parts| - 1] == ImagePart(Downloaded(plan.url)))
                 && (plan.Decode? ==> parts[|parts| - 1] == ImagePart(Base64(plan.segment.value)))
    ensures r.write.Some? ==> r.envelope == Respond(written)
    ensures ClassifyImage(ImageText(params)).Fetch? && fetched.Fail? ==>
              r.envelope == Failed(ErrorText(fetched.thrown))
    ensures ClassifyImage(ImageText(params)) == Decode(None) ==>
              r.envelope == Failed(ErrorText(ErrorInstance(BufferTypeErrorMessage, None)))
  {
    var fields := FormFields(params);
    var plan := ClassifyImage(ImageText(params));
    match plan
    case NoImage =>
      ShopRun(None, Some(ShopWrite(verb, fields, None)), Respond(written))
    case Fetch(url) =>
      if fetched.Fail? then ShopRun(Some(url), None, Failed(ErrorText(fetched.thrown)))
      else ShopRun(Some(url), Some(ShopWrite(verb, fields, Some(ImagePart(Downloaded(url))))), Respond(written))
    case Decode(segment) =>
      if segment.None? then ShopRun(None, None, Failed(ErrorText(ErrorInstance(BufferTypeErrorMessage, None))))
      else ShopRun(None, Some(ShopWrite(verb, fields, Some(ImagePart(Base64(segment.value))))), Respond(written))
  }

  /** The multipart write on the shop: the fields, then the image file when
      there is one. */
  function ShopWrite(verb: Method, fields: seq<Part>, image: Option<Part>): (request: Request)
    ensures Sends(request, verb, ShopSegments)
    ensures request.query.None? && request.body.Multipart?
    ensures |request.body.parts| == |fields| + (if image.None? then 0 else 1)
    ensures request.body.parts[..|fields|] == fields
    ensures image.Some? ==> request.body.parts[|fields|] == image.value
  {
    var parts := if image.None? then fields else fields + [image.value];
    assert parts[..|fields|] == fields;
    assert SlashFree(ShopSegments);
    Call(verb, ShopSegments, None, Multipart(parts))
  }

  /** myshop_update: the form is PUT on the shop. */
  function Update(params: Object, fetched: Outcome, written: Outcome): (r: ShopRun)
    requires ImageArgument(params)
    ensures r.write.Some? ==> Sends(r.write.value, PUT, ShopSegments)
    ensures r.download.Some? && fetched.Fail? ==> r.write.None? && r.envelope == Failed(ErrorText(fetched.thrown))
    ensures StartsWith(ImageText(params), DataImagePrefix) ==> r.download.None?
  {
    SubmitShop(PUT, params, fetched, written)
  }

  /** myshop_partial_update: the form is PATCHed on the shop. */
  function PartialUpdate(params: Object, fetched: Outcome, written: Outcome): (r: ShopRun)
    requires ImageArgument(params)
    ensures r.write.Some? ==> Sends(r.write.value, PATCH, ShopSegments)
    ensures r.download.Some? && fetched.Fail? ==> r.write.None? && r.envelope == Failed(ErrorText(fetched.thrown))
    ensures StartsWith(ImageText(params), DataImagePrefix) ==> r.download.None?
  {
    SubmitShop(PATCH, params, fetched, written)
  }

  /** A `data:image` URL with a comma-free header and payload is decoded
      from that payload. */
  lemma DataUrlClassified(header: string, payload: string)
    requires StartsWith(header, DataImagePrefix)
    requires ',' !in header && ',' !in payload
    ensures ClassifyImage(header + "," + payload) == Decode(Some(payload))
  {
    var s := header + "," + payload;
    assert s[..|DataImagePrefix|] == header[..|DataImagePrefix|];
    SecondFieldOfDataUrl(header, payload, "");
  }

  /** A data URL image is decoded, never downloaded: the write carries the
      fields and then its payload as the image file. */
  lemma DataUrlImageDecoded(verb: Method, params: Object, header: string, payload: string,
                            fetched: Outcome, written: Outcome)
    requires ImageArgument(params)
    requires StartsWith(header, DataImagePrefix)
    requires ',' !in header && ',' !in payload
    requires ImageText(params) == header + "," + payload
    ensures SubmitShop(verb, params, fetched, written).download.None?
    ensures SubmitShop(verb, params, fetched, written).write.Some?
    ensures SubmitShop(verb, params, fetched, written).write.value.body
            == Multipart(FormFields(params) + [ImagePart(Base64(payload))])
  {
    DataUrlClassified(header, payload);
    var r := SubmitShop(verb, params, fetched, written);
    var parts := r.write.value.body.parts;
    var n := |FormFields(params)|;
    assert parts == parts[..n] + [parts[n]];
  }

  // ---------------------------------------------------------------------
  // Coupons.

  /** myshop_list_coupons. */
  function ListCoupons(o: Outcome): (r: Run)
    ensures Sends(r.request, GET, CouponsSegments)
    ensures r.request.query.None? && r.request.body == NoBody
    ensures ReportsPayload(r, o)
    ensures o.Fail? ==> r.envelope == Failed(ErrorText(o.thrown))
  {
    assert SlashFree(CouponsSegments);
    Exchange(Call(GET, CouponsSegments, None, NoBody), o, Payload, ErrorText)
  }

  /** myshop_create_coupon: the validated arguments are the body. */
  function CreateCoupon(params: Object, o: Outcome): (r: Run)
    ensures Sends(r.request, POST, CouponsSegments)
    ensures r.request.query.None? && r.request.body == JsonBody(params)
    ensures ReportsPayload(r, o)
    ensures o.Fail? ==> r.envelope == Failed(ErrorText(o.thrown))
  {
    assert SlashFree(CouponsSegments);
    Exchange(Call(POST, CouponsSegments, None, JsonBody(params)), o, Payload, ErrorText)
  }

  /** `/api/my_shop/coupons/<id>/`. */
  function CouponSegments(id: int): (segments: seq<string>)
    ensures SlashFree(segments)
    ensures segments == CouponsSegments + [Decimal(id)]
  {
    DecimalSlashFree(id);
    CouponsSegments + [Decimal(id)]
  }

  /** myshop_retrieve_coupon. */
  function RetrieveCoupon(id: int, o: Outcome): (r: Run)
    ensures Sends(r.request, GET, CouponSegments(id))
    ensures r.request.query.None? && r.request.body == NoBody
    ensures ReportsPayload(r, o)
    ensures o.Fail? ==> r.envelope == Failed(ErrorText(o.thrown))
  {
    Exchange(Call(GET, CouponSegments(id), None, NoBody), o, Payload, ErrorText)
  }

  /** The arguments of a coupon write name the coupon by a numeric `id`. */
  predicate HasCouponId(params: Object) {
    var id := Lookup(params, "id");
    id.Js? && id.json.JNum?
  }

  function CouponId(params: Object): int
    requires HasCouponId(params)
  {
    Lookup(params, "id").json.n
  }

  /** The write shared by the two coupon updates: the id goes into the path
      and every other argument, unchanged, into the body. */
  function WriteCoupon(verb: Method, params: Object, o: Outcome): (r: Run)
    requires HasCouponId(params)
    ensures Sends(r.request, verb, CouponSegments(CouponId(params)))
    ensures r.request.query.None? && r.request.body.JsonBody?
    ensures "id" !in Keys(r.request.body.entries)
    ensures forall e :: e in r.request.body.entries <==> e in params && e.0 != "id"
    ensures forall k :: k != "id" ==> Lookup(r.request.body.entries, k) == Lookup(params, k)
    ensures ReportsPayload(r, o)
    ensures o.Fail? ==> r.envelope == Failed(ErrorText(o.thrown))
  {
    Exchange(Call(verb, CouponSegments(CouponId(params)), None, JsonBody(Without(params, "id"))), o, Payload, ErrorText)
  }

  /** myshop_update_coupon. */
  function UpdateCoupon(params: Object, o: Outcome): (r: Run)
    requires HasCouponId(params)
    ensures Sends(r.request, PUT, CouponSegments(CouponId(params)))
    ensures r.request.query.None?
    ensures r.request.body.JsonBody? && "id" !in Keys(r.request.body.entries)
    ensures forall e :: e in r.request.body.entries <==> e in params && e.0 != "id"
    ensures ReportsPayload(r, o)
    ensures o.Fail? ==> r.envelope == Failed(ErrorText(o.thrown))
  {
    WriteCoupon(PUT, params, o)
  }

  /** myshop_partial_update_coupon. */
  function PartialUpdateCoupon(params: Object, o: Outcome): (r: Run)
    requires HasCouponId(params)
    ensures Sends(r.request, PATCH, CouponSegments(CouponId(params)))
    ensures r.request.query.None?
    ensures r.request.body.JsonBody? && "id" !in Keys(r.request.body.entries)
    ensures forall e :: e in r.request.body.entries <==> e in params && e.0 != "id"
    ensures ReportsPayload(r, o)
    ensures o.Fail? ==> r.envelope == Failed(ErrorText(o.thrown))
  {
    WriteCoupon(PATCH, params, o)
  }

  const CouponDeletedOpen := "Coupon "
  const CouponDeletedClose := " deleted successfully."

  function CouponDeletedText(id: int): string {
    CouponDeletedOpen + Decimal(id) + CouponDeletedClose
  }

  /** myshop_delete_coupon: a confirmation naming the id replaces the
      response. */
  function DeleteCoupon(id: int, o: Outcome): (r: Run)
    ensures Sends(r.request, DELETE, CouponSegments(id))
    ensures r.request.query.None? && r.request.body == NoBody
    ensures o.Ok? ==> r.envelope == Succeeded(CouponDeletedText(id))
    ensures o.Fail? ==> r.envelope == Failed(ErrorText(o.thrown))
  {
    Exchange(Call(DELETE, CouponSegments(id), None, NoBody), o, Confirmation(CouponDeletedText(id)), ErrorText)
  }

  /** The confirmation names the coupon: the id reads back from it. */
  lemma CouponDeletedTextNamesId(id: int)
    ensures var text := CouponDeletedText(id);
            && |text| > |CouponDeletedOpen| + |CouponDeletedClose|
            && ParseDecimal(text[|CouponDeletedOpen|..|text| - |CouponDeletedClose|]) == Some(id)
  {
    var text := CouponDeletedText(id);
    assert text[|CouponDeletedOpen|..|text| - |CouponDeletedClose|] == Decimal(id);
    DecimalRoundTrip(id);
  }
}
