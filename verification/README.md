# LocaBriques tool layer in Dafny

This project models the core of the LocaBriques tool server. The server is
a thin layer of tools over the LocaBriques REST API. Each tool takes
validated arguments, makes one call on a shared HTTP client, and returns a
response envelope: one text block plus an `isError` flag. The shop-profile
writes are the exception: they may download an image first.

The model treats each tool handler as a pure function. It takes the tool's
arguments and the outcome of the call, given as a parameter. It returns the
request the handler issues and the envelope it returns. The outcome is
either a response body or the value the call rejected with. On that
vocabulary the project states and proves:

- how every tool builds its request: method, path, query keys and body;
- the exact failure text of each tool family;
- the form assembly and image classification of the shop-profile writes;
- the shared client's default headers and its response interceptor;
- what happens when the interceptor and the handlers are composed.

The composition is the central result. The interceptor replaces every
failure with a fresh `Error` that carries only a message. So every handler
branch that tests `error.response` takes its no-response path when the
real client is used: the legoset 404 text, the register 400 and 500 texts,
and the inventory status label. The status is then visible only inside the
message, and the model shows it can always be read back from there.

Modules, one per file:

- `Wrappers` (`wrappers.dfy`): `Option`.
- `Strings` (`strings.dfy`): prefixes and the first index of a character.
- `Json` (`json.dfy`): JSON values, `undefined`, argument objects and
  JavaScript truthiness. It also has the three renderings the handlers use:
  `String(v)`, `JSON.stringify(v)` and `JSON.stringify(v, null, 2)`.
  Integers are rendered in decimal, and that rendering is proved to read
  back.
- `Paths` (`paths.dfy`): API paths of the shape `/s1/.../sN/`, with a parser
  proved to invert path building for slash-free segments.
- `Http` (`http.dfy`): requests, rejection values, outcomes and envelopes.
  It also holds the `try`/`catch` shared by every single-call handler, and
  the failure formats used by several families.
- `ApiClient` (`api_client.dfy`): `src/lib/api-client.ts`.
- `Validation` (`validation.dfy`): the argument patterns the tool schemas
  enforce, which appear as preconditions.
- `Legosets`, `Inventories`, `Themes`, `Users`, `Catalogs`, `Shops`,
  `MyAccount`, `MyInventories`, `MyShop`: one module per file of
  `src/modules/`.
- `Composition` (`composition.dfy`): the handlers applied to the
  interceptor's output.

## Model

| member | source | states |
|---|---|---|
| ApiClient.DefaultHeaders | src/lib/api-client.ts:7-13 | `User-Agent` and `Content-Type` always have their fixed values. `Authorization` is present if and only if the token is a non-empty string, and its value is then `Token <token>`. No other header is set. |
| ApiClient.NormalizedMessage | src/lib/api-client.ts:19-35 | Every normalized message starts with `LocaBriques API Error`. Without a response, a sent request gives the fixed no-response message. An unsent request gives the prefix followed by the original message. With a response, the text after `]: ` is the response's `message` when it is truthy, and the original message otherwise. |
| ApiClient.Intercept | src/lib/api-client.ts:17-37 | A response passes through unchanged. Every failure becomes an `Error` whose message is the normalized message and which has no response. |
| ApiClient.StatusSurvivesInMessage | src/lib/api-client.ts:20-28 | The status can be read back from the normalized message exactly when the failure had a response, and it is then that response's status. |
| ApiClient.InterceptKeepingResponse | src/lib/api-client.ts:28 | Corrected interceptor: it throws the same message, and the thrown error keeps the original response. |
| Http.Exchange | src/modules/inventories.ts:15-43 | Shared try/catch. `isError` is absent exactly when the call succeeded. A success shows the pretty-printed payload, or the fixed confirmation when there is one. A failure shows the family's text of the caught value, with `isError` true. The request issued is the one built. |
| Http.BracketedRoundTrip | src/modules/inventories.ts:38 | In `Error: [<label>] - <detail>`, a label without `]` and any detail can both be read back from the text. |
| Http.SlashedSegmentsUnreachable | src/modules/catalogs.ts:99 | A path built by interpolation never addresses a segment that contains a slash. |
| Legosets.Search | src/modules/legosets.ts:16-33 | GET on `/api/legosets/`. The query keys are exactly `page` and `search`, both present even when undefined. A failure gives `Could not search LEGO sets: <message>`. |
| Legosets.Retrieve | src/modules/legosets.ts:51-64 | GET on `/api/legosets/<id>/` with no query. Success shows the payload. Failure shows the retrieve failure text. |
| Legosets.RetrieveNotFoundExactlyOn404 | src/modules/legosets.ts:62-64 | The not-found text appears if and only if the caught value carries a 404 response. Any other failure, including one with no response, gives the fixed prefix naming the id, followed by the message. |
| Legosets.Register | src/modules/legosets.ts:88-109 | POST on `/api/legosets/register_from_brickset`, the one path without a trailing slash. The body has exactly one key, `brickset_set_id`. |
| Legosets.ImportFailedExactlyOn500 | src/modules/legosets.ts:106-107 | The fixed import-failure text appears if and only if the status is 500, whatever the message and the data. |
| Legosets.BadRequestShowsDetail | src/modules/legosets.ts:104-105 | A 400 gives the bad-request prefix, then the response's `detail` when it is truthy, else the message. |
| Inventories.List | src/modules/inventories.ts:16-22 | GET on `/api/inventories/`. The query keys are exactly `page`, `page_size` and `search`, with the arguments' values. A failure gives the bracketed text. |
| Inventories.Retrieve | src/modules/inventories.ts:55-71 | GET on `/api/inventories/<id>/`. A failure gives the bracketed text. |
| Inventories.FailureNamesStatus | src/modules/inventories.ts:32-38 | The label reads back as `Unknown` exactly when there is no response. Otherwise it reads back as the response status, and the detail reads back too. |
| Inventories.DetailShowsTruthyData | src/modules/inventories.ts:33 | The detail is the compact JSON of the response body when that body is truthy, and the error message otherwise. |
| Themes.Search | src/modules/themes.ts:16-33 | GET on `/api/themes/`. The query keys are exactly `page` and `search`. A failure gives the theme bracketed text. |
| Themes.Retrieve | src/modules/themes.ts:51-66 | GET on `/api/themes/<id>/`. A failure gives the theme bracketed text. |
| Themes.FailureNamesNonzeroStatus | src/modules/themes.ts:33 | The label is `Unknown` exactly when there is no response or the status is 0. The detail read back is always the message, so the response body never shows. |
| Users.List | src/modules/users.ts:10-45 | The searched string must have at least 3 characters. GET on `/api/users/` with query keys exactly `searched_string`, `page` and `page_size`. A failure gives `Could not fetch users: <detail>`. |
| Users.FailureShowsBodyOrMessage | src/modules/users.ts:29-42 | After the fixed prefix comes the pretty-printed response body when it is truthy, and the message otherwise. |
| Catalogs.List | src/modules/catalogs.ts:13-28 | GET on `/api/catalogs/` with no query. A failure gives `Could not fetch catalogs: <message>`. |
| Catalogs.ListSets | src/modules/catalogs.ts:62-81 | GET on `/api/catalogs/sets/`. The query is the arguments object itself. A failure gives its own fixed prefix and the message. |
| Catalogs.RetrieveSet | src/modules/catalogs.ts:99-114 | GET on `/api/catalogs/sets/<lego_id>/`. Every failure, a 404 included, gives the same prefix naming the id, followed by the message. |
| Catalogs.SlashedLegoIdMisrouted | src/modules/catalogs.ts:99 | An identifier that contains a slash is never requested as its own segment. |
| Shops.List | src/modules/shops.ts:17-36 | GET on `/api/shops/` with query keys exactly `page`, `page_size` and `open_only`. A failure gives `Could not fetch shops: <message>`. |
| Shops.Get | src/modules/shops.ts:54-69 | GET on `/api/shops/<slug>/`. A failure gives the prefix naming the slug, followed by the message. |
| Shops.GetAddressesSlug | src/modules/shops.ts:54 | Distinct slash-free slugs are requested on distinct paths. |
| MyAccount.FormatErrorAgainstMessage | src/modules/my_account.ts:6-11 | For an `Error`, the account failure text is its message, the shared `Error: <message>` text without its prefix. Any other rejection value gives its `String()`, which differs from the `undefined` the other families show for a value without a `message` property. |
| MyAccount.ListStockAlerts | src/modules/my_account.ts:20-35 | GET on `/api/my_account/backinstockalerts/`. A failure gives the formatted error, with no prefix. |
| MyAccount.DeleteStockAlert | src/modules/my_account.ts:54-69 | DELETE on the alert's path. Success gives the fixed confirmation whatever the response. |
| MyAccount.ListWishlist | src/modules/my_account.ts:83-98 | GET on `/api/my_account/wishlist/`. A failure gives the formatted error. |
| MyAccount.CreateWishlistItem | src/modules/my_account.ts:110-134 | The identifier must match the LEGO identifier pattern. POST on the wish list. The body has exactly one key, `legoset_lego_id`. |
| MyAccount.DeleteWishlistItem | src/modules/my_account.ts:153-168 | DELETE on the wish-list item's path. Success gives the fixed confirmation. |
| MyInventories.List | src/modules/my_inventories.ts:16-32 | GET on `/api/inventories/mine/`. The query holds only the arguments the caller gave. A failure gives `Error: <message>`. |
| MyInventories.PageParams | src/modules/my_inventories.ts:11-17 | The validated arguments object has a `page` or `page_size` key only when that argument was given, and never an undefined value. |
| MyInventories.Create | src/modules/my_inventories.ts:46-50 | POST on `/api/inventories/mine/`. The body has exactly one key, `set_num`. |
| MyInventories.Retrieve | src/modules/my_inventories.ts:82 | GET on `/api/inventories/mine/<id>/`. |
| MyInventories.Delete | src/modules/my_inventories.ts:115-120 | DELETE on the inventory's path. Success gives `Inventory deleted` whatever the response. |
| MyInventories.ListBags | src/modules/my_inventories.ts:147 | GET on the inventory's `bags/` path. |
| MyInventories.CreateBag | src/modules/my_inventories.ts:176-186 | POST on the bags path. The body and the query are the same object, with exactly one key, `bag_number`. The id appears only in the path. |
| MyInventories.RetrieveBag | src/modules/my_inventories.ts:219 | GET on `/api/inventories/mine/<id>/bags/<slug>/`. |
| MyInventories.DeleteBag | src/modules/my_inventories.ts:252-257 | DELETE on the bag's path. Success gives `Bag deleted`. |
| MyInventories.UpdateBagNumber | src/modules/my_inventories.ts:282-291 | PUT on the bag's path. The body and the query are the same one-key object holding the new bag number. |
| MyInventories.PartialUpdateBag | src/modules/my_inventories.ts:320-337 | PATCH on the bag's path. The body and the query are both exactly `part_num`, `color_id` and `quantity_used`, with the arguments' values. |
| MyInventories.PartParams | src/modules/my_inventories.ts:327-331 | The part line has exactly the three keys, in the order written, with the arguments' values. |
| MyInventories.Publish | src/modules/my_inventories.ts:369 | POST on the inventory's `publish/` path with no body. |
| MyInventories.InventoryPathIdentifiesId | src/modules/my_inventories.ts:82 | Distinct inventory ids are requested on distinct paths. |
| MyInventories.SlashedSlugMisrouted | src/modules/my_inventories.ts:219 | A bag slug that contains a slash never addresses that bag. |
| MyShop.Retrieve | src/modules/my_shop.ts:47-61 | GET on `/api/my_shop/`. A failure gives `Error: <message>`. |
| MyShop.FormFields | src/modules/my_shop.ts:81-85 | Every argument except `image` whose value is defined becomes a field. Object-typed values, `null` included, are sent as their JSON text, so a null becomes `"null"`. Every field comes from such an argument. No field is named `image`. |
| MyShop.FieldsSound | src/modules/my_shop.ts:81-85 | The form loop produces at most one field per argument. Every kept argument gives its field, and every field comes from a kept argument with a defined value. |
| MyShop.FormFieldsAppend | src/modules/my_shop.ts:81-85 | The fields follow the argument order: the fields of two runs of arguments are the fields of the first run followed by those of the second. |
| MyShop.FormFieldsSingle | src/modules/my_shop.ts:82-83 | One argument gives exactly one field when it is kept, and none otherwise. |
| MyShop.SecondFieldOfDataUrl | src/modules/my_shop.ts:92 | `split(',')[1]` of a data URL is its payload, the text between the first comma and the next one. |
| MyShop.ClassifyImage | src/modules/my_shop.ts:87-96 | An empty or absent image adds nothing. An `http` prefix is downloaded from that exact URL. A `data:image` prefix is decoded from the second comma-separated field and is never downloaded. Any other value adds nothing. |
| MyShop.ShopWrite | src/modules/my_shop.ts:88-101 | The write goes to `/api/my_shop/` with the given method and no query. Its form holds the fields in order, then the image part when there is one. |
| MyShop.SubmitShop | src/modules/my_shop.ts:79-118 | The download happens exactly for an `http` image. The write is issued unless the download failed or a data URL had no comma. The written form is the fields, then possibly one `image` part named `image.jpg`. A failed download gives `Error: <message>`. |
| MyShop.Update | src/modules/my_shop.ts:98 | The shop form is PUT on `/api/my_shop/`. A failed image download means no write and an `Error:` text. A data URL is never downloaded. |
| MyShop.PartialUpdate | src/modules/my_shop.ts:151 | Same as the update, with PATCH. |
| MyShop.DataUrlImageDecoded | src/modules/my_shop.ts:91-94 | An image of the form `data:image<header>,<payload>` is not downloaded, for any header and payload without commas (PNG, JPEG or any other type). The write carries the fields followed by the payload as the image file. |
| MyShop.RespondIsExchange | src/modules/my_shop.ts:101-118 | The shop-profile write answers exactly as the shared single-call exchange with the `Error: <message>` failure text: the pretty payload and no `isError` key on success, `Error: <message>` with `isError` set on failure. |
| MyShop.ListCoupons | src/modules/my_shop.ts:215 | GET on `/api/my_shop/coupons/`. |
| MyShop.CreateCoupon | src/modules/my_shop.ts:247 | POST on the coupons path. The body is the arguments object. |
| MyShop.RetrieveCoupon | src/modules/my_shop.ts:279 | GET on `/api/my_shop/coupons/<id>/`. |
| MyShop.WriteCoupon | src/modules/my_shop.ts:311-313 | The id goes only into the path. The body holds every other argument unchanged and no `id` key. |
| MyShop.UpdateCoupon | src/modules/my_shop.ts:311-331 | PUT on the coupon's path with no query. The body is the arguments minus `id`. A success shows the pretty-printed payload, a failure `Error: <message>`. |
| MyShop.PartialUpdateCoupon | src/modules/my_shop.ts:345-365 | PATCH on the coupon's path with no query. The body is the arguments minus `id`. A success shows the pretty-printed payload, a failure `Error: <message>`. |
| MyShop.DeleteCoupon | src/modules/my_shop.ts:379-393 | DELETE on the coupon's path. Success gives the confirmation naming the id, whatever the response. |
| MyShop.CouponDeletedTextNamesId | src/modules/my_shop.ts:384 | The id can be read back from the delete confirmation. |
| Composition.RetrieveNeverNotFound | src/modules/legosets.ts:62-64 | With the real interceptor, legoset_retrieve never gives the not-found text, even for a 404. It quotes the normalized message, from which the status can be read back. |
| Composition.RegisterAlwaysGeneric | src/modules/legosets.ts:101-109 | With the real interceptor, legoset_register always gives the generic prefix and the normalized message, and never the import-failure text. |
| Composition.BracketedToolsShowUnknown | src/modules/inventories.ts:32-33 | With the real interceptor, the inventory and theme tools always show `Unknown` and the normalized message. |
| Composition.MessageOnlyTools | src/modules/users.ts:29-31 | With the real interceptor, user_list never shows a response body, and the account tools show the bare message. |
| Composition.ThemesAgreeWithInventories | src/modules/themes.ts:33 | The theme and inventory failure texts coincide when there is no response, or when the status is nonzero and the body is falsy. |
| Composition.ZeroStatusLabels | src/modules/themes.ts:33 | A zero status is labelled `0` by the inventory tools and `Unknown` by the theme tools. |
| Composition.KeptResponseReachesNotFound | src/modules/legosets.ts:62-63 | With the corrected interceptor, a 404 gives the not-found text. |
| Composition.KeptResponseReachesRegisterTexts | src/modules/legosets.ts:104-107 | With the corrected interceptor, a 500 gives the import-failure text and a 400 the bad-request text. |

## Left out

- The client's base origin `https://locabriques.fr` is not modelled.
  Request paths are relative to it.
- URL normalisation is not modelled. A segment without a slash is treated
  as its own path segment, although the URL builder also resolves `.` and
  `..` segments and ends the path at `?` or `#`.
- The HTTP transport, the MCP server registration, the stdio transport and
  process start-up are not modelled. Each call's outcome is a parameter.
- The environment variable is not read. The token is a parameter of
  `ApiClient.DefaultHeaders`.
- The `console.error` call of user_list is a side effect, not modelled.
- The schema constraints these tools declare are kept as preconditions:
  the LEGO identifier pattern, the reference pattern, the bag number
  length, the searched-string length, the string type of `image` and the
  integer coupon id. Only the image type and the coupon id are needed by
  the handler bodies. Enum values, maximum lengths and numeric ranges of
  the shop and coupon arguments are not checked.
- The shop-profile tools wrap their schema under one extra key. The
  handlers are modelled on flat arguments, because the SDK's handling of
  that wrapper is not part of this model.
- The multipart encoding, its boundary headers, the download stream and
  base64 decoding are not modelled. The image part records the URL
  downloaded or the base64 text to decode.
- The image download goes through plain axios, not the shared client. Its
  outcome is a separate parameter, and its failure is used as-is.
- MyShop.BufferTypeErrorMessage: the text is the wording of current Node
  versions, which the runtime, not this code, decides.
- Json.Decimal: numbers are integers. Fractions and the exponent notation
  `JSON.stringify` uses from 1e21 upwards are not modelled.
- Json.Compact: lone surrogates are not escaped, since strings here are
  sequences of Unicode scalar values.
- The JSON renderings are not proved to parse back to the value.
- Argument objects are assumed not to repeat a key, as parsed objects never
  do. Lookups take the first entry.
- String lengths in the preconditions count characters, not UTF-16 code
  units.
- `registerAllModules` and the test-only shop set tools have no handlers
  to model.

## Findings

| source | as written | input that shows it | evidently intended | confidence | as-written member | corrected member |
|---|---|---|---|---|---|---|
| src/lib/api-client.ts:28 | The interceptor throws a new `Error` without the response. So the `error.response` branches at src/modules/legosets.ts:62 and 104-107 and src/modules/inventories.ts:32-33 can never fire through the real client. | A 404 response to GET `/api/legosets/999/`. The tool answers `Could not retrieve LEGO set '999': LocaBriques API Error [404]: ...` instead of the not-found text. | The handlers see the response status, as the handler tests assume: a 404 gives `LEGO set with id '999' not found`. | medium; not executed | Composition.RetrieveNeverNotFound | ApiClient.InterceptKeepingResponse (proved in Composition.KeptResponseReachesNotFound) |
