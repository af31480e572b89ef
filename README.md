# MsConnection, modelled in Dafny

MsConnection is a small Python client for the REST API of a web-shop platform. The API speaks JSON:API. This project models the parts of the client that do not need the network:

- **The document builder** (`Builder.py`). A `Builder` holds one mutable resource document: its type, an optional id, insertion-ordered attributes and an optional relationships container. Its methods upsert attributes and relationships, and check the mandatory names before building. `CustomerBuilder.validate_customer` first back-fills eleven attributes, then converts every value to a string.
- **The `make_*` constructors** (`functions.py`). Each drives one builder through a fixed sequence of calls. `make_order` builds its document by hand.
- **The pure helpers** (`utils.py`): filter query strings, localised attributes, `None`-filtering attribute assembly, document shaping, the category-tree sets and the MIME allow-list.
- **The request layer and the two pagination walkers** (`session.py`, `MsConnection.py`): header set-up, the URL choice, the data guard, the classification of outcomes and the relationship payloads.

## How the model is organised

One module per Python file: `Builder`, `Functions`, `Utils`, `Session` and `MsConnection`. Three support modules sit beside them:

- `Wrappers`: `Option` and `Result`.
- `Json`: the `Value` datatype for any JSON value, with an explicit `Null` for Python's `None`. It also has `str()` of a value and `int()` of an int, a bool, or a str holding an optional sign and ASCII digits.
- `Dicts`: a Python dict as an insertion-ordered sequence of (key, value) pairs.
  - `Put` is an upsert that keeps an existing key's position.
  - `PutAll` applies a whole dict, and `Without` drops the listed keys.
  - `IsDict` says the keys are unique.

How each kind of source code is modelled:

- **Mutable objects.** A `Builder`, a `BatchBuilder`, a `TokenSession` and a `Requestor` are Dafny classes. Their methods state the whole new state.
- **Loops.** The source's loops are `while` loops with invariants: the mandatory-name check, the customer back-fill, the string pass, `build_attributes`, the category walks, `get_paginated` and `_get_paginated_data`. Each loop is proved against a specification function.
- **Exceptions.** Python exceptions are `Failure` values: `BuildError` in the builder and `Fault` in the request layer.
- **`locals()`.** A maker that captures `locals()` takes its arguments as the dict `locals()` would hold. That dict has every parameter name, in declaration order.
- **Network traffic.** The transport is a function parameter `send: HttpRequest -> Outcome`.
- **Walkers.** A walker reads its pages through an oracle `pages: string -> PageStep`. The loop is bounded by a ghost `fuel` that only the proofs see.

## Model

| member | source | states |
|---|---|---|
| Builder.FirstMissing | Builder.py:66-74 | No name is reported exactly when every mandatory name is a key. A reported name is mandatory and absent. |
| Builder.FirstMissingIsFirst | Builder.py:67-74 | The reported name is the first absent one: every name before it is a key. |
| Builder.MandatoryFailure | Builder.py:66-74 | The mandatory check passes iff every mandatory attribute is a key and every mandatory relationship is a key of an existing container. A missing attribute is reported before any relationship fault. A missing container is a KeyError, reported only when relationships are declared. A key holding `None` passes. |
| Builder.FindMissing | Builder.py:67-74 | The loop of either half of the mandatory check returns the first absent name, as `FirstMissing` specifies. |
| Builder.Builder.constructor | Builder.py:12-25 | A fresh builder has its type and mandatory lists, no id, no attributes and no relationships container. |
| Builder.Builder.FromSpec | Builder.py:89-254 | A subclass builder starts the same way, with the type and mandatory names of its table. |
| Builder.Builder.SetId | Builder.py:27-29 | `None` leaves the id as it was. Any other value becomes the id. Attributes and relationships are untouched. |
| Builder.Builder.SetAttribute | Builder.py:31-32 | An upsert, `None` included; id and relationships are untouched. |
| Builder.Builder.SetAllAttributes | Builder.py:34-38 | The attributes become the old ones updated with every entry whose key is not skipped, `None` values included. Id and relationships are untouched. |
| Builder.Builder.ValidateRelationships | Builder.py:61-64 | The container is created empty only when missing; an existing one is kept as is. |
| Builder.Builder.SetRelationship | Builder.py:40-47 | One `{type, id}` link is upserted under the name; other relationships and attributes stay. |
| Builder.Builder.SetRelationshipFromList | Builder.py:49-59 | One `{type, id}` per input id, in input order and without deduplication, upserted under the name. Other relationships stay. |
| Builder.Builder.ValidateMandatoryFields | Builder.py:66-74 | Returns exactly the failure `MandatoryFailure` describes. |
| Builder.Builder.CheckMandatoryAttributes | Builder.py:67-70 | The first loop reports the first mandatory attribute that is not a key. |
| Builder.Builder.CheckMandatoryRelationships | Builder.py:72-74 | The second loop reports a missing container as a KeyError, else the first absent relationship name. |
| Builder.Builder.Build | Builder.py:76-78 | Succeeds iff the mandatory check passes. On success the result is the current document; otherwise it is that check's error. |
| Builder.Builder.ValidateCustomer | Builder.py:113-135 | Back-fills first. If that raises, the partially filled attributes stay. Otherwise every value is then converted to a string. |
| Builder.Builder.BackFillAttributes | Builder.py:129-131 | The back-fill loop computes exactly `BackFill` over the table: its attributes and its first KeyError. |
| Builder.Builder.StringifyAttributes | Builder.py:133-135 | The string pass converts every value that is neither a str nor `None`, in place. |
| Builder.BatchBuilder.constructor | Builder.py:82-83 | A new batch is empty. |
| Builder.BatchBuilder.Build | Builder.py:85-86 | The batch is serialised as one JSON array of its documents, in order. |
| Builder.ReplacementsWellFormed | Builder.py:115-127 | The customer table has eleven pairs, no target twice and no target used as a source. |
| Builder.ReplacementTargetsDistinct | Builder.py:115-127 | No target appears twice in the customer table. |
| Builder.ReplacementSourcesNotTargets | Builder.py:115-127 | No source of the customer table is also a target. |
| Builder.BackFillKeys | Builder.py:129-131 | The back-fill never adds or removes a key and keeps the order. |
| Builder.BackFillSucceeds | Builder.py:129-131 | No KeyError is raised when every target and source is an attribute. |
| Builder.BackFillGet | Builder.py:129-131 | A target holding `None` receives its source's value. A target holding anything else keeps it, and every other key keeps its value. |
| Builder.SourceForAbsent | Builder.py:115-127 | A key that is no target has no source. |
| Builder.SourceForIsSource | Builder.py:115-127 | The source found for a key is the pair of the table that names it. |
| Builder.StringifyAllGet | Builder.py:133-135 | The string pass keeps the keys. Each value becomes its string form unless it is a str or `None`, so afterwards every value is a str or `None`. |
| Builder.SetAllStep | Builder.py:36-38 | One entry of `set_all_attributes`: a skipped key changes nothing, any other is upserted. |
| Builder.FirstMissingStep | Builder.py:67-74 | One step of the check: a present name moves on; an absent one is reported. |
| Builder.PutAt | Builder.py:31-32 | Assigning to an existing key rewrites that entry in place. |
| Functions.OptLink | functions.py:52-56 | An optional link exists iff its id is not `None`, and then it is the one `{type, id}` named. |
| Functions.Link | functions.py:164-166 | `set_relationship` on a fresh name appends that one link, leaving everything else. |
| Functions.LinkList | functions.py:49 | `set_relationship_from_list` on a fresh name appends the ordered list of links. |
| Functions.LinkIfGiven | functions.py:52-56 | A guarded `set_relationship` appends the link iff the id is not `None`. |
| Functions.SetAll | functions.py:44-48 | `set_all_attributes(locals(), skip)` on a fresh builder leaves exactly the arguments less the skipped names, in order. |
| Functions.SetEntries | functions.py:157-162 | `set_all_attributes` of a dict literal on a fresh builder leaves exactly that literal. |
| Functions.ProductMandatoryNotSkipped | functions.py:45 | The skip list of `make_product` holds no mandatory attribute. |
| Functions.ProductLocals | functions.py:6-44 | The parameters of `make_product` include its mandatory attributes. |
| Functions.MakeProduct | functions.py:6-58 | Always builds. The attributes are every argument but the four ids, `None` ones included. `categories` lists the category ids in order. `tax-class` and `manufacturer` exist iff their ids are given. The id is present iff the product id is not `None`. |
| Functions.LinkTaxClassAndManufacturer | functions.py:52-56 | The two optional links go after `categories`, each iff its id is given. |
| Functions.ProductComplete | functions.py:58 | A product with its mandatory attributes and `categories` linked passes `build`'s check. |
| Functions.CategoryMandatoryNotSkipped | functions.py:81 | The skip list of `make_category` holds no mandatory attribute. |
| Functions.CategoryLocals | functions.py:65-80 | The parameters of `make_category` include its mandatory attributes. |
| Functions.MakeCategory | functions.py:65-90 | Always builds. The attributes are every argument but the id and the parent. The `parent` link, and the container with it, exist iff a parent is given. The id is present iff given. |
| Functions.CategoryComplete | functions.py:90 | Any category made this way passes `build`'s check. |
| Functions.CustomerParamsCover | functions.py:93-135 | Every back-fill target and source, every mandatory name and `customer_id` are parameters of `make_customer`. |
| Functions.CustomerLocals | functions.py:136-143 | For the arguments of `make_customer`, the back-fill raises nothing and the mandatory names remain keys. |
| Functions.MakeCustomer | functions.py:93-143 | Always builds a customer. The attributes are all arguments, `customer_id` included, back-filled and converted to strings. The top-level id is the original value. |
| Functions.CustomerAttributesGet | functions.py:136-143 | Each attribute is its back-filled argument, as a string unless it is a str or `None`. |
| Functions.CustomerIdNotTarget | functions.py:139 | `customer_id` is not back-filled. |
| Functions.CustomerIdAttribute | functions.py:139-141 | `customer_id` is also an attribute, in its string form. |
| Functions.BillingAddressSource | functions.py:139 | The back-fill fills `billing_address_address` from `address_address`. |
| Functions.BillingAddressParams | functions.py:93-135 | Both address fields are parameters of `make_customer`. |
| Functions.CustomerBillingAddress | functions.py:136-143 | A billing address passed as `None` comes out as the string of the main address. |
| Functions.MakeProductAttribute | functions.py:146-169 | Always builds. The four attributes have the price prefix fixed to `"+"`. The three links are in call order. The id is present iff given. |
| Functions.ProductAttributeComplete | functions.py:169 | Those attributes and links pass `build`'s check. |
| Functions.MakeProductVariant | functions.py:172-194 | Always builds. The four attributes are followed by a `product` link and the ordered `product-attributes` list. The id is present iff given. |
| Functions.ProductVariantComplete | functions.py:194 | Those links pass `build`'s check. |
| Functions.ProductSpecialMandatoryNotSkipped | functions.py:208 | The skip list of `make_product_special` holds no mandatory attribute. |
| Functions.ProductSpecialLocals | functions.py:197-207 | The parameters of `make_product_special` include its mandatory attributes. |
| Functions.MakeProductSpecial | functions.py:197-215 | Always builds. The attributes are every argument but the two ids. The special links to its product. |
| Functions.ProductSpecialComplete | functions.py:215 | Such a special passes `build`'s check. |
| Functions.ProductReviewMandatoryNotSkipped | functions.py:229 | The skip list of `make_product_review` holds no mandatory attribute. |
| Functions.ProductReviewLocals | functions.py:218-228 | The parameters of `make_product_review` include its mandatory attributes. |
| Functions.MakeProductReview | functions.py:218-237 | Always builds. The attributes are every argument but the three ids. The review links to its product and then its customer. |
| Functions.ProductReviewComplete | functions.py:237 | Such a review passes `build`'s check. |
| Functions.Split | utils.py:136 | `str.split` always yields at least one piece. |
| Functions.SplitPlain | utils.py:136 | A prefix without the separator joins the first piece. |
| Functions.SplitJoin | functions.py:465-467 | Splitting a join on its separator gives the parts back, when no part contains it. |
| Functions.Strs | functions.py:465-467 | The texts of a list of strs, one per item, in order. |
| Functions.JoinIds | functions.py:465-467 | An id list joins into a str iff it is `None` (giving `""`) or all its items are strs. Otherwise it is the TypeError of that argument. |
| Functions.JoinIdsRoundTrip | functions.py:465-467 | The joined ids split on commas give the ids back, when none contains a comma. |
| Functions.DiscountLocals | functions.py:412-472 | The parameters of `make_discount` include its mandatory attributes and the four names it rebinds. |
| Functions.DiscountMandatoryNotSkipped | functions.py:475 | The skip list of `make_discount` holds no mandatory attribute. |
| Functions.ReboundKeys | functions.py:465-472 | Rebinding the four names keeps the keys of `locals()` and their order. |
| Functions.ReboundLookup | functions.py:465-472 | After rebinding, the three id lists hold their new values. A `None` remaining value holds the value. Everything else is unchanged. |
| Functions.ReboundGet | functions.py:465-475 | Each attribute of the discount is what `DiscountAttribute` describes. |
| Functions.DiscountComplete | functions.py:478 | A discount with its mandatory attributes passes `build`'s check. |
| Functions.MakeDiscount | functions.py:412-478 | The first id list that is not all strs raises that argument's TypeError, checked in order. Otherwise it builds a discount without relationships. |
| Functions.MakeAttributeCustomerGroupPrice | functions.py:364-387 | Always builds. The price prefix is fixed to `"+"`. Four links come in call order, then `tax-class` iff given. The id is present iff given. |
| Functions.SetPrice | functions.py:375-376 | The price, then the `"+"` prefix, on a fresh builder. |
| Functions.LinkAttributeCustomerGroupPrice | functions.py:377-383 | The four fixed links, then `tax-class` iff its id is given. |
| Functions.AttributeCustomerGroupPriceComplete | functions.py:387 | Those attributes and links pass `build`'s check. |
| Functions.TaxClassMandatoryNotSkipped | functions.py:491 | The skip list of `make_tax_class` holds no mandatory attribute. |
| Functions.TaxClassLocals | functions.py:481-489 | The parameters of `make_tax_class` include its mandatory attributes. |
| Functions.TaxClassComplete | functions.py:494 | A tax class with its mandatory attributes passes `build`'s check. |
| Functions.MakeTaxClass | functions.py:481-494 | Always builds. The attributes are every argument but the id. |
| Functions.RedirectMandatoryNotSkipped | functions.py:509 | The skip list of `make_redirect` holds no mandatory attribute. |
| Functions.RedirectLocals | functions.py:497-507 | The parameters of `make_redirect` include its mandatory attributes. |
| Functions.RedirectComplete | functions.py:512 | A redirect with its mandatory attributes passes `build`'s check. |
| Functions.MakeRedirect | functions.py:497-512 | Always builds. The attributes are every argument but the id. |
| Functions.Entries | functions.py:567-616 | The attribute literal binds each name to the value at its position. |
| Functions.Lookup | functions.py:637-670 | `customer["attributes"][key]` succeeds iff the key is present. Otherwise it is that key's KeyError. |
| Functions.CustomerAddressName | functions.py:637-638 | The name is the customer's address name, or its name when that is `None`. The address name is looked up first. |
| Functions.CopyFromSucceeds | functions.py:639-670 | A run of copies succeeds iff every source is present. |
| Functions.CopyFromLast | functions.py:639-670 | A run succeeds iff its prefix does and the last source is present. |
| Functions.SourcesSplit | functions.py:639-670 | All sources are present iff those of the prefix and the last one are. |
| Functions.CopyFromFirstMissing | functions.py:639-670 | A failed run raises the KeyError of the first absent source. |
| Functions.CopyFromPrefixFails | functions.py:639-670 | Once a prefix fails, the whole run fails the same way. |
| Functions.CopyFromKeys | functions.py:639-670 | Copying into existing keys keeps the keys and their order. |
| Functions.CopyFromGet | functions.py:639-670 | Each target holds its source's value; every other key keeps its own. |
| Functions.CopyFields | functions.py:639-670 | The assignment run computes exactly `CopyFrom`. |
| Functions.CopyFromStep | functions.py:639-670 | One more assignment: the run so far, then the lookup of its source. |
| Functions.MakeOrder | functions.py:515-675 | Without fetching, the attributes are every argument, `None` included. With fetching, the order succeeds iff the customer block does, and then carries its attributes, or fails with its KeyError. Both links are typed `"customers"`. The id is present iff given. |
| Functions.CustomerDataGet | functions.py:634-670 | The last assignment to a key wins: billing and company number, shipping only when no shipping name was given, then the customer address. Keys never assigned keep their value. |
| Functions.CopyTableKeys | functions.py:639-670 | The targets of the three copy runs, in source order. |
| Functions.CopyTablesAreDicts | functions.py:639-670 | No copy run assigns a target twice. |
| Functions.NamesNotCopied | functions.py:637-670 | The two name fields are assigned only by the address-name expression. |
| Functions.CustomerDataSucceeds | functions.py:634-670 | The block succeeds iff every customer field it reads is present. Otherwise it raises the KeyError of an absent one. |
| Functions.OrderTargetsPresent | functions.py:567-670 | Every key the block assigns is a key of the attribute literal. |
| Functions.OrderAttributesKeys | functions.py:567-670 | The order keeps exactly the literal's keys, in order, whether or not data was fetched. |
| Functions.FetchedAddressNames | functions.py:637-651 | The customer address name is the customer's address name, or its name when that is `None`. The shipping name gets the same value only when none was given. |
| Utils.FormatFilter | utils.py:12-13 | The query string's length is fixed by its three parts. |
| Utils.FormatFilterFixed | utils.py:12-13 | The four fixed pieces sit at the offsets the attribute determines. |
| Utils.FormatFilterFields | utils.py:12-13 | The attribute appears three times, then the operand, then the value, each at its place. |
| Utils.FormatFilterInjective | utils.py:12-13 | Attribute, operand and value can be read back from the string. |
| Utils.PathLayout | utils.py:13 | The layout of the `path` half of the filter. |
| Utils.ValueLayout | utils.py:13 | The layout of the `value` half of the filter. |
| Utils.ValidateObject | utils.py:20-23 | Any str is valid. A tuple or list is valid iff no item is `None`. |
| Utils.GetLocalizedAttribute | utils.py:35-42 | `None` stays `None` and a dict is returned unchanged. Any other value becomes `{default_language: value}`. |
| Utils.LocalizedIdempotent | utils.py:35-42 | Localising twice is localising once. |
| Utils.NonNull | utils.py:48-50 | The entries kept come from the input. |
| Utils.NonNullGet | utils.py:48-50 | Dropping `None` entries keeps a dict a dict and every other lookup. |
| Utils.Localize | utils.py:53-54 | Every value of the localised mapping is localised, and the keys are kept. |
| Utils.LocalizeGet | utils.py:53-54 | A lookup in the localised mapping is the localised lookup. |
| Utils.BuildAttributes | utils.py:45-58 | The two loops compute exactly `BuiltAttributes`. |
| Utils.BuiltAttributesGet | utils.py:45-58 | Under each key: the localised value if it is present and not `None`, else the simple value if not `None`, else nothing. A `localized` that is not a dict is ignored. |
| Utils.ConvertObjectToJson | utils.py:61-74 | The shaped document is `{"data": ...}`, built in insertion order. |
| Utils.DataFieldsKeys | utils.py:61-74 | The data keys are `type`, then `id` iff an id is given, then `attributes`, then `relationships` iff given. |
| Utils.DataFieldsFacts | utils.py:61-74 | The type is the type given. The id, when present, is `str(object_id)`. Attributes are always present. Relationships are present iff not `None`. |
| Utils.AllCategoriesWithoutChildren | utils.py:79-93 | Exactly the ids of input categories that are no category's parent id. |
| Utils.AllCategoriesWithoutParents | utils.py:96-105 | Exactly the ids of input categories whose parent is `None`. |
| Utils.Movables | utils.py:109 | Exactly the root ids other than `str(main_cat)`. |
| Utils.SplitLastPiece | utils.py:136 | The last piece of a split is what follows the last separator. |
| Utils.GetMime | utils.py:128-136 | A file has a MIME type iff the text after its last dot is `jpg`, `jpeg`, `png`, `gif` or `webp`. The type is `image/` followed by that extension, with `jpg` written `jpeg`. |
| Utils.GetMimeOf | utils.py:128-136 | `name.ext` has a MIME type iff `ext` is one of the five lower-case extensions, and then it is that extension's type. |
| Utils.MimesGet | utils.py:129-135 | The allow-list maps `jpg` and `jpeg` to `image/jpeg`, and `png`, `gif` and `webp` to their image types. Every other extension is absent. |
| Utils.GetMimeUpperCase | utils.py:136 | An upper-case extension fails the lookup. |
| Session.TokenHeadersGet | session.py:63-69 | A token session sets exactly the agent, the vnd content type, the vnd accept and the bearer token, and keeps every other default. |
| Session.TokenSession.constructor | session.py:63-69 | The session's headers are the token headers. |
| Session.AfterAccept | session.py:13-14 | A plain-JSON request overwrites `Accept` with `application/json`. A vnd request leaves it. No other header changes. |
| Session.AcceptSticky | session.py:13-14 | Once a plain-JSON request is made, `Accept` stays `application/json` for every later request. |
| Session.ResolveTarget | session.py:16 | An empty path raises IndexError. A path starting with `h` is used verbatim, and any other is joined onto the base URL. |
| Session.Classify | session.py:18-31 | A transport exception becomes ApiError. A response that is not ok (status 400-599, where `raise_for_status` would raise) becomes a ResponseError. Otherwise the response is returned. |
| Session.Issued | session.py:11-24 | The request sent has the verb, the data, the headers after the `Accept` change, and the target `ResolveTarget` chooses. It is refused only for an empty path. |
| Session.ReadPage | session.py:50-58 | A page is read as data then `links.next`. No `data` key means no data. A list `data` with a str `links.next` is a further page. A list `data` with a dict `links` and no str `next` is the last page. A missing `links` is a KeyError. A non-dict body or non-list `data` is a TypeError. |
| Session.PrependNil | session.py:52-53 | Prepending nothing changes nothing. |
| Session.PrependTwice | session.py:52-53 | Prepending two pages is prepending their concatenation. |
| Session.WalkAdvance | session.py:49-58 | One page of the walk: its items, then the walk from its `next` link. |
| Session.WalkFollowsLinks | session.py:46-58 | A finished walk starts at the endpoint and follows each page's `next`. A successful walk returns the concatenated data in fetch order. A page without data ends it with an error, not a partial list. |
| Session.Requestor.constructor | session.py:7-9 | The base URL is the store's API root. |
| Session.Requestor.Request | session.py:11-31 | The shared headers get the `Accept` change, and the result is the classified outcome of the issued request. |
| Session.Requestor.Get | session.py:33-34 | A GET with no data. |
| Session.Requestor.Post | session.py:36-37 | A POST with its data. |
| Session.Requestor.Patch | session.py:39-40 | A PATCH with its data. |
| Session.Requestor.Delete | session.py:42-43 | A DELETE with no data. |
| Session.Requestor.GetPaginated | session.py:45-60 | The loop returns exactly the walk from the endpoint over the pages the session reads. |
| Session.Paginate | session.py:46-60 | The cursor loop computes exactly `Walk`. |
| Session.Extend | session.py:52-53 | Appending a page's data keeps the earlier items first. |
| MsConnection.ConnectHeaders | MsConnection.py:42-47 | Four headers: vnd content type; `Accept` vnd iff `vnd`; the agent; `Bearer <token>`. |
| MsConnection.ConnectHeadersAgree | MsConnection.py:42-47 | On those four headers, the client sends what a token session would send. |
| MsConnection.ConnectToPath | MsConnection.py:34-64 | A POST or PATCH without data returns `0` and sends nothing. An unknown method sends nothing. Otherwise the path is sent verbatim with the headers, as a GET, POST, PATCH or DELETE for `get`, `post`, `patch` or `delete`, and with data only for POST and PATCH. |
| MsConnection.WalkersAgree | MsConnection.py:77-96 | Both walkers fetch the same pages and agree, except that a page with no data ends this one with the items so far, not an error. |
| MsConnection.MsWalkAdvance | MsConnection.py:81-94 | One page of this walk: its items, then the walk from `next`, or a stop on missing data. |
| MsConnection.GetPaginatedData | MsConnection.py:77-96 | The loop returns exactly the walk from `api_path/endpoint`. |
| MsConnection.MsPaginate | MsConnection.py:78-96 | The cursor loop computes exactly `MsWalk`. |
| MsConnection.RelationshipPayload | MsConnection.py:138 | `{"data": [...]}` with one entry per id, in input order. Each entry has exactly the keys `id` then `type`. |
| MsConnection.Serialize | MsConnection.py:141 | The repr of the payload, character for character, except that every single quote becomes a double quote. |
| MsConnection.UpdateProductsRelationshipsCategories | MsConnection.py:137-142 | A PATCH of the product's category links, with the serialised payload; the result is the status code. |
| MsConnection.UpdateCategoriesRelationshipsProducts | MsConnection.py:168-173 | As written, a PATCH of the products payload to the category-links URL of the product with that id. |
| MsConnection.CategoryUpdateMisdirected | MsConnection.py:168-173 | As written, the category update sends the product update's request for that id. That URL is never the one the category's links are read from. |
| MsConnection.UpdateCategoryProducts | MsConnection.py:164-173 | The intended update: a PATCH of the products payload to the URL the category's product links are read from. |
| MsConnection.LinkPathsDistinct | MsConnection.py:134-171 | A category's product-links URL and a product's category-links URL never coincide. |
| MsConnection.CategoryUpdateSeparate | MsConnection.py:164-173 | The intended category update never targets a product's links. |
| MsConnection.IdsOf | MsConnection.py:135 | One id per item. |
| MsConnection.IdsOfSucceeds | MsConnection.py:135 | The ids are read iff every item is a dict whose `id` `int()` accepts. |
| MsConnection.IdsOfValues | MsConnection.py:135 | Each id is `int()` of its item's `id`, in response order. |
| MsConnection.PayloadIdsRoundTrip | MsConnection.py:135-138 | Reading the ids out of an update payload gives back the ids put in, as ints or as decimal strings. |
| MsConnection.IdsFromBody | MsConnection.py:135 | `tuple(int(item['id']) for item in response['data'])`. A non-dict body is a TypeError and a missing `data` a KeyError. A list is read item by item. An empty dict or str iterates to no ids. Any other `data` is a TypeError. |
| MsConnection.ProductsRelationshipsCategories | MsConnection.py:133-135 | A GET of the product's category links with the vnd headers. A transport exception or an undecodable body is an error. Otherwise the result is the ids read from the body's `data`, as `IdsFromBody` reads them. |
| MsConnection.CategoriesRelationshipsProducts | MsConnection.py:164-166 | The same for a category's product links, read from `categories/<id>/relationships/products`. |
| MsConnection.ProductCategoriesReadBack | MsConnection.py:133-138 | A product whose category links answer with an update's payload reads back the ids sent, whatever the status. |
| MsConnection.CategoryProductsReadBack | MsConnection.py:164-169 | The same for a category's product links. |

## Left out

- HTTP traffic. The `requests` calls, `session.request`, `.json()` and `raise_for_status` are not modelled; the transport is a parameter `send` and the walkers read pages through an oracle. A body `.json()` cannot decode is a `DecodeError`.
- `urljoin` is a library call. A joined URL stays symbolic, as `Joined(base, path)`.
- `json.dumps` formatting. `convert_object_to_json_str` returns the document as a JSON value rather than its text. `BatchBuilder.build` returns the array.
- Builder.Builder.Build: returns a `Document` record, not the text `json.dumps` prints. The record keeps the attribute and relationship order, but not where `id` sits among the document's keys. That position depends on call order: after `relationships` in `make_product` (functions.py:49-50), before it in `make_category` (functions.py:85-88).
- `str()` is `Json.ToString`. It prints `None`, `True`/`False`, ints, and containers through their repr. A float is opaque: it carries its text, so float formatting is not modelled. `repr` is a fixed rendering, `Json.Repr`, that quotes strs with single quotes and does not escape them.
- `convert_if_datetime` (utils.py:26-32) depends on `datetime` and `strftime`.
- `not_none` (utils.py:16-17) is only the test `v != Null` in `Utils.NotNone`; it has no row of its own.
- The update loop of `move_all_main_categories_into_common_category` (utils.py:111-125) is network I/O. Only its `movables` filter is modelled, as a set, so the order of iteration is not.
- `MsConnection.__init__`, `_test_connection` and `_settings` (MsConnection.py:21-75) make network calls and print. The client is a value that already holds the default language.
- The other endpoint wrappers of MsConnection.py, apart from the relationship reads and updates, are thin calls to `_connect_to_path` and `_get_paginated_data`. `BaseClient`, `Client`, `Products`, `Orders` and `Customers` (MsConnection.py:5-17, 218-269) are wiring that calls methods the base class does not define.
- The `exceptions` module is not part of this model. Its exceptions are the `Fault` constructors. The builder's ValueErrors are `MissingAttribute` and `MissingRelationship`.
- The `print` calls of `_connect_to_path` and `_get_paginated_data` have no effect on results and are not modelled.
- The empty or non-core `make_*` functions (functions.py:61-62, 240-361, 390-409, 678-746) are not modelled. The subclasses they use are still part of the mandatory tables.
- `setup.py` and `__init__.py` are packaging.
- Session.Requestor.GetPaginated, Session.Paginate, MsConnection.GetPaginatedData, MsConnection.MsPaginate: the source loop has no termination guarantee. These methods require a ghost `fuel` under which the walk finishes, so a listing whose `next` links cycle forever is not modelled.
- Functions.MakeOrder: the customer record (`customer["attributes"]`) is a parameter instead of the result of `client.customers.get`. The straight-line assignments run from three tables of (target, source) pairs in source order. The second evaluation of the address-name expression is the same value as the first. It returns a `Document` record. The record does not keep that `make_order` puts `id` after `relationships` (functions.py:672-673).
- Functions.MakeProduct, Functions.MakeCategory, Functions.MakeCustomer, Functions.MakeProductSpecial, Functions.MakeProductReview, Functions.MakeDiscount, Functions.MakeTaxClass, Functions.MakeRedirect: the argument dict must be a dict with the mandatory names present, which `locals()` always is (the `XLocals` lemmas show this for the real parameter lists).
- Functions.MakeProduct: `category_ids` must be a list, as the list comprehension of `set_relationship_from_list` needs.
- Functions.MakeDiscount: each id list must be `None` or a list; `str.join` of any other iterable is not modelled.
- Utils.AllCategoriesWithoutChildren: a category is read as a `CategoryRecord`, its `id` and the `id` of its parent. A category lacking `relationships.parent.data` or `id`, or a parent lacking `id`, raises KeyError or TypeError at utils.py:84-89. The model cannot express such input, so it does not model that error.
- Utils.AllCategoriesWithoutParents: the same narrowed input. The KeyError or TypeError of a category lacking `relationships.parent.data` or `id` (utils.py:100-101) is not modelled.
- Session.ReadPage: `data` must be a list and `links` a dict, else the model gives TypeError. Python iterates a str `data` by characters and a dict `data` by keys (the two relationship reads do model an empty dict or str `data` as no ids). It answers `"next" in links` for a list or str `links` too. JSON:API listings never have those shapes. The same holds for `MsConnection.MsPages`.
- MsConnection.IdsOf: `int()` is `Json.PyInt`, which reads an int, a bool, or a str of an optional sign and ASCII digits. Python's `int()` also reads surrounding whitespace, underscores between digits, other Unicode digits and floats, where the model raises.
- Utils.FormatFilter: its own contract states only the length; the layout is in `FormatFilterFixed` and `FormatFilterFields`.
- MsConnection.IdsOf: its own contract states only the length; the iff and the values are in `IdsOfSucceeds` and `IdsOfValues`.
- MsConnection.Serialize: the Python repr is approximated by `Json.Repr`, so the text is not byte-exact.

Where the code and the documentation disagree, the model follows the code:

- `set_all_attributes` writes keys whose value is `None`.
- The session walker raises on a page without `data`, while the MsConnection walker returns what it has collected.
- `BatchBuilder` has no method to add documents; the batch is a field.

## Findings

| source | as written | input that shows it | evidently intended | confidence | as-written member | corrected member |
|---|---|---|---|---|---|---|
| MsConnection.py:171 | `update_categories_relationships_products` patches `products/<id>/relationships/categories` | any category id, e.g. `7`: the request goes to product 7's category links | patch `categories/<id>/relationships/products`, the URL `categories_relationships_products` reads (MsConnection.py:165) | high, not executed | MsConnection.CategoryUpdateMisdirected | MsConnection.UpdateCategoryProducts |
