/** `MsConnection.py`: a client that builds its headers on every call,
    sends GET/POST/PATCH/DELETE requests directly, walks listings, and
    reads and replaces the category links of a product. A client never
    changes after construction, so it is a value here; the transport is a
    function from the request sent to its outcome, as in `Session`. */
module MsConnection {
  import opened Wrappers
  import opened Json
  import opened Dicts
  import opened Session

  /** An `MsConnection` after construction. `defaultLanguage` is what the
      constructor reads from the store settings over the network. */
  datatype Client = Client(store: string, agent: string, token: string, safeMode: bool, defaultLanguage: Value) {
    /** `api_path`, the prefix of every URL the client requests. */
    function ApiPath(): string
    {
      "https://api.XXX.no/shops/" + store
    }
  }

  /** What `_connect_to_path` returns: the `0` of a POST or PATCH without
      data, the `''` of an unknown method, or the request it sent and what
      the transport made of it. */
  datatype Reply = Refused | NoRequest | Sent(request: HttpRequest, outcome: Outcome)

  // _connect_to_path

  /** The headers `_connect_to_path` sends. */
  function ConnectHeaders(agent: string, token: string, vnd: bool): (r: Dict<string>)
    ensures IsDict(r)
    ensures Keys(r) == ["Content-Type", "Accept", "User-Agent", "Authorization"]
    ensures Get(r, "Content-Type") == Some(JsonApi)
    ensures Get(r, "Accept") == Some(if vnd then JsonApi else "application/json")
    ensures Get(r, "User-Agent") == Some(agent)
    ensures Get(r, "Authorization") == Some("Bearer " + token)
  {
    var r := [("Content-Type", JsonApi), ("Accept", if vnd then JsonApi else "application/json"),
              ("User-Agent", agent), ("Authorization", "Bearer " + token)];
    assert Keys(r) == ["Content-Type", "Accept", "User-Agent", "Authorization"];
    GetAt(r, 0);
    GetAt(r, 1);
    GetAt(r, 2);
    GetAt(r, 3);
    r
  }

  /** On the four headers it sets, `_connect_to_path` sends what a
      `TokenSession` with the same token and agent holds after a request
      with the same `vnd` flag. */
  lemma ConnectHeadersAgree(defaults: Dict<string>, token: string, agent: string, vnd: bool)
    ensures var session := AfterAccept(TokenHeaders(defaults, token, agent), vnd);
      var sent := ConnectHeaders(agent, token, vnd);
      Get(sent, "Content-Type") == Get(session, "Content-Type") &&
      Get(sent, "Accept") == Get(session, "Accept") &&
      Get(sent, "User-Agent") == Get(session, "User-Agent") &&
      Get(sent, "Authorization") == Get(session, "Authorization")
  {
    var tokenHeaders := TokenHeaders(defaults, token, agent);
    TokenHeadersGet(defaults, token, agent, "Content-Type");
    TokenHeadersGet(defaults, token, agent, "Accept");
    TokenHeadersGet(defaults, token, agent, "User-Agent");
    TokenHeadersGet(defaults, token, agent, "Authorization");
  }

  /** `_connect_to_path`: refuses a POST or PATCH without data, sends the
      four known methods with the headers above, data only with POST and
      PATCH, and sends nothing for any other method. */
  function ConnectToPath(client: Client, path: string, vnd: bool, verb: string, data: Option<string>,
                         send: HttpRequest -> Outcome): (r: Reply)
    ensures r.Refused? <==> (verb == "post" || verb == "patch") && data.None?
    ensures r.NoRequest? <==> verb !in ["get", "post", "patch", "delete"]
    ensures r.Sent? ==> r.request.target == Verbatim(path) && r.request.headers == ConnectHeaders(client.agent, client.token, vnd)
    ensures r.Sent? ==> (r.request.data.Some? <==> verb == "post" || verb == "patch")
    ensures r.Sent? && r.request.data.Some? ==> r.request.data == data
    ensures r.Sent? ==> r.outcome == send(r.request)
    ensures r.Sent? ==>
      (r.request.verb ==
         if verb == "get" then "GET" else if verb == "post" then "POST" else if verb == "patch" then "PATCH" else "DELETE")
  {
    var headers := ConnectHeaders(client.agent, client.token, vnd);
    if (verb == "post" || verb == "patch") && data.None? then Refused
    else if verb == "get" then Deliver(send, HttpRequest("GET", Verbatim(path), headers, None))
    else if verb == "post" then Deliver(send, HttpRequest("POST", Verbatim(path), headers, data))
    else if verb == "patch" then Deliver(send, HttpRequest("PATCH", Verbatim(path), headers, data))
    else if verb == "delete" then Deliver(send, HttpRequest("DELETE", Verbatim(path), headers, None))
    else NoRequest
  }

  function Deliver(send: HttpRequest -> Outcome, request: HttpRequest): Reply
  {
    Sent(request, send(request))
  }

  /** `.json()` on what `_connect_to_path` returned: an exception of the
      transport passes through, and the `0` or `''` of a request never sent
      has no `json` attribute. */
  function BodyOf(reply: Reply): Result<Value, Fault>
  {
    match reply
    case Sent(_, Raised) => Failure(RequestException)
    case Sent(_, Received(response)) => if response.body.None? then Failure(DecodeError) else Success(response.body.value)
    case _ => Failure(AttributeError)
  }

  /** `.status_code` on what `_connect_to_path` returned. */
  function StatusOf(reply: Reply): Result<int, Fault>
  {
    match reply
    case Sent(_, Raised) => Failure(RequestException)
    case Sent(_, Received(response)) => Success(response.status)
    case _ => Failure(AttributeError)
  }

  /** A page pages of `_get_paginated_data`: `self._connect_to_path(url).json()`. */
  function MsFetchBody(client: Client, send: HttpRequest -> Outcome, url: string): Result<Value, Fault>
  {
    BodyOf(ConnectToPath(client, url, true, "get", None, send))
  }

  /** The pages of a listing as `_get_paginated_data` reads them. */
  function MsPages(client: Client, send: HttpRequest -> Outcome): string -> PageStep
  {
    url => StepOf(MsFetchBody(client, send, url))
  }

  // _get_paginated_data

  /** The result of `_get_paginated_data` from `cursor`; `None` when the
      listing needs more than `fuel` fetches. A page without `data` ends
      the walk with the items gathered so far. */
  function MsWalk(pages: string -> PageStep, cursor: string, fuel: nat): Option<Result<seq<Value>, Fault>>
    decreases fuel
  {
    if fuel == 0 then None
    else match pages(cursor)
      case Broken(e) => Some(Failure(e))
      case NoData => Some(Success([]))
      case Last(items) => Some(Success(items))
      case More(items, next) => Prepend(items, MsWalk(pages, next, fuel - 1))
  }

  /** The two walkers visit the same pages and agree, except on a listing
      whose last page has no `data`: there `get_paginated` raises and
      `_get_paginated_data` returns the items of the earlier pages. */
  lemma {:induction false} WalkersAgree(pages: string -> PageStep, cursor: string, fuel: nat)
    requires Walk(pages, cursor, fuel).Some?
    ensures var v := Visits(pages, cursor, fuel);
      |v| >= 1 &&
      MsWalk(pages, cursor, fuel) ==
        if pages(v[|v| - 1]).NoData? then Some(Success(Collected(pages, v))) else Walk(pages, cursor, fuel)
    ensures var v := Visits(pages, cursor, fuel);
      pages(v[|v| - 1]).NoData? ==> Walk(pages, cursor, fuel) == Some(Failure(KeyError("data")))
    decreases fuel
  {
    var step := pages(cursor);
    var v := Visits(pages, cursor, fuel);
    if step.More? {
      var rest := Visits(pages, step.next, fuel - 1);
      WalkersAgree(pages, step.next, fuel - 1);
      assert v == [cursor] + rest;
      assert v[|v| - 1] == rest[|rest| - 1];
      assert v[1..] == rest;
      if pages(rest[|rest| - 1]).NoData? {
        assert Collected(pages, v) == step.items + Collected(pages, rest);
      }
    } else {
      assert v == [cursor];
      assert Collected(pages, v) == (if step.Last? then step.items else []) + Collected(pages, []);
    }
  }

  /** One page of a walk, for the loop of `GetPaginatedData`. */
  lemma MsWalkAdvance(pages: string -> PageStep, items: seq<Value>, url: string, k: nat)
    requires MsWalk(pages, url, k).Some?
    ensures k > 0
    ensures var step := pages(url);
      match step
      case Broken(e) => Prepend(items, MsWalk(pages, url, k)) == Some(Failure(e))
      case NoData => Prepend(items, MsWalk(pages, url, k)) == Some(Success(items))
      case Last(page) => Prepend(items, MsWalk(pages, url, k)) == Some(Success(items + page))
      case More(page, next) =>
        MsWalk(pages, next, k - 1).Some? &&
        Prepend(items, MsWalk(pages, url, k)) == Prepend(items + page, MsWalk(pages, next, k - 1))
  {
    var step := pages(url);
    if step.NoData? {
      assert items + [] == items;
    } else if step.More? {
      PrependTwice(items, step.items, MsWalk(pages, step.next, k - 1));
    }
  }

  /** Where `_get_paginated_data` starts. */
  function ListingUrl(client: Client, endpoint: string): string
  {
    client.ApiPath() + "/" + endpoint
  }

  /** `_get_paginated_data`: fetches `api_path/endpoint`, then each page's
      `next` link, collecting every page's items, and stops early with what
      it has at a page without `data`. `fuel` bounds the number of pages,
      which the code itself does not. */
  method GetPaginatedData(client: Client, endpoint: string, send: HttpRequest -> Outcome, ghost fuel: nat)
    returns (output: Result<seq<Value>, Fault>)
    requires MsWalk(MsPages(client, send), ListingUrl(client, endpoint), fuel).Some?
    ensures Some(output) == MsWalk(MsPages(client, send), ListingUrl(client, endpoint), fuel)
  {
    output := MsPaginate(MsPages(client, send), ListingUrl(client, endpoint), fuel);
  }

  /** The loop of `_get_paginated_data` over the pages it reads. */
  method MsPaginate(pages: string -> PageStep, start: string, ghost fuel: nat) returns (output: Result<seq<Value>, Fault>)
    requires MsWalk(pages, start, fuel).Some?
    ensures Some(output) == MsWalk(pages, start, fuel)
  {
    ghost var goal := MsWalk(pages, start, fuel);
    var nextPage := start;
    var more := true;
    var items: seq<Value> := [];
    ghost var k := fuel;
    PrependNil(goal);
    while more
      invariant more ==> MsWalk(pages, nextPage, k).Some? && goal == Prepend(items, MsWalk(pages, nextPage, k))
      invariant !more ==> goal == Some(Success(items))
      decreases if more then k + 1 else 0
    {
      var step := pages(nextPage);
      MsWalkAdvance(pages, items, nextPage, k);
      match step {
        case Broken(e) =>
          return Failure(e);
        case NoData =>
          break;
        case Last(data) =>
          items := Extend(items, data);
          more := false;
        case More(data, next) =>
          items := Extend(items, data);
          nextPage := next;
      }
      k := k - 1;
    }
    return Success(items);
  }

  // Category links of a product

  /** The `{"data": [{"id": .., "type": ..}, ..]}` document of a
      relationship update, one entry per id in input order. */
  function RelationshipPayload(ids: seq<Value>, typeName: string): (r: Value)
    ensures r.Obj? && Keys(r.fields) == ["data"] && r.fields[0].1.Arr?
    ensures |r.fields[0].1.items| == |ids|
    ensures forall i :: 0 <= i < |ids| ==>
      (r.fields[0].1.items[i].Obj? && Keys(r.fields[0].1.items[i].fields) == ["id", "type"] &&
       Get(r.fields[0].1.items[i].fields, "id") == Some(ids[i]) &&
       Get(r.fields[0].1.items[i].fields, "type") == Some(Str(typeName)))
  {
    var entries := seq(|ids|, i requires 0 <= i < |ids| => Obj([("id", ids[i]), ("type", Str(typeName))]));
    assert forall i :: 0 <= i < |ids| ==> Keys(entries[i].fields) == ["id", "type"];
    forall i | 0 <= i < |ids|
      ensures Get(entries[i].fields, "id") == Some(ids[i]) && Get(entries[i].fields, "type") == Some(Str(typeName))
    {
      GetAt(entries[i].fields, 0);
      GetAt(entries[i].fields, 1);
    }
    Obj([("data", Arr(entries))])
  }

  /** `str(data).replace("'", '"')`: the repr of the payload with its
      quotes swapped. */
  function Serialize(payload: Value): (r: string)
    ensures |r| == |Repr(payload)|
    ensures forall i :: 0 <= i < |r| ==> r[i] != '\''
    ensures forall i :: 0 <= i < |r| && Repr(payload)[i] == '\'' ==> r[i] == '"'
    ensures forall i :: 0 <= i < |r| && Repr(payload)[i] != '\'' ==> r[i] == Repr(payload)[i]
  {
    var text := Repr(payload);
    seq(|text|, i requires 0 <= i < |text| => if text[i] == '\'' then '"' else text[i])
  }

  /** The URL of a product's category links. */
  function ProductCategoriesPath(client: Client, productId: Value): string
  {
    client.ApiPath() + "/products/" + ToString(productId) + "/relationships/categories"
  }

  /** `update_products_relationships_categories`: a PATCH of the category
      links of `productId`, answered by the response's status code. */
  function UpdateProductsRelationshipsCategories(client: Client, productId: Value, categories: seq<Value>,
                                                  send: HttpRequest -> Outcome): (r: Result<int, Fault>)
    ensures r == StatusOf(Deliver(send, HttpRequest("PATCH", Verbatim(ProductCategoriesPath(client, productId)),
      ConnectHeaders(client.agent, client.token, true), Some(Serialize(RelationshipPayload(categories, "categories"))))))
  {
    StatusOf(ConnectToPath(client, ProductCategoriesPath(client, productId), true, "patch",
      Some(Serialize(RelationshipPayload(categories, "categories"))), send))
  }

  /** `update_categories_relationships_products`: a PATCH of product links
      whose URL is built from the category id the way a product's category
      links are addressed. */
  function UpdateCategoriesRelationshipsProducts(client: Client, categoryId: Value, products: seq<Value>,
                                                  send: HttpRequest -> Outcome): (r: Result<int, Fault>)
    ensures r == StatusOf(Deliver(send, HttpRequest("PATCH", Verbatim(ProductCategoriesPath(client, categoryId)),
      ConnectHeaders(client.agent, client.token, true), Some(Serialize(RelationshipPayload(products, "products"))))))
  {
    StatusOf(ConnectToPath(client, client.ApiPath() + "/products/" + ToString(categoryId) + "/relationships/categories",
      true, "patch", Some(Serialize(RelationshipPayload(products, "products"))), send))
  }

  /** The URL of a category's product links, which
      `categories_relationships_products` reads. */
  function CategoryProductsPath(client: Client, categoryId: Value): string
  {
    client.ApiPath() + "/categories/" + ToString(categoryId) + "/relationships/products"
  }

  /** The product-links URL of a category and the category-links URL of a
      product never coincide, whatever the two ids: they part at the first
      character after the API path. */
  lemma LinkPathsDistinct(client: Client, categoryId: Value, productId: Value)
    ensures CategoryProductsPath(client, categoryId) != ProductCategoriesPath(client, productId)
  {
    var n := |client.ApiPath()|;
    assert CategoryProductsPath(client, categoryId)[n + 1] == 'c';
    assert ProductCategoriesPath(client, productId)[n + 1] == 'p';
  }

  /** As written, the update of category `c`'s product links patches the
      category links of product `c` instead: the same request as the product
      update of that id would send, and never the URL the category's product
      links are read from. */
  lemma CategoryUpdateMisdirected(client: Client, categoryId: Value, products: seq<Value>,
                                  send: HttpRequest -> Outcome)
    ensures UpdateCategoriesRelationshipsProducts(client, categoryId, products, send) ==
      StatusOf(Deliver(send, HttpRequest("PATCH", Verbatim(ProductCategoriesPath(client, categoryId)),
        ConnectHeaders(client.agent, client.token, true), Some(Serialize(RelationshipPayload(products, "products"))))))
    ensures ProductCategoriesPath(client, categoryId) != CategoryProductsPath(client, categoryId)
  {
    LinkPathsDistinct(client, categoryId, categoryId);
  }

  /** `update_categories_relationships_products` as intended: a PATCH of the
      product links of `categoryId`, at the URL they are read from. */
  function UpdateCategoryProducts(client: Client, categoryId: Value, products: seq<Value>,
                                  send: HttpRequest -> Outcome): (r: Result<int, Fault>)
    ensures r == StatusOf(Deliver(send, HttpRequest("PATCH", Verbatim(CategoryProductsPath(client, categoryId)),
      ConnectHeaders(client.agent, client.token, true), Some(Serialize(RelationshipPayload(products, "products"))))))
  {
    StatusOf(ConnectToPath(client, CategoryProductsPath(client, categoryId), true, "patch",
      Some(Serialize(RelationshipPayload(products, "products"))), send))
  }

  /** The intended category update never sends the request of a product
      update, whatever the two ids and payloads. */
  lemma CategoryUpdateSeparate(client: Client, categoryId: Value, productId: Value)
    ensures Verbatim(CategoryProductsPath(client, categoryId)) != Verbatim(ProductCategoriesPath(client, productId))
  {
    LinkPathsDistinct(client, categoryId, productId);
  }

  /** `int(item['id'])` for every item, in order; the first item that is
      not a dict, has no `id`, or whose `id` is not a number, raises. */
  function IdsOf(items: seq<Value>): (r: Result<seq<int>, Fault>)
    ensures r.Success? ==> |r.value| == |items|
    decreases |items|
  {
    if items == [] then Success([])
    else
      var item := items[0];
      if !item.Obj? then Failure(TypeError)
      else match Get(item.fields, "id")
        case None => Failure(KeyError("id"))
        case Some(id) =>
          match PyInt(id)
          case None => Failure(if id.Str? then ValueError else TypeError)
          case Some(n) =>
            var rest :- IdsOf(items[1..]);
            Success([n] + rest)
  }

  /** An item `int()` can read the `id` of. */
  predicate HasIntId(item: Value)
  {
    item.Obj? && Get(item.fields, "id").Some? && PyInt(Get(item.fields, "id").value).Some?
  }

  /** The ids are read exactly when every item is a dict with a readable `id`. */
  lemma {:induction false} IdsOfSucceeds(items: seq<Value>)
    ensures IdsOf(items).Success? <==> forall i :: 0 <= i < |items| ==> HasIntId(items[i])
    decreases |items|
  {
    if items != [] {
      IdsOfSucceeds(items[1..]);
      assert forall i :: 1 <= i < |items| ==> items[i] == items[1..][i - 1];
      if forall i :: 1 <= i < |items| ==> HasIntId(items[i]) {
        assert forall i :: 0 <= i < |items[1..]| ==> HasIntId(items[1..][i]);
      } else {
        var i :| 1 <= i < |items| && !HasIntId(items[i]);
        assert !HasIntId(items[1..][i - 1]);
      }
    }
  }

  /** Each id read is `int()` of the item's `id`, in item order. */
  lemma {:induction false} IdsOfValues(items: seq<Value>)
    requires IdsOf(items).Success?
    ensures forall i :: 0 <= i < |items| ==>
      (HasIntId(items[i]) && PyInt(Get(items[i].fields, "id").value) == Some(IdsOf(items).value[i]))
    decreases |items|
  {
    IdsOfSucceeds(items);
    if items != [] {
      IdsOfValues(items[1..]);
      forall i | 1 <= i < |items|
        ensures PyInt(Get(items[i].fields, "id").value) == Some(IdsOf(items).value[i])
      {
        assert items[i] == items[1..][i - 1];
      }
    }
  }

  /** The id list out of a relationship body: `response['data']`, iterated.
      An empty dict or str iterates to nothing; a non-empty one yields strs,
      whose `['id']` is a TypeError, as is iterating any other scalar. */
  function IdsFromBody(body: Value): (r: Result<seq<int>, Fault>)
    ensures !body.Obj? ==> r == Failure(TypeError)
    ensures body.Obj? && "data" !in Keys(body.fields) ==> r == Failure(KeyError("data"))
    ensures body.Obj? && Get(body.fields, "data").Some? ==>
      r == match Get(body.fields, "data").value
           case Arr(items) => IdsOf(items)
           case Obj(fields) => if fields == [] then Success([]) else Failure(TypeError)
           case Str(s) => if s == [] then Success([]) else Failure(TypeError)
           case _ => Failure(TypeError)
  {
    if !body.Obj? then Failure(TypeError)
    else match Get(body.fields, "data")
      case None => Failure(KeyError("data"))
      case Some(data) =>
        match data
        case Arr(items) => IdsOf(items)
        case Obj(fields) => if fields == [] then Success([]) else Failure(TypeError)
        case Str(s) => if s == [] then Success([]) else Failure(TypeError)
        case _ => Failure(TypeError)
  }

  /** `products_relationships_categories`: the ids of a product's
      categories as ints, in response order. */
  function ProductsRelationshipsCategories(client: Client, productId: Value, send: HttpRequest -> Outcome)
    : (r: Result<seq<int>, Fault>)
    ensures var request := HttpRequest("GET", Verbatim(ProductCategoriesPath(client, productId)),
                                       ConnectHeaders(client.agent, client.token, true), None);
      match send(request)
      case Raised => r == Failure(RequestException)
      case Received(response) => r == if response.body.None? then Failure(DecodeError) else IdsFromBody(response.body.value)
  {
    var body :- BodyOf(ConnectToPath(client, ProductCategoriesPath(client, productId), true, "get", None, send));
    IdsFromBody(body)
  }

  /** `categories_relationships_products`: the ids of a category's
      products as ints, in response order. */
  function CategoriesRelationshipsProducts(client: Client, categoryId: Value, send: HttpRequest -> Outcome)
    : (r: Result<seq<int>, Fault>)
    ensures var request := HttpRequest("GET", Verbatim(CategoryProductsPath(client, categoryId)),
                                       ConnectHeaders(client.agent, client.token, true), None);
      match send(request)
      case Raised => r == Failure(RequestException)
      case Received(response) => r == if response.body.None? then Failure(DecodeError) else IdsFromBody(response.body.value)
  {
    var body :- BodyOf(ConnectToPath(client, CategoryProductsPath(client, categoryId), true, "get", None, send));
    IdsFromBody(body)
  }

  /** The ids of an update, as ints or as their decimal strings. */
  function IdValues(ids: seq<int>, asText: bool): seq<Value>
  {
    seq(|ids|, i requires 0 <= i < |ids| => if asText then Str(IntToString(ids[i])) else Int(ids[i]))
  }

  /** Reading the ids back out of an update payload gives the ids put in,
      whether they were ints or their decimal strings. */
  lemma PayloadIdsRoundTrip(ids: seq<int>, asText: bool, typeName: string)
    ensures IdsFromBody(RelationshipPayload(IdValues(ids, asText), typeName)) == Success(ids)
  {
    var values := IdValues(ids, asText);
    var payload := RelationshipPayload(values, typeName);
    assert Keys(payload.fields) == ["data"];
    GetAt(payload.fields, 0);
    forall i | 0 <= i < |ids|
      ensures PyInt(values[i]) == Some(ids[i])
    {
      ParseIntToString(ids[i]);
    }
    var items := payload.fields[0].1.items;
    forall i | 0 <= i < |items|
      ensures HasIntId(items[i])
    {
      ParseIntToString(ids[i]);
    }
    IdsOfSucceeds(items);
    IdsOfValues(items);
    var r := IdsOf(items);
    assert r.value == ids;
  }

  /** A product whose category links answer with the payload of an update
      reads back the ids that update sent, whatever the status code. */
  lemma ProductCategoriesReadBack(client: Client, productId: Value, send: HttpRequest -> Outcome,
                                  ids: seq<int>, asText: bool, status: int)
    requires send(HttpRequest("GET", Verbatim(ProductCategoriesPath(client, productId)),
                              ConnectHeaders(client.agent, client.token, true), None))
             == Received(Response(status, Some(RelationshipPayload(IdValues(ids, asText), "categories"))))
    ensures ProductsRelationshipsCategories(client, productId, send) == Success(ids)
  {
    PayloadIdsRoundTrip(ids, asText, "categories");
  }

  /** The same read-back for the product links of a category. */
  lemma CategoryProductsReadBack(client: Client, categoryId: Value, send: HttpRequest -> Outcome,
                                 ids: seq<int>, asText: bool, status: int)
    requires send(HttpRequest("GET", Verbatim(CategoryProductsPath(client, categoryId)),
                              ConnectHeaders(client.agent, client.token, true), None))
             == Received(Response(status, Some(RelationshipPayload(IdValues(ids, asText), "products"))))
    ensures CategoriesRelationshipsProducts(client, categoryId, send) == Success(ids)
  {
    PayloadIdsRoundTrip(ids, asText, "products");
  }
}
