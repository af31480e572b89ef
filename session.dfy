/** `session.py`: a requests session carrying the store token, the request
    layer that resolves paths and classifies outcomes, and the listing
    walker that follows `links.next` from page to page. The transport is a
    function from the request sent to its outcome. */
module Session {
  import opened Wrappers
  import opened Json
  import opened Dicts

  /** Where a request goes: a URL used as given, or a path joined onto a
      base URL by `urljoin` (left symbolic). */
  datatype Target = Verbatim(url: string) | Joined(base: string, path: string)

  /** One HTTP request as handed to the transport. */
  datatype HttpRequest = HttpRequest(verb: string, target: Target, headers: Dict<string>, data: Option<string>)

  /** A response: its status code, and its body decoded as JSON, `None`
      when `.json()` would raise. */
  datatype Response = Response(status: int, body: Option<Value>) {
    /** `response.ok`: `raise_for_status` finds no client error (4xx) and
        no server error (5xx). */
    predicate Ok() { !(400 <= status < 600) }
  }

  /** What the transport makes of a request: a `RequestException`, or a response. */
  datatype Outcome = Raised | Received(response: Response)

  /** The exceptions the request layer and the walkers can end in. */
  datatype Fault =
    | IndexError                        // `path[0]` of an empty path
    | ApiError                          // a transport exception, wrapped by `_request`
    | ResponseError(response: Response) // a response that is not ok
    | RequestException                  // a transport exception, not wrapped
    | DecodeError                       // `.json()` of a body that is not JSON
    | KeyError(key: string)
    | TypeError                         // indexing or iterating a value of the wrong kind
    | AttributeError                    // `.json()` or `.status_code` on a value that is not a response
    | ValueError                        // `int()` of a value that is not a number

  const JsonApi := "application/vnd.api+json"

  // TokenSession

  /** The headers of a `TokenSession`: the session's default headers with
      the user agent, both JSON:API media types and the bearer token set. */
  function TokenHeaders(defaults: Dict<string>, token: string, agent: string): Dict<string>
  {
    Put(Put(Put(Put(defaults, "User-Agent", agent), "Content-Type", JsonApi), "Accept", JsonApi),
        "Authorization", "Bearer " + token)
  }

  /** A `TokenSession` sets exactly four headers and keeps every other default. */
  lemma TokenHeadersGet(defaults: Dict<string>, token: string, agent: string, k: string)
    ensures Get(TokenHeaders(defaults, token, agent), k) ==
      if k == "User-Agent" then Some(agent)
      else if k == "Content-Type" || k == "Accept" then Some(JsonApi)
      else if k == "Authorization" then Some("Bearer " + token)
      else Get(defaults, k)
    ensures k in Keys(TokenHeaders(defaults, token, agent)) <==>
      k in Keys(defaults) || k in ["User-Agent", "Content-Type", "Accept", "Authorization"]
  {
    var h1 := Put(defaults, "User-Agent", agent);
    var h2 := Put(h1, "Content-Type", JsonApi);
    var h3 := Put(h2, "Accept", JsonApi);
    PutGet(defaults, "User-Agent", agent);
    PutGet(h1, "Content-Type", JsonApi);
    PutGet(h2, "Accept", JsonApi);
    PutGet(h3, "Authorization", "Bearer " + token);
  }

  /** `TokenSession`: a requests session whose headers the request layer
      shares and may change. */
  class TokenSession {
    var headers: Dict<string>

    /** `TokenSession(token, agent)`; `defaults` are the headers a fresh
        `requests.Session` starts with. */
    constructor (defaults: Dict<string>, token: string, agent: string)
      ensures headers == TokenHeaders(defaults, token, agent)
    {
      headers := defaults;
      new;
      headers := Put(headers, "User-Agent", agent);
      headers := Put(headers, "Content-Type", JsonApi);
      headers := Put(headers, "Accept", JsonApi);
      headers := Put(headers, "Authorization", "Bearer " + token);
    }
  }

  // Requestor._request

  /** The header change of `_request`: a plain-JSON request overwrites the
      session's `Accept` header, and nothing ever puts it back. */
  function AfterAccept(headers: Dict<string>, vnd: bool): (r: Dict<string>)
    ensures Get(r, "Accept") == if vnd then Get(headers, "Accept") else Some("application/json")
    ensures forall k :: k != "Accept" ==> Get(r, k) == Get(headers, k)
  {
    PutGet(headers, "Accept", "application/json");
    if vnd then headers else Put(headers, "Accept", "application/json")
  }

  /** After one plain-JSON request, every later request still asks for plain JSON. */
  lemma {:induction false} AcceptSticky(headers: Dict<string>, later: seq<bool>)
    ensures Get(AfterAll(AfterAccept(headers, false), later), "Accept") == Some("application/json")
    decreases |later|
  {
    if later != [] {
      var h := AfterAll(AfterAccept(headers, false), later[..|later| - 1]);
      AcceptSticky(headers, later[..|later| - 1]);
      assert Get(AfterAccept(h, later[|later| - 1]), "Accept") == Some("application/json");
    }
  }

  /** The session headers after a run of requests with the given `vnd` flags. */
  function AfterAll(headers: Dict<string>, flags: seq<bool>): Dict<string>
    decreases |flags|
  {
    if flags == [] then headers else AfterAccept(AfterAll(headers, flags[..|flags| - 1]), flags[|flags| - 1])
  }

  /** The URL choice of `_request`: a path starting with `h` is taken as a
      full URL, any other path is resolved against the base URL, and an
      empty path has no first character. */
  function ResolveTarget(baseUrl: string, path: string): (r: Result<Target, Fault>)
    ensures r.Failure? <==> path == []
    ensures r.Failure? ==> r.error == IndexError
    ensures r.Success? && r.value.Verbatim? <==> path != [] && path[0] == 'h'
    ensures r.Success? ==> (r.value.Verbatim? && r.value.url == path) || r.value == Joined(baseUrl, path)
  {
    if path == [] then Failure(IndexError)
    else if path[0] != 'h' then Success(Joined(baseUrl, path))
    else Success(Verbatim(path))
  }

  /** How `_request` classifies what the transport did. */
  function Classify(outcome: Outcome): (r: Result<Response, Fault>)
    ensures r.Success? <==> outcome.Received? && outcome.response.Ok()
    ensures r.Success? ==> r.value == outcome.response
    ensures outcome.Raised? ==> r == Failure(ApiError)
    ensures outcome.Received? && !outcome.response.Ok() ==> r == Failure(ResponseError(outcome.response))
  {
    match outcome
    case Raised => Failure(ApiError)
    case Received(response) => if !response.Ok() then Failure(ResponseError(response)) else Success(response)
  }

  /** The request `_request` hands to the transport, given the session
      headers it starts from. */
  function Issued(baseUrl: string, headers: Dict<string>, verb: string, path: string, vnd: bool, data: Option<string>)
    : (r: Result<HttpRequest, Fault>)
    ensures r.Failure? <==> path == []
    ensures r.Success? ==> r.value.verb == verb && r.value.data == data
    ensures r.Success? ==> r.value.headers == AfterAccept(headers, vnd)
    ensures r.Success? ==> ResolveTarget(baseUrl, path) == Success(r.value.target)
  {
    var target :- ResolveTarget(baseUrl, path);
    Success(HttpRequest(verb, target, AfterAccept(headers, vnd), data))
  }

  /** What `_request` returns or raises. */
  function Answer(send: HttpRequest -> Outcome, issued: Result<HttpRequest, Fault>): Result<Response, Fault>
  {
    match issued
    case Failure(e) => Failure(e)
    case Success(request) => Classify(send(request))
  }

  /** `self.get(url).json()` against a session whose headers are `headers`. */
  function FetchBody(baseUrl: string, headers: Dict<string>, send: HttpRequest -> Outcome, url: string): Result<Value, Fault>
  {
    var response :- Answer(send, Issued(baseUrl, headers, "GET", url, true, None));
    if response.body.None? then Failure(DecodeError) else Success(response.body.value)
  }

  // Listing pages

  /** What one page of a listing tells a walker: its items and the next
      URL, its items and no next URL (the `next` key is absent or not a
      str), no `data` key at all, or an exception. */
  datatype PageStep = More(items: seq<Value>, next: string) | Last(items: seq<Value>) | NoData | Broken(fault: Fault)

  /** Reading `response["data"]` and then `response["links"]["next"]`. */
  function ReadPage(body: Value): (r: PageStep)
    ensures r.NoData? <==> body.Obj? && "data" !in Keys(body.fields)
    ensures (r.More? || r.Last?) ==> body.Obj? && Get(body.fields, "data") == Some(Arr(r.items))
    ensures r.More? <==> (body.Obj? && Get(body.fields, "data").Some? && Get(body.fields, "data").value.Arr? &&
                          Get(body.fields, "links").Some? && Get(body.fields, "links").value.Obj? &&
                          Get(Get(body.fields, "links").value.fields, "next").Some? &&
                          Get(Get(body.fields, "links").value.fields, "next").value.Str?)
    ensures r.More? ==> Get(Get(body.fields, "links").value.fields, "next") == Some(Str(r.next))
    ensures r.Last? <==> (body.Obj? && Get(body.fields, "data").Some? && Get(body.fields, "data").value.Arr? &&
                          Get(body.fields, "links").Some? && Get(body.fields, "links").value.Obj? &&
                          !(Get(Get(body.fields, "links").value.fields, "next").Some? &&
                            Get(Get(body.fields, "links").value.fields, "next").value.Str?))
    ensures !body.Obj? ==> r == Broken(TypeError)
    ensures body.Obj? && Get(body.fields, "data").Some? && !Get(body.fields, "data").value.Arr? ==> r == Broken(TypeError)
    ensures r.Broken? && body.Obj? && Get(body.fields, "data").Some? && Get(body.fields, "data").value.Arr? ==>
      r.fault == (if Get(body.fields, "links").None? then KeyError("links") else TypeError)
  {
    if !body.Obj? then Broken(TypeError)
    else match Get(body.fields, "data")
      case None => NoData
      case Some(data) =>
        if !data.Arr? then Broken(TypeError)
        else match Get(body.fields, "links")
          case None => Broken(KeyError("links"))
          case Some(links) =>
            if !links.Obj? then Broken(TypeError)
            else match Get(links.fields, "next")
              case Some(next) => if next.Str? then More(data.items, next.s) else Last(data.items)
              case None => Last(data.items)
  }

  /** The step a walker takes on a fetched body, or on the exception of the fetch. */
  function StepOf(body: Result<Value, Fault>): PageStep
  {
    match body
    case Failure(e) => Broken(e)
    case Success(page) => ReadPage(page)
  }

  /** The pages of a listing as `get_paginated` reads them through the
      request layer, with the session headers fixed at `headers`. */
  function Pages(baseUrl: string, headers: Dict<string>, send: HttpRequest -> Outcome): string -> PageStep
  {
    url => StepOf(FetchBody(baseUrl, headers, send, url))
  }

  /** The URLs a walker fetches from `cursor` on, within `fuel` fetches. */
  function Visits(pages: string -> PageStep, cursor: string, fuel: nat): seq<string>
    decreases fuel
  {
    if fuel == 0 then []
    else match pages(cursor)
      case More(_, next) => [cursor] + Visits(pages, next, fuel - 1)
      case _ => [cursor]
  }

  /** The items of the given pages, in order. */
  function Collected(pages: string -> PageStep, urls: seq<string>): seq<Value>
    decreases |urls|
  {
    if urls == [] then []
    else
      var step := pages(urls[0]);
      (if step.More? || step.Last? then step.items else []) + Collected(pages, urls[1..])
  }

  /** `items` in front of the rest of a walk's result; a failure stays a failure. */
  function Prepend(items: seq<Value>, rest: Option<Result<seq<Value>, Fault>>): Option<Result<seq<Value>, Fault>>
  {
    match rest
    case Some(Success(more)) => Some(Success(items + more))
    case _ => rest
  }

  lemma PrependNil(w: Option<Result<seq<Value>, Fault>>)
    ensures Prepend([], w) == w
  {
    if w.Some? && w.value.Success? {
      assert [] + w.value.value == w.value.value;
    }
  }

  lemma PrependTwice(a: seq<Value>, b: seq<Value>, w: Option<Result<seq<Value>, Fault>>)
    ensures Prepend(a, Prepend(b, w)) == Prepend(a + b, w)
  {
    if w.Some? && w.value.Success? {
      assert a + (b + w.value.value) == (a + b) + w.value.value;
    }
  }

  /** One page of a walk: what the walk from `url` adds to the items
      gathered so far. */
  lemma WalkAdvance(pages: string -> PageStep, items: seq<Value>, url: string, k: nat)
    requires Walk(pages, url, k).Some?
    ensures k > 0
    ensures var step := pages(url);
      match step
      case Broken(e) => Prepend(items, Walk(pages, url, k)) == Some(Failure(e))
      case NoData => Prepend(items, Walk(pages, url, k)) == Some(Failure(KeyError("data")))
      case Last(page) => Prepend(items, Walk(pages, url, k)) == Some(Success(items + page))
      case More(page, next) =>
        Walk(pages, next, k - 1).Some? &&
        Prepend(items, Walk(pages, url, k)) == Prepend(items + page, Walk(pages, next, k - 1))
  {
    var step := pages(url);
    if step.More? {
      PrependTwice(items, step.items, Walk(pages, step.next, k - 1));
    }
  }

  // Requestor.get_paginated

  /** The result of `get_paginated` from `cursor`; `None` when the listing
      needs more than `fuel` fetches. A page without `data` or `links` is an
      exception, so no partial list is ever returned. */
  function Walk(pages: string -> PageStep, cursor: string, fuel: nat): Option<Result<seq<Value>, Fault>>
    decreases fuel
  {
    if fuel == 0 then None
    else match pages(cursor)
      case Broken(e) => Some(Failure(e))
      case NoData => Some(Failure(KeyError("data")))
      case Last(items) => Some(Success(items))
      case More(items, next) => Prepend(items, Walk(pages, next, fuel - 1))
  }

  /** A finished walk starts at `cursor`, follows each page's `next` link,
      stops at the first page that has none, and returns the items of every
      page in pages order, or the exception of its last page. */
  lemma {:induction false} WalkFollowsLinks(pages: string -> PageStep, cursor: string, fuel: nat)
    requires Walk(pages, cursor, fuel).Some?
    ensures var v := Visits(pages, cursor, fuel);
      |v| >= 1 && v[0] == cursor &&
      (forall i :: 0 <= i < |v| - 1 ==> pages(v[i]).More? && pages(v[i]).next == v[i + 1]) &&
      !pages(v[|v| - 1]).More?
    ensures var v := Visits(pages, cursor, fuel);
      Walk(pages, cursor, fuel).value.Success? <==> pages(v[|v| - 1]).Last?
    ensures Walk(pages, cursor, fuel).value.Success? ==>
      Walk(pages, cursor, fuel).value.value == Collected(pages, Visits(pages, cursor, fuel))
    decreases fuel
  {
    var step := pages(cursor);
    var v := Visits(pages, cursor, fuel);
    if step.More? {
      var rest := Visits(pages, step.next, fuel - 1);
      WalkFollowsLinks(pages, step.next, fuel - 1);
      assert v == [cursor] + rest;
      assert v[1..] == rest;
      forall i | 0 <= i < |v| - 1
        ensures pages(v[i]).More? && pages(v[i]).next == v[i + 1]
      {
        if i > 0 {
          assert v[i] == rest[i - 1] && v[i + 1] == rest[i];
        }
      }
    } else {
      assert v == [cursor];
      assert Collected(pages, v) == (if step.Last? then step.items else []) + Collected(pages, []);
    }
  }

  /** `Requestor`: the request layer bound to one store. */
  class Requestor {
    const session: TokenSession
    const baseUrl: string

    constructor (session: TokenSession, store: string)
      ensures this.session == session
      ensures baseUrl == "https://api.mystore.no/shops/" + store + "/"
    {
      this.session := session;
      baseUrl := "https://api.mystore.no/shops/" + store + "/";
    }

    /** `_request`: adjusts the shared `Accept` header, resolves the path,
        sends the request with the session's headers, and classifies the
        outcome. */
    method Request(verb: string, path: string, vnd: bool, data: Option<string>, send: HttpRequest -> Outcome)
      returns (r: Result<Response, Fault>)
      modifies session
      ensures session.headers == AfterAccept(old(session.headers), vnd)
      ensures r == Answer(send, Issued(baseUrl, old(session.headers), verb, path, vnd, data))
    {
      if !vnd {
        session.headers := Put(session.headers, "Accept", "application/json");
      }
      if path == [] {
        return Failure(IndexError);
      }
      var url := if path[0] != 'h' then Joined(baseUrl, path) else Verbatim(path);
      var outcome := send(HttpRequest(verb, url, session.headers, data));
      if outcome.Raised? {
        return Failure(ApiError);
      }
      if !outcome.response.Ok() {
        return Failure(ResponseError(outcome.response));
      }
      return Success(outcome.response);
    }

    /** `get`: a GET with no data. */
    method Get(path: string, vnd: bool, send: HttpRequest -> Outcome) returns (r: Result<Response, Fault>)
      modifies session
      ensures session.headers == AfterAccept(old(session.headers), vnd)
      ensures r == Answer(send, Issued(baseUrl, old(session.headers), "GET", path, vnd, None))
    {
      r := Request("GET", path, vnd, None, send);
    }

    /** `post`: a POST carrying `data`. */
    method Post(path: string, data: string, vnd: bool, send: HttpRequest -> Outcome) returns (r: Result<Response, Fault>)
      modifies session
      ensures session.headers == AfterAccept(old(session.headers), vnd)
      ensures r == Answer(send, Issued(baseUrl, old(session.headers), "POST", path, vnd, Some(data)))
    {
      r := Request("POST", path, vnd, Some(data), send);
    }

    /** `patch`: a PATCH carrying `data`. */
    method Patch(path: string, data: string, vnd: bool, send: HttpRequest -> Outcome) returns (r: Result<Response, Fault>)
      modifies session
      ensures session.headers == AfterAccept(old(session.headers), vnd)
      ensures r == Answer(send, Issued(baseUrl, old(session.headers), "PATCH", path, vnd, Some(data)))
    {
      r := Request("PATCH", path, vnd, Some(data), send);
    }

    /** `delete`: a DELETE with no data. */
    method Delete(path: string, vnd: bool, send: HttpRequest -> Outcome) returns (r: Result<Response, Fault>)
      modifies session
      ensures session.headers == AfterAccept(old(session.headers), vnd)
      ensures r == Answer(send, Issued(baseUrl, old(session.headers), "DELETE", path, vnd, None))
    {
      r := Request("DELETE", path, vnd, None, send);
    }

    /** `get_paginated`: fetches `endpoint`, then each page's `next` link,
        collecting every page's items. Every fetch is `self.get(url).json()`
        with `vnd` left on, so the session headers stay as they are.
        `fuel` bounds the number of pages, which the code itself does not. */
    method GetPaginated(endpoint: string, send: HttpRequest -> Outcome, ghost fuel: nat) returns (output: Result<seq<Value>, Fault>)
      requires Walk(Pages(baseUrl, session.headers, send), endpoint, fuel).Some?
      ensures Some(output) == Walk(Pages(baseUrl, session.headers, send), endpoint, fuel)
    {
      output := Paginate(Pages(baseUrl, session.headers, send), endpoint, fuel);
    }
  }

  /** The loop of `get_paginated` over the pages it reads. */
  method Paginate(pages: string -> PageStep, endpoint: string, ghost fuel: nat) returns (output: Result<seq<Value>, Fault>)
    requires Walk(pages, endpoint, fuel).Some?
    ensures Some(output) == Walk(pages, endpoint, fuel)
  {
    ghost var goal := Walk(pages, endpoint, fuel);
    var nextPage := endpoint;
    var more := true;
    var items: seq<Value> := [];
    ghost var k := fuel;
    PrependNil(goal);
    while more
      invariant more ==> Walk(pages, nextPage, k).Some? && goal == Prepend(items, Walk(pages, nextPage, k))
      invariant !more ==> goal == Some(Success(items))
      decreases if more then k + 1 else 0
    {
      var step := pages(nextPage);
      WalkAdvance(pages, items, nextPage, k);
      match step {
        case Broken(e) =>
          return Failure(e);
        case NoData =>
          return Failure(KeyError("data"));
        case Last(data) =>
          items := Extend(items, data);
          more := false;
        case More(data, next) =>
          items := Extend(items, data);
          nextPage := next;
      }
      k := k - 1;
    }
    return Success(items);
  }

  /** `for data in page: output.append(data)`. */
  method Extend(output: seq<Value>, page: seq<Value>) returns (r: seq<Value>)
    ensures r == output + page
  {
    r := output;
    var i := 0;
    while i < |page|
      invariant 0 <= i <= |page|
      invariant r == output + page[..i]
    {
      r := r + [page[i]];
      i := i + 1;
    }
    assert page[..i] == page;
  }
}
