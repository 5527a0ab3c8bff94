/**
 * The `Invoke` loop that every generated operation class repeats, written
 * once over an abstract remote service.
 *
 * The SDK call is a pure oracle `fetch: (Client, Request) -> Page<T>`: the
 * same client and request always give the same page. The base class
 * members that the operation classes call are modelled on assumptions:
 * `AddObject` appends to the operation's object list, and
 * `CheckError(status, "200")` stops the invocation when the page's status
 * is not "200".
 */
module Paging {
  import opened Wrappers

  /** The status CheckError requires of every page. */
  const ExpectedStatus := "200"

  /** Which request field carries the page-size hint `maxItems`. */
  datatype PageSizeField = MaxResults | PageSize

  /** An opaque credentials handle. */
  datatype Credentials = Credentials(accessKeyId: string)

  /** A region endpoint, by its system name. */
  datatype Region = Region(systemName: string)

  /** A service client configuration object (an AmazonXConfig). */
  datatype ClientConfig = ClientConfig(service: string, regionEndpoint: Option<Region>)

  /** An SDK client, built from credentials and either a region or a configuration. */
  datatype Client =
    | RegionClient(service: string, creds: Credentials, region: Region)
    | ConfiguredClient(service: string, creds: Credentials, config: ClientConfig)

  /** A list request: the continuation token and the page-size hint, in one of two fields. */
  datatype Request = Request(nextToken: Option<string>, maxResults: Option<int>, pageSize: Option<int>)

  /** One response, seen through the operation's result collection. */
  datatype Page<T> = Page(items: seq<T>, nextToken: Option<string>, status: string)

  /** One SDK call: which client was used, with which request. */
  datatype Call = Call(client: Client, request: Request)

  /** How an invocation ends: normally, or by CheckError on a page with a bad status. */
  datatype Outcome = Completed | Failed(status: string)

  /** string.IsNullOrEmpty */
  predicate IsNullOrEmpty(token: Option<string>) {
    token == None || token == Some("")
  }

  /** The request the loop body builds from the previous response's token. */
  function NewRequest(field: PageSizeField, token: Option<string>, maxItems: int): Request {
    match field
    case MaxResults => Request(token, Some(maxItems), None)
    case PageSize => Request(token, None, Some(maxItems))
  }

  /** The page-size hint a request carries in `field`. */
  function PageSizeHint(q: Request, field: PageSizeField): Option<int> {
    match field
    case MaxResults => q.maxResults
    case PageSize => q.pageSize
  }

  /** The request field that is not `field`. */
  function OtherField(field: PageSizeField): PageSizeField {
    match field
    case MaxResults => PageSize
    case PageSize => MaxResults
  }

  /** Everything one invocation depends on. */
  datatype Session<T> = Session(
    fetch: (Client, Request) -> Page<T>,
    client: Client,
    field: PageSizeField,
    maxItems: int)

  /**
   * The token the k-th request of the chain carries: that of a freshly
   * constructed response (null) for the first, and the token of the
   * response before it for each later one.
   */
  function TokenAt<T>(s: Session<T>, k: nat): Option<string> {
    if k == 0 then None
    else s.fetch(s.client, NewRequest(s.field, TokenAt(s, k - 1), s.maxItems)).nextToken
  }

  /** The k-th request of the token chain. */
  function RequestAt<T>(s: Session<T>, k: nat): Request {
    NewRequest(s.field, TokenAt(s, k), s.maxItems)
  }

  /** The k-th response of the token chain. */
  function ResponseAt<T>(s: Session<T>, k: nat): Page<T> {
    s.fetch(s.client, RequestAt(s, k))
  }

  /** After this page the loop ends: CheckError fails, or the token is null or empty. */
  predicate Stops<T>(p: Page<T>) {
    p.status != ExpectedStatus || IsNullOrEmpty(p.nextToken)
  }

  /** The remote side eventually ends the token chain. The source has no page ceiling. */
  ghost predicate Terminates<T>(s: Session<T>) {
    exists k: nat :: Stops(ResponseAt(s, k))
  }

  /** The first n responses of the token chain. */
  function Pages<T>(s: Session<T>, n: nat): (r: seq<Page<T>>)
    ensures |r| == n
  {
    if n == 0 then [] else Pages(s, n - 1) + [ResponseAt(s, n - 1)]
  }

  /** The first n SDK calls of the token chain. */
  function Calls<T>(s: Session<T>, n: nat): (r: seq<Call>)
    ensures |r| == n
  {
    if n == 0 then [] else Calls(s, n - 1) + [Call(s.client, RequestAt(s, n - 1))]
  }

  /** The chain prefixes, element by element. */
  lemma {:induction false} ChainAt<T>(s: Session<T>, n: nat)
    ensures forall i :: 0 <= i < n ==> Pages(s, n)[i] == ResponseAt(s, i)
    ensures forall i :: 0 <= i < n ==> Calls(s, n)[i] == Call(s.client, RequestAt(s, i))
  {
    if n > 0 {
      ChainAt(s, n - 1);
    }
  }

  /**
   * `calls` and `pages` are one whole invocation: the token chain up to and
   * including its first stopping page.
   */
  ghost predicate IsRun<T>(s: Session<T>, calls: seq<Call>, pages: seq<Page<T>>) {
    |pages| >= 1 && calls == Calls(s, |pages|) && pages == Pages(s, |pages|) &&
    FirstStop(s, |pages| - 1)
  }

  /** The k-th response is the first one after which the loop ends. */
  ghost predicate FirstStop<T>(s: Session<T>, k: nat) {
    Stops(ResponseAt(s, k)) && forall i :: 0 <= i < k ==> !Stops(ResponseAt(s, i))
  }

  /**
   * One iteration's log entry: the request built from the n-th token is the
   * n-th request of the chain, logging it and its response extends the
   * logged calls and pages by the chain's next entries, and the items the
   * page contributes are its own.
   */
  lemma LogStep<T>(s: Session<T>, n: nat, calls: seq<Call>, pages: seq<Page<T>>, req: Request, resp: Page<T>)
    requires calls == Calls(s, n) && pages == Pages(s, n)
    requires req == NewRequest(s.field, TokenAt(s, n), s.maxItems) && resp == s.fetch(s.client, req)
    ensures calls + [Call(s.client, req)] == Calls(s, n + 1)
    ensures pages + [resp] == Pages(s, n + 1)
    ensures resp == ResponseAt(s, n) && TokenAt(s, n + 1) == resp.nextToken
    ensures Flatten(pages + [resp]) == Flatten(pages) + resp.items
    ensures resp.status == ExpectedStatus ==> Added(pages + [resp]) == Flatten(pages + [resp])
    ensures resp.status != ExpectedStatus ==> Added(pages + [resp]) == Flatten(pages)
  {
    FlattenSnoc(pages, resp);
    AddedSnoc(pages, resp);
  }

  /** A page that does not stop the loop lies before the stopping page `bound`. */
  lemma NoStopStep<T>(s: Session<T>, n: nat, bound: nat)
    requires forall i :: 0 <= i < n ==> !Stops(ResponseAt(s, i))
    requires !Stops(ResponseAt(s, n)) && n <= bound && Stops(ResponseAt(s, bound))
    ensures forall i :: 0 <= i < n + 1 ==> !Stops(ResponseAt(s, i))
    ensures n + 1 <= bound
  {
  }

  /** All items of the pages, page by page, each in its own order. */
  function Flatten<T>(pages: seq<Page<T>>): seq<T> {
    if pages == [] then [] else Flatten(pages[..|pages| - 1]) + pages[|pages| - 1].items
  }

  /** Flattening one more page appends its items. */
  lemma FlattenSnoc<T>(pages: seq<Page<T>>, p: Page<T>)
    ensures Flatten(pages + [p]) == Flatten(pages) + p.items
  {
    assert (pages + [p])[..|pages|] == pages;
  }

  /** What one more page adds: its items when CheckError accepts it, nothing otherwise. */
  lemma AddedSnoc<T>(pages: seq<Page<T>>, p: Page<T>)
    ensures p.status == ExpectedStatus ==> Added(pages + [p]) == Flatten(pages + [p])
    ensures p.status != ExpectedStatus ==> Added(pages + [p]) == Flatten(pages)
  {
    assert (pages + [p])[..|pages|] == pages;
  }

  /** Appending is associative. */
  lemma AppendAssoc<T>(a: seq<T>, b: seq<T>, c: seq<T>)
    ensures (a + b) + c == a + (b + c)
  {
  }

  /** How an invocation whose last page is `last` ends. */
  function OutcomeOf<T>(last: Page<T>): Outcome {
    if last.status == ExpectedStatus then Completed else Failed(last.status)
  }

  /**
   * The objects an invocation adds: every item of every page whose status
   * CheckError accepted, that is, all pages but a failing last one.
   */
  function Added<T>(pages: seq<Page<T>>): seq<T>
    requires pages != []
  {
    if pages[|pages| - 1].status == ExpectedStatus then Flatten(pages) else Flatten(pages[..|pages| - 1])
  }

  /** Flattening distributes over concatenation of page lists. */
  lemma {:induction false} FlattenConcat<T>(a: seq<Page<T>>, b: seq<Page<T>>)
    ensures Flatten(a + b) == Flatten(a) + Flatten(b)
    decreases |b|
  {
    if b == [] {
      assert a + b == a;
    } else {
      var c := b[..|b| - 1];
      assert (a + b)[..|a + b| - 1] == a + c;
      assert (a + b)[|a + b| - 1] == b[|b| - 1];
      FlattenConcat(a, c);
      AppendAssoc(Flatten(a), Flatten(c), b[|b| - 1].items);
    }
  }

  /** The sum of the page sizes. */
  function ItemCount<T>(pages: seq<Page<T>>): nat {
    if pages == [] then 0 else ItemCount(pages[..|pages| - 1]) + |pages[|pages| - 1].items|
  }

  /** Flatten has as many items as the pages together. */
  lemma {:induction false} FlattenLength<T>(pages: seq<Page<T>>)
    ensures |Flatten(pages)| == ItemCount(pages)
    decreases |pages|
  {
    if pages != [] {
      FlattenLength(pages[..|pages| - 1]);
    }
  }

  /**
   * The requests of a run: the first has a null token, each later one the
   * previous response's token, all the same client and the hint `maxItems`
   * in `field` only.
   */
  lemma RunRequests<T>(s: Session<T>, calls: seq<Call>, pages: seq<Page<T>>)
    requires IsRun(s, calls, pages)
    ensures calls[0].request.nextToken == None
    ensures forall i :: 0 < i < |calls| ==> calls[i].request.nextToken == pages[i - 1].nextToken
    ensures forall i :: 0 <= i < |calls| ==> calls[i].client == s.client
    ensures forall i :: 0 <= i < |calls| ==>
      PageSizeHint(calls[i].request, s.field) == Some(s.maxItems) &&
      PageSizeHint(calls[i].request, OtherField(s.field)) == None
    ensures forall i :: 0 <= i < |calls| ==> pages[i] == s.fetch(calls[i].client, calls[i].request)
    ensures forall i :: 0 <= i < |pages| - 1 ==> pages[i].status == ExpectedStatus && !IsNullOrEmpty(pages[i].nextToken)
  {
    ChainAt(s, |pages|);
    forall i | 0 <= i < |calls|
      ensures PageSizeHint(calls[i].request, s.field) == Some(s.maxItems)
      ensures PageSizeHint(calls[i].request, OtherField(s.field)) == None
    {
      assert calls[i].request == RequestAt(s, i);
    }
    forall i | 0 < i < |calls|
      ensures calls[i].request.nextToken == pages[i - 1].nextToken
    {
      assert calls[i].request == RequestAt(s, i);
    }
  }

  /**
   * An invocation is determined by its session: a second one against the
   * same deterministic remote makes the same calls, sees the same pages and
   * so adds the same objects in the same order.
   */
  lemma RunUnique<T>(s: Session<T>, calls1: seq<Call>, pages1: seq<Page<T>>,
                     calls2: seq<Call>, pages2: seq<Page<T>>)
    requires IsRun(s, calls1, pages1) && IsRun(s, calls2, pages2)
    ensures calls1 == calls2 && pages1 == pages2
  {
    ChainAt(s, |pages1|);
    ChainAt(s, |pages2|);
  }

  /** The base class of every operation: the objects its invocations have added. */
  class Operation<T> {
    var objects: seq<T>

    constructor ()
      ensures objects == []
    {
      objects := [];
    }

    /** Appends one result object. */
    method AddObject(obj: T)
      modifies this
      ensures objects == old(objects) + [obj]
    {
      objects := objects + [obj];
    }

    /** `foreach (var obj in items) AddObject(obj)`. */
    method AddObjects(items: seq<T>)
      modifies this
      ensures objects == old(objects) + items
    {
      ghost var before := objects;
      for k := 0 to |items|
        invariant objects == before + items[..k]
      {
        AddObject(items[k]);
      }
      assert items[..|items|] == items;
    }

    /**
     * The generated `Invoke` loop. It sends a request carrying the previous
     * response's token (null at first) and the hint `maxItems`, checks the
     * status, appends the page's items, and continues while the token is
     * neither null nor empty. Earlier pages' objects stay added when a later
     * page fails. The ghost outputs log each call and its page as the loop
     * makes them.
     */
    method Paginate(s: Session<T>) returns (outcome: Outcome, ghost calls: seq<Call>, ghost pages: seq<Page<T>>)
      requires Terminates(s)
      modifies this
      ensures IsRun(s, calls, pages)
      ensures outcome == OutcomeOf(pages[|pages| - 1])
      ensures outcome.Completed? ==> IsNullOrEmpty(pages[|pages| - 1].nextToken)
      ensures objects == old(objects) + Added(pages)
    {
      ghost var bound: nat :| Stops(ResponseAt(s, bound));
      ghost var n: nat := 0;  // pages fetched so far
      calls, pages := [], [];
      var token: Option<string> := None;  // the NextToken of a freshly constructed response
      while true
        invariant token == TokenAt(s, n) && n <= bound
        invariant calls == Calls(s, n) && pages == Pages(s, n)
        invariant forall i :: 0 <= i < n ==> !Stops(ResponseAt(s, i))
        invariant objects == old(objects) + Flatten(pages)
        decreases bound - n
      {
        var req := NewRequest(s.field, token, s.maxItems);
        var resp := s.fetch(s.client, req);
        LogStep(s, n, calls, pages, req, resp);
        ghost var before := pages;
        calls, pages := calls + [Call(s.client, req)], pages + [resp];
        n := n + 1;
        if resp.status != ExpectedStatus {
          // CheckError(resp.HttpStatusCode, "200") throws before any item of this page is added.
          outcome := Failed(resp.status);
          break;
        }
        AddObjects(resp.items);
        AppendAssoc(old(objects), Flatten(before), resp.items);
        token := resp.nextToken;
        if IsNullOrEmpty(token) {
          outcome := Completed;
          break;
        }
        NoStopStep(s, n - 1, bound);
      }
    }
  }

  /** A run ends at the first page that stops the loop, so its length is fixed by the token chain. */
  lemma RunEndsAtFirstStop<T>(s: Session<T>, calls: seq<Call>, pages: seq<Page<T>>, k: nat)
    requires IsRun(s, calls, pages) && FirstStop(s, k)
    ensures |pages| == k + 1 && |calls| == k + 1
  {
    var last := |pages| - 1;
    assert Stops(ResponseAt(s, last)) && Stops(ResponseAt(s, k));
  }

  /** A remote side serving ["A", "B"] with "t1", then an empty page with "t2", then ["C"] with an empty token. */
  function ThreePageServer(c: Client, q: Request): Page<string> {
    if q.nextToken == None then Page(["A", "B"], Some("t1"), "200")
    else if q.nextToken == Some("t1") then Page([], Some("t2"), "200")
    else Page(["C"], Some(""), "200")
  }

  /** A session against ThreePageServer with MaxResults = 50. */
  function ThreePageSession(): Session<string> {
    Session(ThreePageServer, RegionClient("svc", Credentials("key"), Region("us-east-1")), MaxResults, 50)
  }

  /** The token chain of ThreePageSession: only its third page stops the loop, and the three pages hold A, B, C. */
  lemma ThreePageChain()
    ensures FirstStop(ThreePageSession(), 2)
    ensures Pages(ThreePageSession(), 3)[0].nextToken == Some("t1")
    ensures Pages(ThreePageSession(), 3)[1].nextToken == Some("t2")
    ensures Added(Pages(ThreePageSession(), 3)) == ["A", "B", "C"]
  {
    var s := ThreePageSession();
    var p0, p1, p2 := ResponseAt(s, 0), ResponseAt(s, 1), ResponseAt(s, 2);
    assert p0 == Page(["A", "B"], Some("t1"), "200");
    assert p1 == Page([], Some("t2"), "200");
    assert p2 == Page(["C"], Some(""), "200");
    assert Pages(s, 3) == [p0, p1, p2] by {
      ChainAt(s, 3);
    }
    FlattenSnoc([p0], p1);
    FlattenSnoc([p0, p1], p2);
    assert [p0] + [p1] == [p0, p1] && [p0, p1] + [p2] == [p0, p1, p2];
  }

  /**
   * Three pages, the middle one empty: an empty page with a token does not
   * end the loop, every page's items arrive in order, and the empty token
   * of the last page ends it.
   */
  method ThreePageScenario() returns (objects: seq<string>, outcome: Outcome, ghost calls: seq<Call>)
    ensures objects == ["A", "B", "C"] && outcome == Completed
    ensures |calls| == 3 && calls[0].request.nextToken == None
    ensures calls[1].request.nextToken == Some("t1") && calls[2].request.nextToken == Some("t2")
    ensures forall i :: 0 <= i < 3 ==> calls[i].request.maxResults == Some(50) && calls[i].request.pageSize == None
  {
    var s := ThreePageSession();
    ThreePageChain();
    var op := new Operation<string>();
    ghost var pages;
    outcome, calls, pages := op.Paginate(s);
    RunEndsAtFirstStop(s, calls, pages, 2);
    RunRequests(s, calls, pages);
    objects := op.objects;
  }

  /** A remote side serving ["A", "B"] with "t1", then a page with status "500". */
  function FailureServer(c: Client, q: Request): Page<string> {
    if q.nextToken == None then Page(["A", "B"], Some("t1"), "200")
    else Page(["X"], Some("t2"), "500")
  }

  /** A session against FailureServer with PageSize = 10. */
  function FailureSession(): Session<string> {
    Session(FailureServer, RegionClient("svc", Credentials("key"), Region("us-east-1")), PageSize, 10)
  }

  /** The token chain of FailureSession: its second page stops the loop with "500", and only the first page's items count. */
  lemma FailureChain()
    ensures FirstStop(FailureSession(), 1)
    ensures Pages(FailureSession(), 2)[0].nextToken == Some("t1")
    ensures Pages(FailureSession(), 2)[1].status == "500"
    ensures Added(Pages(FailureSession(), 2)) == ["A", "B"]
  {
    var s := FailureSession();
    var p0, p1 := ResponseAt(s, 0), ResponseAt(s, 1);
    assert p0 == Page(["A", "B"], Some("t1"), "200");
    assert p1 == Page(["X"], Some("t2"), "500");
    assert Pages(s, 2) == [p0, p1] by {
      ChainAt(s, 2);
    }
    assert [p0, p1][..1] == [p0];
    FlattenSnoc([], p0);
    assert [] + [p0] == [p0];
  }

  /**
   * A failing second page: CheckError ends the invocation with that page's
   * status, its items are not added, and the first page's items stay added.
   */
  method FailureScenario() returns (objects: seq<string>, outcome: Outcome, ghost calls: seq<Call>)
    ensures objects == ["A", "B"] && outcome == Failed("500")
    ensures |calls| == 2 && calls[1].request.nextToken == Some("t1")
  {
    var s := FailureSession();
    FailureChain();
    var op := new Operation<string>();
    ghost var pages;
    outcome, calls, pages := op.Paginate(s);
    RunEndsAtFirstStop(s, calls, pages, 1);
    RunRequests(s, calls, pages);
    objects := op.objects;
  }
}
