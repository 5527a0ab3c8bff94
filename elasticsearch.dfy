/**
 * CloudOps.Operations.ElasticsearchServiceDescribeReservedElasticsearchInstanceOfferingsOperation: the descriptor constants and the paginated `Invoke`
 * over `ReservedElasticsearchInstanceOfferings`, an instance of Paging.Operation.Paginate.
 */
module ElasticsearchServiceDescribeReservedElasticsearchInstanceOfferings {
  import opened Wrappers
  import opened Paging

  const Name := "DescribeReservedElasticsearchInstanceOfferings"
  const Description := "Lists available reserved Elasticsearch instance offerings."
  const RequestURI := "/2015-01-01/es/reservedInstanceOfferings"
  const Method := "GET"
  const ServiceName := "ElasticsearchService"
  const ServiceID := "Elasticsearch Service"

  /** The request property that carries the page size. */
  const PageSizeProperty := MaxResults

  /** One ReservedElasticsearchInstanceOffering of the SDK model, identified by its reservedElasticsearchInstanceOfferingId. */
  datatype ReservedElasticsearchInstanceOffering = ReservedElasticsearchInstanceOffering(reservedElasticsearchInstanceOfferingId: string)

  /** DescribeReservedElasticsearchInstanceOfferingsResponse: the result collection, the continuation token and the HTTP status. */
  datatype Response = Response(reservedElasticsearchInstanceOfferings: seq<ReservedElasticsearchInstanceOffering>, nextToken: Option<string>, httpStatusCode: string)

  /** A response, seen through `ReservedElasticsearchInstanceOfferings`. */
  function AsPage(r: Response): Page<ReservedElasticsearchInstanceOffering> {
    Page(r.reservedElasticsearchInstanceOfferings, r.nextToken, r.httpStatusCode)
  }

  /** The SDK call `client.DescribeReservedElasticsearchInstanceOfferings(req)`, seen through `ReservedElasticsearchInstanceOfferings`. */
  function Fetch(sdk: (Client, Request) -> Response): (Client, Request) -> Page<ReservedElasticsearchInstanceOffering> {
    (c: Client, q: Request) => AsPage(sdk(c, q))
  }

  /** The one client of an invocation, built directly from the credentials and the region. */
  function ClientFor(creds: Credentials, region: Region): Client {
    RegionClient(ServiceName, creds, region)
  }

  /** Everything one invocation depends on. */
  function SessionFor(sdk: (Client, Request) -> Response, creds: Credentials, region: Region, maxItems: int): Session<ReservedElasticsearchInstanceOffering> {
    Session(Fetch(sdk), ClientFor(creds, region), PageSizeProperty, maxItems)
  }

  /**
   * `Invoke(creds, region, maxItems)` on the operation object `op`, with the
   * remote service as `sdk`.
   * One client serves every page; every request carries the previous
   * response's token (null at first) and `MaxResults = maxItems`.
   */
  method Invoke(op: Operation<ReservedElasticsearchInstanceOffering>, sdk: (Client, Request) -> Response,
                creds: Credentials, region: Region, maxItems: int)
    returns (outcome: Outcome, ghost calls: seq<Call>, ghost pages: seq<Page<ReservedElasticsearchInstanceOffering>>)
    requires Terminates(SessionFor(sdk, creds, region, maxItems))
    modifies op
    ensures IsRun(SessionFor(sdk, creds, region, maxItems), calls, pages)
    ensures forall i :: 0 <= i < |calls| ==> calls[i].client == ClientFor(creds, region)
    ensures forall i :: 0 <= i < |calls| ==> pages[i] == AsPage(sdk(calls[i].client, calls[i].request))
    ensures calls[0].request.nextToken == None
    ensures forall i :: 0 < i < |calls| ==> calls[i].request.nextToken == pages[i - 1].nextToken
    ensures forall i :: 0 <= i < |calls| ==>
      calls[i].request.maxResults == Some(maxItems) && calls[i].request.pageSize == None
    ensures forall i :: 0 <= i < |pages| - 1 ==>
      pages[i].status == ExpectedStatus && !IsNullOrEmpty(pages[i].nextToken)
    ensures outcome == OutcomeOf(pages[|pages| - 1])
    ensures outcome.Completed? ==> IsNullOrEmpty(pages[|pages| - 1].nextToken)
    ensures op.objects == old(op.objects) + Added(pages)
  {
    var client := RegionClient(ServiceName, creds, region);
    var s := Session(Fetch(sdk), client, PageSizeProperty, maxItems);
    outcome, calls, pages := op.Paginate(s);
    RunRequests(s, calls, pages);
  }
}
