/**
 * CloudOps.PinpointEmail.GetDedicatedIpsOperation: the descriptor constants and the paginated `Invoke`
 * over `DedicatedIps`, an instance of Paging.Operation.Paginate.
 */
module PinpointEmailGetDedicatedIps {
  import opened Wrappers
  import opened Paging

  const Name := "GetDedicatedIps"
  const Description := "List the dedicated IP addresses that are associated with your Amazon Pinpoint account."
  const RequestURI := "/v1/email/dedicated-ips"
  const Method := "GET"
  const ServiceName := "PinpointEmail"
  const ServiceID := "Pinpoint Email"

  /** The request property that carries the page size. */
  const PageSizeProperty := PageSize

  /** One DedicatedIp of the SDK model, identified by its ip. */
  datatype DedicatedIp = DedicatedIp(ip: string)

  /** GetDedicatedIpsResponse: the result collection, the continuation token and the HTTP status. */
  datatype Response = Response(dedicatedIps: seq<DedicatedIp>, nextToken: Option<string>, httpStatusCode: string)

  /** A response, seen through `DedicatedIps`. */
  function AsPage(r: Response): Page<DedicatedIp> {
    Page(r.dedicatedIps, r.nextToken, r.httpStatusCode)
  }

  /** The SDK call `client.GetDedicatedIps(req)`, seen through `DedicatedIps`. */
  function Fetch(sdk: (Client, Request) -> Response): (Client, Request) -> Page<DedicatedIp> {
    (c: Client, q: Request) => AsPage(sdk(c, q))
  }

  /**
   * The one client of an invocation: built from the credentials and a
   * configuration whose region is set and which ConfigureClient then saw once.
   */
  function ClientFor(configure: ClientConfig -> ClientConfig, creds: Credentials, region: Region): Client {
    ConfiguredClient(ServiceName, creds, configure(ClientConfig(ServiceName, Some(region))))
  }

  /** Everything one invocation depends on. */
  function SessionFor(sdk: (Client, Request) -> Response, configure: ClientConfig -> ClientConfig, creds: Credentials, region: Region, maxItems: int): Session<DedicatedIp> {
    Session(Fetch(sdk), ClientFor(configure, creds, region), PageSizeProperty, maxItems)
  }

  /**
   * `Invoke(creds, region, maxItems)` on the operation object `op`, with the
   * remote service as `sdk` and ConfigureClient as `configure`.
   * One client serves every page; every request carries the previous
   * response's token (null at first) and `PageSize = maxItems`.
   */
  method Invoke(op: Operation<DedicatedIp>, sdk: (Client, Request) -> Response,
                configure: ClientConfig -> ClientConfig, creds: Credentials, region: Region, maxItems: int)
    returns (outcome: Outcome, ghost calls: seq<Call>, ghost pages: seq<Page<DedicatedIp>>)
    requires Terminates(SessionFor(sdk, configure, creds, region, maxItems))
    modifies op
    ensures IsRun(SessionFor(sdk, configure, creds, region, maxItems), calls, pages)
    ensures forall i :: 0 <= i < |calls| ==> calls[i].client == ClientFor(configure, creds, region)
    ensures forall i :: 0 <= i < |calls| ==> pages[i] == AsPage(sdk(calls[i].client, calls[i].request))
    ensures calls[0].request.nextToken == None
    ensures forall i :: 0 < i < |calls| ==> calls[i].request.nextToken == pages[i - 1].nextToken
    ensures forall i :: 0 <= i < |calls| ==>
      calls[i].request.pageSize == Some(maxItems) && calls[i].request.maxResults == None
    ensures forall i :: 0 <= i < |pages| - 1 ==>
      pages[i].status == ExpectedStatus && !IsNullOrEmpty(pages[i].nextToken)
    ensures outcome == OutcomeOf(pages[|pages| - 1])
    ensures outcome.Completed? ==> IsNullOrEmpty(pages[|pages| - 1].nextToken)
    ensures op.objects == old(op.objects) + Added(pages)
  {
    var config := ClientConfig(ServiceName, None);
    config := config.(regionEndpoint := Some(region));
    config := configure(config);
    var client := ConfiguredClient(ServiceName, creds, config);
    var s := Session(Fetch(sdk), client, PageSizeProperty, maxItems);
    outcome, calls, pages := op.Paginate(s);
    RunRequests(s, calls, pages);
  }
}
