/**
 * CloudOps.SageMaker.ListHyperParameterTuningJobsOperation: the descriptor constants and the paginated `Invoke`
 * over `HyperParameterTuningJobSummaries`, an instance of Paging.Operation.Paginate.
 */
module SageMakerListHyperParameterTuningJobs {
  import opened Wrappers
  import opened Paging

  const Name := "ListHyperParameterTuningJobs"
  const Description := "Gets a list of HyperParameterTuningJobSummary objects that describe the hyperparameter tuning jobs launched in your account."
  const RequestURI := "/"
  const Method := "POST"
  const ServiceName := "SageMaker"
  const ServiceID := "SageMaker"

  /** The request property that carries the page size. */
  const PageSizeProperty := MaxResults

  /** One HyperParameterTuningJobSummary of the SDK model, identified by its hyperParameterTuningJobName. */
  datatype HyperParameterTuningJobSummary = HyperParameterTuningJobSummary(hyperParameterTuningJobName: string)

  /** ListHyperParameterTuningJobsResponse: the result collection, the continuation token and the HTTP status. */
  datatype Response = Response(hyperParameterTuningJobSummaries: seq<HyperParameterTuningJobSummary>, nextToken: Option<string>, httpStatusCode: string)

  /** A response, seen through `HyperParameterTuningJobSummaries`. */
  function AsPage(r: Response): Page<HyperParameterTuningJobSummary> {
    Page(r.hyperParameterTuningJobSummaries, r.nextToken, r.httpStatusCode)
  }

  /** The SDK call `client.ListHyperParameterTuningJobs(req)`, seen through `HyperParameterTuningJobSummaries`. */
  function Fetch(sdk: (Client, Request) -> Response): (Client, Request) -> Page<HyperParameterTuningJobSummary> {
    (c: Client, q: Request) => AsPage(sdk(c, q))
  }

  /**
   * The one client of an invocation: built from the credentials and a
   * configuration whose region is set and which ConfigureClient then saw once.
   */
  function ClientFor(configure: ClientConfig -> ClientConfig, creds: Credentials, region: Region): Client {
    ConfiguredClient(ServiceName, creds, configure(ClientConfig(ServiceName, Some(region))))
  }

  /** Everything one invocation depends on. */
  function SessionFor(sdk: (Client, Request) -> Response, configure: ClientConfig -> ClientConfig, creds: Credentials, region: Region, maxItems: int): Session<HyperParameterTuningJobSummary> {
    Session(Fetch(sdk), ClientFor(configure, creds, region), PageSizeProperty, maxItems)
  }

  /**
   * `Invoke(creds, region, maxItems)` on the operation object `op`, with the
   * remote service as `sdk` and ConfigureClient as `configure`.
   * One client serves every page; every request carries the previous
   * response's token (null at first) and `MaxResults = maxItems`.
   */
  method Invoke(op: Operation<HyperParameterTuningJobSummary>, sdk: (Client, Request) -> Response,
                configure: ClientConfig -> ClientConfig, creds: Credentials, region: Region, maxItems: int)
    returns (outcome: Outcome, ghost calls: seq<Call>, ghost pages: seq<Page<HyperParameterTuningJobSummary>>)
    requires Terminates(SessionFor(sdk, configure, creds, region, maxItems))
    modifies op
    ensures IsRun(SessionFor(sdk, configure, creds, region, maxItems), calls, pages)
    ensures forall i :: 0 <= i < |calls| ==> calls[i].client == ClientFor(configure, creds, region)
    ensures forall i :: 0 <= i < |calls| ==> pages[i] == AsPage(sdk(calls[i].client, calls[i].request))
    ensures calls[0].request.nextToken == None
    ensures forall i :: 0 < i < |calls| ==> calls[i].request.nextToken == pages[i - 1].nextToken
    ensures forall i :: 0 <= i < |calls| ==>
      calls[i].request.maxResults == Some(maxItems) && calls[i].request.pageSize == None
    ensures forall i :: 0 <= i < |pages| - 1 ==>
      pages[i].status == ExpectedStatus && !IsNullOrEmpty(pages[i].nextToken)
    ensures outcome == OutcomeOf(pages[|pages| - 1])
    ensures outcome.Completed? ==> IsNullOrEmpty(pages[|pages| - 1].nextToken)
    ensures op.objects == old(op.objects) + Added(pages)
  {
    var config := ClientConfig(ServiceName, None);
    config := config.(regionEndpoint := Some(region));
    config := configure(config);
    var client := ConfiguredClient(ServiceName, creds, config);
    var s := Session(Fetch(sdk), client, PageSizeProperty, maxItems);
    outcome, calls, pages := op.Paginate(s);
    RunRequests(s, calls, pages);
  }
}
