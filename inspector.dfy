/**
 * CloudOps.Inspector.ListAssessmentTargetsOperation: the descriptor constants and the paginated `Invoke`
 * over `AssessmentTargetArns`, an instance of Paging.Operation.Paginate.
 */
module InspectorListAssessmentTargets {
  import opened Wrappers
  import opened Paging

  const Name := "ListAssessmentTargets"
  const Description := "Lists the ARNs of the assessment targets within this AWS account. For more information about assessment targets, see Amazon Inspector Assessment Targets."
  const RequestURI := "/"
  const Method := "POST"
  const ServiceName := "Inspector"
  const ServiceID := "Inspector"

  /** The request property that carries the page size. */
  const PageSizeProperty := MaxResults

  /** ListAssessmentTargetsResponse: the result collection, the continuation token and the HTTP status. */
  datatype Response = Response(assessmentTargetArns: seq<string>, nextToken: Option<string>, httpStatusCode: string)

  /** A response, seen through `AssessmentTargetArns`. */
  function AsPage(r: Response): Page<string> {
    Page(r.assessmentTargetArns, r.nextToken, r.httpStatusCode)
  }

  /** The SDK call `client.ListAssessmentTargets(req)`, seen through `AssessmentTargetArns`. */
  function Fetch(sdk: (Client, Request) -> Response): (Client, Request) -> Page<string> {
    (c: Client, q: Request) => AsPage(sdk(c, q))
  }

  /**
   * The one client of an invocation: built from the credentials and a
   * configuration whose region is set and which ConfigureClient then saw once.
   */
  function ClientFor(configure: ClientConfig -> ClientConfig, creds: Credentials, region: Region): Client {
    ConfiguredClient(ServiceName, creds, configure(ClientConfig(ServiceName, Some(region))))
  }

  /** Everything one invocation depends on. */
  function SessionFor(sdk: (Client, Request) -> Response, configure: ClientConfig -> ClientConfig, creds: Credentials, region: Region, maxItems: int): Session<string> {
    Session(Fetch(sdk), ClientFor(configure, creds, region), PageSizeProperty, maxItems)
  }

  /**
   * `Invoke(creds, region, maxItems)` on the operation object `op`, with the
   * remote service as `sdk` and ConfigureClient as `configure`.
   * One client serves every page; every request carries the previous
   * response's token (null at first) and `MaxResults = maxItems`.
   */
  method Invoke(op: Operation<string>, sdk: (Client, Request) -> Response,
                configure: ClientConfig -> ClientConfig, creds: Credentials, region: Region, maxItems: int)
    returns (outcome: Outcome, ghost calls: seq<Call>, ghost pages: seq<Page<string>>)
    requires Terminates(SessionFor(sdk, configure, creds, region, maxItems))
    modifies op
    ensures IsRun(SessionFor(sdk, configure, creds, region, maxItems), calls, pages)
    ensures forall i :: 0 <= i < |calls| ==> calls[i].client == ClientFor(configure, creds, region)
    ensures forall i :: 0 <= i < |calls| ==> pages[i] == AsPage(sdk(calls[i].client, calls[i].request))
    ensures calls[0].request.nextToken == None
    ensures forall i :: 0 < i < |calls| ==> calls[i].request.nextToken == pages[i - 1].nextToken
    ensures forall i :: 0 <= i < |calls| ==>
      calls[i].request.maxResults == Some(maxItems) && calls[i].request.pageSize == None
    ensures forall i :: 0 <= i < |pages| - 1 ==>
      pages[i].status == ExpectedStatus && !IsNullOrEmpty(pages[i].nextToken)
    ensures outcome == OutcomeOf(pages[|pages| - 1])
    ensures outcome.Completed? ==> IsNullOrEmpty(pages[|pages| - 1].nextToken)
    ensures op.objects == old(op.objects) + Added(pages)
  {
    var config := ClientConfig(ServiceName, None);
    config := config.(regionEndpoint := Some(region));
    config := configure(config);
    var client := ConfiguredClient(ServiceName, creds, config);
    var s := Session(Fetch(sdk), client, PageSizeProperty, maxItems);
    outcome, calls, pages := op.Paginate(s);
    RunRequests(s, calls, pages);
  }
}
