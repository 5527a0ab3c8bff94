# AWSRetriever: generator naming rules and the paginated `Invoke` loop

AWSRetriever lists the resources of an AWS account by calling many paginated
"list"/"describe" operations of the AWS SDK for .NET, one C# class per
operation. The classes under `CloudOps/Generated/` are produced by a Go code
generator. The Elasticsearch operation sits under `CloudOps/Operations/`; it
runs the same loop but builds its client directly from `(creds, region)`. This project models two parts of the repository in Dafny.

* **The generator's model of a service** (`generator/service.go`, in
  `generator.dfy`). It covers:
  * how the SDK service name is derived: camel-casing, removal of "AWS" and
    "Amazon", and the alias table;
  * the client, config, class and file names;
  * the fallback chains that guess the SDK request and response class names
    against the set of known classes;
  * how a pagination block gets its result keys.

  `strcase.ToCamel` is a parameter `toCamel: string -> string`. The class set
  consulted by `Classes.Has` is a `set<string>`. `fmt.Sprintf("%v", v)` of a
  dynamic JSON value is a parameter `show`. The Go `strings` functions the
  generator calls are modelled in `go_strings.dfy`: `HasPrefix`, `HasSuffix`,
  and `Replace` with counts 1 and -1. `Index` there is the leftmost search
  that `Replace` performs; the generator does not call it directly.
* **The paginated `Invoke` loop** that every operation class repeats. It is
  written once in `paging.dfy`, as `Paging.Operation.Paginate`, over an
  abstract remote service `fetch: (Client, Request) -> Page<T>`. The base
  class's object list is the field `objects`.
  * The five operation files are modelled in `elasticsearch.dfy`,
    `sagemaker.dfy`, `inspector.dfy`, `appstream.dfy` and
    `pinpoint_email.dfy`.
  * Each instantiation fixes the descriptor constants (`Name`, `Description`,
    `RequestURI`, `Method`, `ServiceName`, `ServiceID`), the request field that
    carries the page size (`MaxResults`, or `PageSize` for Pinpoint Email),
    the result collection, and how the client is built.
  * The Elasticsearch client is built directly from credentials and region.
    The others build a config, set its region, and pass it to
    `ConfigureClient` once.

The loop's behaviour is stated over the *token chain* of a session.
* The k-th request carries the token of the (k-1)-th response, and the first
  request carries null.
* `IsRun(s, calls, pages)` says that the calls and pages are this chain up to
  and including its first page that stops the loop.
* A page stops the loop when its status is not "200" or its token is null or
  empty.

Two assumptions are made about the base class, which is not part of this
model:
* `AddObject` appends to the object list.
* `CheckError(status, "200")` ends the invocation, with that status, before
  any item of the page is added.

## Model

| member | source | states |
|---|---|---|
| Generator.Service.HasPagination | generator/service.go:44-51 | true exactly when some operation of the service has a non-nil pagination |
| Generator.Service.ServiceName | generator/service.go:54-85 | ToCamel of the abbreviation when it is non-empty, otherwise of the full name, then normalised |
| Generator.NormalizeServiceName | generator/service.go:61-84 | the result is an alias or no longer than the input; a stripped name outside the alias table is returned unchanged |
| Generator.Alias | generator/service.go:63-84 | a name in the nine-entry alias table maps to its SDK name; every other name is returned unchanged |
| Generator.StripVendor | generator/service.go:61-62 | removing "AWS" then "Amazon" never lengthens the name |
| Generator.NormalizePlainName | generator/service.go:61-84 | a name with neither vendor word and no alias is kept as it is |
| Generator.NormalizeDropsAWS | generator/service.go:61-84 | a leading "AWS" is removed before the alias table applies |
| Generator.NormalizeDropsAmazon | generator/service.go:61-84 | a leading "Amazon" is removed before the alias table applies, and the "AWS" pass cannot match inside it |
| Generator.NormalizeHealth | generator/service.go:61-67 | "AWSHealth" is stripped to "Health" and mapped back to "AWSHealth" |
| Generator.Service.ClientClassName | generator/service.go:88-90 | "Amazon" + ServiceName + "Client": the prefix, the suffix, the length, and ServiceName recoverable from the middle |
| Generator.Service.ConfigClassName | generator/service.go:93-95 | "Amazon" + ServiceName + "Config": the prefix, the suffix, the length, and ServiceName recoverable from the middle |
| Generator.Service.NewOperation | generator/service.go:98-105 | a fresh operation with the given name, this service as parent and every other field empty, appended at the end; the earlier operations are unchanged |
| Generator.Service.ShapeRequiredParams | generator/service.go:108-122 | a non-empty result is the printed "required" entry of an object shape and is not "[]"; an empty result means there is no object shape, no "required" entry, or it prints as "" or "[]" |
| Generator.Operation.ClassName | generator/service.go:130-132 | ends in "Operation", and the operation name is what precedes it |
| Generator.Operation.FileName | generator/service.go:125-127 | ends in ".cs", and ClassName is what precedes it |
| Generator.Operation.RequestClassName | generator/service.go:135-167 | a success names a known class, and an error comes only when no candidate is known; a known declared class is returned unchanged; the field becomes the operation name exactly when it was empty and "" is not known |
| Generator.RequestChoiceResolves | generator/service.go:135-167 | the step-by-step choice equals the first known candidate of the six-step chain, else the "No request class found" error |
| Generator.RequestCandidates | generator/service.go:139-163 | six candidates: the declared class first, then `name + "Request"` and `name + "sRequest"` last |
| Generator.RequestCandidatesSuffix | generator/service.go:150-152 | the fourth candidate ends in "Request"; the suffix is added only when it is missing |
| Generator.Operation.ResponseClassName | generator/service.go:170-209 | a success names a known class, and an error comes only when no candidate is known; a known declared class is returned unchanged |
| Generator.ResponseChoiceResolves | generator/service.go:170-209 | the step-by-step choice equals the first known candidate of the eight-step chain, else the "No response class found" error |
| Generator.ResponseCandidates | generator/service.go:171-207 | eight candidates: the declared class first, then `name + "Response"` and `name + "sResponse"` last |
| Generator.ResponseCandidatesDescribe | generator/service.go:186-196 | "Describe" is prepended exactly when the operation name starts with it and the candidate does not; the next candidate ends in "Response" |
| Generator.FirstKnown | generator/service.go:135-209 | None exactly when no candidate is known; otherwise a known candidate with no known candidate before it |
| Generator.Resolve | generator/service.go:135-209 | Ok only with a known class; Err, carrying the given message, exactly when no candidate is known; a known first candidate wins |
| Generator.Pagination.SetResultKeys | generator/service.go:212-225 | resets the keys: ToCamel of each element, in order, for a string list; one key for a string; none otherwise |
| Generator.Pagination.EnsureResultKey | generator/service.go:228-249 | non-empty keys stay as they are; otherwise the keys are, as a multiset, ToCamel of the response-shape members outside the 11 pagination names |
| Generator.CamelImageRemove | generator/service.go:232-246 | the camel-cased image of a member set does not depend on the order in which members are visited |
| GoStrings.IndexSpec | generator/service.go:142 | the leftmost search inside strings.Replace finds the first occurrence, and reports none exactly when there is none |
| GoStrings.ReplaceFirstSpec | generator/service.go:142-146 | strings.Replace with count 1 replaces exactly the leftmost occurrence, or leaves the string alone |
| GoStrings.ReplaceAllIsScan | generator/service.go:61-62 | strings.Replace with count -1 agrees with a left-to-right, character-by-character replacement scan |
| GoStrings.ReplaceAllAbsent | generator/service.go:61-62 | a name without the pattern is left unchanged |
| GoStrings.ReplaceAllSinglePass | generator/service.go:61 | removal is one pass: "AAWSWS" becomes "AWS", which still contains the vendor word |
| Paging.Operation.AddObjects | CloudOps/Generated/SageMaker/ListHyperParameterTuningJobsOperation.cs:43-46 | the foreach appends every item of the page, in order |
| Paging.Operation.Paginate | CloudOps/Generated/SageMaker/ListHyperParameterTuningJobsOperation.cs:29-49 | the calls and pages are the token chain up to its first stopping page, so at least one fetch happens; the outcome follows that page's status; a completed run ends on a null or empty token; the objects gain every item of every page that CheckError accepted, in order |
| Paging.RunRequests | CloudOps/Generated/SageMaker/ListHyperParameterTuningJobsOperation.cs:29-40 | in a run, the first request has a null token and each later one the previous response's token; one client throughout; the size hint is in the chosen field only; every page before the last is "200" with a non-empty token |
| Paging.RunEndsAtFirstStop | CloudOps/Generated/SageMaker/ListHyperParameterTuningJobsOperation.cs:30-49 | a run is exactly as long as the token chain up to its first stopping page |
| Paging.RunUnique | CloudOps/Generated/SageMaker/ListHyperParameterTuningJobsOperation.cs:29-49 | two runs against the same session make the same calls and see the same pages |
| Paging.FlattenConcat | CloudOps/Generated/SageMaker/ListHyperParameterTuningJobsOperation.cs:43-49 | the objects of consecutive page lists are the concatenation of their objects |
| Paging.FlattenLength | CloudOps/Generated/SageMaker/ListHyperParameterTuningJobsOperation.cs:43-49 | the number of objects is the sum of the page sizes |
| Paging.ThreePageScenario | CloudOps/Operations/ElasticsearchServiceDescribeReservedElasticsearchInstanceOfferingsOperation.cs:25-45 | three pages, the middle one empty with a token, yield A, B, C after three calls carrying null, "t1", "t2", each with MaxResults = 50 |
| Paging.FailureScenario | CloudOps/Generated/PinpointEmail/GetDedicatedIpsOperation.cs:40-46 | a "500" second page ends the run as Failed("500") after two calls; its items are not added and the first page's stay |
| ElasticsearchServiceDescribeReservedElasticsearchInstanceOfferings.Invoke | CloudOps/Operations/ElasticsearchServiceDescribeReservedElasticsearchInstanceOfferingsOperation.cs:22-46 | one client built from (creds, region) serves every page; a null first token and chained tokens after it; MaxResults = maxItems and no PageSize; the objects are the accepted pages' ReservedElasticsearchInstanceOfferings in order |
| SageMakerListHyperParameterTuningJobs.Invoke | CloudOps/Generated/SageMaker/ListHyperParameterTuningJobsOperation.cs:22-50 | one configured client (region set, ConfigureClient applied once) serves every page; a null first token and chained tokens; MaxResults = maxItems; the objects are the accepted pages' HyperParameterTuningJobSummaries in order |
| InspectorListAssessmentTargets.Invoke | CloudOps/Generated/Inspector/ListAssessmentTargetsOperation.cs:22-50 | one configured client serves every page; a null first token and chained tokens; MaxResults = maxItems; the objects are the accepted pages' AssessmentTargetArns in order |
| AppStreamDescribeImages.Invoke | CloudOps/Generated/AppStream/DescribeImagesOperation.cs:22-50 | one configured client serves every page; a null first token and chained tokens; MaxResults = maxItems; the objects are the accepted pages' Images in order |
| PinpointEmailGetDedicatedIps.Invoke | CloudOps/Generated/PinpointEmail/GetDedicatedIpsOperation.cs:22-50 | one configured client serves every page; a null first token and chained tokens; PageSize = maxItems and no MaxResults; the objects are the accepted pages' DedicatedIps in order |

## Left out

- FormProfiles.cs is not part of this model. It is user-interface code: toolbar, list views and settings controls.
- The AWS SDK's clients, requests, responses, credentials and region endpoints are foreign. A client is a value recording how it was built. The remote service is a deterministic function from (client, request) to page.
- `CheckError`, `AddObject` and `ConfigureClient` live in a base class that is not part of this model.
  - `CheckError` is assumed to stop the invocation on a status other than "200".
  - `AddObject` is assumed to append.
  - `ConfigureClient` is a parameter `configure` applied to the config once.
- Nothing is rolled back when a page fails: the items of the pages before it stay added, as `Added` in Paging.Operation.Paginate states.
- `maxItems` is passed through unchecked. A zero or negative value is not rejected and is sent in every request.
- The exception `CheckError` throws is the `Failed(status)` outcome. Whatever the caller does with it is not modelled.
- `HttpStatusCode` is modelled as its decimal code written as a string, and `CheckError` is assumed to compare that code with "200". How the base class actually compares the status is not part of this model.
- Paging.Operation.Paginate: requires `Terminates(s)`, i.e. some page of the token chain stops the loop. The source has no page ceiling, so an endless token chain, which would loop forever, is excluded rather than modelled.
- Each request datatype is shared. It has both size fields, and an instantiation fills the one its SDK request has.
- The operation classes' inheritance from the base `Operation` class is modelled by passing the operation object `op` to `Invoke`.
- `strcase.ToCamel`, `Classes.Has` and `fmt.Sprintf("%v", …)` are parameters (a function, a set, a function), not implementations.
- Go's `strings.Replace` with an empty pattern (which inserts between characters) is not modelled. No call in the generator passes one.
- Generator.Pagination.EnsureResultKey: requires that an object response shape has an object "members" entry. The source asserts this without checking and would panic otherwise; that panic is not modelled.
- Generator.Pagination.EnsureResultKey: states the keys as a multiset, not a list, because Go's map iteration order is unspecified.
- The generator's struct fields that only carry data are class fields without operations: `ServiceID`, `EndPointPrefix`, `Filename`, `Basefolder`, `Description`, `ResponseCode`, `Method` and `RequestURI`.
