/**
 * The code generator's model of an AWS service description
 * (generator/service.go): how it derives service, client, config, class and
 * file names, how it guesses the SDK's request and response class names, and
 * how it fills a pagination's result keys.
 *
 * Two helpers of the generator are not modelled and are parameters instead:
 * `strcase.ToCamel` is any function `toCamel: string -> string`, and the set
 * of SDK classes that `Classes.Has` consults is a `set<string>`.
 */
module Generator {
  import opened Wrappers
  import opened GoStrings

  /** A value decoded from the JSON API model (a Go `interface{}`). */
  datatype Value =
    | Object(fields: map<string, Value>)   // map[string]interface{}
    | Strings(items: seq<string>)          // []string
    | Text(text: string)                   // string
    | Other                                // any other dynamic type

  /** The service names the generator maps to the SDK's own name. */
  const Aliases: map<string, string> := map[
    "ElasticsearchService" := "Elasticsearch",
    "Health" := "AWSHealth",
    "IAM" := "IdentityManagement",
    "KMS" := "KeyManagementService",
    "SES" := "SimpleEmail",
    "SFN" := "StepFunctions",
    "SMS" := "ServerMigrationService",
    "SNS" := "SimpleNotificationService",
    "SSM" := "SimpleSystemsManagement"
  ]

  /** Response-shape members that are pagination plumbing, never result keys. */
  const PaginationMembers: set<string> := {
    "NextToken", "TotalCount", "Marker", "IsTruncated", "nextToken", "MaxResults",
    "NextPageToken", "NextMarker", "Status", "PageToken", "TotalResultsCount"
  }

  /** The switch at the end of ServiceName: an alias, or the name unchanged. */
  function Alias(name: string): (r: string)
    ensures name in Aliases ==> r == Aliases[name]
    ensures name !in Aliases ==> r == name
  {
    match name
    case "ElasticsearchService" => "Elasticsearch"
    case "Health" => "AWSHealth"
    case "IAM" => "IdentityManagement"
    case "KMS" => "KeyManagementService"
    case "SES" => "SimpleEmail"
    case "SFN" => "StepFunctions"
    case "SMS" => "ServerMigrationService"
    case "SNS" => "SimpleNotificationService"
    case "SSM" => "SimpleSystemsManagement"
    case _ => name
  }

  /** Removes every "AWS", then every "Amazon", from a camel-cased name. */
  function StripVendor(camel: string): (r: string)
    ensures |r| <= |camel|
  {
    ReplaceAll(ReplaceAll(camel, "AWS", ""), "Amazon", "")
  }

  /** The SDK-facing service name for an already camel-cased name. */
  function NormalizeServiceName(camel: string): (r: string)
    ensures r in Aliases.Values || |r| <= |camel|
    ensures StripVendor(camel) !in Aliases ==> r == StripVendor(camel)
  {
    Alias(StripVendor(camel))
  }

  /** A name without either vendor word and without an alias is kept as it is. */
  lemma NormalizePlainName(camel: string)
    requires !Contains(camel, "AWS") && !Contains(camel, "Amazon") && camel !in Aliases
    ensures NormalizeServiceName(camel) == camel
  {
    ReplaceAllAbsent(camel, "AWS", "");
    ReplaceAllAbsent(camel, "Amazon", "");
  }

  /** A leading "AWS" is dropped before the alias table applies. */
  lemma {:induction false} NormalizeDropsAWS(rest: string)
    requires !Contains(rest, "AWS") && !Contains(rest, "Amazon")
    ensures NormalizeServiceName("AWS" + rest) == Alias(rest)
  {
    ReplaceAllLeading("AWS", "", rest);
    ReplaceAllAbsent(rest, "AWS", "");
    ReplaceAllAbsent(rest, "Amazon", "");
    assert "" + rest == rest;
  }

  /** "AWS" does not occur in "Amazon" followed by a name without "AWS": no "W" follows an "A" of "Amazon". */
  lemma {:induction false} NoAWSInAmazonName(rest: string)
    requires !Contains(rest, "AWS")
    ensures !Contains("Amazon" + rest, "AWS")
  {
    var s := "Amazon" + rest;
    assert s[..6] == "Amazon";
    forall i: nat | i <= |s| ensures !OccursAt(s, "AWS", i) {
      if i + 3 <= |s| {
        if i >= 6 {
          assert s[i..i + 3] == rest[i - 6..i - 6 + 3];
          assert !OccursAt(rest, "AWS", i - 6);
        } else if i <= 4 {
          assert s[i + 1] == "Amazon"[i + 1] != 'W';
          assert s[i..i + 3][1] == s[i + 1];
        } else {
          assert s[5] == 'n';
          assert s[i..i + 3][0] == s[5];
        }
      }
    }
  }

  /** A leading "Amazon" is dropped before the alias table applies. */
  lemma {:induction false} NormalizeDropsAmazon(rest: string)
    requires !Contains(rest, "AWS") && !Contains(rest, "Amazon")
    ensures NormalizeServiceName("Amazon" + rest) == Alias(rest)
  {
    NoAWSInAmazonName(rest);
    ReplaceAllAbsent("Amazon" + rest, "AWS", "");
    ReplaceAllLeading("Amazon", "", rest);
    ReplaceAllAbsent(rest, "Amazon", "");
    assert "" + rest == rest;
  }

  /** "Health" maps to "AWSHealth": the alias puts back the vendor word that stripping removed. */
  lemma NormalizeHealth()
    ensures NormalizeServiceName("AWSHealth") == "AWSHealth"
  {
    var h := "Health";
    assert !Contains(h, "AWS") by {
      forall i: nat | i <= |h| ensures !OccursAt(h, "AWS", i) {
        if i + 3 <= |h| {
          assert h[i..i + 3][0] == h[i] != 'A';
        }
      }
    }
    assert !Contains(h, "Amazon") by {
      assert h[0..6][0] != 'A';
    }
    NormalizeDropsAWS(h);
    assert "AWS" + h == "AWSHealth";
  }

  /**
   * Ordered candidate names for the request class, as RequestClassName tries
   * them: the declared class, then (starting from the operation name when
   * none is declared) "Input" and then "Message" turned into "Request",
   * a "Request" suffix, and finally `name + "Request"`, `name + "sRequest"`.
   */
  function RequestCandidates(declared: string, name: string): (r: seq<string>)
    ensures |r| == 6 && r[0] == declared
    ensures r[4] == name + "Request" && r[5] == name + "sRequest"
  {
    var base := if declared == "" then name else declared;
    var c1 := ReplaceFirst(base, "Input", "Request");
    var c2 := ReplaceFirst(c1, "Message", "Request");
    var c3 := if HasSuffix(c2, "Request") then c2 else c2 + "Request";
    [declared, c1, c2, c3, name + "Request", name + "sRequest"]
  }

  /** Ordered candidate names for the response class, as ResponseClassName tries them. */
  function ResponseCandidates(declared: string, name: string): (r: seq<string>)
    ensures |r| == 8 && r[0] == declared
    ensures r[6] == name + "Response" && r[7] == name + "sResponse"
  {
    var c1 := ReplaceFirst(declared, "Output", "Response");
    var c2 := ReplaceFirst(c1, "Result", "Response");
    var c3 := ReplaceFirst(c2, "Message", "Response");
    var c4 := if HasPrefix(name, "Describe") && !HasPrefix(c3, "Describe") then "Describe" + c3 else c3;
    var c5 := if HasSuffix(c4, "Response") then c4 else c4 + "Response";
    [declared, c1, c2, c3, c4, c5, name + "Response", name + "sResponse"]
  }

  /** The fourth request candidate always ends in "Request": the suffix is added only when missing. */
  lemma RequestCandidatesSuffix(declared: string, name: string)
    ensures var r := RequestCandidates(declared, name);
      HasSuffix(r[3], "Request") && (HasSuffix(r[2], "Request") ==> r[3] == r[2])
  {
    var r := RequestCandidates(declared, name);
    if !HasSuffix(r[2], "Request") {
      assert Wrap("", r[2], "Request") == r[3];
    }
  }

  /**
   * The "Describe" rule of ResponseClassName: the prefix is added exactly
   * when the operation name has it and the candidate so far does not; the
   * next candidate always ends in "Response".
   */
  lemma ResponseCandidatesDescribe(declared: string, name: string)
    ensures var r := ResponseCandidates(declared, name);
      (r[4] != r[3] <==> HasPrefix(name, "Describe") && !HasPrefix(r[3], "Describe")) &&
      (r[4] != r[3] ==> r[4] == "Describe" + r[3]) &&
      HasSuffix(r[5], "Response")
  {
    var r := ResponseCandidates(declared, name);
    if r[4] != r[3] {
      assert |r[4]| == |r[3]| + 8;
    }
    if !HasSuffix(r[4], "Response") {
      assert Wrap("", r[4], "Response") == r[5];
    }
  }

  /** The error RequestClassName reports. */
  function RequestError(name: string): string {
    "No request class found for: '" + name + "'"
  }

  /** The error ResponseClassName reports. */
  function ResponseError(name: string): string {
    "No response class found for: '" + name + "'"
  }

  /**
   * The request class name RequestClassName settles on, test by test in
   * the order the generator makes them.
   */
  function RequestChoice(declared: string, name: string, classes: set<string>): Result<string, string>
  {
    if declared in classes then Ok(declared) else
    var base := if declared == "" then name else declared;
    var c1 := ReplaceFirst(base, "Input", "Request");
    if c1 in classes then Ok(c1) else
    var c2 := ReplaceFirst(c1, "Message", "Request");
    if c2 in classes then Ok(c2) else
    var c3 := if HasSuffix(c2, "Request") then c2 else c2 + "Request";
    if c3 in classes then Ok(c3) else
    if name + "Request" in classes then Ok(name + "Request") else
    if name + "sRequest" in classes then Ok(name + "sRequest") else
    Err(RequestError(name))
  }

  /**
   * The response class name ResponseClassName settles on, test by test in
   * the order the generator makes them.
   */
  function ResponseChoice(declared: string, name: string, classes: set<string>): Result<string, string>
  {
    if declared in classes then Ok(declared) else
    var c1 := ReplaceFirst(declared, "Output", "Response");
    if c1 in classes then Ok(c1) else
    var c2 := ReplaceFirst(c1, "Result", "Response");
    if c2 in classes then Ok(c2) else
    var c3 := ReplaceFirst(c2, "Message", "Response");
    if c3 in classes then Ok(c3) else
    var c4 := if HasPrefix(name, "Describe") && !HasPrefix(c3, "Describe") then "Describe" + c3 else c3;
    if c4 in classes then Ok(c4) else
    var c5 := if HasSuffix(c4, "Response") then c4 else c4 + "Response";
    if c5 in classes then Ok(c5) else
    if name + "Response" in classes then Ok(name + "Response") else
    if name + "sResponse" in classes then Ok(name + "sResponse") else
    Err(ResponseError(name))
  }

  /** The first candidate that is a known class, if any. */
  function FirstKnown(candidates: seq<string>, classes: set<string>): (r: Option<string>)
    ensures r.None? <==> forall i :: 0 <= i < |candidates| ==> candidates[i] !in classes
    ensures r.Some? ==> r.value in classes
    ensures r.Some? ==>
      (exists i :: 0 <= i < |candidates| && candidates[i] == r.value &&
        forall j :: 0 <= j < i ==> candidates[j] !in classes)
  {
    if candidates == [] then None
    else if candidates[0] in classes then Some(candidates[0])
    else
      var r := FirstKnown(candidates[1..], classes);
      assert forall i :: 1 <= i < |candidates| ==> candidates[i] == candidates[1..][i - 1];
      r
  }

  /** One test of a fallback chain: the candidate at `i` if it is known, otherwise the rest of the chain. */
  lemma FirstKnownUnfold(candidates: seq<string>, classes: set<string>, i: nat)
    requires i < |candidates|
    ensures FirstKnown(candidates[i..], classes) ==
      if candidates[i] in classes then Some(candidates[i]) else FirstKnown(candidates[i + 1..], classes)
  {
    assert candidates[i..][1..] == candidates[i + 1..];
  }

  /**
   * RequestClassName returns the first of its candidates that is a known
   * class, and fails exactly when none of them is known.
   */
  lemma RequestChoiceResolves(declared: string, name: string, classes: set<string>)
    ensures RequestChoice(declared, name, classes) ==
            Resolve(RequestCandidates(declared, name), classes, RequestError(name))
  {
    var cs := RequestCandidates(declared, name);
    FirstKnownUnfold(cs, classes, 0);
    FirstKnownUnfold(cs, classes, 1);
    FirstKnownUnfold(cs, classes, 2);
    FirstKnownUnfold(cs, classes, 3);
    FirstKnownUnfold(cs, classes, 4);
    FirstKnownUnfold(cs, classes, 5);
    assert cs[0..] == cs;
  }

  /**
   * ResponseClassName returns the first of its candidates that is a known
   * class, and fails exactly when none of them is known.
   */
  lemma ResponseChoiceResolves(declared: string, name: string, classes: set<string>)
    ensures ResponseChoice(declared, name, classes) ==
            Resolve(ResponseCandidates(declared, name), classes, ResponseError(name))
  {
    var cs := ResponseCandidates(declared, name);
    FirstKnownUnfold(cs, classes, 0);
    FirstKnownUnfold(cs, classes, 1);
    FirstKnownUnfold(cs, classes, 2);
    FirstKnownUnfold(cs, classes, 3);
    FirstKnownUnfold(cs, classes, 4);
    FirstKnownUnfold(cs, classes, 5);
    FirstKnownUnfold(cs, classes, 6);
    FirstKnownUnfold(cs, classes, 7);
    assert cs[0..] == cs;
  }

  /** The outcome of a fallback chain: the first known candidate, or the generator's error message. */
  function Resolve(candidates: seq<string>, classes: set<string>, message: string): (r: Result<string, string>)
    ensures r.Ok? ==> r.value in classes
    ensures r.Err? <==> forall i :: 0 <= i < |candidates| ==> candidates[i] !in classes
    ensures r.Err? ==> r.error == message
    ensures candidates != [] && candidates[0] in classes ==> r == Ok(candidates[0])
  {
    match FirstKnown(candidates, classes)
    case Some(c) => Ok(c)
    case None => Err(message)
  }

  /** `prefix + middle + suffix`, the shape of every name the generator formats; the middle stays recoverable. */
  function Wrap(prefix: string, middle: string, suffix: string): (r: string)
    ensures |r| == |prefix| + |middle| + |suffix|
    ensures HasPrefix(r, prefix) && HasSuffix(r, suffix)
    ensures r[|prefix|..|r| - |suffix|] == middle
  {
    var r := prefix + middle + suffix;
    assert r[..|prefix|] == prefix;
    assert r[|r| - |suffix|..] == suffix;
    assert r[|prefix|..|r| - |suffix|] == middle;
    r
  }

  /** The generator's view of one service of the API model. */
  class Service {
    var serviceID: string
    var endPointPrefix: string
    var filename: string
    var basefolder: string
    var abbreviation: string
    var fullName: string
    var operations: seq<Operation>
    var shapes: map<string, Value>

    constructor (serviceID: string, endPointPrefix: string, filename: string, basefolder: string,
                 abbreviation: string, fullName: string, shapes: map<string, Value>)
      ensures this.serviceID == serviceID && this.endPointPrefix == endPointPrefix
      ensures this.filename == filename && this.basefolder == basefolder
      ensures this.abbreviation == abbreviation && this.fullName == fullName
      ensures this.shapes == shapes && operations == []
    {
      this.serviceID := serviceID;
      this.endPointPrefix := endPointPrefix;
      this.filename := filename;
      this.basefolder := basefolder;
      this.abbreviation := abbreviation;
      this.fullName := fullName;
      this.shapes := shapes;
      operations := [];
    }

    /** Whether any operation of the service is paginated. */
    method HasPagination() returns (b: bool)
      ensures b <==> exists i :: 0 <= i < |operations| && operations[i].pagination != null
    {
      for i := 0 to |operations|
        invariant forall j :: 0 <= j < i ==> operations[j].pagination == null
      {
        if operations[i].pagination != null {
          return true;
        }
      }
      return false;
    }

    /** The SDK service name: camel-cased abbreviation (or full name), vendor words removed, aliases applied. */
    function ServiceName(toCamel: string -> string): (r: string)
      reads this
      ensures abbreviation != "" ==> r == NormalizeServiceName(toCamel(abbreviation))
      ensures abbreviation == "" ==> r == NormalizeServiceName(toCamel(fullName))
    {
      var serviceName := if abbreviation != "" then toCamel(abbreviation) else toCamel(fullName);
      Alias(StripVendor(serviceName))
    }

    /** "Amazon" + ServiceName + "Client". */
    function ClientClassName(toCamel: string -> string): (r: string)
      reads this
      ensures HasPrefix(r, "Amazon") && HasSuffix(r, "Client") && |r| == |ServiceName(toCamel)| + 12
      ensures r[6..|r| - 6] == ServiceName(toCamel)
    {
      Wrap("Amazon", ServiceName(toCamel), "Client")
    }

    /** "Amazon" + ServiceName + "Config". */
    function ConfigClassName(toCamel: string -> string): (r: string)
      reads this
      ensures HasPrefix(r, "Amazon") && HasSuffix(r, "Config") && |r| == |ServiceName(toCamel)| + 12
      ensures r[6..|r| - 6] == ServiceName(toCamel)
    {
      Wrap("Amazon", ServiceName(toCamel), "Config")
    }

    /** Appends a new operation named `opName` whose parent is this service. */
    method NewOperation(opName: string) returns (o: Operation)
      modifies this`operations
      ensures fresh(o)
      ensures o.name == opName && o.parent == this && o.pagination == null
      ensures o.description == "" && o.requestClass == "" && o.responseClass == ""
      ensures o.responseCode == "" && o.httpMethod == "" && o.requestURI == ""
      ensures operations == old(operations) + [o]
    {
      o := new Operation(this, opName);
      operations := operations + [o];
    }

    /**
     * The printed "required" list of a shape, or "" when the shape is not an
     * object, has no "required" entry, or prints as "" or "[]". `show` is
     * Go's `fmt.Sprintf("%v", ...)`.
     */
    function ShapeRequiredParams(shape: string, show: Value -> string): (r: string)
      reads this
      ensures r != "" ==>
        shape in shapes && shapes[shape].Object? && "required" in shapes[shape].fields &&
        r == show(shapes[shape].fields["required"]) && r != "[]"
      ensures r == "" ==>
        !(shape in shapes && shapes[shape].Object? && "required" in shapes[shape].fields) ||
        show(shapes[shape].fields["required"]) in {"", "[]"}
    {
      if shape !in shapes || !shapes[shape].Object? then ""
      else
        var m := shapes[shape].fields;
        if "required" !in m then ""
        else
          var pstr := show(m["required"]);
          if pstr == "" || pstr == "[]" then "" else pstr
    }
  }

  /** One API operation of a service. */
  class Operation {
    var parent: Service?
    var name: string
    var description: string
    var requestClass: string
    var responseClass: string
    var responseCode: string
    var httpMethod: string
    var requestURI: string
    var pagination: Pagination?

    constructor (parent: Service?, name: string)
      ensures this.parent == parent && this.name == name && pagination == null
      ensures description == "" && requestClass == "" && responseClass == ""
      ensures responseCode == "" && httpMethod == "" && requestURI == ""
    {
      this.parent := parent;
      this.name := name;
      description, requestClass, responseClass := "", "", "";
      responseCode, httpMethod, requestURI := "", "", "";
      pagination := null;
    }

    /** name + "Operation" */
    function ClassName(): (r: string)
      reads this
      ensures HasSuffix(r, "Operation") && r[..|r| - 9] == name
    {
      Wrap("", name, "Operation")
    }

    /** ClassName() + ".cs" */
    function FileName(): (r: string)
      reads this
      ensures HasSuffix(r, ".cs") && r[..|r| - 3] == ClassName()
    {
      Wrap("", ClassName(), ".cs")
    }

    /**
     * The SDK request class: the first of RequestCandidates that is a known
     * class. An empty declared class that is not itself known is replaced,
     * in the operation, by the operation's name.
     */
    method RequestClassName(classes: set<string>) returns (r: Result<string, string>)
      modifies this`requestClass
      ensures requestClass == if old(requestClass) == "" && "" !in classes then name else old(requestClass)
      ensures r == RequestChoice(old(requestClass), name, classes)
      ensures r == Resolve(RequestCandidates(old(requestClass), name), classes, RequestError(name))
      ensures r.Ok? ==> r.value in classes
      ensures r.Err? <==> forall c :: c in RequestCandidates(old(requestClass), name) ==> c !in classes
      ensures old(requestClass) in classes ==> r == Ok(old(requestClass))
    {
      RequestChoiceResolves(requestClass, name, classes);
      if requestClass in classes {
        return Ok(requestClass);
      }
      if requestClass == "" {
        requestClass := name;
      }
      var res := ReplaceFirst(requestClass, "Input", "Request");
      if res in classes {
        return Ok(res);
      }
      res := ReplaceFirst(res, "Message", "Request");
      if res in classes {
        return Ok(res);
      }
      if !HasSuffix(res, "Request") {
        res := res + "Request";
      }
      if res in classes {
        return Ok(res);
      }
      res := name + "Request";
      if res in classes {
        return Ok(res);
      }
      res := name + "sRequest";
      if res in classes {
        return Ok(res);
      }
      return Err(RequestError(name));
    }

    /** The SDK response class: the first of ResponseCandidates that is a known class. */
    method ResponseClassName(classes: set<string>) returns (r: Result<string, string>)
      ensures r == ResponseChoice(responseClass, name, classes)
      ensures r == Resolve(ResponseCandidates(responseClass, name), classes, ResponseError(name))
      ensures r.Ok? ==> r.value in classes
      ensures r.Err? <==> forall c :: c in ResponseCandidates(responseClass, name) ==> c !in classes
      ensures responseClass in classes ==> r == Ok(responseClass)
    {
      ResponseChoiceResolves(responseClass, name, classes);
      if responseClass in classes {
        return Ok(responseClass);
      }
      var res := ReplaceFirst(responseClass, "Output", "Response");
      if res in classes {
        return Ok(res);
      }
      res := ReplaceFirst(res, "Result", "Response");
      if res in classes {
        return Ok(res);
      }
      res := ReplaceFirst(res, "Message", "Response");
      if res in classes {
        return Ok(res);
      }
      if HasPrefix(name, "Describe") {
        if !HasPrefix(res, "Describe") {
          res := "Describe" + res;
        }
      }
      if res in classes {
        return Ok(res);
      }
      if !HasSuffix(res, "Response") {
        res := res + "Response";
      }
      if res in classes {
        return Ok(res);
      }
      res := name + "Response";
      if res in classes {
        return Ok(res);
      }
      res := name + "sResponse";
      if res in classes {
        return Ok(res);
      }
      return Err(ResponseError(name));
    }
  }

  /** The camel-cased names of a set of members, with their multiplicities (two members may camel-case alike). */
  ghost function CamelImage(members: set<string>, toCamel: string -> string): multiset<string>
  {
    if members == {} then multiset{}
    else
      var m :| m in members;
      CamelImage(members - {m}, toCamel) + multiset{toCamel(m)}
  }

  /** CamelImage does not depend on the order in which members are taken. */
  lemma {:induction false} CamelImageRemove(members: set<string>, toCamel: string -> string, x: string)
    requires x in members
    ensures CamelImage(members, toCamel) == CamelImage(members - {x}, toCamel) + multiset{toCamel(x)}
    decreases |members|
  {
    var m :| m in members && CamelImage(members, toCamel) == CamelImage(members - {m}, toCamel) + multiset{toCamel(m)};
    if m != x {
      CamelImageRemove(members - {m}, toCamel, x);
      CamelImageRemove(members - {x}, toCamel, m);
      assert members - {m} - {x} == members - {x} - {m};
    }
  }

  /** Taking one member out of the remaining ones: its camel-cased name leaves the image unless it is excluded. */
  lemma CamelImageStep(remaining: set<string>, excluded: set<string>, toCamel: string -> string, member: string)
    requires member in remaining
    ensures CamelImage(remaining - excluded, toCamel) ==
      CamelImage(remaining - {member} - excluded, toCamel) +
      (if member in excluded then multiset{} else multiset{toCamel(member)})
  {
    if member !in excluded {
      CamelImageRemove(remaining - excluded, toCamel, member);
      assert remaining - excluded - {member} == remaining - {member} - excluded;
    } else {
      assert remaining - excluded == remaining - {member} - excluded;
    }
  }

  /**
   * The source asserts, without checking, that an object response shape has
   * an object "members" entry; Go panics otherwise.
   */
  predicate MembersWellFormed(shapes: map<string, Value>, responseClass: string) {
    responseClass in shapes && shapes[responseClass].Object? ==>
      "members" in shapes[responseClass].fields && shapes[responseClass].fields["members"].Object?
  }

  /** The member names of the response shape, or none when that shape is not an object. */
  function ResponseMembers(shapes: map<string, Value>, responseClass: string): set<string>
    requires MembersWellFormed(shapes, responseClass)
  {
    if responseClass in shapes && shapes[responseClass].Object?
    then shapes[responseClass].fields["members"].fields.Keys
    else {}
  }

  /** The pagination block of an operation. */
  class Pagination {
    var inputToken: string
    var limitKey: string
    var outputToken: string
    var resultKey: seq<string>

    constructor (inputToken: string, limitKey: string, outputToken: string)
      ensures this.inputToken == inputToken && this.limitKey == limitKey
      ensures this.outputToken == outputToken && resultKey == []
    {
      this.inputToken := inputToken;
      this.limitKey := limitKey;
      this.outputToken := outputToken;
      resultKey := [];
    }

    /** Resets the result keys from the model's "result_key" entry: a list, one name, or nothing usable. */
    method SetResultKeys(item: Value, toCamel: string -> string)
      modifies this`resultKey
      ensures item.Strings? ==>
        |resultKey| == |item.items| &&
        forall i :: 0 <= i < |item.items| ==> resultKey[i] == toCamel(item.items[i])
      ensures item.Text? ==> resultKey == [toCamel(item.text)]
      ensures !item.Strings? && !item.Text? ==> resultKey == []
    {
      resultKey := [];
      if item.Strings? {
        for k := 0 to |item.items|
          invariant |resultKey| == k
          invariant forall i :: 0 <= i < k ==> resultKey[i] == toCamel(item.items[i])
        {
          resultKey := resultKey + [toCamel(item.items[k])];
        }
        return;
      }
      if item.Text? {
        resultKey := resultKey + [toCamel(item.text)];
      }
    }

    /**
     * When no result key is set, takes every member of the response shape
     * that is not pagination plumbing, camel-cased, in map order.
     */
    method EnsureResultKey(s: Service, o: Operation, toCamel: string -> string)
      requires resultKey != [] || MembersWellFormed(s.shapes, o.responseClass)
      modifies this`resultKey
      ensures old(resultKey) != [] ==> resultKey == old(resultKey)
      ensures old(resultKey) == [] ==>
        multiset(resultKey) == CamelImage(ResponseMembers(s.shapes, o.responseClass) - PaginationMembers, toCamel)
    {
      if |resultKey| == 0 {
        var shapes, rc := s.shapes, o.responseClass;
        if rc in shapes && shapes[rc].Object? {
          var members := shapes[rc].fields["members"].fields.Keys;
          var remaining := members;
          while remaining != {}
            invariant remaining <= members
            invariant multiset(resultKey) + CamelImage(remaining - PaginationMembers, toCamel)
                      == CamelImage(members - PaginationMembers, toCamel)
            decreases remaining
          {
            var member :| member in remaining;
            CamelImageStep(remaining, PaginationMembers, toCamel, member);
            if member !in PaginationMembers {
              resultKey := resultKey + [toCamel(member)];
            }
            remaining := remaining - {member};
          }
        } else {
          assert ResponseMembers(shapes, rc) - PaginationMembers == {};
        }
      }
    }
  }
}
