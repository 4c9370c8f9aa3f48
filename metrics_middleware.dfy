/** The gRPC metrics middleware of the calculator service: parsing of a call's
    full method address, business classification, the two error taxonomies,
    the unary and stream interceptors and the (unwired) business-metrics
    recorder.

    Both sinks are modelled as logs of the calls made on them; the handler
    wrapped by an interceptor is represented by its outcome and the measured
    duration, passed in as parameters. */
module Middleware {
  import opened DomainMetrics

  /** The gRPC status codes. */
  datatype Code =
    | OK | Canceled | Unknown | InvalidArgument | DeadlineExceeded | NotFound
    | AlreadyExists | PermissionDenied | ResourceExhausted | FailedPrecondition
    | Aborted | OutOfRange | Unimplemented | Internal | Unavailable | DataLoss
    | Unauthenticated

  /** The error a handler returned: none (Go's nil), an error carrying a gRPC
      status, or any other error, for which status.FromError reports no status. */
  datatype Error = NoError | Status(code: Code) | Generic

  /** One call made on the technical (gRPC) side of the Prometheus sink. */
  datatype TechnicalCall =
    | GrpcRequestCounted(methodName: string, status: string)
    | GrpcDurationRecorded(methodName: string, duration: Duration)

  /** The gRPC request counter and duration histogram of the Prometheus sink,
      remembering every call made on them, in order. */
  class TechnicalMetrics {
    var calls: seq<TechnicalCall>

    constructor ()
      ensures calls == []
    {
      calls := [];
    }

    method IncrementGRPCRequests(methodName: string, status: string)
      modifies this
      ensures calls == old(calls) + [GrpcRequestCounted(methodName, status)]
    {
      calls := calls + [GrpcRequestCounted(methodName, status)];
    }

    method RecordGRPCDuration(methodName: string, duration: Duration)
      modifies this
      ensures calls == old(calls) + [GrpcDurationRecorded(methodName, duration)]
    {
      calls := calls + [GrpcDurationRecorded(methodName, duration)];
    }
  }

  // ---------------------------------------------------------------------------
  // Business classification.

  /** The service every business call belongs to: package "calculator",
      service "CalculatorService". */
  const CalculatorService: string := "calculator" + "." + "CalculatorService"

  const DoughAddress: string := "/" + CalculatorService + "/" + "CalculateDough"
  const IngredientsAddress: string := "/" + CalculatorService + "/" + "CalculateIngredients"
  const RecipeAddress: string := "/" + CalculatorService + "/" + "OptimizeRecipe"

  /** The full addresses of the business calls. */
  const CalculationMethods: seq<string> := [DoughAddress, IngredientsAddress, RecipeAddress]

  /** The three business addresses are distinct. */
  lemma AddressesDistinct()
    ensures DoughAddress != IngredientsAddress
    ensures DoughAddress != RecipeAddress
    ensures IngredientsAddress != RecipeAddress
  {
    assert |DoughAddress| == 44 && |IngredientsAddress| == 50 && |RecipeAddress| == 44;
    assert DoughAddress[30] == 'C' && RecipeAddress[30] == 'O';
  }

  /** Exact membership of the full address among the business calls. */
  function IsCalculationMethod(fullMethod: string): (b: bool)
    ensures b <==> fullMethod == DoughAddress || fullMethod == IngredientsAddress || fullMethod == RecipeAddress
  {
    fullMethod in CalculationMethods
  }

  /** The calculation-type label of a full address. */
  function CalculationType(fullMethod: string): (name: string)
    ensures name in {"dough_calculation", "ingredient_calculation", "recipe_optimization", "unknown_calculation"}
  {
    if fullMethod == DoughAddress then "dough_calculation"
    else if fullMethod == IngredientsAddress then "ingredient_calculation"
    else if fullMethod == RecipeAddress then "recipe_optimization"
    else "unknown_calculation"
  }

  /** An address has a calculation type exactly when it is a business call, and
      distinct business calls have distinct types. */
  lemma CalculationTypeIffBusiness(fullMethod: string, other: string)
    ensures CalculationType(fullMethod) != "unknown_calculation" <==> IsCalculationMethod(fullMethod)
    ensures IsCalculationMethod(fullMethod) && IsCalculationMethod(other) && fullMethod != other
            ==> CalculationType(fullMethod) != CalculationType(other)
  {
    AddressesDistinct();
  }

  /** The same method under another service, and another method of the same
      service, are not business calls. */
  lemma ClassificationExamples()
    ensures CalculationType(DoughAddress) == "dough_calculation"
    ensures CalculationType(IngredientsAddress) == "ingredient_calculation"
    ensures CalculationType(RecipeAddress) == "recipe_optimization"
    ensures !IsCalculationMethod("/other.Service/CalculateDough")
    ensures !IsCalculationMethod("/calculator.CalculatorService/GetHealth")
    ensures CalculationType("/calculator.CalculatorService/UnknownMethod") == "unknown_calculation"
  {
    AddressesDistinct();
  }

  // ---------------------------------------------------------------------------
  // Error taxonomies.

  /** The technical status label of a handler's error. */
  function StatusCode(err: Error): (status: string)
    ensures status in {"success", "invalid_argument", "not_found", "internal_error", "unavailable", "error"}
    ensures status == "success" <==> err == NoError || err == Status(OK)
    ensures status == "error"
        <==> err == Generic || (err.Status? && err.code !in {OK, InvalidArgument, NotFound, Internal, Unavailable})
  {
    match err
    case NoError => "success"
    case Generic => "error"
    case Status(code) =>
      match code
      case OK => "success"
      case InvalidArgument => "invalid_argument"
      case NotFound => "not_found"
      case Internal => "internal_error"
      case Unavailable => "unavailable"
      case _ => "error"
  }

  /** The domain error kind of a handler's error; a missing error reads as code
      OK, which has no kind of its own. */
  function ErrorType(err: Error): (kind: string)
    ensures kind in {"invalid_input", "recipe_not_found", "calculation_error", "service_unavailable", "timeout", "unknown_error"}
    ensures kind == "unknown_error"
        <==> !(err.Status? && err.code in {InvalidArgument, NotFound, Internal, Unavailable, DeadlineExceeded})
  {
    match err
    case Status(code) =>
      (match code
       case InvalidArgument => "invalid_input"
       case NotFound => "recipe_not_found"
       case Internal => "calculation_error"
       case Unavailable => "service_unavailable"
       case DeadlineExceeded => "timeout"
       case _ => "unknown_error")
    case _ => "unknown_error"
  }

  /** The domain kind corresponding to a technical label. */
  function DomainKindOf(status: string): string {
    if status == "invalid_argument" then "invalid_input"
    else if status == "not_found" then "recipe_not_found"
    else if status == "internal_error" then "calculation_error"
    else if status == "unavailable" then "service_unavailable"
    else "unknown_error"
  }

  /** The domain taxonomy refines the technical one only at DeadlineExceeded:
      everywhere else the domain kind is determined by the technical label. */
  lemma TaxonomiesDifferOnlyAtDeadline(err: Error)
    ensures ErrorType(err) == if err == Status(DeadlineExceeded) then "timeout" else DomainKindOf(StatusCode(err))
    ensures StatusCode(Status(DeadlineExceeded)) == "error"
  {
  }

  // ---------------------------------------------------------------------------
  // Parsing of "/package.Service/Method".

  /** The index of the last occurrence of c in s, or -1 when there is none. */
  function LastIndexOf(s: string, c: char): (k: int)
    ensures -1 <= k < |s|
    ensures k >= 0 ==> s[k] == c
  {
    if s == [] then -1
    else if s[|s| - 1] == c then |s| - 1
    else LastIndexOf(s[..|s| - 1], c)
  }

  /** No occurrence of c follows the one LastIndexOf reports. */
  lemma {:induction false} LastIndexOfIsLast(s: string, c: char)
    ensures forall j :: LastIndexOf(s, c) < j < |s| ==> s[j] != c
  {
    if s != [] && s[|s| - 1] != c {
      LastIndexOfIsLast(s[..|s| - 1], c);
    }
  }

  /** An occurrence of c with none after it is the one LastIndexOf reports. */
  lemma LastIndexOfAt(s: string, c: char, k: nat)
    requires k < |s| && s[k] == c
    requires forall j :: k < j < |s| ==> s[j] != c
    ensures LastIndexOf(s, c) == k
  {
    LastIndexOfIsLast(s, c);
  }

  /** Without an occurrence of c, LastIndexOf reports -1. */
  lemma LastIndexOfAbsent(s: string, c: char)
    requires forall j :: 0 <= j < |s| ==> s[j] != c
    ensures LastIndexOf(s, c) == -1
  {
  }

  /** The parts splitMethod returns: split on the last '/', or s alone. */
  function SplitAtLastSlash(s: string): (parts: seq<string>)
    ensures '/' in s ==> |parts| == 2 && parts[0] + "/" + parts[1] == s && '/' !in parts[1]
    ensures '/' !in s ==> parts == [s]
  {
    LastIndexOfIsLast(s, '/');
    var k := LastIndexOf(s, '/');
    if k < 0 then [s]
    else
      assert s == s[..k] + "/" + s[k + 1..];
      [s[..k], s[k + 1..]]
  }

  /** Splits on the last '/' by scanning backwards. */
  method SplitMethod(s: string) returns (parts: seq<string>)
    ensures parts == SplitAtLastSlash(s)
  {
    var i := |s| - 1;
    while i >= 0
      invariant -1 <= i < |s|
      invariant forall j :: i < j < |s| ==> s[j] != '/'
    {
      if s[i] == '/' {
        LastIndexOfAt(s, '/', i);
        return [s[..i], s[i + 1..]];
      }
      i := i - 1;
    }
    return [s];
  }

  /** The non-empty segments of s between dots, in order. */
  function DotSegments(s: string): seq<string>
    decreases |s|
  {
    var k := LastIndexOf(s, '.');
    if k < 0 then (if s == [] then [] else [s])
    else DotSegments(s[..k]) + (if k + 1 < |s| then [s[k + 1..]] else [])
  }

  /** Every segment is non-empty and free of dots. */
  lemma {:induction false} DotSegmentsShape(s: string)
    ensures forall i :: 0 <= i < |DotSegments(s)| ==> DotSegments(s)[i] != [] && '.' !in DotSegments(s)[i]
    decreases |s|
  {
    var k := LastIndexOf(s, '.');
    LastIndexOfIsLast(s, '.');
    if k >= 0 {
      DotSegmentsShape(s[..k]);
      if k + 1 < |s| {
        var last := s[k + 1..];
        assert '.' !in last by {
          assert forall j :: 0 <= j < |last| ==> last[j] == s[k + 1 + j];
        }
      }
    }
  }

  /** Appending a dot-free run after a dot (or at the start) appends it as one
      segment, unless it is empty. */
  lemma DotSegmentsAppendRun(q: string, r: string)
    requires q == [] || q[|q| - 1] == '.'
    requires '.' !in r
    ensures DotSegments(q + r) == DotSegments(q) + (if r == [] then [] else [r])
  {
    if r == [] {
      assert q + r == q;
    } else if q == [] {
      assert q + r == r;
      LastIndexOfAbsent(r, '.');
    } else {
      var s := q + r;
      var k := |q| - 1;
      assert s[k] == '.';
      LastIndexOfAt(s, '.', k);
      assert s[..k] == q[..k];
      assert s[k + 1..] == r;
      assert LastIndexOf(q, '.') == k;
    }
  }

  /** A trailing dot adds no segment. */
  lemma DotSegmentsTrailingDot(p: string)
    ensures DotSegments(p + ".") == DotSegments(p)
  {
    assert LastIndexOf(p + ".", '.') == |p|;
    assert (p + ".")[..|p|] == p;
  }

  /** A prefix of s ending in a dot has the segments of the prefix before it. */
  lemma DotSegmentsAtDot(s: string, k: nat)
    requires k < |s| && s[k] == '.'
    ensures DotSegments(s[..k + 1]) == DotSegments(s[..k])
  {
    var p := s[..k + 1];
    assert p[k] == '.';
    assert p[..k] == s[..k];
  }

  /** "package.Service" splits into exactly its two names. */
  lemma DotSegmentsOfQualified(p: string, q: string)
    requires p != [] && '.' !in p
    requires q != [] && '.' !in q
    ensures DotSegments(p + "." + q) == [p, q]
  {
    DotSegmentsAppendRun([], p);
    assert [] + p == p;
    DotSegmentsAppendRun(p + ".", q);
    DotSegmentsTrailingDot(p);
  }

  /** The segment s[start..] contributes: itself, unless it is empty. */
  function FinalRun(s: string, start: nat): seq<string>
    requires start <= |s|
  {
    if start < |s| then [s[start..]] else []
  }

  /** When s has no dot from position start on, and start follows a dot or is
      0, the segments of s are those of s[..start] and then the dot-free rest,
      unless it is empty. */
  lemma DotSegmentsSplitAt(s: string, start: nat)
    requires start <= |s|
    requires start == 0 || s[start - 1] == '.'
    requires forall j :: start <= j < |s| ==> s[j] != '.'
    ensures DotSegments(s)
         == DotSegments(s[..start]) + FinalRun(s, start)
  {
    if start == |s| {
      assert s[..start] == s;
    } else if start == 0 {
      assert DotSegments(s) == [s] by {
        DotSegmentsOfDotFree(s);
      }
      assert s[..0] == [] && s[0..] == s;
    } else {
      DotSegmentsAfterLastDot(s, start);
    }
  }

  /** A non-empty dot-free string is its own single segment. */
  lemma DotSegmentsOfDotFree(s: string)
    requires s != []
    requires forall j :: 0 <= j < |s| ==> s[j] != '.'
    ensures DotSegments(s) == [s]
  {
    LastIndexOfAbsent(s, '.');
  }

  /** A non-final last dot just before start: the segments up to it, then the
      rest. */
  lemma DotSegmentsAfterLastDot(s: string, start: nat)
    requires 0 < start < |s| && s[start - 1] == '.'
    requires forall j :: start <= j < |s| ==> s[j] != '.'
    ensures DotSegments(s)
         == DotSegments(s[..start]) + FinalRun(s, start)
  {
    var k := start - 1;
    assert DotSegments(s) == DotSegments(s[..k]) + [s[start..]] by {
      LastIndexOfAt(s, '.', k);
    }
    DotSegmentsAtDot(s, k);
  }

  /** One dot met by splitService's scan: the pending run becomes a segment
      unless it is empty. */
  lemma SplitServiceStep(s: string, start: nat, i: nat)
    requires start <= i < |s| && s[i] == '.'
    requires start == 0 || s[start - 1] == '.'
    requires forall j :: start <= j < i ==> s[j] != '.'
    ensures DotSegments(s[..i + 1])
         == DotSegments(s[..start]) + (if i > start then [s[start..i]] else [])
  {
    var p := s[..i];
    var tail := if i > start then [s[start..i]] else [];
    assert DotSegments(p) == DotSegments(s[..start]) + tail by {
      DotSegmentsSplitAt(p, start);
      assert p[..start] == s[..start] && p[start..] == s[start..i];
    }
    DotSegmentsAtDot(s, i);
  }

  /** Splits on '.' by scanning forwards, dropping empty segments. */
  method SplitService(s: string) returns (parts: seq<string>)
    ensures parts == DotSegments(s)
  {
    parts := [];
    var start := 0;
    for i := 0 to |s|
      invariant 0 <= start <= i
      invariant start == 0 || s[start - 1] == '.'
      invariant forall j :: start <= j < i ==> s[j] != '.'
      invariant parts == DotSegments(s[..start])
    {
      if s[i] == '.' {
        SplitServiceStep(s, start, i);
        if i > start {
          parts := parts + [s[start..i]];
        }
        start := i + 1;
      }
    }
    DotSegmentsSplitAt(s, start);
    if start < |s| {
      parts := parts + [s[start..]];
    }
  }

  /** The concatenation of a list of strings. */
  function Concat(parts: seq<string>): string {
    if parts == [] then [] else Concat(parts[..|parts| - 1]) + parts[|parts| - 1]
  }

  /** s with every '.' removed. */
  function WithoutDots(s: string): string {
    if s == [] then [] else WithoutDots(s[..|s| - 1]) + (if s[|s| - 1] == '.' then [] else [s[|s| - 1]])
  }

  lemma {:induction false} WithoutDotsAppend(a: string, b: string)
    ensures WithoutDots(a + b) == WithoutDots(a) + WithoutDots(b)
  {
    if b == [] {
      assert a + b == a;
    } else {
      var n := |b| - 1;
      assert (a + b)[..|a + b| - 1] == a + b[..n];
      WithoutDotsAppend(a, b[..n]);
    }
  }

  lemma {:induction false} WithoutDotsOfDotFree(s: string)
    requires '.' !in s
    ensures WithoutDots(s) == s
  {
    if s != [] {
      WithoutDotsOfDotFree(s[..|s| - 1]);
    }
  }

  lemma ConcatSnoc(parts: seq<string>, x: string)
    ensures Concat(parts + [x]) == Concat(parts) + x
  {
    assert (parts + [x])[..|parts|] == parts;
  }

  /** A trailing dot is dropped. */
  lemma WithoutDotsTrailingDot(p: string)
    ensures WithoutDots(p + ".") == WithoutDots(p)
  {
    assert (p + ".")[..|p|] == p;
  }

  /** A dot followed by a dot-free run keeps just the run. */
  lemma WithoutDotsAfterDot(p: string, r: string)
    requires '.' !in r
    ensures WithoutDots(p + "." + r) == WithoutDots(p) + r
  {
    WithoutDotsAppend(p + ".", r);
    WithoutDotsTrailingDot(p);
    WithoutDotsOfDotFree(r);
  }

  /** splitService loses nothing but the dots: its segments, concatenated,
      give s with every dot removed. */
  lemma {:induction false} DotSegmentsKeepText(s: string)
    ensures Concat(DotSegments(s)) == WithoutDots(s)
    decreases |s|
  {
    var k := LastIndexOf(s, '.');
    LastIndexOfIsLast(s, '.');
    if k < 0 {
      WithoutDotsOfDotFree(s);
      if s != [] {
        ConcatSnoc([], s);
      }
    } else {
      var rest := s[k + 1..];
      DotSegmentsKeepText(s[..k]);
      assert s == s[..k] + "." + rest;
      WithoutDotsAfterDot(s[..k], rest);
      if k + 1 < |s| {
        ConcatSnoc(DotSegments(s[..k]), rest);
      } else {
        assert DotSegments(s) == DotSegments(s[..k]);
      }
    }
  }

  /** The method name extractMethodName reports for a full address. */
  function MethodName(fullMethod: string): string {
    if |fullMethod| > 0 && fullMethod[0] == '/' then
      var parts := SplitAtLastSlash(fullMethod[1..]);
      if |parts| == 2 && |DotSegments(parts[0])| >= 2 then parts[1] else "unknown"
    else "unknown"
  }

  /** Reports the method of "/package.Service/Method", or "unknown". */
  method ExtractMethodName(fullMethod: string) returns (name: string)
    ensures name == MethodName(fullMethod)
  {
    if |fullMethod| > 0 && fullMethod[0] == '/' {
      var parts := SplitMethod(fullMethod[1..]);
      if |parts| == 2 {
        var serviceParts := SplitService(parts[0]);
        if |serviceParts| >= 2 {
          return parts[1];
        }
      }
    }
    return "unknown";
  }

  /** An empty address, one without the leading '/', and one with no second
      '/' all report "unknown". */
  lemma MethodNameMalformed(fullMethod: string)
    requires |fullMethod| == 0 || fullMethod[0] != '/' || '/' !in fullMethod[1..]
    ensures MethodName(fullMethod) == "unknown"
  {
  }

  /** "/" + service + "/" + methodName reports methodName exactly when the service has
      at least two non-empty dot segments, and "unknown" otherwise. */
  lemma MethodNameOfAddress(service: string, methodName: string)
    requires '/' !in methodName
    ensures MethodName("/" + service + "/" + methodName)
         == if |DotSegments(service)| >= 2 then methodName else "unknown"
  {
    var m := "/" + service + "/" + methodName;
    var s := m[1..];
    assert s == service + "/" + methodName;
    var k := |service|;
    assert s[k] == '/';
    assert forall j :: k < j < |s| ==> s[j] == methodName[j - k - 1];
    LastIndexOfAt(s, '/', k);
    assert s[..k] == service;
    assert s[k + 1..] == methodName;
  }

  /** The calculator service name has two dot segments. */
  lemma CalculatorServiceSegments()
    ensures DotSegments(CalculatorService) == ["calculator", "CalculatorService"]
  {
    DotSegmentsOfQualified("calculator", "CalculatorService");
  }

  /** Any method of the calculator service reports its own name. */
  lemma MethodNameOfCalculatorService(methodName: string)
    requires '/' !in methodName
    ensures MethodName("/" + CalculatorService + "/" + methodName) == methodName
  {
    CalculatorServiceSegments();
    MethodNameOfAddress(CalculatorService, methodName);
  }

  /** The business addresses report their method names. */
  lemma MethodNameExamples()
    ensures MethodName(DoughAddress) == "CalculateDough"
    ensures MethodName(IngredientsAddress) == "CalculateIngredients"
    ensures MethodName(RecipeAddress) == "OptimizeRecipe"
  {
    MethodNameOfCalculatorService("CalculateDough");
    MethodNameOfCalculatorService("CalculateIngredients");
    MethodNameOfCalculatorService("OptimizeRecipe");
  }

  /** Malformed addresses from the repository's tests report "unknown". */
  lemma MethodNameMalformedExamples()
    ensures MethodName("InvalidMethod") == "unknown"
    ensures MethodName("") == "unknown"
    ensures MethodName("/Method") == "unknown"
  {
    MethodNameMalformed("InvalidMethod");
    MethodNameMalformed("");
    MethodNameMalformed("/Method");
  }

  // ---------------------------------------------------------------------------
  // The interceptors.

  /** The stand-in for the in-flight count: always 0. */
  function CurrentActiveCalculations(): int {
    0
  }

  /** The technical calls of one intercepted call. */
  function TechnicalCalls(fullMethod: string, err: Error, duration: Duration): seq<TechnicalCall> {
    [GrpcRequestCounted(MethodName(fullMethod), StatusCode(err)),
     GrpcDurationRecorded(MethodName(fullMethod), duration)]
  }

  /** The domain calls that close a business call of type t. */
  function OutcomeCalls(t: string, err: Error, duration: Duration): seq<DomainCall> {
    if err != NoError then [ErrorIncremented(t, ErrorType(err))]
    else [TotalIncremented(t), DurationRecorded(t, duration)]
  }

  /** The domain calls of a unary business call of type u, in order: the gauge
      is set before the handler runs and again after it, then the outcome. */
  function BusinessCalls(u: string, err: Error, duration: Duration): seq<DomainCall> {
    [ActiveSet(CurrentActiveCalculations() + 1), ActiveSet(CurrentActiveCalculations() - 1)]
    + OutcomeCalls(u, err, duration)
  }

  /** The domain calls of one unary intercepted call, in order. */
  function UnaryDomainCalls(fullMethod: string, err: Error, duration: Duration): seq<DomainCall> {
    if !IsCalculationMethod(fullMethod) then []
    else BusinessCalls(CalculationType(fullMethod), err, duration)
  }

  /** The domain calls of a business call, appended one step at a time. */
  lemma BusinessCallsInSteps(log: seq<DomainCall>, u: string, err: Error, duration: Duration)
    ensures log + [ActiveSet(CurrentActiveCalculations() + 1)] + [ActiveSet(CurrentActiveCalculations() - 1)]
              + OutcomeCalls(u, err, duration)
         == log + BusinessCalls(u, err, duration)
  {
  }

  /** Holds the two sinks the interceptors record into. */
  class MetricsMiddleware {
    const domainMetrics: CalculatorMetrics
    const prometheusMetrics: TechnicalMetrics

    constructor (domainMetrics: CalculatorMetrics, prometheusMetrics: TechnicalMetrics)
      ensures this.domainMetrics == domainMetrics && this.prometheusMetrics == prometheusMetrics
    {
      this.domainMetrics := domainMetrics;
      this.prometheusMetrics := prometheusMetrics;
    }

    /** One unary call: the handler ran once, returned (resp, err) and took
        `duration`; the interceptor records and passes the outcome through. */
    method UnaryServerInterceptor<R(==)>(fullMethod: string, resp: R, err: Error, duration: Duration)
      returns (r: R, e: Error)
      modifies domainMetrics, prometheusMetrics
      ensures r == resp && e == err
      ensures domainMetrics.calls == old(domainMetrics.calls) + UnaryDomainCalls(fullMethod, err, duration)
      ensures prometheusMetrics.calls == old(prometheusMetrics.calls) + TechnicalCalls(fullMethod, err, duration)
    {
      ghost var domainBefore := domainMetrics.calls;
      if IsCalculationMethod(fullMethod) {
        domainMetrics.SetActiveCalculations(CurrentActiveCalculations() + 1);
      }

      // The handler runs here; its outcome is (resp, err).

      ghost var domainStarted := domainMetrics.calls;
      RecordTechnical(fullMethod, err, duration);
      assert domainMetrics.calls == domainStarted;

      if IsCalculationMethod(fullMethod) {
        domainMetrics.SetActiveCalculations(CurrentActiveCalculations() - 1);
        var calculationType := CalculationType(fullMethod);
        RecordOutcome(calculationType, err, duration);
        BusinessCallsInSteps(domainBefore, calculationType, err, duration);
      } else {
        assert UnaryDomainCalls(fullMethod, err, duration) == [];
      }
      return resp, err;
    }

    /** The request count and latency every intercepted call records. */
    method RecordTechnical(fullMethod: string, err: Error, duration: Duration)
      modifies prometheusMetrics
      ensures prometheusMetrics.calls == old(prometheusMetrics.calls) + TechnicalCalls(fullMethod, err, duration)
    {
      var statusCode := StatusCode(err);
      var name := ExtractMethodName(fullMethod);
      prometheusMetrics.IncrementGRPCRequests(name, statusCode);
      name := ExtractMethodName(fullMethod);
      prometheusMetrics.RecordGRPCDuration(name, duration);
    }

    /** The error count, or the total and duration, of a finished business call. */
    method RecordOutcome(calculationType: string, err: Error, duration: Duration)
      modifies domainMetrics
      ensures domainMetrics.calls == old(domainMetrics.calls) + OutcomeCalls(calculationType, err, duration)
    {
      if err != NoError {
        var errorType := ErrorType(err);
        domainMetrics.IncrementCalculationErrors(calculationType, errorType);
      } else {
        domainMetrics.IncrementCalculationsTotal(calculationType);
        domainMetrics.RecordCalculationDuration(calculationType, duration);
        // The business-metrics extractor always yields nothing, so no
        // further domain call follows a success.
      }
    }

    /** One streaming call: technical metrics only. */
    method StreamServerInterceptor(fullMethod: string, err: Error, duration: Duration) returns (e: Error)
      modifies prometheusMetrics
      ensures e == err
      ensures prometheusMetrics.calls == old(prometheusMetrics.calls) + TechnicalCalls(fullMethod, err, duration)
      ensures domainMetrics.calls == old(domainMetrics.calls)
    {
      // The handler runs here; its outcome is err.

      RecordTechnical(fullMethod, err, duration);
      return err;
    }
  }

  // ---------------------------------------------------------------------------
  // Properties of the interceptors.

  /** Every call, unary or streaming, business or not, counts one request under
      (method name, status label) and observes its duration once. */
  lemma TechnicalRecordedOnce(fullMethod: string, err: Error, duration: Duration, log: seq<TechnicalCall>)
    ensures var calls := log + TechnicalCalls(fullMethod, err, duration);
            multiset(calls)[GrpcRequestCounted(MethodName(fullMethod), StatusCode(err))]
              == multiset(log)[GrpcRequestCounted(MethodName(fullMethod), StatusCode(err))] + 1
    ensures |TechnicalCalls(fullMethod, err, duration)| == 2
    ensures multiset(TechnicalCalls(fullMethod, err, duration))[GrpcDurationRecorded(MethodName(fullMethod), duration)] == 1
  {
  }

  /** A call that is not a business call makes no domain call at all. */
  lemma UnaryNonBusinessIsTechnicalOnly(fullMethod: string, err: Error, duration: Duration)
    requires !IsCalculationMethod(fullMethod)
    ensures UnaryDomainCalls(fullMethod, err, duration) == []
  {
  }

  /** A business call sets the gauge to 1, then to -1: the in-flight stand-in
      is 0, so the gauge ends at -1 whatever it showed before. */
  lemma UnaryBusinessGauge(u: string, err: Error, duration: Duration, log: seq<DomainCall>, initial: int)
    ensures var calls := BusinessCalls(u, err, duration);
            |calls| >= 2 && calls[0] == ActiveSet(1) && calls[1] == ActiveSet(-1)
            && (forall i :: 2 <= i < |calls| ==> !calls[i].ActiveSet?)
    ensures ActiveCalculations(log + BusinessCalls(u, err, duration), initial) == -1
  {
    var head := [ActiveSet(1), ActiveSet(-1)];
    var outcome := OutcomeCalls(u, err, duration);
    assert log + (head + outcome) == (log + head) + outcome;
    GaugeUnchangedBy(log + head, outcome, initial);
    assert (log + head)[|log + head| - 1] == ActiveSet(-1);
  }

  /** The counters of a business call of type u that succeeded. */
  lemma SuccessCallsCount(u: string, duration: Duration, t: string, e: string)
    ensures var calls := [ActiveSet(1), ActiveSet(-1), TotalIncremented(u), DurationRecorded(u, duration)];
            && CalculationsTotal(calls, t) == (if t == u then 1 else 0)
            && CalculationErrors(calls, t, e) == 0
  {
  }

  /** A successful business call of type u records its duration once. */
  lemma SuccessCallsDuration(u: string, duration: Duration, t: string)
    ensures var calls := [ActiveSet(1), ActiveSet(-1), TotalIncremented(u), DurationRecorded(u, duration)];
            CalculationDurations(calls, t) == (if t == u then [duration] else [])
  {
    var calls := [ActiveSet(1), ActiveSet(-1), TotalIncremented(u), DurationRecorded(u, duration)];
    var head := [ActiveSet(1), ActiveSet(-1), TotalIncremented(u)];
    var last := [DurationRecorded(u, duration)];
    assert head + last == calls;
    DurationsAppend(head, last, t);
    NoDurationsIn(head, t);
    assert last[1..] == [];
  }

  /** The counters of a business call of type u that failed with errorType. */
  lemma FailureCallsCount(u: string, errorType: string, t: string, e: string)
    ensures var calls := [ActiveSet(1), ActiveSet(-1), ErrorIncremented(u, errorType)];
            && CalculationErrors(calls, t, e) == (if t == u && e == errorType then 1 else 0)
            && CalculationsTotal(calls, t) == 0
  {
  }

  /** A failed business call observes no duration and no dough value. */
  lemma FailureCallsObserveNothing(u: string, errorType: string, t: string, h: Histogram)
    ensures var calls := [ActiveSet(1), ActiveSet(-1), ErrorIncremented(u, errorType)];
            && CalculationDurations(calls, t) == []
            && Observations(calls, h) == []
  {
    var calls := [ActiveSet(1), ActiveSet(-1), ErrorIncremented(u, errorType)];
    NoDurationsIn(calls, t);
    NoObservationsIn(calls, h);
  }

  /** A successful business call of type u increments u's total once and
      records its duration once, and counts no error. */
  lemma UnaryBusinessSuccess(u: string, duration: Duration, t: string, e: string)
    ensures var calls := BusinessCalls(u, NoError, duration);
            && CalculationsTotal(calls, t) == (if t == u then 1 else 0)
            && CalculationDurations(calls, t) == (if t == u then [duration] else [])
            && CalculationErrors(calls, t, e) == 0
  {
    assert BusinessCalls(u, NoError, duration)
        == [ActiveSet(1), ActiveSet(-1), TotalIncremented(u), DurationRecorded(u, duration)];
    SuccessCallsCount(u, duration, t, e);
    SuccessCallsDuration(u, duration, t);
  }

  /** A failed business call of type u counts one error under u and the
      error's domain kind, and neither increments the total nor records a
      duration or a dough value. */
  lemma UnaryBusinessFailure(u: string, err: Error, duration: Duration, t: string, e: string, h: Histogram)
    requires err != NoError
    ensures var calls := BusinessCalls(u, err, duration);
            && CalculationErrors(calls, t, e) == (if t == u && e == ErrorType(err) then 1 else 0)
            && CalculationsTotal(calls, t) == 0
            && CalculationDurations(calls, t) == []
            && Observations(calls, h) == []
  {
    assert BusinessCalls(u, err, duration)
        == [ActiveSet(1), ActiveSet(-1), ErrorIncremented(u, ErrorType(err))];
    FailureCallsCount(u, ErrorType(err), t, e);
    FailureCallsObserveNothing(u, ErrorType(err), t, h);
  }

  /** The unary interceptor does not go through the recorder: on a failed
      business call the recorder would count the total and the duration, the
      interceptor counts neither; on a success both count them alike. */
  lemma UnaryBypassesRecorder(u: string, err: Error, duration: Duration)
    ensures var snapshot := CalculationResult(u, duration, err == NoError, ErrorType(err), 0.0, 0.0, 0.0, []);
            && CalculationsTotal(RecordCalculationCalls(snapshot), u) == 1
            && CalculationsTotal(BusinessCalls(u, err, duration), u) == (if err == NoError then 1 else 0)
            && CalculationErrors(RecordCalculationCalls(snapshot), u, ErrorType(err))
               == CalculationErrors(BusinessCalls(u, err, duration), u, ErrorType(err))
  {
    var snapshot := CalculationResult(u, duration, err == NoError, ErrorType(err), 0.0, 0.0, 0.0, []);
    RecordCalculationCountsOnce([], snapshot, u);
    RecordCalculationErrors([], snapshot, u, ErrorType(err));
    assert [] + RecordCalculationCalls(snapshot) == RecordCalculationCalls(snapshot);
    if err == NoError {
      UnaryBusinessSuccess(u, duration, u, ErrorType(err));
    } else {
      UnaryBusinessFailure(u, err, duration, u, ErrorType(err), DoughWeight);
    }
  }

  // ---------------------------------------------------------------------------
  // Business metrics extracted from a response.

  /** What a response could report about a calculation. */
  datatype BusinessMetrics = BusinessMetrics(
    weight: real,
    hydration: real,
    accuracy: real,
    ingredients: seq<string>,
    recipeType: string)

  /** The dough values of a response, as a successful result that carries
      nothing else: recordBusinessMetrics observes them exactly as
      RecordCalculation observes a result's. */
  function QualityOf(business: BusinessMetrics): CalculationResult {
    CalculationResult("", 0, true, "", business.weight, business.hydration, business.accuracy, [])
  }

  /** The recipe-type count recordBusinessMetrics makes, if any. */
  function RecipeCalls(business: BusinessMetrics): seq<DomainCall> {
    if business.recipeType != "" then [RecipeTypeIncremented(business.recipeType)] else []
  }

  /** The calls recordBusinessMetrics makes, in order. */
  function BusinessMetricsCalls(business: BusinessMetrics): seq<DomainCall> {
    QualityCalls(QualityOf(business)) + RecipeCalls(business) + IngredientCalls(business.ingredients)
  }

  /** Records each positive dough value, a non-empty recipe type and one
      valid=true validation per ingredient. */
  method RecordBusinessMetrics(metrics: CalculatorMetrics, business: BusinessMetrics)
    modifies metrics
    ensures metrics.calls == old(metrics.calls) + BusinessMetricsCalls(business)
  {
    ghost var before := metrics.calls;
    RecordBusinessQuality(metrics, business);
    if business.recipeType != "" {
      metrics.IncrementRecipeTypes(business.recipeType);
    }
    ghost var beforeIngredients := metrics.calls;
    assert beforeIngredients == before + (QualityCalls(QualityOf(business)) + RecipeCalls(business));
    RecordUsedIngredients(metrics, business.ingredients);
    assert metrics.calls == before + (QualityCalls(QualityOf(business)) + RecipeCalls(business) + IngredientCalls(business.ingredients));
  }

  /** The three guarded dough-quality observations of recordBusinessMetrics. */
  method RecordBusinessQuality(metrics: CalculatorMetrics, business: BusinessMetrics)
    modifies metrics
    ensures metrics.calls == old(metrics.calls) + QualityCalls(QualityOf(business))
  {
    if business.weight > 0.0 {
      metrics.RecordDoughWeight(business.weight);
    }
    if business.hydration > 0.0 {
      metrics.RecordDoughHydration(business.hydration);
    }
    if business.accuracy > 0.0 {
      metrics.RecordDoughAccuracy(business.accuracy);
    }
  }

  /** The ingredient loop of recordBusinessMetrics: each name validated as valid, in order. */
  method RecordUsedIngredients(metrics: CalculatorMetrics, names: seq<string>)
    modifies metrics
    ensures metrics.calls == old(metrics.calls) + IngredientCalls(names)
  {
    for i := 0 to |names|
      invariant metrics.calls == old(metrics.calls) + IngredientCalls(names[..i])
    {
      metrics.IncrementIngredientValidations(names[i], true);
      IngredientCallsSnoc(names, i);
    }
    assert names[..|names|] == names;
  }

  /** Each dough value is observed exactly when strictly positive. */
  lemma BusinessMetricsObservations(business: BusinessMetrics, h: Histogram)
    ensures Observations(BusinessMetricsCalls(business), h)
         == if Measured(QualityOf(business), h) > 0.0 then [Measured(QualityOf(business), h)] else []
  {
    var quality := QualityCalls(QualityOf(business));
    var recipe := RecipeCalls(business);
    var g := IngredientCalls(business.ingredients);
    assert Observations(recipe, h) == [] by {
      NoObservationsIn(recipe, h);
    }
    assert Observations(g, h) == [] by {
      NoObservationsIn(g, h);
    }
    assert Observations(quality + recipe, h) == Observations(quality, h) by {
      ObservationsAppend(quality, recipe, h);
    }
    ObservationsAppend(quality + recipe, g, h);
    QualityCallsObservations(QualityOf(business), h);
  }

  /** The recipe type is counted once exactly when it is non-empty. */
  lemma BusinessMetricsRecipes(business: BusinessMetrics, recipeType: string)
    ensures RecipeTypes(BusinessMetricsCalls(business), recipeType)
         == if recipeType == business.recipeType && recipeType != "" then 1 else 0
  {
    var quality := QualityCalls(QualityOf(business));
    var recipe := RecipeCalls(business);
    var g := IngredientCalls(business.ingredients);
    var r := RecipeTypeIncremented(recipeType);
    assert r !in quality by {
      QualityCallKinds(QualityOf(business));
    }
    assert multiset(g)[r] == 0 by {
      assert forall i :: 0 <= i < |g| ==> g[i].IngredientValidated?;
    }
    assert multiset(recipe)[r] == if recipeType == business.recipeType && recipeType != "" then 1 else 0 by {
      if business.recipeType != "" {
        assert recipe == [RecipeTypeIncremented(business.recipeType)];
      }
    }
    CountInMiddle(quality, recipe, g, r);
  }

  /** A call absent from the outer parts of a log is counted in its middle part only. */
  lemma CountInMiddle(front: seq<DomainCall>, middle: seq<DomainCall>, back: seq<DomainCall>, c: DomainCall)
    requires multiset(front)[c] == 0 && multiset(back)[c] == 0
    ensures multiset(front + middle + back)[c] == multiset(middle)[c]
  {
    assert multiset(front + middle + back) == multiset(front) + multiset(middle) + multiset(back);
  }

  /** Each ingredient is validated as valid once per use, never as invalid. */
  lemma BusinessMetricsIngredients(business: BusinessMetrics, name: string)
    ensures IngredientValidations(BusinessMetricsCalls(business), name, true) == multiset(business.ingredients)[name]
    ensures IngredientValidations(BusinessMetricsCalls(business), name, false) == 0
  {
    var front := QualityCalls(QualityOf(business)) + RecipeCalls(business);
    QualityCallKinds(QualityOf(business));
    assert forall i :: 0 <= i < |front| ==> !front[i].IngredientValidated? by {
      assert forall c :: c in front ==> !c.IngredientValidated?;
    }
    IngredientCallsAfter(front, business.ingredients, name);
  }

  /** Business metrics touch neither the totals, the durations, the error
      counts nor the gauge. */
  lemma BusinessMetricsKinds(business: BusinessMetrics)
    ensures forall c :: c in BusinessMetricsCalls(business) ==>
              !c.TotalIncremented? && !c.DurationRecorded? && !c.ErrorIncremented? && !c.ActiveSet?
  {
    var front := QualityCalls(QualityOf(business)) + RecipeCalls(business);
    var g := IngredientCalls(business.ingredients);
    QualityCallKinds(QualityOf(business));
    assert forall c :: c in g ==> c.IngredientValidated?;
    assert forall c :: c in front ==> c.WeightRecorded? || c.HydrationRecorded? || c.AccuracyRecorded? || c.RecipeTypeIncremented?;
  }
}
