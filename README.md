# Calculator metrics middleware in Dafny

This project models the metrics layer of the calculator gRPC service. It has two parts.

- **Domain metrics** (module `DomainMetrics`, `calculator_metrics.dfy`):
  - the `CalculatorMetrics` sink interface;
  - the `CalculationResult` record;
  - `MetricsRecorder.RecordCalculation`, which turns a calculation result into calls on the sink.
- **The gRPC middleware** (module `Middleware`, `metrics_middleware.dfy`):
  - parsing of a call's full method address (`extractMethodName`, `splitMethod`, `splitService`);
  - business classification (`isCalculationMethod`, `getCalculationType`);
  - the two error taxonomies (`getStatusCode`, `getErrorType`);
  - the in-flight stand-in `getCurrentActiveCalculations`, which always returns 0;
  - the unary and stream interceptors;
  - `recordBusinessMetrics`, which is not wired in.

Both sinks are classes holding a log (`calls`) of every call made on them, in order. Each state-changing method promises that its new log is its old log plus a sequence given by a function of its inputs:

- `RecordCalculationCalls` for the recorder;
- `UnaryDomainCalls` and `TechnicalCalls` for the interceptors;
- `BusinessMetricsCalls` for the business-metrics recorder.

Views over a log give what an in-memory sink shows:

- `CalculationsTotal`, `CalculationErrors`, `IngredientValidations` and `RecipeTypes` are counters;
- `CalculationDurations` and `Observations` are series, in call order;
- `ActiveCalculations` is the gauge, whose last set wins.

The lemmas state what the code promises in terms of these views.

Parsing is written the way the source writes it:

- `SplitMethod` scans backwards for the last `/`.
- `SplitService` scans forwards, splitting at dots and dropping empty segments.

Each loop is proved equal to a recursive specification function (`SplitAtLastSlash`, `DotSegments`). `ExtractMethodName` is proved equal to the function `MethodName`.

The handler that an interceptor wraps is represented by its outcome (`resp`, `err`) and the measured `duration`, passed in as parameters. The outcome has three cases:

- `NoError` is Go's `nil`.
- `Status(code)` is an error carrying a gRPC status. `Status(OK)` is kept because `getStatusCode` has a case for it.
- `Generic` is any other error, for which `status.FromError` reports no status.

Durations are integers (nanoseconds). Dough values are `real`.

### Behaviour of the code worth knowing

- **The gauge.** A business call sets the active-calculation gauge to `getCurrentActiveCalculations() + 1` before the handler runs and to `getCurrentActiveCalculations() - 1` after it (`metrics_middleware.go:46, 68`). That stub always returns 0 (`metrics_middleware.go:241-244`), so the gauge ends at -1 whatever it showed before (`UnaryBusinessGauge`). The model keeps the stub literally as `CurrentActiveCalculations`.
- **The recorder.** The unary interceptor calls the domain sink directly, not `MetricsRecorder`. A failed call counts an error but neither a total nor a duration, whereas the recorder would count all three (`metrics_middleware.go:72-80`; `UnaryBypassesRecorder`).
- **Business metrics.** `extractBusinessMetrics` always returns `nil` (`metrics_middleware.go:256-260`), so the unary interceptor never calls `recordBusinessMetrics`. The model leaves that dead branch out of the interceptor and proves `RecordBusinessMetrics` on its own.

## Model

| member | source | states |
|---|---|---|
| DomainMetrics.CalculatorMetrics.constructor | internal/domain/metrics/calculator_metrics_test.go:21-29 | a fresh sink has received no call |
| DomainMetrics.CalculatorMetrics.IncrementCalculationsTotal | internal/domain/metrics/calculator_metrics.go:9 | appends exactly one total increment for the type |
| DomainMetrics.CalculatorMetrics.RecordCalculationDuration | internal/domain/metrics/calculator_metrics.go:10 | appends exactly one duration for the type |
| DomainMetrics.CalculatorMetrics.SetActiveCalculations | internal/domain/metrics/calculator_metrics.go:11 | appends exactly one gauge setting |
| DomainMetrics.CalculatorMetrics.IncrementCalculationErrors | internal/domain/metrics/calculator_metrics.go:12 | appends exactly one error increment under (type, kind) |
| DomainMetrics.CalculatorMetrics.RecordDoughAccuracy | internal/domain/metrics/calculator_metrics.go:14 | appends exactly one accuracy observation |
| DomainMetrics.CalculatorMetrics.IncrementIngredientValidations | internal/domain/metrics/calculator_metrics.go:15 | appends exactly one validation of (ingredient, valid) |
| DomainMetrics.CalculatorMetrics.RecordDoughWeight | internal/domain/metrics/calculator_metrics.go:17 | appends exactly one weight observation |
| DomainMetrics.CalculatorMetrics.RecordDoughHydration | internal/domain/metrics/calculator_metrics.go:18 | appends exactly one hydration observation |
| DomainMetrics.CalculatorMetrics.IncrementRecipeTypes | internal/domain/metrics/calculator_metrics.go:19 | appends exactly one recipe-type increment |
| DomainMetrics.DurationsAppend | internal/domain/metrics/calculator_metrics.go:10 | the duration series of two logs in sequence is the first's series followed by the second's |
| DomainMetrics.ObservationsAppend | internal/domain/metrics/calculator_metrics.go:14-18 | a histogram's observations of two logs in sequence are the first's followed by the second's |
| DomainMetrics.GaugeUnchangedBy | internal/domain/metrics/calculator_metrics.go:11 | calls other than SetActiveCalculations leave the gauge as it was |
| DomainMetrics.MetricsRecorder.constructor | internal/domain/metrics/calculator_metrics.go:37-41 | the recorder writes to the sink it was given |
| DomainMetrics.MetricsRecorder.RecordCalculation | internal/domain/metrics/calculator_metrics.go:43-67 | the sink receives exactly the calls RecordCalculationCalls lists, in order, and nothing else |
| DomainMetrics.MetricsRecorder.RecordQuality | internal/domain/metrics/calculator_metrics.go:52-62 | appends the observations of the strictly positive weight, hydration and accuracy, in that order |
| DomainMetrics.MetricsRecorder.RecordIngredients | internal/domain/metrics/calculator_metrics.go:64-66 | appends one valid=true validation per used ingredient, in order |
| DomainMetrics.IngredientCallsSnoc | internal/domain/metrics/calculator_metrics.go:64-66 | one more loop iteration appends the validation of the next ingredient |
| DomainMetrics.IngredientCallsCount | internal/domain/metrics/calculator_metrics.go:64-66 | an ingredient is validated as valid as often as it occurs in the list, and never as invalid |
| DomainMetrics.IngredientCallsAfter | internal/domain/metrics/calculator_metrics.go:64-66 | the same holds when other, non-validation calls come first |
| DomainMetrics.ObserveIfPositiveObservations | internal/domain/metrics/calculator_metrics.go:52-54 | a guarded observation adds v to its own histogram exactly when v > 0, and nothing to the others |
| DomainMetrics.QualityCallsObservations | internal/domain/metrics/calculator_metrics.go:52-62 | each histogram receives its own measured value, exactly when that value is strictly positive |
| DomainMetrics.SuccessCallsObservations | internal/domain/metrics/calculator_metrics.go:52-66 | the ingredient loop adds no observation to the quality values |
| DomainMetrics.RecordCalculationObservations | internal/domain/metrics/calculator_metrics.go:47-62 | a histogram receives its measured value exactly when the calculation succeeded and the value is strictly positive; a failure observes nothing |
| DomainMetrics.RecordCalculationDurations | internal/domain/metrics/calculator_metrics.go:44-45 | exactly one duration, the result's, is recorded under its type, and none under any other type, success or not |
| DomainMetrics.RecordCalculationTail | internal/domain/metrics/calculator_metrics.go:44-66 | after the total and the duration come only quality or ingredient calls (success) or exactly the error increment (failure); never another total, duration, gauge setting or recipe type |
| DomainMetrics.RecordCalculationCountsOnce | internal/domain/metrics/calculator_metrics.go:44-45 | on any prior log, the total for the result's type grows by exactly one and its duration series by exactly the result's duration; other types are unchanged |
| DomainMetrics.RecordCalculationErrors | internal/domain/metrics/calculator_metrics.go:47-50 | on any prior log, the (type, kind) error counter grows by one exactly for a failed result of that type and kind |
| DomainMetrics.RecordCalculationFailure | internal/domain/metrics/calculator_metrics.go:44-50 | a failure makes exactly total, duration and error, in that order: no observation and no ingredient validation |
| DomainMetrics.RecordCalculationSuccess | internal/domain/metrics/calculator_metrics.go:52-62 | a success counts no error and observes each strictly positive quality value |
| DomainMetrics.RecordCalculationIngredients | internal/domain/metrics/calculator_metrics.go:64-66 | a success validates each ingredient as valid once per use, never as invalid, and the validations come last, in list order |
| DomainMetrics.RecordCalculationLeavesGaugeAndRecipes | internal/domain/metrics/calculator_metrics.go:43-67 | the recorder neither sets the gauge nor counts a recipe type |
| DomainMetrics.RecordAllTotals | internal/domain/metrics/calculator_metrics.go:43-67 | over any sequence of results, the total and the number of durations of a type equal the number of results of that type, failures included |
| DomainMetrics.RecordAllObservations | internal/domain/metrics/calculator_metrics.go:43-67 | over any sequence of results, a histogram holds the strictly positive values of the successful results, in order |
| DomainMetrics.RecordAllErrors | internal/domain/metrics/calculator_metrics.go:43-67 | over any sequence of results, the (type, kind) error counter equals the number of failed results of that type and kind |
| DomainMetrics.ThreeDoughCalculations | internal/domain/metrics/calculator_metrics_test.go:217-271 | two successful dough calculations (500, 750) and one invalid-input failure give 3 totals, 3 durations, weights [500, 750] and one error |
| Middleware.TechnicalMetrics.constructor | internal/infrastructure/grpc/middleware/metrics_middleware_test.go:103-108 | a fresh technical sink has received no call |
| Middleware.TechnicalMetrics.IncrementGRPCRequests | internal/infrastructure/grpc/middleware/metrics_middleware.go:56-59 | appends exactly one request count under (method, status) |
| Middleware.TechnicalMetrics.RecordGRPCDuration | internal/infrastructure/grpc/middleware/metrics_middleware.go:60-63 | appends exactly one latency under the method |
| Middleware.AddressesDistinct | internal/infrastructure/grpc/middleware/metrics_middleware.go:125-129 | the three business addresses are pairwise distinct |
| Middleware.IsCalculationMethod | internal/infrastructure/grpc/middleware/metrics_middleware.go:124-137 | an address is a business call if and only if it equals one of the three calculator addresses exactly |
| Middleware.CalculationType | internal/infrastructure/grpc/middleware/metrics_middleware.go:206-217 | the label is one of the three calculation types or "unknown_calculation" |
| Middleware.CalculationTypeIffBusiness | internal/infrastructure/grpc/middleware/metrics_middleware.go:206-217 | an address has a known calculation type if and only if it is a business call, and distinct business calls have distinct types |
| Middleware.ClassificationExamples | internal/infrastructure/grpc/middleware/metrics_middleware_test.go:165-295 | the three addresses map to their types; another service's CalculateDough and the health check are not business calls |
| Middleware.StatusCode | internal/infrastructure/grpc/middleware/metrics_middleware.go:181-204 | "success" if and only if there is no error or the status is OK; the generic "error" if and only if there is no status or the code is outside the four named ones |
| Middleware.ErrorType | internal/infrastructure/grpc/middleware/metrics_middleware.go:219-237 | "unknown_error" if and only if the error carries none of the five named codes, a missing error included |
| Middleware.TaxonomiesDifferOnlyAtDeadline | internal/infrastructure/grpc/middleware/metrics_middleware.go:219-237 | the domain kind is determined by the technical label, except at DeadlineExceeded ("timeout" against the generic "error") |
| Middleware.LastIndexOf | internal/infrastructure/grpc/middleware/metrics_middleware.go:155-159 | the index found is inside the string and holds the character sought, or is -1 |
| Middleware.LastIndexOfIsLast | internal/infrastructure/grpc/middleware/metrics_middleware.go:155-159 | no occurrence lies after the index found |
| Middleware.LastIndexOfAt | internal/infrastructure/grpc/middleware/metrics_middleware.go:155-159 | an occurrence with none after it is the one found |
| Middleware.LastIndexOfAbsent | internal/infrastructure/grpc/middleware/metrics_middleware.go:160 | without any occurrence the result is -1 |
| Middleware.SplitAtLastSlash | internal/infrastructure/grpc/middleware/metrics_middleware.go:153-161 | with a '/', two parts that rejoin around the slash to the input and a slash-free second part; without one, the input alone |
| Middleware.SplitMethod | internal/infrastructure/grpc/middleware/metrics_middleware.go:153-161 | the backward scan returns exactly SplitAtLastSlash of the input |
| Middleware.DotSegmentsShape | internal/infrastructure/grpc/middleware/metrics_middleware.go:169-171 | every segment is non-empty and contains no dot |
| Middleware.DotSegmentsKeepText | internal/infrastructure/grpc/middleware/metrics_middleware.go:163-179 | the segments, joined, are the input with its dots removed: no character is lost, duplicated or reordered |
| Middleware.DotSegmentsAppendRun | internal/infrastructure/grpc/middleware/metrics_middleware.go:175-177 | a dot-free run after a dot (or at the start) adds itself as one segment if non-empty |
| Middleware.DotSegmentsTrailingDot | internal/infrastructure/grpc/middleware/metrics_middleware.go:168-173 | a trailing dot adds no segment |
| Middleware.DotSegmentsAtDot | internal/infrastructure/grpc/middleware/metrics_middleware.go:168-173 | the prefix through a dot has the segments of the prefix before it |
| Middleware.DotSegmentsOfQualified | internal/infrastructure/grpc/middleware/metrics_middleware.go:163-179 | "p.q" with non-empty dot-free p and q splits into exactly [p, q] |
| Middleware.DotSegmentsOfDotFree | internal/infrastructure/grpc/middleware/metrics_middleware.go:175-177 | a non-empty dot-free string is its own single segment |
| Middleware.DotSegmentsSplitAt | internal/infrastructure/grpc/middleware/metrics_middleware.go:175-177 | the segments of the whole string are those before the last run plus the final run when non-empty |
| Middleware.SplitServiceStep | internal/infrastructure/grpc/middleware/metrics_middleware.go:168-173 | meeting a dot appends the pending run when it is non-empty |
| Middleware.SplitService | internal/infrastructure/grpc/middleware/metrics_middleware.go:163-179 | the forward scan returns exactly DotSegments of the input |
| Middleware.WithoutDotsAppend | internal/infrastructure/grpc/middleware/metrics_middleware.go:163-179 | removing dots distributes over concatenation |
| Middleware.WithoutDotsOfDotFree | internal/infrastructure/grpc/middleware/metrics_middleware.go:163-179 | a dot-free string is unchanged by removing dots |
| Middleware.ExtractMethodName | internal/infrastructure/grpc/middleware/metrics_middleware.go:139-151 | the scan-based extraction returns exactly MethodName of the address |
| Middleware.MethodNameMalformed | internal/infrastructure/grpc/middleware/metrics_middleware.go:141-150 | an empty address, one without a leading '/', or one without a second '/' gives "unknown" |
| Middleware.MethodNameOfAddress | internal/infrastructure/grpc/middleware/metrics_middleware.go:139-151 | "/" + service + "/" + method gives the method exactly when the service has at least two non-empty dot segments, otherwise "unknown" |
| Middleware.CalculatorServiceSegments | internal/infrastructure/grpc/middleware/metrics_middleware.go:126-128 | "calculator.CalculatorService" splits into its package and service |
| Middleware.MethodNameOfCalculatorService | internal/infrastructure/grpc/middleware/metrics_middleware.go:139-151 | every method of the calculator service reports its own name |
| Middleware.MethodNameExamples | internal/infrastructure/grpc/middleware/metrics_middleware_test.go:121-137 | the business addresses report CalculateDough, CalculateIngredients and OptimizeRecipe |
| Middleware.MethodNameMalformedExamples | internal/infrastructure/grpc/middleware/metrics_middleware_test.go:138-152 | "InvalidMethod", "" and "/Method" report "unknown" |
| Middleware.MetricsMiddleware.constructor | internal/infrastructure/grpc/middleware/metrics_middleware.go:21-30 | the middleware holds the two sinks it was given |
| Middleware.MetricsMiddleware.UnaryServerInterceptor | internal/infrastructure/grpc/middleware/metrics_middleware.go:33-90 | returns the handler's outcome unchanged; the technical sink receives TechnicalCalls and the domain sink exactly UnaryDomainCalls |
| Middleware.MetricsMiddleware.RecordTechnical | internal/infrastructure/grpc/middleware/metrics_middleware.go:54-63 | one request count under (method name, status label), then one latency |
| Middleware.MetricsMiddleware.RecordOutcome | internal/infrastructure/grpc/middleware/metrics_middleware.go:70-85 | an error increment under (type, domain kind), or a total and a duration on success |
| Middleware.MetricsMiddleware.StreamServerInterceptor | internal/infrastructure/grpc/middleware/metrics_middleware.go:93-120 | returns the handler's error unchanged, records the technical calls and leaves the domain sink untouched |
| Middleware.TechnicalRecordedOnce | internal/infrastructure/grpc/middleware/metrics_middleware.go:54-63 | every call, of either kind, adds exactly one request count under (method name, status label) and exactly one latency |
| Middleware.UnaryNonBusinessIsTechnicalOnly | internal/infrastructure/grpc/middleware/metrics_middleware.go:43-66 | a call that is not a business call makes no domain call |
| Middleware.UnaryBusinessGauge | internal/infrastructure/grpc/middleware/metrics_middleware.go:43-68 | a business call sets the gauge to 1 and then -1, sets it nowhere else, and leaves it at -1 whatever it was before |
| Middleware.UnaryBusinessSuccess | internal/infrastructure/grpc/middleware/metrics_middleware.go:76-80 | a successful business call adds one total and one duration under its type, none under others, and no error |
| Middleware.UnaryBusinessFailure | internal/infrastructure/grpc/middleware/metrics_middleware.go:72-75 | a failed business call adds one error under (its type, the error's domain kind) and no total, duration or observation |
| Middleware.UnaryBypassesRecorder | internal/infrastructure/grpc/middleware/metrics_middleware.go:70-85 | the recorder would always count the total; the interceptor counts it only on success; both count the error alike |
| Middleware.RecordBusinessMetrics | internal/infrastructure/grpc/middleware/metrics_middleware.go:263-283 | the sink receives exactly BusinessMetricsCalls, in order |
| Middleware.RecordBusinessQuality | internal/infrastructure/grpc/middleware/metrics_middleware.go:264-274 | appends the strictly positive weight, hydration and accuracy observations, in order |
| Middleware.RecordUsedIngredients | internal/infrastructure/grpc/middleware/metrics_middleware.go:280-282 | appends one valid=true validation per ingredient, in order |
| Middleware.BusinessMetricsObservations | internal/infrastructure/grpc/middleware/metrics_middleware.go:263-283 | each histogram receives the response's value for it exactly when that value is strictly positive, as RecordCalculation does for a success; the recipe count and the ingredient loop add no observation |
| Middleware.BusinessMetricsRecipes | internal/infrastructure/grpc/middleware/metrics_middleware.go:276-278 | a recipe type is counted once exactly when it is the reported, non-empty one |
| Middleware.BusinessMetricsIngredients | internal/infrastructure/grpc/middleware/metrics_middleware.go:280-282 | each ingredient is validated as valid once per use and never as invalid |
| Middleware.BusinessMetricsKinds | internal/infrastructure/grpc/middleware/metrics_middleware.go:263-283 | business metrics touch neither totals, durations, error counts nor the gauge |

## Left out

- Clocks: `time.Now`/`time.Since` are replaced by the `duration` parameter. A `time.Duration` is an integer number of nanoseconds, so its conversion to seconds inside the Prometheus sink is not modelled.
- The `context.Context` arguments, the request, the stream and the handler call itself. The handler's effect is only its outcome, passed in.
- A handler that panics is not modelled. In Go, nothing in the unary interceptor is deferred, so a panic in the handler (`metrics_middleware.go:50`) leaves the gauge at 1 (set at line 46) and records neither technical metric (lines 56-63) nor the -1 gauge setting (line 68). The model's handler always returns.
- Concurrency: both sinks are assumed to be called by one goroutine at a time. The interleaving of calls from concurrent requests, and the atomicity of the real Prometheus collectors, are not modelled.
- The real Prometheus collectors (counters, histograms and their buckets, label handling) and `prometheus_metrics.go`. Both sinks are logs of the calls made on them, and the technical sink only receives the two calls the interceptors make.
- `status.FromError` on arbitrary Go errors: an error either carries a status code or does not (`Status` / `Generic`). Wrapped errors and status details are not modelled.
- Go strings are bytes, the model's are characters. The two agree here because only the ASCII characters '/' and '.' are searched for.
- `float64` is modelled as `real`: NaN, infinities and rounding are not modelled. A NaN reported value would fail `> 0` in Go as it fails in the model, but the model cannot represent it.
- The extractor branch of the unary interceptor (`metrics_middleware.go:81-84`): `extractBusinessMetrics` always returns nil, so the branch never runs and is not in the model of the interceptor. `recordBusinessMetrics` is modelled separately.
- `BusinessMetrics` pointers: `recordBusinessMetrics` dereferences its argument; a nil pointer (a panic in Go) is not modelled.
- The relative order of calls on the two different sinks is not stated; each sink's own order is.
- DomainMetrics.RecordAllTotals: states the number of durations per type, not their values; the values per call are stated by `RecordCalculationCountsOnce`.
