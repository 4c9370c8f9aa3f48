/** The domain side of the calculator's metrics: the `CalculatorMetrics` sink
    capability, the `CalculationResult` record and the conditional-recording
    policy of `MetricsRecorder.RecordCalculation`.

    A sink is modelled as the log of the calls made on it.  What the mock
    sinks of the repository keep (counters per label, lists of observations,
    the last gauge value) is read off that log by the view functions below. */
module DomainMetrics {

  /** Elapsed time in nanoseconds, as Go's time.Duration. */
  type Duration = int

  /** One call made on a CalculatorMetrics sink, named after what it records. */
  datatype DomainCall =
    | TotalIncremented(calculationType: string)
    | DurationRecorded(calculationType: string, duration: Duration)
    | ActiveSet(count: int)
    | ErrorIncremented(calculationType: string, errorType: string)
    | AccuracyRecorded(accuracy: real)
    | IngredientValidated(ingredient: string, valid: bool)
    | WeightRecorded(weight: real)
    | HydrationRecorded(hydration: real)
    | RecipeTypeIncremented(recipeType: string)

  /** The three dough histograms fed by the sink. */
  datatype Histogram = DoughWeight | DoughHydration | DoughAccuracy

  /** One completed calculation; weight, hydration and accuracy use 0 for "absent". */
  datatype CalculationResult = CalculationResult(
    calculationType: string,
    duration: Duration,
    success: bool,
    errorType: string,
    weight: real,
    hydration: real,
    accuracy: real,
    ingredientsUsed: seq<string>)

  // ---------------------------------------------------------------------------
  // Views of a sink's log: what an in-memory sink would hold after those calls.

  /** calculationsTotal[t] */
  function CalculationsTotal(log: seq<DomainCall>, t: string): nat {
    multiset(log)[TotalIncremented(t)]
  }

  /** calculationErrors[t][e] */
  function CalculationErrors(log: seq<DomainCall>, t: string, e: string): nat {
    multiset(log)[ErrorIncremented(t, e)]
  }

  /** ingredientValidations[name][valid] */
  function IngredientValidations(log: seq<DomainCall>, name: string, valid: bool): nat {
    multiset(log)[IngredientValidated(name, valid)]
  }

  /** recipeTypes[r] */
  function RecipeTypes(log: seq<DomainCall>, r: string): nat {
    multiset(log)[RecipeTypeIncremented(r)]
  }

  /** calculationDurations[t]: the durations recorded for type t, in call order. */
  function CalculationDurations(log: seq<DomainCall>, t: string): seq<Duration> {
    if log == [] then []
    else
      (match log[0]
       case DurationRecorded(t', d) => if t' == t then [d] else []
       case _ => []) + CalculationDurations(log[1..], t)
  }

  /** The value a single call observes into histogram h, if any. */
  function ObservationOf(c: DomainCall, h: Histogram): seq<real> {
    match c
    case WeightRecorded(w) => if h == DoughWeight then [w] else []
    case HydrationRecorded(x) => if h == DoughHydration then [x] else []
    case AccuracyRecorded(a) => if h == DoughAccuracy then [a] else []
    case _ => []
  }

  /** doughWeights, doughHydrations or doughAccuracies: observations in call order. */
  function Observations(log: seq<DomainCall>, h: Histogram): seq<real> {
    if log == [] then [] else ObservationOf(log[0], h) + Observations(log[1..], h)
  }

  /** activeCalculations: the count of the last SetActiveCalculations call, or
      `initial` when the log sets none. */
  function ActiveCalculations(log: seq<DomainCall>, initial: int): int {
    if log == [] then initial
    else match log[|log| - 1]
      case ActiveSet(n) => n
      case _ => ActiveCalculations(log[..|log| - 1], initial)
  }

  lemma {:induction false} DurationsAppend(a: seq<DomainCall>, b: seq<DomainCall>, t: string)
    ensures CalculationDurations(a + b, t) == CalculationDurations(a, t) + CalculationDurations(b, t)
  {
    if a != [] {
      assert (a + b)[1..] == a[1..] + b;
      DurationsAppend(a[1..], b, t);
    } else {
      assert a + b == b;
    }
  }

  lemma {:induction false} ObservationsAppend(a: seq<DomainCall>, b: seq<DomainCall>, h: Histogram)
    ensures Observations(a + b, h) == Observations(a, h) + Observations(b, h)
  {
    if a != [] {
      assert (a + b)[1..] == a[1..] + b;
      ObservationsAppend(a[1..], b, h);
    } else {
      assert a + b == b;
    }
  }

  /** Calls other than SetActiveCalculations leave the gauge as it was. */
  lemma {:induction false} GaugeUnchangedBy(log: seq<DomainCall>, tail: seq<DomainCall>, initial: int)
    requires forall i :: 0 <= i < |tail| ==> !tail[i].ActiveSet?
    ensures ActiveCalculations(log + tail, initial) == ActiveCalculations(log, initial)
    decreases |tail|
  {
    if tail == [] {
      assert log + tail == log;
    } else {
      var n := |tail| - 1;
      assert (log + tail)[..|log + tail| - 1] == log + tail[..n];
      assert (log + tail)[|log + tail| - 1] == tail[n];
      GaugeUnchangedBy(log, tail[..n], initial);
    }
  }

  // ---------------------------------------------------------------------------
  // The sink capability.

  /** A CalculatorMetrics sink that remembers every call made on it, in order. */
  class CalculatorMetrics {
    var calls: seq<DomainCall>

    constructor ()
      ensures calls == []
    {
      calls := [];
    }

    method IncrementCalculationsTotal(calculationType: string)
      modifies this
      ensures calls == old(calls) + [TotalIncremented(calculationType)]
    {
      calls := calls + [TotalIncremented(calculationType)];
    }

    method RecordCalculationDuration(calculationType: string, duration: Duration)
      modifies this
      ensures calls == old(calls) + [DurationRecorded(calculationType, duration)]
    {
      calls := calls + [DurationRecorded(calculationType, duration)];
    }

    method SetActiveCalculations(count: int)
      modifies this
      ensures calls == old(calls) + [ActiveSet(count)]
    {
      calls := calls + [ActiveSet(count)];
    }

    method IncrementCalculationErrors(calculationType: string, errorType: string)
      modifies this
      ensures calls == old(calls) + [ErrorIncremented(calculationType, errorType)]
    {
      calls := calls + [ErrorIncremented(calculationType, errorType)];
    }

    method RecordDoughAccuracy(accuracy: real)
      modifies this
      ensures calls == old(calls) + [AccuracyRecorded(accuracy)]
    {
      calls := calls + [AccuracyRecorded(accuracy)];
    }

    method IncrementIngredientValidations(ingredient: string, valid: bool)
      modifies this
      ensures calls == old(calls) + [IngredientValidated(ingredient, valid)]
    {
      calls := calls + [IngredientValidated(ingredient, valid)];
    }

    method RecordDoughWeight(weight: real)
      modifies this
      ensures calls == old(calls) + [WeightRecorded(weight)]
    {
      calls := calls + [WeightRecorded(weight)];
    }

    method RecordDoughHydration(hydration: real)
      modifies this
      ensures calls == old(calls) + [HydrationRecorded(hydration)]
    {
      calls := calls + [HydrationRecorded(hydration)];
    }

    method IncrementRecipeTypes(recipeType: string)
      modifies this
      ensures calls == old(calls) + [RecipeTypeIncremented(recipeType)]
    {
      calls := calls + [RecipeTypeIncremented(recipeType)];
    }
  }

  // ---------------------------------------------------------------------------
  // The recording policy.

  /** One valid=true validation per ingredient name, in list order. */
  function IngredientCalls(names: seq<string>): seq<DomainCall> {
    seq(|names|, i requires 0 <= i < |names| => IngredientValidated(names[i], true))
  }

  /** The call that observes v into histogram h. */
  function ObserveCall(h: Histogram, v: real): DomainCall {
    match h
    case DoughWeight => WeightRecorded(v)
    case DoughHydration => HydrationRecorded(v)
    case DoughAccuracy => AccuracyRecorded(v)
  }

  /** A single call observing v into h when v is strictly positive, else nothing. */
  function ObserveIfPositive(h: Histogram, v: real): seq<DomainCall> {
    if v > 0.0 then [ObserveCall(h, v)] else []
  }

  lemma IngredientCallsSnoc(names: seq<string>, i: nat)
    requires i < |names|
    ensures IngredientCalls(names[..i + 1]) == IngredientCalls(names[..i]) + [IngredientValidated(names[i], true)]
  {
  }

  /** The value of a result that feeds histogram h. */
  function Measured(result: CalculationResult, h: Histogram): real {
    match h
    case DoughWeight => result.weight
    case DoughHydration => result.hydration
    case DoughAccuracy => result.accuracy
  }

  /** The dough-quality observations of a successful result. */
  function QualityCalls(result: CalculationResult): seq<DomainCall> {
    ObserveIfPositive(DoughWeight, result.weight)
    + ObserveIfPositive(DoughHydration, result.hydration)
    + ObserveIfPositive(DoughAccuracy, result.accuracy)
  }

  /** The calls a successful result adds after its total and duration. */
  function SuccessCalls(result: CalculationResult): seq<DomainCall> {
    QualityCalls(result) + IngredientCalls(result.ingredientsUsed)
  }

  /** The calls RecordCalculation makes on its sink, in order. */
  function RecordCalculationCalls(result: CalculationResult): seq<DomainCall> {
    var t := result.calculationType;
    [TotalIncremented(t), DurationRecorded(t, result.duration)]
    + if result.success then SuccessCalls(result) else [ErrorIncremented(t, result.errorType)]
  }

  /** Holds the sink it records into. */
  class MetricsRecorder {
    const metrics: CalculatorMetrics

    constructor (metrics: CalculatorMetrics)
      ensures this.metrics == metrics
    {
      this.metrics := metrics;
    }

    /** Applies the conditional-recording policy to one result. */
    method RecordCalculation(result: CalculationResult)
      modifies metrics
      ensures metrics.calls == old(metrics.calls) + RecordCalculationCalls(result)
    {
      metrics.IncrementCalculationsTotal(result.calculationType);
      metrics.RecordCalculationDuration(result.calculationType, result.duration);

      if !result.success {
        metrics.IncrementCalculationErrors(result.calculationType, result.errorType);
        return;
      }

      ghost var afterHead := metrics.calls;
      RecordQuality(result);
      RecordIngredients(result.ingredientsUsed);
      assert metrics.calls == afterHead + SuccessCalls(result);
    }

    /** The three guarded observations of a successful result. */
    method RecordQuality(result: CalculationResult)
      modifies metrics
      ensures metrics.calls == old(metrics.calls) + QualityCalls(result)
    {
      if result.weight > 0.0 {
        metrics.RecordDoughWeight(result.weight);
      }
      if result.hydration > 0.0 {
        metrics.RecordDoughHydration(result.hydration);
      }
      if result.accuracy > 0.0 {
        metrics.RecordDoughAccuracy(result.accuracy);
      }
    }

    /** One valid=true validation per used ingredient, in order. */
    method RecordIngredients(names: seq<string>)
      modifies metrics
      ensures metrics.calls == old(metrics.calls) + IngredientCalls(names)
    {
      for i := 0 to |names|
        invariant metrics.calls == old(metrics.calls) + IngredientCalls(names[..i])
      {
        metrics.IncrementIngredientValidations(names[i], true);
        IngredientCallsSnoc(names, i);
      }
      assert names[..|names|] == names;
    }
  }

  // ---------------------------------------------------------------------------
  // Properties of one RecordCalculation.

  lemma {:induction false} NoObservationsIn(log: seq<DomainCall>, h: Histogram)
    requires forall i :: 0 <= i < |log| ==> ObservationOf(log[i], h) == []
    ensures Observations(log, h) == []
  {
    if log != [] {
      NoObservationsIn(log[1..], h);
    }
  }

  lemma {:induction false} NoDurationsIn(log: seq<DomainCall>, t: string)
    requires forall i :: 0 <= i < |log| ==> !log[i].DurationRecorded?
    ensures CalculationDurations(log, t) == []
  {
    if log != [] {
      NoDurationsIn(log[1..], t);
    }
  }

  /** Each validation counter grows by the number of times its name is used;
      valid=false is never emitted. */
  lemma {:induction false} IngredientCallsCount(names: seq<string>, name: string)
    ensures IngredientValidations(IngredientCalls(names), name, true) == multiset(names)[name]
    ensures IngredientValidations(IngredientCalls(names), name, false) == 0
  {
    if names != [] {
      var last := |names| - 1;
      assert names == names[..last] + [names[last]];
      assert IngredientCalls(names) == IngredientCalls(names[..last]) + [IngredientValidated(names[last], true)];
      IngredientCallsCount(names[..last], name);
    }
  }

  /** Validations that follow calls of other kinds are counted by the names alone. */
  lemma IngredientCallsAfter(front: seq<DomainCall>, names: seq<string>, name: string)
    requires forall i :: 0 <= i < |front| ==> !front[i].IngredientValidated?
    ensures IngredientValidations(front + IngredientCalls(names), name, true) == multiset(names)[name]
    ensures IngredientValidations(front + IngredientCalls(names), name, false) == 0
  {
    var g := IngredientCalls(names);
    assert multiset(front + g) == multiset(front) + multiset(g);
    assert IngredientValidated(name, true) !in front;
    assert IngredientValidated(name, false) !in front;
    IngredientCallsCount(names, name);
  }

  /** A call a successful result may add after its total and duration. */
  predicate IsSuccessCall(c: DomainCall) {
    c.WeightRecorded? || c.HydrationRecorded? || c.AccuracyRecorded? || (c.IngredientValidated? && c.valid)
  }

  /** The quality calls only observe into the dough histograms. */
  lemma QualityCallKinds(result: CalculationResult)
    ensures forall c :: c in QualityCalls(result) ==> c.WeightRecorded? || c.HydrationRecorded? || c.AccuracyRecorded?
  {
  }

  /** Only quality observations and valid=true validations follow a success. */
  lemma SuccessCallKinds(result: CalculationResult)
    ensures forall c :: c in SuccessCalls(result) ==> IsSuccessCall(c)
  {
    QualityCallKinds(result);
    var g := IngredientCalls(result.ingredientsUsed);
    assert forall c :: c in g ==> IsSuccessCall(c);
  }

  lemma ObserveIfPositiveObservations(h0: Histogram, v: real, h: Histogram)
    ensures Observations(ObserveIfPositive(h0, v), h) == if v > 0.0 && h0 == h then [v] else []
  {
    if v > 0.0 {
      var c := ObserveIfPositive(h0, v)[0];
      assert ObserveIfPositive(h0, v) == [c];
      assert [c][1..] == [];
    }
  }

  /** Observations of the quality calls in histogram h. */
  lemma QualityCallsObservations(result: CalculationResult, h: Histogram)
    ensures Observations(QualityCalls(result), h)
         == if Measured(result, h) > 0.0 then [Measured(result, h)] else []
  {
    var w := ObserveIfPositive(DoughWeight, result.weight);
    var y := ObserveIfPositive(DoughHydration, result.hydration);
    var a := ObserveIfPositive(DoughAccuracy, result.accuracy);
    ObservationsAppend(w + y, a, h);
    ObservationsAppend(w, y, h);
    ObserveIfPositiveObservations(DoughWeight, result.weight, h);
    ObserveIfPositiveObservations(DoughHydration, result.hydration, h);
    ObserveIfPositiveObservations(DoughAccuracy, result.accuracy, h);
  }

  /** Observations of the calls that follow a success in histogram h. */
  lemma SuccessCallsObservations(result: CalculationResult, h: Histogram)
    ensures Observations(SuccessCalls(result), h)
         == if Measured(result, h) > 0.0 then [Measured(result, h)] else []
  {
    var g := IngredientCalls(result.ingredientsUsed);
    ObservationsAppend(QualityCalls(result), g, h);
    NoObservationsIn(g, h);
    QualityCallsObservations(result, h);
  }

  /** Observations of one result's calls in histogram h: its value when the
      result succeeded with a strictly positive value, and nothing otherwise. */
  lemma RecordCalculationObservations(result: CalculationResult, h: Histogram)
    ensures Observations(RecordCalculationCalls(result), h)
         == if result.success && Measured(result, h) > 0.0 then [Measured(result, h)] else []
  {
    var t := result.calculationType;
    var head := [TotalIncremented(t), DurationRecorded(t, result.duration)];
    var tail := if result.success then SuccessCalls(result) else [ErrorIncremented(t, result.errorType)];
    ObservationsAppend(head, tail, h);
    if result.success {
      SuccessCallsObservations(result, h);
    }
  }

  /** Durations recorded by one result: exactly its own, under its own type. */
  lemma RecordCalculationDurations(result: CalculationResult, t: string)
    ensures CalculationDurations(RecordCalculationCalls(result), t)
         == if t == result.calculationType then [result.duration] else []
  {
    var head := [TotalIncremented(result.calculationType), DurationRecorded(result.calculationType, result.duration)];
    var tail := if result.success then SuccessCalls(result) else [ErrorIncremented(result.calculationType, result.errorType)];
    DurationsAppend(head, tail, t);
    SuccessCallKinds(result);
    NoDurationsIn(tail, t);
  }

  /** A call after the total and the duration is never a total, a duration,
      a gauge update or a recipe-type increment; after a success it is never
      an error increment either. */
  lemma RecordCalculationTail(result: CalculationResult, c: DomainCall)
    requires c in RecordCalculationCalls(result)[2..]
    ensures !c.TotalIncremented? && !c.DurationRecorded? && !c.ActiveSet? && !c.RecipeTypeIncremented?
    ensures result.success ==> IsSuccessCall(c)
    ensures !result.success ==> c == ErrorIncremented(result.calculationType, result.errorType)
  {
    var t0 := result.calculationType;
    var tail := if result.success then SuccessCalls(result) else [ErrorIncremented(t0, result.errorType)];
    assert RecordCalculationCalls(result)[2..] == tail;
    if result.success {
      SuccessCallKinds(result);
    }
  }

  /** Every RecordCalculation increments the total once and records its
      duration once, whether it succeeded or failed. */
  lemma RecordCalculationCountsOnce(log: seq<DomainCall>, result: CalculationResult, t: string)
    ensures CalculationsTotal(log + RecordCalculationCalls(result), t)
         == CalculationsTotal(log, t) + (if t == result.calculationType then 1 else 0)
    ensures CalculationDurations(log + RecordCalculationCalls(result), t)
         == CalculationDurations(log, t) + (if t == result.calculationType then [result.duration] else [])
  {
    var calls := RecordCalculationCalls(result);
    var x := TotalIncremented(t);
    if x in calls[2..] {
      RecordCalculationTail(result, x);
    }
    assert calls == calls[..2] + calls[2..];
    assert multiset(calls)[x] == multiset(calls[..2])[x] + multiset(calls[2..])[x];
    assert multiset(log + calls)[x] == multiset(log)[x] + multiset(calls)[x];
    DurationsAppend(log, calls, t);
    RecordCalculationDurations(result, t);
  }

  /** The error counter of (t, e) grows by one exactly for a failed result of
      type t and kind e. */
  lemma RecordCalculationErrors(log: seq<DomainCall>, result: CalculationResult, t: string, e: string)
    ensures CalculationErrors(log + RecordCalculationCalls(result), t, e)
         == CalculationErrors(log, t, e)
            + (if !result.success && t == result.calculationType && e == result.errorType then 1 else 0)
  {
    var calls := RecordCalculationCalls(result);
    var x := ErrorIncremented(t, e);
    if result.success && x in calls[2..] {
      RecordCalculationTail(result, x);
    }
    if !result.success {
      assert calls[2..] == [ErrorIncremented(result.calculationType, result.errorType)];
    }
    assert calls == calls[..2] + calls[2..];
    assert multiset(calls)[x] == multiset(calls[..2])[x] + multiset(calls[2..])[x];
    assert multiset(log + calls)[x] == multiset(log)[x] + multiset(calls)[x];
  }

  /** A failed result: one error increment and nothing else beyond the total
      and the duration, whatever its dough values and ingredients. */
  lemma RecordCalculationFailure(result: CalculationResult, t: string, e: string, h: Histogram)
    requires !result.success
    ensures RecordCalculationCalls(result)
         == [TotalIncremented(result.calculationType),
             DurationRecorded(result.calculationType, result.duration),
             ErrorIncremented(result.calculationType, result.errorType)]
    ensures CalculationErrors(RecordCalculationCalls(result), t, e)
         == if t == result.calculationType && e == result.errorType then 1 else 0
    ensures Observations(RecordCalculationCalls(result), h) == []
    ensures forall c :: c in RecordCalculationCalls(result) ==> !c.IngredientValidated?
  {
    var calls := RecordCalculationCalls(result);
    assert calls == [calls[0], calls[1], calls[2]];
    NoObservationsIn(calls, h);
  }

  /** A successful result: no error increment, and each dough value recorded
      exactly when it is strictly positive. */
  lemma RecordCalculationSuccess(result: CalculationResult, h: Histogram)
    requires result.success
    ensures forall c :: c in RecordCalculationCalls(result) ==> !c.ErrorIncremented?
    ensures Observations(RecordCalculationCalls(result), h)
         == if Measured(result, h) > 0.0 then [Measured(result, h)] else []
  {
    var calls := RecordCalculationCalls(result);
    forall c | c in calls ensures !c.ErrorIncremented? {
      if c in calls[2..] {
        RecordCalculationTail(result, c);
      } else {
        assert calls == calls[..2] + calls[2..];
      }
    }
    RecordCalculationObservations(result, h);
  }

  /** A successful result ends with one valid=true validation per ingredient
      use, in list order; each name's counter grows by its number of uses and
      no valid=false validation is emitted. */
  lemma RecordCalculationIngredients(result: CalculationResult, name: string)
    requires result.success
    ensures IngredientValidations(RecordCalculationCalls(result), name, true)
         == multiset(result.ingredientsUsed)[name]
    ensures IngredientValidations(RecordCalculationCalls(result), name, false) == 0
    ensures var calls := RecordCalculationCalls(result);
            |calls| >= |result.ingredientsUsed|
            && calls[|calls| - |result.ingredientsUsed|..] == IngredientCalls(result.ingredientsUsed)
  {
    var calls := RecordCalculationCalls(result);
    var t := result.calculationType;
    var prefix := [TotalIncremented(t), DurationRecorded(t, result.duration)] + QualityCalls(result);
    var g := IngredientCalls(result.ingredientsUsed);
    assert calls == prefix + g;
    assert forall i :: 0 <= i < |prefix| ==> !prefix[i].IngredientValidated? by {
      QualityCallKinds(result);
      assert forall c :: c in prefix ==> !c.IngredientValidated?;
    }
    IngredientCallsAfter(prefix, result.ingredientsUsed, name);
  }

  /** RecordCalculation never touches the in-flight gauge or the recipe types. */
  lemma RecordCalculationLeavesGaugeAndRecipes(result: CalculationResult)
    ensures forall c :: c in RecordCalculationCalls(result) ==> !c.ActiveSet? && !c.RecipeTypeIncremented?
  {
    var calls := RecordCalculationCalls(result);
    forall c | c in calls ensures !c.ActiveSet? && !c.RecipeTypeIncremented? {
      if c in calls[2..] {
        RecordCalculationTail(result, c);
      } else {
        assert calls == calls[..2] + calls[2..];
      }
    }
  }

  // ---------------------------------------------------------------------------
  // A sequence of results recorded one after another.

  /** The calls made by recording each result in turn. */
  function RecordAllCalls(results: seq<CalculationResult>): seq<DomainCall> {
    if results == [] then []
    else RecordAllCalls(results[..|results| - 1]) + RecordCalculationCalls(results[|results| - 1])
  }

  /** How many results have type t. */
  function CountOfType(results: seq<CalculationResult>, t: string): nat {
    if results == [] then 0
    else CountOfType(results[..|results| - 1], t) + (if results[|results| - 1].calculationType == t then 1 else 0)
  }

  /** How many results failed with type t and error kind e. */
  function FailuresOf(results: seq<CalculationResult>, t: string, e: string): nat {
    if results == [] then 0
    else
      var r := results[|results| - 1];
      FailuresOf(results[..|results| - 1], t, e)
      + (if !r.success && r.calculationType == t && r.errorType == e then 1 else 0)
  }

  /** The strictly positive values of h among the successful results, in order. */
  function PositiveSuccessValues(results: seq<CalculationResult>, h: Histogram): seq<real> {
    if results == [] then []
    else
      var r := results[|results| - 1];
      PositiveSuccessValues(results[..|results| - 1], h)
      + (if r.success && Measured(r, h) > 0.0 then [Measured(r, h)] else [])
  }

  /** Over any sequence of results: the total and the number of durations per
      type equal the number of results of that type. */
  lemma {:induction false} RecordAllTotals(results: seq<CalculationResult>, t: string)
    ensures CalculationsTotal(RecordAllCalls(results), t) == CountOfType(results, t)
    ensures |CalculationDurations(RecordAllCalls(results), t)| == CountOfType(results, t)
  {
    if results != [] {
      var init := results[..|results| - 1];
      RecordAllTotals(init, t);
      RecordCalculationCountsOnce(RecordAllCalls(init), results[|results| - 1], t);
    }
  }

  /** Over any sequence of results: each histogram holds exactly the positive
      values of the successful results, in order. */
  lemma {:induction false} RecordAllObservations(results: seq<CalculationResult>, h: Histogram)
    ensures Observations(RecordAllCalls(results), h) == PositiveSuccessValues(results, h)
  {
    if results != [] {
      var init := results[..|results| - 1];
      RecordAllObservations(init, h);
      ObservationsAppend(RecordAllCalls(init), RecordCalculationCalls(results[|results| - 1]), h);
      RecordCalculationObservations(results[|results| - 1], h);
    }
  }

  /** Over any sequence of results: the error counter of (t, e) equals the
      number of failures of type t with kind e. */
  lemma {:induction false} RecordAllErrors(results: seq<CalculationResult>, t: string, e: string)
    ensures CalculationErrors(RecordAllCalls(results), t, e) == FailuresOf(results, t, e)
  {
    if results != [] {
      var init := results[..|results| - 1];
      var r := results[|results| - 1];
      RecordAllErrors(init, t, e);
      RecordCalculationErrors(RecordAllCalls(init), r, t, e);
    }
  }

  /** Two successful dough calculations of 500 and 750 and one failing with
      "invalid_input": three in total, weights [500, 750], one error. */
  lemma ThreeDoughCalculations()
    ensures var results := [
              CalculationResult("dough_calculation", 100000000, true, "", 500.0, 0.0, 0.0, []),
              CalculationResult("dough_calculation", 150000000, true, "", 750.0, 0.0, 0.0, []),
              CalculationResult("dough_calculation", 80000000, false, "invalid_input", 0.0, 0.0, 0.0, [])];
            && CalculationsTotal(RecordAllCalls(results), "dough_calculation") == 3
            && |CalculationDurations(RecordAllCalls(results), "dough_calculation")| == 3
            && Observations(RecordAllCalls(results), DoughWeight) == [500.0, 750.0]
            && CalculationErrors(RecordAllCalls(results), "dough_calculation", "invalid_input") == 1
  {
    var results := [
      CalculationResult("dough_calculation", 100000000, true, "", 500.0, 0.0, 0.0, []),
      CalculationResult("dough_calculation", 150000000, true, "", 750.0, 0.0, 0.0, []),
      CalculationResult("dough_calculation", 80000000, false, "invalid_input", 0.0, 0.0, 0.0, [])];
    assert results[..2][..1] == results[..1];
    assert results[..1][..0] == [];
    assert CountOfType(results[..1], "dough_calculation") == 1;
    assert CountOfType(results[..2], "dough_calculation") == 2;
    assert CountOfType(results, "dough_calculation") == 3;
    assert FailuresOf(results[..1], "dough_calculation", "invalid_input") == 0;
    assert FailuresOf(results[..2], "dough_calculation", "invalid_input") == 0;
    assert FailuresOf(results, "dough_calculation", "invalid_input") == 1;
    assert PositiveSuccessValues(results[..1], DoughWeight) == [500.0];
    assert PositiveSuccessValues(results[..2], DoughWeight) == [500.0, 750.0];
    assert PositiveSuccessValues(results, DoughWeight) == [500.0, 750.0];
    RecordAllTotals(results, "dough_calculation");
    RecordAllObservations(results, DoughWeight);
    RecordAllErrors(results, "dough_calculation", "invalid_input");
  }
}
