/** EvalLoader: the eval record built from parsed metadata, and its checks. */
module Eval {
  import opened Wrappers
  import opened Json
  import opened ConceptTypes

  datatype Scenario = Scenario(
    name: string,
    description: Option<string>,
    inputs: Fields,
    expectedOutputs: Option<Fields>,
    assertions: Option<seq<string>>)

  datatype MetricKind = Accuracy | Coverage | Performance | Quality

  datatype Metric = Metric(name: string, kind: MetricKind, threshold: Option<int>)

  /** eval.yml after schema parsing. */
  datatype EvalMetadata = EvalMetadata(
    name: string,
    description: Option<string>,
    targets: seq<string>,
    scenarios: seq<Scenario>,
    metrics: Option<seq<Metric>>,
    successThreshold: Option<int>,
    platforms: Option<seq<string>>)

  datatype EvalRecord = EvalRecord(
    name: string,
    conceptType: ConceptType,
    description: Option<string>,
    targets: seq<string>,
    scenarios: seq<Scenario>,
    metrics: seq<Metric>,
    successThreshold: int,
    platforms: seq<string>)

  const DefaultThreshold: int := 80

  /** `success_threshold || 80`: absent and 0 (falsy) both give 80. */
  function Threshold(t: Option<int>): (r: int)
    ensures t.None? ==> r == DefaultThreshold
    ensures t.Some? ==> r == if t.value == 0 then DefaultThreshold else t.value
  {
    match t
    case Some(n) => if n != 0 then n else DefaultThreshold
    case None => DefaultThreshold
  }

  /** `loadConceptContent`: type eval, metrics and platforms default to []. */
  function EvalOf(m: EvalMetadata): (r: EvalRecord)
    ensures r.conceptType == EvalType && r.targets == m.targets && r.scenarios == m.scenarios
    ensures r.metrics == if m.metrics.Some? then m.metrics.value else []
    ensures r.platforms == if m.platforms.Some? then m.platforms.value else []
    ensures r.successThreshold != 0
  {
    EvalRecord(m.name, EvalType, m.description, m.targets, m.scenarios,
      if m.metrics.Some? then m.metrics.value else [],
      Threshold(m.successThreshold),
      if m.platforms.Some? then m.platforms.value else [])
  }

  /** An explicit threshold of 0 is replaced by the default. */
  lemma ZeroThresholdBecomesDefault(m: EvalMetadata)
    requires m.successThreshold == Some(0)
    ensures EvalOf(m).successThreshold == 80
  {
  }

  /** The first target without ':', if any. */
  function FirstMalformed(targets: seq<string>): (r: Option<nat>)
    ensures r.Some? ==> r.value < |targets| && ':' !in targets[r.value]
    ensures r.Some? ==> forall j :: 0 <= j < r.value ==> ':' in targets[j]
    ensures r.None? ==> forall j :: 0 <= j < |targets| ==> ':' in targets[j]
  {
    if |targets| == 0 then None
    else if ':' !in targets[0] then Some(0)
    else match FirstMalformed(targets[1..])
      case None => None
      case Some(k) => Some(k + 1)
  }

  /** `validateConcept`: scenarios, then targets, then each target's "type:name" shape. */
  function ValidateEval(e: EvalRecord): (r: Outcome)
    ensures r.Pass? <==> |e.scenarios| > 0 && |e.targets| > 0 && forall j :: 0 <= j < |e.targets| ==> ':' in e.targets[j]
    ensures |e.scenarios| == 0 ==> r == Fail("Eval must have at least one scenario")
    ensures |e.scenarios| > 0 && |e.targets| == 0 ==> r == Fail("Eval must target at least one concept")
  {
    if |e.scenarios| == 0 then Fail("Eval must have at least one scenario")
    else if |e.targets| == 0 then Fail("Eval must target at least one concept")
    else match FirstMalformed(e.targets)
      case Some(k) => Fail("Invalid target format: " + e.targets[k] + ". Use format 'type:name'")
      case None => Pass
  }

  /** The error names the first malformed target. */
  lemma FirstMalformedReported(e: EvalRecord, k: nat)
    requires |e.scenarios| > 0 && k < |e.targets| && ':' !in e.targets[k]
    requires forall j :: 0 <= j < k ==> ':' in e.targets[j]
    ensures ValidateEval(e) == Fail("Invalid target format: " + e.targets[k] + ". Use format 'type:name'")
  {
    var f := FirstMalformed(e.targets);
    assert f.Some?;
  }
}
