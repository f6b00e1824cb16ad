/**
 * The client-side inference service: a registry of loaded models behind a
 * lazily created single instance, three prediction pipelines that each look a
 * model up, run it on a `[1, n]` input buffer and release the buffers, and the
 * pure classifiers that turn raw outputs into labels.
 */
module InferenceService {
  import opened Wrappers
  import opened Tensors
  import Bands

  /** Registry keys. */
  const SourceKey := "sourceDetection"
  const HealthKey := "healthRisk"
  const QualityKey := "dataQuality"

  /** Model artifacts. */
  const SourcePath := "/models/contamination-source-model.json"
  const HealthPath := "/models/health-risk-model.json"
  const QualityPath := "/models/data-quality-model.json"

  /** What `loadModels` fetches, in order: (registry key, artifact path). */
  const ModelFiles: seq<(string, string)> :=
    [(SourceKey, SourcePath), (HealthKey, HealthPath), (QualityKey, QualityPath)]

  /** The errors a pipeline throws when its model is not in the registry. */
  const SourceNotLoaded := "Source detection model not loaded"
  const HealthNotLoaded := "Health risk model not loaded"
  const QualityNotLoaded := "Data quality model not loaded"

  type Registry = map<string, LayersModel>

  /** Fetching and deserialising one artifact: the model, or the error the fetch throws. */
  type Loader = string -> Result<LayersModel, string>

  datatype SourceScores = SourceScores(industrial: real, agricultural: real, urban: real, natural: real)

  datatype Severity = Low | Moderate | High | Critical

  datatype HealthRisk = HealthRisk(riskIncrease: real, confidence: real, severity: Severity)

  datatype DataQuality = DataQuality(isValid: bool, confidence: real, anomalies: seq<string>)

  // ----- model registry -----

  /** The registry after loading `files` in order, stopping silently at the first artifact that fails. */
  function LoadAll(models: Registry, files: seq<(string, string)>, load: Loader): Registry
    decreases |files|
  {
    if files == [] then models
    else
      match load(files[0].1)
      case Failure(_) => models
      case Success(m) => LoadAll(models[files[0].0 := m], files[1..], load)
  }

  /** How many of `files`, from the front, load before the first failure. */
  function LoadedPrefix(files: seq<(string, string)>, load: Loader): (k: nat)
    ensures k <= |files|
    ensures forall j :: 0 <= j < k ==> load(files[j].1).Success?
    ensures k < |files| ==> load(files[k].1).Failure?
  {
    if files == [] || load(files[0].1).Failure? then 0
    else 1 + LoadedPrefix(files[1..], load)
  }

  function KeysOf(files: seq<(string, string)>): set<string> {
    set j | 0 <= j < |files| :: files[j].0
  }

  ghost predicate DistinctKeys(files: seq<(string, string)>) {
    forall i, j :: 0 <= i < j < |files| ==> files[i].0 != files[j].0
  }

  /**
   * Loading sets the keys of the files that loaded before the first failure to the
   * loaded models, and leaves every other key exactly as it was: present or absent,
   * with the same model. Nothing is deduplicated: a key already present is overwritten.
   */
  lemma {:induction false} LoadAllEffect(models: Registry, files: seq<(string, string)>, load: Loader)
    requires DistinctKeys(files)
    ensures var r, k := LoadAll(models, files, load), LoadedPrefix(files, load);
      && (forall j :: 0 <= j < k ==> files[j].0 in r && r[files[j].0] == load(files[j].1).value)
      && (forall key :: key !in KeysOf(files[..k]) ==>
            (key in r <==> key in models) && (key in r ==> r[key] == models[key]))
    decreases |files|
  {
    if files != [] && load(files[0].1).Success? {
      var m := load(files[0].1).value;
      var rest := files[1..];
      assert DistinctKeys(rest) by {
        forall i, j | 0 <= i < j < |rest| ensures rest[i].0 != rest[j].0 {
          assert rest[i] == files[i + 1] && rest[j] == files[j + 1];
        }
      }
      LoadAllEffect(models[files[0].0 := m], rest, load);
      var r, k := LoadAll(models, files, load), LoadedPrefix(files, load);
      assert r == LoadAll(models[files[0].0 := m], rest, load);
      assert k == 1 + LoadedPrefix(rest, load);
      assert KeysOf(files[..k]) == {files[0].0} + KeysOf(rest[..k - 1]) by {
        assert forall j :: 0 < j < k ==> files[..k][j] == rest[..k - 1][j - 1];
        forall key | key in KeysOf(rest[..k - 1]) ensures key in KeysOf(files[..k]) {
          var j :| 0 <= j < k - 1 && rest[..k - 1][j].0 == key;
          assert files[..k][j + 1].0 == key;
        }
      }
      forall j | 0 <= j < k ensures files[j].0 in r && r[files[j].0] == load(files[j].1).value {
        if j > 0 {
          assert files[j] == rest[j - 1];
        } else {
          assert files[0].0 !in KeysOf(rest[..k - 1]) by {
            forall i | 0 <= i < k - 1 ensures rest[i].0 != files[0].0 {
              assert rest[i] == files[i + 1];
            }
          }
        }
      }
    }
  }

  /** Loading the three artifacts: the first failure ends the call, and the keys before it stay set. */
  lemma LoadModelsOutcome(models: Registry, load: Loader)
    ensures var r := LoadAll(models, ModelFiles, load);
      && (load(SourcePath).Failure? ==> r == models)
      && (load(SourcePath).Success? && load(HealthPath).Failure? ==>
            r == models[SourceKey := load(SourcePath).value])
      && (load(SourcePath).Success? && load(HealthPath).Success? && load(QualityPath).Failure? ==>
            r == models[SourceKey := load(SourcePath).value][HealthKey := load(HealthPath).value])
      && (load(SourcePath).Success? && load(HealthPath).Success? && load(QualityPath).Success? ==>
            r == models[SourceKey := load(SourcePath).value][HealthKey := load(HealthPath).value]
                        [QualityKey := load(QualityPath).value])
  {
    var tail1, tail2 := ModelFiles[1..], ModelFiles[1..][1..];
    assert tail1 == [(HealthKey, HealthPath), (QualityKey, QualityPath)];
    assert tail2 == [(QualityKey, QualityPath)];
    assert tail2[1..] == [];
    if load(SourcePath).Success? {
      var m1 := models[SourceKey := load(SourcePath).value];
      assert LoadAll(models, ModelFiles, load) == LoadAll(m1, tail1, load);
      if load(HealthPath).Success? {
        var m2 := m1[HealthKey := load(HealthPath).value];
        assert LoadAll(m1, tail1, load) == LoadAll(m2, tail2, load);
        if load(QualityPath).Success? {
          assert LoadAll(m2, tail2, load) == LoadAll(m2[QualityKey := load(QualityPath).value], [], load);
        }
      }
    }
  }

  // ----- pipelines, as values -----

  /** The value read at index `i` of a model output; an index past the end reads as 0.0. */
  function Read(out: seq<real>, i: nat): real {
    if i < |out| then out[i] else 0.0
  }

  /** Looking a model up and running it on one input row. */
  function Inference(models: Registry, key: string, notLoaded: string, input: seq<real>): Result<seq<real>, string> {
    if key !in models then Failure(notLoaded) else models[key].run(input)
  }

  function SourceDetection(models: Registry, pollution: seq<real>, geo: seq<real>): Result<SourceScores, string> {
    match Inference(models, SourceKey, SourceNotLoaded, pollution + geo)
    case Failure(e) => Failure(e)
    case Success(out) => Success(SourceScores(Read(out, 0), Read(out, 1), Read(out, 2), Read(out, 3)))
  }

  function HealthRiskInput(hmpi: real, population: real, timeframe: string): seq<real> {
    [hmpi, population, EncodeTimeframe(timeframe)]
  }

  function HealthRiskAssessment(models: Registry, hmpi: real, population: real, timeframe: string): Result<HealthRisk, string> {
    match Inference(models, HealthKey, HealthNotLoaded, HealthRiskInput(hmpi, population, timeframe))
    case Failure(e) => Failure(e)
    case Success(out) => Success(HealthRisk(Read(out, 0), Read(out, 1), CategorizeSeverity(Read(out, 0))))
  }

  function DataQualityValidation(models: Registry, readings: seq<real>): Result<DataQuality, string> {
    match Inference(models, QualityKey, QualityNotLoaded, readings)
    case Failure(e) => Failure(e)
    case Success(out) => Success(DataQuality(Read(out, 0) > 0.7, Read(out, 0), DetectAnomalies(readings, out)))
  }

  /** Source detection passes the first four outputs through as the four named scores. */
  lemma SourceScoresAreOutputs(models: Registry, pollution: seq<real>, geo: seq<real>)
    requires SourceKey in models && models[SourceKey].run(pollution + geo).Success?
    requires |models[SourceKey].run(pollution + geo).value| >= 4
    ensures var r, out := SourceDetection(models, pollution, geo), models[SourceKey].run(pollution + geo).value;
      r.Success? && [r.value.industrial, r.value.agricultural, r.value.urban, r.value.natural] == out[..4]
  {
  }

  /** Health assessment reports output 0 as the risk increase, output 1 as the confidence, and classifies output 0. */
  lemma HealthRiskOutputs(models: Registry, hmpi: real, population: real, timeframe: string)
    requires HealthKey in models && models[HealthKey].run(HealthRiskInput(hmpi, population, timeframe)).Success?
    requires |models[HealthKey].run(HealthRiskInput(hmpi, population, timeframe)).value| >= 2
    ensures var r, out := HealthRiskAssessment(models, hmpi, population, timeframe),
                          models[HealthKey].run(HealthRiskInput(hmpi, population, timeframe)).value;
      && r.Success?
      && r.value.riskIncrease == out[0]
      && r.value.confidence == out[1]
      && r.value.severity == CategorizeSeverity(out[0])
  {
  }

  /** Data validation reports output 0 as the confidence, valid exactly when that output exceeds 0.7. */
  lemma DataQualityOutputs(models: Registry, readings: seq<real>)
    requires QualityKey in models && models[QualityKey].run(readings).Success?
    requires |models[QualityKey].run(readings).value| >= 1
    ensures var r, out := DataQualityValidation(models, readings), models[QualityKey].run(readings).value;
      && r.Success?
      && r.value.confidence == out[0]
      && (r.value.isValid <==> out[0] > 0.7)
      && r.value.anomalies == []
  {
  }

  /** A health-risk result's severity is always the classification of its own risk increase. */
  lemma HealthRiskSeverityConsistent(models: Registry, hmpi: real, population: real, timeframe: string)
    ensures var r := HealthRiskAssessment(models, hmpi, population, timeframe);
      r.Success? ==> r.value.severity == CategorizeSeverity(r.value.riskIncrease)
  {
  }

  /** A data-quality result is valid exactly when its confidence exceeds 0.7, and lists no anomalies. */
  lemma DataQualityValidityIsThreshold(models: Registry, readings: seq<real>)
    ensures var r := DataQualityValidation(models, readings);
      r.Success? ==> (r.value.isValid <==> r.value.confidence > 0.7) && r.value.anomalies == []
  {
  }

  // ----- classifiers -----

  /** Time horizon fed to the health model; a timeframe outside the table falls back to one year. */
  function EncodeTimeframe(timeframe: string): (r: real)
    ensures r in {0.5, 1.0, 5.0}
    ensures timeframe == "6months" ==> r == 0.5
    ensures timeframe == "5years" ==> r == 5.0
    ensures timeframe != "6months" && timeframe != "5years" ==> r == 1.0
  {
    if timeframe == "6months" then 0.5
    else if timeframe == "1year" then 1.0
    else if timeframe == "5years" then 5.0
    else 1.0
  }

  const SeverityCuts: seq<real> := [0.2, 0.5, 0.8]

  function SeverityRank(s: Severity): nat {
    match s
    case Low => 0
    case Moderate => 1
    case High => 2
    case Critical => 3
  }

  function SeverityName(s: Severity): string {
    match s
    case Low => "Low"
    case Moderate => "Moderate"
    case High => "High"
    case Critical => "Critical"
  }

  function CategorizeSeverity(risk: real): Severity {
    if risk < 0.2 then Low
    else if risk < 0.5 then Moderate
    else if risk < 0.8 then High
    else Critical
  }

  /** The severity band is the number of cut points 0.2, 0.5, 0.8 that the risk has reached. */
  lemma CategorizeSeverityBand(risk: real)
    ensures SeverityRank(CategorizeSeverity(risk)) == Bands.Reached(SeverityCuts, risk)
  {
    var c1, c2, c3 := SeverityCuts[1..], SeverityCuts[2..], SeverityCuts[3..];
    assert c1 == [0.5, 0.8] && c1[1..] == c2 && c2 == [0.8] && c2[1..] == c3 && c3 == [];
    assert Bands.Reached(c2, risk) == (if 0.8 <= risk then 1 else 0);
    assert Bands.Reached(c1, risk) == (if 0.5 <= risk then 1 else 0) + Bands.Reached(c2, risk);
  }

  /** A higher risk never yields a lower severity. */
  lemma CategorizeSeverityMonotone(risk1: real, risk2: real)
    requires risk1 <= risk2
    ensures SeverityRank(CategorizeSeverity(risk1)) <= SeverityRank(CategorizeSeverity(risk2))
  {
    CategorizeSeverityBand(risk1);
    CategorizeSeverityBand(risk2);
    Bands.ReachedMonotone(SeverityCuts, risk1, risk2);
  }

  /** Placeholder anomaly detection: no anomaly is ever reported. */
  function DetectAnomalies(readings: seq<real>, predictions: seq<real>): (anomalies: seq<string>)
    ensures anomalies == []
  {
    []
  }

  // ----- the service object -----

  class AIService {
    var models: Registry

    constructor ()
      ensures models == map[]
    {
      models := map[];
    }

    /**
     * Loads the three artifacts in order, storing each under its key as soon as it
     * has loaded; the first failure ends the call and is swallowed (logged, not rethrown).
     */
    method LoadModels(load: Loader)
      modifies this
      ensures models == LoadAll(old(models), ModelFiles, load)
    {
      LoadModelsOutcome(models, load);
      var sourceModel := load(SourcePath);
      if sourceModel.Failure? { return; }
      models := models[SourceKey := sourceModel.value];
      var healthModel := load(HealthPath);
      if healthModel.Failure? { return; }
      models := models[HealthKey := healthModel.value];
      var qualityModel := load(QualityPath);
      if qualityModel.Failure? { return; }
      models := models[QualityKey := qualityModel.value];
    }

    /**
     * Looks `key` up and throws `notLoaded`, allocating nothing, when it is absent;
     * otherwise allocates the `[1, |input|]` input buffer, runs the model, reads its
     * output and disposes both buffers. When the model throws, the error propagates
     * and the input buffer is left live.
     */
    method Infer(tf: Engine, key: string, notLoaded: string, input: seq<real>) returns (r: Result<seq<real>, string>)
      requires tf.Valid()
      modifies tf
      ensures tf.Valid()
      ensures r == Inference(models, key, notLoaded, input)
      ensures key !in models ==> tf.history == old(tf.history) && tf.live == old(tf.live)
      ensures key in models ==>
        |tf.history| > |old(tf.history)| && tf.history[|old(tf.history)|] == Tensor(|old(tf.history)|, 1, |input|, input)
      ensures r.Success? ==> |tf.history| == |old(tf.history)| + 2 && tf.live == old(tf.live)
      ensures key in models && r.Failure? ==>
        |tf.history| == |old(tf.history)| + 1 && tf.live == old(tf.live) + {|old(tf.history)|}
    {
      if key !in models {
        return Failure(notLoaded);
      }
      var model := models[key];
      var inputTensor := tf.Tensor2d(input, 1, |input|);
      var prediction := tf.Predict(model, inputTensor);
      if prediction.Failure? {
        return Failure(prediction.error);
      }
      var result := prediction.value.values;
      tf.Dispose(inputTensor);
      tf.Dispose(prediction.value);
      return Success(result);
    }

    method PredictContaminationSource(tf: Engine, pollution: seq<real>, geo: seq<real>) returns (r: Result<SourceScores, string>)
      requires tf.Valid()
      modifies tf
      ensures tf.Valid()
      ensures r == SourceDetection(models, pollution, geo)
      ensures SourceKey !in models ==> r == Failure(SourceNotLoaded) && tf.history == old(tf.history) && tf.live == old(tf.live)
      ensures SourceKey in models ==>
        var n := |old(tf.history)|;
        |tf.history| > n && tf.history[n] == Tensor(n, 1, |pollution| + |geo|, pollution + geo)
      ensures r.Success? ==> tf.live == old(tf.live)
    {
      var out := Infer(tf, SourceKey, SourceNotLoaded, pollution + geo);
      match out
      case Failure(e) =>
        r := Failure(e);
      case Success(result) =>
        r := Success(SourceScores(Read(result, 0), Read(result, 1), Read(result, 2), Read(result, 3)));
    }

    method AssessHealthRisk(tf: Engine, hmpi: real, population: real, timeframe: string) returns (r: Result<HealthRisk, string>)
      requires tf.Valid()
      modifies tf
      ensures tf.Valid()
      ensures r == HealthRiskAssessment(models, hmpi, population, timeframe)
      ensures var input := HealthRiskInput(hmpi, population, timeframe);
        HealthKey in models && models[HealthKey].run(input).Success? && |models[HealthKey].run(input).value| >= 2 ==>
          var out := models[HealthKey].run(input).value;
          r.Success? && r.value.riskIncrease == out[0] && r.value.confidence == out[1]
          && r.value.severity == CategorizeSeverity(out[0])
      ensures HealthKey !in models ==> r == Failure(HealthNotLoaded) && tf.history == old(tf.history) && tf.live == old(tf.live)
      ensures HealthKey in models ==>
        var n := |old(tf.history)|;
        |tf.history| > n && tf.history[n] == Tensor(n, 1, 3, [hmpi, population, EncodeTimeframe(timeframe)])
      ensures r.Success? ==> tf.live == old(tf.live)
    {
      var out := Infer(tf, HealthKey, HealthNotLoaded, [hmpi, population, EncodeTimeframe(timeframe)]);
      match out
      case Failure(e) =>
        r := Failure(e);
      case Success(result) =>
        r := Success(HealthRisk(Read(result, 0), Read(result, 1), CategorizeSeverity(Read(result, 0))));
    }

    method ValidateDataQuality(tf: Engine, readings: seq<real>) returns (r: Result<DataQuality, string>)
      requires tf.Valid()
      modifies tf
      ensures tf.Valid()
      ensures r == DataQualityValidation(models, readings)
      ensures QualityKey in models && models[QualityKey].run(readings).Success? && |models[QualityKey].run(readings).value| >= 1 ==>
        var out := models[QualityKey].run(readings).value;
        r.Success? && r.value.confidence == out[0] && (r.value.isValid <==> out[0] > 0.7)
      ensures QualityKey !in models ==> r == Failure(QualityNotLoaded) && tf.history == old(tf.history) && tf.live == old(tf.live)
      ensures QualityKey in models ==>
        var n := |old(tf.history)|;
        |tf.history| > n && tf.history[n] == Tensor(n, 1, |readings|, readings)
      ensures r.Success? ==> tf.live == old(tf.live)
    {
      var out := Infer(tf, QualityKey, QualityNotLoaded, readings);
      match out
      case Failure(e) =>
        r := Failure(e);
      case Success(result) =>
        r := Success(DataQuality(Read(result, 0) > 0.7, Read(result, 0), DetectAnomalies(readings, result)));
    }
  }

  /** Holds the service's one instance (the class's static field). */
  class ServiceRuntime {
    var instance: AIService?

    constructor ()
      ensures instance == null
    {
      instance := null;
    }

    /** The first call creates the instance with an empty registry; later calls return that same object. */
    method GetInstance() returns (s: AIService)
      modifies this
      ensures old(instance) != null ==> s == old(instance)
      ensures old(instance) == null ==> fresh(s) && s.models == map[]
      ensures instance == s
    {
      if instance == null {
        instance := new AIService();
      }
      s := instance;
    }
  }

  /** Every caller sees the same service object, whichever call created it. */
  method GetInstanceTwice(runtime: ServiceRuntime) returns (a: AIService, b: AIService)
    modifies runtime
    ensures a == b && runtime.instance == a
  {
    a := runtime.GetInstance();
    b := runtime.GetInstance();
  }
}
