/**
 * The health-risk page: one model prediction per time horizon, each turned into
 * an affected-population estimate and a list of likely diseases, plus the trend
 * chart built from them and the colour and label helpers.
 */
module PredictiveHealthAssessment {
  import opened Wrappers
  import opened Tensors
  import S = InferenceService
  import Text

  datatype HealthPrediction = HealthPrediction(
    timeframe: string, riskIncrease: real, affectedPopulation: int,
    confidence: real, severity: string, diseases: seq<string>)

  datatype TrendPoint = TrendPoint(month: nat, risk: real, population: int)

  /** The horizons analysed, in order. */
  const Timeframes: seq<string> := ["6months", "1year", "5years"]

  /** The diseases listed, most likely first. */
  const AllDiseases: seq<string> :=
    ["Kidney Disease", "Cardiovascular Issues", "Neurological Disorders", "Liver Problems", "Cancer Risk"]

  // ----- numeric helpers -----

  /** `Math.ceil`. */
  function Ceil(x: real): (n: int)
    ensures n as real - 1.0 < x <= n as real
  {
    -((-x).Floor)
  }

  /** `Math.round`: the nearest integer, halves rounded up. */
  function Round(x: real): (n: int)
    ensures x - 0.5 < n as real <= x + 0.5
  {
    (x + 0.5).Floor
  }

  /** `slice(0, end)`: an end past the length is clamped, a negative end counts back from the length. */
  function SliceTo<T>(s: seq<T>, end: int): (r: seq<T>)
    ensures r <= s
    ensures 0 <= end <= |s| ==> |r| == end
    ensures end > |s| ==> r == s
    ensures end < 0 ==> |r| == if |s| + end < 0 then 0 else |s| + end
  {
    var e := if end < 0 then (if |s| + end < 0 then 0 else |s| + end) else if end > |s| then |s| else end;
    s[..e]
  }

  // ----- predictions -----

  function GetDiseasesByRisk(riskLevel: real): (diseases: seq<string>)
    ensures diseases <= AllDiseases
  {
    SliceTo(AllDiseases, Ceil((riskLevel / 100.0) * (|AllDiseases| as real)))
  }

  /** For a risk in [0, 100], one disease is listed per started 20 points of risk. */
  lemma DiseaseCountFollowsRisk(riskLevel: real)
    requires 0.0 <= riskLevel <= 100.0
    ensures var n := |GetDiseasesByRisk(riskLevel)|;
      && n == Ceil(riskLevel * 5.0 / 100.0)
      && (riskLevel == 0.0 ==> n == 0)
      && (riskLevel > 0.0 ==> (n - 1) as real * 20.0 < riskLevel <= n as real * 20.0)
  {
    assert (riskLevel / 100.0) * 5.0 == riskLevel * 5.0 / 100.0;
  }

  /** A risk above 80 lists every disease. */
  lemma HighRiskListsAllDiseases(riskLevel: real)
    requires riskLevel > 80.0
    ensures GetDiseasesByRisk(riskLevel) == AllDiseases
  {
  }

  /**
   * A negative risk is not an empty list: the negative count is taken as an end
   * counted from the back, so a risk of -30 lists the first four diseases.
   */
  lemma NegativeRiskListsDiseases()
    ensures GetDiseasesByRisk(-30.0) == AllDiseases[..4]
    ensures forall r: real :: -20.0 < r <= 0.0 ==> GetDiseasesByRisk(r) == []
  {
    assert Ceil(-30.0 / 100.0 * 5.0) == -1;
  }

  function PredictionFor(timeframe: string, population: real, r: S.HealthRisk): HealthPrediction {
    HealthPrediction(
      timeframe, r.riskIncrease, Round(population * (r.riskIncrease / 100.0)),
      r.confidence, S.SeverityName(r.severity), GetDiseasesByRisk(r.riskIncrease))
  }

  /** The predictions for `frames`, one model call each, in order; the first failing call fails the whole. */
  function AnalyzeFrames(models: S.Registry, hmpi: real, population: real, frames: seq<string>): Result<seq<HealthPrediction>, string>
    decreases |frames|
  {
    if frames == [] then Success([])
    else
      match AnalyzeFrames(models, hmpi, population, frames[..|frames| - 1])
      case Failure(e) => Failure(e)
      case Success(ps) =>
        match S.HealthRiskAssessment(models, hmpi, population, frames[|frames| - 1])
        case Failure(e) => Failure(e)
        case Success(r) => Success(ps + [PredictionFor(frames[|frames| - 1], population, r)])
  }

  /**
   * The analysis succeeds exactly when every horizon's model call does, and then
   * holds one prediction per horizon, in horizon order, built from that call.
   */
  lemma {:induction false} AnalyzeFramesShape(models: S.Registry, hmpi: real, population: real, frames: seq<string>)
    ensures var a := AnalyzeFrames(models, hmpi, population, frames);
      && (a.Success? <==> forall i :: 0 <= i < |frames| ==> S.HealthRiskAssessment(models, hmpi, population, frames[i]).Success?)
      && (a.Success? ==> |a.value| == |frames| && forall i :: 0 <= i < |frames| ==>
            a.value[i] == PredictionFor(frames[i], population, S.HealthRiskAssessment(models, hmpi, population, frames[i]).value))
    decreases |frames|
  {
    if frames != [] {
      var init := frames[..|frames| - 1];
      AnalyzeFramesShape(models, hmpi, population, init);
      assert forall i :: 0 <= i < |init| ==> init[i] == frames[i];
    }
  }

  /** The page's derived fields of a prediction for `timeframe`. */
  ghost predicate PredictionFields(p: HealthPrediction, timeframe: string, population: real) {
    && p.timeframe == timeframe
    && p.affectedPopulation == Round(population * p.riskIncrease / 100.0)
    && p.diseases == GetDiseasesByRisk(p.riskIncrease)
    && p.severity == S.SeverityName(S.CategorizeSeverity(p.riskIncrease))
  }

  /** A prediction built from a model result whose severity follows its risk has those fields. */
  lemma PredictionForFields(timeframe: string, population: real, r: S.HealthRisk)
    requires r.severity == S.CategorizeSeverity(r.riskIncrease)
    ensures var p := PredictionFor(timeframe, population, r);
      p.riskIncrease == r.riskIncrease && p.confidence == r.confidence && PredictionFields(p, timeframe, population)
  {
    assert population * (r.riskIncrease / 100.0) == population * r.riskIncrease / 100.0;
  }

  /** A successful analysis gives one prediction per horizon with the page's derived fields. */
  lemma AnalysisFields(models: S.Registry, hmpi: real, population: real, frames: seq<string>)
    ensures var a := AnalyzeFrames(models, hmpi, population, frames);
      a.Success? ==> |a.value| == |frames| && forall i :: 0 <= i < |frames| ==> PredictionFields(a.value[i], frames[i], population)
  {
    AnalyzeFramesShape(models, hmpi, population, frames);
    var a := AnalyzeFrames(models, hmpi, population, frames);
    if a.Success? {
      forall i | 0 <= i < |frames|
        ensures PredictionFields(a.value[i], frames[i], population)
      {
        var r := S.HealthRiskAssessment(models, hmpi, population, frames[i]);
        S.HealthRiskSeverityConsistent(models, hmpi, population, frames[i]);
        PredictionForFields(frames[i], population, r.value);
      }
    }
  }

  /** One more successful horizon extends a successful analysis by its prediction. */
  lemma AnalyzeFramesStep(models: S.Registry, hmpi: real, population: real, frames: seq<string>, i: nat, ps: seq<HealthPrediction>)
    requires i < |frames|
    requires AnalyzeFrames(models, hmpi, population, frames[..i]) == Success(ps)
    requires S.HealthRiskAssessment(models, hmpi, population, frames[i]).Success?
    ensures AnalyzeFrames(models, hmpi, population, frames[..i + 1]) ==
      Success(ps + [PredictionFor(frames[i], population, S.HealthRiskAssessment(models, hmpi, population, frames[i]).value)])
  {
    assert frames[..i + 1][..i] == frames[..i];
  }

  /** A failing horizon fails the whole analysis. */
  lemma AnalyzeFramesFails(models: S.Registry, hmpi: real, population: real, frames: seq<string>, i: nat)
    requires i < |frames|
    requires S.HealthRiskAssessment(models, hmpi, population, frames[i]).Failure?
    ensures AnalyzeFrames(models, hmpi, population, frames).Failure?
  {
    AnalyzeFramesShape(models, hmpi, population, frames);
  }

  // ----- trend chart -----

  function RiskAt(preds: seq<HealthPrediction>, i: nat): real {
    if i < |preds| then preds[i].riskIncrease else 0.0
  }

  function PopulationAt(preds: seq<HealthPrediction>, i: nat): int {
    if i < |preds| then preds[i].affectedPopulation else 0
  }

  function GenerateRiskTrendData(preds: seq<HealthPrediction>): (points: seq<TrendPoint>)
    ensures |points| == 4
    ensures points[0] == TrendPoint(0, 0.0, 0)
    ensures points[1].month == 6 && points[2].month == 12 && points[3].month == 60
    ensures forall k :: 1 <= k < 4 ==>
      && (k - 1 < |preds| ==> points[k].risk == preds[k - 1].riskIncrease && points[k].population == preds[k - 1].affectedPopulation)
      && (k - 1 >= |preds| ==> points[k].risk == 0.0 && points[k].population == 0)
  {
    [ TrendPoint(0, 0.0, 0),
      TrendPoint(6, RiskAt(preds, 0), PopulationAt(preds, 0)),
      TrendPoint(12, RiskAt(preds, 1), PopulationAt(preds, 1)),
      TrendPoint(60, RiskAt(preds, 2), PopulationAt(preds, 2)) ]
  }

  /** After a successful analysis the chart's later points are the model's risks for the three horizons. */
  lemma TrendFollowsAnalysis(models: S.Registry, hmpi: real, population: real)
    ensures var a := AnalyzeFrames(models, hmpi, population, Timeframes);
      a.Success? ==> forall k :: 1 <= k < 4 ==>
        var r := S.HealthRiskAssessment(models, hmpi, population, Timeframes[k - 1]);
        r.Success? && GenerateRiskTrendData(a.value)[k].risk == r.value.riskIncrease
  {
    AnalyzeFramesShape(models, hmpi, population, Timeframes);
  }

  // ----- labels and colours -----

  function GetSeverityColor(severity: string): (colour: string)
    ensures colour in {"success", "info", "warning", "error", "primary"}
    ensures colour == "primary" <==> Text.ToLower(severity) !in {"low", "moderate", "high", "critical"}
  {
    var s := Text.ToLower(severity);
    if s == "low" then "success"
    else if s == "moderate" then "info"
    else if s == "high" then "warning"
    else if s == "critical" then "error"
    else "primary"
  }

  /** The colour depends on the severity only up to letter case. */
  lemma SeverityColorIgnoresCase(severity: string)
    ensures GetSeverityColor(severity) == GetSeverityColor(Text.ToLower(severity))
  {
    Text.ToLowerIdempotent(severity);
  }

  /** The service's four severity names map to four distinct colours, in rank order. */
  lemma ServiceSeverityColors(severity: S.Severity)
    ensures GetSeverityColor(S.SeverityName(severity)) == ["success", "info", "warning", "error"][S.SeverityRank(severity)]
  {
    var name := S.SeverityName(severity);
    Text.ToLowerCapitalized(name);
    var lower := Text.ToLower(name);
    assert lower == [Text.LowerChar(name[0])] + name[1..];
    match severity
    case Low => assert lower == "low";
    case Moderate => assert lower == "moderate";
    case High => assert lower == "high";
    case Critical => assert lower == "critical";
  }

  function FormatTimeframe(timeframe: string): (caption: string)
    ensures timeframe !in Timeframes ==> caption == timeframe
  {
    if timeframe == "6months" then "6 Months"
    else if timeframe == "1year" then "1 Year"
    else if timeframe == "5years" then "5 Years"
    else timeframe
  }

  /** The three horizons get three distinct labels, none equal to a raw key. */
  lemma FormatTimeframeLabels()
    ensures forall i :: 0 <= i < 3 ==> FormatTimeframe(Timeframes[i]) !in Timeframes
    ensures forall i, j :: 0 <= i < j < 3 ==> FormatTimeframe(Timeframes[i]) != FormatTimeframe(Timeframes[j])
  {
  }

  // ----- the page -----

  class HealthAssessmentPage {
    var hmpiValue: real
    var population: real
    var predictions: seq<HealthPrediction>
    var isAnalyzing: bool
    var riskTrendData: seq<TrendPoint>

    constructor ()
      ensures hmpiValue == 75.0 && population == 100000.0
      ensures predictions == [] && !isAnalyzing && riskTrendData == []
    {
      hmpiValue := 75.0;
      population := 100000.0;
      predictions := [];
      isAnalyzing := false;
      riskTrendData := [];
    }

    /** The two sliders. */
    method SetInputs(hmpi: real, pop: real)
      modifies this
      ensures hmpiValue == hmpi && population == pop
      ensures predictions == old(predictions) && isAnalyzing == old(isAnalyzing) && riskTrendData == old(riskTrendData)
    {
      hmpiValue, population := hmpi, pop;
    }

    /**
     * Clears the predictions, asks the service for each horizon in turn and, when
     * all succeed, shows them and rebuilds the trend chart. A failure is logged and
     * leaves the predictions empty and the chart as it was; either way the page is
     * no longer analysing afterwards.
     */
    method RunHealthAnalysis(service: S.AIService, tf: Engine)
      requires tf.Valid()
      modifies this, tf
      ensures tf.Valid() && !isAnalyzing
      ensures hmpiValue == old(hmpiValue) && population == old(population)
      ensures var a := AnalyzeFrames(service.models, old(hmpiValue), old(population), Timeframes);
        && (a.Success? ==> predictions == a.value && riskTrendData == GenerateRiskTrendData(a.value))
        && (a.Failure? ==> predictions == [] && riskTrendData == old(riskTrendData))
    {
      isAnalyzing := true;
      predictions := [];
      var frames := Timeframes;
      var newPredictions: seq<HealthPrediction> := [];
      var i := 0;
      while i < |frames|
        invariant 0 <= i <= |frames|
        invariant tf.Valid() && isAnalyzing && predictions == []
        invariant hmpiValue == old(hmpiValue) && population == old(population) && riskTrendData == old(riskTrendData)
        invariant AnalyzeFrames(service.models, hmpiValue, population, frames[..i]) == Success(newPredictions)
      {
        var timeframe := frames[i];
        var result := service.AssessHealthRisk(tf, hmpiValue, population, timeframe);
        if result.Failure? {
          AnalyzeFramesFails(service.models, hmpiValue, population, frames, i);
          isAnalyzing := false;
          return;
        }
        AnalyzeFramesStep(service.models, hmpiValue, population, frames, i, newPredictions);
        newPredictions := newPredictions + [PredictionFor(timeframe, population, result.value)];
        i := i + 1;
      }
      assert frames[..i] == frames;
      predictions := newPredictions;
      riskTrendData := GenerateRiskTrendData(newPredictions);
      isAnalyzing := false;
    }
  }
}
