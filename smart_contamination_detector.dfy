/**
 * The contamination-source page: a map click sends a fixed pollution vector and
 * the clicked coordinates to the source model and lists the four source types
 * by decreasing confidence.
 */
module SmartContaminationDetector {
  import opened Wrappers
  import opened Tensors
  import S = InferenceService
  import Bands

  datatype Location = Location(lat: real, lng: real)

  datatype SourceKind = Industrial | Agricultural | Urban | Natural

  datatype SourcePrediction = SourcePrediction(kind: SourceKind, confidence: real)

  datatype AnalysisResult =
    | Analysis(location: Location, predictions: seq<SourcePrediction>, recommendations: seq<string>)
    | AnalysisError(error: string)

  /** The pollution readings every analysis sends, ahead of the coordinates. */
  const MockPollutionData: seq<real> := [0.8, 0.6, 0.3, 0.9, 0.4]

  const Recommendations: seq<string> :=
    ["Investigate industrial area 2.3km northwest", "Check agricultural runoff patterns"]

  const AnalysisFailed: string := "Analysis failed. Please try again."

  function KindName(kind: SourceKind): string {
    match kind
    case Industrial => "industrial"
    case Agricultural => "agricultural"
    case Urban => "urban"
    case Natural => "natural"
  }

  /** The place of a kind in the list before sorting. */
  function KindRank(kind: SourceKind): nat {
    match kind
    case Industrial => 0
    case Agricultural => 1
    case Urban => 2
    case Natural => 3
  }

  function GeoData(location: Location): (geo: seq<real>)
    ensures |geo| == 2
  {
    [location.lat, location.lng]
  }

  /** The model input: the five pollution readings, then latitude and longitude. */
  lemma ModelInputShape(location: Location)
    ensures var input := MockPollutionData + GeoData(location);
      |input| == 7 && input[..5] == MockPollutionData && input[5] == location.lat && input[6] == location.lng
  {
  }

  /** The four scores as percentages, in the order the page lists them before sorting. */
  function Unsorted(scores: S.SourceScores): (ps: seq<SourcePrediction>)
    ensures |ps| == 4 && forall i :: 0 <= i < 4 ==> KindRank(ps[i].kind) == i
  {
    [ SourcePrediction(Industrial, scores.industrial * 100.0),
      SourcePrediction(Agricultural, scores.agricultural * 100.0),
      SourcePrediction(Urban, scores.urban * 100.0),
      SourcePrediction(Natural, scores.natural * 100.0) ]
  }

  // ----- sorting by confidence -----

  ghost predicate SortedDesc(s: seq<SourcePrediction>) {
    forall i, j :: 0 <= i < j < |s| ==> s[i].confidence >= s[j].confidence
  }

  /** Equal confidences keep the order the kinds had before sorting. */
  ghost predicate TiesInKindOrder(s: seq<SourcePrediction>) {
    forall i, j :: 0 <= i < j < |s| && s[i].confidence == s[j].confidence ==> KindRank(s[i].kind) < KindRank(s[j].kind)
  }

  /** Places `x` ahead of the first element whose confidence is not above its own. */
  function Insert(x: SourcePrediction, s: seq<SourcePrediction>): (r: seq<SourcePrediction>)
    ensures multiset(r) == multiset(s) + multiset{x}
  {
    if s == [] then [x]
    else if s[0].confidence <= x.confidence then [x] + s
    else
      assert s == [s[0]] + s[1..];
      [s[0]] + Insert(x, s[1..])
  }

  /** Every element of the result was in the list or is the inserted one. */
  lemma InsertMembers(x: SourcePrediction, s: seq<SourcePrediction>, y: SourcePrediction)
    requires y in Insert(x, s)
    ensures y in s || y == x
  {
    assert y in multiset(Insert(x, s));
  }

  /** Inserting into a list sorted by non-increasing confidence keeps it sorted. */
  lemma {:induction false} InsertSorted(x: SourcePrediction, s: seq<SourcePrediction>)
    requires SortedDesc(s)
    ensures SortedDesc(Insert(x, s))
  {
    if s != [] && s[0].confidence > x.confidence {
      var rest := s[1..];
      assert SortedDesc(rest) by {
        forall i, j | 0 <= i < j < |rest| ensures rest[i] == s[i + 1] && rest[j] == s[j + 1] { }
      }
      InsertSorted(x, rest);
      var t := Insert(x, rest);
      var r := [s[0]] + t;
      forall i, j | 0 <= i < j < |r| ensures r[i].confidence >= r[j].confidence {
        if i == 0 {
          ElementBelowHead(x, s, r[j]);
        } else {
          assert r[i] == t[i - 1] && r[j] == t[j - 1];
        }
      }
    }
  }

  /** In the non-trivial case of `Insert`, the kept head is at least every element inserted behind it. */
  lemma ElementBelowHead(x: SourcePrediction, s: seq<SourcePrediction>, y: SourcePrediction)
    requires SortedDesc(s) && s != [] && s[0].confidence > x.confidence
    requires y in Insert(x, s[1..])
    ensures s[0].confidence >= y.confidence
  {
    InsertMembers(x, s[1..], y);
    if y in s[1..] {
      var k :| 0 <= k < |s[1..]| && s[1..][k] == y;
      assert s[k + 1] == y;
    }
  }

  /** `sort((a, b) => b.confidence - a.confidence)`: a stable sort, highest confidence first. */
  function SortByConfidence(s: seq<SourcePrediction>): (r: seq<SourcePrediction>)
    ensures multiset(r) == multiset(s)
    ensures SortedDesc(r)
  {
    if s == [] then []
    else
      assert s == [s[0]] + s[1..];
      var t := SortByConfidence(s[1..]);
      InsertSorted(s[0], t);
      Insert(s[0], t)
  }

  /** Inserting a kind that came before every other keeps ties in kind order. */
  lemma {:induction false} InsertKeepsTieOrder(x: SourcePrediction, s: seq<SourcePrediction>)
    requires SortedDesc(s) && TiesInKindOrder(s)
    requires forall y :: y in s ==> KindRank(x.kind) < KindRank(y.kind)
    ensures TiesInKindOrder(Insert(x, s))
  {
    if s != [] && s[0].confidence > x.confidence {
      var rest := s[1..];
      assert SortedDesc(rest) && TiesInKindOrder(rest) by {
        forall i, j | 0 <= i < j < |rest| ensures rest[i] == s[i + 1] && rest[j] == s[j + 1] { }
      }
      InsertKeepsTieOrder(x, rest);
      var t := Insert(x, rest);
      var r := [s[0]] + t;
      forall i, j | 0 <= i < j < |r| && r[i].confidence == r[j].confidence
        ensures KindRank(r[i].kind) < KindRank(r[j].kind)
      {
        if i == 0 {
          InsertMembers(x, rest, r[j]);
          if r[j] in rest {
            var k :| 0 <= k < |rest| && rest[k] == r[j];
            assert s[k + 1] == r[j];
          }
        } else {
          assert r[i] == t[i - 1] && r[j] == t[j - 1];
        }
      }
    }
  }

  /** Kinds listed in strictly increasing rank. */
  ghost predicate InKindOrder(s: seq<SourcePrediction>) {
    forall i, j :: 0 <= i < j < |s| ==> KindRank(s[i].kind) < KindRank(s[j].kind)
  }

  /** The sort is stable: predictions with equal confidence stay in the order they were listed. */
  lemma {:induction false} SortIsStable(s: seq<SourcePrediction>)
    requires InKindOrder(s)
    ensures TiesInKindOrder(SortByConfidence(s))
  {
    if s != [] {
      var rest := s[1..];
      assert InKindOrder(rest) by {
        forall i, j | 0 <= i < j < |rest| ensures rest[i] == s[i + 1] && rest[j] == s[j + 1] { }
      }
      SortIsStable(rest);
      var t := SortByConfidence(rest);
      forall y | y in t ensures KindRank(s[0].kind) < KindRank(y.kind) {
        assert y in multiset(rest);
        var k :| 0 <= k < |rest| && rest[k] == y;
        assert s[k + 1] == y;
      }
      InsertKeepsTieOrder(s[0], t);
    }
  }

  // ----- the analysis -----

  function Analyze(models: S.Registry, location: Location): AnalysisResult {
    match S.SourceDetection(models, MockPollutionData, GeoData(location))
    case Failure(_) => AnalysisError(AnalysisFailed)
    case Success(scores) => Analysis(location, SortByConfidence(Unsorted(scores)), Recommendations)
  }

  /**
   * A successful analysis lists the four source types once each with their
   * scores as percentages, highest first, ties in the original order, and the two
   * recommendations; a failed one carries only the error text.
   */
  lemma AnalyzeShape(models: S.Registry, location: Location)
    ensures var d := S.SourceDetection(models, MockPollutionData, GeoData(location));
      var a := Analyze(models, location);
      && (d.Failure? ==> a == AnalysisError(AnalysisFailed))
      && (d.Success? ==>
            && a.Analysis? && a.location == location && a.recommendations == Recommendations
            && multiset(a.predictions) == multiset(Unsorted(d.value))
            && SortedDesc(a.predictions) && TiesInKindOrder(a.predictions))
  {
    var d := S.SourceDetection(models, MockPollutionData, GeoData(location));
    if d.Success? {
      var u := Unsorted(d.value);
      assert InKindOrder(u);
      SortIsStable(u);
    }
  }

  const ConfidenceCuts: seq<real> := [40.0, 60.0, 80.0]

  const ConfidenceColours: seq<string> := ["success", "info", "warning", "error"]

  function GetConfidenceColor(confidence: real): string {
    if confidence > 80.0 then "error"
    else if confidence > 60.0 then "warning"
    else if confidence > 40.0 then "info"
    else "success"
  }

  /** The colour is that of the band of 40, 60, 80 the confidence exceeds; a boundary value takes the lower band. */
  lemma ConfidenceColourBand(confidence: real)
    ensures GetConfidenceColor(confidence) == ConfidenceColours[Bands.Exceeded(ConfidenceCuts, confidence)]
  {
    Bands.Exceeded3(40.0, 60.0, 80.0, confidence);
  }

  // ----- the page -----

  class DetectorPage {
    var selectedLocation: Option<Location>
    var analysisResults: Option<AnalysisResult>
    var isAnalyzing: bool

    constructor ()
      ensures selectedLocation == None && analysisResults == None && !isAnalyzing
    {
      selectedLocation, analysisResults, isAnalyzing := None, None, false;
    }

    /**
     * Marks the clicked place, clears the old result and asks the source model;
     * afterwards the page shows the analysis or the error, and is no longer
     * analysing.
     */
    method AnalyzeLocation(location: Location, service: S.AIService, tf: Engine)
      requires tf.Valid()
      modifies this, tf
      ensures tf.Valid() && !isAnalyzing
      ensures selectedLocation == Some(location)
      ensures analysisResults == Some(Analyze(service.models, location))
      ensures S.SourceKey in service.models ==>
        var n := |old(tf.history)|;
        |tf.history| > n && tf.history[n].cols == 7 && tf.history[n].values == MockPollutionData + [location.lat, location.lng]
    {
      selectedLocation := Some(location);
      analysisResults := None;
      isAnalyzing := true;
      var geoData := [location.lat, location.lng];
      var prediction := service.PredictContaminationSource(tf, MockPollutionData, geoData);
      if prediction.Success? {
        analysisResults := Some(Analysis(location, SortByConfidence(Unsorted(prediction.value)), Recommendations));
      } else {
        analysisResults := Some(AnalysisError(AnalysisFailed));
      }
      isAnalyzing := false;
    }
  }
}
