/**
 * The data-quality page: five named text fields, parsed into readings, sent to
 * the quality model as one list, and shown back as one row per field with a
 * suggestion picked by the model's confidence.
 */
module DataQualityChecker {
  import opened Wrappers
  import opened Tensors
  import S = InferenceService
  import Text
  import Bands

  /** One field of the form, in the order the form object holds its keys. */
  datatype Entry = Entry(key: string, value: string)

  datatype QualityResult = QualityResult(
    parameter: string, value: real, isValid: bool, confidence: real, suggestion: string)

  datatype QualityIcon = CheckCircle | WarningIcon | ErrorIcon

  /** `parseFloat` on one field: the number it starts with, or `None` for NaN. */
  type Parser = string -> Option<real>

  const FieldNames: seq<string> := ["arsenic", "lead", "mercury", "iron", "uranium"]

  function InitialInput(): (entries: seq<Entry>)
    ensures Keys(entries) == FieldNames
    ensures forall i :: 0 <= i < |entries| ==> entries[i].value == ""
  {
    seq(|FieldNames|, i requires 0 <= i < |FieldNames| => Entry(FieldNames[i], ""))
  }

  // ----- the form object -----

  function Keys(entries: seq<Entry>): (keys: seq<string>)
    ensures |keys| == |entries| && forall i :: 0 <= i < |entries| ==> keys[i] == entries[i].key
  {
    if entries == [] then [] else [entries[0].key] + Keys(entries[1..])
  }

  ghost predicate DistinctKeys(entries: seq<Entry>) {
    forall i, j :: 0 <= i < j < |entries| ==> entries[i].key != entries[j].key
  }

  /** The value stored under `key`, if any: what `inputData[key]` reads. */
  function Lookup(entries: seq<Entry>, key: string): Option<string> {
    if entries == [] then None
    else if entries[0].key == key then Some(entries[0].value)
    else Lookup(entries[1..], key)
  }

  /**
   * `{ ...entries, [name]: value }`: an existing key keeps its place and takes the
   * new value; a new key is added at the end.
   */
  function SetField(entries: seq<Entry>, name: string, value: string): seq<Entry> {
    if entries == [] then [Entry(name, value)]
    else if entries[0].key == name then [Entry(name, value)] + entries[1..]
    else [entries[0]] + SetField(entries[1..], name, value)
  }

  /** Setting a field makes it read the new value and leaves every other field reading what it did. */
  lemma {:induction false} SetFieldLookup(entries: seq<Entry>, name: string, value: string)
    ensures Lookup(SetField(entries, name, value), name) == Some(value)
    ensures forall k :: k != name ==> Lookup(SetField(entries, name, value), k) == Lookup(entries, k)
  {
    if entries != [] && entries[0].key != name {
      SetFieldLookup(entries[1..], name, value);
      assert SetField(entries, name, value)[1..] == SetField(entries[1..], name, value);
    } else if entries != [] {
      assert SetField(entries, name, value)[1..] == entries[1..];
    }
  }

  /** Setting a field keeps the keys in order; a key that was not there goes last. */
  lemma {:induction false} SetFieldKeys(entries: seq<Entry>, name: string, value: string)
    ensures name in Keys(entries) ==> Keys(SetField(entries, name, value)) == Keys(entries)
    ensures name !in Keys(entries) ==> Keys(SetField(entries, name, value)) == Keys(entries) + [name]
  {
    if entries != [] {
      var rest := entries[1..];
      var r := SetField(entries, name, value);
      if entries[0].key == name {
        assert r[1..] == rest;
      } else {
        SetFieldKeys(rest, name, value);
        assert r[1..] == SetField(rest, name, value);
        if name !in Keys(rest) {
          assert Keys(entries) + [name] == [entries[0].key] + (Keys(rest) + [name]);
        }
      }
    }
  }

  /** Setting a field never duplicates a key. */
  lemma SetFieldDistinct(entries: seq<Entry>, name: string, value: string)
    requires DistinctKeys(entries)
    ensures DistinctKeys(SetField(entries, name, value))
  {
    SetFieldKeys(entries, name, value);
    var r := SetField(entries, name, value);
    var ks := Keys(entries);
    forall i, j | 0 <= i < j < |r| ensures r[i].key != r[j].key {
      assert r[i].key == Keys(r)[i] && r[j].key == Keys(r)[j];
      if name !in ks && j == |ks| {
        assert ks[i] in ks;
      }
    }
  }

  // ----- readings and results -----

  /** `parseFloat(value) || 0`: NaN and zero both read as zero. */
  function ParseReading(parse: Parser, s: string): (x: real)
    ensures parse(s).Some? ==> x == parse(s).value
    ensures parse(s).None? ==> x == 0.0
  {
    match parse(s)
    case None => 0.0
    case Some(v) => if v == 0.0 then 0.0 else v
  }

  /** `Object.values(inputData).map(...)`: one reading per field, in field order. */
  function Readings(parse: Parser, entries: seq<Entry>): (readings: seq<real>)
    ensures |readings| == |entries|
    ensures forall i :: 0 <= i < |entries| ==> readings[i] == ParseReading(parse, entries[i].value)
  {
    seq(|entries|, i requires 0 <= i < |entries| => ParseReading(parse, entries[i].value))
  }

  const SuggestionCuts: seq<real> := [0.3, 0.6, 0.8]

  const SuggestionTails: seq<string> := [
    " reading appears highly suspicious. Please re-test immediately.",
    " reading needs verification. Check calibration of equipment.",
    " reading is acceptable but monitor for trends.",
    " reading passes all quality checks."]

  /** Which of the four suggestions a confidence selects. */
  function SuggestionBand(confidence: real): nat {
    if confidence < 0.3 then 0
    else if confidence < 0.6 then 1
    else if confidence < 0.8 then 2
    else 3
  }

  function GenerateSuggestion(parameter: string, confidence: real): string {
    parameter + SuggestionTails[SuggestionBand(confidence)]
  }

  /** The suggestion is the field name followed by the text of the band of 0.3, 0.6, 0.8 the confidence has reached. */
  lemma SuggestionFollowsConfidence(parameter: string, confidence: real)
    ensures GenerateSuggestion(parameter, confidence) == parameter + SuggestionTails[Bands.Reached(SuggestionCuts, confidence)]
  {
    Bands.Reached3(0.3, 0.6, 0.8, confidence);
  }

  /** A higher confidence never gives a more alarming suggestion. */
  lemma SuggestionMonotone(c1: real, c2: real)
    requires c1 <= c2
    ensures SuggestionBand(c1) <= SuggestionBand(c2)
  {
  }

  /** One row per field: its capitalised name, its reading, the shared verdict and its own suggestion. */
  function QualityRows(entries: seq<Entry>, readings: seq<real>, validation: S.DataQuality): (rows: seq<QualityResult>)
    requires |readings| == |entries|
  {
    seq(|entries|, i requires 0 <= i < |entries| =>
      QualityResult(Text.Capitalize(entries[i].key), readings[i], validation.isValid, validation.confidence,
        GenerateSuggestion(entries[i].key, validation.confidence)))
  }

  /** What a quality check shows: the rows and the overall percentage, or the failure. */
  function QualityCheck(models: S.Registry, parse: Parser, entries: seq<Entry>): Result<(seq<QualityResult>, real), string> {
    var readings := Readings(parse, entries);
    match S.DataQualityValidation(models, readings)
    case Failure(e) => Failure(e)
    case Success(v) => Success((QualityRows(entries, readings, v), v.confidence * 100.0))
  }

  /**
   * A successful check has a row per field in field order; all rows carry the
   * validation's verdict and confidence, valid exactly when the confidence is above
   * 0.7; each row's suggestion is the one for its lower-case key at that confidence;
   * and the overall score is the confidence as a percentage.
   */
  lemma QualityCheckShape(models: S.Registry, parse: Parser, entries: seq<Entry>)
    ensures var c, v := QualityCheck(models, parse, entries), S.DataQualityValidation(models, Readings(parse, entries));
      && (c.Success? <==> v.Success?)
      && (c.Success? ==> var (rows, overall) := c.value;
           && overall == v.value.confidence * 100.0
           && (forall i :: 0 <= i < |rows| ==>
                && rows[i].isValid == v.value.isValid
                && rows[i].confidence == v.value.confidence
                && rows[i].suggestion == GenerateSuggestion(entries[i].key, v.value.confidence))
           && |rows| == |entries|
           && (forall i :: 0 <= i < |rows| ==>
                && rows[i].parameter == Text.Capitalize(entries[i].key)
                && rows[i].value == ParseReading(parse, entries[i].value)
                && (rows[i].isValid <==> rows[i].confidence > 0.7)
                && rows[i].confidence * 100.0 == overall
                && entries[i].key <= rows[i].suggestion)
           && (forall i, j :: 0 <= i < j < |rows| ==> rows[i].isValid == rows[j].isValid && rows[i].confidence == rows[j].confidence))
  {
    S.DataQualityValidityIsThreshold(models, Readings(parse, entries));
  }

  // ----- colours -----

  const ColourCuts: seq<real> := [60.0, 80.0]

  const QualityColours: seq<string> := ["error", "warning", "success"]

  function GetQualityColor(confidence: real): string {
    if confidence > 80.0 then "success"
    else if confidence > 60.0 then "warning"
    else "error"
  }

  function GetQualityIcon(confidence: real): QualityIcon {
    if confidence > 80.0 then CheckCircle
    else if confidence > 60.0 then WarningIcon
    else ErrorIcon
  }

  function IconColour(icon: QualityIcon): string {
    match icon
    case CheckCircle => "success"
    case WarningIcon => "warning"
    case ErrorIcon => "error"
  }

  /** The colour is the one of the band of 60, 80 the score exceeds (80 itself is still a warning, 60 an error). */
  lemma QualityColourBand(confidence: real)
    ensures GetQualityColor(confidence) == QualityColours[Bands.Exceeded(ColourCuts, confidence)]
  {
    Bands.Exceeded2(60.0, 80.0, confidence);
  }

  /** The icon is drawn in the colour the score gets. */
  lemma QualityIconMatchesColour(confidence: real)
    ensures IconColour(GetQualityIcon(confidence)) == GetQualityColor(confidence)
  {
  }

  function QualityChipLabel(overall: real): string {
    if overall > 80.0 then "High Quality" else "Needs Review"
  }

  /**
   * The summary chip says "High Quality" exactly when the score is coloured as a
   * success; a check the model calls valid can still read "Needs Review" when its
   * confidence is in (0.7, 0.8].
   */
  lemma QualityChipAgreesWithColour(overall: real)
    ensures QualityChipLabel(overall) == "High Quality" <==> GetQualityColor(overall) == "success"
    ensures 70.0 < overall <= 80.0 ==> QualityChipLabel(overall) == "Needs Review"
  {
  }

  // ----- the page -----

  class QualityCheckerPage {
    var inputData: seq<Entry>
    var qualityResults: seq<QualityResult>
    var isChecking: bool
    var overallQuality: real

    constructor ()
      ensures inputData == InitialInput() && qualityResults == [] && !isChecking && overallQuality == 0.0
    {
      inputData := InitialInput();
      qualityResults := [];
      isChecking := false;
      overallQuality := 0.0;
    }

    method HandleInputChange(name: string, value: string)
      modifies this
      ensures inputData == SetField(old(inputData), name, value)
      ensures DistinctKeys(old(inputData)) ==> DistinctKeys(inputData)
      ensures qualityResults == old(qualityResults) && isChecking == old(isChecking) && overallQuality == old(overallQuality)
    {
      if DistinctKeys(inputData) {
        SetFieldDistinct(inputData, name, value);
      }
      inputData := SetField(inputData, name, value);
    }

    /**
     * Clears the results, sends the readings to the quality model and shows a row
     * per field and the overall score; a failure is logged and leaves no rows and
     * the old score. Either way no check is running afterwards.
     */
    method CheckDataQuality(service: S.AIService, tf: Engine, parse: Parser)
      requires tf.Valid()
      modifies this, tf
      ensures tf.Valid() && !isChecking && inputData == old(inputData)
      ensures var c := QualityCheck(service.models, parse, old(inputData));
        && (c.Success? ==> qualityResults == c.value.0 && overallQuality == c.value.1)
        && (c.Failure? ==> qualityResults == [] && overallQuality == old(overallQuality))
    {
      isChecking := true;
      qualityResults := [];
      var readings := Readings(parse, inputData);
      var validation := service.ValidateDataQuality(tf, readings);
      if validation.Success? {
        qualityResults := QualityRows(inputData, readings, validation.value);
        overallQuality := validation.value.confidence * 100.0;
      }
      isChecking := false;
    }
  }
}
