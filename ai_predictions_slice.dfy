/**
 * The AI-predictions store slice: the predicted contamination sources and health
 * predictions, plus the loading state of the asynchronous "predict sources"
 * request. Each reducer updates the state in place.
 */
module AIPredictionsSlice {
  import opened Wrappers

  datatype SourceType = Industrial | Agricultural | Urban | Natural

  datatype LatLng = LatLng(lat: real, lng: real)

  datatype ContaminationSource = ContaminationSource(
    id: string, kind: SourceType, location: LatLng, confidence: real, description: string, distance: real)

  datatype Timeframe = SixMonths | OneYear | FiveYears

  datatype HealthRiskPrediction = HealthRiskPrediction(
    timeframe: Timeframe, riskIncrease: real, affectedPopulation: real, diseaseTypes: seq<string>, confidence: real)

  /** The message stored when a rejected request carries no (or an empty) error message. */
  const DefaultError := "Failed to fetch predictions"

  /** `k` is the first position of `sources` whose id is `id`. */
  ghost predicate IsFirstMatch(sources: seq<ContaminationSource>, id: string, k: nat) {
    k < |sources| && sources[k].id == id && forall i :: 0 <= i < k ==> sources[i].id != id
  }

  ghost predicate NoMatch(sources: seq<ContaminationSource>, id: string) {
    forall i :: 0 <= i < |sources| ==> sources[i].id != id
  }

  /** There is at most one first match. */
  lemma FirstMatchUnique(sources: seq<ContaminationSource>, id: string, j: nat, k: nat)
    requires IsFirstMatch(sources, id, j) && IsFirstMatch(sources, id, k)
    ensures j == k
  {
  }

  /** The search `updateConfidence` starts with: the first source with the given id, if any. */
  method FindSource(sources: seq<ContaminationSource>, id: string) returns (found: Option<nat>)
    ensures found.Some? ==> IsFirstMatch(sources, id, found.value)
    ensures found.None? ==> NoMatch(sources, id)
  {
    var i := 0;
    while i < |sources|
      invariant 0 <= i <= |sources|
      invariant NoMatch(sources[..i], id)
    {
      if sources[i].id == id {
        return Some(i);
      }
      assert sources[..i + 1] == sources[..i] + [sources[i]];
      i := i + 1;
    }
    assert sources[..i] == sources;
    return None;
  }

  /** The error stored on rejection: the message when it is non-empty, otherwise the default. */
  function RejectionError(message: Option<string>): (e: string)
    ensures e != ""
    ensures message.Some? && message.value != "" ==> e == message.value
    ensures !(message.Some? && message.value != "") ==> e == DefaultError
  {
    if message.Some? && message.value != "" then message.value else DefaultError
  }

  class AIPredictionsState {
    var contaminationSources: seq<ContaminationSource>
    var healthPredictions: seq<HealthRiskPrediction>
    var isLoading: bool
    var error: Option<string>
    var lastUpdated: Option<string>

    /** The state when the app first loads. */
    constructor ()
      ensures contaminationSources == [] && healthPredictions == []
      ensures !isLoading && error == None && lastUpdated == None
    {
      contaminationSources := [];
      healthPredictions := [];
      isLoading := false;
      error := None;
      lastUpdated := None;
    }

    method ClearPredictions()
      modifies this
      ensures contaminationSources == [] && healthPredictions == []
      ensures isLoading == old(isLoading) && error == old(error) && lastUpdated == old(lastUpdated)
    {
      contaminationSources := [];
      healthPredictions := [];
    }

    /** Sets the confidence of the first source with the given id; with no such source nothing changes. */
    method UpdateConfidence(id: string, confidence: real)
      modifies this
      ensures |contaminationSources| == |old(contaminationSources)|
      ensures NoMatch(old(contaminationSources), id) ==> contaminationSources == old(contaminationSources)
      ensures forall k: nat :: IsFirstMatch(old(contaminationSources), id, k) ==>
        contaminationSources == old(contaminationSources)[k := old(contaminationSources)[k].(confidence := confidence)]
      ensures healthPredictions == old(healthPredictions) && isLoading == old(isLoading)
      ensures error == old(error) && lastUpdated == old(lastUpdated)
    {
      var found := FindSource(contaminationSources, id);
      if found.None? {
        return;
      } else {
        var k := found.value;
        forall j: nat | IsFirstMatch(contaminationSources, id, j) ensures j == k {
          FirstMatchUnique(contaminationSources, id, j, k);
        }
        contaminationSources := contaminationSources[k := contaminationSources[k].(confidence := confidence)];
      }
    }

    /** The request has started. */
    method Pending()
      modifies this
      ensures isLoading && error == None
      ensures contaminationSources == old(contaminationSources) && healthPredictions == old(healthPredictions)
      ensures lastUpdated == old(lastUpdated)
    {
      isLoading := true;
      error := None;
    }

    /** The request succeeded with `sources`; `now` is the time stamp taken when it is handled. */
    method Fulfilled(sources: seq<ContaminationSource>, now: string)
      modifies this
      ensures !isLoading && contaminationSources == sources && lastUpdated == Some(now)
      ensures error == old(error) && healthPredictions == old(healthPredictions)
    {
      isLoading := false;
      contaminationSources := sources;
      lastUpdated := Some(now);
    }

    /** The request failed with the given error message (absent when the error has none). */
    method Rejected(message: Option<string>)
      modifies this
      ensures !isLoading && error == Some(RejectionError(message))
      ensures contaminationSources == old(contaminationSources) && healthPredictions == old(healthPredictions)
      ensures lastUpdated == old(lastUpdated)
    {
      isLoading := false;
      error := Some(RejectionError(message));
    }
  }

  /** A request that starts and then fails leaves the data alone and always records an error. */
  method PendingThenRejected(state: AIPredictionsState, message: Option<string>)
    modifies state
    ensures !state.isLoading && state.error.Some? && state.error.value != ""
    ensures state.contaminationSources == old(state.contaminationSources)
    ensures state.healthPredictions == old(state.healthPredictions) && state.lastUpdated == old(state.lastUpdated)
  {
    state.Pending();
    state.Rejected(message);
  }
}
