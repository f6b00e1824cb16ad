/**
 * The three-step data submission card: pick a file (step 1), wait for the
 * simulated calculation (step 2), review and submit (step 3). The 2.5-second
 * timer is an explicit event: `HandleCalculate` schedules it and
 * `CompleteAnalysis` is its callback firing.
 */
module DataSubmissionWorkflow {
  import opened Wrappers

  datatype QualityStatus = StatusValid | StatusInvalid

  datatype QualityReport = QualityReport(status: QualityStatus, message: string)

  /** The review chip and alert: "Valid" only for a report whose status is valid. */
  function QualityChipLabel(report: Option<QualityReport>): (caption: string)
    ensures caption == "Valid" <==> report.Some? && report.value.status == StatusValid
  {
    if report.Some? && report.value.status == StatusValid then "Valid" else "Invalid"
  }

  const SimulatedHmpi: real := 128.7

  const SimulatedMessage: string := "Data is consistent with historical records for this location."

  class Workflow {
    /** 1: input, 2: analysing, 3: review. */
    var step: int
    var fileName: Option<string>
    var hmpiResult: Option<real>
    var dataQuality: Option<QualityReport>
    /** Timer callbacks scheduled and not yet fired. */
    var pendingTimers: nat

    /**
     * The step is one of the three; the review step always has results to show,
     * and the analysing step always has a timer that will end it.
     */
    predicate Valid()
      reads this
    {
      && 1 <= step <= 3
      && (step == 3 ==> hmpiResult.Some? && dataQuality.Some?)
      && (step == 2 ==> pendingTimers > 0)
    }

    constructor ()
      ensures Valid()
      ensures step == 1 && fileName == None && hmpiResult == None && dataQuality == None && pendingTimers == 0
    {
      step, fileName, hmpiResult, dataQuality, pendingTimers := 1, None, None, None, 0;
    }

    /** `!fileName` is false: a name is chosen and it is not empty. */
    predicate HasFile()
      reads this
    {
      fileName.Some? && fileName.value != ""
    }

    /** The input panel is open in steps 1 and 2. */
    predicate InputPanelShown()
      reads this
    {
      step == 1 || step == 2
    }

    /** The review panel is open in step 3. */
    predicate ReviewPanelShown()
      reads this
    {
      step == 3
    }

    predicate CalculateDisabled()
      reads this
    {
      !HasFile() || step == 2
    }

    /** Exactly one of the two panels is open, and calculating is impossible while analysing. */
    lemma PanelsExclusive()
      requires Valid()
      ensures InputPanelShown() != ReviewPanelShown()
      ensures step == 2 ==> CalculateDisabled()
      ensures !HasFile() ==> CalculateDisabled()
    {
    }

    /** A file selection takes the first file's name; an empty or missing selection changes nothing. */
    method HandleFileChange(files: Option<seq<string>>)
      requires Valid()
      modifies this
      ensures Valid()
      ensures files.Some? && |files.value| > 0 ==> fileName == Some(files.value[0])
      ensures !(files.Some? && |files.value| > 0) ==> fileName == old(fileName)
      ensures step == old(step) && hmpiResult == old(hmpiResult) && dataQuality == old(dataQuality)
      ensures pendingTimers == old(pendingTimers)
    {
      if files.Some? && |files.value| > 0 {
        fileName := Some(files.value[0]);
      }
    }

    /** Without a file nothing happens; otherwise the card moves to the analysing step and schedules the timer. */
    method HandleCalculate()
      requires Valid()
      modifies this
      ensures Valid()
      ensures !old(HasFile()) ==> step == old(step) && pendingTimers == old(pendingTimers)
      ensures old(HasFile()) ==> step == 2 && pendingTimers == old(pendingTimers) + 1
      ensures fileName == old(fileName) && hmpiResult == old(hmpiResult) && dataQuality == old(dataQuality)
    {
      if !HasFile() {
        return;
      }
      step := 2;
      pendingTimers := pendingTimers + 1;
    }

    /** The timer fires: the simulated result and a valid quality report are shown at the review step. */
    method CompleteAnalysis()
      requires Valid() && pendingTimers > 0
      modifies this
      ensures Valid()
      ensures hmpiResult == Some(SimulatedHmpi)
      ensures dataQuality == Some(QualityReport(StatusValid, SimulatedMessage))
      ensures step == 3 && ReviewPanelShown() && QualityChipLabel(dataQuality) == "Valid"
      ensures fileName == old(fileName) && pendingTimers == old(pendingTimers) - 1
    {
      pendingTimers := pendingTimers - 1;
      hmpiResult := Some(SimulatedHmpi);
      dataQuality := Some(QualityReport(StatusValid, SimulatedMessage));
      step := 3;
    }

    /** Submitting resets the card to the empty input step. */
    method HandleSubmit()
      requires Valid()
      modifies this
      ensures Valid()
      ensures step == 1 && fileName == None && hmpiResult == None && dataQuality == None
      ensures pendingTimers == old(pendingTimers)
    {
      step := 1;
      fileName := None;
      hmpiResult := None;
      dataQuality := None;
    }
  }

  /**
   * A whole submission: choosing a file, calculating and letting the timer fire
   * reaches the review step with the simulated results; submitting then returns
   * to an empty input step.
   */
  method SubmitOnce(w: Workflow, name: string)
    requires w.Valid() && name != "" && w.pendingTimers == 0
    modifies w
    ensures w.Valid() && w.step == 1 && w.fileName == None && w.hmpiResult == None && w.dataQuality == None
      && w.pendingTimers == 0
  {
    w.HandleFileChange(Some([name]));
    w.HandleCalculate();
    assert w.step == 2;
    w.CompleteAnalysis();
    assert w.hmpiResult == Some(SimulatedHmpi);
    w.HandleSubmit();
  }
}
