# Water-quality dashboard: inference service and AI pages in Dafny

This project models the client-side inference layer of a water-quality
monitoring dashboard and the pages built on it.

- **`InferenceService`** (`ai_service.dfy`) is the single service object. It
  holds a registry of loaded models and loads its three artifacts in order. It
  has three prediction pipelines: contamination source, health risk and data
  quality. Each pipeline looks its model up, copies the input into a `[1, n]`
  buffer, runs the model, reads the output and disposes the buffers.
- **`Tensors`** (`tensors.dfy`) models the numeric-buffer engine. It keeps a
  log of every buffer allocated and the set still live, so the model can say
  which buffers a call releases and which it leaks.
- **`AIPredictionsSlice`** (`ai_predictions_slice.dfy`) is the Redux slice of
  AI predictions: its reducers and the three lifecycle cases of its fetch.
- **The pages**, one module each:
  - `EmergencyAlertEngine`: alerts, automatic messages, channels and history.
  - `PredictiveHealthAssessment`: one model call per horizon, the disease list
    and the trend chart.
  - `DataQualityChecker`: the form object, readings, rows, suggestions and
    colours.
  - `SmartContaminationDetector`: the input vector, the stable sort by
    confidence and the error result.
  - `DataSubmissionWorkflow`: the three-step state machine.
  - `TimeTravelVisualizer`: the generated monthly history and the playback.
- **Shared helpers**:
  - `Bands` holds the cut-point counting that every threshold classifier is
    proved against.
  - `Text` holds ASCII case mapping, capitalisation and number formatting.
  - `Wrappers` holds `Option` and `Result`.

## How the model is built

- **Models.** A loaded model is a function from an input vector to
  `Success(output)` or `Failure(error)`. A failure stands for `predict` or
  `data()` throwing. The pipelines are pure functions of the registry
  (`SourceDetection`, `HealthRiskAssessment`, `DataQualityValidation`). The
  methods that allocate and dispose buffers are proved to return exactly those
  functions' values.
- **Effects become parameters.**
  - Artifact loading is a `Loader` parameter.
  - `Math.random` becomes `Sampler`, `Math.sin` becomes `Seasonal`.
  - The current month is an argument in 1 to 12.
  - Timestamps are strings passed in.
  - Timers are explicit methods, one per firing callback: `MarkSent`,
    `MarkDelivered`, `CompleteAnalysis`, `Tick`.
  - `parseFloat` is a `Parser` parameter.
- **The singleton.** The static `instance` field is modelled as a holder object
  (`ServiceRuntime`).
- **Behaviour of the service code that the model keeps:**
  - Each call of `loadModels` loads the three artifacts once, in order, and
    overwrites their keys. Repeated calls are not prevented, and loads in flight
    are not deduplicated.
  - The first failed artifact stops loading and the error is swallowed.
  - A missing model fails the call before any buffer is allocated.
  - When the model throws, the input buffer is left live; there is no release on
    the error path.
  - An input of the wrong width is passed to the model unchecked. There is no
    shape-mismatch error.
- **JavaScript details that change results are written out:**
  - `||` treats `""` and `0` as false.
  - `slice` with a negative end counts from the back.
  - `Math.ceil` and `Math.round` are written out.
  - An index past the end of a month-name table gives `"undefined"`.
  - Object spread keeps key order and appends new keys. That holds for the
    non-numeric field names used here; JavaScript would put integer-like keys
    first.
  - `Array.prototype.sort` is stable.

## Model

| member | source | states |
|---|---|---|
| InferenceService.LoadedPrefix | src/services/aiService.ts:27-42 | how many artifacts load before the first failure: all earlier ones load and the one at that position fails |
| InferenceService.LoadAllEffect | src/services/aiService.ts:27-42 | `LoadAll`, the sequential `await` of each artifact followed by `Map.set`, stores each artifact before the first failure under its key and leaves every other key present or absent with its old model |
| InferenceService.LoadModelsOutcome | src/services/aiService.ts:30-37 | the four outcomes of `loadModels`: nothing, source only, source and health, or all three, depending on which artifact fails first |
| InferenceService.AIService.constructor | src/services/aiService.ts:13-16 | a new service has an empty registry |
| InferenceService.AIService.LoadModels | src/services/aiService.ts:27-42 | the registry after the call is the sequential load that stops at the first failure |
| InferenceService.AIService.Infer | src/services/aiService.ts:46-56 | missing model: fails with its own message and allocates nothing; success: a `[1, n]` buffer of the input is allocated and both buffers are released; model failure: the input buffer stays live |
| InferenceService.AIService.PredictContaminationSource | src/services/aiService.ts:45-64 | result is the source-detection function; the input buffer is the pollution readings followed by the coordinates, one row as wide as both together; no leak on success |
| InferenceService.AIService.AssessHealthRisk | src/services/aiService.ts:67-83 | result is the health-risk function, so riskIncrease is output 0, confidence output 1 and severity the class of output 0; the buffer is `[hmpi, population, encoded timeframe]`; no leak on success |
| InferenceService.AIService.ValidateDataQuality | src/services/aiService.ts:86-102 | result is the data-quality function, so confidence is output 0 and the data are valid exactly when output 0 exceeds 0.7; the buffer is the readings; no leak on success |
| InferenceService.SourceScoresAreOutputs | src/services/aiService.ts:45-63 | `SourceDetection` (the pipeline as a function) fails when the model is missing or throws; otherwise its four scores are output entries 0 to 3, in order |
| InferenceService.HealthRiskOutputs | src/services/aiService.ts:67-82 | when the health model runs and returns at least two outputs, riskIncrease is output 0, confidence is output 1 and severity is the classification of output 0 |
| InferenceService.DataQualityOutputs | src/services/aiService.ts:86-101 | when the quality model runs and returns an output, confidence is output 0, the data are valid exactly when output 0 exceeds 0.7, and no anomaly is listed |
| InferenceService.HealthRiskSeverityConsistent | src/services/aiService.ts:78-82 | in `HealthRiskAssessment`, a health result's severity is always the classification of its own risk value |
| InferenceService.DataQualityValidityIsThreshold | src/services/aiService.ts:97-101 | in `DataQualityValidation`, a quality result is valid exactly when its confidence exceeds 0.7, and it lists no anomalies |
| InferenceService.EncodeTimeframe | src/services/aiService.ts:105-108 | 0.5 for six months, 5 for five years, 1 for one year and for every unknown timeframe |
| InferenceService.CategorizeSeverityBand | src/services/aiService.ts:110-115 | `CategorizeSeverity`'s rank is the number of the cut points 0.2, 0.5, 0.8 that the risk has reached |
| InferenceService.CategorizeSeverityMonotone | src/services/aiService.ts:110-115 | a higher risk never gives a lower severity |
| InferenceService.DetectAnomalies | src/services/aiService.ts:117-121 | no anomaly is ever reported |
| InferenceService.ServiceRuntime.GetInstance | src/services/aiService.ts:19-24 | the first call creates a fresh instance with an empty registry; later calls return that same object |
| InferenceService.GetInstanceTwice | src/services/aiService.ts:19-24 | two calls return the same object |
| Tensors.Engine.Tensor2d | src/services/aiService.ts:50 | allocates a new live buffer with the next id and the given shape and values, and changes nothing else |
| Tensors.Engine.Dispose | src/services/aiService.ts:55-56 | removes exactly that buffer from the live set |
| Tensors.Engine.Predict | src/services/aiService.ts:51-52 | on success allocates a live one-row output buffer holding the model's output; on failure changes nothing |
| Bands.ReachedMonotone | src/services/aiService.ts:110-115 | the band counted with `<` tests never decreases as the value grows |
| Bands.ExceededMonotone | src/components/AI/DataQualityChecker/DataQualityChecker.tsx:72-76 | the band counted with `>` tests never decreases as the value grows |
| Bands.ReachedInterval | src/services/aiService.ts:110-115 | with increasing cut points, a value is in band k exactly when it lies between cut point k-1 (inclusive) and cut point k (exclusive) |
| AIPredictionsSlice.FindSource | src/store/slices/aiPredictionsSlice.ts:65 | `find` by id: returns the first index whose id matches, or none when no source matches |
| AIPredictionsSlice.FirstMatchUnique | src/store/slices/aiPredictionsSlice.ts:65 | there is at most one first match |
| AIPredictionsSlice.RejectionError | src/store/slices/aiPredictionsSlice.ts:85 | the error is never empty: the thrown message when it is non-empty, otherwise "Failed to fetch predictions" |
| AIPredictionsSlice.AIPredictionsState.constructor | src/store/slices/aiPredictionsSlice.ts:32-38 | the initial state: empty lists, not loading, no error, never updated |
| AIPredictionsSlice.AIPredictionsState.ClearPredictions | src/store/slices/aiPredictionsSlice.ts:60-63 | both lists empty; flags, error and timestamp untouched |
| AIPredictionsSlice.AIPredictionsState.UpdateConfidence | src/store/slices/aiPredictionsSlice.ts:64-69 | only the first source with that id gets the new confidence; with no match nothing changes; other fields untouched |
| AIPredictionsSlice.AIPredictionsState.Pending | src/store/slices/aiPredictionsSlice.ts:74-77 | loading, error cleared, data untouched |
| AIPredictionsSlice.AIPredictionsState.Fulfilled | src/store/slices/aiPredictionsSlice.ts:78-82 | not loading, sources replaced, timestamp set, error left as it was |
| AIPredictionsSlice.AIPredictionsState.Rejected | src/store/slices/aiPredictionsSlice.ts:83-86 | not loading, error is the rejection message or the default |
| AIPredictionsSlice.PendingThenRejected | src/store/slices/aiPredictionsSlice.ts:74-86 | a failed fetch ends not loading with a non-empty error, the old sources and predictions and the old timestamp |
| EmergencyAlertEngine.SelectedLength | src/components/AI/EmergencyAlertEngine/EmergencyAlertEngine.tsx:69-75 | one channel per enabled switch |
| EmergencyAlertEngine.SelectedMembership | src/components/AI/EmergencyAlertEngine/EmergencyAlertEngine.tsx:69-75 | a channel is listed exactly when its switch is on |
| EmergencyAlertEngine.SelectedSubset | src/components/AI/EmergencyAlertEngine/EmergencyAlertEngine.tsx:69-75 | only known channel names are listed |
| EmergencyAlertEngine.AutoMessageShape | src/components/AI/EmergencyAlertEngine/EmergencyAlertEngine.tsx:59-67 | `GenerateAutoMessage`'s text starts with the severity's headline, and the location appears right after the fixed lead text |
| EmergencyAlertEngine.AutoMessageDistinguishesSeverity | src/components/AI/EmergencyAlertEngine/EmergencyAlertEngine.tsx:59-67 | different severities never give the same message, whatever the locations |
| EmergencyAlertEngine.AutoMessageInitial | src/components/AI/EmergencyAlertEngine/EmergencyAlertEngine.tsx:59-67 | a generated message is non-empty and starts with its headline's first letter |
| EmergencyAlertEngine.Initial | src/components/AI/EmergencyAlertEngine/EmergencyAlertEngine.tsx:61-64 | the first character of each headline |
| EmergencyAlertEngine.AlertMessage | src/components/AI/EmergencyAlertEngine/EmergencyAlertEngine.tsx:40 | the custom message when non-empty, otherwise the generated one |
| EmergencyAlertEngine.GetSeverityColor | src/components/AI/EmergencyAlertEngine/EmergencyAlertEngine.tsx:77-81 | info exactly for low, warning exactly for medium, error exactly for high and critical |
| EmergencyAlertEngine.WithStatus | src/components/AI/EmergencyAlertEngine/EmergencyAlertEngine.tsx:51-53 | same length; alerts with that id get the status; every other alert is unchanged |
| EmergencyAlertEngine.StatusUpdatesCompose | src/components/AI/EmergencyAlertEngine/EmergencyAlertEngine.tsx:50-55 | the later status update overrides the earlier one |
| EmergencyAlertEngine.History | src/components/AI/EmergencyAlertEngine/EmergencyAlertEngine.tsx:154-160 | at most the four newest alerts, in order, each with its severity colour, and a connector after every item but the last |
| EmergencyAlertEngine.AlertEngine.constructor | src/components/AI/EmergencyAlertEngine/EmergencyAlertEngine.tsx:26-32 | no alerts, every switch on with threshold high, and an empty high-severity form |
| EmergencyAlertEngine.AlertEngine.SetConfig | src/components/AI/EmergencyAlertEngine/EmergencyAlertEngine.tsx:105-112 | only the configuration changes |
| EmergencyAlertEngine.AlertEngine.SetNewAlert | src/components/AI/EmergencyAlertEngine/EmergencyAlertEngine.tsx:127-137 | only the form changes |
| EmergencyAlertEngine.AlertEngine.GetActiveChannels | src/components/AI/EmergencyAlertEngine/EmergencyAlertEngine.tsx:69-75 | SMS, WhatsApp and Email are each listed exactly when their switch is on, one per enabled switch, in that order |
| EmergencyAlertEngine.AlertEngine.TriggerEmergencyAlert | src/components/AI/EmergencyAlertEngine/EmergencyAlertEngine.tsx:35-47 | prepends one pending alert with the form's severity, location and message, the active channels and 5000 recipients |
| EmergencyAlertEngine.AlertEngine.MarkSent | src/components/AI/EmergencyAlertEngine/EmergencyAlertEngine.tsx:51 | the alert with that id becomes sent |
| EmergencyAlertEngine.AlertEngine.MarkDelivered | src/components/AI/EmergencyAlertEngine/EmergencyAlertEngine.tsx:53 | the alert with that id becomes delivered |
| EmergencyAlertEngine.SendAlert | src/components/AI/EmergencyAlertEngine/EmergencyAlertEngine.tsx:35-55 | after both timers the new alert is first and delivered, and the older alerts keep their status unless they share its id |
| PredictiveHealthAssessment.Ceil | src/components/AI/PredictiveHealthAssessment/PredictiveHealthAssessment.tsx:65 | the least integer not below x |
| PredictiveHealthAssessment.Round | src/components/AI/PredictiveHealthAssessment/PredictiveHealthAssessment.tsx:47 | the integer within half a unit, halves rounding up |
| PredictiveHealthAssessment.SliceTo | src/components/AI/PredictiveHealthAssessment/PredictiveHealthAssessment.tsx:66 | a prefix; clamped at the length; a negative end counts from the back |
| PredictiveHealthAssessment.GetDiseasesByRisk | src/components/AI/PredictiveHealthAssessment/PredictiveHealthAssessment.tsx:63-67 | the listed diseases are a prefix of the five, in order of likelihood |
| PredictiveHealthAssessment.DiseaseCountFollowsRisk | src/components/AI/PredictiveHealthAssessment/PredictiveHealthAssessment.tsx:63-67 | for risks in [0, 100], one disease per started 20 points: none at 0, and n diseases for risks in (20(n-1), 20n] |
| PredictiveHealthAssessment.HighRiskListsAllDiseases | src/components/AI/PredictiveHealthAssessment/PredictiveHealthAssessment.tsx:63-67 | a risk above 80 lists all five |
| PredictiveHealthAssessment.NegativeRiskListsDiseases | src/components/AI/PredictiveHealthAssessment/PredictiveHealthAssessment.tsx:65-66 | risks in (-20, 0] list none, but a risk of -30 lists the first four, because the negative end counts from the back |
| PredictiveHealthAssessment.AnalyzeFramesShape | src/components/AI/PredictiveHealthAssessment/PredictiveHealthAssessment.tsx:39-52 | `AnalyzeFrames`, the try block's loop of awaits as a function, succeeds exactly when every horizon's call does, and then holds one prediction per horizon, in order, built from that call |
| PredictiveHealthAssessment.PredictionForFields | src/components/AI/PredictiveHealthAssessment/PredictiveHealthAssessment.tsx:44-51 | the object `PredictionFor` builds carries the model's risk and confidence, the rounded affected population, the diseases for its risk and the matching severity name |
| PredictiveHealthAssessment.AnalysisFields | src/components/AI/PredictiveHealthAssessment/PredictiveHealthAssessment.tsx:42-52 | every prediction of a successful analysis is for its horizon, with population `round(pop * risk / 100)`, the diseases for its risk and the severity of its risk |
| PredictiveHealthAssessment.AnalyzeFramesStep | src/components/AI/PredictiveHealthAssessment/PredictiveHealthAssessment.tsx:43-51 | one more successful horizon appends its prediction |
| PredictiveHealthAssessment.AnalyzeFramesFails | src/components/AI/PredictiveHealthAssessment/PredictiveHealthAssessment.tsx:42-56 | any failing horizon fails the whole analysis |
| PredictiveHealthAssessment.GenerateRiskTrendData | src/components/AI/PredictiveHealthAssessment/PredictiveHealthAssessment.tsx:69-77 | four points at months 0, 6, 12 and 60; the first is zero; later points take the k-th prediction's risk and population, or 0 when it is missing |
| PredictiveHealthAssessment.TrendFollowsAnalysis | src/components/AI/PredictiveHealthAssessment/PredictiveHealthAssessment.tsx:53-54 | after a successful analysis the chart shows the model's risk for each horizon in turn |
| PredictiveHealthAssessment.GetSeverityColor | src/components/AI/PredictiveHealthAssessment/PredictiveHealthAssessment.tsx:79-87 | one of the five colours, and primary exactly when the lower-cased severity is none of low, moderate, high, critical |
| PredictiveHealthAssessment.SeverityColorIgnoresCase | src/components/AI/PredictiveHealthAssessment/PredictiveHealthAssessment.tsx:79-87 | the colour depends on the severity only up to letter case |
| PredictiveHealthAssessment.ServiceSeverityColors | src/components/AI/PredictiveHealthAssessment/PredictiveHealthAssessment.tsx:79-87 | the service's Low, Moderate, High and Critical get success, info, warning and error |
| PredictiveHealthAssessment.FormatTimeframe | src/components/AI/PredictiveHealthAssessment/PredictiveHealthAssessment.tsx:89-94 | an unknown timeframe is shown as it is |
| PredictiveHealthAssessment.FormatTimeframeLabels | src/components/AI/PredictiveHealthAssessment/PredictiveHealthAssessment.tsx:89-94 | the three horizons get three distinct labels, none of them a raw key |
| PredictiveHealthAssessment.HealthAssessmentPage.constructor | src/components/AI/PredictiveHealthAssessment/PredictiveHealthAssessment.tsx:25-31 | HMPI 75, population 100000, no predictions, not analysing, empty chart |
| PredictiveHealthAssessment.HealthAssessmentPage.SetInputs | src/components/AI/PredictiveHealthAssessment/PredictiveHealthAssessment.tsx:113-117 | only the two inputs change |
| PredictiveHealthAssessment.HealthAssessmentPage.RunHealthAnalysis | src/components/AI/PredictiveHealthAssessment/PredictiveHealthAssessment.tsx:35-60 | on success shows the analysis and its trend chart; on failure no predictions and the old chart; never analysing afterwards |
| DataQualityChecker.InitialInput | src/components/AI/DataQualityChecker/DataQualityChecker.tsx:24-26 | the five fields arsenic, lead, mercury, iron, uranium, in that order, all empty |
| DataQualityChecker.Keys | src/components/AI/DataQualityChecker/DataQualityChecker.tsx:47 | the field names in order |
| DataQualityChecker.SetFieldLookup | src/components/AI/DataQualityChecker/DataQualityChecker.tsx:35-37 | after `SetField` (the spread `{ ...prev, [name]: value }`), `Lookup` of the field reads the new value and every other field reads its old value |
| DataQualityChecker.SetFieldKeys | src/components/AI/DataQualityChecker/DataQualityChecker.tsx:35-37 | the spread keeps key order; a new key goes last |
| DataQualityChecker.SetFieldDistinct | src/components/AI/DataQualityChecker/DataQualityChecker.tsx:35-37 | the spread never duplicates a key |
| DataQualityChecker.ParseReading | src/components/AI/DataQualityChecker/DataQualityChecker.tsx:43 | the parsed number, or 0 when parsing gives NaN |
| DataQualityChecker.Readings | src/components/AI/DataQualityChecker/DataQualityChecker.tsx:43 | one reading per field, in field order |
| DataQualityChecker.SuggestionFollowsConfidence | src/components/AI/DataQualityChecker/DataQualityChecker.tsx:65-70 | `GenerateSuggestion` gives the field name followed by the text for the band of 0.3, 0.6, 0.8 that the confidence has reached |
| DataQualityChecker.SuggestionMonotone | src/components/AI/DataQualityChecker/DataQualityChecker.tsx:65-70 | a higher confidence never gives a more alarming suggestion |
| DataQualityChecker.QualityCheckShape | src/components/AI/DataQualityChecker/DataQualityChecker.tsx:43-57 | `QualityCheck` (validation then the `QualityRows` map) succeeds exactly when validation does; then one row per field with the capitalised name, its reading, the validation's own verdict and confidence (valid iff confidence > 0.7), the `GenerateSuggestion` text for the lower-case key at that confidence, and overall = the validation's confidence × 100 |
| DataQualityChecker.QualityColourBand | src/components/AI/DataQualityChecker/DataQualityChecker.tsx:72-76 | `GetQualityColor` gives error, warning or success by the number of the cut points 60 and 80 the score exceeds |
| DataQualityChecker.QualityIconMatchesColour | src/components/AI/DataQualityChecker/DataQualityChecker.tsx:78-82 | the icon `GetQualityIcon` picks is drawn in the score's colour |
| DataQualityChecker.QualityChipAgreesWithColour | src/components/AI/DataQualityChecker/DataQualityChecker.tsx:119 | the chip reads High Quality exactly when the score is coloured success, and reads Needs Review for scores in (70, 80] although such a check is valid |
| DataQualityChecker.QualityCheckerPage.constructor | src/components/AI/DataQualityChecker/DataQualityChecker.tsx:24-31 | empty form, no results, not checking, score 0 |
| DataQualityChecker.QualityCheckerPage.HandleInputChange | src/components/AI/DataQualityChecker/DataQualityChecker.tsx:35-37 | the form object becomes the spread with the new value, keys stay distinct, and nothing else changes |
| DataQualityChecker.QualityCheckerPage.CheckDataQuality | src/components/AI/DataQualityChecker/DataQualityChecker.tsx:39-63 | on success the rows and score of the check; on failure no rows and the old score; never checking afterwards |
| SmartContaminationDetector.GeoData | src/components/AI/SmartContaminationDetector/SmartContaminationDetector.tsx:37 | two coordinates |
| SmartContaminationDetector.ModelInputShape | src/components/AI/SmartContaminationDetector/SmartContaminationDetector.tsx:36-40 | the input has length 7: the five mock readings, then latitude and longitude |
| SmartContaminationDetector.Unsorted | src/components/AI/SmartContaminationDetector/SmartContaminationDetector.tsx:43-47 | four predictions, industrial, agricultural, urban, natural, in that order |
| SmartContaminationDetector.Insert | src/components/AI/SmartContaminationDetector/SmartContaminationDetector.tsx:48 | inserting adds exactly the one element to the multiset of the list |
| SmartContaminationDetector.InsertSorted | src/components/AI/SmartContaminationDetector/SmartContaminationDetector.tsx:48 | inserting into a list in non-increasing confidence keeps it in non-increasing confidence |
| SmartContaminationDetector.SortByConfidence | src/components/AI/SmartContaminationDetector/SmartContaminationDetector.tsx:48 | a permutation of the input, in non-increasing confidence |
| SmartContaminationDetector.InsertKeepsTieOrder | src/components/AI/SmartContaminationDetector/SmartContaminationDetector.tsx:48 | inserting a kind that comes before all the others keeps equal confidences in kind order |
| SmartContaminationDetector.SortIsStable | src/components/AI/SmartContaminationDetector/SmartContaminationDetector.tsx:48 | equal confidences keep their original order |
| SmartContaminationDetector.AnalyzeShape | src/components/AI/SmartContaminationDetector/SmartContaminationDetector.tsx:39-53 | `Analyze`, the try block as a function; success: the location, the four scores × 100 once each, sorted and stable, and the two recommendations; failure: only the error text |
| SmartContaminationDetector.ConfidenceColourBand | src/components/AI/SmartContaminationDetector/SmartContaminationDetector.tsx:59-64 | `GetConfidenceColor` gives success, info, warning or error by the number of the cut points 40, 60 and 80 the confidence exceeds |
| SmartContaminationDetector.DetectorPage.constructor | src/components/AI/SmartContaminationDetector/SmartContaminationDetector.tsx:25-27 | nothing selected, no result, not analysing |
| SmartContaminationDetector.DetectorPage.AnalyzeLocation | src/components/AI/SmartContaminationDetector/SmartContaminationDetector.tsx:31-57 | selects the location, shows the analysis or the error, ends not analysing, and sends a width-7 buffer of the readings and coordinates |
| DataSubmissionWorkflow.QualityChipLabel | src/components/Dashboard/DataSubmissionWorkflow.tsx:91-94 | Valid exactly for a report with valid status |
| DataSubmissionWorkflow.Workflow.constructor | src/components/Dashboard/DataSubmissionWorkflow.tsx:9-12 | step 1 with no file, result or quality |
| DataSubmissionWorkflow.Workflow.PanelsExclusive | src/components/Dashboard/DataSubmissionWorkflow.tsx:61-82 | exactly one panel is open; Calculate is disabled without a file and during analysis |
| DataSubmissionWorkflow.Workflow.HandleFileChange | src/components/Dashboard/DataSubmissionWorkflow.tsx:14-18 | takes the first file's name when a file is given; otherwise nothing changes |
| DataSubmissionWorkflow.Workflow.HandleCalculate | src/components/Dashboard/DataSubmissionWorkflow.tsx:20-31 | without a file nothing changes; otherwise step 2 with one more pending timer |
| DataSubmissionWorkflow.Workflow.CompleteAnalysis | src/components/Dashboard/DataSubmissionWorkflow.tsx:25-30 | result 128.7, a valid report with the fixed message, step 3 |
| DataSubmissionWorkflow.Workflow.HandleSubmit | src/components/Dashboard/DataSubmissionWorkflow.tsx:33-41 | step 1 with file, result and quality cleared |
| DataSubmissionWorkflow.SubmitOnce | src/components/Dashboard/DataSubmissionWorkflow.tsx:14-41 | choose, calculate, timer and submit return to step 1 with no file, result, quality report or pending timer |
| TimeTravelVisualizer.MakeTimePoint | src/components/AI/TimeTravelVisualizer/TimeTravelVisualizer.tsx:35-45 | 50 locations built by `MakeLocation`, every reading clamped at 0, and the average is their mean |
| TimeTravelVisualizer.SumHmpiNonNegative | src/components/AI/TimeTravelVisualizer/TimeTravelVisualizer.tsx:44 | a sum of non-negative readings is non-negative |
| TimeTravelVisualizer.GenerateHistoricalData | src/components/AI/TimeTravelVisualizer/TimeTravelVisualizer.tsx:30-49 | 72 + currentMonth points; the i-th is `PointAt(i)`, month i mod 12 + 1 of year 2019 + i div 12 |
| TimeTravelVisualizer.PointsInTimeOrder | src/components/AI/TimeTravelVisualizer/TimeTravelVisualizer.tsx:32-35 | points run strictly forward in (year, month) from January 2019, with months 1 to 12 |
| TimeTravelVisualizer.ReadingsNonNegative | src/components/AI/TimeTravelVisualizer/TimeTravelVisualizer.tsx:41-44 | each point has 50 non-negative readings and a non-negative average |
| TimeTravelVisualizer.FormatTimeLabel | src/components/AI/TimeTravelVisualizer/TimeTravelVisualizer.tsx:74-78 | empty exactly when there is no point |
| TimeTravelVisualizer.GeneratedLabel | src/components/AI/TimeTravelVisualizer/TimeTravelVisualizer.tsx:74-78 | a generated point is labelled with its month's abbreviation from `MonthName` and its year |
| TimeTravelVisualizer.MarkerColourBand | src/components/AI/TimeTravelVisualizer/TimeTravelVisualizer.tsx:80-84 | `GetMarkerColor` gives green, orange or red by the number of the cut points 50 and 100 exceeded |
| TimeTravelVisualizer.PlaybackRun | src/components/AI/TimeTravelVisualizer/TimeTravelVisualizer.tsx:56-62 | `Run` of `TickStep` (the interval callback): from index i, n ticks give index i + n while points remain; after that the index stays at max(0, len-1) and playback has stopped |
| TimeTravelVisualizer.Playback.constructor | src/components/AI/TimeTravelVisualizer/TimeTravelVisualizer.tsx:23-25 | no points, index 0, not playing |
| TimeTravelVisualizer.Playback.LoadTimePoints | src/components/AI/TimeTravelVisualizer/TimeTravelVisualizer.tsx:48 | the points are replaced and the index stays valid |
| TimeTravelVisualizer.Playback.Tick | src/components/AI/TimeTravelVisualizer/TimeTravelVisualizer.tsx:56-62 | one tick step; the index never passes max(0, len-1) |
| TimeTravelVisualizer.Playback.TogglePlay | src/components/AI/TimeTravelVisualizer/TimeTravelVisualizer.tsx:105 | flips playing, and nothing else changes |
| TimeTravelVisualizer.Playback.Stop | src/components/AI/TimeTravelVisualizer/TimeTravelVisualizer.tsx:108 | not playing, index 0 |
| TimeTravelVisualizer.Playback.Seek | src/components/AI/TimeTravelVisualizer/TimeTravelVisualizer.tsx:109 | the index is the slider's value and that point is shown |
| TimeTravelVisualizer.PlayToEnd | src/components/AI/TimeTravelVisualizer/TimeTravelVisualizer.tsx:56-62 | play with every tick run ends stopped at the last point |
| Text.ToLower | src/components/AI/PredictiveHealthAssessment/PredictiveHealthAssessment.tsx:80 | same length, lower-cases each character |
| Text.ToLowerIdempotent | src/components/AI/PredictiveHealthAssessment/PredictiveHealthAssessment.tsx:80 | lower-casing twice is lower-casing once |
| Text.Capitalize | src/components/AI/DataQualityChecker/DataQualityChecker.tsx:49 | first character upper-cased, the rest unchanged |
| Text.NatToString | src/components/AI/TimeTravelVisualizer/TimeTravelVisualizer.tsx:77 | a non-empty run of decimal digits with no leading zero |
| Text.IntToString | src/components/AI/TimeTravelVisualizer/TimeTravelVisualizer.tsx:77 | `String(n)`: a minus sign exactly for a negative number, then decimal digits |
| Text.IntToStringValue | src/components/AI/TimeTravelVisualizer/TimeTravelVisualizer.tsx:77 | the digits after the optional minus sign denote the number's magnitude, so the label shows the year itself |
| Text.NatToStringValue | src/components/AI/TimeTravelVisualizer/TimeTravelVisualizer.tsx:77 | the decimal digits read back as the number |

## Left out

- Floating point: numbers are the reals. Float32 output rounding, NaN and
  infinities are not modelled; in particular a NaN confidence, which would
  compare false everywhere, is not modelled.
- An output index past the end of a model's output reads as 0. JavaScript reads
  `undefined` there, and a missing score then behaves like NaN:
  `categorizeSeverity(undefined)` returns Critical and `undefined > 0.7` is
  false. The model's 0 gives Low instead, so for an output shorter than the
  fields read the model's severity differs from the source's. The lemmas
  `SourceScoresAreOutputs`, `HealthRiskOutputs` and `DataQualityOutputs`
  require outputs long enough for every field.
- A failure inside `predict` and a failure inside `data()` are both the model's
  single `Failure`. In both cases the output buffer is not allocated or not
  released, and the input buffer leaks.
- The tensor library, model files and artifact fetching are not modelled. The
  result of loading is a `Loader` parameter.
- `encodeTimeframe`: keys that JavaScript objects inherit (such as
  `"toString"`) are not modelled. Every string outside the table maps to 1.
- Inputs outside the typed values are not modelled: an alert severity other
  than the four, a timeframe outside the three, a non-numeric slider value.
- Console logging, the `console.log(...)` calls in handlers, JSX layout, icons,
  maps, charts and text like `toFixed(1)` and `substring(0, 50)` are not
  modelled.
- The fetch thunk in the predictions slice (`fetch`, `response.json()`) is not
  modelled; only its pending, fulfilled and rejected reducer cases are.
- The REST client (apiService/axios), the backend, routing, store setup, the
  other slices, hooks and i18n are not part of this model.
- The test file for the detector checks for text that the component does not
  render, so no property is taken from it.
- Timers, `setInterval` clearing and React batching are not modelled. Each
  callback firing is a method call. Playback ticks are only applied while
  playing.
- Case mapping in `Text` is ASCII only, while JavaScript's `toLowerCase` and
  `toUpperCase` map all of Unicode. The severities and the field keys the
  pages pass through it are ASCII, so no result within the model's scope
  changes.
- `Math.random`, `Math.sin` and `new Date()` are parameters. The values they
  produce are not constrained to their real ranges.
- TimeTravelVisualizer.Playback.Seek: requires an index of an existing point.
  That is the range the slider offers; the slider's behaviour with no points
  (maximum -1) is not modelled.
- DataQualityChecker.ParseReading: `parseFloat` is a parameter; the parsing of
  numeric prefixes itself is not modelled.
