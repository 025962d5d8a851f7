/**
 * The health-report workflow of the disease-prediction screen: a four-step
 * machine upload -> extract -> edit -> result.  Picking a file starts an
 * extraction interval, running the analysis starts an analysis interval,
 * and each interval callback is a tick method here that the caller
 * invokes.  No time is modelled, and an interval is a counter of live
 * timers: only its own terminal tick ends it, reset never does.
 */
module DiseasePrediction {

  import opened Wrappers
  import JsNumber

  /** `PredictionStep`. */
  datatype Step = Upload | Extract | Edit | Result

  datatype Smoking = Yes | No

  datatype Exercise = Regular | Occasional | Rare

  /** `ExtractedData`: the metrics snapshot the user reviews and edits. */
  datatype ExtractedData = ExtractedData(
    age: int,
    bloodPressure: int,
    cholesterol: int,
    glucose: int,
    heartRate: int,
    bmi: real,
    smoking: Smoking,
    exercise: Exercise)

  /** The snapshot the screen starts with; nothing later rewrites it but the edits. */
  const InitialData := ExtractedData(45, 120, 200, 95, 72, 24.5, No, Regular)

  /** The three attributes of the picked file that the screen uses. */
  datatype UploadedFile = UploadedFile(name: string, size: nat, mediaType: string)

  /** `predictionResult` when present. */
  datatype PredictionResult = PredictionResult(
    prediction: int,
    status: string,
    confidence: int,
    explanation: string)

  /** The only result the analysis ever stores, whatever the snapshot holds. */
  const StubResult := PredictionResult(
    0,
    "No Disease Detected",
    94,
    "Based on your health metrics, all indicators show excellent cardiovascular health. Your BMI, blood pressure, and cholesterol levels are all within optimal ranges.")

  // ---------------------------------------------------------------------------
  // Progress updaters: the functions the interval callbacks hand to the
  // progress setters.  A value at or above 100 is pinned to 100; below it
  // the increment is added without any clamp.  Their contracts are the two
  // cases of the callback; what they mean over a run is stated by the
  // closed forms `ExtractionAfterValue` and `AnalysisAfterValue` below.

  function NextExtractionProgress(prev: int): (next: int)
    ensures prev < 100 ==> next == prev + 10
    ensures prev >= 100 ==> next == 100
  {
    if prev >= 100 then 100 else prev + 10
  }

  function NextAnalysisProgress(prev: int): (next: int)
    ensures prev < 100 ==> next == prev + 12
    ensures prev >= 100 ==> next == 100
  {
    if prev >= 100 then 100 else prev + 12
  }

  /** Extraction progress after `n` ticks from 0. */
  function ExtractionAfter(n: nat): int {
    if n == 0 then 0 else NextExtractionProgress(ExtractionAfter(n - 1))
  }

  /** Analysis progress after `n` ticks from 0. */
  function AnalysisAfter(n: nat): int {
    if n == 0 then 0 else NextAnalysisProgress(AnalysisAfter(n - 1))
  }

  /** From 0 the extraction values run 0, 10, ..., 100 and then stay at 100. */
  lemma {:induction false} ExtractionAfterValue(n: nat)
    ensures ExtractionAfter(n) == if n <= 10 then 10 * n else 100
  {
    if n > 0 {
      ExtractionAfterValue(n - 1);
    }
  }

  /**
   * The extraction values strictly increase up to 100; the tick that reads
   * 100 (the eleventh) is the first terminal one.
   */
  lemma ExtractionMonotone(i: nat, j: nat)
    requires i < j
    ensures i < 10 ==> ExtractionAfter(i) < ExtractionAfter(j)
    ensures ExtractionAfter(i) <= ExtractionAfter(j) <= 100
    ensures ExtractionAfter(i) >= 100 <==> i >= 10
  {
    ExtractionAfterValue(i);
    ExtractionAfterValue(j);
  }

  /** From 0 the analysis values run 0, 12, ..., 96, 108 and then stay at 100. */
  lemma {:induction false} AnalysisAfterValue(n: nat)
    ensures AnalysisAfter(n) == if n <= 9 then 12 * n else 100
  {
    if n > 0 {
      AnalysisAfterValue(n - 1);
    }
  }

  /**
   * Exactly one observed analysis value exceeds 100: the 108 after the ninth
   * tick.  None exceeds 108, and the tick reading 108 is the first terminal one.
   */
  lemma AnalysisOvershootsOnce(n: nat)
    ensures AnalysisAfter(n) > 100 <==> n == 9
    ensures AnalysisAfter(9) == 108
    ensures 0 <= AnalysisAfter(n) <= 108
    ensures AnalysisAfter(n) >= 100 <==> n >= 9
  {
    AnalysisAfterValue(n);
    AnalysisAfterValue(9);
  }

  // ---------------------------------------------------------------------------
  // Field edits.

  /** The five integer metrics, each with a slider and a typed input. */
  datatype NumericField = Age | BloodPressure | Cholesterol | Glucose | HeartRate

  function SliderMin(f: NumericField): int {
    match f
    case Age => 18
    case BloodPressure => 80
    case Cholesterol => 100
    case Glucose => 70
    case HeartRate => 50
  }

  function SliderMax(f: NumericField): int {
    match f
    case Age => 100
    case BloodPressure => 200
    case Cholesterol => 400
    case Glucose => 200
    case HeartRate => 120
  }

  function FieldValue(d: ExtractedData, f: NumericField): int {
    match f
    case Age => d.age
    case BloodPressure => d.bloodPressure
    case Cholesterol => d.cholesterol
    case Glucose => d.glucose
    case HeartRate => d.heartRate
  }

  /** `{ ...prev, [f]: v }`: the one field replaced, every other field kept. */
  function WithField(d: ExtractedData, f: NumericField, v: int): (r: ExtractedData)
    ensures FieldValue(r, f) == v
    ensures forall g :: g != f ==> FieldValue(r, g) == FieldValue(d, g)
    ensures r.bmi == d.bmi && r.smoking == d.smoking && r.exercise == d.exercise
  {
    match f
    case Age => d.(age := v)
    case BloodPressure => d.(bloodPressure := v)
    case Cholesterol => d.(cholesterol := v)
    case Glucose => d.(glucose := v)
    case HeartRate => d.(heartRate := v)
  }

  /** Every numeric field within its slider's bounds. */
  predicate InSliderRanges(d: ExtractedData) {
    && (forall f :: SliderMin(f) <= FieldValue(d, f) <= SliderMax(f))
    && 15.0 <= d.bmi <= 40.0
  }

  /** What a typed integer field stores: `parseInt(text) || 0`. */
  function TypedInt(text: string): int {
    JsNumber.IntOrZero(JsNumber.ParseInt(text))
  }

  /** What the typed BMI field stores: `parseFloat(text) || 0`. */
  function TypedReal(text: string): real {
    JsNumber.RealOrZero(JsNumber.ParseFloat(text))
  }

  /** A slider edit keeps a snapshot within the slider bounds. */
  lemma SliderEditKeepsRanges(d: ExtractedData, f: NumericField, v: int)
    requires InSliderRanges(d) && SliderMin(f) <= v <= SliderMax(f)
    ensures InSliderRanges(WithField(d, f, v))
  {
    var r := WithField(d, f, v);
    forall g ensures SliderMin(g) <= FieldValue(r, g) <= SliderMax(g) {
      if g != f {
        assert FieldValue(d, g) == FieldValue(r, g);
      }
    }
  }

  /**
   * Typing a numeral stores exactly its value, with no clamp: a numeral
   * beyond a slider's bounds leaves the snapshot outside the slider ranges.
   */
  lemma TypedNumeralStored(d: ExtractedData, f: NumericField, v: int)
    ensures FieldValue(WithField(d, f, TypedInt(JsNumber.IntToString(v))), f) == v
    ensures !(SliderMin(f) <= v <= SliderMax(f)) ==>
      !InSliderRanges(WithField(d, f, TypedInt(JsNumber.IntToString(v))))
  {
    JsNumber.ParseIntOfNumeral(v);
  }

  /** Typing a decimal into an integer field keeps only its whole part: `parseInt` stops at the dot. */
  lemma TypedDecimalTruncates(d: ExtractedData, f: NumericField, w: int, frac: string)
    requires JsNumber.AllDigits(frac)
    ensures FieldValue(WithField(d, f, TypedInt(JsNumber.IntToString(w) + ("." + frac))), f) == w
  {
    JsNumber.ParseIntStopsAtDot(w, frac, true);
  }

  /** Text with no leading digit (an emptied input, say) stores 0, which is below every slider's minimum. */
  lemma TypedGarbageIsZero(d: ExtractedData, f: NumericField, text: string)
    requires JsNumber.ParseInt(text) == None
    ensures FieldValue(WithField(d, f, TypedInt(text)), f) == 0
    ensures !InSliderRanges(WithField(d, f, TypedInt(text)))
  {
    assert !(SliderMin(f) <= 0);
  }

  /** The typed BMI field keeps the fraction: `w.frac` stores w plus the fraction, unclamped. */
  lemma TypedBmiKeepsFraction(w: nat, frac: string)
    requires JsNumber.AllDigits(frac)
    ensures TypedReal(JsNumber.NatToString(w) + ("." + frac)) == w as real + JsNumber.FractionValue(frac)
  {
    JsNumber.ParseFloatKeepsFraction(w, frac);
  }

  // ---------------------------------------------------------------------------
  // What the screen shows.

  function StepIndex(s: Step): nat {
    match s
    case Upload => 0
    case Extract => 1
    case Edit => 2
    case Result => 3
  }

  /** The step indicator's `isActive`. */
  predicate IsActive(item: Step, current: Step)
    ensures IsActive(item, current) <==> StepIndex(item) == StepIndex(current)
  {
    item == current
  }

  /**
   * The step indicator's `isCompleted`: the first three items are ticked once
   * the review step is reached; the last never is.
   */
  function IsCompleted(item: Step, current: Step): (b: bool)
    ensures b <==> item != Result && StepIndex(current) >= StepIndex(Edit)
    ensures b ==> StepIndex(item) <= StepIndex(current)
  {
    item in [Upload, Extract, Edit] && current in [Edit, Result]
  }

  /** In the review step its own item is at once active and ticked. */
  lemma ReviewItemActiveAndCompleted(item: Step, current: Step)
    ensures IsActive(item, current) && IsCompleted(item, current) <==> item == Edit && current == Edit
  {
  }

  /** The three faces of the result step. */
  datatype ResultPanel = Analyzing(progress: int) | Outcome(result: PredictionResult) | Blank

  /** The result step shows progress below 100, else the result if there is one, else nothing. */
  function ResultPanelOf(progress: int, result: Option<PredictionResult>): (p: ResultPanel)
    ensures p.Analyzing? <==> progress < 100
    ensures p.Outcome? <==> progress >= 100 && result.Some?
    ensures p.Outcome? ==> p.result == result.value
  {
    if progress < 100 then Analyzing(progress)
    else match result
      case Some(r) => Outcome(r)
      case None => Blank
  }

  /**
   * A worked instance of `ResultPanelOf` at the overshoot: while progress sits
   * at 108 no result exists yet, so the result step is blank.
   */
  lemma OvershootShowsBlank()
    ensures ResultPanelOf(AnalysisAfter(9), None) == Blank
  {
    AnalysisAfterValue(9);
  }

  // ---------------------------------------------------------------------------
  // The screen's state and its handlers.

  class Workflow {
    var currentStep: Step
    var extractionProgress: int
    var analysisProgress: int
    var uploadedFile: Option<UploadedFile>
    var extractedData: ExtractedData
    var predictionResult: Option<PredictionResult>
    /** Extraction intervals still scheduled. */
    var extractionTimers: nat
    /** Analysis intervals still scheduled. */
    var analysisTimers: nat

    /**
     * What every sequence of handler calls keeps: extraction progress is one
     * of 0, 10, ..., 100; analysis progress is a multiple of 12 up to 108, or 100.
     */
    ghost predicate Valid()
      reads this
    {
      && 0 <= extractionProgress <= 100 && extractionProgress % 10 == 0
      && 0 <= analysisProgress <= 108 && (analysisProgress % 12 == 0 || analysisProgress == 100)
    }

    /**
     * The states the screen's own controls reach: the file input only in the
     * upload step, Run Analysis only in the review step, New Analysis only
     * beside a shown result.
     */
    ghost predicate Coherent()
      reads this
    {
      match currentStep
      case Upload =>
        && uploadedFile == None && predictionResult == None
        && extractionProgress == 0 && analysisProgress == 0
        && extractionTimers == 0 && analysisTimers == 0
      case Extract =>
        && uploadedFile.Some? && predictionResult == None && analysisProgress == 0
        && extractionTimers == 1 && analysisTimers == 0
      case Edit =>
        && uploadedFile.Some? && predictionResult == None
        && extractionProgress == 100 && analysisProgress == 0
        && extractionTimers == 0 && analysisTimers == 0
      case Result =>
        && uploadedFile.Some? && extractionProgress == 100 && extractionTimers == 0
        && ((analysisTimers == 1 && predictionResult == None)
            || (analysisTimers == 0 && predictionResult == Some(StubResult) && analysisProgress == 100))
    }

    /** The file input is rendered in the upload step only. */
    predicate UploadOffered()
      reads this
    {
      currentStep == Upload
    }

    /** The Run Analysis button is rendered in the review step only. */
    predicate RunAnalysisOffered()
      reads this
    {
      currentStep == Edit
    }

    /** New Analysis is rendered beside a shown result only. */
    predicate ResetOffered()
      reads this
    {
      currentStep == Result && ResultPanelOf(analysisProgress, predictionResult).Outcome?
    }

    /** Everything except the snapshot, for the edit handlers' frame. */
    function Machine(): (Step, int, int, Option<UploadedFile>, Option<PredictionResult>, nat, nat)
      reads this
    {
      (currentStep, extractionProgress, analysisProgress, uploadedFile, predictionResult,
       extractionTimers, analysisTimers)
    }

    constructor ()
      ensures Valid() && Coherent()
      ensures currentStep == Upload && extractedData == InitialData
      ensures uploadedFile == None && predictionResult == None
      ensures extractionProgress == 0 && analysisProgress == 0
      ensures extractionTimers == 0 && analysisTimers == 0
    {
      currentStep := Upload;
      extractionProgress := 0;
      analysisProgress := 0;
      uploadedFile := None;
      extractedData := InitialData;
      predictionResult := None;
      extractionTimers := 0;
      analysisTimers := 0;
    }

    /**
     * `handleFileUpload`: no file changes nothing; a file is recorded, the
     * step becomes extract and one more extraction interval starts.  The
     * progress is not reset.  No file type is checked.
     */
    method HandleFileUpload(file: Option<UploadedFile>)
      requires Valid()
      modifies this
      ensures Valid()
      ensures file == None ==> Machine() == old(Machine())
      ensures file.Some? ==>
        && uploadedFile == file && currentStep == Extract
        && extractionTimers == old(extractionTimers) + 1
        && extractionProgress == old(extractionProgress) && analysisProgress == old(analysisProgress)
        && predictionResult == old(predictionResult) && analysisTimers == old(analysisTimers)
      ensures extractedData == old(extractedData)
      ensures old(Coherent()) && old(UploadOffered()) ==> Coherent()
    {
      if file.Some? {
        uploadedFile := file;
        currentStep := Extract;
        extractionTimers := extractionTimers + 1;
      }
    }

    /**
     * One callback of a live extraction interval.  Below 100 it adds 10; at
     * 100 or more it pins 100, moves to the review step, whatever the current
     * step, and ends its own interval.
     */
    method ExtractionTick()
      requires Valid() && extractionTimers > 0
      modifies this
      ensures Valid()
      ensures extractionProgress == NextExtractionProgress(old(extractionProgress))
      ensures old(extractionProgress) >= 100 ==>
        currentStep == Edit && extractionTimers == old(extractionTimers) - 1
      ensures old(extractionProgress) < 100 ==>
        currentStep == old(currentStep) && extractionTimers == old(extractionTimers)
      ensures uploadedFile == old(uploadedFile) && extractedData == old(extractedData)
      ensures analysisProgress == old(analysisProgress) && predictionResult == old(predictionResult)
      ensures analysisTimers == old(analysisTimers)
      ensures old(Coherent()) ==> Coherent()
    {
      if extractionProgress >= 100 {
        extractionTimers := extractionTimers - 1;
        currentStep := Edit;
        extractionProgress := 100;
      } else {
        extractionProgress := extractionProgress + 10;
      }
    }

    /**
     * `handleRunAnalysis`: the step becomes result, analysis progress 0, and
     * one more analysis interval starts.  An earlier result is not cleared.
     */
    method HandleRunAnalysis()
      requires Valid()
      modifies this
      ensures Valid()
      ensures currentStep == Result && analysisProgress == 0
      ensures analysisTimers == old(analysisTimers) + 1
      ensures predictionResult == old(predictionResult) && uploadedFile == old(uploadedFile)
      ensures extractionProgress == old(extractionProgress) && extractionTimers == old(extractionTimers)
      ensures extractedData == old(extractedData)
      ensures old(Coherent()) && old(RunAnalysisOffered()) ==> Coherent()
    {
      currentStep := Result;
      analysisProgress := 0;
      analysisTimers := analysisTimers + 1;
    }

    /**
     * One callback of a live analysis interval.  Below 100 it adds 12 (so 96
     * becomes 108); at 100 or more it pins 100, stores the fixed result, and
     * ends its own interval.  The snapshot is never read.
     */
    method AnalysisTick()
      requires Valid() && analysisTimers > 0
      modifies this
      ensures Valid()
      ensures analysisProgress == NextAnalysisProgress(old(analysisProgress))
      ensures old(analysisProgress) >= 100 ==>
        predictionResult == Some(StubResult) && analysisTimers == old(analysisTimers) - 1
      ensures old(analysisProgress) < 100 ==>
        predictionResult == old(predictionResult) && analysisTimers == old(analysisTimers)
      ensures currentStep == old(currentStep) && uploadedFile == old(uploadedFile)
      ensures extractedData == old(extractedData)
      ensures extractionProgress == old(extractionProgress) && extractionTimers == old(extractionTimers)
      ensures old(Coherent()) ==> Coherent()
    {
      if analysisProgress >= 100 {
        analysisTimers := analysisTimers - 1;
        predictionResult := Some(StubResult);
        analysisProgress := 100;
      } else {
        analysisProgress := analysisProgress + 12;
      }
    }

    /**
     * `resetPrediction`: back to the upload step with no file, both progress
     * values 0 and no result.  The snapshot is kept and no interval is stopped.
     */
    method ResetPrediction()
      requires Valid()
      modifies this
      ensures Valid()
      ensures currentStep == Upload && uploadedFile == None && predictionResult == None
      ensures extractionProgress == 0 && analysisProgress == 0
      ensures extractedData == old(extractedData)
      ensures extractionTimers == old(extractionTimers) && analysisTimers == old(analysisTimers)
      ensures old(Coherent()) && old(ResetOffered()) ==> Coherent()
    {
      currentStep := Upload;
      uploadedFile := None;
      extractionProgress := 0;
      analysisProgress := 0;
      predictionResult := None;
    }

    /** A slider's `onValueChange` for an integer metric; the slider only yields values in its bounds. */
    method SlideNumeric(f: NumericField, v: int)
      requires Valid() && SliderMin(f) <= v <= SliderMax(f)
      modifies this
      ensures Valid()
      ensures extractedData == WithField(old(extractedData), f, v)
      ensures Machine() == old(Machine())
    {
      extractedData := WithField(extractedData, f, v);
    }

    /** A typed input's `onChange` for an integer metric: `parseInt(text) || 0`, unclamped. */
    method TypeNumeric(f: NumericField, text: string)
      requires Valid()
      modifies this
      ensures Valid()
      ensures extractedData == WithField(old(extractedData), f, TypedInt(text))
      ensures Machine() == old(Machine())
    {
      extractedData := WithField(extractedData, f, TypedInt(text));
    }

    /** The BMI slider; its bounds are 15 and 40. */
    method SlideBmi(v: real)
      requires Valid() && 15.0 <= v <= 40.0
      modifies this
      ensures Valid()
      ensures extractedData == old(extractedData).(bmi := v)
      ensures Machine() == old(Machine())
    {
      extractedData := extractedData.(bmi := v);
    }

    /** The typed BMI input: `parseFloat(text) || 0`, unclamped. */
    method TypeBmi(text: string)
      requires Valid()
      modifies this
      ensures Valid()
      ensures extractedData == old(extractedData).(bmi := TypedReal(text))
      ensures Machine() == old(Machine())
    {
      extractedData := extractedData.(bmi := TypedReal(text));
    }

    /** The smoking radio group. */
    method ChooseSmoking(s: Smoking)
      requires Valid()
      modifies this
      ensures Valid()
      ensures extractedData == old(extractedData).(smoking := s)
      ensures Machine() == old(Machine())
    {
      extractedData := extractedData.(smoking := s);
    }

    /** The exercise radio group. */
    method ChooseExercise(e: Exercise)
      requires Valid()
      modifies this
      ensures Valid()
      ensures extractedData == old(extractedData).(exercise := e)
      ensures Machine() == old(Machine())
    {
      extractedData := extractedData.(exercise := e);
    }
  }

  /** In the states the controls reach, New Analysis is offered only once both intervals have ended. */
  lemma ResetOnlyWhenIdle(w: Workflow)
    requires w.Coherent() && w.ResetOffered()
    ensures w.extractionTimers == 0 && w.analysisTimers == 0
  {
  }

  /**
   * A whole run through the controls, as a worked instance of the handler
   * contracts and the closed forms above: upload a file, let extraction
   * finish, run the analysis on the untouched snapshot and let it finish.
   * Extraction takes 11 ticks, analysis 10, and the outcome is the fixed result.
   */
  method ExampleRun(file: UploadedFile)
    returns (result: Option<PredictionResult>, data: ExtractedData, extractionTicks: nat, analysisTicks: nat)
    ensures result == Some(StubResult) && data == InitialData
    ensures extractionTicks == 11 && analysisTicks == 10
  {
    var w := new Workflow();
    w.HandleFileUpload(Some(file));
    extractionTicks := 0;
    while w.currentStep == Extract
      invariant w.Valid() && w.Coherent() && w.extractedData == InitialData
      invariant w.currentStep == Extract ==> extractionTicks <= 10 && w.extractionProgress == 10 * extractionTicks
      invariant w.currentStep != Extract ==> w.currentStep == Edit && extractionTicks == 11
      decreases 11 - extractionTicks
    {
      w.ExtractionTick();
      extractionTicks := extractionTicks + 1;
    }
    w.HandleRunAnalysis();
    analysisTicks := 0;
    while w.predictionResult == None
      invariant w.Valid() && w.Coherent() && w.currentStep == Result && w.extractedData == InitialData
      invariant w.predictionResult == None ==> analysisTicks <= 9 && w.analysisProgress == 12 * analysisTicks
      invariant w.predictionResult != None ==> analysisTicks == 10
      decreases 10 - analysisTicks
    {
      w.AnalysisTick();
      analysisTicks := analysisTicks + 1;
    }
    result, data := w.predictionResult, w.extractedData;
  }

  /**
   * Reset does not stop a live interval: were the reset handler run during
   * extraction (no control of the screen offers it there), the old interval
   * would keep counting from 0 and, at its terminal tick, move the freshly
   * reset screen to the review step with no file recorded.
   */
  method StaleExtractionAfterReset(file: UploadedFile)
    returns (step: Step, uploaded: Option<UploadedFile>)
    ensures step == Edit && uploaded == None
  {
    var w := new Workflow();
    w.HandleFileUpload(Some(file));
    w.ExtractionTick();
    w.ResetPrediction();
    var ticks := 0;
    while w.currentStep == Upload
      invariant w.Valid() && w.uploadedFile == None && w.extractionTimers == (if w.currentStep == Upload then 1 else 0)
      invariant w.currentStep == Upload ==> ticks <= 10 && w.extractionProgress == 10 * ticks
      invariant w.currentStep != Upload ==> w.currentStep == Edit
      decreases 11 - ticks
    {
      w.ExtractionTick();
      ticks := ticks + 1;
    }
    step, uploaded := w.currentStep, w.uploadedFile;
  }
}
