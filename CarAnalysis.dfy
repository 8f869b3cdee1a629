/** Model of src/lib/carAnalysis.ts: the post-processing that turns the
    labels and scores of an image classifier into a car condition report,
    and the entry point that validates the uploaded file and collapses
    every failure into one user-facing message.

    Scores are exact reals. The random draw `Math.random()` is the parameter
    `r` (0 <= r < 1), and the classifier is the parameter `classify`.
 */
module CarAnalysis {

  /** One `{label, score}` entry of the classifier's output (`label` is a
      reserved word in Dafny, hence `labelText`). */
  datatype Prediction = Prediction(labelText: string, score: real)

  /** The four values `overallCondition` takes. */
  datatype Condition = Excellent | Good | Fair | Poor

  /** The report returned to the presentation layer. */
  datatype AnalysisResult = AnalysisResult(
    overallCondition: Condition,
    conditionScore: int,
    damages: seq<string>,
    recommendations: seq<string>,
    confidence: real)

  datatype Result<T> = Success(value: T) | Failure(error: string)

  /** The string the source stores in `overallCondition`. */
  function ConditionName(c: Condition): string
  {
    match c
    case Excellent => "Excellent"
    case Good => "Good"
    case Fair => "Fair"
    case Poor => "Poor"
  }

  /** Orders the conditions from worst (0) to best (3). */
  function Rank(c: Condition): nat
  {
    match c
    case Poor => 0
    case Fair => 1
    case Good => 2
    case Excellent => 3
  }

  // ---------------------------------------------------------------------
  // Vehicle detection (computed by the source, but only ever logged)
  // ---------------------------------------------------------------------

  const CarRelatedTerms: seq<string> := [
    "sports car", "convertible", "limousine", "jeep", "pickup",
    "ambulance", "police van", "fire engine", "garbage truck",
    "tow truck", "recreational vehicle", "moving van"
  ]

  /** Declared by the source next to the car terms and never consulted. */
  const DamageIndicators: seq<string> := [
    "rust", "scratch", "dent", "crack", "broken", "damaged",
    "worn", "faded", "corroded", "chipped"
  ]

  /** `toLowerCase` on one character, restricted to ASCII letters. */
  function LowerChar(c: char): char
  {
    if 'A' <= c <= 'Z' then (c as int - 'A' as int + 'a' as int) as char else c
  }

  function LowerCase(s: string): (t: string)
    ensures |t| == |s|
    ensures forall i :: 0 <= i < |s| ==> t[i] == LowerChar(s[i])
  {
    if s == [] then [] else [LowerChar(s[0])] + LowerCase(s[1..])
  }

  /** term occurs in s starting at position i. */
  predicate OccursAt(s: string, term: string, i: int)
  {
    0 <= i && i + |term| <= |s| && s[i..i + |term|] == term
  }

  /** `s.includes(term)`: term occurs in s as a contiguous substring. */
  predicate Includes(s: string, term: string)
  {
    exists i :: 0 <= i <= |s| - |term| && OccursAt(s, term, i)
  }

  /** `isCarDetected`: some prediction's lower-cased label contains some car term. */
  predicate IsCarDetected(preds: seq<Prediction>)
  {
    exists i, j :: 0 <= i < |preds| && 0 <= j < |CarRelatedTerms| &&
      Includes(LowerCase(preds[i].labelText), CarRelatedTerms[j])
  }

  // ---------------------------------------------------------------------
  // Averaging
  // ---------------------------------------------------------------------

  /** `predictions.reduce((sum, pred) => sum + pred.score, 0)`, a left fold. */
  function SumScores(preds: seq<Prediction>): real
  {
    if preds == [] then 0.0 else SumScores(preds[..|preds| - 1]) + preds[|preds| - 1].score
  }

  /** The sum divided by the number of predictions; the source does not guard
      the empty list (it yields NaN), so the model requires one prediction. */
  function AverageConfidence(preds: seq<Prediction>): real
    requires |preds| > 0
  {
    SumScores(preds) / |preds| as real
  }

  // ---------------------------------------------------------------------
  // Banding
  // ---------------------------------------------------------------------

  const ExcellentThreshold: real := 0.8
  const GoodThreshold: real := 0.6
  const FairThreshold: real := 0.4

  /** The interval of averages that each condition stands for: strictly above
      its own threshold and at most the threshold of the band above it. */
  ghost predicate InBand(avg: real, c: Condition)
  {
    match c
    case Excellent => ExcellentThreshold < avg
    case Good => GoodThreshold < avg <= ExcellentThreshold
    case Fair => FairThreshold < avg <= GoodThreshold
    case Poor => avg <= FairThreshold
  }

  /** The `if / else if` chain on `averageConfidence`. */
  function SelectCondition(avg: real): (c: Condition)
    ensures InBand(avg, c)
  {
    if avg > ExcellentThreshold then Excellent
    else if avg > GoodThreshold then Good
    else if avg > FairThreshold then Fair
    else Poor
  }

  // ---------------------------------------------------------------------
  // Condition score
  // ---------------------------------------------------------------------

  /** The constant added to the random term for each band. */
  function ScoreBase(c: Condition): int
  {
    match c
    case Excellent => 85
    case Good => 70
    case Fair => 50
    case Poor => 25
  }

  /** The factor the random draw is multiplied by for each band. */
  function ScoreSpan(c: Condition): nat
  {
    match c
    case Excellent => 15
    case Good => 15
    case Fair => 20
    case Poor => 25
  }

  /** Smallest score a band can produce: the draw's constant term. */
  function MinScore(c: Condition): int
  {
    ScoreBase(c)
  }

  /** Largest score a band can produce (one below the upper end of each
      range that the source's comments give). */
  function MaxScore(c: Condition): int
  {
    match c
    case Excellent => 99
    case Good => 84
    case Fair => 69
    case Poor => 49
  }

  /** `Math.floor(base + Math.random() * span)`. */
  function DrawScore(c: Condition, r: real): (s: int)
    requires 0.0 <= r < 1.0
    ensures MinScore(c) <= s <= MaxScore(c)
  {
    (ScoreBase(c) as real + r * ScoreSpan(c) as real).Floor
  }

  // ---------------------------------------------------------------------
  // Fixed texts
  // ---------------------------------------------------------------------

  function Damages(c: Condition): (d: seq<string>)
    ensures d == [] <==> c == Excellent
    ensures c == Good ==> |d| == 2
    ensures c == Fair || c == Poor ==> |d| == 3
  {
    match c
    case Excellent => []
    case Good => ["Minor paint wear", "Light surface scratches"]
    case Fair => ["Visible wear and tear", "Paint fading", "Minor dents"]
    case Poor => ["Significant body damage", "Rust spots", "Mechanical issues likely"]
  }

  function Recommendations(c: Condition): (rs: seq<string>)
    ensures c == Excellent || c == Good ==> |rs| == 3
    ensures c == Fair || c == Poor ==> |rs| == 4
  {
    match c
    case Excellent => [
      "Continue regular maintenance schedule",
      "Keep up with routine cleaning and waxing",
      "Monitor tire wear and alignment"]
    case Good => [
      "Consider paint touch-up for minor scratches",
      "Schedule detailed cleaning",
      "Check brake pads and fluid levels"]
    case Fair => [
      "Professional inspection recommended",
      "Address paint and body work",
      "Service engine and transmission",
      "Replace worn components"]
    case Poor => [
      "Comprehensive mechanical inspection required",
      "Major bodywork and paint restoration needed",
      "Consider professional appraisal",
      "Evaluate repair costs vs. vehicle value"]
  }

  // ---------------------------------------------------------------------
  // Confidence
  // ---------------------------------------------------------------------

  const ConfidenceCap: real := 0.95
  const ConfidenceBoost: real := 0.1

  /** `Math.min(0.95, averageConfidence + 0.1)`. */
  function ReportedConfidence(avg: real): (conf: real)
    ensures conf <= ConfidenceCap && conf <= avg + ConfidenceBoost
    ensures conf == ConfidenceCap || conf == avg + ConfidenceBoost
  {
    if ConfidenceCap <= avg + ConfidenceBoost then ConfidenceCap else avg + ConfidenceBoost
  }

  // ---------------------------------------------------------------------
  // interpretCarCondition
  // ---------------------------------------------------------------------

  /** The report for a non-empty list of predictions and a draw r. The
      vehicle check only logs, so it does not appear in the result. */
  function InterpretCarCondition(preds: seq<Prediction>, r: real): (res: AnalysisResult)
    requires |preds| > 0
    requires 0.0 <= r < 1.0
    ensures InBand(AverageConfidence(preds), res.overallCondition)
    ensures MinScore(res.overallCondition) <= res.conditionScore <= MaxScore(res.overallCondition)
    ensures res.damages == [] <==> res.overallCondition == Excellent
    ensures 3 <= |res.recommendations| <= 4
    ensures res.confidence <= ConfidenceCap
    ensures res.confidence <= AverageConfidence(preds) + ConfidenceBoost
    ensures res.confidence == ReportedConfidence(AverageConfidence(preds))
    ensures res.conditionScore == DrawScore(res.overallCondition, r)
    ensures res.damages == Damages(res.overallCondition)
    ensures res.recommendations == Recommendations(res.overallCondition)
  {
    var avg := AverageConfidence(preds);
    var condition := SelectCondition(avg);
    AnalysisResult(
      condition,
      DrawScore(condition, r),
      Damages(condition),
      Recommendations(condition),
      ReportedConfidence(avg))
  }

  // ---------------------------------------------------------------------
  // analyzeCarCondition
  // ---------------------------------------------------------------------

  /** The uploaded file, reduced to what the analysis reads. */
  datatype ImageFile = ImageFile(name: string, mimeType: string)

  /** What the classifier call (model loading plus inference) yields. */
  datatype Classification =
    | Classified(predictions: seq<Prediction>)
    | ClassifierFailed(cause: string)

  const ImageTypePrefix: string := "image/"
  const InvalidFileMessage: string := "Please upload a valid image file"
  const AnalysisFailedMessage: string := "Failed to analyze car condition. Please try again."

  /** `imageFile.type.startsWith('image/')`. */
  predicate IsImageType(mimeType: string)
  {
    ImageTypePrefix <= mimeType
  }

  /** Whether the classifier's answer for this file, if it is asked at all,
      is a non-empty list. The pretrained classifier returns its top-ranked
      labels, so a successful call is never empty. */
  predicate ClassifierAnswersNonEmpty(file: ImageFile, classify: ImageFile -> Classification)
  {
    IsImageType(file.mimeType) && classify(file).Classified? ==> |classify(file).predictions| > 0
  }

  /** The body of the `try` block, with the error each step throws. */
  function RunAnalysis(file: ImageFile, classify: ImageFile -> Classification, r: real): (res: Result<AnalysisResult>)
    requires 0.0 <= r < 1.0
    requires ClassifierAnswersNonEmpty(file, classify)
    ensures !IsImageType(file.mimeType) ==> res == Failure(InvalidFileMessage)
    ensures IsImageType(file.mimeType) && classify(file).ClassifierFailed? ==> res == Failure(classify(file).cause)
    ensures IsImageType(file.mimeType) && classify(file).Classified? ==>
      res == Success(InterpretCarCondition(classify(file).predictions, r))
  {
    if !IsImageType(file.mimeType) then
      Failure(InvalidFileMessage)
    else
      match classify(file)
      case ClassifierFailed(cause) => Failure(cause)
      case Classified(preds) => Success(InterpretCarCondition(preds, r))
  }

  /** `analyzeCarCondition`: the `catch` replaces every error by one message. */
  function AnalyzeCarCondition(file: ImageFile, classify: ImageFile -> Classification, r: real): (res: Result<AnalysisResult>)
    requires 0.0 <= r < 1.0
    requires ClassifierAnswersNonEmpty(file, classify)
    ensures res.Failure? ==> res.error == AnalysisFailedMessage
    ensures res.Success? <==> IsImageType(file.mimeType) && classify(file).Classified?
    ensures res.Success? ==> res.value == InterpretCarCondition(classify(file).predictions, r)
  {
    match RunAnalysis(file, classify, r)
    case Success(report) => Success(report)
    case Failure(_) => Failure(AnalysisFailedMessage)
  }
}
