/** Properties of the car condition model that relate several calls:
    band selection and its monotonicity, the score ranges and how the draw
    covers them, averaging, the confidence cap, independence from labels
    and from the draw, and the input check of the entry point. */
module CarAnalysisProperties {
  import opened CarAnalysis

  // ---------------------------------------------------------------------
  // Band selection
  // ---------------------------------------------------------------------

  /** The chosen condition is exactly the band whose interval holds the
      average: selection and the interval table agree in both directions. */
  lemma SelectConditionIsBand(avg: real, c: Condition)
    ensures SelectCondition(avg) == c <==> InBand(avg, c)
  {
  }

  /** An average exactly on a threshold falls into the lower band. */
  lemma ThresholdsFallToLowerBand()
    ensures SelectCondition(ExcellentThreshold) == Good
    ensures SelectCondition(GoodThreshold) == Fair
    ensures SelectCondition(FairThreshold) == Poor
  {
  }

  /** The `overallCondition` strings are pairwise distinct, so the string
      the presentation layer receives identifies the band. */
  lemma ConditionNameIdentifiesBand(c1: Condition, c2: Condition)
    requires ConditionName(c1) == ConditionName(c2)
    ensures c1 == c2
  {
  }

  /** A higher average never yields a worse condition. */
  lemma ConditionMonotone(avg1: real, avg2: real)
    requires avg1 <= avg2
    ensures Rank(SelectCondition(avg1)) <= Rank(SelectCondition(avg2))
  {
  }

  // ---------------------------------------------------------------------
  // Score ranges
  // ---------------------------------------------------------------------

  /** The score ranges are strictly ordered by band, hence disjoint. */
  lemma ScoreRangesOrdered(c1: Condition, c2: Condition)
    requires Rank(c1) < Rank(c2)
    ensures MaxScore(c1) < MinScore(c2)
  {
  }

  /** A score identifies the band it was drawn for. */
  lemma ScoreDeterminesCondition(c1: Condition, c2: Condition, s: int)
    requires MinScore(c1) <= s <= MaxScore(c1)
    requires MinScore(c2) <= s <= MaxScore(c2)
    ensures c1 == c2
  {
  }

  /** The draw yields score s exactly on an interval of r of width
      1 / span: each integer of the band is equally likely under a uniform
      draw. */
  lemma DrawScorePreimage(c: Condition, r: real, s: int)
    requires 0.0 <= r < 1.0
    ensures DrawScore(c, r) == s <==>
      (s - ScoreBase(c)) as real / ScoreSpan(c) as real <= r < (s - ScoreBase(c) + 1) as real / ScoreSpan(c) as real
  {
  }

  /** Every integer of a band's range is produced by some draw, so
      [MinScore, MaxScore] is exactly the set of possible scores. */
  lemma EveryScoreInBandIsDrawn(c: Condition, s: int)
    requires MinScore(c) <= s <= MaxScore(c)
    ensures exists r :: 0.0 <= r < 1.0 && DrawScore(c, r) == s
  {
    var r := (s - ScoreBase(c)) as real / ScoreSpan(c) as real;
    DrawScorePreimage(c, r, s);
  }

  // ---------------------------------------------------------------------
  // Averaging
  // ---------------------------------------------------------------------

  /** If every score lies in [lo, hi], the sum of n scores lies in [n*lo, n*hi]. */
  lemma {:induction false} SumScoresWithin(preds: seq<Prediction>, lo: real, hi: real)
    requires forall i :: 0 <= i < |preds| ==> lo <= preds[i].score <= hi
    ensures |preds| as real * lo <= SumScores(preds) <= |preds| as real * hi
  {
    if preds != [] {
      var n := |preds|;
      SumScoresWithin(preds[..n - 1], lo, hi);
      assert (n - 1) as real * lo + lo == n as real * lo;
      assert (n - 1) as real * hi + hi == n as real * hi;
    }
  }

  /** The average lies between the smallest and the largest possible score. */
  lemma AverageWithin(preds: seq<Prediction>, lo: real, hi: real)
    requires |preds| > 0
    requires forall i :: 0 <= i < |preds| ==> lo <= preds[i].score <= hi
    ensures lo <= AverageConfidence(preds) <= hi
  {
    SumScoresWithin(preds, lo, hi);
    var n := |preds| as real;
    assert SumScores(preds) / n >= (n * lo) / n;
    assert SumScores(preds) / n <= (n * hi) / n;
  }

  /** The sum reads only the scores: labels do not enter it. */
  lemma {:induction false} SumScoresIgnoresLabels(p1: seq<Prediction>, p2: seq<Prediction>)
    requires |p1| == |p2|
    requires forall i :: 0 <= i < |p1| ==> p1[i].score == p2[i].score
    ensures SumScores(p1) == SumScores(p2)
  {
    if p1 != [] {
      SumScoresIgnoresLabels(p1[..|p1| - 1], p2[..|p2| - 1]);
    }
  }

  // ---------------------------------------------------------------------
  // Confidence
  // ---------------------------------------------------------------------

  /** With every score in [0, 1] the reported confidence lies in [0.1, 0.95]. */
  lemma ConfidenceWithinUnitScores(preds: seq<Prediction>, r: real)
    requires |preds| > 0
    requires 0.0 <= r < 1.0
    requires forall i :: 0 <= i < |preds| ==> 0.0 <= preds[i].score <= 1.0
    ensures 0.1 <= InterpretCarCondition(preds, r).confidence <= 0.95
  {
    AverageWithin(preds, 0.0, 1.0);
  }

  // ---------------------------------------------------------------------
  // The whole interpretation
  // ---------------------------------------------------------------------

  /** Labels never affect the report: the vehicle check only logs, and the
      average is taken over every prediction whatever its label. */
  lemma InterpretIgnoresLabels(p1: seq<Prediction>, p2: seq<Prediction>, r: real)
    requires |p1| == |p2| > 0
    requires 0.0 <= r < 1.0
    requires forall i :: 0 <= i < |p1| ==> p1[i].score == p2[i].score
    ensures InterpretCarCondition(p1, r) == InterpretCarCondition(p2, r)
  {
    SumScoresIgnoresLabels(p1, p2);
  }

  /** Only the score depends on the draw, and it stays in the same band. */
  lemma InterpretDeterministic(preds: seq<Prediction>, r1: real, r2: real)
    requires |preds| > 0
    requires 0.0 <= r1 < 1.0 && 0.0 <= r2 < 1.0
    ensures var a, b := InterpretCarCondition(preds, r1), InterpretCarCondition(preds, r2);
      && a.overallCondition == b.overallCondition
      && a.damages == b.damages
      && a.recommendations == b.recommendations
      && a.confidence == b.confidence
  {
  }

  /** For the same draw, a higher average never yields a worse condition or
      a lower score; every score lies in [25, 99], so 100 is never produced. */
  lemma InterpretMonotone(p1: seq<Prediction>, p2: seq<Prediction>, r: real)
    requires |p1| > 0 && |p2| > 0
    requires 0.0 <= r < 1.0
    requires AverageConfidence(p1) <= AverageConfidence(p2)
    ensures var a, b := InterpretCarCondition(p1, r), InterpretCarCondition(p2, r);
      && Rank(a.overallCondition) <= Rank(b.overallCondition)
      && a.conditionScore <= b.conditionScore
      && 25 <= a.conditionScore <= 99
  {
  }

  /** Two predictions averaging exactly 0.8, one of them not a car label:
      the tie falls to Good and the confidence is 0.9. */
  lemma ExampleTieOnExcellentThreshold()
    ensures var preds := [Prediction("sports car", 0.9), Prediction("kitchen utensil", 0.7)];
      && AverageConfidence(preds) == 0.8
      && InterpretCarCondition(preds, 0.5).overallCondition == Good
      && InterpretCarCondition(preds, 0.5).conditionScore == 77
      && InterpretCarCondition(preds, 0.5).confidence == 0.9
  {
    var preds := [Prediction("sports car", 0.9), Prediction("kitchen utensil", 0.7)];
    assert preds[..1][..0] == [];
    assert SumScores(preds[..1]) == 0.9;
    assert SumScores(preds) == 1.6;
  }

  /** The vehicle check lower-cases labels before matching a car term. */
  lemma ExampleCarDetectedIgnoresCase()
    ensures IsCarDetected([Prediction("Jeep", 0.3)])
  {
    var preds := [Prediction("Jeep", 0.3)];
    assert LowerCase("Jeep") == "jeep";
    assert OccursAt(LowerCase(preds[0].labelText), CarRelatedTerms[3], 0);
  }

  // ---------------------------------------------------------------------
  // Entry point
  // ---------------------------------------------------------------------

  /** The accepted MIME types are exactly "image/" followed by anything. */
  lemma IsImageTypeCharacterised(mimeType: string)
    ensures IsImageType(mimeType) <==> exists rest :: mimeType == ImageTypePrefix + rest
  {
    if IsImageType(mimeType) {
      var rest := mimeType[|ImageTypePrefix|..];
      assert mimeType == ImageTypePrefix + rest;
    }
  }

  /** A file that is not an image is rejected before the classifier is
      consulted: the outcome is the same whatever the classifier would do. */
  lemma RejectedBeforeClassifying(file: ImageFile, classify1: ImageFile -> Classification,
                                  classify2: ImageFile -> Classification, r: real)
    requires 0.0 <= r < 1.0
    requires !IsImageType(file.mimeType)
    ensures AnalyzeCarCondition(file, classify1, r) == AnalyzeCarCondition(file, classify2, r)
    ensures AnalyzeCarCondition(file, classify1, r) == Failure(AnalysisFailedMessage)
  {
  }

  /** A text file, an upper-case type and a missing type are all rejected
      with the generic message, not the internal one. */
  lemma ExampleRejectedFiles(classify: ImageFile -> Classification, r: real)
    requires 0.0 <= r < 1.0
    ensures !IsImageType("text/plain") && !IsImageType("IMAGE/PNG") && !IsImageType("")
    ensures AnalyzeCarCondition(ImageFile("notes.txt", "text/plain"), classify, r) == Failure(AnalysisFailedMessage)
    ensures AnalyzeCarCondition(ImageFile("car.png", "IMAGE/PNG"), classify, r) == Failure(AnalysisFailedMessage)
    ensures AnalyzeCarCondition(ImageFile("car", ""), classify, r) == Failure(AnalysisFailedMessage)
    ensures RunAnalysis(ImageFile("notes.txt", "text/plain"), classify, r) == Failure(InvalidFileMessage)
  {
    assert !IsImageType("text/plain") by { assert "text/plain"[0] != ImageTypePrefix[0]; }
    assert !IsImageType("IMAGE/PNG") by { assert "IMAGE/PNG"[0] != ImageTypePrefix[0]; }
  }
}
