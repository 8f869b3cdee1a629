# Car condition report: a Dafny model

The photo-car-health demo sends an uploaded photo to a pretrained, general-purpose
image classifier. It then turns the classifier's `{label, score}` list into a
"condition report". This project models that post-processing, which is the only
logic the repository owns (`src/lib/carAnalysis.ts`), and proves what it promises.

- `CarAnalysis.dfy` (module `CarAnalysis`) covers `interpretCarCondition` and
  `analyzeCarCondition`:
  - The average score selects one of four bands, using strict `>` at 0.8, 0.6 and 0.4.
  - Each band fixes a score range, a damage list and a recommendation list.
  - The score is `floor(base + r * span)` for a draw `r` in [0, 1).
  - The reported confidence is `min(0.95, average + 0.1)`.
  - The entry point rejects any file whose MIME type does not start with `image/`.
    It rethrows every failure as the single message
    "Failed to analyze car condition. Please try again."
- `CarAnalysisProperties.dfy` (module `CarAnalysisProperties`) holds the lemmas
  that relate several calls:
  - band selection matches the interval table in both directions;
  - band selection is monotone;
  - the score ranges are ordered and disjoint;
  - every score in a band is reachable, and each one is drawn on an interval of
    `r` of width 1/span;
  - averaging stays within the score bounds, and labels never matter;
  - the draw affects only the score;
  - a non-image file is rejected without the classifier being consulted.

The model follows the code. It has one classifier, thresholds 0.8/0.6/0.4,
an offset of 0.1 and a cap of 0.95, and no "no vehicle" error: the car-term
check at `src/lib/carAnalysis.ts:55-62` only logs. The code's comment on
line 74 says "85-100". In exact arithmetic, `Math.floor(85 + r * 15)` with `r < 1` gives
85 to 99, so the ranges are [85, 99], [70, 84], [50, 69] and [25, 49].

## Model

| member | source | states |
|---|---|---|
| `CarAnalysis.InterpretCarCondition` | src/lib/carAnalysis.ts:39-119 | For a non-empty prediction list and a draw in [0, 1): the condition is the band whose interval holds the average score. The score is that band's draw and lies in the band's range. The damages and recommendations are that band's fixed lists, so damages are empty exactly when the condition is Excellent, and there are 3 or 4 recommendations. The confidence is exactly `min(0.95, average + 0.1)`, so it is at most 0.95 and at most the average plus 0.1. |
| `CarAnalysis.SelectCondition` | src/lib/carAnalysis.ts:73-100 | The chosen condition's interval holds the average: above 0.8 is Excellent, (0.6, 0.8] is Good, (0.4, 0.6] is Fair, and anything else is Poor. |
| `CarAnalysisProperties.SelectConditionIsBand` | src/lib/carAnalysis.ts:73-110 | A condition is selected if and only if the average lies in its interval, so exactly one band applies to every average. |
| `CarAnalysisProperties.ThresholdsFallToLowerBand` | src/lib/carAnalysis.ts:73-100 | An average of exactly 0.8 gives Good, 0.6 gives Fair and 0.4 gives Poor, because the comparisons are strict. |
| `CarAnalysisProperties.ConditionNameIdentifiesBand` | src/lib/carAnalysis.ts:75-102 | The four `overallCondition` strings "Excellent", "Good", "Fair" and "Poor" are distinct, so the string identifies the band. |
| `CarAnalysisProperties.ConditionMonotone` | src/lib/carAnalysis.ts:73-100 | A higher average never yields a worse condition. |
| `CarAnalysis.DrawScore` | src/lib/carAnalysis.ts:74-101 | `floor(base + r * span)` with 0 ≤ r < 1 lies in [85, 99] for Excellent, [70, 84] for Good, [50, 69] for Fair and [25, 49] for Poor. |
| `CarAnalysisProperties.ScoreRangesOrdered` | src/lib/carAnalysis.ts:74-101 | A better band's scores are all strictly higher than a worse band's scores. |
| `CarAnalysisProperties.ScoreDeterminesCondition` | src/lib/carAnalysis.ts:74-101 | No score belongs to two bands, so the score identifies its condition. |
| `CarAnalysisProperties.DrawScorePreimage` | src/lib/carAnalysis.ts:74-101 | The draw yields score s if and only if r lies in [(s - base)/span, (s - base + 1)/span). Each integer of the band therefore takes an equal share of the draws. |
| `CarAnalysisProperties.EveryScoreInBandIsDrawn` | src/lib/carAnalysis.ts:74-101 | Every integer of a band's range is produced by some r in [0, 1), so the ranges above are exact and not merely bounds. |
| `CarAnalysis.Damages` | src/lib/carAnalysis.ts:69-103 | The damage list is empty if and only if the condition is Excellent. It has 2 entries for Good and 3 for Fair and Poor. |
| `CarAnalysis.Recommendations` | src/lib/carAnalysis.ts:76-109 | The recommendation list is never empty. It has 3 entries for Excellent and Good and 4 for Fair and Poor. |
| `CarAnalysis.ReportedConfidence` | src/lib/carAnalysis.ts:117 | The confidence is the minimum of 0.95 and the average plus 0.1. It is at most both, and equal to one of them. |
| `CarAnalysisProperties.ConfidenceWithinUnitScores` | src/lib/carAnalysis.ts:65-117 | When every score is in [0, 1], the reported confidence is in [0.1, 0.95]. |
| `CarAnalysisProperties.SumScoresWithin` | src/lib/carAnalysis.ts:65 | The `reduce` sum of n scores, each in [lo, hi], lies in [n·lo, n·hi]. |
| `CarAnalysisProperties.AverageWithin` | src/lib/carAnalysis.ts:65 | The average of scores in [lo, hi] lies in [lo, hi]. |
| `CarAnalysisProperties.SumScoresIgnoresLabels` | src/lib/carAnalysis.ts:65 | The sum depends only on the scores, in order, and not on the labels. |
| `CarAnalysisProperties.InterpretIgnoresLabels` | src/lib/carAnalysis.ts:43-65 | Two prediction lists with the same scores give the same report, whatever their labels. The car-term check never changes the result, and non-car predictions count in the average. |
| `CarAnalysisProperties.InterpretDeterministic` | src/lib/carAnalysis.ts:73-117 | For the same predictions, two draws give the same condition, damages, recommendations and confidence. Only the score depends on the draw. |
| `CarAnalysisProperties.InterpretMonotone` | src/lib/carAnalysis.ts:73-117 | For the same draw, a higher average never gives a worse condition or a lower score. Every score lies in [25, 99], so 100 is never produced. |
| `CarAnalysisProperties.ExampleTieOnExcellentThreshold` | src/lib/carAnalysis.ts:65-89 | Scores 0.9 and 0.7 average exactly 0.8, and one of them is from a non-car label. This gives Good, score 77 for r = 0.5, and confidence 0.9. |
| `CarAnalysis.LowerCase` | src/lib/carAnalysis.ts:56 | Lower-casing keeps the length and maps each character through the ASCII lower-case map. |
| `CarAnalysisProperties.ExampleCarDetectedIgnoresCase` | src/lib/carAnalysis.ts:43-57 | A label "Jeep" counts as a detected car, because labels are lower-cased before the car terms are matched. |
| `CarAnalysis.RunAnalysis` | src/lib/carAnalysis.ts:121-138 | The `try` body throws "Please upload a valid image file" for a non-image type. It passes on the classifier's own error when the classifier fails. Otherwise it returns the interpretation of the classifier's predictions. |
| `CarAnalysis.AnalyzeCarCondition` | src/lib/carAnalysis.ts:121-142 | Success comes exactly when the type starts with `image/` and the classifier answers. The report is then the interpretation of that answer. Every failure carries the single message "Failed to analyze car condition. Please try again." |
| `CarAnalysisProperties.IsImageTypeCharacterised` | src/lib/carAnalysis.ts:126-127 | A MIME type is accepted if and only if it is "image/" followed by any string. |
| `CarAnalysisProperties.RejectedBeforeClassifying` | src/lib/carAnalysis.ts:126-131 | For a non-image type, the outcome is the generic failure whatever the classifier would have answered, so the classifier is not consulted. |
| `CarAnalysisProperties.ExampleRejectedFiles` | src/lib/carAnalysis.ts:126-142 | "text/plain", "IMAGE/PNG" (the prefix check is case-sensitive) and an empty type are rejected. The caller sees the generic message, not "Please upload a valid image file". |

## Left out

- Model loading (src/lib/carAnalysis.ts:1-21): the transformers.js `pipeline`, its `env` settings and the memoized module-level `classifier` are a foreign library and a lazily initialised global. Loading and inference together are the parameter `classify`, and a failure of either is `ClassifierFailed`.
- Object-URL handling (src/lib/carAnalysis.ts:23-37): `URL.createObjectURL` and `URL.revokeObjectURL` are browser I/O. The URL is released on both paths, but the model does not track it.
- `Math.random()` is the parameter `r` with 0 ≤ r < 1. The model does not represent the distribution itself; `DrawScorePreimage` states what a uniform draw implies.
- Floating point: scores, thresholds and arithmetic are exact reals. In IEEE double arithmetic, a draw within a few units in the last place of 1 (such as 1 - 2^-52) makes `85 + r * 15` round to exactly 100. The same happens with 85 for Good and 70 for Fair. So the upper end of those ranges can occur with negligible probability, which the exact model excludes (derived by hand from round-to-nearest; Poor does not round up, since `50 - 2^-47` is representable).
- AverageConfidence: an empty prediction list divides 0 by 0 in the source, which gives NaN. The model requires a non-empty list, and `AnalyzeCarCondition` requires the classifier's successful answer to be non-empty. The classifier returns its top-ranked labels, so the answer is never empty.
- LowerCase: only ASCII letters are mapped. JavaScript's `toLowerCase` covers all of Unicode. The car terms are ASCII, but a non-ASCII upper-case label could lower-case differently.
- Labels are always strings in the model. A malformed classifier record without a label would throw inside `toLowerCase` in the source, and that error would be collapsed into the generic message.
- `overallCondition` is a string in the source and the enumeration `Condition` here. `ConditionName` gives the exact strings.
- `damageIndicators` is declared at src/lib/carAnalysis.ts:49-52 and never used. It is kept as the constant `DamageIndicators` and has no effect.
- The `console.log` and `console.error` calls, including the only effect of the car-term check, are not modelled.
- The React components (src/components/*.tsx, src/pages/Index.tsx) are presentation, UI state, drag-and-drop and FileReader I/O. This includes the condition-to-icon and condition-to-colour lookup in src/components/AnalysisResults.tsx:12-40.
