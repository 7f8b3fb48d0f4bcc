# PAIMA scoring pipeline — a Dafny model

This project models the scoring core of the PAIMA personality test web app and
the steps around it:

- **Scoring engine.** Raw answers become sixteen "Z-like" scores:
  - implicit motives from hope − fear lantern ratings over six images;
  - explicit motives from Likert triples;
  - basic needs, wellbeing and two conflict items from the wellbeing questionnaire;
  - motive discrepancies |eM − iM|;
  - a conflict index, which is an IAT D-score adjusted by optional gaze telemetry.
- **Session store.** One record of the test in progress, changed by the store's actions.
- **Stand-alone IAT component.** Its five blocks, trial generator, correctness rule, trial cursor, category labels and result summary.
- **Display helpers.** These map the scores onto the screens:
  - the web report's 0..100 scale, key normalisation and warning bars;
  - the PDF report's 10..90 scale, profile fallback and bar arithmetic;
  - the result screen's archetype title chain and needs bars.

Modules, one per source file:

| module | file | models |
|---|---|---|
| `Common` | common.dfy | JavaScript `null`/`undefined`/number values, `??`, `x \|\| d` on numbers, `reduce` sums, decimal object keys |
| `Scoring` | scoring.dfy | `lib/scoring.ts` |
| `TestStore` | test_store.dfy | `store/testStore.ts`, as the class `Store` |
| `IatTest` | iat_test.dfy | `components/IATTest.tsx`, with the component state as the class `IatRun` |
| `ReportPage` | report_page.dfy | the helpers of `app/report/page.tsx` |
| `AnalysisReportPdf` | analysis_report_pdf.dfy | the arithmetic of `app/report/components/AnalysisReportPDF.tsx` |
| `ResultStage` | result_stage.dfy | the title chain and needs bars of `app/test/components/ResultStage.tsx` |

How the model represents the source:

- **Numbers.** Arithmetic is over `real`.
- **`Math.sqrt`** is a parameter of type `SquareRoot`. This is any function with non-negative values; the `|| 1` fallback makes the pooled SD positive whatever it returns.
- **`calculatePaimaScores`** is the method `CalculatePaimaScores`:
  - its image loop and its wellbeing loop are the methods `ImplicitTallies` and `WellbeingTally`;
  - it is proved to return `PaimaScoresOf`, the function every property is stated about.
- **Reading `m[k] || d`.** A missing key and the falsy value 0 both give the default.
- **Numeric indices** are the decimal string keys JavaScript uses.
- **`Math.round`** is `Floor(x + 1/2)`.
- **Score objects** read by the reports are dictionaries from names to a number, `null` or `undefined`. Keys holding other values, such as the `profileKey` string that app/report/page.tsx:147-150 stores beside the scores, are outside the model of `normalizeScores`; the PDF's profile key is modelled separately, as an optional string.

## Model

| member | source | states |
|---|---|---|
| Scoring.MapToZLandmarks | lib/scoring.ts:40-45 | min ↦ −2, midpoint ↦ 0, max ↦ +2; a value lies in [min, max] exactly when its image lies in [−2, 2] |
| Scoring.MapToZStrictlyIncreasing | lib/scoring.ts:40-45 | for min < max the remap is strictly increasing |
| Scoring.MapToZIsNotClamped | lib/scoring.ts:40-45 | out-of-range values pass through: 36 on −24..24 ↦ 3, 60 ↦ 5, 6 on 0..4 ↦ 4 |
| Scoring.SlicesArePhasesThreeAndFive | lib/scoring.ts:51-59 | the slices 24..64 and 74..114 are exactly phases 3 and 5 of the 12/12/40/10/40 layout, 40 trials each, and 114 is the total |
| Scoring.PooledSd | lib/scoring.ts:72 | the SD is always positive: it is the root whenever the root is non-zero, and exactly 1 when the root is 0 (so a zero-variance run gives D equal to the raw difference of means) |
| Scoring.CompatibleBlock | lib/scoring.ts:55 | the compatible block has 40 reaction times |
| Scoring.IncompatibleBlock | lib/scoring.ts:59 | the incompatible block has 40 reaction times |
| Scoring.IatPsci | lib/scoring.ts:49-81 | 0 for absent data or fewer than 114 trials; otherwise sign(D) = sign(mean incompatible − mean compatible), in all three cases |
| Scoring.IatPsciReadsOnlyTheTwoBlocks | lib/scoring.ts:55-59 | two lists that agree on indices 24..63 and 74..113 give the same D, whatever else they hold |
| Scoring.SlowerIncompatibleBlockGivesPositiveD | lib/scoring.ts:65-77 | an incompatible block slower trial by trial gives D > 0 |
| Scoring.ShadowAdjustment | lib/scoring.ts:178-187 | 0 without telemetry or with a total ≤ 0; within [−0.5, 0.5] when both gaze times are non-negative |
| Scoring.RatioInUnitInterval | lib/scoring.ts:180-182 | with non-negative parts and a positive total, the monster ratio lies in [0, 1] |
| Scoring.ShadowAdjustmentSign | lib/scoring.ts:178-187 | with a positive total the adjustment is positive, negative or zero exactly as monster time exceeds, trails or equals forest time |
| Scoring.PsciAdjustedByGaze | lib/scoring.ts:178-190 | without telemetry, or with a total ≤ 0, `Z_PSCI` is D; with non-negative parts it is within 0.5 of D; more monster gaze lowers it below D and more forest gaze raises it above, both ways |
| Scoring.MoreMonsterGazeRaisesAdjustment | lib/scoring.ts:180-185 | with forest time fixed and positive, more monster time strictly raises the adjustment |
| Scoring.PaimaScoresOf | lib/scoring.ts:142-146 | each `Z_MDI_*` is ≥ 0, and is 0 exactly when its explicit and implicit scores agree; without telemetry `Z_PSCI` is D |
| Scoring.ImplicitTallies | lib/scoring.ts:99-115 | after the image loop each of the six accumulators holds its sub-question's sum over the six images |
| Scoring.WellbeingTally | lib/scoring.ts:165-166 | after the loop `wSum` is the sum of `getWB(6..15)` |
| Scoring.GazeAdjustment | lib/scoring.ts:178-187 | the imperative gaze step computes `ShadowAdjustment` |
| Scoring.CalculatePaimaScores | lib/scoring.ts:83-199 | the method returns exactly `PaimaScoresOf(data)` |
| Scoring.AnswerSumOfUnanswered | lib/scoring.ts:107-150 | with every answer missing or 0, a sum of `(m[k] \|\| d) − offset` over n keys is n·(d − offset) |
| Scoring.UnansweredImplicitMotive | lib/scoring.ts:107-123 | with no truthy implicit answer, every implicit motive is 0 |
| Scoring.UnansweredExplicitMotive | lib/scoring.ts:129-140 | with no truthy explicit answer, every explicit motive is −2 |
| Scoring.UnansweredWellbeing | lib/scoring.ts:150-174 | with no truthy wellbeing answer, needs, wellbeing and conflict scores are all −2 |
| Scoring.UnansweredMotiveScores | lib/scoring.ts:107-146 | with empty implicit and explicit answers: `Z_iM_*` = 0, `Z_eM_*` = −2, `Z_MDI_*` = 2 |
| Scoring.UnansweredWellbeingScores | lib/scoring.ts:150-174 | with empty wellbeing answers, the six needs, wellbeing and conflict scores are −2 |
| Scoring.UnansweredInputScores | lib/scoring.ts:83-199 | an all-empty input with no usable IAT data and no telemetry yields the full record (0, 2, 2, 2, 0, 0, 0, −2 × 9) |
| Scoring.AnswerSumBounds | lib/scoring.ts:129-132 | n terms each within [lo, hi] sum to within [n·lo, n·hi] |
| Scoring.ImplicitMotiveWithin | lib/scoring.ts:117-123 | implicit ratings within 0..4 keep each implicit motive within [−2, 2] |
| Scoring.ExplicitMotiveWithin | lib/scoring.ts:129-140 | Likert answers within 1..5 keep each explicit motive within [−2, 2] |
| Scoring.WellbeingScoresWithin | lib/scoring.ts:150-174 | wellbeing answers within 1..5 keep the needs, wellbeing and conflict scores within [−2, 2] |
| Scoring.NominalRange | lib/scoring.ts:83-199 | on the nominal scales all twelve remapped scores lie within [−2, 2] and every `Z_MDI_*` ≤ 4 |
| Scoring.AnswerSumCongruent | lib/scoring.ts:107-114 | two dictionaries with the same truthy entries give the same answer sums |
| Scoring.MotivesDependOnTruthyEntries | lib/scoring.ts:107-140 | motive scores depend only on the truthy implicit and explicit entries |
| Scoring.WellbeingDependsOnTruthyEntries | lib/scoring.ts:150-174 | needs, wellbeing and conflict scores depend only on the truthy wellbeing entries |
| Scoring.ScoresDependOnTruthyEntries | lib/scoring.ts:83-199 | inputs with the same truthy entries, IAT data and telemetry give identical scores |
| Scoring.ZeroEntryIsAbsent | lib/scoring.ts:150 | setting an answer to 0 leaves the same truthy entries as deleting it |
| Scoring.ZeroAnswerCountsAsMissing | lib/scoring.ts:107-150 | an answer of 0 in any of the three dictionaries is scored exactly like a missing answer |
| Scoring.AsRecord | lib/scoring.ts:12-34 | the score object has exactly the sixteen score names as keys, each a number |
| Scoring.AsRecordHoldsDiscrepancies | lib/scoring.ts:12-34 | `Z_MDI_Ach`, `Z_MDI_Pow` and `Z_MDI_Aff` hold the discrepancy of the same name |
| Scoring.AsRecordHoldsImplicitMotives | lib/scoring.ts:12-34 | `Z_iM_Ach`, `Z_iM_Pow` and `Z_iM_Aff` hold the implicit motive of the same name |
| Scoring.AsRecordHoldsExplicitMotives | lib/scoring.ts:12-34 | `Z_eM_Ach`, `Z_eM_Pow` and `Z_eM_Aff` hold the explicit motive of the same name |
| Scoring.AsRecordHoldsPsciNeedsAndWellbeing | lib/scoring.ts:12-34 | `Z_PSCI`, the three needs, `Z_W_Wellbeing`, `Z_C_Depletion` and `Z_C_External` each hold the score of the same name |
| TestStore.InitialSession | store/testStore.ts:33-43 | step INTRO, null IAT and test results, empty answer maps and goal, gaze {0, 0}, progress 0, visual stage 1 |
| TestStore.AddGaze | store/testStore.ts:57-62 | `ms` is added to exactly the chosen accumulator; the other is unchanged |
| TestStore.GazeStaysNonNegative | store/testStore.ts:57-62 | with non-negative durations neither accumulator ever decreases, so both stay non-negative |
| TestStore.GazeTotalIsSumOfDurations | store/testStore.ts:57-62 | after any sequence of updates, the two accumulators together have grown by the sum of the durations |
| TestStore.Bumped | store/testStore.ts:63-65 | `min(100, p + 5)`: never above 100; p + 5 up to 95, 100 from 95 on |
| TestStore.BumpedNeverDecreases | store/testStore.ts:63-65 | from any value ≤ 100 progress never decreases, and stays at 100 once there |
| TestStore.BumpedTimesIsCapped | store/testStore.ts:63-65 | n increments from p ≤ 100 give `min(100, p + 5n)` |
| TestStore.TwentyStepsReachTheEnd | store/testStore.ts:63-65 | 20 increments take 0 to 100; 19 leave it at 95 |
| TestStore.Store.constructor | store/testStore.ts:32-43 | a new store holds the initial session |
| TestStore.Store.SetStep | store/testStore.ts:45 | only the step changes |
| TestStore.Store.SetIatResults | store/testStore.ts:46 | only the IAT results change |
| TestStore.Store.SetImplicitAnswer | store/testStore.ts:47-49 | the map gains or overwrites `id ↦ value`; every other key and every other field is unchanged |
| TestStore.Store.SetExplicitGoal | store/testStore.ts:50 | only the goal changes |
| TestStore.Store.SetExplicitAnswer | store/testStore.ts:51-53 | the map gains or overwrites `id ↦ value`; every other key and every other field is unchanged |
| TestStore.Store.SetWellbeingAnswer | store/testStore.ts:54-56 | the map gains or overwrites `id ↦ value`; every other key and every other field is unchanged |
| TestStore.Store.UpdateStareData | store/testStore.ts:57-62 | the gaze record becomes `AddGaze` of the old one; nothing else changes |
| TestStore.Store.IncrementWalkingProgress | store/testStore.ts:63-65 | progress becomes `Bumped` of the old progress; nothing else changes |
| TestStore.Store.SetVisualStage | store/testStore.ts:66 | only the visual stage changes |
| TestStore.Store.SetTestResult | store/testStore.ts:67 | only the test result changes |
| TestStore.Store.ResetTest | store/testStore.ts:68-79 | from any state every field is back to its initial value, so a second reset changes nothing |
| IatTest.Words | components/IATTest.tsx:10-15 | each category has six stimulus words |
| IatTest.StageLayout | components/IATTest.tsx:24-65 | five blocks with ids 1..5 in order; blocks 3 and 5 have 40 trials and pair SELF with SOCIAL, respectively with INDIVIDUAL |
| IatTest.SidesAreDisjoint | components/IATTest.tsx:24-65 | no block lists a category on both sides |
| IatTest.GenerateTrials | components/IATTest.tsx:69-86 | exactly `trials` stimuli, each with a category from the block's two sides and a word of that category |
| IatTest.IsCorrect | components/IATTest.tsx:138-142 | a response is correct exactly when the chosen side lists the stimulus's category |
| IatTest.ExactlyOneSideCorrect | components/IATTest.tsx:138-142 | for every generated stimulus exactly one of LEFT and RIGHT is correct |
| IatTest.Advanced | components/IATTest.tsx:190-198 | next trial while `index + 1 < trials.length`, otherwise the next block |
| IatTest.BlockTakesItsTrials | components/IATTest.tsx:190-198 | a block of n ≥ 1 trials entered at trial 0 walks through trials 0..n−1, and the n-th advance moves to the next block |
| IatTest.IatRun.constructor | components/IATTest.tsx:96-112 | block 0, no trials, trial 0, an empty log, not completed |
| IatTest.IatRun.AdvanceTrial | components/IATTest.tsx:190-198 | the cursor moves as `Advanced` says; trials, log and completion are unchanged |
| IatTest.IatRun.EnterStage | components/IATTest.tsx:115-124 | for a block index inside the table: fresh stimuli fitting that block, at trial 0. Past the last block: completed, with the summary of the log |
| IatTest.UnknownCategoryPassesThrough | components/IATTest.tsx:345-363 | a string naming no category is returned unchanged by both label tables |
| IatTest.LabelsAreDistinct | components/IATTest.tsx:345-363 | the four categories get four different Korean and four different English labels |
| IatTest.BlockRtsKeepsCorrectResponses | components/IATTest.tsx:375-376 | appending a correct response of the block appends its reaction time to the filtered list; appending an error or a record of another block appends nothing |
| IatTest.GuardedMean | components/IATTest.tsx:379-381 | an empty list has mean 0 (divisor `length \|\| 1`) |
| IatTest.ProcessResults | components/IATTest.tsx:366-392 | `raw` is the log unchanged; the two averages are the guarded means of blocks 3 and 5; bias is "Social" iff avg3 < avg5 (ties give "Individual"); diff is avg5 − avg3, so diff > 0 iff the bias is "Social" |
| IatTest.BlockRtsComeFromTheBlock | components/IATTest.tsx:375-376 | every kept time is the time of a correct response of that block |
| IatTest.IgnoredRecordsLeaveBlockAlone | components/IATTest.tsx:375-376 | appending error records or records of other blocks leaves the filtered list unchanged |
| IatTest.IgnoredRecordsLeaveSummaryAlone | components/IATTest.tsx:375-390 | such records change neither average, nor the bias, nor the difference |
| IatTest.GuardedMeanAtLeast | components/IATTest.tsx:379-381 | a non-empty list with every value ≥ lo has mean ≥ lo |
| IatTest.GuardedMeanAtMost | components/IATTest.tsx:379-381 | a list with every value ≤ hi has mean ≤ hi, or is empty with mean 0 |
| IatTest.FasterSocialBlockMeansSocialBias | components/IATTest.tsx:379-389 | if both blocks were answered and every block-3 time is below every block-5 time, the bias is "Social" |
| ReportPage.Round | app/report/page.tsx:24 | `Math.round(x)` is the integer in (x − 0.5, x + 0.5] |
| ReportPage.MapZ | app/report/page.tsx:19-25 | the result is an integer in [0, 100]; `null` and `undefined` give 50 |
| ReportPage.MapZIsTheScaledScore | app/report/page.tsx:23-24 | inside [−2, 2] no clamping happens: the result is 25(z + 2) rounded |
| ReportPage.MapZLandmarks | app/report/page.tsx:21-24 | −2 ↦ 0, 0 ↦ 50, 2 ↦ 100; anything ≤ −2 gives 0, anything ≥ 2 gives 100 |
| ReportPage.MapZIsMonotone | app/report/page.tsx:23-24 | a higher score never maps lower |
| ReportPage.NormalizeScores | app/report/page.tsx:28-50 | null stays null. Each of the sixteen names takes its own value, or the `z_` spelling's value when its own is null or undefined. Every other key is copied unchanged, and the key set is the input's plus the sixteen names |
| ReportPage.LowerNameIsNotAScoreName | app/report/page.tsx:33-48 | no lower-case spelling is itself a score name |
| ReportPage.NormalizeIsIdempotent | app/report/page.tsx:28-50 | normalising twice equals normalising once |
| ReportPage.NormalizeKeepsEngineScores | app/report/page.tsx:28-50 | the engine's own score object comes back unchanged |
| ReportPage.NormalizeLiftsLowerCaseKeys | app/report/page.tsx:33-48 | a name whose own value is missing or null takes the lower-case key's value |
| ReportPage.WarningLevel | app/report/page.tsx:277-279 | `(x \|\| 0) > 1` holds exactly when x is a number above 1 |
| ReportPage.BarData | app/report/page.tsx:276-279 | three bars in the order power, achievement, affiliation; each is valued mapZ of its `Z_MDI_*` field and flagged with that field's warning level, so each lies within 0..100 and a warning bar is valued at least 75 |
| ReportPage.MdiBar | app/report/page.tsx:277-279 | a bar carries its name, mapZ of the discrepancy and the warning level of the discrepancy; a warning bar is valued at least 75 |
| ReportPage.WarningBarIsHigh | app/report/page.tsx:277-279 | a discrepancy above 1 is shown at 75 or more |
| ReportPage.WarningsFollowDiscrepancies | app/report/page.tsx:277-279 | for engine scores each bar warns iff its `Z_MDI_*` exceeds 1; without scores no bar warns and every bar is 50 |
| ReportPage.MissingDiscrepancyDoesNotWarn | app/report/page.tsx:277-279 | in any stored object, a discrepancy that is missing, null or undefined draws a bar of 50 without a warning |
| AnalysisReportPdf.MapZ | app/report/components/AnalysisReportPDF.tsx:116 | always within [10, 90]; 20z + 50 on [−2, 2]; 10 for z ≤ −2, 90 for z ≥ 2 |
| AnalysisReportPdf.MapZMiddleAndOrder | app/report/components/AnalysisReportPDF.tsx:116 | 0 ↦ 50, and the map is non-decreasing |
| AnalysisReportPdf.ProfileKey | app/report/components/AnalysisReportPDF.tsx:112 | a present, non-empty key is kept; a missing or empty key becomes WANDERING_EXPLORER |
| AnalysisReportPdf.ProfileData | app/report/components/AnalysisReportPDF.tsx:112-113 | the key's profile when the table has it; otherwise the WANDERING_EXPLORER profile, which is always found when the table holds it |
| AnalysisReportPdf.NeedsValues | app/report/components/AnalysisReportPDF.tsx:148-153 | four values within [10, 90]: mapZ of `Z_N_Auto`, `Z_N_Comp` and `Z_N_Rela` in that order, then willpower as 100 − mapZ(depletion) |
| AnalysisReportPdf.WillpowerFallsWithDepletion | app/report/components/AnalysisReportPDF.tsx:152 | more depletion never shows as more willpower |
| AnalysisReportPdf.MdiBars | app/report/components/AnalysisReportPDF.tsx:156-189 | the discrepancy chart has four stacked bars: achievement (15·abs(MDI), 0.6·mapZ(iM), 0.4·mapZ(eM)), power (15·abs(MDI), 0.5·mapZ(iM), 0.5·mapZ(eM)), affiliation (15·abs(MDI), 0.6·mapZ(iM)) and the wellbeing bar (0.7·mapZ(W_Wellbeing), 0.5·mapZ(PSCI), 0.4·(100 − mapZ(C_Depletion)), 20) |
| AnalysisReportPdf.MdiPartsAreSized | app/report/components/AnalysisReportPDF.tsx:156-189 | every part height is ≥ 0 and every bar has a part of height ≥ 4 |
| AnalysisReportPdf.PartPercents | app/report/components/AnalysisReportPDF.tsx:409 | one percentage per part |
| AnalysisReportPdf.DrawnHeight | app/report/components/AnalysisReportPDF.tsx:403 | the drawn height is the total capped at 95: the total when that is at most 95, and 95 when the total is at least 95 |
| AnalysisReportPdf.PercentsSumTo100 | app/report/components/AnalysisReportPDF.tsx:402-409 | non-negative parts with one part ≥ 4 have a total ≥ 4, and their percentages sum to exactly 100 |
| AnalysisReportPdf.MdiBarsAreDrawable | app/report/components/AnalysisReportPDF.tsx:402-409 | every bar of the chart has a positive total, percentages summing to 100 and a drawn height ≤ 95 |
| AnalysisReportPdf.WellbeingBarAsWrittenIgnoresWellbeing | app/report/components/AnalysisReportPDF.tsx:741 | for every engine result the bar as written is 50, the same for wellbeing −2 and +2 |
| AnalysisReportPdf.WellbeingBar | app/report/components/AnalysisReportPDF.tsx:741 | the corrected bar stays within [10, 90] |
| AnalysisReportPdf.WellbeingBarShowsWellbeing | app/report/components/AnalysisReportPDF.tsx:741 | the corrected bar is mapZ of `Z_W_Wellbeing`, and strictly higher wellbeing within [−2, 2] shows strictly higher |
| AnalysisReportPdf.ComparisonChart | app/report/components/AnalysisReportPDF.tsx:735-741 | three bars, each standing on the bottom edge (y + height = 100) with height within [10, 90]: mapZ of `Z_iM_Pow`, mapZ of `Z_eM_Pow`, and the wellbeing bar as written (mapZ of `Z_Wellbeing`) |
| AnalysisReportPdf.ComparisonChartOfScores | app/report/components/AnalysisReportPDF.tsx:735-741 | for every engine result the shadow and persona bars are mapZ of the power scores, while the wellbeing bar is the flat middle bar (y 50, height 50) |
| ResultStage.Contains | app/test/components/ResultStage.tsx:77-83 | `s.includes(sub)` holds exactly when `sub` occurs in `s` at some position |
| ResultStage.MissingCharacterExcludes | app/test/components/ResultStage.tsx:77-83 | a string cannot contain a pattern having a character the string lacks |
| ResultStage.LongerPatternExcluded | app/test/components/ResultStage.tsx:77-83 | a string cannot contain a longer pattern |
| ResultStage.TitleIsFirstMatch | app/test/components/ResultStage.tsx:77-83 | the ternary chain equals the first-match rule over the seven keys in table order |
| ResultStage.FirstMatchPicks | app/test/components/ResultStage.tsx:77-83 | the rule picks key k when the profile contains it and none of the keys before it |
| ResultStage.FirstMatchDefault | app/test/components/ResultStage.tsx:77-83 | the rule gives the default exactly when no remaining key is contained |
| ResultStage.TitleIsTheFirstContainedKey | app/test/components/ResultStage.tsx:77-83 | the first contained key decides the title |
| ResultStage.DefaultTitleIffNoKey | app/test/components/ResultStage.tsx:77-83 | the default title comes out exactly when the profile contains none of the seven keys |
| ResultStage.EarlierKeysAreNotInside | app/test/components/ResultStage.tsx:77-83 | no key contains an earlier key of the chain |
| ResultStage.EarlierKeysLackACharacter | app/test/components/ResultStage.tsx:77-83 | for the four later keys, each earlier key has a character the later one lacks |
| ResultStage.TitlesAreDistinct | app/test/components/ResultStage.tsx:77-83 | the seven titles and the default are eight different strings |
| ResultStage.ExactKeyGetsItsTitle | app/test/components/ResultStage.tsx:77-83 | each of the seven exact keys gets its own title |
| ResultStage.BarPercent | app/test/components/ResultStage.tsx:102-108 | always within [0, 100]; 25(v + 2) on [−2, 2]; 0 at or below −2, 100 at or above 2 |
| ResultStage.BarPercentIsMonotone | app/test/components/ResultStage.tsx:102-108 | a higher score never shows as a lower bar |
| ResultStage.NeedsBars | app/test/components/ResultStage.tsx:95-108 | four bars in the order Autonomy, Competence, Relatedness, Wellbeing, read from `Z_N_Auto`, `Z_N_Comp`, `Z_N_Rela` and `Z_W_Wellbeing` |
| ResultStage.NominalNeedsBarsAreUnclamped | app/test/components/ResultStage.tsx:95-108 | when the wellbeing answers lie on the 1..5 scale, each of the four bars (autonomy, competence, relatedness, wellbeing) is drawn unclamped at 25·(score + 2) |

## Left out

- `lib/profiling.ts` (the profile classifier) is not part of this model. Neither are `ScoringEngine`, `getInterpretation`, `getRecommendedSolutions` or the contents of `RESULT_PROFILES`. `ProfileData` takes the profile table as a parameter.
- Floating point is not modelled: all arithmetic is exact over the reals. There is no IEEE rounding and no NaN (for instance `Math.sqrt(NaN) || 1`).
- `Math.sqrt` is only assumed never to be negative. No property here needs more.
- Randomness is modelled as arbitrary choice. `GenerateTrials` states length and membership, not the distribution.
- The IAT component's UI, timers and event wiring are not modelled:
  - the instruction and trial screens;
  - the 500 ms error pause;
  - the keyboard listener;
  - the timer reset inside `advanceTrial`;
  - `performance.now()` reaction times;
  - the log entry `handleInput` appends.

  The reason: the dependency list of `handleInput` (components/IATTest.tsx:187) names `advanceTrial`, which is only declared at line 190, so the live handler is not reliable. Only its correctness rule `IsCorrect` is modelled.
- `translateCat`, which joins the two labels, is not modelled. It is display text built from the two modelled tables.
- Values the two reports compute by applying the modelled `MapZ` maps are not modelled as separate members: the PDF's `lineChartData`, the web report's radar data and its positive-energy value. The page layout and the PDF rendering are not modelled either.
- I/O is not modelled: fetch calls, PDF blob generation, `localStorage`, the router and fonts.
- The orchestration glue in `app/test/page.tsx` is not modelled, and neither are the stage components that feed the store. The gaze branch of the engine is modelled as the engine defines it, although that glue never passes gaze data.
- Input scales are not assumed anywhere. The UI records implicit lanterns on 1..7, explicit Likert answers on 1..7 and wellbeing on 1..4. The remap's ranges (−24..24, 0..4) correspond to implicit ratings within 0..4 and answers within 1..5. The range lemmas (`NominalRange` and the `*Within` lemmas) are therefore stated under those conditions, and `MapToZIsNotClamped` shows what happens outside them.
- The `blockComp.length === 0` guard in `calculateIAT_PSCI` is kept in the model. With at least 114 trials both slices have 40 entries, so the guard never fires.

## Findings

| source | as written | input that shows it | evidently intended | confidence | as-written member | corrected member |
|---|---|---|---|---|---|---|
| app/report/components/AnalysisReportPDF.tsx:741 | the page-3 WELLBEING bar reads `paima.Z_Wellbeing ?? 0`, a key the scoring engine never produces, so the bar is always mapZ(0) = 50 | any scored result, e.g. one with `Z_W_Wellbeing` = −2 and one with +2: both draw height 50 | read `Z_W_Wellbeing`, as the other wellbeing readings of the same report do (lines 142, 183, 340) | high; not executed | AnalysisReportPdf.WellbeingBarAsWrittenIgnoresWellbeing | AnalysisReportPdf.WellbeingBarShowsWellbeing |
