/** The PAIMA scoring engine: raw answers, IAT reaction times and optional gaze
    telemetry are turned into sixteen "Z-like" scores. Every score except the
    conflict index is a fixed affine remap of a raw sum or average, not a
    sample standardisation. */
module Scoring {
  import opened Common

  /** Milliseconds spent looking at the monster and at the forest. */
  datatype StareData = StareData(monsterGaze: real, forestGaze: real)

  /** The raw answers handed to the engine. Absent IAT data and absent gaze
      telemetry are `None` (the source's optional fields). */
  datatype RawData = RawData(
    implicitAnswers: map<string, real>,
    explicitAnswers: map<string, real>,
    wellbeingAnswers: map<string, real>,
    iatAnswers: Option<seq<real>>,
    stareData: Option<StareData>)

  /** The sixteen scores, named as the source names them. */
  datatype PaimaScores = PaimaScores(
    Z_PSCI: real,
    Z_MDI_Ach: real, Z_MDI_Pow: real, Z_MDI_Aff: real,
    Z_iM_Ach: real, Z_iM_Pow: real, Z_iM_Aff: real,
    Z_eM_Ach: real, Z_eM_Pow: real, Z_eM_Aff: real,
    Z_N_Auto: real, Z_N_Comp: real, Z_N_Rela: real,
    Z_W_Wellbeing: real, Z_C_Depletion: real, Z_C_External: real)

  /** `Math.sqrt`: nothing is assumed of it except that it is never negative. */
  type SquareRoot = f: real -> real | forall x :: 0.0 <= f(x) witness (x: real) => 0.0

  // ---------------------------------------------------------------------
  // The affine remap

  /** Maps the theoretical range [min, max] onto [-2, 2]; values outside the
      range are not clamped. */
  function MapToZ(val: real, min: real, max: real): real
    requires min < max
  {
    var norm := (val - min) / (max - min);
    (norm - 0.5) * 4.0
  }

  /** The ends and the midpoint of the range go to -2, 2 and 0, and a value
      lands in [-2, 2] exactly when it lies in [min, max]. */
  lemma MapToZLandmarks(val: real, min: real, max: real)
    requires min < max
    ensures var z := MapToZ(val, min, max);
      && (val == min ==> z == -2.0)
      && (val == (min + max) / 2.0 ==> z == 0.0)
      && (val == max ==> z == 2.0)
      && (min <= val <= max <==> -2.0 <= z <= 2.0)
  {
    var w := max - min;
    DivisionKeepsSign(val - min, w);
    DivisionKeepsSign(max - val, w);
    DivisionSplits(val - min, max - val, w);
    assert w / w == 1.0;
    if val == (min + max) / 2.0 {
      assert (val - min) * 2.0 == w;
      assert (val - min) / w * 2.0 == w / w;
    }
  }

  lemma MapToZStrictlyIncreasing(a: real, b: real, min: real, max: real)
    requires min < max
    requires a < b
    ensures MapToZ(a, min, max) < MapToZ(b, min, max)
  {
    var w := max - min;
    assert (a - min) / w < (b - min) / w by {
      assert (b - min) / w - (a - min) / w == (b - a) / w;
    }
  }

  /** Out-of-range raw values pass straight through the remap. */
  lemma MapToZIsNotClamped()
    ensures MapToZ(36.0, -24.0, 24.0) == 3.0
    ensures MapToZ(60.0, -24.0, 24.0) == 5.0
    ensures MapToZ(6.0, 0.0, 4.0) == 4.0
  {
  }

  // ---------------------------------------------------------------------
  // The IAT D-score

  /** Trial counts of the five IAT phases, in order, as the IAT stage runs them. */
  const PhaseTrials: seq<nat> := [12, 12, 40, 10, 40]

  /** Fewer reaction times than this give the neutral score 0. */
  const MinTrials: nat := 114

  const CompatibleStart: nat := 24
  const CompatibleEnd: nat := 64
  const IncompatibleStart: nat := 74
  const IncompatibleEnd: nat := 114

  /** Index of the first trial of the phase numbered `p + 1`. */
  function PhaseStart(p: nat): nat
    requires p <= |PhaseTrials|
  {
    if p == 0 then 0 else PhaseStart(p - 1) + PhaseTrials[p - 1]
  }

  /** The two slices are exactly phase 3 and phase 5 of the 12/12/40/10/40
      layout, each 40 trials long, and the minimum length is the total. */
  lemma SlicesArePhasesThreeAndFive()
    ensures PhaseStart(2) == CompatibleStart && PhaseStart(3) == CompatibleEnd
    ensures PhaseStart(4) == IncompatibleStart && PhaseStart(5) == IncompatibleEnd
    ensures CompatibleEnd - CompatibleStart == 40 == IncompatibleEnd - IncompatibleStart
    ensures PhaseStart(|PhaseTrials|) == MinTrials
  {
  }

  function Mean(s: seq<real>): real
    requires |s| > 0
  {
    Sum(s) / (|s| as real)
  }

  /** `s.reduce((a, b) => a + Math.pow(b - m, 2), 0)`. */
  function SquaredDeviationSum(s: seq<real>, m: real): real
  {
    if |s| == 0 then 0.0
    else SquaredDeviationSum(s[..|s| - 1], m) + (s[|s| - 1] - m) * (s[|s| - 1] - m)
  }

  /** Population variance: divided by n, not n - 1. */
  function Variance(s: seq<real>): real
    requires |s| > 0
  {
    SquaredDeviationSum(s, Mean(s)) / (|s| as real)
  }

  /** `Math.sqrt(variance) || 1`: a zero root falls back to 1. */
  function PooledSd(variance: real, sqrt: SquareRoot): (sd: real)
    ensures sd > 0.0
    ensures sqrt(variance) != 0.0 ==> sd == sqrt(variance)
    ensures sqrt(variance) == 0.0 ==> sd == 1.0
  {
    var root := sqrt(variance);
    if root != 0.0 then root else 1.0
  }

  function CompatibleBlock(times: seq<real>): (b: seq<real>)
    requires |times| >= MinTrials
    ensures |b| == 40
  {
    times[CompatibleStart..CompatibleEnd]
  }

  function IncompatibleBlock(times: seq<real>): (b: seq<real>)
    requires |times| >= MinTrials
    ensures |b| == 40
  {
    times[IncompatibleStart..IncompatibleEnd]
  }

  /** The D-score: (mean of the incompatible block - mean of the compatible
      block) divided by the pooled standard deviation of both blocks. Its
      sign is the sign of the difference of the means. */
  function IatPsci(times: Option<seq<real>>, sqrt: SquareRoot): (d: real)
    ensures times.None? || |times.value| < MinTrials ==> d == 0.0
    ensures times.Some? && |times.value| >= MinTrials ==>
      var comp := Mean(CompatibleBlock(times.value));
      var incomp := Mean(IncompatibleBlock(times.value));
      && (d > 0.0 <==> incomp > comp)
      && (d < 0.0 <==> incomp < comp)
      && (d == 0.0 <==> incomp == comp)
  {
    if times.None? || |times.value| < MinTrials then 0.0
    else
      var blockComp := times.value[CompatibleStart..CompatibleEnd];
      var blockIncomp := times.value[IncompatibleStart..IncompatibleEnd];
      if |blockComp| == 0 || |blockIncomp| == 0 then 0.0
      else
        var meanComp := Mean(blockComp);
        var meanIncomp := Mean(blockIncomp);
        var all := blockComp + blockIncomp;
        var sd := PooledSd(Variance(all), sqrt);
        DivisionKeepsSign(meanIncomp - meanComp, sd);
        (meanIncomp - meanComp) / sd
  }

  lemma DivisionSplits(a: real, b: real, w: real)
    requires w > 0.0
    ensures (a + b) / w == a / w + b / w
  {
    assert (a / w + b / w) * w == a + b;
  }

  lemma DivisionKeepsSign(x: real, y: real)
    requires y > 0.0
    ensures x / y > 0.0 <==> x > 0.0
    ensures x / y < 0.0 <==> x < 0.0
    ensures x / y == 0.0 <==> x == 0.0
  {
    assert (x / y) * y == x;
  }

  /** Only trials 24..63 and 74..113 influence the D-score; whatever else the
      list holds (practice phases, the gap, trials after 113) is ignored. */
  lemma IatPsciReadsOnlyTheTwoBlocks(t1: seq<real>, t2: seq<real>, sqrt: SquareRoot)
    requires |t1| >= MinTrials && |t2| >= MinTrials
    requires forall i :: CompatibleStart <= i < CompatibleEnd ==> t1[i] == t2[i]
    requires forall i :: IncompatibleStart <= i < IncompatibleEnd ==> t1[i] == t2[i]
    ensures IatPsci(Some(t1), sqrt) == IatPsci(Some(t2), sqrt)
  {
    assert t1[CompatibleStart..CompatibleEnd] == t2[CompatibleStart..CompatibleEnd];
    assert t1[IncompatibleStart..IncompatibleEnd] == t2[IncompatibleStart..IncompatibleEnd];
  }

  /** A uniformly slower incompatible block gives a positive D-score. */
  lemma {:induction false} SlowerIncompatibleBlockGivesPositiveD(times: seq<real>, sqrt: SquareRoot)
    requires |times| >= MinTrials
    requires forall k :: 0 <= k < 40 ==> CompatibleBlock(times)[k] < IncompatibleBlock(times)[k]
    ensures IatPsci(Some(times), sqrt) > 0.0
  {
    var comp := CompatibleBlock(times);
    var incomp := IncompatibleBlock(times);
    SumStrictlyLess(comp, incomp);
    assert Mean(comp) < Mean(incomp);
  }

  // ---------------------------------------------------------------------
  // Gaze adjustment

  /** `monsterRatio - 0.5` when telemetry is present with a positive total,
      otherwise 0. */
  function ShadowAdjustment(stare: Option<StareData>): (adj: real)
    ensures stare.None? ==> adj == 0.0
    ensures stare.Some? && stare.value.monsterGaze + stare.value.forestGaze <= 0.0 ==> adj == 0.0
    ensures stare.Some? && 0.0 <= stare.value.monsterGaze && 0.0 <= stare.value.forestGaze ==>
      -0.5 <= adj <= 0.5
  {
    if stare.None? then 0.0
    else
      var totalGaze := stare.value.monsterGaze + stare.value.forestGaze;
      if totalGaze > 0.0 then
        var monsterRatio := stare.value.monsterGaze / totalGaze;
        RatioInUnitInterval(stare.value.monsterGaze, stare.value.forestGaze);
        monsterRatio - 0.5
      else 0.0
  }

  lemma RatioInUnitInterval(m: real, f: real)
    requires m + f > 0.0
    ensures 0.0 <= m && 0.0 <= f ==> 0.0 <= m / (m + f) <= 1.0
  {
    if 0.0 <= m && 0.0 <= f {
      assert m / (m + f) * (m + f) == m;
    }
  }

  /** With a positive total, the adjustment has the sign of monster time minus
      forest time: looking at the monster more lowers the conflict score, at
      the forest more raises it, an even split leaves it. */
  lemma ShadowAdjustmentSign(m: real, f: real)
    requires m + f > 0.0
    ensures var adj := ShadowAdjustment(Some(StareData(m, f)));
      && (adj > 0.0 <==> m > f)
      && (adj < 0.0 <==> m < f)
      && (adj == 0.0 <==> m == f)
  {
    var t := m + f;
    var r := m / t;
    assert r * t == m;
    var x, y := r - 0.5, 2.0 * t;
    assert ShadowAdjustment(Some(StareData(m, f))) == x;
    assert x * y == m - f;
    ProductKeepsSign(x, y);
  }

  lemma ProductKeepsSign(x: real, y: real)
    requires y > 0.0
    ensures x * y > 0.0 <==> x > 0.0
    ensures x * y < 0.0 <==> x < 0.0
  {
    if x > 0.0 {
      assert x * y > 0.0;
    } else if x < 0.0 {
      assert (-x) * y > 0.0;
    }
  }

  /** How the gaze telemetry moves the conflict score away from the D-score. */
  lemma PsciAdjustedByGaze(data: RawData, sqrt: SquareRoot)
    ensures var psci, d := PaimaScoresOf(data, sqrt).Z_PSCI, IatPsci(data.iatAnswers, sqrt);
      && (data.stareData.None? ==> psci == d)
      && (data.stareData.Some? ==>
            var m, f := data.stareData.value.monsterGaze, data.stareData.value.forestGaze;
            && (m + f <= 0.0 ==> psci == d)
            && (0.0 <= m && 0.0 <= f ==> d - 0.5 <= psci <= d + 0.5)
            && (m + f > 0.0 ==> (psci < d <==> m > f) && (psci > d <==> m < f)))
  {
    if data.stareData.Some? {
      var m, f := data.stareData.value.monsterGaze, data.stareData.value.forestGaze;
      if m + f > 0.0 {
        ShadowAdjustmentSign(m, f);
      }
    }
  }

  /** More time on the monster, with the forest time fixed and positive,
      raises the adjustment and so lowers the conflict score. */
  lemma MoreMonsterGazeRaisesAdjustment(m1: real, m2: real, f: real)
    requires 0.0 <= m1 < m2
    requires f > 0.0
    ensures ShadowAdjustment(Some(StareData(m1, f))) < ShadowAdjustment(Some(StareData(m2, f)))
  {
    var a, b := m1 + f, m2 + f;
    RatioComplement(m1, f);
    RatioComplement(m2, f);
    DivisionAntitone(f, a, b);
  }

  /** The monster share is one minus the forest share. */
  lemma RatioComplement(m: real, f: real)
    requires m + f > 0.0
    ensures m / (m + f) == 1.0 - f / (m + f)
  {
    DivisionSplits(m, f, m + f);
    assert (m + f) / (m + f) == 1.0;
  }

  /** A positive amount divided by a larger positive total is smaller. */
  lemma DivisionAntitone(f: real, a: real, b: real)
    requires f > 0.0 && 0.0 < a < b
    ensures f / b < f / a
  {
    var p, q := f / a, f / b;
    assert p * a == f && q * b == f;
    DivisionKeepsSign(f, a);
    ProductKeepsSign(p, b - a);
    if q >= p {
      ProductKeepsSign(p - q, b);
      assert false;
    }
  }

  // ---------------------------------------------------------------------
  // Answer sums

  /** The key of sub-question `q` of image `img`, as in `img3_q5`. */
  function ImplicitKey(img: nat, q: nat): string
  {
    "img" + Decimal(img) + "_q" + Decimal(q)
  }

  /** The keys of sub-question `q` over the six images. */
  function ImplicitKeys(q: nat): (keys: seq<string>)
    ensures |keys| == 6
    ensures forall i :: 0 <= i < 6 ==> keys[i] == ImplicitKey(i + 1, q)
  {
    seq(6, i requires 0 <= i < 6 => ImplicitKey(i + 1, q))
  }

  /** The string keys of the numeric indices `idxs`. */
  function IndexKeys(idxs: seq<nat>): (keys: seq<string>)
    ensures |keys| == |idxs|
    ensures forall i :: 0 <= i < |idxs| ==> keys[i] == Decimal(idxs[i])
  {
    seq(|idxs|, i requires 0 <= i < |idxs| => Decimal(idxs[i]))
  }

  /** The string keys of the indices lo, ..., hi - 1. */
  function RangeKeys(lo: nat, hi: nat): (keys: seq<string>)
    requires lo <= hi
    ensures |keys| == hi - lo
    ensures forall i :: 0 <= i < hi - lo ==> keys[i] == Decimal(lo + i)
  {
    seq(hi - lo, i requires 0 <= i < hi - lo => Decimal(lo + i))
  }

  /** One answer as the engine reads it: `(m[k] || d) - offset`. */
  function AnswerTerm(m: map<string, real>, k: string, d: real, offset: real): real
  {
    Truthy(m, k, d) - offset
  }

  /** The sum of `(m[k] || d) - offset` over `keys`, folded from the left. */
  function AnswerSum(m: map<string, real>, keys: seq<string>, d: real, offset: real): real
  {
    if |keys| == 0 then 0.0
    else AnswerSum(m, keys[..|keys| - 1], d, offset) + AnswerTerm(m, keys[|keys| - 1], d, offset)
  }

  lemma AnswerSumSnoc(m: map<string, real>, keys: seq<string>, k: string, d: real, offset: real)
    ensures AnswerSum(m, keys + [k], d, offset) == AnswerSum(m, keys, d, offset) + AnswerTerm(m, k, d, offset)
  {
    assert (keys + [k])[..|keys|] == keys;
  }

  lemma ImplicitPrefixStep(m: map<string, real>, q: nat, i: nat)
    requires 1 <= i <= 6
    ensures AnswerSum(m, ImplicitKeys(q)[..i], 0.0, 0.0)
         == AnswerSum(m, ImplicitKeys(q)[..i - 1], 0.0, 0.0) + Truthy(m, ImplicitKey(i, q), 0.0)
  {
    assert ImplicitKeys(q)[..i] == ImplicitKeys(q)[..i - 1] + [ImplicitKey(i, q)];
    AnswerSumSnoc(m, ImplicitKeys(q)[..i - 1], ImplicitKey(i, q), 0.0, 0.0);
  }

  lemma ImplicitPrefixComplete(m: map<string, real>)
    ensures forall q :: AnswerSum(m, ImplicitKeys(q)[..6], 0.0, 0.0) == ImplicitSum(m, q)
  {
    forall q ensures ImplicitKeys(q)[..6] == ImplicitKeys(q) { }
  }

  /** Sum of one implicit sub-question over the six images (missing is 0). */
  function ImplicitSum(m: map<string, real>, q: nat): real
  {
    AnswerSum(m, ImplicitKeys(q), 0.0, 0.0)
  }

  /** `getEM`: the Likert answers at `idxs`, each lowered by 1 (missing is 1),
      summed and divided by 3. */
  function ExplicitMean(m: map<string, real>, idxs: seq<nat>): real
  {
    AnswerSum(m, IndexKeys(idxs), 1.0, 1.0) / 3.0
  }

  /** `getWB`: the wellbeing answer at `idx` lowered by 1 (missing is 1). */
  function WellbeingItem(m: map<string, real>, idx: nat): real
  {
    AnswerTerm(m, Decimal(idx), 1.0, 1.0)
  }

  // ---------------------------------------------------------------------
  // The sixteen scores

  /** An implicit motive: hope minus fear over the six images, remapped from
      the fixed range -24..24. */
  function ImplicitMotive(m: map<string, real>, hope: nat, fear: nat): real
  {
    MapToZ(ImplicitSum(m, hope) - ImplicitSum(m, fear), -24.0, 24.0)
  }

  /** An explicit motive: `getEM` of an index triple, remapped from 0..4. */
  function ExplicitMotive(m: map<string, real>, idxs: seq<nat>): real
  {
    MapToZ(ExplicitMean(m, idxs), 0.0, 4.0)
  }

  /** A basic need: the mean of two wellbeing items, remapped from 0..4. */
  function NeedScore(m: map<string, real>, a: nat, b: nat): real
  {
    MapToZ((WellbeingItem(m, a) + WellbeingItem(m, b)) / 2.0, 0.0, 4.0)
  }

  /** Items 6..15 summed and divided by 10, remapped from 0..4. */
  function WellbeingScore(m: map<string, real>): real
  {
    MapToZ(AnswerSum(m, RangeKeys(6, 16), 1.0, 1.0) / 10.0, 0.0, 4.0)
  }

  /** A single wellbeing item remapped from 0..4. */
  function SingleItemScore(m: map<string, real>, idx: nat): real
  {
    MapToZ(WellbeingItem(m, idx), 0.0, 4.0)
  }

  /** What `calculatePaimaScores` returns. The discrepancy scores are the
      absolute differences of the explicit and implicit scores, and the
      conflict index is the D-score minus the gaze adjustment. */
  function PaimaScoresOf(data: RawData, sqrt: SquareRoot): (s: PaimaScores)
    ensures s.Z_MDI_Ach >= 0.0 && (s.Z_MDI_Ach == 0.0 <==> s.Z_eM_Ach == s.Z_iM_Ach)
    ensures s.Z_MDI_Pow >= 0.0 && (s.Z_MDI_Pow == 0.0 <==> s.Z_eM_Pow == s.Z_iM_Pow)
    ensures s.Z_MDI_Aff >= 0.0 && (s.Z_MDI_Aff == 0.0 <==> s.Z_eM_Aff == s.Z_iM_Aff)
    ensures data.stareData.None? ==> s.Z_PSCI == IatPsci(data.iatAnswers, sqrt)
  {
    var imp := data.implicitAnswers;
    var exp := data.explicitAnswers;
    var wb := data.wellbeingAnswers;
    var iAch := ImplicitMotive(imp, 1, 2);
    var iPow := ImplicitMotive(imp, 3, 4);
    var iAff := ImplicitMotive(imp, 5, 6);
    var eAch := ExplicitMotive(exp, [0, 1, 2]);
    var ePow := ExplicitMotive(exp, [3, 4, 5]);
    var eAff := ExplicitMotive(exp, [6, 7, 8]);
    PaimaScores(
      IatPsci(data.iatAnswers, sqrt) - ShadowAdjustment(data.stareData),
      Abs(eAch - iAch), Abs(ePow - iPow), Abs(eAff - iAff),
      iAch, iPow, iAff,
      eAch, ePow, eAff,
      NeedScore(wb, 0, 1), NeedScore(wb, 2, 3), NeedScore(wb, 4, 5),
      WellbeingScore(wb), SingleItemScore(wb, 16), SingleItemScore(wb, 17))
  }

  /** The image loop of `calculatePaimaScores`: one pass over the six images
      accumulating the hope and fear sums of each implicit motive. */
  method ImplicitTallies(imp: map<string, real>)
    returns (achHope: real, achFear: real, powHope: real, powFear: real, affHope: real, affFear: real)
    ensures achHope == ImplicitSum(imp, 1) && achFear == ImplicitSum(imp, 2)
    ensures powHope == ImplicitSum(imp, 3) && powFear == ImplicitSum(imp, 4)
    ensures affHope == ImplicitSum(imp, 5) && affFear == ImplicitSum(imp, 6)
  {
    achHope, achFear := 0.0, 0.0;
    powHope, powFear := 0.0, 0.0;
    affHope, affFear := 0.0, 0.0;
    var imgCount := 6;
    for i := 1 to imgCount + 1
      invariant achHope == AnswerSum(imp, ImplicitKeys(1)[..i - 1], 0.0, 0.0)
      invariant achFear == AnswerSum(imp, ImplicitKeys(2)[..i - 1], 0.0, 0.0)
      invariant powHope == AnswerSum(imp, ImplicitKeys(3)[..i - 1], 0.0, 0.0)
      invariant powFear == AnswerSum(imp, ImplicitKeys(4)[..i - 1], 0.0, 0.0)
      invariant affHope == AnswerSum(imp, ImplicitKeys(5)[..i - 1], 0.0, 0.0)
      invariant affFear == AnswerSum(imp, ImplicitKeys(6)[..i - 1], 0.0, 0.0)
    {
      ImplicitPrefixStep(imp, 1, i);
      ImplicitPrefixStep(imp, 2, i);
      ImplicitPrefixStep(imp, 3, i);
      ImplicitPrefixStep(imp, 4, i);
      ImplicitPrefixStep(imp, 5, i);
      ImplicitPrefixStep(imp, 6, i);
      achHope := achHope + Truthy(imp, ImplicitKey(i, 1), 0.0);
      achFear := achFear + Truthy(imp, ImplicitKey(i, 2), 0.0);
      powHope := powHope + Truthy(imp, ImplicitKey(i, 3), 0.0);
      powFear := powFear + Truthy(imp, ImplicitKey(i, 4), 0.0);
      affHope := affHope + Truthy(imp, ImplicitKey(i, 5), 0.0);
      affFear := affFear + Truthy(imp, ImplicitKey(i, 6), 0.0);
    }
    ImplicitPrefixComplete(imp);
  }

  /** The wellbeing loop of `calculatePaimaScores`: items 6..15, each lowered
      by 1 (missing is 1), summed. */
  method WellbeingTally(wb: map<string, real>) returns (wSum: real)
    ensures wSum == AnswerSum(wb, RangeKeys(6, 16), 1.0, 1.0)
  {
    wSum := 0.0;
    for i := 6 to 16
      invariant wSum == AnswerSum(wb, RangeKeys(6, i), 1.0, 1.0)
    {
      assert RangeKeys(6, i + 1) == RangeKeys(6, i) + [Decimal(i)];
      AnswerSumSnoc(wb, RangeKeys(6, i), Decimal(i), 1.0, 1.0);
      wSum := wSum + WellbeingItem(wb, i);
    }
  }

  /** The gaze step of `calculatePaimaScores`: `monsterRatio - 0.5` when the
      telemetry has a positive total, else 0. */
  method GazeAdjustment(stare: Option<StareData>) returns (adj: real)
    ensures adj == ShadowAdjustment(stare)
  {
    adj := 0.0;
    if stare.Some? {
      var totalGaze := stare.value.monsterGaze + stare.value.forestGaze;
      if totalGaze > 0.0 {
        var monsterRatio := stare.value.monsterGaze / totalGaze;
        adj := monsterRatio - 0.5;
      }
    }
  }

  /** `calculatePaimaScores`. */
  method CalculatePaimaScores(data: RawData, sqrt: SquareRoot) returns (scores: PaimaScores)
    ensures scores == PaimaScoresOf(data, sqrt)
  {
    var imp := data.implicitAnswers;
    var exp := data.explicitAnswers;
    var wb := data.wellbeingAnswers;

    var psci := IatPsci(data.iatAnswers, sqrt);

    var iAchHope, iAchFear, iPowHope, iPowFear, iAffHope, iAffFear := ImplicitTallies(imp);
    var iAch := MapToZ(iAchHope - iAchFear, -24.0, 24.0);
    var iPow := MapToZ(iPowHope - iPowFear, -24.0, 24.0);
    var iAff := MapToZ(iAffHope - iAffFear, -24.0, 24.0);

    var eAch := ExplicitMotive(exp, [0, 1, 2]);
    var ePow := ExplicitMotive(exp, [3, 4, 5]);
    var eAff := ExplicitMotive(exp, [6, 7, 8]);

    var nAuto := NeedScore(wb, 0, 1);
    var nComp := NeedScore(wb, 2, 3);
    var nRela := NeedScore(wb, 4, 5);

    var wSum := WellbeingTally(wb);
    var wellbeing := MapToZ(wSum / 10.0, 0.0, 4.0);

    var depletion := SingleItemScore(wb, 16);
    var external := SingleItemScore(wb, 17);

    var shadowAdjustment := GazeAdjustment(data.stareData);

    assert iAch == ImplicitMotive(imp, 1, 2);
    assert iPow == ImplicitMotive(imp, 3, 4);
    assert iAff == ImplicitMotive(imp, 5, 6);
    assert wellbeing == WellbeingScore(wb);
    scores := PaimaScores(
      psci - shadowAdjustment,
      Abs(eAch - iAch), Abs(ePow - iPow), Abs(eAff - iAff),
      iAch, iPow, iAff,
      eAch, ePow, eAff,
      nAuto, nComp, nRela,
      wellbeing, depletion, external);
  }

  // ---------------------------------------------------------------------
  // Properties of the scores

  /** A dictionary in which every answer is missing or falsy. */
  ghost predicate Unanswered(m: map<string, real>)
  {
    forall k :: k in m ==> m[k] == 0.0
  }

  /** With every answer missing or falsy, every term is its default. */
  lemma {:induction false} AnswerSumOfUnanswered(m: map<string, real>, keys: seq<string>, d: real, offset: real)
    requires Unanswered(m)
    ensures AnswerSum(m, keys, d, offset) == |keys| as real * (d - offset)
  {
    if |keys| > 0 {
      var n := |keys| as real;
      AnswerSumOfUnanswered(m, keys[..|keys| - 1], d, offset);
      assert n * (d - offset) == (n - 1.0) * (d - offset) + (d - offset);
    }
  }

  lemma UnansweredImplicitMotive(m: map<string, real>, hope: nat, fear: nat)
    requires Unanswered(m)
    ensures ImplicitMotive(m, hope, fear) == 0.0
  {
    AnswerSumOfUnanswered(m, ImplicitKeys(hope), 0.0, 0.0);
    AnswerSumOfUnanswered(m, ImplicitKeys(fear), 0.0, 0.0);
  }

  lemma UnansweredExplicitMotive(m: map<string, real>, idxs: seq<nat>)
    requires Unanswered(m)
    ensures ExplicitMotive(m, idxs) == -2.0
  {
    AnswerSumOfUnanswered(m, IndexKeys(idxs), 1.0, 1.0);
  }

  lemma UnansweredWellbeing(m: map<string, real>)
    requires Unanswered(m)
    ensures forall a, b :: NeedScore(m, a, b) == -2.0
    ensures forall i :: SingleItemScore(m, i) == -2.0
    ensures WellbeingScore(m) == -2.0
  {
    AnswerSumOfUnanswered(m, RangeKeys(6, 16), 1.0, 1.0);
  }

  /** Input with every answer missing or falsy, no usable IAT data and no gaze
      telemetry is scored without failing: implicit motives 0; explicit
      motives, needs, wellbeing and conflict -2; discrepancies 2; PSCI 0. */
  lemma UnansweredInputScores(data: RawData, sqrt: SquareRoot)
    requires Unanswered(data.implicitAnswers)
    requires Unanswered(data.explicitAnswers)
    requires Unanswered(data.wellbeingAnswers)
    requires data.iatAnswers.None? || |data.iatAnswers.value| < MinTrials
    requires data.stareData.None?
    ensures PaimaScoresOf(data, sqrt)
         == PaimaScores(0.0, 2.0, 2.0, 2.0, 0.0, 0.0, 0.0, -2.0, -2.0, -2.0,
                        -2.0, -2.0, -2.0, -2.0, -2.0, -2.0)
  {
    var s := PaimaScoresOf(data, sqrt);
    assert s.Z_PSCI == 0.0;
    assert s.Z_iM_Ach == 0.0 && s.Z_iM_Pow == 0.0 && s.Z_iM_Aff == 0.0
        && s.Z_eM_Ach == -2.0 && s.Z_eM_Pow == -2.0 && s.Z_eM_Aff == -2.0
        && s.Z_MDI_Ach == 2.0 && s.Z_MDI_Pow == 2.0 && s.Z_MDI_Aff == 2.0 by {
      UnansweredMotiveScores(data, sqrt);
    }
    assert s.Z_N_Auto == -2.0 && s.Z_N_Comp == -2.0 && s.Z_N_Rela == -2.0
        && s.Z_W_Wellbeing == -2.0 && s.Z_C_Depletion == -2.0 && s.Z_C_External == -2.0 by {
      UnansweredWellbeingScores(data, sqrt);
    }
  }

  lemma UnansweredMotiveScores(data: RawData, sqrt: SquareRoot)
    requires Unanswered(data.implicitAnswers)
    requires Unanswered(data.explicitAnswers)
    ensures var s := PaimaScoresOf(data, sqrt);
      && s.Z_iM_Ach == 0.0 && s.Z_iM_Pow == 0.0 && s.Z_iM_Aff == 0.0
      && s.Z_eM_Ach == -2.0 && s.Z_eM_Pow == -2.0 && s.Z_eM_Aff == -2.0
      && s.Z_MDI_Ach == 2.0 && s.Z_MDI_Pow == 2.0 && s.Z_MDI_Aff == 2.0
  {
    UnansweredImplicitMotive(data.implicitAnswers, 1, 2);
    UnansweredImplicitMotive(data.implicitAnswers, 3, 4);
    UnansweredImplicitMotive(data.implicitAnswers, 5, 6);
    UnansweredExplicitMotive(data.explicitAnswers, [0, 1, 2]);
    UnansweredExplicitMotive(data.explicitAnswers, [3, 4, 5]);
    UnansweredExplicitMotive(data.explicitAnswers, [6, 7, 8]);
  }

  lemma UnansweredWellbeingScores(data: RawData, sqrt: SquareRoot)
    requires Unanswered(data.wellbeingAnswers)
    ensures var s := PaimaScoresOf(data, sqrt);
      && s.Z_N_Auto == -2.0 && s.Z_N_Comp == -2.0 && s.Z_N_Rela == -2.0
      && s.Z_W_Wellbeing == -2.0 && s.Z_C_Depletion == -2.0 && s.Z_C_External == -2.0
  {
    UnansweredWellbeing(data.wellbeingAnswers);
  }

  /** Every key of `m` holds a value in [lo, hi]. */
  ghost predicate AnswersWithin(m: map<string, real>, lo: real, hi: real)
  {
    forall k :: k in m ==> lo <= m[k] <= hi
  }

  lemma {:induction false} AnswerSumBounds(m: map<string, real>, keys: seq<string>, d: real, offset: real, lo: real, hi: real)
    requires forall k :: lo <= AnswerTerm(m, k, d, offset) <= hi
    ensures |keys| as real * lo <= AnswerSum(m, keys, d, offset) <= |keys| as real * hi
  {
    if |keys| > 0 {
      var n := |keys| as real;
      var init, last := keys[..|keys| - 1], keys[|keys| - 1];
      AnswerSumBounds(m, init, d, offset, lo, hi);
      var before, term := AnswerSum(m, init, d, offset), AnswerTerm(m, last, d, offset);
      assert AnswerSum(m, keys, d, offset) == before + term;
      assert (n - 1.0) * lo <= before <= (n - 1.0) * hi;
      assert lo <= term <= hi;
      assert n * lo == (n - 1.0) * lo + lo && n * hi == (n - 1.0) * hi + hi;
    }
  }

  lemma ImplicitMotiveWithin(m: map<string, real>, hope: nat, fear: nat)
    requires AnswersWithin(m, 0.0, 4.0)
    ensures -2.0 <= ImplicitMotive(m, hope, fear) <= 2.0
  {
    AnswerSumBounds(m, ImplicitKeys(hope), 0.0, 0.0, 0.0, 4.0);
    AnswerSumBounds(m, ImplicitKeys(fear), 0.0, 0.0, 0.0, 4.0);
  }

  lemma ExplicitMotiveWithin(m: map<string, real>, idxs: seq<nat>)
    requires AnswersWithin(m, 1.0, 5.0)
    requires |idxs| == 3
    ensures -2.0 <= ExplicitMotive(m, idxs) <= 2.0
  {
    AnswerSumBounds(m, IndexKeys(idxs), 1.0, 1.0, 0.0, 4.0);
  }

  lemma WellbeingScoresWithin(m: map<string, real>)
    requires AnswersWithin(m, 1.0, 5.0)
    ensures forall a, b :: -2.0 <= NeedScore(m, a, b) <= 2.0
    ensures forall i :: -2.0 <= SingleItemScore(m, i) <= 2.0
    ensures -2.0 <= WellbeingScore(m) <= 2.0
  {
    AnswerSumBounds(m, RangeKeys(6, 16), 1.0, 1.0, 0.0, 4.0);
    assert forall i :: 0.0 <= WellbeingItem(m, i) <= 4.0;
  }

  /** When implicit ratings lie in 0..4 and Likert answers in 1..5 (the scales
      the normalisation bounds assume), every remapped score lies in [-2, 2]
      and every discrepancy in [0, 4]. */
  lemma NominalRange(data: RawData, sqrt: SquareRoot)
    requires AnswersWithin(data.implicitAnswers, 0.0, 4.0)
    requires AnswersWithin(data.explicitAnswers, 1.0, 5.0)
    requires AnswersWithin(data.wellbeingAnswers, 1.0, 5.0)
    ensures var s := PaimaScoresOf(data, sqrt);
      && -2.0 <= s.Z_iM_Ach <= 2.0 && -2.0 <= s.Z_iM_Pow <= 2.0 && -2.0 <= s.Z_iM_Aff <= 2.0
      && -2.0 <= s.Z_eM_Ach <= 2.0 && -2.0 <= s.Z_eM_Pow <= 2.0 && -2.0 <= s.Z_eM_Aff <= 2.0
      && -2.0 <= s.Z_N_Auto <= 2.0 && -2.0 <= s.Z_N_Comp <= 2.0 && -2.0 <= s.Z_N_Rela <= 2.0
      && -2.0 <= s.Z_W_Wellbeing <= 2.0 && -2.0 <= s.Z_C_Depletion <= 2.0 && -2.0 <= s.Z_C_External <= 2.0
      && s.Z_MDI_Ach <= 4.0 && s.Z_MDI_Pow <= 4.0 && s.Z_MDI_Aff <= 4.0
  {
    var s := PaimaScoresOf(data, sqrt);
    var imp := data.implicitAnswers;
    var exp := data.explicitAnswers;
    assert -2.0 <= s.Z_iM_Ach <= 2.0 && -2.0 <= s.Z_iM_Pow <= 2.0 && -2.0 <= s.Z_iM_Aff <= 2.0 by {
      ImplicitMotiveWithin(imp, 1, 2);
      ImplicitMotiveWithin(imp, 3, 4);
      ImplicitMotiveWithin(imp, 5, 6);
    }
    assert -2.0 <= s.Z_eM_Ach <= 2.0 && -2.0 <= s.Z_eM_Pow <= 2.0 && -2.0 <= s.Z_eM_Aff <= 2.0 by {
      ExplicitMotiveWithin(exp, [0, 1, 2]);
      ExplicitMotiveWithin(exp, [3, 4, 5]);
      ExplicitMotiveWithin(exp, [6, 7, 8]);
    }
    assert -2.0 <= s.Z_N_Auto <= 2.0 && -2.0 <= s.Z_N_Comp <= 2.0 && -2.0 <= s.Z_N_Rela <= 2.0
        && -2.0 <= s.Z_W_Wellbeing <= 2.0 && -2.0 <= s.Z_C_Depletion <= 2.0
        && -2.0 <= s.Z_C_External <= 2.0 by {
      WellbeingScoresWithin(data.wellbeingAnswers);
    }
  }

  /** Two dictionaries with the same truthy entries read the same under `||`. */
  ghost predicate SameTruthyEntries(m1: map<string, real>, m2: map<string, real>)
  {
    forall k :: Truthy(m1, k, 1.0) == Truthy(m2, k, 1.0) && Truthy(m1, k, 0.0) == Truthy(m2, k, 0.0)
  }

  lemma {:induction false} AnswerSumCongruent(m1: map<string, real>, m2: map<string, real>, keys: seq<string>, d: real, offset: real)
    requires d == 0.0 || d == 1.0
    requires SameTruthyEntries(m1, m2)
    ensures AnswerSum(m1, keys, d, offset) == AnswerSum(m2, keys, d, offset)
  {
    if |keys| > 0 {
      AnswerSumCongruent(m1, m2, keys[..|keys| - 1], d, offset);
    }
  }

  /** The scores depend on each answer dictionary only through its truthy
      entries. */
  lemma ScoresDependOnTruthyEntries(d1: RawData, d2: RawData, sqrt: SquareRoot)
    requires SameTruthyEntries(d1.implicitAnswers, d2.implicitAnswers)
    requires SameTruthyEntries(d1.explicitAnswers, d2.explicitAnswers)
    requires SameTruthyEntries(d1.wellbeingAnswers, d2.wellbeingAnswers)
    requires d1.iatAnswers == d2.iatAnswers && d1.stareData == d2.stareData
    ensures PaimaScoresOf(d1, sqrt) == PaimaScoresOf(d2, sqrt)
  {
    MotivesDependOnTruthyEntries(d1, d2, sqrt);
    WellbeingDependsOnTruthyEntries(d1.wellbeingAnswers, d2.wellbeingAnswers);
  }

  lemma MotivesDependOnTruthyEntries(d1: RawData, d2: RawData, sqrt: SquareRoot)
    requires SameTruthyEntries(d1.implicitAnswers, d2.implicitAnswers)
    requires SameTruthyEntries(d1.explicitAnswers, d2.explicitAnswers)
    ensures forall hope, fear :: ImplicitMotive(d1.implicitAnswers, hope, fear)
                              == ImplicitMotive(d2.implicitAnswers, hope, fear)
    ensures forall idxs :: ExplicitMotive(d1.explicitAnswers, idxs)
                        == ExplicitMotive(d2.explicitAnswers, idxs)
  {
    var i1, i2 := d1.implicitAnswers, d2.implicitAnswers;
    var e1, e2 := d1.explicitAnswers, d2.explicitAnswers;
    forall q ensures ImplicitSum(i1, q) == ImplicitSum(i2, q) {
      AnswerSumCongruent(i1, i2, ImplicitKeys(q), 0.0, 0.0);
    }
    forall idxs ensures ExplicitMean(e1, idxs) == ExplicitMean(e2, idxs) {
      AnswerSumCongruent(e1, e2, IndexKeys(idxs), 1.0, 1.0);
    }
  }

  lemma WellbeingDependsOnTruthyEntries(w1: map<string, real>, w2: map<string, real>)
    requires SameTruthyEntries(w1, w2)
    ensures forall a, b :: NeedScore(w1, a, b) == NeedScore(w2, a, b)
    ensures forall i :: SingleItemScore(w1, i) == SingleItemScore(w2, i)
    ensures WellbeingScore(w1) == WellbeingScore(w2)
  {
    AnswerSumCongruent(w1, w2, RangeKeys(6, 16), 1.0, 1.0);
    assert forall i :: WellbeingItem(w1, i) == WellbeingItem(w2, i);
  }

  /** Setting an answer to 0 leaves the truthy entries those of the
      dictionary without that answer. */
  lemma ZeroEntryIsAbsent(m: map<string, real>, k: string)
    ensures SameTruthyEntries(m[k := 0.0], m - {k})
  {
  }

  /** A falsy (zero) answer is scored exactly like a missing one. */
  lemma ZeroAnswerCountsAsMissing(data: RawData, k: string, sqrt: SquareRoot)
    ensures PaimaScoresOf(data.(implicitAnswers := data.implicitAnswers[k := 0.0]), sqrt)
         == PaimaScoresOf(data.(implicitAnswers := data.implicitAnswers - {k}), sqrt)
    ensures PaimaScoresOf(data.(explicitAnswers := data.explicitAnswers[k := 0.0]), sqrt)
         == PaimaScoresOf(data.(explicitAnswers := data.explicitAnswers - {k}), sqrt)
    ensures PaimaScoresOf(data.(wellbeingAnswers := data.wellbeingAnswers[k := 0.0]), sqrt)
         == PaimaScoresOf(data.(wellbeingAnswers := data.wellbeingAnswers - {k}), sqrt)
  {
    ZeroEntryIsAbsent(data.implicitAnswers, k);
    ZeroEntryIsAbsent(data.explicitAnswers, k);
    ZeroEntryIsAbsent(data.wellbeingAnswers, k);
    ScoresDependOnTruthyEntries(data.(implicitAnswers := data.implicitAnswers[k := 0.0]),
                                data.(implicitAnswers := data.implicitAnswers - {k}), sqrt);
    ScoresDependOnTruthyEntries(data.(explicitAnswers := data.explicitAnswers[k := 0.0]),
                                data.(explicitAnswers := data.explicitAnswers - {k}), sqrt);
    ScoresDependOnTruthyEntries(data.(wellbeingAnswers := data.wellbeingAnswers[k := 0.0]),
                                data.(wellbeingAnswers := data.wellbeingAnswers - {k}), sqrt);
  }

  // ---------------------------------------------------------------------
  // The score object as the report layers see it

  /** The sixteen field names, in declaration order. */
  const ScoreNames: seq<string> := [
    "Z_PSCI", "Z_MDI_Ach", "Z_MDI_Pow", "Z_MDI_Aff",
    "Z_iM_Ach", "Z_iM_Pow", "Z_iM_Aff",
    "Z_eM_Ach", "Z_eM_Pow", "Z_eM_Aff",
    "Z_N_Auto", "Z_N_Comp", "Z_N_Rela",
    "Z_W_Wellbeing", "Z_C_Depletion", "Z_C_External"]

  /** The scores as a JavaScript object: exactly the sixteen keys, each a number. */
  function AsRecord(s: PaimaScores): (r: map<string, Nullable>)
    ensures r.Keys == set k | k in ScoreNames
    ensures forall k :: k in r ==> r[k].Num?
  {
    map[
      "Z_PSCI" := Num(s.Z_PSCI),
      "Z_MDI_Ach" := Num(s.Z_MDI_Ach), "Z_MDI_Pow" := Num(s.Z_MDI_Pow), "Z_MDI_Aff" := Num(s.Z_MDI_Aff),
      "Z_iM_Ach" := Num(s.Z_iM_Ach), "Z_iM_Pow" := Num(s.Z_iM_Pow), "Z_iM_Aff" := Num(s.Z_iM_Aff),
      "Z_eM_Ach" := Num(s.Z_eM_Ach), "Z_eM_Pow" := Num(s.Z_eM_Pow), "Z_eM_Aff" := Num(s.Z_eM_Aff),
      "Z_N_Auto" := Num(s.Z_N_Auto), "Z_N_Comp" := Num(s.Z_N_Comp), "Z_N_Rela" := Num(s.Z_N_Rela),
      "Z_W_Wellbeing" := Num(s.Z_W_Wellbeing), "Z_C_Depletion" := Num(s.Z_C_Depletion),
      "Z_C_External" := Num(s.Z_C_External)]
  }

  /** The three discrepancies sit under their own names. */
  lemma AsRecordHoldsDiscrepancies(s: PaimaScores)
    ensures AsRecord(s)["Z_MDI_Ach"] == Num(s.Z_MDI_Ach) && AsRecord(s)["Z_MDI_Pow"] == Num(s.Z_MDI_Pow)
      && AsRecord(s)["Z_MDI_Aff"] == Num(s.Z_MDI_Aff)
  {
  }

  /** The implicit motives sit under their own names. */
  lemma AsRecordHoldsImplicitMotives(s: PaimaScores)
    ensures AsRecord(s)["Z_iM_Ach"] == Num(s.Z_iM_Ach)
    ensures AsRecord(s)["Z_iM_Pow"] == Num(s.Z_iM_Pow)
    ensures AsRecord(s)["Z_iM_Aff"] == Num(s.Z_iM_Aff)
  {
  }

  /** The explicit motives sit under their own names. */
  lemma AsRecordHoldsExplicitMotives(s: PaimaScores)
    ensures AsRecord(s)["Z_eM_Ach"] == Num(s.Z_eM_Ach)
    ensures AsRecord(s)["Z_eM_Pow"] == Num(s.Z_eM_Pow)
    ensures AsRecord(s)["Z_eM_Aff"] == Num(s.Z_eM_Aff)
  {
  }

  /** The PSCI, the needs, the wellbeing and the conflict scores sit under their own names. */
  lemma AsRecordHoldsPsciNeedsAndWellbeing(s: PaimaScores)
    ensures AsRecord(s)["Z_PSCI"] == Num(s.Z_PSCI)
    ensures AsRecord(s)["Z_N_Auto"] == Num(s.Z_N_Auto)
    ensures AsRecord(s)["Z_N_Comp"] == Num(s.Z_N_Comp)
    ensures AsRecord(s)["Z_N_Rela"] == Num(s.Z_N_Rela)
    ensures AsRecord(s)["Z_W_Wellbeing"] == Num(s.Z_W_Wellbeing)
    ensures AsRecord(s)["Z_C_Depletion"] == Num(s.Z_C_Depletion)
    ensures AsRecord(s)["Z_C_External"] == Num(s.Z_C_External)
  {
  }
}
