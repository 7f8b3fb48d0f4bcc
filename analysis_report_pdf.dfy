/** The arithmetic of the downloadable analysis report: the 10..90 display
    scale, the profile-key fallback, the needs bars and the stacked
    discrepancy bars with their percentage split, and the three bars of the
    page-3 comparison chart. The page layout itself is not modelled. */
module AnalysisReportPdf {
  import opened Common
  import opened Scoring

  /** `paima.X ?? 0`. */
  function Score(paima: map<string, Nullable>, k: string): (z: real)
    ensures k in paima && paima[k].Num? ==> z == paima[k].v
    ensures !(k in paima && paima[k].Num?) ==> z == 0.0
  {
    NumOr(Lookup(paima, k), 0.0)
  }

  // ---------------------------------------------------------------------
  // The display scale

  /** `mapZ`: `20z + 50`, clamped to [10, 90]. */
  function MapZ(z: real): (r: real)
    ensures 10.0 <= r <= 90.0
    ensures -2.0 <= z <= 2.0 ==> r == 20.0 * z + 50.0
    ensures z <= -2.0 ==> r == 10.0
    ensures z >= 2.0 ==> r == 90.0
  {
    Min(Max(z * 20.0 + 50.0, 10.0), 90.0)
  }

  /** A missing score sits in the middle of the scale, and the scale never
      reverses order. */
  lemma MapZMiddleAndOrder(z1: real, z2: real)
    requires z1 <= z2
    ensures MapZ(0.0) == 50.0
    ensures MapZ(z1) <= MapZ(z2)
  {
  }

  // ---------------------------------------------------------------------
  // Profile lookup

  /** `paima.profileKey || 'WANDERING_EXPLORER'`; `None` stands for a missing,
      `null` or `undefined` key. */
  function ProfileKey(profileKey: Option<string>): (k: string)
    ensures k != ""
    ensures profileKey.Some? && profileKey.value != "" ==> k == profileKey.value
    ensures profileKey.None? || profileKey.value == "" ==> k == "WANDERING_EXPLORER"
  {
    if profileKey.Some? && profileKey.value != "" then profileKey.value else "WANDERING_EXPLORER"
  }

  /** `RESULT_PROFILES[key] || RESULT_PROFILES['WANDERING_EXPLORER']` for a
      profile table `profiles` (its contents are not part of this model). */
  function ProfileData<P>(profileKey: Option<string>, profiles: map<string, P>): (d: Option<P>)
    ensures ProfileKey(profileKey) in profiles ==> d == Some(profiles[ProfileKey(profileKey)])
    ensures ProfileKey(profileKey) !in profiles && "WANDERING_EXPLORER" in profiles ==>
      d == Some(profiles["WANDERING_EXPLORER"])
    ensures "WANDERING_EXPLORER" in profiles ==> d.Some?
  {
    var key := ProfileKey(profileKey);
    if key in profiles then Some(profiles[key])
    else if "WANDERING_EXPLORER" in profiles then Some(profiles["WANDERING_EXPLORER"])
    else None
  }

  // ---------------------------------------------------------------------
  // Needs bars

  /** `needsData`: autonomy, competence, relatedness, then willpower shown as
      `100 - mapZ(depletion)`. */
  function NeedsValues(paima: map<string, Nullable>): (vs: seq<real>)
    ensures |vs| == 4
    ensures forall i :: 0 <= i < 4 ==> 10.0 <= vs[i] <= 90.0
    ensures vs[0] == MapZ(Score(paima, "Z_N_Auto"))
    ensures vs[1] == MapZ(Score(paima, "Z_N_Comp"))
    ensures vs[2] == MapZ(Score(paima, "Z_N_Rela"))
    ensures vs[3] + MapZ(Score(paima, "Z_C_Depletion")) == 100.0
  {
    [MapZ(Score(paima, "Z_N_Auto")), MapZ(Score(paima, "Z_N_Comp")),
     MapZ(Score(paima, "Z_N_Rela")), 100.0 - MapZ(Score(paima, "Z_C_Depletion"))]
  }

  /** More depletion never shows as more willpower. */
  lemma WillpowerFallsWithDepletion(p1: map<string, Nullable>, p2: map<string, Nullable>)
    requires Score(p1, "Z_C_Depletion") <= Score(p2, "Z_C_Depletion")
    ensures NeedsValues(p2)[3] <= NeedsValues(p1)[3]
  {
  }

  // ---------------------------------------------------------------------
  // Stacked discrepancy bars

  /** The part heights of the four stacked bars of `mdiData`. */
  function MdiBars(paima: map<string, Nullable>): (bars: seq<seq<real>>)
    ensures |bars| == 4
    ensures bars[0] == [Abs(Score(paima, "Z_MDI_Ach")) * 15.0, MapZ(Score(paima, "Z_iM_Ach")) * 0.6, MapZ(Score(paima, "Z_eM_Ach")) * 0.4]
    ensures bars[1] == [Abs(Score(paima, "Z_MDI_Pow")) * 15.0, MapZ(Score(paima, "Z_iM_Pow")) * 0.5, MapZ(Score(paima, "Z_eM_Pow")) * 0.5]
    ensures bars[2] == [Abs(Score(paima, "Z_MDI_Aff")) * 15.0, MapZ(Score(paima, "Z_iM_Aff")) * 0.6]
    ensures bars[3] == [MapZ(Score(paima, "Z_W_Wellbeing")) * 0.7, MapZ(Score(paima, "Z_PSCI")) * 0.5,
                        (100.0 - MapZ(Score(paima, "Z_C_Depletion"))) * 0.4, 20.0]
  {
    [[Abs(Score(paima, "Z_MDI_Ach")) * 15.0, MapZ(Score(paima, "Z_iM_Ach")) * 0.6, MapZ(Score(paima, "Z_eM_Ach")) * 0.4],
     [Abs(Score(paima, "Z_MDI_Pow")) * 15.0, MapZ(Score(paima, "Z_iM_Pow")) * 0.5, MapZ(Score(paima, "Z_eM_Pow")) * 0.5],
     [Abs(Score(paima, "Z_MDI_Aff")) * 15.0, MapZ(Score(paima, "Z_iM_Aff")) * 0.6],
     [MapZ(Score(paima, "Z_W_Wellbeing")) * 0.7, MapZ(Score(paima, "Z_PSCI")) * 0.5,
      (100.0 - MapZ(Score(paima, "Z_C_Depletion"))) * 0.4, 20.0]]
  }

  /** Every part is non-negative and every bar has a part of height 4 or more. */
  lemma MdiPartsAreSized(paima: map<string, Nullable>, b: nat)
    requires b < 4
    ensures forall i :: 0 <= i < |MdiBars(paima)[b]| ==> 0.0 <= MdiBars(paima)[b][i]
    ensures exists i :: 0 <= i < |MdiBars(paima)[b]| && 4.0 <= MdiBars(paima)[b][i]
  {
    var bar := MdiBars(paima)[b];
    assert 4.0 <= bar[1];
  }

  /** `parts.reduce((sum, p) => sum + p.height, 0)`. */
  function TotalHeight(parts: seq<real>): real
  {
    Sum(parts)
  }

  /** Each part's share of its bar, in percent. */
  function PartPercents(parts: seq<real>): (ps: seq<real>)
    requires TotalHeight(parts) != 0.0
    ensures |ps| == |parts|
  {
    seq(|parts|, i requires 0 <= i < |parts| => parts[i] / TotalHeight(parts) * 100.0)
  }

  /** `Math.min(totalHeight, 95)`. */
  function DrawnHeight(parts: seq<real>): (h: real)
    ensures h <= 95.0
    ensures TotalHeight(parts) <= 95.0 ==> h == TotalHeight(parts)
    ensures TotalHeight(parts) >= 95.0 ==> h == 95.0
  {
    Min(TotalHeight(parts), 95.0)
  }

  /** A bar of non-negative parts with one part of at least 4 has a positive
      total, so the division is defined, and its part percentages add up to
      exactly 100. */
  lemma {:induction false} PercentsSumTo100(parts: seq<real>, i: nat)
    requires forall j :: 0 <= j < |parts| ==> 0.0 <= parts[j]
    requires i < |parts| && 4.0 <= parts[i]
    ensures TotalHeight(parts) >= 4.0
    ensures Sum(PartPercents(parts)) == 100.0
  {
    TermAtMostSum(parts, i);
    var t := TotalHeight(parts);
    var c := 100.0 / t;
    var ps := PartPercents(parts);
    forall j | 0 <= j < |parts| ensures ps[j] == parts[j] * c {
      assert parts[j] / t * 100.0 == parts[j] * (100.0 / t);
    }
    SumScaled(parts, ps, c);
    assert t * (100.0 / t) == 100.0;
  }

  /** Hence every bar of the report is drawable: positive total, percentages
      summing to 100, drawn height at most 95. */
  lemma MdiBarsAreDrawable(paima: map<string, Nullable>, b: nat)
    requires b < 4
    ensures var bar := MdiBars(paima)[b];
      && TotalHeight(bar) > 0.0
      && Sum(PartPercents(bar)) == 100.0
      && DrawnHeight(bar) <= 95.0
  {
    MdiPartsAreSized(paima, b);
    var bar := MdiBars(paima)[b];
    var i :| 0 <= i < |bar| && 4.0 <= bar[i];
    PercentsSumTo100(bar, i);
  }

  // ---------------------------------------------------------------------
  // The page-3 comparison chart

  /** The WELLBEING bar as written: it reads `Z_Wellbeing`, a key the scoring
      engine never produces. */
  function WellbeingBarAsWritten(paima: map<string, Nullable>): real
  {
    MapZ(Score(paima, "Z_Wellbeing"))
  }

  /** For every scored result the bar as written is stuck at the middle of the
      scale, so two results with opposite wellbeing look the same. */
  lemma WellbeingBarAsWrittenIgnoresWellbeing(s: PaimaScores)
    ensures WellbeingBarAsWritten(AsRecord(s)) == 50.0
    ensures WellbeingBarAsWritten(AsRecord(s.(Z_W_Wellbeing := -2.0)))
         == WellbeingBarAsWritten(AsRecord(s.(Z_W_Wellbeing := 2.0)))
  {
    assert "Z_Wellbeing" !in AsRecord(s);
    assert "Z_Wellbeing" !in AsRecord(s.(Z_W_Wellbeing := -2.0));
    assert "Z_Wellbeing" !in AsRecord(s.(Z_W_Wellbeing := 2.0));
  }

  /** The WELLBEING bar reading the engine's wellbeing score. */
  function WellbeingBar(paima: map<string, Nullable>): (h: real)
    ensures 10.0 <= h <= 90.0
  {
    MapZ(Score(paima, "Z_W_Wellbeing"))
  }

  /** The corrected bar shows the wellbeing score, and higher wellbeing within
      -2..+2 shows strictly higher. */
  lemma WellbeingBarShowsWellbeing(s: PaimaScores, w1: real, w2: real)
    requires -2.0 <= w1 < w2 <= 2.0
    ensures WellbeingBar(AsRecord(s)) == MapZ(s.Z_W_Wellbeing)
    ensures WellbeingBar(AsRecord(s.(Z_W_Wellbeing := w1))) < WellbeingBar(AsRecord(s.(Z_W_Wellbeing := w2)))
  {
  }

  /** The chart's three bars (shadow, persona, wellbeing) as `(y, height)`
      pairs in a 100-unit box, each standing on the bottom edge. The
      wellbeing bar is the one drawn as written. */
  function ComparisonChart(paima: map<string, Nullable>): (bars: seq<(real, real)>)
    ensures |bars| == 3
    ensures bars[0].1 == MapZ(Score(paima, "Z_iM_Pow"))
    ensures bars[1].1 == MapZ(Score(paima, "Z_eM_Pow"))
    ensures bars[2].1 == WellbeingBarAsWritten(paima)
    ensures forall i :: 0 <= i < 3 ==> bars[i].0 + bars[i].1 == 100.0 && 10.0 <= bars[i].1 <= 90.0
  {
    var shadow := MapZ(Score(paima, "Z_iM_Pow"));
    var persona := MapZ(Score(paima, "Z_eM_Pow"));
    var wellbeing := WellbeingBarAsWritten(paima);
    [(100.0 - shadow, shadow), (100.0 - persona, persona), (100.0 - wellbeing, wellbeing)]
  }

  /** For every scored result the chart's wellbeing bar is the flat middle
      bar, while the shadow and persona bars follow the power scores. */
  lemma ComparisonChartOfScores(s: PaimaScores)
    ensures var bars := ComparisonChart(AsRecord(s));
      && bars[0].1 == MapZ(s.Z_iM_Pow)
      && bars[1].1 == MapZ(s.Z_eM_Pow)
      && bars[2] == (50.0, 50.0)
  {
    WellbeingBarAsWrittenIgnoresWellbeing(s);
  }
}
