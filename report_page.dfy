/** The web report's display helpers: the 0..100 score scale, the
    upper/lower-case key normalisation of a stored score object, and the
    motive-discrepancy bars with their warning flags. A score object is a
    dictionary from names to JavaScript numbers, `null` or `undefined`. */
module ReportPage {
  import opened Common
  import opened Scoring

  // ---------------------------------------------------------------------
  // The 0..100 scale

  /** `Math.round`: halves round up. */
  function Round(x: real): (r: int)
    ensures x - 0.5 < r as real <= x + 0.5
  {
    (x + 0.5).Floor
  }

  /** `mapZ`: 50 for `null`/`undefined`; otherwise -2..+2 stretched linearly
      onto 0..100, rounded, and clamped. */
  function MapZ(z: Nullable): (r: int)
    ensures 0 <= r <= 100
    ensures !z.Num? ==> r == 50
  {
    match z
    case Num(v) =>
      var rounded := Round((v + 2.0) / 4.0 * 100.0);
      if rounded < 0 then 0 else if rounded > 100 then 100 else rounded
    case _ => 50
  }

  /** Inside -2..+2 no clamping happens: the result is the scaled score to
      within half a point. */
  lemma MapZIsTheScaledScore(z: real)
    requires -2.0 <= z <= 2.0
    ensures var scaled := (z + 2.0) * 25.0;
      scaled - 0.5 < MapZ(Num(z)) as real <= scaled + 0.5
  {
  }

  /** The ends and the middle of the score scale. */
  lemma MapZLandmarks()
    ensures MapZ(Num(-2.0)) == 0 && MapZ(Num(0.0)) == 50 && MapZ(Num(2.0)) == 100
    ensures forall z :: z <= -2.0 ==> MapZ(Num(z)) == 0
    ensures forall z :: z >= 2.0 ==> MapZ(Num(z)) == 100
  {
  }

  lemma FloorIsMonotone(x: real, y: real)
    requires x <= y
    ensures x.Floor <= y.Floor
  {
  }

  /** A higher score never shows as a lower bar. */
  lemma MapZIsMonotone(z1: real, z2: real)
    requires z1 <= z2
    ensures MapZ(Num(z1)) <= MapZ(Num(z2))
  {
    FloorIsMonotone((z1 + 2.0) / 4.0 * 100.0 + 0.5, (z2 + 2.0) / 4.0 * 100.0 + 0.5);
  }

  // ---------------------------------------------------------------------
  // Key normalisation

  /** The lower-case spelling `z_…` of a score name `Z_…`. */
  function LowerName(k: string): (l: string)
    requires |k| > 0
    ensures |l| == |k| && l[0] == 'z' && l[1..] == k[1..]
  {
    "z" + k[1..]
  }

  /** `normalizeScores`: `null` stays `null`; each of the sixteen score names
      takes its own value unless that is `null`/`undefined`, in which case the
      lower-case key's value; every other key is copied unchanged. */
  function NormalizeScores(scores: Option<map<string, Nullable>>): (r: Option<map<string, Nullable>>)
    ensures scores.None? <==> r.None?
    ensures scores.Some? ==> r.value.Keys == scores.value.Keys + (set k | k in ScoreNames)
    ensures scores.Some? ==> forall k :: k in ScoreNames ==>
      r.value[k] == Coalesce(Lookup(scores.value, k), Lookup(scores.value, LowerName(k)))
    ensures scores.Some? ==> forall k :: k in scores.value && k !in ScoreNames ==>
      r.value[k] == scores.value[k]
  {
    match scores
    case None => None
    case Some(m) =>
      Some(map k | k in m.Keys + (set n | n in ScoreNames) ::
        if k in ScoreNames then Coalesce(Lookup(m, k), Lookup(m, LowerName(k))) else m[k])
  }

  /** No lower-case spelling is itself one of the sixteen names. */
  lemma LowerNameIsNotAScoreName(k: string)
    requires k in ScoreNames
    ensures LowerName(k) !in ScoreNames
  {
    forall n | n in ScoreNames ensures n[0] == 'Z' { }
  }

  /** Normalising twice is normalising once. */
  lemma NormalizeIsIdempotent(m: map<string, Nullable>)
    ensures NormalizeScores(NormalizeScores(Some(m))) == NormalizeScores(Some(m))
  {
    var once := NormalizeScores(Some(m)).value;
    var twice := NormalizeScores(Some(once)).value;
    forall k | k in ScoreNames ensures twice[k] == once[k] {
      LowerNameIsNotAScoreName(k);
    }
    assert twice == once;
  }

  /** The object the scoring engine produces is already normal. */
  lemma NormalizeKeepsEngineScores(s: PaimaScores)
    ensures NormalizeScores(Some(AsRecord(s))) == Some(AsRecord(s))
  {
    var rec := AsRecord(s);
    var r := NormalizeScores(Some(rec)).value;
    forall k | k in ScoreNames ensures r[k] == rec[k] {
      assert rec[k].Num?;
    }
    assert r == rec;
  }

  /** A stored object that only has the lower-case spellings gains every
      upper-case name with the same value. */
  lemma NormalizeLiftsLowerCaseKeys(m: map<string, Nullable>, k: string)
    requires k in ScoreNames
    requires k !in m || !m[k].Num?
    ensures NormalizeScores(Some(m)).value[k] == Lookup(m, LowerName(k))
  {
  }

  // ---------------------------------------------------------------------
  // The discrepancy bars

  /** `paima?.X`: `undefined` when there is no score object. */
  function Field(paima: Option<map<string, Nullable>>, k: string): (r: Nullable)
    ensures paima.None? ==> r == Undefined
  {
    match paima
    case None => Undefined
    case Some(m) => Lookup(m, k)
  }

  /** `(x || 0) > 1`. */
  function WarningLevel(x: Nullable): (w: bool)
    ensures w <==> x.Num? && x.v > 1.0
  {
    (if x.Num? && x.v != 0.0 then x.v else 0.0) > 1.0
  }

  datatype Bar = Bar(name: string, value: int, warningLevel: bool)

  /** `barData`: power, achievement and affiliation discrepancies, in that
      order. */
  function BarData(paima: Option<map<string, Nullable>>): (bars: seq<Bar>)
    ensures |bars| == 3
    ensures forall i :: 0 <= i < 3 ==> 0 <= bars[i].value <= 100
    ensures forall i :: 0 <= i < 3 ==> (bars[i].warningLevel ==> bars[i].value >= 75)
    ensures bars[0].value == MapZ(Field(paima, "Z_MDI_Pow")) && bars[0].warningLevel == WarningLevel(Field(paima, "Z_MDI_Pow"))
    ensures bars[1].value == MapZ(Field(paima, "Z_MDI_Ach")) && bars[1].warningLevel == WarningLevel(Field(paima, "Z_MDI_Ach"))
    ensures bars[2].value == MapZ(Field(paima, "Z_MDI_Aff")) && bars[2].warningLevel == WarningLevel(Field(paima, "Z_MDI_Aff"))
  {
    [MdiBar("권력 욕구 차이", Field(paima, "Z_MDI_Pow")),
     MdiBar("성취 욕구 차이", Field(paima, "Z_MDI_Ach")),
     MdiBar("친화 욕구 차이", Field(paima, "Z_MDI_Aff"))]
  }

  /** One discrepancy bar: the displayed value of the discrepancy and its
      warning flag. */
  function MdiBar(name: string, x: Nullable): (b: Bar)
    ensures b == Bar(name, MapZ(x), WarningLevel(x))
    ensures b.warningLevel ==> b.value >= 75
  {
    WarningBarIsHigh(x);
    Bar(name, MapZ(x), WarningLevel(x))
  }

  /** A discrepancy above 1 shows at three quarters of the scale or more. */
  lemma WarningBarIsHigh(x: Nullable)
    ensures WarningLevel(x) ==> MapZ(x) >= 75
  {
    if WarningLevel(x) {
      MapZIsMonotone(1.0, x.v);
      assert MapZ(Num(1.0)) == 75;
    }
  }

  /** For the engine's scores each bar warns exactly when its discrepancy
      exceeds 1, and without scores no bar warns. */
  lemma WarningsFollowDiscrepancies(s: PaimaScores)
    ensures var bars := BarData(Some(AsRecord(s)));
      && (bars[0].warningLevel <==> s.Z_MDI_Pow > 1.0)
      && (bars[1].warningLevel <==> s.Z_MDI_Ach > 1.0)
      && (bars[2].warningLevel <==> s.Z_MDI_Aff > 1.0)
    ensures forall i :: 0 <= i < 3 ==> !BarData(None)[i].warningLevel && BarData(None)[i].value == 50
  {
  }

  /** A discrepancy that is missing or null in any stored object draws a
      middle bar without a warning. */
  lemma MissingDiscrepancyDoesNotWarn(m: map<string, Nullable>, i: int)
    requires 0 <= i < 3
    requires !Field(Some(m), ["Z_MDI_Pow", "Z_MDI_Ach", "Z_MDI_Aff"][i]).Num?
    ensures BarData(Some(m))[i].value == 50 && !BarData(Some(m))[i].warningLevel
  {
  }
}
