/** The closing screen of the test: the archetype title picked from the
    profile string by the first key it contains, and the four needs bars. */
module ResultStage {
  import opened Common
  import opened Scoring

  // ---------------------------------------------------------------------
  // Substring search

  /** `sub` occurs in `s` starting at position `i`. */
  ghost predicate OccursAt(s: string, sub: string, i: int)
  {
    0 <= i && i + |sub| <= |s| && s[i..i + |sub|] == sub
  }

  /** `s.includes(sub)`. */
  function Contains(s: string, sub: string): (r: bool)
    ensures r <==> exists i :: OccursAt(s, sub, i)
    decreases |s|
  {
    if |sub| > |s| then false
    else if s[..|sub|] == sub then (assert OccursAt(s, sub, 0); true)
    else
      var r := Contains(s[1..], sub);
      ContainsShift(s, sub);
      r
  }

  /** An occurrence is either at position 0 or an occurrence in `s[1..]`
      shifted by one. */
  lemma ContainsShift(s: string, sub: string)
    requires |s| > 0
    ensures (exists i :: OccursAt(s, sub, i)) <==> OccursAt(s, sub, 0) || exists i :: OccursAt(s[1..], sub, i)
  {
    if i :| OccursAt(s, sub, i) {
      if i > 0 {
        assert s[1..][i - 1..i - 1 + |sub|] == s[i..i + |sub|];
        assert OccursAt(s[1..], sub, i - 1);
      }
    }
    if i :| OccursAt(s[1..], sub, i) {
      assert s[1..][i..i + |sub|] == s[i + 1..i + 1 + |sub|];
      assert OccursAt(s, sub, i + 1);
    }
  }

  /** A string cannot contain a pattern with a character it lacks. */
  lemma MissingCharacterExcludes(s: string, sub: string, c: char)
    requires c in sub && c !in s
    ensures !Contains(s, sub)
  {
    forall i ensures !OccursAt(s, sub, i) {
    }
  }

  /** Nor a pattern longer than itself. */
  lemma LongerPatternExcluded(s: string, sub: string)
    requires |sub| > |s|
    ensures !Contains(s, sub)
  {
  }

  // ---------------------------------------------------------------------
  // The title chain

  const ProfileKeys: seq<string> := [
    "INTEGRATED_SAGE", "EXHAUSTED_HERO", "DORMANT_RULER", "OVERLOADED_CAREGIVER",
    "CONFLICTED_LOVER", "SUPPRESSED_CREATOR", "WANDERING_EXPLORER"]

  const Titles: seq<string> := [
    "심해의 평온을 품은 현자", "폭풍 속을 걷는 불굴의 영웅", "운명을 기다리는 고독한 왕",
    "비를 맞으며 숲을 지키는 존재", "두 개의 심장을 지닌 여행자", "안개에 갇힌 찬란한 예술가",
    "지도를 잃어버린 새벽의 여행자"]

  const DefaultTitle: string := "새로운 세계의 개척자"

  /** The nested ternary over `profile.includes(…)`, as written. */
  function TitleFor(profile: string): string
  {
    if Contains(profile, "INTEGRATED_SAGE") then "심해의 평온을 품은 현자"
    else if Contains(profile, "EXHAUSTED_HERO") then "폭풍 속을 걷는 불굴의 영웅"
    else if Contains(profile, "DORMANT_RULER") then "운명을 기다리는 고독한 왕"
    else if Contains(profile, "OVERLOADED_CAREGIVER") then "비를 맞으며 숲을 지키는 존재"
    else if Contains(profile, "CONFLICTED_LOVER") then "두 개의 심장을 지닌 여행자"
    else if Contains(profile, "SUPPRESSED_CREATOR") then "안개에 갇힌 찬란한 예술가"
    else if Contains(profile, "WANDERING_EXPLORER") then "지도를 잃어버린 새벽의 여행자"
    else "새로운 세계의 개척자"
  }

  /** Reference rule: the title of the first key, in table order, that the
      profile contains; the default when it contains none. */
  function FirstMatchTitle(profile: string, from: nat): (t: string)
    requires from <= |ProfileKeys|
    decreases |ProfileKeys| - from
  {
    if from == |ProfileKeys| then DefaultTitle
    else if Contains(profile, ProfileKeys[from]) then Titles[from]
    else FirstMatchTitle(profile, from + 1)
  }

  /** The chain is the first-match rule over the key table. */
  lemma TitleIsFirstMatch(profile: string)
    ensures TitleFor(profile) == FirstMatchTitle(profile, 0)
  {
  }

  /** The first-match rule picks key `k` exactly when the profile contains it
      and none of the keys before it. */
  lemma {:induction false} FirstMatchPicks(profile: string, from: nat, k: nat)
    requires from <= k < |ProfileKeys|
    requires Contains(profile, ProfileKeys[k])
    requires forall j :: from <= j < k ==> !Contains(profile, ProfileKeys[j])
    ensures FirstMatchTitle(profile, from) == Titles[k]
    decreases k - from
  {
    if from < k {
      FirstMatchPicks(profile, from + 1, k);
    }
  }

  /** The default title comes out exactly when no key is contained. */
  lemma {:induction false} FirstMatchDefault(profile: string, from: nat)
    requires from <= |ProfileKeys|
    ensures FirstMatchTitle(profile, from) == DefaultTitle
        <==> forall j :: from <= j < |ProfileKeys| ==> !Contains(profile, ProfileKeys[j])
    decreases |ProfileKeys| - from
  {
    if from < |ProfileKeys| {
      FirstMatchDefault(profile, from + 1);
      assert forall j :: 0 <= j < |Titles| ==> Titles[j] != DefaultTitle;
    }
  }

  /** The first key contained wins. */
  lemma TitleIsTheFirstContainedKey(profile: string, k: nat)
    requires k < |ProfileKeys|
    requires Contains(profile, ProfileKeys[k])
    requires forall j :: 0 <= j < k ==> !Contains(profile, ProfileKeys[j])
    ensures TitleFor(profile) == Titles[k]
  {
    TitleIsFirstMatch(profile);
    FirstMatchPicks(profile, 0, k);
  }

  /** A profile with none of the seven keys gets the default title, and only
      such a profile does. */
  lemma DefaultTitleIffNoKey(profile: string)
    ensures TitleFor(profile) == DefaultTitle
        <==> forall j :: 0 <= j < |ProfileKeys| ==> !Contains(profile, ProfileKeys[j])
  {
    TitleIsFirstMatch(profile);
    FirstMatchDefault(profile, 0);
  }

  /** No key contains an earlier key of the table. */
  lemma EarlierKeysAreNotInside(k: nat, j: nat)
    requires j < k < |ProfileKeys|
    ensures !Contains(ProfileKeys[k], ProfileKeys[j])
  {
    if k < 3 {
      LongerPatternExcluded(ProfileKeys[k], ProfileKeys[j]);
    } else {
      EarlierKeysLackACharacter(k, j);
    }
  }

  /** For the four longer keys, each earlier key has a character the later
      key lacks. */
  lemma EarlierKeysLackACharacter(k: nat, j: nat)
    requires 3 <= k < |ProfileKeys| && j < k
    ensures !Contains(ProfileKeys[k], ProfileKeys[j])
  {
    var witnesses := [['T', 'X', 'M'], ['S', 'X', 'M', 'G'], ['G', 'X', 'M', 'V', 'F'], ['T', 'H', 'M', 'C', 'C', 'S']];
    var c := witnesses[k - 3][j];
    assert c in ProfileKeys[j] && c !in ProfileKeys[k];
    MissingCharacterExcludes(ProfileKeys[k], ProfileKeys[j], c);
  }

  /** The seven titles and the default are eight different strings. */
  lemma TitlesAreDistinct(j: nat, k: nat)
    requires j < k <= |Titles|
    ensures Titles[j] != (if k == |Titles| then DefaultTitle else Titles[k])
  {
    var other := if k == |Titles| then DefaultTitle else Titles[k];
    assert Titles[j][0] != other[0];
  }

  /** Each exact key gets its own title. */
  lemma ExactKeyGetsItsTitle(k: nat)
    requires k < |ProfileKeys|
    ensures TitleFor(ProfileKeys[k]) == Titles[k]
  {
    var key := ProfileKeys[k];
    assert key[0..|key|] == key;
    forall j | 0 <= j < k ensures !Contains(key, ProfileKeys[j]) {
      EarlierKeysAreNotInside(k, j);
    }
    TitleIsTheFirstContainedKey(key, k);
  }

  // ---------------------------------------------------------------------
  // Needs bars

  /** `Math.max(0, Math.min(100, ((val + 2) / 4) * 100))`. */
  function BarPercent(val: real): (p: real)
    ensures 0.0 <= p <= 100.0
    ensures -2.0 <= val <= 2.0 ==> p == 25.0 * (val + 2.0)
    ensures val <= -2.0 ==> p == 0.0
    ensures val >= 2.0 ==> p == 100.0
  {
    Max(0.0, Min(100.0, ((val + 2.0) / 4.0) * 100.0))
  }

  /** The bar never reverses the order of two scores. */
  lemma BarPercentIsMonotone(v1: real, v2: real)
    requires v1 <= v2
    ensures BarPercent(v1) <= BarPercent(v2)
  {
  }

  /** The four bars: label and height, in the order drawn. */
  function NeedsBars(scores: PaimaScores): (bars: seq<(string, real)>)
    ensures |bars| == 4
    ensures bars[0] == ("Autonomy", BarPercent(scores.Z_N_Auto))
    ensures bars[1] == ("Competence", BarPercent(scores.Z_N_Comp))
    ensures bars[2] == ("Relatedness", BarPercent(scores.Z_N_Rela))
    ensures bars[3] == ("Wellbeing", BarPercent(scores.Z_W_Wellbeing))
  {
    [("Autonomy", BarPercent(scores.Z_N_Auto)), ("Competence", BarPercent(scores.Z_N_Comp)),
     ("Relatedness", BarPercent(scores.Z_N_Rela)), ("Wellbeing", BarPercent(scores.Z_W_Wellbeing))]
  }

  /** For wellbeing answers on the nominal 1..5 scale every bar is drawn
      unclamped, at 25 times the score shifted by 2. */
  lemma NominalNeedsBarsAreUnclamped(data: RawData, sqrt: SquareRoot)
    requires AnswersWithin(data.wellbeingAnswers, 1.0, 5.0)
    ensures var s := PaimaScoresOf(data, sqrt);
      var bars := NeedsBars(s);
      && bars[0].1 == 25.0 * (s.Z_N_Auto + 2.0)
      && bars[1].1 == 25.0 * (s.Z_N_Comp + 2.0)
      && bars[2].1 == 25.0 * (s.Z_N_Rela + 2.0)
      && bars[3].1 == 25.0 * (s.Z_W_Wellbeing + 2.0)
  {
    WellbeingScoresWithin(data.wellbeingAnswers);
  }
}
