/** The stand-alone IAT component: its five-block configuration, the trial
    generator, the rule deciding whether a response is correct, the
    trial/stage cursor, the category labels and the result summary it hands
    on when the last block ends. */
module IatTest {
  import opened Common

  // ---------------------------------------------------------------------
  // Configuration

  datatype Category = SelfCat | OtherCat | SocialCat | IndividualCat

  /** The category's name as the component spells it. */
  function CategoryName(c: Category): string
  {
    match c
    case SelfCat => "SELF"
    case OtherCat => "OTHER"
    case SocialCat => "SOCIAL"
    case IndividualCat => "INDIVIDUAL"
  }

  /** The six stimulus words of each category. */
  function Words(c: Category): (ws: seq<string>)
    ensures |ws| == 6
  {
    match c
    case SelfCat => ["나의", "나는", "내 안의", "스스로", "나에게", "자신이"]
    case OtherCat => ["타인", "그들의", "외부", "다른 사람", "세상", "군중"]
    case SocialCat => ["책임감", "신중함", "친절함", "협조적", "계획적", "안정적인"]
    case IndividualCat => ["경쟁심", "충동적", "공격적", "냉정한", "창조적", "독립적"]
  }

  /** One block: its id, the categories sorted to each side, its trial count. */
  datatype StageConfig = StageConfig(id: nat, name: string, left: seq<Category>, right: seq<Category>, trials: nat)

  const Stages: seq<StageConfig> := [
    StageConfig(1, "Block 1", [SelfCat], [OtherCat], 20),
    StageConfig(2, "Block 2", [SocialCat], [IndividualCat], 20),
    StageConfig(3, "Block 3", [SelfCat, SocialCat], [OtherCat, IndividualCat], 40),
    StageConfig(4, "Block 4", [IndividualCat], [SocialCat], 20),
    StageConfig(5, "Block 5", [SelfCat, IndividualCat], [OtherCat, SocialCat], 40)]

  /** Block k sits at index k - 1, and the two combined blocks the summary
      compares are blocks 3 and 5 with 40 trials each. */
  lemma StageLayout()
    ensures |Stages| == 5
    ensures forall i :: 0 <= i < |Stages| ==> Stages[i].id == i + 1
    ensures Stages[2].trials == 40 && Stages[4].trials == 40
    ensures Stages[2].left == [SelfCat, SocialCat] && Stages[4].left == [SelfCat, IndividualCat]
  {
  }

  /** No block puts a category on both sides. */
  lemma SidesAreDisjoint(stageIndex: nat, c: Category)
    requires stageIndex < |Stages|
    ensures !(c in Stages[stageIndex].left && c in Stages[stageIndex].right)
  {
  }

  datatype Stimulus = Stimulus(text: string, category: Category)

  /** A stimulus `generateTrials` may produce for block `stage`: a category
      taken from one of its sides and a word of that category. */
  ghost predicate FitsStage(stage: StageConfig, s: Stimulus)
  {
    s.category in stage.left + stage.right && s.text in Words(s.category)
  }

  /** `generateTrials`: `trials` stimuli, each a category drawn from the
      block's two sides and a word drawn from that category. The random
      draws are modelled as arbitrary choices. */
  method GenerateTrials(stageIndex: nat) returns (stimuli: seq<Stimulus>)
    requires stageIndex < |Stages|
    ensures |stimuli| == Stages[stageIndex].trials
    ensures forall i :: 0 <= i < |stimuli| ==> FitsStage(Stages[stageIndex], stimuli[i])
  {
    var stage := Stages[stageIndex];
    var allCats := stage.left + stage.right;
    assert allCats[0] in allCats;
    stimuli := [];
    for i := 0 to stage.trials
      invariant |stimuli| == i
      invariant forall j :: 0 <= j < i ==> FitsStage(stage, stimuli[j])
    {
      var cat :| cat in allCats;
      var wordList := Words(cat);
      assert wordList[0] in wordList;
      var text :| text in wordList;
      stimuli := stimuli + [Stimulus(text, cat)];
    }
  }

  // ---------------------------------------------------------------------
  // Responses

  datatype Direction = Left | Right

  /** The correctness rule of `handleInput`: the chosen side lists the
      stimulus's category. */
  function IsCorrect(stage: StageConfig, s: Stimulus, dir: Direction): (ok: bool)
    ensures ok <==> (dir == Left && s.category in stage.left) || (dir == Right && s.category in stage.right)
  {
    match dir
    case Left => s.category in stage.left
    case Right => s.category in stage.right
  }

  /** For every generated stimulus exactly one of the two keys is correct. */
  lemma ExactlyOneSideCorrect(stageIndex: nat, s: Stimulus)
    requires stageIndex < |Stages|
    requires FitsStage(Stages[stageIndex], s)
    ensures IsCorrect(Stages[stageIndex], s, Left) != IsCorrect(Stages[stageIndex], s, Right)
  {
    SidesAreDisjoint(stageIndex, s.category);
  }

  // ---------------------------------------------------------------------
  // The trial cursor

  /** Which block and which trial within it the participant is on. */
  datatype Cursor = Cursor(stageIndex: nat, trialIndex: nat)

  /** `advanceTrial` for a block of `count` trials: next trial while there is
      one, otherwise the next block (the trial index is reset separately,
      when the new block's trials are generated). */
  function Advanced(c: Cursor, count: nat): (r: Cursor)
    ensures c.trialIndex + 1 < count ==> r == Cursor(c.stageIndex, c.trialIndex + 1)
    ensures c.trialIndex + 1 >= count ==> r == Cursor(c.stageIndex + 1, c.trialIndex)
  {
    if c.trialIndex + 1 < count then c.(trialIndex := c.trialIndex + 1)
    else c.(stageIndex := c.stageIndex + 1)
  }

  function AdvancedTimes(c: Cursor, count: nat, k: nat): Cursor
  {
    if k == 0 then c else Advanced(AdvancedTimes(c, count, k - 1), count)
  }

  /** A block of `count >= 1` trials entered at trial 0 takes exactly `count`
      responses: the first `count - 1` walk through its trials, the last one
      moves on to the next block. */
  lemma {:induction false} BlockTakesItsTrials(stageIndex: nat, count: nat, k: nat)
    requires 1 <= count && k < count
    ensures AdvancedTimes(Cursor(stageIndex, 0), count, k) == Cursor(stageIndex, k)
    ensures AdvancedTimes(Cursor(stageIndex, 0), count, k + 1)
         == if k + 1 < count then Cursor(stageIndex, k + 1) else Cursor(stageIndex + 1, k)
  {
    if k > 0 {
      BlockTakesItsTrials(stageIndex, count, k - 1);
    }
  }

  /** One record of the response log. */
  datatype TrialRecord = TrialRecord(stage: int, trial: int, word: string, category: string, rt: real, isError: bool)

  /** The component's mutable state: the block and trial cursor, the current
      block's stimuli, the response log and the completion flag. */
  class IatRun {
    var stageIndex: nat
    var trials: seq<Stimulus>
    var currentTrialIndex: nat
    var results: seq<TrialRecord>
    var completed: bool
    var summary: Option<IatSummary>

    function Position(): Cursor
      reads this
    {
      Cursor(stageIndex, currentTrialIndex)
    }

    constructor ()
      ensures stageIndex == 0 && trials == [] && currentTrialIndex == 0
      ensures results == [] && !completed && summary == None
    {
      stageIndex := 0;
      trials := [];
      currentTrialIndex := 0;
      results := [];
      completed := false;
      summary := None;
    }

    /** `advanceTrial`. */
    method AdvanceTrial()
      modifies this
      ensures Position() == Advanced(old(Position()), |old(trials)|)
      ensures trials == old(trials) && results == old(results)
      ensures completed == old(completed) && summary == old(summary)
    {
      if currentTrialIndex + 1 < |trials| {
        currentTrialIndex := currentTrialIndex + 1;
      } else {
        stageIndex := stageIndex + 1;
      }
    }

    /** The effect run whenever the block index changes: a fresh block of
        stimuli at trial 0, or, past the last block, completion with the
        summary of the log. */
    method EnterStage()
      modifies this
      ensures stageIndex == old(stageIndex) && results == old(results)
      ensures old(stageIndex) < |Stages| ==>
        && currentTrialIndex == 0 && |trials| == Stages[stageIndex].trials
        && (forall i :: 0 <= i < |trials| ==> FitsStage(Stages[stageIndex], trials[i]))
        && completed == old(completed) && summary == old(summary)
      ensures old(stageIndex) >= |Stages| ==>
        && completed && summary == Some(ProcessResults(results))
        && trials == old(trials) && currentTrialIndex == old(currentTrialIndex)
    {
      if stageIndex < |Stages| {
        trials := GenerateTrials(stageIndex);
        currentTrialIndex := 0;
      } else {
        completed := true;
        summary := Some(ProcessResults(results));
      }
    }
  }

  // ---------------------------------------------------------------------
  // Category labels

  /** `translateCatKO`. */
  function TranslateCatKO(cat: string): (r: string)
  {
    if cat == "SELF" then "나"
    else if cat == "OTHER" then "타인"
    else if cat == "SOCIAL" then "사회적"
    else if cat == "INDIVIDUAL" then "자율적"
    else cat
  }

  /** `translateCatEN`. */
  function TranslateCatEN(cat: string): (r: string)
  {
    if cat == "SELF" then "ME"
    else if cat == "OTHER" then "OTHERS"
    else if cat == "SOCIAL" then "SOCIAL"
    else if cat == "INDIVIDUAL" then "INDIVIDUAL"
    else cat
  }

  /** A string that names no category is passed through by both tables. */
  lemma UnknownCategoryPassesThrough(cat: string)
    requires forall c: Category :: cat != CategoryName(c)
    ensures TranslateCatKO(cat) == cat && TranslateCatEN(cat) == cat
  {
    assert cat != CategoryName(SelfCat) && cat != CategoryName(OtherCat);
    assert cat != CategoryName(SocialCat) && cat != CategoryName(IndividualCat);
  }

  /** The four categories get four different labels in each language. */
  lemma LabelsAreDistinct(c1: Category, c2: Category)
    requires c1 != c2
    ensures TranslateCatKO(CategoryName(c1)) != TranslateCatKO(CategoryName(c2))
    ensures TranslateCatEN(CategoryName(c1)) != TranslateCatEN(CategoryName(c2))
  {
  }

  // ---------------------------------------------------------------------
  // The result summary

  /** What `processResults` returns. */
  datatype IatSummary = IatSummary(
    raw: seq<TrialRecord>, selfSocialRT: real, selfIndividualRT: real, bias: string, diff: real)

  /** Reaction times of the correct responses of block `id`, in log order. */
  function BlockRts(results: seq<TrialRecord>, id: int): (rts: seq<real>)
    ensures |rts| <= |results|
  {
    if |results| == 0 then []
    else
      var last := results[|results| - 1];
      BlockRts(results[..|results| - 1], id) + (if last.stage == id && !last.isError then [last.rt] else [])
  }

  /** `sum / (n || 1)`: the mean, or 0 for an empty list. */
  function GuardedMean(xs: seq<real>): (m: real)
    ensures |xs| == 0 ==> m == 0.0
  {
    Sum(xs) / (if |xs| != 0 then |xs| as real else 1.0)
  }

  /** `processResults`. */
  function ProcessResults(results: seq<TrialRecord>): (s: IatSummary)
    ensures s.raw == results
    ensures s.selfSocialRT == GuardedMean(BlockRts(results, 3))
    ensures s.selfIndividualRT == GuardedMean(BlockRts(results, 5))
    ensures s.bias == "Social" <==> s.selfSocialRT < s.selfIndividualRT
    ensures s.bias == "Social" || s.bias == "Individual"
    ensures s.diff == s.selfIndividualRT - s.selfSocialRT
    ensures s.diff > 0.0 <==> s.bias == "Social"
  {
    var avg3 := GuardedMean(BlockRts(results, 3));
    var avg5 := GuardedMean(BlockRts(results, 5));
    IatSummary(results, avg3, avg5, if avg3 < avg5 then "Social" else "Individual", avg5 - avg3)
  }

  /** A correct response of the block is kept: appending it appends its
      reaction time; any other record appends nothing. */
  lemma BlockRtsKeepsCorrectResponses(results: seq<TrialRecord>, r: TrialRecord, id: int)
    ensures r.stage == id && !r.isError ==> BlockRts(results + [r], id) == BlockRts(results, id) + [r.rt]
    ensures r.stage != id || r.isError ==> BlockRts(results + [r], id) == BlockRts(results, id)
  {
    assert (results + [r])[..|results + [r]| - 1] == results;
  }

  /** Every kept reaction time comes from a correct response of that block. */
  lemma {:induction false} BlockRtsComeFromTheBlock(results: seq<TrialRecord>, id: int, x: real)
    requires x in BlockRts(results, id)
    ensures exists i :: 0 <= i < |results| && results[i].stage == id && !results[i].isError && results[i].rt == x
  {
    var init := results[..|results| - 1];
    var last := results[|results| - 1];
    if x in BlockRts(init, id) {
      BlockRtsComeFromTheBlock(init, id, x);
      var i :| 0 <= i < |init| && init[i].stage == id && !init[i].isError && init[i].rt == x;
      assert results[i] == init[i];
    } else {
      assert results[|results| - 1] == last;
    }
  }

  /** Errors and records of other blocks never reach the averages: appending
      them leaves the filtered list as it was. */
  lemma {:induction false} IgnoredRecordsLeaveBlockAlone(results: seq<TrialRecord>, extra: seq<TrialRecord>, id: int)
    requires forall i :: 0 <= i < |extra| ==> extra[i].isError || extra[i].stage != id
    ensures BlockRts(results + extra, id) == BlockRts(results, id)
    decreases |extra|
  {
    if |extra| > 0 {
      var init := extra[..|extra| - 1];
      assert (results + extra)[..|results + extra| - 1] == results + init;
      IgnoredRecordsLeaveBlockAlone(results, init, id);
    } else {
      assert results + extra == results;
    }
  }

  /** Hence appending such records to the log changes neither average, the
      bias nor the difference. */
  lemma IgnoredRecordsLeaveSummaryAlone(results: seq<TrialRecord>, extra: seq<TrialRecord>)
    requires forall i :: 0 <= i < |extra| ==> extra[i].isError || (extra[i].stage != 3 && extra[i].stage != 5)
    ensures var s1, s2 := ProcessResults(results), ProcessResults(results + extra);
      s1.(raw := s2.raw) == s2
  {
    IgnoredRecordsLeaveBlockAlone(results, extra, 3);
    IgnoredRecordsLeaveBlockAlone(results, extra, 5);
  }

  /** A non-empty list whose values are all at least `lo` has a guarded mean
      of at least `lo`. */
  lemma GuardedMeanAtLeast(xs: seq<real>, lo: real)
    requires |xs| > 0
    requires forall i :: 0 <= i < |xs| ==> lo <= xs[i]
    ensures lo <= GuardedMean(xs)
  {
    var n, m := |xs| as real, GuardedMean(xs);
    SumAtLeast(xs, lo);
    assert m * n == Sum(xs);
    if m < lo {
      assert m * n < lo * n;
    }
  }

  /** A list whose values are all at most `hi` has a guarded mean of at most
      `hi`, or 0 when it is empty. */
  lemma GuardedMeanAtMost(xs: seq<real>, hi: real)
    requires forall i :: 0 <= i < |xs| ==> xs[i] <= hi
    ensures GuardedMean(xs) <= hi || (|xs| == 0 && GuardedMean(xs) == 0.0)
  {
    if |xs| > 0 {
      var n, m := |xs| as real, GuardedMean(xs);
      SumAtMost(xs, hi);
      assert m * n == Sum(xs);
      if m > hi {
        assert m * n > hi * n;
      }
    }
  }

  /** If every kept block-3 time is below every kept block-5 time, with both
      blocks answered, the summary reports a social bias. */
  lemma FasterSocialBlockMeansSocialBias(results: seq<TrialRecord>, c: real)
    requires |BlockRts(results, 3)| > 0 && |BlockRts(results, 5)| > 0
    requires forall i :: 0 <= i < |BlockRts(results, 3)| ==> BlockRts(results, 3)[i] < c
    requires forall i :: 0 <= i < |BlockRts(results, 5)| ==> c <= BlockRts(results, 5)[i]
    ensures ProcessResults(results).bias == "Social"
  {
    var b3, b5 := BlockRts(results, 3), BlockRts(results, 5);
    var top := b3[0];
    for k := 1 to |b3|
      invariant top < c && forall i :: 0 <= i < k ==> b3[i] <= top
    {
      if b3[k] > top {
        top := b3[k];
      }
    }
    GuardedMeanAtMost(b3, top);
    GuardedMeanAtLeast(b5, c);
  }
}
