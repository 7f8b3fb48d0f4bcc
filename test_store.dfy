/** The session store: one mutable record of the test in progress, whose
    actions overwrite single fields, insert answers into keyed dictionaries,
    accumulate gaze times and bump a saturating progress counter. The IAT
    results and the analysis result are opaque values of the caller's types
    `R` and `T`; `None` stands for `null`. */
module TestStore {
  import opened Common
  import opened Scoring

  /** The stages of the test, in the order the app walks them. */
  datatype Step = Intro | Guide | Iat | Implicit | Explicit | Wellbeing | Analyzing | Result

  /** Which gaze accumulator `updateStareData` adds to. */
  datatype GazeTarget = Monster | Forest

  /** The whole state of the store as one value. */
  datatype Session<R, T> = Session(
    currentStep: Step,
    iatResults: Option<R>,
    implicitAnswers: map<string, real>,
    explicitGoal: string,
    explicitAnswers: map<string, real>,
    wellbeingAnswers: map<string, real>,
    stareData: StareData,
    walkingProgress: int,
    visualStage: int,
    testResult: Option<T>)

  /** The state the store is created with and `resetTest` restores. */
  function InitialSession<R, T>(): (s: Session<R, T>)
    ensures s.currentStep == Intro && s.iatResults == None && s.testResult == None
    ensures s.implicitAnswers == map[] && s.explicitAnswers == map[] && s.wellbeingAnswers == map[]
    ensures s.explicitGoal == ""
    ensures s.stareData == StareData(0.0, 0.0)
    ensures s.walkingProgress == 0 && s.visualStage == 1
  {
    Session(Intro, None, map[], "", map[], map[], StareData(0.0, 0.0), 0, 1, None)
  }

  // ---------------------------------------------------------------------
  // Gaze accumulation

  /** `updateStareData`'s new record: `ms` added to the chosen accumulator. */
  function AddGaze(g: StareData, target: GazeTarget, ms: real): (r: StareData)
    ensures target == Monster ==> r.monsterGaze == g.monsterGaze + ms && r.forestGaze == g.forestGaze
    ensures target == Forest ==> r.forestGaze == g.forestGaze + ms && r.monsterGaze == g.monsterGaze
  {
    match target
    case Monster => g.(monsterGaze := g.monsterGaze + ms)
    case Forest => g.(forestGaze := g.forestGaze + ms)
  }

  /** Gaze totals after a sequence of updates, applied in order. */
  function GazeAfter(g: StareData, updates: seq<(GazeTarget, real)>): StareData
  {
    if |updates| == 0 then g
    else AddGaze(GazeAfter(g, updates[..|updates| - 1]), updates[|updates| - 1].0, updates[|updates| - 1].1)
  }

  /** With non-negative durations, both accumulators stay non-negative however
      many updates arrive, and neither ever shrinks. */
  lemma {:induction false} GazeStaysNonNegative(g: StareData, updates: seq<(GazeTarget, real)>)
    requires 0.0 <= g.monsterGaze && 0.0 <= g.forestGaze
    requires forall i :: 0 <= i < |updates| ==> 0.0 <= updates[i].1
    ensures var r := GazeAfter(g, updates);
      && g.monsterGaze <= r.monsterGaze && g.forestGaze <= r.forestGaze
  {
    if |updates| > 0 {
      GazeStaysNonNegative(g, updates[..|updates| - 1]);
    }
  }

  /** The two accumulators together grow by exactly the sum of the durations. */
  lemma {:induction false} GazeTotalIsSumOfDurations(g: StareData, updates: seq<(GazeTarget, real)>)
    ensures var r := GazeAfter(g, updates);
      r.monsterGaze + r.forestGaze == g.monsterGaze + g.forestGaze + Sum(Durations(updates))
  {
    if |updates| > 0 {
      GazeTotalIsSumOfDurations(g, updates[..|updates| - 1]);
      assert Durations(updates[..|updates| - 1]) == Durations(updates)[..|updates| - 1];
    }
  }

  function Durations(updates: seq<(GazeTarget, real)>): (d: seq<real>)
    ensures |d| == |updates|
    ensures forall i :: 0 <= i < |d| ==> d[i] == updates[i].1
  {
    seq(|updates|, i requires 0 <= i < |updates| => updates[i].1)
  }

  // ---------------------------------------------------------------------
  // Walking progress

  /** `Math.min(100, p + 5)`. */
  function Bumped(p: int): (r: int)
    ensures r <= 100
    ensures p <= 95 ==> r == p + 5
    ensures p >= 95 ==> r == 100
  {
    if p + 5 <= 100 then p + 5 else 100
  }

  /** Progress never goes down from a value the store can hold, and stays at
      100 once there. */
  lemma BumpedNeverDecreases(p: int)
    requires p <= 100
    ensures p <= Bumped(p)
    ensures p == 100 ==> Bumped(p) == 100
  {
  }

  /** `n` successive increments. */
  function BumpedTimes(p: int, n: nat): int
  {
    if n == 0 then p else Bumped(BumpedTimes(p, n - 1))
  }

  /** `n` increments from any value up to 100 give `min(100, p + 5n)`. */
  lemma {:induction false} BumpedTimesIsCapped(p: int, n: nat)
    requires p <= 100
    ensures BumpedTimes(p, n) == if p + 5 * n <= 100 then p + 5 * n else 100
  {
    if n > 0 {
      BumpedTimesIsCapped(p, n - 1);
    }
  }

  /** Twenty increments take a fresh session from 0 to 100, and nineteen do not. */
  lemma TwentyStepsReachTheEnd()
    ensures BumpedTimes(0, 20) == 100
    ensures BumpedTimes(0, 19) == 95
  {
    BumpedTimesIsCapped(0, 20);
    BumpedTimesIsCapped(0, 19);
  }

  // ---------------------------------------------------------------------
  // The store

  class Store<R, T> {
    var currentStep: Step
    var iatResults: Option<R>
    var implicitAnswers: map<string, real>
    var explicitGoal: string
    var explicitAnswers: map<string, real>
    var wellbeingAnswers: map<string, real>
    var stareData: StareData
    var walkingProgress: int
    var visualStage: int
    var testResult: Option<T>

    /** The store's current state as one value. */
    function Snapshot(): Session<R, T>
      reads this
    {
      Session(currentStep, iatResults, implicitAnswers, explicitGoal, explicitAnswers,
              wellbeingAnswers, stareData, walkingProgress, visualStage, testResult)
    }

    constructor ()
      ensures Snapshot() == InitialSession()
    {
      currentStep := Intro;
      iatResults := None;
      implicitAnswers := map[];
      explicitGoal := "";
      explicitAnswers := map[];
      wellbeingAnswers := map[];
      stareData := StareData(0.0, 0.0);
      walkingProgress := 0;
      visualStage := 1;
      testResult := None;
    }

    method SetStep(step: Step)
      modifies this
      ensures Snapshot() == old(Snapshot()).(currentStep := step)
    {
      currentStep := step;
    }

    method SetIatResults(results: Option<R>)
      modifies this
      ensures Snapshot() == old(Snapshot()).(iatResults := results)
    {
      iatResults := results;
    }

    /** Records one answer; a repeated id overwrites the earlier answer and
        every other key keeps its value. */
    method SetImplicitAnswer(id: string, value: real)
      modifies this
      ensures Snapshot() == old(Snapshot()).(implicitAnswers := old(implicitAnswers)[id := value])
      ensures implicitAnswers[id] == value
      ensures forall k :: k != id ==> (k in implicitAnswers <==> k in old(implicitAnswers))
      ensures forall k :: k != id && k in implicitAnswers ==> implicitAnswers[k] == old(implicitAnswers)[k]
    {
      implicitAnswers := implicitAnswers[id := value];
    }

    method SetExplicitGoal(goal: string)
      modifies this
      ensures Snapshot() == old(Snapshot()).(explicitGoal := goal)
    {
      explicitGoal := goal;
    }

    method SetExplicitAnswer(id: string, value: real)
      modifies this
      ensures Snapshot() == old(Snapshot()).(explicitAnswers := old(explicitAnswers)[id := value])
      ensures explicitAnswers[id] == value
      ensures forall k :: k != id ==> (k in explicitAnswers <==> k in old(explicitAnswers))
      ensures forall k :: k != id && k in explicitAnswers ==> explicitAnswers[k] == old(explicitAnswers)[k]
    {
      explicitAnswers := explicitAnswers[id := value];
    }

    method SetWellbeingAnswer(id: string, value: real)
      modifies this
      ensures Snapshot() == old(Snapshot()).(wellbeingAnswers := old(wellbeingAnswers)[id := value])
      ensures wellbeingAnswers[id] == value
      ensures forall k :: k != id ==> (k in wellbeingAnswers <==> k in old(wellbeingAnswers))
      ensures forall k :: k != id && k in wellbeingAnswers ==> wellbeingAnswers[k] == old(wellbeingAnswers)[k]
    {
      wellbeingAnswers := wellbeingAnswers[id := value];
    }

    /** Adds `ms` to the accumulator `target` names. */
    method UpdateStareData(target: GazeTarget, ms: real)
      modifies this
      ensures Snapshot() == old(Snapshot()).(stareData := AddGaze(old(stareData), target, ms))
    {
      if target == Monster {
        stareData := stareData.(monsterGaze := stareData.monsterGaze + ms);
      } else {
        stareData := stareData.(forestGaze := stareData.forestGaze + ms);
      }
    }

    method IncrementWalkingProgress()
      modifies this
      ensures Snapshot() == old(Snapshot()).(walkingProgress := Bumped(old(walkingProgress)))
    {
      walkingProgress := Bumped(walkingProgress);
    }

    method SetVisualStage(stage: int)
      modifies this
      ensures Snapshot() == old(Snapshot()).(visualStage := stage)
    {
      visualStage := stage;
    }

    method SetTestResult(result: Option<T>)
      modifies this
      ensures Snapshot() == old(Snapshot()).(testResult := result)
    {
      testResult := result;
    }

    /** Restores every field to its initial value, whatever the state; so a
        second reset changes nothing. */
    method ResetTest()
      modifies this
      ensures Snapshot() == InitialSession()
    {
      currentStep := Intro;
      iatResults := None;
      implicitAnswers := map[];
      explicitGoal := "";
      explicitAnswers := map[];
      wellbeingAnswers := map[];
      stareData := StareData(0.0, 0.0);
      walkingProgress := 0;
      visualStage := 1;
      testResult := None;
    }
  }
}
