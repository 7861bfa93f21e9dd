/** The stage progress bar of a project (`components/project-progress-bar.tsx`): which stage buttons
    are enabled, the progress percentage, which steps are highlighted and which buttons are
    disabled. Everything here is derived from the current stage; the bar holds no state. */
module ProgressBar {
  import opened Util
  import opened ProjectTypes

  /** `stages`: the four stages in display order. */
  const Stages: seq<Stage> := [Design, Production, FinalReview, Complete]

  /** `stages.indexOf(currentStage)`: the position of the stage, or -1 when there is none. */
  function StageIndex(current: Option<Stage>): (i: int)
    ensures -1 <= i < |Stages|
    ensures i == -1 <==> current.None?
    ensures current.Some? ==> Stages[i] == current.value
  {
    match current
    case None => -1
    case Some(Design) => 0
    case Some(Production) => 1
    case Some(FinalReview) => 2
    case Some(Complete) => 3
  }

  /** `getEnabledButtons()`: the stages a button may move to from `current`. */
  function EnabledTargets(current: Option<Stage>): seq<Stage>
  {
    match current
    case Some(Design) => [Production]
    case Some(Production) => [Design, FinalReview]
    case Some(FinalReview) => [Production, Complete]
    case Some(Complete) => [FinalReview]
    case None => []
  }

  /** Position of a stage that is known to be present. */
  function Index(s: Stage): (i: nat)
    ensures i < |Stages| && Stages[i] == s
  {
    StageIndex(Some(s))
  }

  /** The switch enables exactly the immediate neighbours in the stage order. */
  lemma EnabledIffAdjacent(s: Stage, t: Stage)
    ensures t in EnabledTargets(Some(s)) <==> Index(t) - Index(s) == 1 || Index(s) - Index(t) == 1
  {
  }

  /** Enablement is symmetric and never enables the current stage; with no stage nothing is enabled. */
  lemma EnabledSymmetric(s: Stage, t: Stage)
    ensures t in EnabledTargets(Some(s)) <==> s in EnabledTargets(Some(t))
    ensures s !in EnabledTargets(Some(s))
    ensures EnabledTargets(None) == []
  {
    EnabledIffAdjacent(s, t);
    EnabledIffAdjacent(t, s);
    EnabledIffAdjacent(s, s);
  }

  /** `((currentIndex + 1) / stages.length) * 100`. The division is exact on the four stages, so the
      percentage is an integer: 0 with no stage, then 25 per stage. */
  function Progress(current: Option<Stage>): (p: int)
    ensures p * |Stages| == (StageIndex(current) + 1) * 100
    ensures 0 <= p <= 100
  {
    (StageIndex(current) + 1) * 100 / |Stages|
  }

  /** The four stages show exactly 25, 50, 75 and 100 percent, strictly increasing along the order. */
  lemma ProgressStrictlyIncreasing(s: Stage, t: Stage)
    ensures Progress(Some(s)) == 25 * (Index(s) + 1)
    ensures Index(s) < Index(t) ==> Progress(Some(s)) < Progress(Some(t))
    ensures Progress(Some(s)) == 100 <==> s == Complete
  {
  }

  /** Step `index` is drawn highlighted (`index <= currentIndex`). */
  predicate Highlighted(current: Option<Stage>, index: int)
  {
    index <= StageIndex(current)
  }

  /** The highlight flag of each of the four steps. */
  function HighlightedSteps(current: Option<Stage>): (r: seq<bool>)
    ensures |r| == |Stages|
    ensures forall i :: 0 <= i < |r| ==> (r[i] <==> Highlighted(current, i))
  {
    seq(|Stages|, i requires 0 <= i < |Stages| => Highlighted(current, i))
  }

  /** Exactly `currentIndex + 1` steps are highlighted, and they are the first ones. */
  lemma HighlightCount(current: Option<Stage>)
    ensures Count(HighlightedSteps(current), (b: bool) => b) == StageIndex(current) + 1
  {
    var r := HighlightedSteps(current);
    assert r == [0 <= StageIndex(current), 1 <= StageIndex(current), 2 <= StageIndex(current), 3 <= StageIndex(current)];
    assert r[1..] == [r[1], r[2], r[3]] && r[2..] == [r[2], r[3]] && r[3..] == [r[3]];
    assert r[1..][1..] == r[2..] && r[2..][1..] == r[3..] && r[3..][1..] == [];
  }

  /** `disabled={!enabledButtons.includes(stage) && stage !== currentStage}`. */
  predicate ButtonDisabled(current: Option<Stage>, stage: Stage)
  {
    stage !in EnabledTargets(current) && current != Some(stage)
  }

  /** A stage button can be clicked exactly when it is the current stage or one step away from it. */
  lemma ClickableIffNear(s: Stage, t: Stage)
    ensures !ButtonDisabled(Some(s), t) <==> -1 <= Index(t) - Index(s) <= 1
  {
    EnabledIffAdjacent(s, t);
  }
}
