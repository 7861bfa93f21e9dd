/** The project detail page (`components/project-detail.tsx`): it keeps the project in a state slot,
    replaces its stage when the progress bar asks, and shows the panel of the current stage. */
module ProjectDetail {
  import opened Util
  import opened ProjectTypes
  import opened ProgressBar

  /** The content panel shown on the right of the page. */
  datatype Panel = DesignPanel | ProductionPanel | ReviewPanel | CompletionPanel | NoStageMessage

  /** `renderStageContent()`: one panel per stage, and the "상태 정보가 없습니다." message otherwise. */
  function StagePanel(stage: Option<Stage>): Panel
  {
    match stage
    case Some(Design) => DesignPanel
    case Some(Production) => ProductionPanel
    case Some(FinalReview) => ReviewPanel
    case Some(Complete) => CompletionPanel
    case None => NoStageMessage
  }

  /** Each stage has its own panel, distinct from every other stage's and from the fallback message,
      which is shown exactly when there is no stage. */
  lemma PanelsDistinct(s: Option<Stage>, t: Option<Stage>)
    ensures StagePanel(s) == StagePanel(t) ==> s == t
    ensures StagePanel(s) == NoStageMessage <==> s.None?
  {
  }

  class DetailPage {
    /** The `project` state slot. */
    var project: Project

    constructor (initial: Project)
      ensures project == initial
    {
      project := initial;
    }

    /** `handleStageChange(newStage)`: `setProject({ ...project, stage: newStage })`. Every other field
        keeps its value, and no adjacency check is made here. */
    method HandleStageChange(newStage: Stage)
      modifies this
      ensures project == old(project).(stage := Some(newStage))
    {
      project := project.(stage := Some(newStage));
    }

    /** A click on a stage button of the progress bar the page renders: a disabled button ignores the
        click, an enabled one calls `handleStageChange`. */
    method ClickStageButton(target: Stage) returns (changed: bool)
      modifies this
      ensures changed <==> !ButtonDisabled(old(project.stage), target)
      ensures project == if changed then old(project).(stage := Some(target)) else old(project)
    {
      changed := !ButtonDisabled(project.stage, target);
      if changed {
        HandleStageChange(target);
      }
    }

    /** The panel on screen. */
    function Shown(): (p: Panel)
      reads this
      ensures p == NoStageMessage <==> project.stage.None?
    {
      StagePanel(project.stage)
    }
  }

  /** Through the buttons, a project with a stage moves at most one step in the stage order; the
      handler itself would accept any stage, so the bar's disabled buttons are the only guard. */
  lemma ClickMovesAtMostOneStep(s: Stage, target: Stage)
    requires !ButtonDisabled(Some(s), target)
    ensures -1 <= Index(target) - Index(s) <= 1
  {
    ClickableIffNear(s, target);
  }

  /** Walking the bar forward one step at a time visits 25, 50, 75 and 100 percent, and from 완료 the
      only way out is back to 최종 검토. */
  method WalkForward(p: Project) returns (progress: seq<int>, page: DetailPage)
    requires p.stage == Some(Design)
    ensures progress == [25, 50, 75, 100]
    ensures page.project == p.(stage := Some(Complete))
    ensures page.Shown() == CompletionPanel
    ensures forall t :: !ButtonDisabled(Some(Complete), t) ==> t == Complete || t == FinalReview
  {
    page := new DetailPage(p);
    progress := [Progress(page.project.stage)];
    var ok := page.ClickStageButton(Production);
    progress := progress + [Progress(page.project.stage)];
    ok := page.ClickStageButton(FinalReview);
    progress := progress + [Progress(page.project.stage)];
    ok := page.ClickStageButton(Complete);
    progress := progress + [Progress(page.project.stage)];
    forall t | !ButtonDisabled(Some(Complete), t) ensures t == Complete || t == FinalReview {
      ClickableIffNear(Complete, t);
    }
  }
}
