/** The side panel: which step it shows, which editor it mounts for it, and
    the status buttons, the auto-promoting context field and the close button. */
module ConfigPanel {
  import opened Wrappers
  import opened WorkflowStore

  datatype Editor =
    | IdeaIntakeEditor | AssumptionEditor | IcpEditor | ValuePropositionEditor
    | MvpScopeEditor | SuccessMetricsEditor | RoadmapEditor | DecisionEditor
    | GenericEditor

  /** The chain of id comparisons that picks the editor. */
  function EditorFor(id: string): (r: Editor)
    ensures r == GenericEditor <==> id !in StepIds
  {
    if id == "1" then IdeaIntakeEditor
    else if id == "2" then AssumptionEditor
    else if id == "3" then IcpEditor
    else if id == "4" then ValuePropositionEditor
    else if id == "5" then MvpScopeEditor
    else if id == "6" then SuccessMetricsEditor
    else if id == "7" then RoadmapEditor
    else if id == "8" then DecisionEditor
    else GenericEditor
  }

  /** Ids '1'..'8' each get an editor of their own. */
  lemma EditorsDistinct(a: string, b: string)
    requires a in StepIds && b in StepIds && a != b
    ensures EditorFor(a) != EditorFor(b)
  {
  }

  /** What the panel renders: the selected step, its 1-based position in the
      pipeline header and its editor. */
  datatype PanelView = PanelView(step: AgentStep, position: nat, editor: Editor)

  function View(steps: seq<AgentStep>, selected: Option<string>): (r: Option<PanelView>)
    ensures r.None? <==> FindStep(steps, selected).None?
    ensures r.Some? ==> r.value.step == FindStep(steps, selected).value &&
                        1 <= r.value.position <= |steps| &&
                        steps[r.value.position - 1] == r.value.step &&
                        r.value.position == FindIndex(steps, selected.value).value + 1 &&
                        r.value.editor == EditorFor(r.value.step.id)
  {
    match FindStep(steps, selected)
    case None => None
    case Some(step) =>
      var index := FindIndex(steps, selected.value).value;
      Some(PanelView(step, index + 1, EditorFor(step.id)))
  }

  /** Typing in the generic editor's context field moves `not-started` to
      `in-progress` and leaves every other status alone. */
  function Promoted(status: AgentStatus): (r: AgentStatus)
    ensures status == NotStarted ==> r == InProgress
    ensures status != NotStarted ==> r == status
  {
    if status == NotStarted then InProgress else status
  }

  /** With distinct ids, a status change on one step rewrites that step's
      status and nothing else; any status can follow any other. */
  lemma StatusChangeOnlyThatStep(steps: seq<AgentStep>, k: nat, status: AgentStatus)
    requires DistinctIds(steps) && k < |steps|
    ensures UpdateSteps(steps, steps[k].id, StatusPatch(status)) == steps[k := steps[k].(status := status)]
  {
    var r := UpdateSteps(steps, steps[k].id, StatusPatch(status));
    assert forall j :: 0 <= j < |steps| ==> r[j] == steps[k := steps[k].(status := status)][j];
  }

  /** `handleStatusChange`, behind both status buttons. */
  method HandleStatusChange(store: Store, status: AgentStatus)
    requires View(store.steps, store.selectedStepId).Some?
    modifies store
    ensures store.steps == UpdateSteps(old(store.steps), old(FindStep(store.steps, store.selectedStepId)).value.id,
                                       StatusPatch(status))
    ensures store.selectedStepId == old(store.selectedStepId)
  {
    var selectedStep := FindStep(store.steps, store.selectedStepId).value;
    store.UpdateStep(selectedStep.id, StatusPatch(status));
  }

  /** The generic editor's `onChange`: promote only a step that has not started. */
  method HandleContextInput(store: Store)
    requires View(store.steps, store.selectedStepId).Some?
    requires View(store.steps, store.selectedStepId).value.editor == GenericEditor
    modifies store
    ensures var step := old(FindStep(store.steps, store.selectedStepId)).value;
            store.steps == if step.status == NotStarted
                           then UpdateSteps(old(store.steps), step.id, StatusPatch(Promoted(step.status)))
                           else old(store.steps)
    ensures store.selectedStepId == old(store.selectedStepId)
  {
    var selectedStep := FindStep(store.steps, store.selectedStepId).value;
    if selectedStep.status == NotStarted {
      HandleStatusChange(store, InProgress);
    }
  }

  /** The close button deselects; the steps are untouched. */
  method Close(store: Store)
    modifies store
    ensures store.selectedStepId == None
    ensures store.steps == old(store.steps)
  {
    store.SelectStep(None);
  }
}
