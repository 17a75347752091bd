/** The process-wide workflow store: the fixed, ordered list of agent steps,
    their statuses and accumulated data, and the selected step. */
module WorkflowStore {
  import opened Wrappers
  import opened JsValues

  datatype AgentStatus = NotStarted | InProgress | Complete

  type StepData = map<string, JsValue>

  datatype AgentStep = AgentStep(
    id: string,
    name: string,
    description: string,
    status: AgentStatus,
    data: Option<StepData>)

  /** `Partial<AgentStep>`: `None` marks a field the partial does not carry. */
  datatype StepPatch = StepPatch(
    id: Option<string>,
    name: Option<string>,
    description: Option<string>,
    status: Option<AgentStatus>,
    data: Option<StepData>)

  function StatusPatch(s: AgentStatus): StepPatch {
    StepPatch(None, None, None, Some(s), None)
  }

  function DataPatch(d: StepData): StepPatch {
    StepPatch(None, None, None, None, Some(d))
  }

  /** A patch that leaves the registry's identity fields alone. */
  predicate KeepsIdentity(p: StepPatch) {
    p.id.None? && p.name.None? && p.description.None?
  }

  const FixedAgents: seq<AgentStep> := [
    AgentStep("1", "Idea Intake Agent", "What is the core insight? Why you? Why now?", NotStarted, None),
    AgentStep("2", "Assumption Agent", "What must be true for this to work? Where will it fail?", NotStarted, None),
    AgentStep("3", "ICP (Ideal Customer Profile) Agent", "Who is desperate for this? Be specific.", NotStarted, None),
    AgentStep("4", "Value Proposition Agent", "Why is your solution 10x better than the status quo?", NotStarted, None),
    AgentStep("5", "MVP Scope Agent", "What is the smallest thing you can build to learn?", NotStarted, None),
    AgentStep("6", "Success Metrics Agent", "How will you know if it's working? One metric that matters.", NotStarted, None),
    AgentStep("7", "Roadmap Agent", "What are the first 3 milestones? Kill features, don't add them.", NotStarted, None),
    AgentStep("8", "Decision & Risk Agent", "Go or No-Go. Are you ready to commit 5 years?", NotStarted, None)
  ]

  const StepIds: seq<string> := ["1", "2", "3", "4", "5", "6", "7", "8"]

  predicate DistinctIds(steps: seq<AgentStep>) {
    forall i, j :: 0 <= i < j < |steps| ==> steps[i].id != steps[j].id
  }

  /** The registry's eight steps: ids '1'..'8' in order, distinct, all not started, without data. */
  lemma FixedAgentsShape()
    ensures |FixedAgents| == 8 && DistinctIds(FixedAgents)
    ensures forall i :: 0 <= i < 8 ==> FixedAgents[i].id == StepIds[i]
    ensures forall i :: 0 <= i < 8 ==> FixedAgents[i].status == NotStarted && FixedAgents[i].data.None?
  {
  }

  /** `{ ...step, ...patch }`: every field the patch carries overwrites, every
      other field keeps its value; `data` is replaced as a whole. */
  function Merge(step: AgentStep, patch: StepPatch): (r: AgentStep)
    ensures r.id == (if patch.id.Some? then patch.id.value else step.id)
    ensures r.name == (if patch.name.Some? then patch.name.value else step.name)
    ensures r.description == (if patch.description.Some? then patch.description.value else step.description)
    ensures r.status == (if patch.status.Some? then patch.status.value else step.status)
    ensures r.data == (if patch.data.Some? then patch.data else step.data)
  {
    AgentStep(
      if patch.id.Some? then patch.id.value else step.id,
      if patch.name.Some? then patch.name.value else step.name,
      if patch.description.Some? then patch.description.value else step.description,
      if patch.status.Some? then patch.status.value else step.status,
      if patch.data.Some? then patch.data else step.data)
  }

  /** `steps.map(step => step.id === id ? { ...step, ...patch } : step)`. */
  function UpdateSteps(steps: seq<AgentStep>, id: string, patch: StepPatch): (r: seq<AgentStep>)
    ensures |r| == |steps|
    ensures forall i :: 0 <= i < |steps| && steps[i].id != id ==> r[i] == steps[i]
    ensures forall i :: 0 <= i < |steps| && steps[i].id == id ==> r[i] == Merge(steps[i], patch)
  {
    if steps == [] then []
    else [if steps[0].id == id then Merge(steps[0], patch) else steps[0]]
         + UpdateSteps(steps[1..], id, patch)
  }

  /** An id that matches no step leaves the list equal to before. */
  lemma UpdateUnknownId(steps: seq<AgentStep>, id: string, patch: StepPatch)
    requires forall i :: 0 <= i < |steps| ==> steps[i].id != id
    ensures UpdateSteps(steps, id, patch) == steps
  {
  }

  /** A patch without id, name or description keeps every step's identity and
      position, so the list still has the registry's shape and distinct ids. */
  lemma UpdateKeepsIdentity(steps: seq<AgentStep>, id: string, patch: StepPatch)
    requires KeepsIdentity(patch)
    ensures var r := UpdateSteps(steps, id, patch);
            forall i :: 0 <= i < |steps| ==>
              r[i].id == steps[i].id && r[i].name == steps[i].name &&
              r[i].description == steps[i].description
    ensures DistinctIds(steps) ==> DistinctIds(UpdateSteps(steps, id, patch))
  {
  }

  /** Applying the same update twice gives what applying it once gives. */
  lemma {:induction false} UpdateIdempotent(steps: seq<AgentStep>, id: string, patch: StepPatch)
    ensures UpdateSteps(UpdateSteps(steps, id, patch), id, patch) == UpdateSteps(steps, id, patch)
  {
    if steps != [] {
      UpdateIdempotent(steps[1..], id, patch);
      var once := UpdateSteps(steps, id, patch);
      assert once[1..] == UpdateSteps(steps[1..], id, patch);
    }
  }

  /** The first step whose id is `id`, in list order (`steps.find`). */
  function FindIndex(steps: seq<AgentStep>, id: string): (r: Option<nat>)
    ensures r.Some? ==> r.value < |steps| && steps[r.value].id == id &&
                        forall j :: 0 <= j < r.value ==> steps[j].id != id
    ensures r.None? ==> forall j :: 0 <= j < |steps| ==> steps[j].id != id
  {
    if steps == [] then None
    else if steps[0].id == id then Some(0)
    else match FindIndex(steps[1..], id)
      case None => None
      case Some(k) => Some(k + 1)
  }

  /** `steps.find(s => s.id === selected)`; a null selection finds nothing. */
  function FindStep(steps: seq<AgentStep>, selected: Option<string>): (r: Option<AgentStep>)
    ensures r.Some? <==> selected.Some? && exists i :: 0 <= i < |steps| && steps[i].id == selected.value
    ensures r.Some? ==> r.value in steps && r.value.id == selected.value
    ensures r.Some? ==> FindIndex(steps, selected.value).Some? &&
                        r.value == steps[FindIndex(steps, selected.value).value]
  {
    if selected.None? then None
    else match FindIndex(steps, selected.value)
      case None => None
      case Some(k) => Some(steps[k])
  }

  class Store {
    var steps: seq<AgentStep>
    var selectedStepId: Option<string>

    /** The store as created at start-up: the registry, nothing selected. */
    constructor ()
      ensures steps == FixedAgents && selectedStepId == None
    {
      steps := FixedAgents;
      selectedStepId := None;
    }

    /** `selectStep`: any id, null or unknown included, is taken as it is. */
    method SelectStep(id: Option<string>)
      modifies this
      ensures selectedStepId == id
      ensures steps == old(steps)
    {
      selectedStepId := id;
    }

    /** `updateStep`: replaces `steps` by its shallow-merged copy. */
    method UpdateStep(id: string, patch: StepPatch)
      modifies this
      ensures steps == UpdateSteps(old(steps), id, patch)
      ensures selectedStepId == old(selectedStepId)
    {
      steps := UpdateSteps(steps, id, patch);
    }
  }

  /** Setting a status on step '2' and then writing its data leaves it with both. */
  lemma StatusThenDataScenario(d: StepData)
    ensures var after := UpdateSteps(UpdateSteps(FixedAgents, "2", StatusPatch(InProgress)), "2", DataPatch(d));
            after[1].status == InProgress && after[1].data == Some(d) &&
            forall i :: 0 <= i < 8 && i != 1 ==> after[i] == FixedAgents[i]
  {
    FixedAgentsShape();
    assert forall i :: 0 <= i < 8 && i != 1 ==> FixedAgents[i].id != "2";
    var first := UpdateSteps(FixedAgents, "2", StatusPatch(InProgress));
    assert first[1].status == InProgress && first[1].id == "2";
    assert forall i :: 0 <= i < 8 && i != 1 ==> first[i] == FixedAgents[i];
  }
}
