/** What every agent editor shares: the selected step's data, `saveData`
    (merge the updates over that data, then `updateStep`), hydration of local
    fields from stored data, and how a remote run is recorded. */
module FormSupport {
  import opened Wrappers
  import opened JsValues
  import opened WorkflowStore
  import Api

  const AiResultKey := "aiResult"
  const RunFailedFallback := "Failed to run agent"

  /** `if (selectedStepId)`: a selection that is neither null nor "". */
  predicate HasSelection(selected: Option<string>) {
    selected.Some? && selected.value != ""
  }

  /** `selectedStep?.data`. */
  function SelectedData(steps: seq<AgentStep>, selected: Option<string>): Option<StepData> {
    match FindStep(steps, selected)
    case None => None
    case Some(step) => step.data
  }

  /** `selectedStep?.data || {}`. */
  function CurrentData(steps: seq<AgentStep>, selected: Option<string>): StepData {
    match SelectedData(steps, selected)
    case None => map[]
    case Some(d) => d
  }

  /** The step list after `saveData(updates)`. */
  function Saved(steps: seq<AgentStep>, selected: Option<string>, updates: StepData): seq<AgentStep> {
    if HasSelection(selected)
    then UpdateSteps(steps, selected.value, DataPatch(CurrentData(steps, selected) + updates))
    else steps
  }

  function DataOf(step: AgentStep): StepData {
    if step.data.Some? then step.data.value else map[]
  }

  /** With distinct ids, saving on the selected step k stores its old data
      overridden by the updates, keeps every other key and its status, and
      leaves every other step as it was. */
  lemma SavedMerges(steps: seq<AgentStep>, k: nat, updates: StepData)
    requires DistinctIds(steps) && k < |steps| && steps[k].id != ""
    ensures var r := Saved(steps, Some(steps[k].id), updates);
            |r| == |steps| && r[k].data == Some(DataOf(steps[k]) + updates) &&
            r[k].data.value.Keys == DataOf(steps[k]).Keys + updates.Keys &&
            (forall key :: key in updates ==> r[k].data.value[key] == updates[key]) &&
            (forall key :: key in DataOf(steps[k]) && key !in updates ==>
                             r[k].data.value[key] == DataOf(steps[k])[key]) &&
            r[k].id == steps[k].id && r[k].status == steps[k].status &&
            (forall j :: 0 <= j < |steps| && j != k ==> r[j] == steps[j])
  {
    var found := FindIndex(steps, steps[k].id);
    assert found == Some(k);
    assert CurrentData(steps, Some(steps[k].id)) == DataOf(steps[k]);
  }

  /** Saving while the selection matches no step (null, unknown id) changes nothing. */
  lemma SavedWithoutStep(steps: seq<AgentStep>, selected: Option<string>, updates: StepData)
    requires FindStep(steps, selected).None?
    ensures Saved(steps, selected, updates) == steps
  {
    if HasSelection(selected) {
      UpdateUnknownId(steps, selected.value, DataPatch(CurrentData(steps, selected) + updates));
    }
  }

  /** Two saves on the same step accumulate: the stored data holds the union
      of both key sets, later values winning. */
  lemma SavesAccumulate(steps: seq<AgentStep>, k: nat, first: StepData, second: StepData)
    requires DistinctIds(steps) && k < |steps| && steps[k].id != ""
    ensures var id := Some(steps[k].id);
            var r := Saved(Saved(steps, id, first), id, second);
            r[k].data == Some(DataOf(steps[k]) + first + second) &&
            r[k].data.value.Keys == DataOf(steps[k]).Keys + first.Keys + second.Keys
  {
    var id := steps[k].id;
    SavedMerges(steps, k, first);
    var mid := Saved(steps, Some(id), first);
    UpdateKeepsIdentity(steps, id, DataPatch(CurrentData(steps, Some(id)) + first));
    SavedMerges(mid, k, second);
  }

  /** `saveData(updates)`. */
  method SaveData(store: Store, updates: StepData)
    modifies store
    ensures store.steps == Saved(old(store.steps), old(store.selectedStepId), updates)
    ensures store.selectedStepId == old(store.selectedStepId)
  {
    if HasSelection(store.selectedStepId) {
      var currentData := CurrentData(store.steps, store.selectedStepId);
      store.UpdateStep(store.selectedStepId.value, DataPatch(currentData + updates));
    }
  }

  /** `data.key` of the selected step's data, `None` when the data or the key is absent. */
  function Field(data: Option<StepData>, key: string): (r: Option<JsValue>)
    ensures r.Some? <==> data.Some? && key in data.value
    ensures r.Some? ==> r.value == data.value[key]
  {
    if data.Some? && key in data.value then Some(data.value[key]) else None
  }

  /** Hydration of a text field: `data.key || ''`, and '' when there is no data. */
  function TextField(data: Option<StepData>, key: string): (r: string)
    ensures data.Some? && key in data.value && data.value[key].JsString? ==> r == data.value[key].s
    ensures (data.None? || key !in data.value) ==> r == ""
  {
    TextOf(Field(data, key))
  }

  /** Hydration of the last result: kept only when `data.aiResult` is truthy. */
  function ResultField(data: Option<StepData>): (r: Option<JsValue>)
    ensures r.Some? <==> Present(Field(data, AiResultKey))
    ensures r.Some? ==> r == Field(data, AiResultKey)
  {
    if Present(Field(data, AiResultKey)) then Field(data, AiResultKey) else None
  }

  /** `err.message || fallback`. */
  function ErrorText(message: string, fallback: string): (r: string)
    ensures message != "" ==> r == message
    ensures message == "" ==> r == fallback
  {
    if message != "" then message else fallback
  }

  /** The step list after a run: a result is saved under `aiResult`, an error never. */
  function AfterRun(steps: seq<AgentStep>, selected: Option<string>, outcome: Result<JsValue, string>): seq<AgentStep> {
    if outcome.Success? then Saved(steps, selected, map[AiResultKey := outcome.value]) else steps
  }

  /** A successful run stores its result under `aiResult` on the selected step
      and keeps all its other data; a failed run leaves every step as it was. */
  lemma RunPersistsOnlyResults(steps: seq<AgentStep>, k: nat, outcome: Result<JsValue, string>)
    requires DistinctIds(steps) && k < |steps| && steps[k].id != ""
    ensures var r := AfterRun(steps, Some(steps[k].id), outcome);
            (outcome.Failure? ==> r == steps) &&
            (outcome.Success? ==>
               r[k].data.Some? && AiResultKey in r[k].data.value &&
               r[k].data.value[AiResultKey] == outcome.value &&
               (forall key :: key in DataOf(steps[k]) && key != AiResultKey ==>
                                key in r[k].data.value && r[k].data.value[key] == DataOf(steps[k])[key]) &&
               (forall j :: 0 <= j < |steps| && j != k ==> r[j] == steps[j]))
  {
    if outcome.Success? {
      SavedMerges(steps, k, map[AiResultKey := outcome.value]);
    }
  }

  /** The local result and error after a run with the given outcome. */
  predicate RunRecorded(outcome: Result<JsValue, string>, fallback: string,
                        error: Option<string>, aiResult: Option<JsValue>, previous: Option<JsValue>) {
    match outcome
    case Success(result) => aiResult == Some(result) && error == None
    case Failure(message) => error == Some(ErrorText(message, fallback)) && aiResult == previous
  }

  /** The remote call and, on success, the `saveData({ aiResult })` after it. */
  method CallAgent(store: Store, base: string, payload: Api.Payload, reply: Api.Reply)
    returns (sent: Api.Request, outcome: Result<JsValue, string>)
    modifies store
    ensures sent == Api.RequestFor(base, payload) && outcome == Api.Outcome(reply)
    ensures store.steps == AfterRun(old(store.steps), old(store.selectedStepId), outcome)
    ensures store.selectedStepId == old(store.selectedStepId)
  {
    sent := Api.RequestFor(base, payload);
    outcome := Api.Outcome(reply);
    if outcome.Success? {
      SaveData(store, map[AiResultKey := outcome.value]);
    }
  }
}
