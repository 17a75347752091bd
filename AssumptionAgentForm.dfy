/** Step 2's editor: what must be true and where it will fail, with step 1's problem as context. */
module AssumptionAgentForm {
  import opened Wrappers
  import opened JsValues
  import opened WorkflowStore
  import opened FormSupport
  import Api
  import Text

  const ProblemFallback := "Problem not defined yet."

  /** `problemContext`: step 1's stored `problem` when it is truthy, else the
      placeholder text. The context is read, never required. */
  function ProblemContext(steps: seq<AgentStep>): (r: string)
    ensures var problem := Field(SelectedData(steps, Some("1")), "problem");
            (!Present(problem) ==> r == ProblemFallback) &&
            (Present(problem) && problem.value.JsString? ==> r == problem.value.s)
  {
    var problem := Field(SelectedData(steps, Some("1")), "problem");
    if Present(problem) then ToJsString(problem.value) else ProblemFallback
  }

  /** The assumption editor sees what the idea-intake editor saved: once a
      non-empty problem is saved on step 1, it is the context sent along. */
  lemma ContextFollowsIdeaIntake(steps: seq<AgentStep>, k: nat, problem: string)
    requires DistinctIds(steps) && k < |steps| && steps[k].id == "1" && problem != ""
    ensures ProblemContext(Saved(steps, Some("1"), map["problem" := JsString(problem)])) == problem
  {
    var updates := map["problem" := JsString(problem)];
    var saved := Saved(steps, Some("1"), updates);
    SavedMerges(steps, k, updates);
    assert forall j :: 0 <= j < k ==> saved[j].id == steps[j].id;
    var found := FindIndex(saved, "1");
    assert found == Some(k);
    var data := SelectedData(saved, Some("1"));
    assert data == saved[k].data;
    assert Field(data, "problem") == Some(JsString(problem));
  }

  /** At start-up no problem is stored, so the placeholder is sent. */
  lemma ContextBeforeIdeaIntake()
    ensures ProblemContext(FixedAgents) == ProblemFallback
  {
    FixedAgentsShape();
    assert FindIndex(FixedAgents, "1") == Some(0);
  }

  class Form {
    const store: Store
    var trueFactors: string
    var failurePoints: string
    var error: Option<string>
    var aiResult: Option<JsValue>

    /** Mounting the editor hydrates its fields from the selected step's data. */
    constructor (store: Store)
      ensures this.store == store
      ensures var data := SelectedData(store.steps, store.selectedStepId);
              trueFactors == TextField(data, "trueFactors") && failurePoints == TextField(data, "failurePoints") &&
              aiResult == ResultField(data) && error == None
    {
      this.store := store;
      trueFactors, failurePoints := "", "";
      error, aiResult := None, None;
      var data := SelectedData(store.steps, store.selectedStepId);
      if data.Some? {
        trueFactors := TextOf(Field(data, "trueFactors"));
        failurePoints := TextOf(Field(data, "failurePoints"));
        if Present(Field(data, AiResultKey)) {
          aiResult := Field(data, AiResultKey);
        }
      }
    }

    method ChangeTrueFactors(value: string)
      modifies this, store
      ensures trueFactors == value && failurePoints == old(failurePoints)
      ensures error == old(error) && aiResult == old(aiResult)
      ensures store.steps == Saved(old(store.steps), old(store.selectedStepId), map["trueFactors" := JsString(value)])
      ensures store.selectedStepId == old(store.selectedStepId)
    {
      trueFactors := value;
      SaveData(store, map["trueFactors" := JsString(value)]);
    }

    method ChangeFailurePoints(value: string)
      modifies this, store
      ensures failurePoints == value && trueFactors == old(trueFactors)
      ensures error == old(error) && aiResult == old(aiResult)
      ensures store.steps == Saved(old(store.steps), old(store.selectedStepId), map["failurePoints" := JsString(value)])
      ensures store.selectedStepId == old(store.selectedStepId)
    {
      failurePoints := value;
      SaveData(store, map["failurePoints" := JsString(value)]);
    }

    /** The run button is enabled only when every field has a visible character. */
    function IsMissingInput(): (r: bool)
      reads this
      ensures !r <==> Text.HasVisible(trueFactors) && Text.HasVisible(failurePoints)
    {
      Text.Blank(trueFactors) || Text.Blank(failurePoints)
    }

    method RunAgent(base: string, reply: Api.Reply) returns (sent: Option<Api.Request>)
      modifies this, store
      ensures trueFactors == old(trueFactors) && failurePoints == old(failurePoints)
      ensures store.selectedStepId == old(store.selectedStepId)
      ensures !HasSelection(old(store.selectedStepId)) ==>
                sent == None && store.steps == old(store.steps) &&
                error == old(error) && aiResult == old(aiResult)
      ensures HasSelection(old(store.selectedStepId)) ==>
                sent == Some(Api.RequestFor(base, Api.AssumptionPayload(ProblemContext(old(store.steps)), trueFactors, failurePoints))) &&
                store.steps == AfterRun(old(store.steps), old(store.selectedStepId), Api.Outcome(reply)) &&
                RunRecorded(Api.Outcome(reply), RunFailedFallback, error, aiResult, old(aiResult))
    {
      if !HasSelection(store.selectedStepId) {
        return None;
      }
      error := None;
      var request, outcome := CallAgent(store, base, Api.AssumptionPayload(ProblemContext(store.steps), trueFactors, failurePoints), reply);
      sent := Some(request);
      match outcome {
        case Success(result) => aiResult := Some(result);
        case Failure(message) => error := Some(ErrorText(message, RunFailedFallback));
      }
    }
  }
}
