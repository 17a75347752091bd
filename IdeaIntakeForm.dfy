/** Step 1's editor: the problem, why it exists and why now. */
module IdeaIntakeForm {
  import opened Wrappers
  import opened JsValues
  import opened WorkflowStore
  import opened FormSupport
  import Api
  import Text

  class Form {
    const store: Store
    var problem: string
    var whyExists: string
    var whyNow: string
    var error: Option<string>
    var aiResult: Option<JsValue>

    /** Mounting the editor hydrates its fields from the selected step's data. */
    constructor (store: Store)
      ensures this.store == store
      ensures var data := SelectedData(store.steps, store.selectedStepId);
              problem == TextField(data, "problem") && whyExists == TextField(data, "whyExists") &&
              whyNow == TextField(data, "whyNow") && aiResult == ResultField(data) && error == None
    {
      this.store := store;
      problem, whyExists, whyNow := "", "", "";
      error, aiResult := None, None;
      var data := SelectedData(store.steps, store.selectedStepId);
      if data.Some? {
        problem := TextOf(Field(data, "problem"));
        whyExists := TextOf(Field(data, "whyExists"));
        whyNow := TextOf(Field(data, "whyNow"));
        if Present(Field(data, AiResultKey)) {
          aiResult := Field(data, AiResultKey);
        }
      }
    }

    method ChangeProblem(value: string)
      modifies this, store
      ensures problem == value && whyExists == old(whyExists) && whyNow == old(whyNow)
      ensures error == old(error) && aiResult == old(aiResult)
      ensures store.steps == Saved(old(store.steps), old(store.selectedStepId), map["problem" := JsString(value)])
      ensures store.selectedStepId == old(store.selectedStepId)
    {
      problem := value;
      SaveData(store, map["problem" := JsString(value)]);
    }

    method ChangeWhyExists(value: string)
      modifies this, store
      ensures whyExists == value && problem == old(problem) && whyNow == old(whyNow)
      ensures error == old(error) && aiResult == old(aiResult)
      ensures store.steps == Saved(old(store.steps), old(store.selectedStepId), map["whyExists" := JsString(value)])
      ensures store.selectedStepId == old(store.selectedStepId)
    {
      whyExists := value;
      SaveData(store, map["whyExists" := JsString(value)]);
    }

    method ChangeWhyNow(value: string)
      modifies this, store
      ensures whyNow == value && problem == old(problem) && whyExists == old(whyExists)
      ensures error == old(error) && aiResult == old(aiResult)
      ensures store.steps == Saved(old(store.steps), old(store.selectedStepId), map["whyNow" := JsString(value)])
      ensures store.selectedStepId == old(store.selectedStepId)
    {
      whyNow := value;
      SaveData(store, map["whyNow" := JsString(value)]);
    }

    /** The run button is enabled only when every field has a visible character. */
    function IsMissingInput(): (r: bool)
      reads this
      ensures !r <==> Text.HasVisible(problem) && Text.HasVisible(whyExists) && Text.HasVisible(whyNow)
    {
      Text.Blank(problem) || Text.Blank(whyExists) || Text.Blank(whyNow)
    }

    method RunAgent(base: string, reply: Api.Reply) returns (sent: Option<Api.Request>)
      modifies this, store
      ensures problem == old(problem) && whyExists == old(whyExists) && whyNow == old(whyNow)
      ensures store.selectedStepId == old(store.selectedStepId)
      ensures !HasSelection(old(store.selectedStepId)) ==>
                sent == None && store.steps == old(store.steps) &&
                error == old(error) && aiResult == old(aiResult)
      ensures HasSelection(old(store.selectedStepId)) ==>
                sent == Some(Api.RequestFor(base, Api.IdeaIntakePayload(problem, whyExists, whyNow))) &&
                store.steps == AfterRun(old(store.steps), old(store.selectedStepId), Api.Outcome(reply)) &&
                RunRecorded(Api.Outcome(reply), RunFailedFallback, error, aiResult, old(aiResult))
    {
      if !HasSelection(store.selectedStepId) {
        return None;
      }
      error := None;
      var request, outcome := CallAgent(store, base, Api.IdeaIntakePayload(problem, whyExists, whyNow), reply);
      sent := Some(request);
      match outcome {
        case Success(result) => aiResult := Some(result);
        case Failure(message) => error := Some(ErrorText(message, RunFailedFallback));
      }
    }
  }
}
