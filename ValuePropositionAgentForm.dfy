/** Step 4's editor: the differentiation and the pain removed. */
module ValuePropositionAgentForm {
  import opened Wrappers
  import opened JsValues
  import opened WorkflowStore
  import opened FormSupport
  import Api
  import Text

  class Form {
    const store: Store
    var differentiation: string
    var painRemoved: string
    var error: Option<string>
    var aiResult: Option<JsValue>

    /** Mounting the editor hydrates its fields from the selected step's data. */
    constructor (store: Store)
      ensures this.store == store
      ensures var data := SelectedData(store.steps, store.selectedStepId);
              differentiation == TextField(data, "differentiation") && painRemoved == TextField(data, "painRemoved") &&
              aiResult == ResultField(data) && error == None
    {
      this.store := store;
      differentiation, painRemoved := "", "";
      error, aiResult := None, None;
      var data := SelectedData(store.steps, store.selectedStepId);
      if data.Some? {
        differentiation := TextOf(Field(data, "differentiation"));
        painRemoved := TextOf(Field(data, "painRemoved"));
        if Present(Field(data, AiResultKey)) {
          aiResult := Field(data, AiResultKey);
        }
      }
    }

    method ChangeDifferentiation(value: string)
      modifies this, store
      ensures differentiation == value && painRemoved == old(painRemoved)
      ensures error == old(error) && aiResult == old(aiResult)
      ensures store.steps == Saved(old(store.steps), old(store.selectedStepId), map["differentiation" := JsString(value)])
      ensures store.selectedStepId == old(store.selectedStepId)
    {
      differentiation := value;
      SaveData(store, map["differentiation" := JsString(value)]);
    }

    method ChangePainRemoved(value: string)
      modifies this, store
      ensures painRemoved == value && differentiation == old(differentiation)
      ensures error == old(error) && aiResult == old(aiResult)
      ensures store.steps == Saved(old(store.steps), old(store.selectedStepId), map["painRemoved" := JsString(value)])
      ensures store.selectedStepId == old(store.selectedStepId)
    {
      painRemoved := value;
      SaveData(store, map["painRemoved" := JsString(value)]);
    }

    /** The run button is enabled only when every field has a visible character. */
    function IsMissingInput(): (r: bool)
      reads this
      ensures !r <==> Text.HasVisible(differentiation) && Text.HasVisible(painRemoved)
    {
      Text.Blank(differentiation) || Text.Blank(painRemoved)
    }

    method RunAgent(base: string, reply: Api.Reply) returns (sent: Option<Api.Request>)
      modifies this, store
      ensures differentiation == old(differentiation) && painRemoved == old(painRemoved)
      ensures store.selectedStepId == old(store.selectedStepId)
      ensures !HasSelection(old(store.selectedStepId)) ==>
                sent == None && store.steps == old(store.steps) &&
                error == old(error) && aiResult == old(aiResult)
      ensures HasSelection(old(store.selectedStepId)) ==>
                sent == Some(Api.RequestFor(base, Api.ValuePropPayload(differentiation, painRemoved))) &&
                store.steps == AfterRun(old(store.steps), old(store.selectedStepId), Api.Outcome(reply)) &&
                RunRecorded(Api.Outcome(reply), RunFailedFallback, error, aiResult, old(aiResult))
    {
      if !HasSelection(store.selectedStepId) {
        return None;
      }
      error := None;
      var request, outcome := CallAgent(store, base, Api.ValuePropPayload(differentiation, painRemoved), reply);
      sent := Some(request);
      match outcome {
        case Success(result) => aiResult := Some(result);
        case Failure(message) => error := Some(ErrorText(message, RunFailedFallback));
      }
    }
  }
}
