/** Step 3's editor: who the customer is, how urgent the pain is, what they use today. */
module IcpAgentForm {
  import opened Wrappers
  import opened JsValues
  import opened WorkflowStore
  import opened FormSupport
  import Api
  import Text

  class Form {
    const store: Store
    var customerIdentity: string
    var urgency: string
    var alternatives: string
    var error: Option<string>
    var aiResult: Option<JsValue>

    /** Mounting the editor hydrates its fields from the selected step's data. */
    constructor (store: Store)
      ensures this.store == store
      ensures var data := SelectedData(store.steps, store.selectedStepId);
              customerIdentity == TextField(data, "customerIdentity") && urgency == TextField(data, "urgency") && alternatives == TextField(data, "alternatives") &&
              aiResult == ResultField(data) && error == None
    {
      this.store := store;
      customerIdentity, urgency, alternatives := "", "", "";
      error, aiResult := None, None;
      var data := SelectedData(store.steps, store.selectedStepId);
      if data.Some? {
        customerIdentity := TextOf(Field(data, "customerIdentity"));
        urgency := TextOf(Field(data, "urgency"));
        alternatives := TextOf(Field(data, "alternatives"));
        if Present(Field(data, AiResultKey)) {
          aiResult := Field(data, AiResultKey);
        }
      }
    }

    method ChangeCustomerIdentity(value: string)
      modifies this, store
      ensures customerIdentity == value && urgency == old(urgency) && alternatives == old(alternatives)
      ensures error == old(error) && aiResult == old(aiResult)
      ensures store.steps == Saved(old(store.steps), old(store.selectedStepId), map["customerIdentity" := JsString(value)])
      ensures store.selectedStepId == old(store.selectedStepId)
    {
      customerIdentity := value;
      SaveData(store, map["customerIdentity" := JsString(value)]);
    }

    method ChangeUrgency(value: string)
      modifies this, store
      ensures urgency == value && customerIdentity == old(customerIdentity) && alternatives == old(alternatives)
      ensures error == old(error) && aiResult == old(aiResult)
      ensures store.steps == Saved(old(store.steps), old(store.selectedStepId), map["urgency" := JsString(value)])
      ensures store.selectedStepId == old(store.selectedStepId)
    {
      urgency := value;
      SaveData(store, map["urgency" := JsString(value)]);
    }

    method ChangeAlternatives(value: string)
      modifies this, store
      ensures alternatives == value && customerIdentity == old(customerIdentity) && urgency == old(urgency)
      ensures error == old(error) && aiResult == old(aiResult)
      ensures store.steps == Saved(old(store.steps), old(store.selectedStepId), map["alternatives" := JsString(value)])
      ensures store.selectedStepId == old(store.selectedStepId)
    {
      alternatives := value;
      SaveData(store, map["alternatives" := JsString(value)]);
    }

    /** The run button is enabled only when every field has a visible character. */
    function IsMissingInput(): (r: bool)
      reads this
      ensures !r <==> Text.HasVisible(customerIdentity) && Text.HasVisible(urgency) && Text.HasVisible(alternatives)
    {
      Text.Blank(customerIdentity) || Text.Blank(urgency) || Text.Blank(alternatives)
    }

    method RunAgent(base: string, reply: Api.Reply) returns (sent: Option<Api.Request>)
      modifies this, store
      ensures customerIdentity == old(customerIdentity) && urgency == old(urgency) && alternatives == old(alternatives)
      ensures store.selectedStepId == old(store.selectedStepId)
      ensures !HasSelection(old(store.selectedStepId)) ==>
                sent == None && store.steps == old(store.steps) &&
                error == old(error) && aiResult == old(aiResult)
      ensures HasSelection(old(store.selectedStepId)) ==>
                sent == Some(Api.RequestFor(base, Api.IcpPayload(customerIdentity, urgency, alternatives))) &&
                store.steps == AfterRun(old(store.steps), old(store.selectedStepId), Api.Outcome(reply)) &&
                RunRecorded(Api.Outcome(reply), RunFailedFallback, error, aiResult, old(aiResult))
    {
      if !HasSelection(store.selectedStepId) {
        return None;
      }
      error := None;
      var request, outcome := CallAgent(store, base, Api.IcpPayload(customerIdentity, urgency, alternatives), reply);
      sent := Some(request);
      match outcome {
        case Success(result) => aiResult := Some(result);
        case Failure(message) => error := Some(ErrorText(message, RunFailedFallback));
      }
    }
  }
}
