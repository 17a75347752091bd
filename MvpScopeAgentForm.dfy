/** Step 5's editor: the outcome the MVP must prove, at most five must-haves,
    and explicit exclusions; the agent is blocked until the scope is sound. */
module MvpScopeAgentForm {
  import opened Wrappers
  import opened JsValues
  import opened WorkflowStore
  import opened FormSupport
  import Api
  import Text

  const MaxMustHaves := 5
  const TargetUser := "First-time SaaS founders"
  const ValueProposition := "Reduce time to first value"
  const MvpRunFallback := "Failed to run MVP Scope Agent"
  const NoExclusionsReason := "You must explicitly exclude things."
  const NoOutcomeReason := "Define the outcome first."

  /** `xs.filter((_, i) => i !== index)`: every element whose position is not
      `index`; an index outside the list removes nothing. */
  function RemoveAt(xs: seq<string>, index: int): (r: seq<string>)
    ensures 0 <= index < |xs| ==> r == xs[..index] + xs[index + 1..]
    ensures !(0 <= index < |xs|) ==> r == xs
    decreases |xs|
  {
    if xs == [] then []
    else (if index == 0 then [] else [xs[0]]) + RemoveAt(xs[1..], index - 1)
  }

  /** Removing the item just added gives the list back. */
  lemma RemoveUndoesAdd(xs: seq<string>, x: string)
    ensures RemoveAt(xs + [x], |xs|) == xs
  {
    assert (xs + [x])[..|xs|] == xs;
  }

  /** `isBloated`. */
  predicate Bloated(mustHaves: seq<string>) {
    |mustHaves| > MaxMustHaves
  }

  /** `isBlocked`: too many must-haves, no exclusion, or a blank outcome. */
  predicate Blocked(mustHaves: seq<string>, exclusions: seq<string>, outcome: string) {
    Bloated(mustHaves) || |exclusions| == 0 || Text.Blank(outcome)
  }

  function TooManyReason(count: nat): string {
    "Too many features (" + Text.NatToString(count) + "/5). Reduce scope."
  }

  /** `getBlockReason()`: the first failing rule, in the order bloat,
      exclusions, outcome; empty exactly when nothing blocks. */
  function BlockReason(mustHaves: seq<string>, exclusions: seq<string>, outcome: string): (r: string)
    ensures r == "" <==> !Blocked(mustHaves, exclusions, outcome)
    ensures Bloated(mustHaves) ==> r == TooManyReason(|mustHaves|)
    ensures !Bloated(mustHaves) && |exclusions| == 0 ==> r == NoExclusionsReason
    ensures !Bloated(mustHaves) && |exclusions| > 0 && Text.Blank(outcome) ==> r == NoOutcomeReason
  {
    if Bloated(mustHaves) then TooManyReason(|mustHaves|)
    else if |exclusions| == 0 then NoExclusionsReason
    else if Text.Blank(outcome) then NoOutcomeReason
    else ""
  }

  /** A sixth must-have blocks the agent whatever else holds, and removing any
      one of the six lifts that block. */
  lemma SixthMustHaveBlocks(mustHaves: seq<string>, x: string, exclusions: seq<string>, outcome: string, index: int)
    requires |mustHaves| == MaxMustHaves && 0 <= index <= |mustHaves|
    ensures Blocked(mustHaves + [x], exclusions, outcome)
    ensures BlockReason(mustHaves + [x], exclusions, outcome) == "Too many features (6/5). Reduce scope."
    ensures !Bloated(RemoveAt(mustHaves + [x], index))
  {
    assert Text.NatToString(6) == "6";
  }

  /** The request the run sends: only the outcome comes from the form. */
  function ScopePayload(outcome: string): (r: Api.Payload)
    ensures Api.MethodOf(r) == Api.CallMvpScopeAgent
    ensures r.MvpScopePayload? && r.problem == outcome
    ensures r.target_user == TargetUser && r.value_proposition == ValueProposition
  {
    Api.MvpScopePayload(outcome, TargetUser, ValueProposition)
  }

  class Form {
    const store: Store
    var mustHaves: seq<string>
    var exclusions: seq<string>
    var outcome: string
    var error: Option<string>
    var aiResult: Option<JsValue>
    var newItem: string
    var newExclusion: string

    /** Mounting the editor hydrates the lists, the outcome and a stored result. */
    constructor (store: Store)
      ensures this.store == store
      ensures var data := SelectedData(store.steps, store.selectedStepId);
              mustHaves == StringsOf(Field(data, "mustHaves")) &&
              exclusions == StringsOf(Field(data, "exclusions")) &&
              outcome == TextField(data, "outcome") &&
              aiResult == ResultField(data) && error == None &&
              newItem == "" && newExclusion == ""
    {
      this.store := store;
      mustHaves, exclusions, outcome := [], [], "";
      error, aiResult := None, None;
      newItem, newExclusion := "", "";
      var data := SelectedData(store.steps, store.selectedStepId);
      if data.Some? {
        mustHaves := StringsOf(Field(data, "mustHaves"));
        exclusions := StringsOf(Field(data, "exclusions"));
        outcome := TextOf(Field(data, "outcome"));
        if Present(Field(data, AiResultKey)) {
          aiResult := Field(data, AiResultKey);
        }
      }
    }

    method ChangeOutcome(value: string)
      modifies this, store
      ensures outcome == value && mustHaves == old(mustHaves) && exclusions == old(exclusions)
      ensures newItem == old(newItem) && newExclusion == old(newExclusion)
      ensures error == old(error) && aiResult == old(aiResult)
      ensures store.steps == Saved(old(store.steps), old(store.selectedStepId), map["outcome" := JsString(value)])
      ensures store.selectedStepId == old(store.selectedStepId)
    {
      outcome := value;
      SaveData(store, map["outcome" := JsString(value)]);
    }

    /** Typing in the must-have input changes only that input. */
    method ChangeNewItem(value: string)
      modifies this
      ensures newItem == value && newExclusion == old(newExclusion)
      ensures mustHaves == old(mustHaves) && exclusions == old(exclusions) && outcome == old(outcome)
      ensures error == old(error) && aiResult == old(aiResult)
    {
      newItem := value;
    }

    method ChangeNewExclusion(value: string)
      modifies this
      ensures newExclusion == value && newItem == old(newItem)
      ensures mustHaves == old(mustHaves) && exclusions == old(exclusions) && outcome == old(outcome)
      ensures error == old(error) && aiResult == old(aiResult)
    {
      newExclusion := value;
    }

    /** `addMustHave`: a blank input is ignored; otherwise the trimmed text is
      appended, the list saved and the input cleared. */
    method AddMustHave()
      modifies this, store
      ensures exclusions == old(exclusions) && outcome == old(outcome) && newExclusion == old(newExclusion)
      ensures error == old(error) && aiResult == old(aiResult)
      ensures store.selectedStepId == old(store.selectedStepId)
      ensures Text.Blank(old(newItem)) ==>
                mustHaves == old(mustHaves) && newItem == old(newItem) && store.steps == old(store.steps)
      ensures !Text.Blank(old(newItem)) ==>
                mustHaves == old(mustHaves) + [Text.Trim(old(newItem))] && newItem == "" &&
                store.steps == Saved(old(store.steps), old(store.selectedStepId),
                                     map["mustHaves" := StringsToJs(mustHaves)])
    {
      if Text.Blank(newItem) {
        return;
      }
      mustHaves := mustHaves + [Text.Trim(newItem)];
      SaveData(store, map["mustHaves" := StringsToJs(mustHaves)]);
      newItem := "";
    }

    /** `addExclusion`, the same for the exclusion list. */
    method AddExclusion()
      modifies this, store
      ensures mustHaves == old(mustHaves) && outcome == old(outcome) && newItem == old(newItem)
      ensures error == old(error) && aiResult == old(aiResult)
      ensures store.selectedStepId == old(store.selectedStepId)
      ensures Text.Blank(old(newExclusion)) ==>
                exclusions == old(exclusions) && newExclusion == old(newExclusion) && store.steps == old(store.steps)
      ensures !Text.Blank(old(newExclusion)) ==>
                exclusions == old(exclusions) + [Text.Trim(old(newExclusion))] && newExclusion == "" &&
                store.steps == Saved(old(store.steps), old(store.selectedStepId),
                                     map["exclusions" := StringsToJs(exclusions)])
    {
      if Text.Blank(newExclusion) {
        return;
      }
      exclusions := exclusions + [Text.Trim(newExclusion)];
      SaveData(store, map["exclusions" := StringsToJs(exclusions)]);
      newExclusion := "";
    }

    /** `removeItem(index, type)`: the chosen list loses position `index` and
      is saved, whatever the index. */
    method RemoveItem(index: int, must: bool)
      modifies this, store
      ensures outcome == old(outcome) && newItem == old(newItem) && newExclusion == old(newExclusion)
      ensures error == old(error) && aiResult == old(aiResult)
      ensures store.selectedStepId == old(store.selectedStepId)
      ensures must ==> mustHaves == RemoveAt(old(mustHaves), index) && exclusions == old(exclusions) &&
                       store.steps == Saved(old(store.steps), old(store.selectedStepId),
                                            map["mustHaves" := StringsToJs(mustHaves)])
      ensures !must ==> exclusions == RemoveAt(old(exclusions), index) && mustHaves == old(mustHaves) &&
                        store.steps == Saved(old(store.steps), old(store.selectedStepId),
                                             map["exclusions" := StringsToJs(exclusions)])
    {
      if must {
        mustHaves := RemoveAt(mustHaves, index);
        SaveData(store, map["mustHaves" := StringsToJs(mustHaves)]);
      } else {
        exclusions := RemoveAt(exclusions, index);
        SaveData(store, map["exclusions" := StringsToJs(exclusions)]);
      }
    }

    /** Whether the run button is replaced by the blocked notice. */
    function IsBlocked(): (r: bool)
      reads this
      ensures !r <==> |mustHaves| <= MaxMustHaves && |exclusions| > 0 && Text.HasVisible(outcome)
    {
      Blocked(mustHaves, exclusions, outcome)
    }

    /** `runMvpScopeAgent`. The handler itself does not consult the block. */
    method RunAgent(base: string, reply: Api.Reply) returns (sent: Option<Api.Request>)
      modifies this, store
      ensures mustHaves == old(mustHaves) && exclusions == old(exclusions) && outcome == old(outcome)
      ensures newItem == old(newItem) && newExclusion == old(newExclusion)
      ensures store.selectedStepId == old(store.selectedStepId)
      ensures !HasSelection(old(store.selectedStepId)) ==>
                sent == None && store.steps == old(store.steps) &&
                error == old(error) && aiResult == old(aiResult)
      ensures HasSelection(old(store.selectedStepId)) ==>
                sent == Some(Api.RequestFor(base, ScopePayload(outcome))) &&
                store.steps == AfterRun(old(store.steps), old(store.selectedStepId), Api.Outcome(reply)) &&
                RunRecorded(Api.Outcome(reply), MvpRunFallback, error, aiResult, old(aiResult))
    {
      if !HasSelection(store.selectedStepId) {
        return None;
      }
      error := None;
      var request, result := CallAgent(store, base, ScopePayload(outcome), reply);
      sent := Some(request);
      match result {
        case Success(value) => aiResult := Some(value);
        case Failure(message) => error := Some(ErrorText(message, MvpRunFallback));
      }
    }
  }
}
