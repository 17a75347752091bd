/** Step 8's editor: a log of decisions and open questions, shown beside the
    high risks recorded on step 2, and sent with every step's data as context. */
module DecisionAgentForm {
  import opened Wrappers
  import opened JsValues
  import opened WorkflowStore
  import opened FormSupport
  import Api
  import Text

  const Separator := "; "
  const AssumptionStepId := "2"

  /** `assumptionStep?.data?.assumptions || []`. */
  function AssumptionItems(steps: seq<AgentStep>): seq<JsValue> {
    ItemsOf(Field(SelectedData(steps, Some(AssumptionStepId)), "assumptions"))
  }

  /** `a.risk === 'High'`. */
  predicate IsHighRisk(item: JsValue) {
    Prop(item, "risk") == Some(JsString("High"))
  }

  /** `items.filter(a => a.risk === 'High')`, keeping their order: every
      high-risk item as often as it occurs, and nothing else. */
  function HighRisks(items: seq<JsValue>): (r: seq<JsValue>)
    ensures |r| <= |items|
    ensures forall x :: x in r <==> x in items && IsHighRisk(x)
    ensures forall x :: multiset(r)[x] == if IsHighRisk(x) then multiset(items)[x] else 0
  {
    if items == [] then []
    else
      assert items == [items[0]] + items[1..];
      (if IsHighRisk(items[0]) then [items[0]] else []) + HighRisks(items[1..])
  }

  /** The filter keeps one item exactly when it is a high risk. */
  lemma HighRisksOne(x: JsValue)
    ensures HighRisks([x]) == if IsHighRisk(x) then [x] else []
  {
    assert [x][1..] == [];
  }

  /** Filtering a concatenation filters each part and keeps them in order, so
      the filter keeps the relative order of the items it keeps. */
  lemma {:induction false} HighRisksAppend(a: seq<JsValue>, b: seq<JsValue>)
    ensures HighRisks(a + b) == HighRisks(a) + HighRisks(b)
    decreases |a|
  {
    if a == [] {
      assert a + b == b;
    } else {
      assert (a + b)[0] == a[0];
      assert (a + b)[1..] == a[1..] + b;
      HighRisksAppend(a[1..], b);
    }
  }

  /** `items.map(x => x.text)` rendered as `join` renders each element. */
  function Texts(items: seq<JsValue>): (r: seq<string>)
    ensures |r| == |items|
    ensures forall i :: 0 <= i < |items| ==> r[i] == JoinedText(Prop(items[i], "text"))
  {
    seq(|items|, i requires 0 <= i < |items| => JoinedText(Prop(items[i], "text")))
  }

  /** `steps.map(s => ({ agent: s.name, data: s.data }))`. */
  function FullContext(steps: seq<AgentStep>): (r: seq<Api.ContextEntry>)
    ensures |r| == |steps|
    ensures forall i :: 0 <= i < |steps| ==> r[i].agent == steps[i].name && r[i].data == steps[i].data
  {
    seq(|steps|, i requires 0 <= i < |steps| => Api.ContextEntry(steps[i].name, steps[i].data))
  }

  /** The stored shape of one logged decision. */
  function DecisionItem(id: string, text: string, date: string): JsValue {
    JsObject(map["id" := JsString(id), "text" := JsString(text), "date" := JsString(date)])
  }

  /** The request of a run: the decision texts, the high-risk texts of step 2
      and the questions, each joined with "; ", and every step as context. */
  function DecisionPayload(decisions: seq<JsValue>, openQuestions: seq<string>, steps: seq<AgentStep>): Api.Payload {
    Api.DecisionRiskPayload(Text.Join(Texts(decisions), Separator),
                            Text.Join(Texts(HighRisks(AssumptionItems(steps))), Separator),
                            Text.Join(openQuestions, Separator),
                            FullContext(steps))
  }

  /** A decision logged from the form contributes its trimmed text to the
      payload: alone when it is the first, otherwise after the texts already
      logged and "; ". */
  lemma LoggedDecisionIsSent(decisions: seq<JsValue>, id: string, text: string, date: string,
                             questions: seq<string>, steps: seq<AgentStep>)
    ensures var before := DecisionPayload(decisions, questions, steps).decisions;
            var after := DecisionPayload(decisions + [DecisionItem(id, text, date)], questions, steps).decisions;
            (decisions == [] ==> after == text) && (decisions != [] ==> after == before + Separator + text)
  {
    var item := DecisionItem(id, text, date);
    assert Texts(decisions + [item]) == Texts(decisions) + [text];
    if decisions != [] {
      Text.JoinAppend(Texts(decisions), text, Separator);
    }
  }

  /** Each added question is appended to the payload after "; ". */
  lemma AddedQuestionIsSent(decisions: seq<JsValue>, questions: seq<string>, q: string, steps: seq<AgentStep>)
    ensures var before := DecisionPayload(decisions, questions, steps).open_questions;
            var after := DecisionPayload(decisions, questions + [q], steps).open_questions;
            (questions == [] ==> after == q) && (questions != [] ==> after == before + Separator + q)
  {
    if questions != [] {
      Text.JoinAppend(questions, q, Separator);
    } else {
      assert questions + [q] == [q];
    }
  }

  /** At start-up step 2 holds no data, so no high risk is listed or sent. */
  lemma NoRisksAtStart()
    ensures HighRisks(AssumptionItems(FixedAgents)) == []
  {
    FixedAgentsShape();
    assert FindIndex(FixedAgents, AssumptionStepId) == Some(1);
  }

  class Form {
    const store: Store
    var decisions: seq<JsValue>
    var openQuestions: seq<string>
    var newDecision: string
    var newQuestion: string
    var error: Option<string>
    var aiResult: Option<JsValue>

    /** Mounting the editor hydrates both lists and a stored result. */
    constructor (store: Store)
      ensures this.store == store
      ensures var data := SelectedData(store.steps, store.selectedStepId);
              decisions == ItemsOf(Field(data, "decisions")) &&
              openQuestions == StringsOf(Field(data, "openQuestions")) &&
              aiResult == ResultField(data) && error == None &&
              newDecision == "" && newQuestion == ""
    {
      this.store := store;
      decisions, openQuestions := [], [];
      newDecision, newQuestion := "", "";
      error, aiResult := None, None;
      var data := SelectedData(store.steps, store.selectedStepId);
      if data.Some? {
        decisions := ItemsOf(Field(data, "decisions"));
        openQuestions := StringsOf(Field(data, "openQuestions"));
        if Present(Field(data, AiResultKey)) {
          aiResult := Field(data, AiResultKey);
        }
      }
    }

    /** The high risks listed above the log, read from the store on each render. */
    function Risks(): (r: seq<JsValue>)
      reads this, store
      ensures forall x :: x in r <==> x in AssumptionItems(store.steps) && IsHighRisk(x)
      ensures forall x :: multiset(r)[x] == if IsHighRisk(x) then multiset(AssumptionItems(store.steps))[x] else 0
    {
      HighRisks(AssumptionItems(store.steps))
    }

    method ChangeNewDecision(value: string)
      modifies this
      ensures newDecision == value && newQuestion == old(newQuestion)
      ensures decisions == old(decisions) && openQuestions == old(openQuestions)
      ensures error == old(error) && aiResult == old(aiResult)
    {
      newDecision := value;
    }

    method ChangeNewQuestion(value: string)
      modifies this
      ensures newQuestion == value && newDecision == old(newDecision)
      ensures decisions == old(decisions) && openQuestions == old(openQuestions)
      ensures error == old(error) && aiResult == old(aiResult)
    {
      newQuestion := value;
    }

    /** `addDecision`: a blank input is ignored; otherwise a decision with a
      fresh `id` and today's `date` (both supplied by the caller) and the
      trimmed text is appended, the log saved and the input cleared. */
    method AddDecision(id: string, date: string)
      modifies this, store
      ensures openQuestions == old(openQuestions) && newQuestion == old(newQuestion)
      ensures error == old(error) && aiResult == old(aiResult)
      ensures store.selectedStepId == old(store.selectedStepId)
      ensures Text.Blank(old(newDecision)) ==>
                decisions == old(decisions) && newDecision == old(newDecision) && store.steps == old(store.steps)
      ensures !Text.Blank(old(newDecision)) ==>
                decisions == old(decisions) + [DecisionItem(id, Text.Trim(old(newDecision)), date)] &&
                newDecision == "" &&
                store.steps == Saved(old(store.steps), old(store.selectedStepId),
                                     map["decisions" := JsArray(decisions)])
    {
      if Text.Blank(newDecision) {
        return;
      }
      decisions := decisions + [DecisionItem(id, Text.Trim(newDecision), date)];
      SaveData(store, map["decisions" := JsArray(decisions)]);
      newDecision := "";
    }

    /** `addQuestion`, the same for open questions. */
    method AddQuestion()
      modifies this, store
      ensures decisions == old(decisions) && newDecision == old(newDecision)
      ensures error == old(error) && aiResult == old(aiResult)
      ensures store.selectedStepId == old(store.selectedStepId)
      ensures Text.Blank(old(newQuestion)) ==>
                openQuestions == old(openQuestions) && newQuestion == old(newQuestion) &&
                store.steps == old(store.steps)
      ensures !Text.Blank(old(newQuestion)) ==>
                openQuestions == old(openQuestions) + [Text.Trim(old(newQuestion))] && newQuestion == "" &&
                store.steps == Saved(old(store.steps), old(store.selectedStepId),
                                     map["openQuestions" := StringsToJs(openQuestions)])
    {
      if Text.Blank(newQuestion) {
        return;
      }
      openQuestions := openQuestions + [Text.Trim(newQuestion)];
      SaveData(store, map["openQuestions" := StringsToJs(openQuestions)]);
      newQuestion := "";
    }

    /** The run button is disabled while loading or while both lists are empty. */
    function RunDisabled(loading: bool): (r: bool)
      reads this
      ensures !r <==> !loading && (decisions != [] || openQuestions != [])
    {
      loading || (|decisions| == 0 && |openQuestions| == 0)
    }

    method RunAgent(base: string, reply: Api.Reply) returns (sent: Option<Api.Request>)
      modifies this, store
      ensures decisions == old(decisions) && openQuestions == old(openQuestions)
      ensures newDecision == old(newDecision) && newQuestion == old(newQuestion)
      ensures store.selectedStepId == old(store.selectedStepId)
      ensures !HasSelection(old(store.selectedStepId)) ==>
                sent == None && store.steps == old(store.steps) &&
                error == old(error) && aiResult == old(aiResult)
      ensures HasSelection(old(store.selectedStepId)) ==>
                sent == Some(Api.RequestFor(base, DecisionPayload(decisions, openQuestions, old(store.steps)))) &&
                store.steps == AfterRun(old(store.steps), old(store.selectedStepId), Api.Outcome(reply)) &&
                RunRecorded(Api.Outcome(reply), RunFailedFallback, error, aiResult, old(aiResult))
    {
      if !HasSelection(store.selectedStepId) {
        return None;
      }
      error := None;
      var request, outcome := CallAgent(store, base, DecisionPayload(decisions, openQuestions, store.steps), reply);
      sent := Some(request);
      match outcome {
        case Success(result) => aiResult := Some(result);
        case Failure(message) => error := Some(ErrorText(message, RunFailedFallback));
      }
    }
  }
}
