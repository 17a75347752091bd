/** Step 7's editor: outcome milestones and what will not be built, with a warning for calendar dates. */
module RoadmapAgentForm {
  import opened Wrappers
  import opened JsValues
  import opened WorkflowStore
  import opened FormSupport
  import Api
  import Text

  /** The month names of the date pattern, in its order, lower-cased. */
  const Months: seq<string> := ["january", "february", "march", "april", "may", "june", "july",
                                "august", "september", "october", "november", "december"]

  /** `Q[1-4]` at i; under the `i` flag `q` matches too. */
  predicate QuarterAt(s: string, i: nat) {
    i + 2 <= |s| && (s[i] == 'Q' || s[i] == 'q') && '1' <= s[i + 1] <= '4'
  }

  /** `word` (lower-case letters) at i, compared without case. */
  predicate WordAt(s: string, i: nat, word: string) {
    i + |word| <= |s| && forall k :: 0 <= k < |word| ==> Text.LowerChar(s[i + k]) == word[k]
  }

  /** The first month alternative, from `from` on, that matches at i. */
  function FirstMonth(s: string, i: nat, from: nat): (r: Option<nat>)
    requires from <= |Months|
    ensures r.Some? ==> from <= r.value < |Months| && WordAt(s, i, Months[r.value])
    ensures forall k :: from <= k < |Months| && (r.None? || k < r.value) ==> !WordAt(s, i, Months[k])
    decreases |Months| - from
  {
    if from == |Months| then None
    else if WordAt(s, i, Months[from]) then Some(from)
    else FirstMonth(s, i, from + 1)
  }

  /** `202\d` at i. */
  predicate YearAt(s: string, i: nat) {
    i + 4 <= |s| && s[i..i + 3] == "202" && Text.IsDigit(s[i + 3])
  }

  /** n digits, a slash and a digit at i. */
  predicate LeadAt(s: string, i: nat, n: nat) {
    i + n + 2 <= |s| && (forall k :: i <= k < i + n ==> Text.IsDigit(s[k])) &&
    s[i + n] == '/' && Text.IsDigit(s[i + n + 1])
  }

  /** `\d{1,2}` after the slash is greedy: a second digit is taken when present. */
  function Trailing(s: string, j: nat): (r: nat)
    ensures r == 1 || r == 2
  {
    if j + 1 < |s| && Text.IsDigit(s[j + 1]) then 2 else 1
  }

  /** `\d{1,2}\/\d{1,2}` at i: two leading digits are tried before one. */
  function SlashDateAt(s: string, i: nat): Option<nat> {
    if LeadAt(s, i, 2) then Some(3 + Trailing(s, i + 3))
    else if LeadAt(s, i, 1) then Some(2 + Trailing(s, i + 2))
    else None
  }

  /** The length of the date pattern's match starting at i, trying its
      alternatives in the order they are written. */
  function MatchAt(s: string, i: nat): (r: Option<nat>)
    ensures r.Some? ==> 2 <= r.value && i + r.value <= |s|
  {
    if QuarterAt(s, i) then Some(2)
    else match FirstMonth(s, i, 0)
      case Some(k) => Some(|Months[k]|)
      case None =>
        if YearAt(s, i) then Some(4) else SlashDateAt(s, i)
  }

  /** The leftmost position, from `from` on, where the pattern matches. */
  function FindDate(s: string, from: nat): (r: Option<nat>)
    requires from <= |s|
    ensures r.Some? ==> from <= r.value < |s| && MatchAt(s, r.value).Some?
    ensures forall j :: from <= j < |s| && (r.None? || j < r.value) ==> MatchAt(s, j).None?
    decreases |s| - from
  {
    if from == |s| then None
    else if MatchAt(s, from).Some? then Some(from)
    else FindDate(s, from + 1)
  }

  /** `val.match(datePattern)?.[0]`: the matched text, in its original case. */
  function DateMatch(s: string): (r: Option<string>)
    ensures r.Some? ==> r.value != "" && exists i :: Text.OccursAt(s, r.value, i)
  {
    match FindDate(s, 0)
    case None => None
    case Some(i) =>
      var found := s[i..i + MatchAt(s, i).value];
      assert Text.OccursAt(s, found, i);
      Some(found)
  }

  /** Something that reads as a date at i: a quarter, a month name, a year of
      the 2020s, or a digit, a slash and a digit. */
  predicate DateLike(s: string, i: nat) {
    QuarterAt(s, i) || (exists m :: m in Months && WordAt(s, i, m)) || YearAt(s, i) || LeadAt(s, i, 1)
  }

  /** The pattern finds a match exactly when the text holds something date-like. */
  lemma {:induction false} DateFoundIff(s: string)
    ensures DateMatch(s).Some? <==> exists i :: 0 <= i < |s| && DateLike(s, i)
  {
    if DateMatch(s).Some? {
      var i := FindDate(s, 0).value;
      if QuarterAt(s, i) || YearAt(s, i) || LeadAt(s, i, 1) {
        assert DateLike(s, i);
      } else if FirstMonth(s, i, 0).Some? {
        assert WordAt(s, i, Months[FirstMonth(s, i, 0).value]);
        assert DateLike(s, i);
      } else {
        assert LeadAt(s, i, 2);
        assert LeadAt(s, i + 1, 1);
        assert DateLike(s, i + 1);
      }
    }
    if i :| 0 <= i < |s| && DateLike(s, i) {
      assert MatchAt(s, i).Some?;
    }
  }

  /** A quarter is reported as written. */
  lemma QuarterReported()
    ensures DateMatch("Q3 launch") == Some("Q3")
  {
    var s := "Q3 launch";
    assert QuarterAt(s, 0) && MatchAt(s, 0) == Some(2);
    assert FindDate(s, 0) == Some(0);
    assert s[0..2] == "Q3";
  }

  /** Both `\d{1,2}` of a slash date are greedy: "12/25" is reported whole,
      not "12/2" or "2/25". */
  lemma SlashDateGreedy(s: string)
    requires |s| >= 5 && Text.IsDigit(s[0]) && Text.IsDigit(s[1]) && s[2] == '/'
    requires Text.IsDigit(s[3]) && Text.IsDigit(s[4])
    ensures DateMatch(s) == Some(s[..5])
  {
    NoMonthAtDigit(s, 0);
    assert s[0..3][2] == '/';
    assert !QuarterAt(s, 0) && !YearAt(s, 0) && LeadAt(s, 0, 2);
    assert MatchAt(s, 0) == Some(5);
    assert FindDate(s, 0) == Some(0);
  }

  /** No month name starts where a digit stands. */
  lemma NoMonthAtDigit(s: string, i: nat)
    requires i < |s| && Text.IsDigit(s[i])
    ensures FirstMonth(s, i, 0).None?
  {
    forall k | 0 <= k < |Months|
      ensures !WordAt(s, i, Months[k])
    {
      assert 'a' <= Months[k][0] <= 'z';
    }
  }

  function DateAlert(found: string): string {
    "Startups die when they chase dates instead of outcomes. Remove timelines like \"" + found + "\"."
  }

  /** The warning under the milestones field after they are edited. */
  function MilestonesWarning(milestones: string): Option<string> {
    match DateMatch(milestones)
    case None => None
    case Some(found) => Some(DateAlert(found))
  }

  class Form {
    const store: Store
    var milestones: string
    var notBuilding: string
    var error: Option<string>
    var aiResult: Option<JsValue>
    var dateWarning: Option<string>

    /** Mounting the editor hydrates its fields from the selected step's data. */
    constructor (store: Store)
      ensures this.store == store
      ensures var data := SelectedData(store.steps, store.selectedStepId);
              milestones == TextField(data, "milestones") && notBuilding == TextField(data, "notBuilding") &&
              aiResult == ResultField(data) && error == None && dateWarning == None
    {
      this.store := store;
      milestones, notBuilding := "", "";
      error, aiResult := None, None;
      dateWarning := None;
      var data := SelectedData(store.steps, store.selectedStepId);
      if data.Some? {
        milestones := TextOf(Field(data, "milestones"));
        notBuilding := TextOf(Field(data, "notBuilding"));
        if Present(Field(data, AiResultKey)) {
          aiResult := Field(data, AiResultKey);
        }
      }
    }

    method ChangeMilestones(value: string)
      modifies this, store
      ensures milestones == value && notBuilding == old(notBuilding)
      ensures error == old(error) && aiResult == old(aiResult)
      ensures dateWarning == MilestonesWarning(value)
      ensures store.steps == Saved(old(store.steps), old(store.selectedStepId), map["milestones" := JsString(value)])
      ensures store.selectedStepId == old(store.selectedStepId)
    {
      milestones := value;
      SaveData(store, map["milestones" := JsString(value)]);
      dateWarning := MilestonesWarning(value);
    }

    method ChangeNotBuilding(value: string)
      modifies this, store
      ensures notBuilding == value && milestones == old(milestones)
      ensures error == old(error) && aiResult == old(aiResult) && dateWarning == old(dateWarning)
      ensures store.steps == Saved(old(store.steps), old(store.selectedStepId), map["notBuilding" := JsString(value)])
      ensures store.selectedStepId == old(store.selectedStepId)
    {
      notBuilding := value;
      SaveData(store, map["notBuilding" := JsString(value)]);
    }

    /** The run button is enabled only when every field has a visible character. */
    function IsMissingInput(): (r: bool)
      reads this
      ensures !r <==> Text.HasVisible(milestones) && Text.HasVisible(notBuilding)
    {
      Text.Blank(milestones) || Text.Blank(notBuilding)
    }

    method RunAgent(base: string, reply: Api.Reply) returns (sent: Option<Api.Request>)
      modifies this, store
      ensures milestones == old(milestones) && notBuilding == old(notBuilding) && dateWarning == old(dateWarning)
      ensures store.selectedStepId == old(store.selectedStepId)
      ensures !HasSelection(old(store.selectedStepId)) ==>
                sent == None && store.steps == old(store.steps) &&
                error == old(error) && aiResult == old(aiResult)
      ensures HasSelection(old(store.selectedStepId)) ==>
                sent == Some(Api.RequestFor(base, Api.RoadmapPayload(milestones, notBuilding))) &&
                store.steps == AfterRun(old(store.steps), old(store.selectedStepId), Api.Outcome(reply)) &&
                RunRecorded(Api.Outcome(reply), RunFailedFallback, error, aiResult, old(aiResult))
    {
      if !HasSelection(store.selectedStepId) {
        return None;
      }
      error := None;
      var request, outcome := CallAgent(store, base, Api.RoadmapPayload(milestones, notBuilding), reply);
      sent := Some(request);
      match outcome {
        case Success(result) => aiResult := Some(result);
        case Failure(message) => error := Some(ErrorText(message, RunFailedFallback));
      }
    }
  }
}
