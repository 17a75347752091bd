/** Step 6's editor: the one metric that matters, how it is measured and reviewed, with a warning for vanity metrics. */
module SuccessMetricsAgentForm {
  import opened Wrappers
  import opened JsValues
  import opened WorkflowStore
  import opened FormSupport
  import Api
  import Text

  /** `VANITY_KEYWORDS`, in the order the editor searches them. */
  const VanityKeywords: seq<string> := ["views", "likes", "followers", "signups", "downloads", "visits", "clicks"]

  /** The index of the first keyword, from `from` on, that `lower` contains. */
  function FirstVanity(lower: string, from: nat): (r: Option<nat>)
    requires from <= |VanityKeywords|
    ensures r.Some? ==> from <= r.value < |VanityKeywords| && Text.Includes(lower, VanityKeywords[r.value])
    ensures forall j :: from <= j < |VanityKeywords| && (r.None? || j < r.value) ==>
                          !Text.Includes(lower, VanityKeywords[j])
    decreases |VanityKeywords| - from
  {
    if from == |VanityKeywords| then None
    else if Text.Includes(lower, VanityKeywords[from]) then Some(from)
    else FirstVanity(lower, from + 1)
  }

  /** The keyword the vanity check reports: the first one in list order that
      the lower-cased metric contains, wherever it sits in the text. */
  function Vanity(metric: string): (r: Option<string>)
    ensures r.Some? ==> r.value in VanityKeywords && Text.Includes(Text.ToLower(metric), r.value)
    ensures r.None? <==> forall k :: k in VanityKeywords ==> !Text.Includes(Text.ToLower(metric), k)
    ensures r.Some? ==> exists j :: 0 <= j < |VanityKeywords| && r.value == VanityKeywords[j] &&
                                    forall i :: 0 <= i < j ==> !Text.Includes(Text.ToLower(metric), VanityKeywords[i])
  {
    match FirstVanity(Text.ToLower(metric), 0)
    case None => None
    case Some(k) => Some(VanityKeywords[k])
  }

  function VanityAlert(keyword: string): string {
    "Vanity Alert: '" + keyword + "' looks nice but pays no bills. Focus on value or revenue."
  }

  /** The warning under the metric field after the metric is edited. */
  function MetricWarning(metric: string): Option<string> {
    match Vanity(metric)
    case None => None
    case Some(keyword) => Some(VanityAlert(keyword))
  }

  /** No warning exactly when no keyword occurs anywhere in the lower-cased metric. */
  lemma {:induction false} NoWarningIff(metric: string)
    ensures MetricWarning(metric).None? <==>
            forall k, i :: k in VanityKeywords ==> !Text.OccursAt(Text.ToLower(metric), k, i)
  {
    var lower := Text.ToLower(metric);
    forall k | k in VanityKeywords
      ensures Text.Includes(lower, k) <==> exists i :: Text.OccursAt(lower, k, i)
    {
      Text.IncludesIff(lower, k);
    }
    if MetricWarning(metric).None? {
      assert FirstVanity(lower, 0).None?;
      forall k | k in VanityKeywords
        ensures !Text.Includes(lower, k)
      {
        var j :| 0 <= j < |VanityKeywords| && VanityKeywords[j] == k;
      }
    }
  }

  /** The check ignores letter case. */
  lemma CaseDoesNotMatter(metric: string)
    ensures MetricWarning(Text.ToLower(metric)) == MetricWarning(metric)
  {
    assert Text.ToLower(Text.ToLower(metric)) == Text.ToLower(metric);
  }

  /** List order decides, not position in the text: "views" is reported for
      "Clicks and Views" although "clicks" comes first. */
  lemma ListOrderDecides()
    ensures MetricWarning("Clicks and Views") == Some(VanityAlert("views"))
  {
    var lower := Text.ToLower("Clicks and Views");
    assert lower[11..16] == "views";
    assert Text.OccursAt(lower, "views", 11);
    Text.IncludesIff(lower, "views");
  }

  class Form {
    const store: Store
    var metric: string
    var measurement: string
    var timeframe: string
    var error: Option<string>
    var aiResult: Option<JsValue>
    var warnings: Option<string>

    /** Mounting the editor hydrates its fields from the selected step's data. */
    constructor (store: Store)
      ensures this.store == store
      ensures var data := SelectedData(store.steps, store.selectedStepId);
              metric == TextField(data, "metric") && measurement == TextField(data, "measurement") && timeframe == TextField(data, "timeframe") &&
              aiResult == ResultField(data) && error == None && warnings == None
    {
      this.store := store;
      metric, measurement, timeframe := "", "", "";
      error, aiResult := None, None;
      warnings := None;
      var data := SelectedData(store.steps, store.selectedStepId);
      if data.Some? {
        metric := TextOf(Field(data, "metric"));
        measurement := TextOf(Field(data, "measurement"));
        timeframe := TextOf(Field(data, "timeframe"));
        if Present(Field(data, AiResultKey)) {
          aiResult := Field(data, AiResultKey);
        }
      }
    }

    method ChangeMetric(value: string)
      modifies this, store
      ensures metric == value && measurement == old(measurement) && timeframe == old(timeframe)
      ensures error == old(error) && aiResult == old(aiResult)
      ensures warnings == MetricWarning(value)
      ensures store.steps == Saved(old(store.steps), old(store.selectedStepId), map["metric" := JsString(value)])
      ensures store.selectedStepId == old(store.selectedStepId)
    {
      metric := value;
      SaveData(store, map["metric" := JsString(value)]);
      warnings := MetricWarning(value);
    }

    method ChangeMeasurement(value: string)
      modifies this, store
      ensures measurement == value && metric == old(metric) && timeframe == old(timeframe)
      ensures error == old(error) && aiResult == old(aiResult) && warnings == old(warnings)
      ensures store.steps == Saved(old(store.steps), old(store.selectedStepId), map["measurement" := JsString(value)])
      ensures store.selectedStepId == old(store.selectedStepId)
    {
      measurement := value;
      SaveData(store, map["measurement" := JsString(value)]);
    }

    method ChangeTimeframe(value: string)
      modifies this, store
      ensures timeframe == value && metric == old(metric) && measurement == old(measurement)
      ensures error == old(error) && aiResult == old(aiResult) && warnings == old(warnings)
      ensures store.steps == Saved(old(store.steps), old(store.selectedStepId), map["timeframe" := JsString(value)])
      ensures store.selectedStepId == old(store.selectedStepId)
    {
      timeframe := value;
      SaveData(store, map["timeframe" := JsString(value)]);
    }

    /** The run button is enabled only when every field has a visible character. */
    function IsMissingInput(): (r: bool)
      reads this
      ensures !r <==> Text.HasVisible(metric) && Text.HasVisible(measurement) && Text.HasVisible(timeframe)
    {
      Text.Blank(metric) || Text.Blank(measurement) || Text.Blank(timeframe)
    }

    /** `disabled={loading || isMissingInput}`. */
    function RunDisabled(loading: bool): (r: bool)
      reads this
      ensures !r <==> !loading && Text.HasVisible(metric) && Text.HasVisible(measurement) && Text.HasVisible(timeframe)
    {
      loading || IsMissingInput()
    }

    method RunAgent(base: string, reply: Api.Reply) returns (sent: Option<Api.Request>)
      modifies this, store
      ensures metric == old(metric) && measurement == old(measurement) && timeframe == old(timeframe) && warnings == old(warnings)
      ensures store.selectedStepId == old(store.selectedStepId)
      ensures !HasSelection(old(store.selectedStepId)) ==>
                sent == None && store.steps == old(store.steps) &&
                error == old(error) && aiResult == old(aiResult)
      ensures HasSelection(old(store.selectedStepId)) ==>
                sent == Some(Api.RequestFor(base, Api.SuccessMetricsPayload(metric, measurement, timeframe))) &&
                store.steps == AfterRun(old(store.steps), old(store.selectedStepId), Api.Outcome(reply)) &&
                RunRecorded(Api.Outcome(reply), RunFailedFallback, error, aiResult, old(aiResult))
    {
      if !HasSelection(store.selectedStepId) {
        return None;
      }
      error := None;
      var request, outcome := CallAgent(store, base, Api.SuccessMetricsPayload(metric, measurement, timeframe), reply);
      sent := Some(request);
      match outcome {
        case Success(result) => aiResult := Some(result);
        case Failure(message) => error := Some(ErrorText(message, RunFailedFallback));
      }
    }
  }
}
