/** The client of the remote analysis service: request construction, the
    endpoint table and how a reply becomes a result or one error message.
    `fetch` itself is not modelled: its reply is an input. */
module Api {
  import opened Wrappers
  import opened JsValues
  import Text

  const DefaultBaseUrl := "http://localhost:5000"
  const GenericFailure := "API request failed"
  const PreviewLength: nat := 200

  /** The base URL: the configured value when it is a non-empty string, else the default. */
  function BaseUrl(configured: Option<string>): (r: string)
    ensures configured.Some? && configured.value != "" ==> r == configured.value
    ensures configured.None? || configured.value == "" ==> r == DefaultBaseUrl
  {
    if configured.Some? && configured.value != "" then configured.value else DefaultBaseUrl
  }

  /** One `{agent, data}` entry of the decision agent's context snapshot. */
  datatype ContextEntry = ContextEntry(agent: string, data: Option<map<string, JsValue>>)

  /** The request bodies; each field is named after the JSON key it is sent under. */
  datatype Payload =
    | IdeaIntakePayload(problem: string, why_exists: string, why_now: string)
    | AssumptionPayload(problem: string, true_factors: string, failure_points: string)
    | IcpPayload(customer_identity: string, urgency: string, alternatives: string)
    | ValuePropPayload(differentiation: string, pain_removed: string)
    | MvpScopePayload(problem: string, target_user: string, value_proposition: string)
    | SuccessMetricsPayload(metric: string, measurement: string, timeframe: string)
    | RoadmapPayload(milestones: string, not_building: string)
    | DecisionRiskPayload(decisions: string, risks: string, open_questions: string,
                          full_context: seq<ContextEntry>)

  /** The eight members of the `api` table. */
  datatype Method =
    | IdeaIntake | Assumptions | Icp | ValueProposition
    | MvpScope | SuccessMetrics | Roadmap | DecisionRisk

  /** `callMvpScopeAgent` is the `mvpScope` member itself. */
  const CallMvpScopeAgent: Method := MvpScope

  function Endpoint(m: Method): string {
    match m
    case IdeaIntake => "idea-intake"
    case Assumptions => "assumptions"
    case Icp => "icp"
    case ValueProposition => "value-proposition"
    case MvpScope => "mvp-scope"
    case SuccessMetrics => "success-metrics"
    case Roadmap => "roadmap"
    case DecisionRisk => "decision-risk"
  }

  /** Each method accepts exactly one payload shape. */
  function MethodOf(p: Payload): Method {
    match p
    case IdeaIntakePayload(_, _, _) => IdeaIntake
    case AssumptionPayload(_, _, _) => Assumptions
    case IcpPayload(_, _, _) => Icp
    case ValuePropPayload(_, _) => ValueProposition
    case MvpScopePayload(_, _, _) => MvpScope
    case SuccessMetricsPayload(_, _, _) => SuccessMetrics
    case RoadmapPayload(_, _) => Roadmap
    case DecisionRiskPayload(_, _, _, _) => DecisionRisk
  }

  /** Distinct methods post to distinct endpoints. */
  lemma EndpointsDistinct(m: Method, n: Method)
    requires m != n
    ensures Endpoint(m) != Endpoint(n)
  {
  }

  datatype Request = Request(url: string, payload: Payload)

  /** `${base}/api/${endpoint}` with the payload as the POST body. */
  function RequestFor(base: string, p: Payload): (r: Request)
    ensures r.payload == p
    ensures |r.url| == |base| + 5 + |Endpoint(MethodOf(p))|
    ensures r.url[..|base|] == base && r.url[|base|..|base| + 5] == "/api/"
    ensures r.url[|base| + 5..] == Endpoint(MethodOf(p))
  {
    Request(base + "/api/" + Endpoint(MethodOf(p)), p)
  }

  /** What `fetch` produced: a rejection with its message, or a response with
      its status, its body text and the outcome of parsing that text as JSON
      (the parsed value, or the parser's error message). */
  datatype Reply =
    | Rejected(message: string)
    | Response(status: nat, text: string, parsed: Result<JsValue, string>)

  predicate IsOk(status: nat) {
    200 <= status <= 299
  }

  /** The message for a body that is not a JSON value with an error field. */
  function ServerError(status: nat, text: string): (r: string)
    ensures var head := "Server Error (" + Text.NatToString(status) + "): ";
            |head| <= |r| && r[..|head|] == head &&
            var preview := r[|head|..];
            |preview| == (if |text| <= PreviewLength then |text| else PreviewLength) &&
            preview == text[..|preview|]
    ensures |text| <= PreviewLength ==>
            r == "Server Error (" + Text.NatToString(status) + "): " + text
  {
    "Server Error (" + Text.NatToString(status) + "): " + Text.Prefix(text, PreviewLength)
  }

  /** The message thrown for a non-2xx response (`errorInfo`). */
  function ErrorInfo(status: nat, text: string, parsed: Result<JsValue, string>): (r: string)
    ensures parsed.Failure? ==> r == ServerError(status, text)
    ensures parsed == Success(JsNull) ==> r == ServerError(status, text)
    ensures parsed.Success? && parsed.value != JsNull ==>
            r == if Present(Prop(parsed.value, "error")) then ToJsString(Prop(parsed.value, "error").value)
                 else if Present(Prop(parsed.value, "message")) then ToJsString(Prop(parsed.value, "message").value)
                 else GenericFailure
  {
    match parsed
    case Failure(_) => ServerError(status, text)
    // Reading `.error` of `null` throws inside the `try`, which lands in the same `catch`.
    case Success(json) =>
      if json == JsNull then ServerError(status, text) else ErrorField(json)
  }

  /** `json.error || json.message || "API request failed"`, rendered by `new Error`. */
  function ErrorField(json: JsValue): string {
    var error, message := Prop(json, "error"), Prop(json, "message");
    if Present(error) then ToJsString(error.value)
    else if Present(message) then ToJsString(message.value)
    else GenericFailure
  }

  /** `post`: the parsed body of a 2xx response, otherwise the error it throws. */
  function Outcome(reply: Reply): (r: Result<JsValue, string>)
    ensures reply.Rejected? ==> r == Failure(reply.message)
    ensures reply.Response? && !IsOk(reply.status) ==> r.Failure?
    ensures reply.Response? && IsOk(reply.status) ==> r == reply.parsed
  {
    match reply
    case Rejected(message) => Failure(message)
    case Response(status, text, parsed) =>
      if IsOk(status) then parsed else Failure(ErrorInfo(status, text, parsed))
  }

  /** A non-2xx JSON body with a non-empty string `error` surfaces that string. */
  lemma ErrorFieldWins(status: nat, text: string, fields: map<string, JsValue>, e: string)
    requires !IsOk(status) && "error" in fields && fields["error"] == JsString(e) && e != ""
    ensures Outcome(Response(status, text, Success(JsObject(fields)))) == Failure(e)
  {
  }

  /** Without a truthy `error`, a truthy string `message` is surfaced. */
  lemma MessageFieldNext(status: nat, text: string, fields: map<string, JsValue>, m: string)
    requires !IsOk(status) && !Present(Prop(JsObject(fields), "error"))
    requires "message" in fields && fields["message"] == JsString(m) && m != ""
    ensures Outcome(Response(status, text, Success(JsObject(fields)))) == Failure(m)
  {
  }

  /** A non-JSON error body (an HTML error page, say) yields the status and a
      preview: the first 200 characters of the body, or all of a shorter one. */
  lemma NonJsonBodyPreview(status: nat, text: string, parseError: string)
    requires !IsOk(status)
    ensures var r := Outcome(Response(status, text, Failure(parseError)));
            var head := "Server Error (" + Text.NatToString(status) + "): ";
            r.Failure? && r.error[..|head|] == head &&
            |r.error| == |head| + (if |text| <= PreviewLength then |text| else PreviewLength) &&
            r.error[|head|..] == text[..|r.error| - |head|]
  {
  }

  /** The message surfaced for a failed call is empty only when the error
      field it came from renders as "" (a truthy empty array, say). */
  lemma ErrorInfoNonEmpty(status: nat, text: string, parsed: Result<JsValue, string>)
    ensures var r := ErrorInfo(status, text, parsed);
            (r == "" ==>
               parsed.Success? && parsed.value.JsObject? &&
               ((Present(Prop(parsed.value, "error")) && ToJsString(Prop(parsed.value, "error").value) == "") ||
                (Present(Prop(parsed.value, "message")) && ToJsString(Prop(parsed.value, "message").value) == "")))
  {
  }
}
