# Founding PM Copilot: client-side state model

A Dafny model of the client-side state logic of the Founding PM Copilot web app. The app takes a founder through
eight agent steps: idea intake, assumptions, ICP, value proposition, MVP scope, success metrics, roadmap, and
decision & risk. The model covers:

- **The workflow store** (`WorkflowStore`). It holds the fixed list of eight steps and the selected step id. It has
  two mutators: `selectStep` and `updateStep`, a shallow merge of a partial step. The store is a class. The
  per-step merge is the pure function `UpdateSteps`.
- **The canvas viewport** (`WorkflowCanvas`). This is the zoom, pan, drag and space-key state with its handlers.
  The pure transition function `Next` describes every event. The class `Canvas` keeps the state in fields, and each
  handler is proved to perform `Next`.
- **The side panel** (`ConfigPanel`). It looks up the selected step and picks the editor for its id. It also
  handles the status buttons, the auto-promoting context field and the close button.
- **The eight agent editors** (`IdeaIntakeForm`, `AssumptionAgentForm`, `IcpAgentForm`,
  `ValuePropositionAgentForm`, `MvpScopeAgentForm`, `SuccessMetricsAgentForm`, `RoadmapAgentForm`,
  `DecisionAgentForm`). Each editor is a class with its local field state and a reference to the store.
  - Hydration is the constructor.
  - Field edits persist through `saveData`, which merges over the step's data (`FormSupport`).
  - Each editor has its validation predicates and its run handler.
  - A successful run stores the reply under `aiResult`; a failure only sets the local error.
  - The pure validators are modelled and proved separately: the MVP blocking rule and its reason, the vanity-metric
    keyword check, the date pattern of the roadmap, and the decision log's high-risk filter and `"; "`-joined payload.
- **The API client** (`Api`). It covers URL construction, the endpoint table and how a reply becomes a result or
  an error message.

JavaScript values stored in step data and returned by the server are the datatype `JsValues.JsValue`. A property
that is absent is `None`. JavaScript truthiness is `Truthy`.

The server's reply is an input of the run handlers (`Api.Reply`): a rejected `fetch`, or a status with a body text
and the outcome of `JSON.parse` on it. A run is modelled as one sequential call.

The identifiers the Decision editor needs for a new entry are parameters of `AddDecision`: the random UUID and the
local date string.

The high risks the Decision editor lists and sends are read from step 2's `data.assumptions`. No editor ever writes
that key: the Assumption editor saves `trueFactors`, `failurePoints` and `aiResult`. So the list is empty unless the
data was put there some other way. `DecisionAgentForm.NoRisksAtStart` proves it is empty at start-up.

## Model

| member | source | states |
|---|---|---|
| WorkflowStore.FixedAgentsShape | src/store/useWorkflowStore.ts:21-30 | the registry has eight steps with ids '1'..'8' in order, pairwise distinct, all not started and without data |
| WorkflowStore.Store.constructor | src/store/useWorkflowStore.ts:32-34 | the store starts with the registry and no selection |
| WorkflowStore.Store.SelectStep | src/store/useWorkflowStore.ts:35 | the selection becomes exactly the given id (null or unknown included); the steps are untouched |
| WorkflowStore.Merge | src/store/useWorkflowStore.ts:38 | each field carried by the partial step overwrites, each absent one keeps its value; `data` is replaced as a whole |
| WorkflowStore.UpdateSteps | src/store/useWorkflowStore.ts:36-40 | the list keeps its length; steps with another id are unchanged; steps with the id become the merge |
| WorkflowStore.Store.UpdateStep | src/store/useWorkflowStore.ts:36-40 | the steps become the merged list and the selection is unchanged |
| WorkflowStore.UpdateUnknownId | src/store/useWorkflowStore.ts:37-39 | an id no step has leaves the list equal to before |
| WorkflowStore.UpdateKeepsIdentity | src/store/useWorkflowStore.ts:36-40 | a patch without id, name or description keeps every step's id, name, description and position, and distinct ids stay distinct |
| WorkflowStore.UpdateIdempotent | src/store/useWorkflowStore.ts:38 | applying the same update twice equals applying it once |
| WorkflowStore.StatusThenDataScenario | src/store/useWorkflowStore.ts:36-40 | a status change then a data write on step '2' leave it with both and every other step as registered |
| WorkflowStore.FindIndex | src/components/config/ConfigPanel.tsx:20 | the position of the first step with the id, or none when no step has it |
| WorkflowStore.FindStep | src/components/config/ConfigPanel.tsx:17 | a step is found iff the selection is non-null and some step has that id; the step found is the first with that id |
| WorkflowCanvas.Clamp | src/components/workflow/WorkflowCanvas.tsx:50 | the result is within [25, 200], equals an in-range input, and is the violated bound otherwise |
| WorkflowCanvas.Next | src/components/workflow/WorkflowCanvas.tsx:21-135 | one event keeps the zoom in range; only a mouse-down starts a drag; only a plain wheel, move and reset change the pan; only a ctrl-wheel and the zoom controls change the zoom; space key-up ends drag and hand mode |
| WorkflowCanvas.WheelEffect | src/components/workflow/WorkflowCanvas.tsx:44-62 | a ctrl-wheel sets the zoom to Clamp(z - 0.1 * deltaY) and keeps everything else; a plain wheel subtracts both deltas from the pan and keeps everything else |
| WorkflowCanvas.KeyDownEffect | src/components/workflow/WorkflowCanvas.tsx:21-26 | key-down sets hand mode iff the key is Space, not a repeat and focus is not in a text field; nothing else changes |
| WorkflowCanvas.MouseUpEffect | src/components/workflow/WorkflowCanvas.tsx:126-128 | mouse-up and mouse-leave clear the drag flag and change nothing else |
| WorkflowCanvas.RunKeepsZoomInRange | src/components/workflow/WorkflowCanvas.tsx:130-131 | from a zoom in [25, 200] every event sequence keeps it there |
| WorkflowCanvas.ReachableZoomInRange | src/components/workflow/WorkflowCanvas.tsx:11-15 | every state reachable from the initial viewport has its zoom in [25, 200] |
| WorkflowCanvas.DragTelescopes | src/components/workflow/WorkflowCanvas.tsx:112-124 | across a drag the pan moves by the final pointer position minus the drag's start position |
| WorkflowCanvas.MovesWithoutDrag | src/components/workflow/WorkflowCanvas.tsx:113 | pointer motion without an active drag changes nothing |
| WorkflowCanvas.SpaceReleaseHaltsPan | src/components/workflow/WorkflowCanvas.tsx:27-31 | after space is released, later pointer motion leaves the pan where it was |
| WorkflowCanvas.WheelPansAdd | src/components/workflow/WorkflowCanvas.tsx:57-60 | two plain wheel pans equal one pan by the summed deltas |
| WorkflowCanvas.FiveZoomInsThenReset | src/components/workflow/WorkflowCanvas.tsx:130-135 | five zoom-ins from start-up reach 150; reset gives zoom 100 and pan (0, 0) |
| WorkflowCanvas.MouseDownStartsDrag | src/components/workflow/WorkflowCanvas.tsx:84-110 | a press on a button or node changes nothing; elsewhere a drag starts at the pointer iff space is held, the middle button is used or the target is the background |
| WorkflowCanvas.Canvas.constructor | src/components/workflow/WorkflowCanvas.tsx:11-15 | zoom 100, pan (0, 0), no drag, space not pressed |
| WorkflowCanvas.Canvas.HandleKeyDown | src/components/workflow/WorkflowCanvas.tsx:21-26 | the fields become `Next` of the old state on a key-down, zoom kept in range |
| WorkflowCanvas.Canvas.HandleKeyUp | src/components/workflow/WorkflowCanvas.tsx:27-32 | the fields become `Next` of the old state on a key-up |
| WorkflowCanvas.Canvas.HandleWheel | src/components/workflow/WorkflowCanvas.tsx:44-62 | the fields become `Next` of the old state on a wheel event |
| WorkflowCanvas.Canvas.HandleMouseDown | src/components/workflow/WorkflowCanvas.tsx:76-110 | the fields become `Next` of the old state on a mouse-down |
| WorkflowCanvas.Canvas.HandleMouseMove | src/components/workflow/WorkflowCanvas.tsx:112-124 | the fields become `Next` of the old state on a mouse-move |
| WorkflowCanvas.Canvas.HandleMouseUp | src/components/workflow/WorkflowCanvas.tsx:126-128 | the fields become `Next` of the old state on mouse-up, which equals its effect on mouse-leave |
| WorkflowCanvas.Canvas.HandleZoomIn | src/components/workflow/WorkflowCanvas.tsx:130 | the zoom becomes min(z + 10, 200) |
| WorkflowCanvas.Canvas.HandleZoomOut | src/components/workflow/WorkflowCanvas.tsx:131 | the zoom becomes max(z - 10, 25) |
| WorkflowCanvas.Canvas.HandleResetZoom | src/components/workflow/WorkflowCanvas.tsx:132-135 | zoom 100 and pan (0, 0) |
| ConfigPanel.EditorFor | src/components/config/ConfigPanel.tsx:53-69 | the generic editor is chosen iff the id is not one of '1'..'8' |
| ConfigPanel.EditorsDistinct | src/components/config/ConfigPanel.tsx:53-69 | the ids '1'..'8' get pairwise different editors |
| ConfigPanel.View | src/components/config/ConfigPanel.tsx:17-20 | the panel renders nothing iff the selection finds no step; otherwise it shows the first step with that id, its 1-based position from `findIndex` and its editor |
| ConfigPanel.Promoted | src/components/config/ConfigPanel.tsx:89-93 | not-started becomes in-progress; any other status is kept |
| ConfigPanel.StatusChangeOnlyThatStep | src/components/config/ConfigPanel.tsx:22-24 | with distinct ids a status change rewrites that step's status and nothing else, from any status to any status |
| ConfigPanel.HandleStatusChange | src/components/config/ConfigPanel.tsx:22-24 | the store applies a status-only patch to the selected step; the selection is kept |
| ConfigPanel.HandleContextInput | src/components/config/ConfigPanel.tsx:89-93 | typing promotes a not-started selected step to in-progress; in any other status the steps are left unchanged |
| ConfigPanel.Close | src/components/config/ConfigPanel.tsx:42 | the selection becomes null and the steps are untouched |
| FormSupport.SaveData | src/components/config/agents/IdeaIntakeForm.tsx:32-37 | the store's steps become `Saved`: the selected step's data merged with the updates; nothing happens without a selection |
| FormSupport.SavedMerges | src/components/config/agents/MvpScopeAgentForm.tsx:37-42 | with distinct ids, saving on step k stores its old data overridden by the updates, keeps every other key and its status, and leaves other steps alone |
| FormSupport.SavedWithoutStep | src/components/config/agents/DecisionAgentForm.tsx:45-50 | when the selection matches no step, saving changes nothing |
| FormSupport.SavesAccumulate | src/components/config/agents/IdeaIntakeForm.tsx:32-37 | two saves on the same step accumulate both key sets, later values winning |
| FormSupport.Field | src/components/config/agents/IdeaIntakeForm.tsx:21-30 | a value is read iff the data exists and holds the key, and it is the value stored under that key |
| FormSupport.TextField | src/components/config/agents/IdeaIntakeForm.tsx:21-30 | a stored string hydrates the field; absent data or key gives '' |
| FormSupport.ResultField | src/components/config/agents/IdeaIntakeForm.tsx:26-28 | a stored result is restored iff it is truthy |
| FormSupport.ErrorText | src/components/config/agents/IdeaIntakeForm.tsx:54 | a non-empty error message is shown, otherwise the fallback |
| FormSupport.RunPersistsOnlyResults | src/components/config/agents/IdeaIntakeForm.tsx:50-54 | a success stores the result under `aiResult` keeping the other keys and steps; a failure changes no step |
| FormSupport.CallAgent | src/components/config/agents/IdeaIntakeForm.tsx:45-51 | the request is built from the payload, the outcome is `post`'s, and only a success is saved |
| IdeaIntakeForm.Form.constructor | src/components/config/agents/IdeaIntakeForm.tsx:21-30 | `problem`, `whyExists`, `whyNow` hydrate from the selected step's data, defaulting to '' |
| IdeaIntakeForm.Form.ChangeProblem | src/components/config/agents/IdeaIntakeForm.tsx:82-85 | the field takes the value and `problem` is saved by merge; nothing else changes |
| IdeaIntakeForm.Form.ChangeWhyExists | src/components/config/agents/IdeaIntakeForm.tsx:98-101 | the field takes the value and `whyExists` is saved by merge |
| IdeaIntakeForm.Form.ChangeWhyNow | src/components/config/agents/IdeaIntakeForm.tsx:115-118 | the field takes the value and `whyNow` is saved by merge |
| IdeaIntakeForm.Form.IsMissingInput | src/components/config/agents/IdeaIntakeForm.tsx:60 | input is complete iff all three fields have a visible character |
| IdeaIntakeForm.Form.RunAgent | src/components/config/agents/IdeaIntakeForm.tsx:39-57 | without a selection nothing happens; otherwise the three fields are sent, a success is saved and shown, a failure sets the error only |
| AssumptionAgentForm.ProblemContext | src/components/config/agents/AssumptionAgentForm.tsx:10-11 | step 1's `problem` when it is a truthy string, the placeholder when absent or falsy |
| AssumptionAgentForm.ContextFollowsIdeaIntake | src/components/config/agents/AssumptionAgentForm.tsx:10-11 | once the idea editor saves a non-empty problem on step 1, that problem is the context sent |
| AssumptionAgentForm.ContextBeforeIdeaIntake | src/components/config/agents/AssumptionAgentForm.tsx:11 | at start-up the placeholder "Problem not defined yet." is the context |
| AssumptionAgentForm.Form.constructor | src/components/config/agents/AssumptionAgentForm.tsx:24-32 | `trueFactors`, `failurePoints` hydrate, defaulting to '' |
| AssumptionAgentForm.Form.ChangeTrueFactors | src/components/config/agents/AssumptionAgentForm.tsx:90-93 | the field takes the value and `trueFactors` is saved by merge |
| AssumptionAgentForm.Form.ChangeFailurePoints | src/components/config/agents/AssumptionAgentForm.tsx:106-109 | the field takes the value and `failurePoints` is saved by merge |
| AssumptionAgentForm.Form.IsMissingInput | src/components/config/agents/AssumptionAgentForm.tsx:62 | input is complete iff both fields have a visible character; the problem is not required |
| AssumptionAgentForm.Form.RunAgent | src/components/config/agents/AssumptionAgentForm.tsx:41-59 | sends the problem context and both fields; success saved, failure only shown |
| IcpAgentForm.Form.constructor | src/components/config/agents/IcpAgentForm.tsx:21-30 | the three fields hydrate, defaulting to '' |
| IcpAgentForm.Form.ChangeCustomerIdentity | src/components/config/agents/IcpAgentForm.tsx:83-86 | the field takes the value and `customerIdentity` is saved by merge |
| IcpAgentForm.Form.ChangeUrgency | src/components/config/agents/IcpAgentForm.tsx:100-103 | the field takes the value and `urgency` is saved by merge |
| IcpAgentForm.Form.ChangeAlternatives | src/components/config/agents/IcpAgentForm.tsx:117-120 | the field takes the value and `alternatives` is saved by merge |
| IcpAgentForm.Form.IsMissingInput | src/components/config/agents/IcpAgentForm.tsx:60 | input is complete iff all three fields have a visible character |
| IcpAgentForm.Form.RunAgent | src/components/config/agents/IcpAgentForm.tsx:39-57 | sends the three fields; success saved, failure only shown |
| ValuePropositionAgentForm.Form.constructor | src/components/config/agents/ValuePropositionAgentForm.tsx:20-28 | `differentiation`, `painRemoved` hydrate, defaulting to '' |
| ValuePropositionAgentForm.Form.ChangeDifferentiation | src/components/config/agents/ValuePropositionAgentForm.tsx:79-82 | the field takes the value and `differentiation` is saved by merge |
| ValuePropositionAgentForm.Form.ChangePainRemoved | src/components/config/agents/ValuePropositionAgentForm.tsx:96-99 | the field takes the value and `painRemoved` is saved by merge |
| ValuePropositionAgentForm.Form.IsMissingInput | src/components/config/agents/ValuePropositionAgentForm.tsx:57 | input is complete iff both fields have a visible character |
| ValuePropositionAgentForm.Form.RunAgent | src/components/config/agents/ValuePropositionAgentForm.tsx:37-54 | sends both fields; success saved, failure only shown |
| MvpScopeAgentForm.RemoveAt | src/components/config/agents/MvpScopeAgentForm.tsx:63 | exactly position `index` is dropped and the order kept; an index outside the list removes nothing |
| MvpScopeAgentForm.RemoveUndoesAdd | src/components/config/agents/MvpScopeAgentForm.tsx:45-71 | removing the item just appended gives the list back |
| MvpScopeAgentForm.BlockReason | src/components/config/agents/MvpScopeAgentForm.tsx:115-120 | empty iff not blocked; bloat is reported first with the count, then missing exclusions, then a blank outcome |
| MvpScopeAgentForm.SixthMustHaveBlocks | src/components/config/agents/MvpScopeAgentForm.tsx:107-116 | a sixth must-have blocks with "Too many features (6/5). Reduce scope." and removing any one item lifts the bloat |
| MvpScopeAgentForm.ScopePayload | src/components/config/agents/MvpScopeAgentForm.tsx:81-87 | the outcome is sent as `problem`, with the fixed `target_user` "First-time SaaS founders" and `value_proposition` "Reduce time to first value", through the endpoint of `callMvpScopeAgent` |
| MvpScopeAgentForm.Form.constructor | src/components/config/agents/MvpScopeAgentForm.tsx:26-35 | the lists, the outcome and a stored result hydrate; both inputs start empty |
| MvpScopeAgentForm.Form.ChangeOutcome | src/components/config/agents/MvpScopeAgentForm.tsx:143-146 | the outcome takes the value and is saved by merge |
| MvpScopeAgentForm.Form.ChangeNewItem | src/components/config/agents/MvpScopeAgentForm.tsx:167 | only the must-have input changes |
| MvpScopeAgentForm.Form.ChangeNewExclusion | src/components/config/agents/MvpScopeAgentForm.tsx:222 | only the exclusion input changes |
| MvpScopeAgentForm.Form.AddMustHave | src/components/config/agents/MvpScopeAgentForm.tsx:45-51 | a blank input changes nothing; otherwise the trimmed text is appended, the list saved and the input cleared |
| MvpScopeAgentForm.Form.AddExclusion | src/components/config/agents/MvpScopeAgentForm.tsx:53-59 | the same for exclusions |
| MvpScopeAgentForm.Form.RemoveItem | src/components/config/agents/MvpScopeAgentForm.tsx:61-71 | the chosen list loses position `index` and is saved; the other list is unchanged |
| MvpScopeAgentForm.Form.IsBlocked | src/components/config/agents/MvpScopeAgentForm.tsx:107-112 | not blocked iff at most five must-haves, some exclusion, and a visible outcome |
| MvpScopeAgentForm.Form.RunAgent | src/components/config/agents/MvpScopeAgentForm.tsx:73-104 | sends the outcome with the two fixed strings; success saved, failure shown with "Failed to run MVP Scope Agent" as fallback |
| SuccessMetricsAgentForm.FirstVanity | src/components/config/agents/SuccessMetricsAgentForm.tsx:50 | the first keyword in list order that the text contains; none before it is contained |
| SuccessMetricsAgentForm.Vanity | src/components/config/agents/SuccessMetricsAgentForm.tsx:49-50 | nothing is reported iff no keyword occurs in the lower-cased metric; a reported keyword occurs there and no keyword before it in list order does |
| SuccessMetricsAgentForm.NoWarningIff | src/components/config/agents/SuccessMetricsAgentForm.tsx:49-55 | no warning iff no keyword occurs anywhere in the lower-cased metric |
| SuccessMetricsAgentForm.CaseDoesNotMatter | src/components/config/agents/SuccessMetricsAgentForm.tsx:49 | the warning of a metric equals that of its lower-cased form |
| SuccessMetricsAgentForm.ListOrderDecides | src/components/config/agents/SuccessMetricsAgentForm.tsx:50-52 | "Clicks and Views" is reported as 'views': list order wins over position in the text |
| SuccessMetricsAgentForm.Form.constructor | src/components/config/agents/SuccessMetricsAgentForm.tsx:26-35 | the three fields hydrate, defaulting to ''; no warning |
| SuccessMetricsAgentForm.Form.ChangeMetric | src/components/config/agents/SuccessMetricsAgentForm.tsx:44-56 | the metric is saved by merge and the warning set or cleared by the vanity check |
| SuccessMetricsAgentForm.Form.ChangeMeasurement | src/components/config/agents/SuccessMetricsAgentForm.tsx:124-127 | the field takes the value and `measurement` is saved by merge |
| SuccessMetricsAgentForm.Form.ChangeTimeframe | src/components/config/agents/SuccessMetricsAgentForm.tsx:142-145 | the field takes the value and `timeframe` is saved by merge |
| SuccessMetricsAgentForm.Form.IsMissingInput | src/components/config/agents/SuccessMetricsAgentForm.tsx:79 | input is complete iff all three fields have a visible character |
| SuccessMetricsAgentForm.Form.RunDisabled | src/components/config/agents/SuccessMetricsAgentForm.tsx:162 | enabled iff not loading and all three fields have a visible character |
| SuccessMetricsAgentForm.Form.RunAgent | src/components/config/agents/SuccessMetricsAgentForm.tsx:58-76 | without a selection nothing happens; otherwise the three fields are sent; success saved, failure only shown |
| RoadmapAgentForm.FirstMonth | src/components/config/agents/RoadmapAgentForm.tsx:45 | the first month alternative, in pattern order, matching case-insensitively at the position |
| RoadmapAgentForm.Trailing | src/components/config/agents/RoadmapAgentForm.tsx:45 | the digits after the slash number one or two |
| RoadmapAgentForm.MatchAt | src/components/config/agents/RoadmapAgentForm.tsx:45 | a match at a position is at least two characters long and fits in the text |
| RoadmapAgentForm.FindDate | src/components/config/agents/RoadmapAgentForm.tsx:46-47 | the leftmost position where the pattern matches; none earlier |
| RoadmapAgentForm.DateMatch | src/components/config/agents/RoadmapAgentForm.tsx:47 | the reported text is non-empty and occurs in the milestones |
| RoadmapAgentForm.DateFoundIff | src/components/config/agents/RoadmapAgentForm.tsx:45-50 | a date is found iff the text holds a quarter Q1-Q4, a month name, "202" and a digit, or digit '/' digit, letters compared without case |
| RoadmapAgentForm.QuarterReported | src/components/config/agents/RoadmapAgentForm.tsx:47 | "Q3 launch" reports "Q3" |
| RoadmapAgentForm.SlashDateGreedy | src/components/config/agents/RoadmapAgentForm.tsx:45-47 | a text starting with two digits, a slash and two digits reports all five characters |
| RoadmapAgentForm.NoMonthAtDigit | src/components/config/agents/RoadmapAgentForm.tsx:45 | no month name matches where a digit stands |
| RoadmapAgentForm.Form.constructor | src/components/config/agents/RoadmapAgentForm.tsx:23-31 | `milestones`, `notBuilding` hydrate, defaulting to ''; no warning |
| RoadmapAgentForm.Form.ChangeMilestones | src/components/config/agents/RoadmapAgentForm.tsx:40-51 | the milestones are saved by merge and the date warning set or cleared with the matched text |
| RoadmapAgentForm.Form.ChangeNotBuilding | src/components/config/agents/RoadmapAgentForm.tsx:115-118 | the field takes the value and `notBuilding` is saved by merge |
| RoadmapAgentForm.Form.IsMissingInput | src/components/config/agents/RoadmapAgentForm.tsx:73 | input is complete iff both fields have a visible character |
| RoadmapAgentForm.Form.RunAgent | src/components/config/agents/RoadmapAgentForm.tsx:53-70 | sends both fields; success saved, failure only shown |
| DecisionAgentForm.HighRisks | src/components/config/agents/DecisionAgentForm.tsx:19 | an item is kept iff its `risk` is 'High', and each high-risk item is kept as often as it occurs; never longer than the input |
| DecisionAgentForm.HighRisksOne | src/components/config/agents/DecisionAgentForm.tsx:19 | a single item is kept iff it is a high risk |
| DecisionAgentForm.HighRisksAppend | src/components/config/agents/DecisionAgentForm.tsx:19 | filtering a concatenation is the concatenation of the filtered parts, so kept items stay in input order |
| DecisionAgentForm.Texts | src/components/config/agents/DecisionAgentForm.tsx:87-88 | one rendered `text` per item, in order |
| DecisionAgentForm.FullContext | src/components/config/agents/DecisionAgentForm.tsx:81-84 | one entry per step, in step order, with its name and data |
| DecisionAgentForm.LoggedDecisionIsSent | src/components/config/agents/DecisionAgentForm.tsx:52-62 | the first logged decision is the payload's decisions by itself; a later one adds "; " and its text |
| DecisionAgentForm.AddedQuestionIsSent | src/components/config/agents/DecisionAgentForm.tsx:89 | an added question becomes the payload's questions, or is appended after "; " |
| DecisionAgentForm.NoRisksAtStart | src/components/config/agents/DecisionAgentForm.tsx:18-19 | at start-up no high risk is listed or sent |
| DecisionAgentForm.Form.constructor | src/components/config/agents/DecisionAgentForm.tsx:35-43 | decisions, questions and a stored result hydrate; inputs start empty |
| DecisionAgentForm.Form.Risks | src/components/config/agents/DecisionAgentForm.tsx:18-19 | the listed risks are exactly the 'High' items of step 2's assumptions, each as often as it occurs there |
| DecisionAgentForm.Form.ChangeNewDecision | src/components/config/agents/DecisionAgentForm.tsx:142 | only the decision input changes |
| DecisionAgentForm.Form.ChangeNewQuestion | src/components/config/agents/DecisionAgentForm.tsx:183 | only the question input changes |
| DecisionAgentForm.Form.AddDecision | src/components/config/agents/DecisionAgentForm.tsx:52-62 | a blank input changes nothing; otherwise `{id, text: trimmed, date}` is appended, the log saved and the input cleared |
| DecisionAgentForm.Form.AddQuestion | src/components/config/agents/DecisionAgentForm.tsx:64-70 | a blank input changes nothing; otherwise the trimmed question is appended, saved and the input cleared |
| DecisionAgentForm.Form.RunDisabled | src/components/config/agents/DecisionAgentForm.tsx:217 | enabled iff not loading and some decision or question exists |
| DecisionAgentForm.Form.RunAgent | src/components/config/agents/DecisionAgentForm.tsx:72-100 | sends the joined decisions, risks and questions with every step as context; success saved, failure only shown |
| Api.BaseUrl | src/lib/api.ts:1 | the configured base when non-empty, else "http://localhost:5000" |
| Api.RequestFor | src/lib/api.ts:63 | the URL is the base, "/api/" and the method's endpoint; the payload is the body |
| Api.EndpointsDistinct | src/lib/api.ts:87-99 | different methods post to different endpoints |
| Api.ServerError | src/lib/api.ts:77-78 | "Server Error (status): " followed by the first 200 characters of the body, or the whole body when it is shorter |
| Api.ErrorInfo | src/lib/api.ts:70-79 | unparsable or null bodies give the server-error text; otherwise `error`, then `message`, then "API request failed" |
| Api.Outcome | src/lib/api.ts:62-83 | a rejection fails with its message; a non-2xx response always fails; a 2xx response yields the parsed body |
| Api.ErrorFieldWins | src/lib/api.ts:74 | a non-empty string `error` is the message |
| Api.MessageFieldNext | src/lib/api.ts:74 | without a truthy `error`, a non-empty string `message` is the message |
| Api.NonJsonBodyPreview | src/lib/api.ts:75-79 | a non-JSON error body gives the status head and the first min(200, length) characters of the body |
| Api.ErrorInfoNonEmpty | src/lib/api.ts:74-80 | the message is empty only when a truthy `error` or `message` renders as "" |
| Text.Trim | src/components/config/agents/IdeaIntakeForm.tsx:60 | the infix of the text left after cutting only whitespace from both ends, with no whitespace at either end of it; empty iff the text has no visible character |
| Text.TrimFacts | src/components/config/agents/IdeaIntakeForm.tsx:60 | trimming the front then the back cuts only whitespace, at the position where the front cut ends, and leaves nothing iff nothing is visible |
| Text.BlankIff | src/components/config/agents/IdeaIntakeForm.tsx:60 | a text is blank after trimming iff it is all whitespace |
| Text.ToLower | src/components/config/agents/SuccessMetricsAgentForm.tsx:49 | same length, each character lowered |
| Text.IncludesIff | src/components/config/agents/SuccessMetricsAgentForm.tsx:50 | `includes` holds iff the substring occurs at some position |
| Text.JoinAppend | src/components/config/agents/DecisionAgentForm.tsx:89 | joining one more element adds the separator and the element |
| Text.Prefix | src/lib/api.ts:77 | exactly the first n characters, or the whole text when it is shorter |
| Text.NatToString | src/components/config/agents/MvpScopeAgentForm.tsx:116 | decimal digits that spell the number, without a leading zero |
| JsValues.Prop | src/components/config/agents/DecisionAgentForm.tsx:19 | a property is read iff the value is an object holding the key, and it is that key's value |
| JsValues.StringsToJs | src/components/config/agents/MvpScopeAgentForm.tsx:47-49 | one string element per list entry, in order |
| JsValues.StringsRoundTrip | src/components/config/agents/MvpScopeAgentForm.tsx:28 | a saved list of strings hydrates back to the same list |

## Left out

- Asynchrony: the `loading` flag's life cycle, overlapping runs and the gap between the data snapshot taken at call
  start and the store at reply time. Each run is one sequential call, so the snapshot equals the current data.
  `loading` appears only as a parameter of the run-enabled rules.
- `fetch`, HTTP, `response.text()` and `JSON.parse`: the reply is the input `Api.Reply`, with the parse outcome
  already decided. `Api.BaseUrl` takes the environment's `VITE_API_BASE_URL` as a parameter.
- `Api.Outcome` for a 2xx reply returns the parse outcome of the body; a 2xx body that is not JSON fails with the
  parser's message, which `response.json()` would raise.
- `crypto.randomUUID` and `Date.toLocaleDateString` are parameters of `DecisionAgentForm.Form.AddDecision`.
- DOM queries are boolean inputs of the canvas events: `closest('button')`, `closest('.step-node')`, the background
  test and focus inside an input or textarea. Listener registration, `preventDefault` and rendering are not
  modelled.
- WorkflowCanvas.Next: zoom and pan are `real`, not IEEE doubles; `delta * 0.1` is exact here.
- Text.ToLower: lowers ASCII letters only. This is exact for the case-insensitive date pattern, which never matches
  a non-ASCII letter against an ASCII one.
- SuccessMetricsAgentForm.Vanity: misses keywords spelled with a non-ASCII letter that `toLowerCase` turns into an
  ASCII one. U+212A KELVIN SIGN lowercases to `k`, so "LI\u212AES" or "CLIC\u212AS" gets a warning in the app and
  none here. This follows from the ASCII-only `Text.ToLower`.
- Text.Trim uses the whitespace code points of `String.prototype.trim`. Strings are sequences of code points, not
  UTF-16 units, so `slice(0, 200)` in `Api.ServerError` counts code points.
- FormSupport.TextField: a stored non-string value under a text key hydrates as ''. The component would keep the
  raw value.
- AssumptionAgentForm.ProblemContext: a truthy non-string `problem` is sent as its string rendering. The component
  would send the raw value.
- JsValues.StringsOf: a truthy stored list key that is not an array hydrates as the empty list. The component would
  keep the value. The elements of a stored array are turned into their `String()` text at hydration, where the
  component keeps the raw elements. A stored non-string element is sent differently: `join('; ')` renders `null` as
  "", while here it has become "null". Stored `openQuestions` of `[null, "x"]` are sent as "null; x" here and as
  "; x" by the app. The editors' own edits only ever store strings.
- DecisionAgentForm.AssumptionItems: a truthy non-array `assumptions` makes the component's `.filter` throw. Here
  it reads as no items. A `null` item in that list, which makes `a.risk` throw, reads as an item without `risk`.
- DecisionAgentForm.Texts: a `null` entry in the stored `decisions` makes `d.text` throw inside the run's `try`, so
  the app shows that TypeError's message. Here the entry renders as "" and the request is sent. The editor's own
  edits only ever store objects.
- Key order inside objects is not modelled: step data is a `map`.
- WorkflowStore.Merge: a partial step whose field is present but `undefined` cannot be expressed. An absent field and
  an `undefined` one are the same here.
- Presentation is not modelled: JSX, CSS classes, icons, the rounded zoom label, the cursor choice and the
  step-node and header components.

