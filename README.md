# open-perplexity research flow in Dafny

This project is a Dafny model of the answer pipeline of open-perplexity, a chat assistant. A
turn of the chat runs the following steps:

1. The **semantic router** classifies and revises the user input.
2. A **structured planner** turns the input into a plan of tasks.
3. A **task solver** runs one task per step. It calls the tools the language model asks for and gathers web-search hits.
4. The chat handler **deduplicates and reranks** the hits.
5. The **task summarizer** streams the final answer from the hits, citing each source by number.
6. If the plan has no tasks, a quick responder answers instead.
7. If the input is refused, nothing answers.

The handler also records the Planner, Task Solver and Web Search Results steps of the reasoning
panel. It keeps the chat history across turns.

A solver step that executed no tool leaves `tool_execution` None, and the handler's Task Solver
step then fails on it. `App.Turn` models the handler as written, with that failure. `App.CorrectedTurn`
shows such a step without a call (see "## Findings").

Every call to the language model, the search tool, a tool's `invoke` and the rerank service is
an input of the model:

- `Graph.Backends` holds the classification, the plan, the tool calls of each solver step, the
  tool results and the decoding of a search result.
- `App.Services` holds the rerank backend, the summarizer's stream of chunks and the quick
  responder's text.
- Everything else is modelled as Dafny code.

Modules, one per source file plus two helpers:

| module | file | content |
|---|---|---|
| `Strings` | strings.dfy | Python's `join`, `split("\n")`, `str(n)` and ASCII `lower()` |
| `State` | state.dfy | `Task`, `Plan`, `ResearchState`, `Plan.__str__` |
| `Json` | json.dfy | `json.dumps` of a `{title, url, content}` record and `json.loads` of that layout |
| `Router` | semantic_router.dfy | `SemanticRouter`: the category tags and the routing step |
| `Planner` | structured_planner.dfy | `StructuredPlanner`: the tool description and the planning step |
| `Solver` | task_solver.dfy | `TaskSolver`: the tool dictionary and the loop over the model's tool calls |
| `Graph` | graph.dfy | `ResearchFlow`: the edges and the streaming run from the router to `END` |
| `Reranker` | reranker.dfy | `Reranker.rerank` |
| `Summarizer` | task_summarizer.dfy | the rendered sources prompt and the stream filter |
| `App` | app.dfy | `_deduplicate_source`, `rerank`, the step formatters, `on_message` and the session |

## Model

| member | source | states |
|---|---|---|
| `Strings.Lower` | src/workflow/node/task_solver.py:66 | the lowered name has the input's length and no upper-case ASCII letter; each upper-case ASCII letter becomes its lower-case letter, and every other character is unchanged |
| `Strings.LowerIdempotent` | src/workflow/node/task_solver.py:102-104 | lowering twice is lowering once, so a lowered call name finds a key that was lowered when the dictionary was built |
| `Strings.NatToString` | app.py:147 | `str(i+1)` is a non-empty string of digits without a leading zero |
| `Strings.DecimalRoundTrip` | app.py:147 | the digits of `str(n)` read back as `n` |
| `Strings.LeadingNumberOf` | app.py:147 | a number written in front of a non-digit reads back as that number |
| `State.InitialState` | app.py:117-121 | the flow starts from a state holding only `user_input` and `messages`; every other key is absent |
| `State.MakeTask` | src/workflow/state.py:9-19 | a task keeps its title, description and tool name; a missing `tool_args` defaults to the empty mapping |
| `State.PlanTextEmpty` | src/workflow/state.py:33-34 | a plan without tasks prints as the empty string |
| `State.PlanTextLines` | src/workflow/state.py:33-34 | with newline-free fields, the plan prints one line per task, in order; line i is `"{i+1}. {title}: {description}"` and starts with the number i+1 |
| `State.PlanText` | src/workflow/state.py:33-34 | defined as `Plan.__str__`; specified by `State.PlanTextEmpty` and `State.PlanTextLines` |
| `Json.Hex4` | app.py:49-50 | `json.dumps` writes a `\u` escape with exactly four lower-case hex digits, which read back as the code unit |
| `Json.ShortEscapeRoundTrip` | app.py:49-50 | the two-character escapes of quote, backslash, newline, carriage return, tab, backspace and form feed decode to their character |
| `Json.UnitEscapeRoundTrip` | app.py:49-50 | a non-printable character below U+10000, written `\uXXXX`, decodes to itself |
| `Json.SurrogatesCombine` | app.py:49-50 | the high and low surrogates of a character above U+FFFF recombine to the character |
| `Json.PairEscapeRoundTrip` | app.py:49-50 | a character above U+FFFF, written as a surrogate pair of `\u` escapes, decodes to itself |
| `Json.EscapeCharRoundTrip` | app.py:49-50 | every character's escape decodes back to that character, whatever follows |
| `Json.EscapeRoundTrip` | app.py:49-50 | an escaped string decodes back to its text up to the closing quote, leaving what follows |
| `Json.Decode` | app.py:65 | a loaded document holds only title, url and content |
| `Json.Project` | app.py:50 | the serialized record keeps title, url and content and drops the other fields of a hit |
| `Json.RoundTrip` | app.py:48-50 | `json.loads(json.dumps({...}))` gives back exactly the title, url and content of the source |
| `Json.Encode` | app.py:49-50 | defined as the `json.dumps` text of the three-field record; specified by `Json.RoundTrip` |
| `Router.ChosenInput` | src/workflow/node/semantic_router.py:130 | the revised input when it is non-empty, else the input the model echoed |
| `Router.Route` | src/workflow/node/semantic_router.py:126-132 | the routed state holds the chosen input and the category name; every other key is unchanged |
| `Router.BuildCategoryTags` | src/workflow/node/semantic_router.py:102-109 | the nested loop's text equals the newline join of the category blocks |
| `Router.CategoryLinesShape` | src/workflow/node/semantic_router.py:102-109 | block i starts with `<category>`, has one `<k>v</k>` line per key in insertion order, ends with `</category>`, and the blocks follow the category order |
| `Router.CategoryTagLineCount` | src/workflow/node/semantic_router.py:102-109 | with newline-free keys and values, the text splits into two lines per category plus one per key |
| `Planner.GenerateToolDesc` | src/workflow/node/structured_planner.py:74-82 | the loop's text equals the newline join of four lines per tool (the solver's copy at src/workflow/node/task_solver.py:69-77 is identical) |
| `Planner.ToolDescShape` | src/workflow/node/structured_planner.py:74-82 | exactly four lines per tool in tool order, with the closing tag written `</<description>` |
| `Planner.ToolDescLineCount` | src/workflow/node/structured_planner.py:74-82 | with newline-free names and descriptions, the text splits back into exactly those 4·n lines |
| `Planner.PlanStep` | src/workflow/node/structured_planner.py:100-106 | the state gets the model's plan and a queue equal to its tasks; every other key is unchanged |
| `Solver.LookupFindsLast` | src/workflow/node/task_solver.py:66 | a name equal, up to ASCII case, to tool i's name and to no later tool's name finds tool i: of two tools with the same lowered name, the later one wins |
| `Solver.LookupMisses` | src/workflow/node/task_solver.py:66 | a name that matches no tool up to case is not in the dictionary |
| `Solver.ResultsFor` | src/workflow/node/task_solver.py:100-109 | `task_results` has at most the task's title as key; the title is present exactly when a call ran, holding the last executed result |
| `Solver.LastOf` | src/workflow/node/task_solver.py:127 | `tool_execution` is None exactly when nothing ran, else the last execution |
| `Solver.Solved` | src/workflow/node/task_solver.py:93-130 | the first task is popped and the rest kept in order; `sources` become the old ones (empty when absent) followed by the web-search hits of the executed calls; `tool_execution` is the last execution, or None when no call named a registered tool; `task_results` maps the popped title to the last result, or is empty; every other key is unchanged |
| `Solver.ToolDict` | src/workflow/node/task_solver.py:66 | defined as the lowered-name dictionary of the tools; specified by `Solver.LookupFindsLast` and `Solver.LookupMisses` |
| `Solver.Executed` | src/workflow/node/task_solver.py:101-115 | defined as the executions of the registered calls in order; specified by `Solver.ExecutedStep`, `Solver.ExecutedCharacterisation`, `Solver.SkippedCallsAddNothing` and `Solver.LastExecutedCall` |
| `Solver.ExecutedStep` | src/workflow/node/task_solver.py:101-115 | an unregistered call adds nothing; a registered call i adds the execution with id i+1, its lowered name, its args and its result, extends the hits by its own and overwrites the title's result |
| `Solver.Solve` | src/workflow/node/task_solver.py:93-130 | the imperative loop over the tool calls produces exactly the state `Solved` describes |
| `Solver.ExecutedCharacterisation` | src/workflow/node/task_solver.py:101-115 | the executions are exactly the registered calls in call order, each numbered by its 1-based position among all calls, skipped ones included |
| `Solver.SkippedCallsAddNothing` | src/workflow/node/task_solver.py:104-106 | calls to unregistered tools change neither the executions, the results nor the sources |
| `Solver.HitsAppend` | src/workflow/node/task_solver.py:117-119 | hits accumulate in execution order |
| `Solver.HitsOnlyFromWebSearch` | src/workflow/node/task_solver.py:117-124 | executions that are not `web_search` calls, or whose result does not decode, add no sources |
| `Solver.LastExecutedCall` | src/workflow/node/task_solver.py:101-127 | `tool_execution` is None iff no call names a registered tool; otherwise it is the last registered call, with its 1-based position as id |
| `Reranker.Rerank` | src/reranker.py:18-39 | an empty list comes back unchanged without a backend call; otherwise the request has `top_n = min(k, len(docs))` and the result is the selection by the returned indices |
| `Reranker.Select` | src/reranker.py:38-39 | defined as the documents at the returned indices, in document order; specified by `Reranker.SelectAtPositions`, `Reranker.SelectIgnoresRank`, `Reranker.SelectBounds` and `Reranker.SelectDistinct` |
| `Reranker.PositionsSpec` | src/reranker.py:36-39 | the kept positions are strictly increasing and are exactly the valid returned indices |
| `Reranker.SelectAtPositions` | src/reranker.py:38-39 | the kept documents are the documents at those positions: original order, not rank order |
| `Reranker.SelectIgnoresRank` | src/reranker.py:37-39 | only which indices come back matters, not their order or repetition |
| `Reranker.SelectBounds` | src/reranker.py:38-39 | as many documents are kept as distinct valid indices came back, so no more than the documents and no more than the indices |
| `Reranker.RerankBound` | src/reranker.py:22-39 | a backend that honours `top_n` leaves at most `min(k, len(docs))` documents |
| `Reranker.SelectDistinct` | src/reranker.py:39 | distinct documents stay distinct |
| `Graph.Successor` | src/workflow/graph.py:30-60 | router goes to the planner iff the category is not `NonCompliant`, else to `END`; planner goes to the solver iff the plan has tasks; solver goes back to itself iff tasks remain; the next node can be entered with the state |
| `Graph.PreGuardrail` | src/workflow/graph.py:50-52 | defined as the category differing from `NonCompliant`; `Graph.Successor` states which edge it picks |
| `Graph.HasTasks` | src/workflow/graph.py:54-56 | defined as the plan having tasks; `Graph.Successor` states which edge it picks |
| `Graph.HasRemainingTasks` | src/workflow/graph.py:58-60 | defined as the queue being non-empty; `Graph.Successor` states which edge it picks |
| `Graph.From` | src/workflow/graph.py:30-46 | defined as the updates streamed from a node on; specified by `Graph.SolverPhase`, `Graph.SolverPhaseSources` and `Graph.SolverPhaseExecutions` |
| `Graph.Trace` | src/workflow/graph.py:30-46 | defined as the run from the router; specified by `Graph.NonCompliantStopsAtRouter`, `Graph.CompliantRun`, `Graph.NodeCounts`, `Graph.CompliantFinalState` and `Graph.CompliantExecutions`, and computed by `Graph.Run` |
| `Graph.Run` | src/workflow/graph.py:23-46 | the streaming loop's updates equal the run `Trace` of the edge table |
| `Graph.SolverPhase` | src/workflow/graph.py:42-46 | the solver updates drain the queue one task per step in task order, leaving input, messages, category and plan alone, and end with an empty queue |
| `Graph.SolverPhaseSources` | src/workflow/node/task_solver.py:128 | after the solver phase the sources are the earlier ones followed by each step's hits, task by task |
| `Graph.SolverPhaseExecutions` | src/workflow/node/task_solver.py:127 | in the solver phase the update of the i-th queued task carries `tool_execution` equal to the last execution of that step's calls, or None |
| `Graph.NonCompliantStopsAtRouter` | src/workflow/graph.py:31-35 | a `NonCompliant` input yields the router's update alone; plan and queue are never set |
| `Graph.CompliantRun` | src/workflow/graph.py:30-60 | a compliant run emits router, planner, then one solver update per planned task; solver update i leaves the tasks after the i-th in the queue |
| `Graph.NodeCounts` | src/workflow/graph.py:30-60 | the router runs once; the planner runs once iff the input is compliant; the solver runs once per planned task, never for an empty plan or a refused input |
| `Graph.CompliantFinalState` | src/workflow/graph.py:30-60 | after a compliant run the last update is the solver's, or the planner's for an empty plan; the queue is empty; input, messages and plan are the router's and the model's; the sources are the initial ones followed by every task's hits |
| `Graph.CompliantExecutions` | src/workflow/graph.py:42-46 | in a compliant run the update of task i (position i + 2) carries the last execution of that task's calls, or None when none named a registered tool |
| `Summarizer.RenderEmpty` | src/workflow/node/task_summarizer.py:108-119 | without sources the prompt's sources text is empty |
| `Summarizer.RenderJoinsLines` | src/workflow/node/task_summarizer.py:108-119 | the sources text is the newline join of the five-line blocks |
| `Summarizer.RenderedLinesShape` | src/workflow/node/task_summarizer.py:110-117 | line 5i+r is line r of block i: five lines per source in source order |
| `Summarizer.RenderSources` | src/workflow/node/task_summarizer.py:108-119 | defined as the newline join of one `<source>` block per source; specified by `Summarizer.RenderEmpty`, `Summarizer.RenderJoinsLines`, `Summarizer.RenderedLinesShape`, `Summarizer.CitationSplit` and `Summarizer.CitationLines` |
| `Summarizer.CitationSplit` | src/workflow/node/task_summarizer.py:108-119 | with newline-free urls and contents, the text splits back into exactly those lines |
| `Summarizer.CitationLines` | src/workflow/node/task_summarizer.py:108-119 | the text has five lines per source; block i shows the index i+1, which reads back as i+1, then its url and its content |
| `Summarizer.Kind` | src/workflow/node/task_summarizer.py:127 | a piece's `type`, defaulting to `"unknown"` |
| `Summarizer.StreamText` | src/workflow/node/task_summarizer.py:123-130 | the nested loop over chunks and pieces streams exactly the tokens of `Stream` and reports whether it ran to the end |
| `Summarizer.StopIsFinal` | src/workflow/node/task_summarizer.py:123-130 | once the stream has broken off, later pieces change nothing |
| `Summarizer.StopsAtFirstFailure` | src/workflow/node/task_summarizer.py:124-128 | the first failing piece ends the whole stream, whatever the later chunks hold |
| `Summarizer.StreamForwardsText` | src/workflow/node/task_summarizer.py:123-130 | the stream runs to its end iff every text piece carries `text`; then exactly the texts of the text pieces are streamed, in order |
| `Summarizer.StopsAfterPrefix` | src/workflow/node/task_summarizer.py:127-128 | a text piece without `text` stops the stream after the texts before it |
| `Summarizer.Stream` | src/workflow/node/task_summarizer.py:123-130 | defined as the tokens forwarded and whether the stream ran to the end; specified by `Summarizer.StreamText`, `Summarizer.StopIsFinal`, `Summarizer.StopsAtFirstFailure`, `Summarizer.StreamForwardsText` and `Summarizer.StopsAfterPrefix` |
| `App.ByUrl` | app.py:47 | the dictionary's keys are distinct, are exactly its entries, and each entry is stored under its own url |
| `App.ByUrlKeys` | app.py:47 | the keys are exactly the urls of the sources |
| `App.ByUrlLastWins` | app.py:47 | each url holds the source seen last for it |
| `App.ByUrlFirstOrder` | app.py:47 | keys are ordered by first occurrence |
| `App.DedupSpec` | app.py:39-52 | the deduplicated entries have distinct urls, cover every url, hold the last source seen for each url, and keep first-occurrence order |
| `App.DedupCount` | app.py:47-51 | there are exactly as many entries as distinct urls |
| `App.DeduplicateRoundTrip` | app.py:48-52 | one document per entry, each loading back as the entry's title, url and content |
| `App.Deduplicate` | app.py:39-52 | defined as the JSON strings of the url dictionary's values; specified by `App.DedupSpec`, `App.DedupCount` and `App.DeduplicateRoundTrip` |
| `App.Consolidate` | app.py:55-65 | defined as the decoded rerank of the deduplicated sources; specified by `App.ConsolidateAt`, `App.ConsolidateSpec` and `App.ConsolidateBound` |
| `App.ConsolidateAt` | app.py:55-65 | the reranked sources are the projections of the deduplicated entries at strictly increasing positions |
| `App.ConsolidateSpec` | app.py:55-65 | after `rerank` the sources have distinct urls; each is the projection of the last source seen for its url; they keep first-occurrence order; there are no more of them than distinct urls |
| `App.ConsolidateBound` | app.py:55-65 | with a backend that honours `top_n`, at most five sources remain |
| `App.SolverStepAsWritten` | app.py:138-140 | the Task Solver step as written fails exactly when the update's `tool_execution` is None; otherwise it shows the call's args and result |
| `App.SolverStepViewSpec` | app.py:138-140 | the corrected step shows nothing exactly when no call named a registered tool, and otherwise the args and result of the last registered call |
| `App.SilentSolverCrashesStep` | app.py:138-140 | a plan with one task whose solver call names no tool yields a solver update with `tool_execution` None, on which the step as written fails |
| `App.SolverStepView` | app.py:137-141 | defined as the call's args and result, or nothing; specified by `App.SolverStepViewSpec` |
| `App.FirstCrash` | app.py:137-141 | the position of the first update whose Task Solver step fails: none iff no update fails, and otherwise a failing update with none failing before it |
| `App.CrashFacts` | app.py:137-141 | in a compliant run neither the router's nor the planner's update fails, and the update of task i fails iff that task's step names no registered tool |
| `App.FirstCrashOfTasks` | app.py:137-141 | with updates laid out as router, planner and one per task, some update fails iff some task's step names no registered tool, and the first failure is at the first such task |
| `App.RunCrash` | app.py:137-141 | no update fails in a refused run; in a compliant run one fails iff some task's step names no registered tool, first at position j + 2 for the first such task j |
| `App.PlannerStepJoin` | app.py:129-133 | the Planner step is the newline join of the two header lines, then (with tasks) `**Tasks:**` and one bullet per task |
| `App.PlannerStepLines` | app.py:129-133 | with newline-free fields the Planner step splits into the input line, the category line and, when there are tasks, `**Tasks:**` and one `- title(description)` bullet per task in order |
| `App.PlannerStepText` | app.py:129-133 | defined as the Planner step output; specified by `App.PlannerStepJoin` and `App.PlannerStepLines` |
| `App.SourcesStepLines` | app.py:146-150 | the Web Search Results listing is empty exactly when no source is kept, so the step is shown exactly when sources remain; it has one line per source, line i carrying the number i+1 |
| `App.SourcesStepText` | app.py:146-150 | defined as the Web Search Results listing; specified by `App.SourcesStepLines` |
| `App.Captured` | app.py:124-141 | the state kept is None iff no planner or solver update came, otherwise it holds a plan |
| `App.TracePlans` | app.py:124-134 | every planner and solver update of a run holds a plan |
| `App.RunCaptured` | app.py:114-141 | a refused input leaves no state; otherwise the state kept holds the router's input, the turn's messages, the model's plan, an empty queue and, with tasks, every task's hits in order |
| `App.ResponderForRun` | app.py:143-167 | the error log iff the input is refused; the summarizer iff it is compliant and the plan has tasks; the quick responder iff it is compliant and the plan is empty |
| `App.RunDisplays` | app.py:124-141 | with the step shown safely (the corrected step list): a refused input shows no step; otherwise the Planner step with the plan, then one Task Solver step per task, from that task's update |
| `App.TurnHistory` | app.py:109-167 | the human message is always appended; the AI reply is appended after it exactly when a responder ran to the end |
| `App.TurnResponder` | app.py:124-167 | as written: only an error is logged iff the input is refused; the quick answer iff the plan has no tasks; the turn fails at the Task Solver step iff some task's step names no registered tool; the summarizer answers iff the plan has tasks and none of them does |
| `App.TurnSources` | app.py:143-145 | the summarizer answers from the rerank of all tasks' hits for the router's input |
| `App.TurnText` | app.py:152-158 | the answer completes iff every text piece of the summarizer's stream carries text, and it is then the concatenation of exactly those texts |
| `App.Turn` | app.py:100-170 | defined as one call of `on_message` as written; specified by `App.TurnHistory`, `App.TurnResponder`, `App.TurnFailedSteps`, `App.TurnSources`, `App.TurnText` and `App.SilentTurnFails` |
| `App.TurnFailedSteps` | app.py:137-141 | when task j is the first whose step names no registered tool, the turn fails with only the human message appended, after the Planner step and the Task Solver steps of the j tasks before it, each showing its call |
| `App.SilentRunSteps` | app.py:124-141 | in that run the first failing update is at position j + 2, and the steps shown before it are the Planner step and j Task Solver steps showing their calls |
| `App.CorrectedTurn` | app.py:100-170 | defined as the turn with the step shown safely; specified by `App.CorrectedTurnResponder` and `App.TurnsAgree` |
| `App.CorrectedTurnResponder` | app.py:143-167 | with the step shown safely no turn fails: the error log iff the input is refused; the quick answer iff the plan has no tasks; the summarizer otherwise |
| `App.TurnsAgree` | app.py:124-167 | the as-written and the corrected turn are equal unless a compliant plan has a task whose step names no registered tool |
| `App.SilentTurnFails` | app.py:137-141 | with one planned task that asks for no tool, the turn as written fails after the Planner step with history `[Human("q")]`, while the corrected turn goes on to the summarizer |
| `App.ChooseResponder` | app.py:143-167 | defined as the branch on the kept state; specified by `App.ResponderForRun` |
| `App.Session.constructor` | app.py:89 | a chat starts with an empty history |
| `App.Session.OnMessage` | app.py:100-170 | the handler's reply, shown steps and new history are exactly those of `Turn` (as written) on the old history |
| `App.ShowUpdates` | app.py:117-141 | the update loop stops at the first update whose Task Solver step fails and returns its position; before it, the steps shown are those of the updates so far; without one, the state kept is the last planner or solver update's |

## Left out

- The language model, web search, tool invocation, the rerank service, the summarizer's model and the quick responder are inputs. `QuickResponder` itself is not part of this model.
- Prompt text, current date and time, `ChatPromptTemplate` and `with_structured_output` are not modelled; each oracle receives the data the prompt is built from. `src/llm.py`, `src/logger.py` and `src/workflow/tool/web_search.py` are not modelled.
- Exceptions raised by the backends, and by the graph when the model returns malformed structured output, are not modelled.
- Two exceptions of `on_message` are modelled. The first is the `KeyError` of a text piece without `text`: it ends the stream, and the AI message is never appended (`StreamAborted`). The second is the `TypeError` of the Task Solver step on an update whose `tool_execution` is None: the update loop stops there and the turn ends with only the human message appended (`StepFailed`).
- The Task Solver step that Chainlit has opened when that `TypeError` is raised is not in the step list of `StepFailed`; the list holds the steps completed before it.
- Chainlit's UI is not modelled: messages, steps, `send`, session storage and streaming transport. Steps are results of `OnMessage`, and the history is a field of `Session`. Logging is not modelled.
- The refused input only logs "state should not be None", and no refusal message is sent.
- `Strings.Lower`: only ASCII letters are lowered, whereas Python's `str.lower` is Unicode-aware.
- Tool arguments are modelled as a map from strings to strings, not arbitrary JSON values.
- `Json.Decode`: only the exact layout `Encode` writes is accepted (keys in order, `", "` separators). Other valid JSON documents are treated as a decode failure. The search-result decoding in the solver is an input (`parse`).
- langgraph's channel semantics are not modelled. Every node returns `{**state, ...}` with the same `messages`, so the state each update carries is taken to be the whole dictionary the node returned. The `add_messages` reducer over that unchanged list is taken to be the identity. Whether undeclared keys such as `category` and `task_results` survive is not checked.
- `Reranker.Rerank`: the `api_version` field and the model id of the request are not modelled.
- Async execution and concurrent sessions are not modelled.
- `Graph.Run`: langgraph's default recursion limit of 25 steps is not modelled. `astream` is called without a config, so a plan of roughly 24 or more tasks would raise `GraphRecursionError` before the last solver step; the model runs every task.

## Findings

| source | as written | input that shows it | evidently intended | confidence | as-written member | corrected member |
|---|---|---|---|---|---|---|
| app.py:138-140 | the Task Solver step reads `tool_call["args"]` from the update's `tool_execution`, which the solver sets to None when no tool call named a registered tool (src/workflow/node/task_solver.py:127); subscripting None fails, and the turn ends without an answer and without an AI message in the history | a compliant input whose plan has one `web_search` task, with the model answering that task with no tool call (`App.SilentBackends`) | show the step without input and output, or skip it, when nothing ran, and go on to the summarizer | not executed | `App.SolverStepAsWritten`, `App.SilentSolverCrashesStep`, `App.Turn`, `App.TurnFailedSteps`, `App.SilentTurnFails` | `App.SolverStepView`, `App.SolverStepViewSpec`, `App.CorrectedTurn`, `App.CorrectedTurnResponder`, `App.RunDisplays` |
