# ADK demo helpers in Dafny

This project models the deterministic code of a set of Google Agent
Development Kit (ADK) demos. The orchestration engine itself lives in the ADK
library: sequential, parallel and loop agents, the runner, rewind and the
session services. The demos only configure and drive that engine. So the model
covers the small pure helpers the demos implement on top of it:

- **Sequential pipeline** (`SeqAgent`)
  - the mock `database_search`
  - the backward scan `_latest_user_text`
  - one run of the custom `DataFetcherAgent`: it writes one state key and
    yields one event
- **Human-in-the-loop confirmation** (`Hitl`)
  - `_extract_confirmation_call`
  - `_make_confirmation_response`
  - the y/n approval parse
  - the phase-1 scan over the first run's events, and the resume message it
    leads to
- **Rewind demo tools and driver** (`ToolState`, `RewindMain`)
  - `set_state_color` and `get_state_color` over a string-keyed state map
  - the event collection of `call_agent_async`: the stream up to the first
    final response
- **Loop and nested demos** (`ToolState`, `EventPrinter`, `Wiring`)
  - `exit_loop`
  - `print_event_safely`, as a function that returns the lines it would print
  - the static wiring between the seeded state, the instruction placeholders
    and the `output_key`s
- **A2A test client** (`A2AClient`)
  - `create_send_message_payload`
  - the second-turn decision of `run_multi_turn_test`

Supporting modules:

- `Values`: optional values, results and JSON-shaped Python values, with
  Python truthiness.
- `Text`: `str.strip` and `str.lower` over ASCII.
- `Events`: the `Part`/`Content`/`Event` records.

Python attributes that may be missing or `None` are `Option`s. A function
call's `name` is an `Attr`, which tells "missing" apart from "present but
`None`". This matters because `getattr(fc, "name", "<unknown_tool>")` falls
back only when the attribute is missing. Whether an event is a final response
is decided by the ADK library, so every operation that needs that test takes
it as a parameter `isFinal`.

The agent trees are modelled only as configuration data: each model-backed
agent has its placeholder keys and its `output_key`. No scheduling semantics is
attached to them. Ordering across branches, loop termination and replay-based
rewind are ADK library behaviour, so none of it is modelled.

## Model

| member | source | states |
|---|---|---|
| SeqAgent.DatabaseSearch | seq_agent_01/agent.py:35-62 | "support", "sales" and "technical" each give their fixed mock string; every other category gives "No results found"; the query never affects the answer |
| SeqAgent.FirstText | seq_agent_01/agent.py:81-83 | no text is found exactly when no part has non-empty text; a found text is never empty |
| SeqAgent.FirstTextIsFirst | seq_agent_01/agent.py:81-83 | the text found is that of the first part, in order, whose text is non-empty; earlier parts without text are skipped |
| SeqAgent.LatestUserText | seq_agent_01/agent.py:71-84 | the result is "" exactly when no event is user-authored with a non-empty text part, which includes the empty history |
| SeqAgent.LatestUserTextIsLast | seq_agent_01/agent.py:79-83 | the result is the first text of the highest-index qualifying event; later non-user events, and user events without content, parts or text, are skipped |
| SeqAgent.LatestUserTextIgnoresOthers | seq_agent_01/agent.py:79-80 | appending an event not authored by the user does not change the latest user text |
| SeqAgent.FetcherEvent | seq_agent_01/agent.py:157-163 | the yielded event has author "data_fetcher" and the current invocation id; its content has no role and exactly one part, a text part holding the search result |
| SeqAgent.StoreResult | seq_agent_01/agent.py:153 | "search_results" holds the result afterwards; no other key is added and every other key keeps its value |
| SeqAgent.DataFetcherRun | seq_agent_01/agent.py:139-163 | fails exactly when "category" is absent or not a string (the `.strip()` raises); otherwise it stores the lookup of the latest user text and the stripped category under "search_results", adds no other key, keeps every other key, and yields exactly one event whose content is that result as its single role-less text part |
| SeqAgent.DataFetcherIdempotent | seq_agent_01/agent.py:139-163 | running the fetcher again on the state and history it produced succeeds and leaves the state as it was |
| Hitl.FirstConfirmation | hitl_example/agent.py:102-113 | no result exactly when no part is a confirmation-named call with a non-empty id; a result has a non-empty id and the name "adk_request_confirmation" |
| Hitl.ExtractConfirmationCall | hitl_example/agent.py:89-113 | `None` for an event without content or parts; otherwise `None` exactly when no part qualifies; parts without a call, calls with another name and calls with an empty id never qualify |
| Hitl.ExtractConfirmationCallIsFirst | hitl_example/agent.py:102-111 | the id returned is that of the first qualifying part in order |
| Hitl.MakeConfirmationResponse | hitl_example/agent.py:116-136 | the response is a user message with exactly one part; that part carries no text and no call, only a function response with the call id, the name "adk_request_confirmation" and the payload {"confirmed": decision} |
| Hitl.ConfirmationResponseRoundTrip | hitl_example/agent.py:116-136 | the response is a user message with one part, and that part has no text and is not a request; read back, it yields exactly the call id and the decision, under the name "adk_request_confirmation" with the sole payload key "confirmed" |
| Hitl.Approved | hitl_example/agent.py:203-204 | the answer approves exactly when its stripped form is "y" or "yes" in any letter case; an approving answer is never blank, and its stripped form has one or three characters |
| Hitl.ApprovedIsPaddedYes | hitl_example/agent.py:203-204 | an approved answer is "y" or "yes", in any letter case, with only whitespace around it |
| Hitl.PaddedYesIsApproved | hitl_example/agent.py:203-204 | any "y" or "yes", in any letter case, padded only with whitespace, approves; together with the converse, every other answer denies |
| Hitl.ScanFrom | hitl_example/agent.py:171-200 | the scan pauses at the first event carrying a confirmation request, returning that request's id; it completes without confirmation at a final response that comes before any request; it finds nothing exactly when no event is either |
| Hitl.ResumeMessage | hitl_example/agent.py:198-211 | a resume message exists exactly when phase 1 paused; it answers the paused call id with the parsed approval |
| Hitl.ResumeAnswersFirstRequest | hitl_example/agent.py:185-211 | when the first request comes before any final response, the resume message carries that request's id; this id is the only link between request and response |
| ToolState.SetStateColor | rewind_agent/agent.py:9-12 | afterwards state["color"] is the colour; no other key is added or changed; escalation is untouched; the reply is {"status": "ok", "color": colour} |
| ToolState.GetStateColor | rewind_agent/agent.py:15-17 | the reply has the single key "color", holding the stored colour or `None` when none is stored; the context is only read |
| ToolState.SetThenGet | rewind_agent/agent.py:11-17 | a get right after a set returns the colour just set |
| ToolState.SetStateColorIdempotent | rewind_agent/agent.py:11-12 | setting the same colour twice equals setting it once |
| ToolState.SetStateColorOverwrites | rewind_agent/agent.py:11 | a later set fully overrides an earlier one |
| ToolState.ExitLoop | loop_agent_01/agent.py:61-75 | sets the escalate flag, leaves the state unchanged, and returns an empty dict |
| ToolState.ExitLoopIdempotent | nested_agent/agent.py:66-70 | calling the nested demo's identical `exit_loop` again after an escalation changes nothing |
| RewindMain.ReplyText | rewind_agent/main.py:25-29 | the reply is the first part's text, or "" when content or parts are missing or that text is `None` |
| RewindMain.CallAgent | rewind_agent/main.py:13-32 | the collected events are a prefix of the stream in stream order; no collected event but the last is a final response; either the whole stream is collected or the last event collected is a final response; a reply is shown exactly in the latter case, for that event |
| RewindMain.CallAgentStopsAtFirstFinal | rewind_agent/main.py:22-30 | those guarantees pin the result down: when the stream has a final response, the collected events end at the first one |
| EventPrinter.CallOf | loop_agent_01/agent.py:104 | the part's `function_call` when it has one, otherwise its `tool_call` |
| EventPrinter.ToolName | loop_agent_01/agent.py:106 | a missing name prints as "<unknown_tool>", a `None` name as "None", and a present name as itself |
| EventPrinter.ToolArgs | loop_agent_01/agent.py:107 | `args` if truthy, else `arguments` if truthy, else `{}`; the result is never another falsy value |
| EventPrinter.RenderPart | loop_agent_01/agent.py:96-108 | a part with non-empty text prints exactly its "[author]: text" line, even if it also carries a call; a part without text but with a `function_call` or `tool_call` prints exactly one tool-call line with the author, that call's name and its arguments; any other part prints nothing |
| EventPrinter.FunctionCallWins | loop_agent_01/agent.py:104-108 | a text-less part carrying both a `function_call` and a `tool_call` prints the `function_call`'s name and arguments |
| EventPrinter.RenderParts | loop_agent_01/agent.py:96-108 | the loop over the parts prints at most one line per part, and every line names the given author; a single part prints exactly its own lines; with `RenderPartsAppend`, the lines are those of each part in turn |
| EventPrinter.RenderEvent | loop_agent_01/agent.py:81-108 | an event without content or parts prints nothing; otherwise it prints the lines of its parts in order, every line naming the event's author; its text lines are exactly the non-empty part texts in order; it prints exactly one line per part that has text or a call |
| EventPrinter.RenderPartsAppend | nested_agent/agent.py:81-91 | lines follow the order of the parts: rendering `a + b` gives the lines of `a` followed by those of `b` |
| EventPrinter.RenderedTextsAreTexts | loop_agent_01/agent.py:96-101 | the text lines printed are exactly the non-empty texts of the parts, in order |
| EventPrinter.OneLinePerPrintingPart | loop_agent_01/agent.py:96-108 | one line is printed for each part that has text or a call, and none for the others |
| Wiring.LoopSeedCoversPipeline | loop_agent_01/agent.py:226-235 | the seeded state holds every placeholder key of the generator, critic and refiner ("sql_task", "current_sql", "criticism") and every `output_key` |
| Wiring.NestedSeedCoversPipeline | nested_agent/agent.py:271-286 | the seeded state holds every placeholder key and every `output_key` of the whole nested pipeline |
| Wiring.AnalysisWrites | nested_agent/agent.py:98-143 | the three analysis branches write "schema_assumptions", "edge_cases" and "query_plan_notes" respectively |
| Wiring.AnalysisBranchesDistinct | nested_agent/agent.py:110-137 | the parallel branches write pairwise-disjoint keys |
| Wiring.AnalysisFeedsGeneratorAndCritic | nested_agent/agent.py:150-196 | every key the parallel branches write is referenced by both the SQL generator and the critic |
| A2AClient.Kept | app_01/app_01_agents/test_client.py:46-49 | an optional id is kept exactly when it is truthy (not `None`, not "") |
| A2AClient.SendMessagePayload | app_01/app_01_agents/test_client.py:27-50 | the payload holds only "message"; the message has role "user", exactly one part {kind: "text", text}, and the message id; "taskId" is present exactly when the task id is non-empty, and then equals it; likewise "contextId"; no other key is present |
| A2AClient.PayloadRoundTrip | app_01/app_01_agents/test_client.py:38-50 | reading the payload back recovers the text, the message id, and the non-empty ids |
| A2AClient.SecondTurn | app_01/app_01_agents/test_client.py:111-145 | a second turn is sent exactly when the first result is a task in state input_required with a non-empty context id, and its payload reads back, under a reader that admits only the payload's own keys and a single "text"-kind part, as "I mean 100 pounds" linked to that task and context; a task without a context id draws the warning; any other task is done; a non-task response stops silently |

## Left out

- The ADK engine is library code that is not part of this model. This covers agent scheduling, the semantics of Sequential, Parallel and Loop agents, `max_iterations`, how escalation is handled, placeholder injection, `Runner.run_async`, `rewind_async` and the session services. The agent trees in `Wiring` are configuration data only.
- `Event.is_final_response()` is ADK logic. It is the `isFinal` parameter.
- The model calls behind every `LlmAgent`, and all prompt wording. These are opaque; only the placeholder keys are modelled.
- Printing, `input()`, `asyncio`, `load_dotenv`, and the httpx/A2A network client are I/O. This covers `A2ACardResolver`, `A2AClient`, `run_single_turn_test`, `print_json_response` and the client's `main`. The message id from `uuid4().hex` is a parameter.
- The text echoing in the human-in-the-loop phases 1 and 2, the phase-2 loop, and the printing loops of each demo's `main` are output only.
- `<<< Agent: ...` and its `rstrip()` are not modelled. Only the reply text is.
- EventPrinter.RenderPart: a tool-call line keeps the arguments as a value; Python's `repr` of the dict is not modelled. Lines are structured values, not formatted strings.
- `Text.Strip` and `Text.Lower` cover ASCII only. Unicode whitespace and case folding are out of scope.
- `refund_order` (hitl_example/agent.py:44-60) is a stub that echoes its arguments. It takes a float amount.
- The seq_agent_01 and parallel_agent_01 demos write to the local session object after `create_session`. Whether those writes reach the runner depends on ADK.
- parallel_agent_01/agent.py, app_01/agent.py and app_01/app_01_agents/agent.py are configuration only. They contain no logic.
- The rewind demo's `main` keeps invocation ids and calls `rewind_async`. That behaviour belongs to the ADK. Its comment expecting "red" after rewinding before the third invocation is not encoded.
- The tool context's state is a plain map. ADK's delta tracking on it is not modelled.
- SeqAgent.DataFetcherRun: the error strings only name the Python exception (`AttributeError`) that would be raised.
