# Agent controller of the PlanLlama workflow demo

This project models the agent core of the demo: the controller `runAgent`,
the action parser `parseAction` with its `AgentAction` type, and the task
catalog `initTasks` built from `planLlamaTask`.

`runAgent` starts by registering the catalog with the PlanLlama job
substrate. It then builds a two-message conversation: a system prompt that
lists the tasks, and the user's goal with its context. After that it loops.
Each turn calls the language model once with the whole history, and parses
the reply as a JSON action. Then:

- a reply that does not parse gets a correction message, and the loop goes on;
- a `run_task` action is sent to the substrate, and its result is fed back as a user message;
- a `finish` action ends the run with its `result`.

Modules:

- `Wrappers`: `Option` and `Result`.
- `Json`: the JSON values `JSON.parse` yields, plus the JavaScript operations
  the agent applies to them:
  - property reads, which give `undefined` on values that are neither null
    nor objects, and throw a `TypeError` on null; with duplicate keys the
    last binding wins;
  - truthiness;
  - template-literal conversion, which throws a `TypeError` for an object
    with its own `toString` member and for an array that holds one, and
    `JSON.stringify` of `undefined`.

  The text algorithms of `JSON.parse`, of `JSON.stringify`, and of `String(v)`
  for numbers and arrays are the three fields of a `Codec` value, which every
  operation receives.
- `Strings`: `indexOf`, `replace` with a string pattern (first occurrence
  only), and `join`.
- `Schema`: `ParseAction` and the agent's reading of an action (`View`).
- `Tasks`:
  - the catalog;
  - the wrapping job handler;
  - a `PlanLlama` class whose `workers` field records every `work`
    registration;
  - the method versions of `planLlamaTask` and `initTasks`.

  The substrate's answer to `request` is the class's fixed function
  `respond`. That answer is either a resolved result or a rejection.
- `Agent`:
  - the prompt;
  - the specification function `Loop`, which covers one turn per
    completion of a script that stands for the language model;
  - the imperative controller `RunAgent` (a `while true` loop), proved to
    produce exactly the outcome, history, log and call sequence that
    `AgentRun` (that is, `Loop` from the initial trace) describes.
- `AgentProperties`: properties of whole runs, proved by induction over the
  script.

The model has five outcomes:

- `Finished(result)`: the loop returned.
- `LlmFailed`: `callLLM` rejected.
- `TaskFailed`: `planLlama.request` rejected; the error propagates out of `runAgent`.
- `ConversionFailed`: the template literal at agent.ts:74 or at agent.ts:99
  threw a `TypeError` on the task or on the result, and `runAgent` rejects.
- `AwaitingReply`: the script ran out while the controller was waiting for
  another completion. The real loop would still be running at that point.

Where the program's own declarations promise more than its code checks, the
model follows the code:

- The `AgentAction` type (schema.ts:2-15) and the prompt's "Actions:" list
  (agent.ts:11-13) name only `run_task` and `finish`. But `parseAction`
  accepts any truthy `action` tag, because schema.ts:22 checks only
  truthiness, and the cast at schema.ts:26 checks nothing. A tag other than
  `run_task` or `finish` therefore makes the loop go round again, with the
  history unchanged and no correction sent. See `Schema.AnyTruthyTagAccepted`
  and `Agent.LoopOnUnrecognized`.
- So the history does not grow on every turn. It grows by exactly two
  messages on each parse failure (`AgentProperties.NoRetryCap`) and on each
  resolved task, and it is never rewritten (`AgentProperties.LoopAppendOnly`).
- A JSON `null` reply is not a `Malformed` error. Reading `.action` of null
  throws a `TypeError`, which the loop's catch turns into a correction.

## Model

| member | source | states |
|---|---|---|
| Json.FalsyValues | src/agent/schema.ts:22 | the values that fail `!data.action`/`!data.params` are exactly null, false, 0 and "" |
| Json.LookupFindsLastBinding | src/agent/agent.ts:73 | a property read finds nothing iff no member has the key; otherwise it finds the value of the last member with that key |
| Json.Truthy | src/agent/schema.ts:22 | no ensures; JavaScript's ToBoolean on JSON values. Stated by `Json.FalsyValues` |
| Json.Lookup | src/agent/agent.ts:73 | no ensures; the binding of a key, searched from the last member. Stated by `Json.LookupFindsLastBinding` |
| Json.Get | src/agent/agent.ts:73 | no ensures; a property read on a non-null value, `undefined` when it is not an object. Stated by `Schema.View`, `Schema.RunTaskRead` and `Schema.FinishRead` |
| Json.Present | src/agent/schema.ts:22 | no ensures; `!!v.key`. Stated by `Schema.ParseAction` and `Schema.MissingOrFalsyIsMalformed` |
| Strings.IndexOf | src/agent/agent.ts:43-44 | the located occurrence of the pattern is a match, and it is the first match; no result means there is no match at all |
| Strings.ReplaceFirst | src/agent/agent.ts:43-46 | a text with no occurrence comes back unchanged; otherwise exactly one occurrence's length is exchanged for the replacement's. Where the replaced occurrence is is stated by `Strings.ReplaceFirstAfter` |
| Strings.Join | src/agent/agent.ts:38-45 | no ensures; `join(sep)`. Stated in general by `Strings.JoinDrawsFrom`, and for the catalog by `AgentProperties.CatalogTaskLines` |
| Strings.JoinDrawsFrom | src/agent/agent.ts:38-45 | every character of the joined text comes from a part or from the separator, and every character of every part appears in it |
| Json.ConversionThrows | src/agent/agent.ts:74-99 | no ensures; whether `${v}` throws: an object with an own `toString` member, or an array holding such a value at any depth. Stated by `Json.Interpolate` |
| Json.Interpolate | src/agent/agent.ts:74-99 | `${v}` throws (no result) exactly when the conversion has no primitive (`Json.ConversionThrows`); for an object that is exactly when it binds `toString`; a string converts to itself |
| Json.StringifyText | src/agent/agent.ts:75-77 | no ensures; `${JSON.stringify(v)}`, which is "undefined" for undefined. Its use is stated by `Agent.StepOnRunTask` and `AgentProperties.WeatherTurns` |
| Strings.ReplaceFirstAfter | src/agent/agent.ts:43-46 | if the pattern does not start inside `h`, replacing it in `h + pat + t` gives `h + rep + t` |
| Strings.NoMatchBefore | src/agent/agent.ts:15-16 | a `{{`-pattern cannot start inside a text that has no `{{` and does not end in `{` |
| Strings.NoDoubleBraceAppend | src/agent/agent.ts:6-16 | concatenating two texts without `{{` creates none, unless the boundary is `{` `{` |
| Schema.ErrorText | src/agent/agent.ts:62 | no ensures; `${err}` of the thrown error. A SyntaxError shows as "SyntaxError: " followed by its message. Its use is stated by `Agent.StepOnParseFailure` and `AgentProperties.WeatherTurns` |
| Schema.WellFormed | src/agent/schema.ts:22 | no ensures; an object whose `action` and `params` are both truthy. Stated by `Schema.ParseAction` |
| Schema.ParseAction | src/agent/schema.ts:18-31 | a JSON.parse failure is rethrown unchanged; a null document gives a TypeError; otherwise success iff `action` and `params` are both truthy, and then the parsed value is returned untouched |
| Schema.MissingOrFalsyIsMalformed | src/agent/schema.ts:22-24 | an object whose `action` or `params` is absent or falsy is rejected as "Malformed action" |
| Schema.NonObjectIsMalformed | src/agent/schema.ts:20-24 | a number, string, boolean or array document is rejected as "Malformed action" |
| Schema.AnyTruthyTagAccepted | src/agent/schema.ts:22-26 | any truthy tag with empty params is accepted as given, and a tag other than run_task/finish is read as neither action |
| Schema.RunTaskWithoutPayload | src/agent/schema.ts:7 | a run_task without a payload is valid, and its payload reads as undefined |
| Schema.View | src/agent/agent.ts:72-100 | a RunTask iff the last `action` binding is "run_task", then with `params.task` and `params.payload`; a Finish iff it is "finish", then with `params.result`; otherwise the tag is truthy and is neither of the two |
| Schema.RunTaskRead | src/agent/agent.ts:72-73 | `{"action":"run_task","params":{task,payload}}` reads as a RunTask of that task and payload |
| Schema.FinishRead | src/agent/agent.ts:97-100 | `{"action":"finish","params":{result}}` reads as a Finish with that result |
| Tasks.Perform | src/agent/tasks.ts:16-28 | no ensures; the two task functions. That both return their payload is stated by `Tasks.Handle` and `Tasks.CatalogFacts` |
| Tasks.Catalog | src/agent/tasks.ts:11-30 | no ensures; the two task descriptions, in order. Stated by `Tasks.CatalogFacts`, `Tasks.InitTasks` and `AgentProperties.CatalogTaskLines` |
| Tasks.CatalogWorkers | src/agent/tasks.ts:11-30 | no ensures; the two workers `initTasks` registers, in order. Stated by `Tasks.InitTasks`, `Tasks.CatalogFacts` and `Agent.RunAgent` |
| Tasks.Routes | src/agent/tasks.ts:41-46 | no ensures; a request for a registered worker's name resolves with that worker's handler on the payload. Used by `Tasks.CatalogTaskEchoes` |
| Tasks.CatalogTaskEchoes | src/agent/tasks.ts:41-46 | when the substrate runs registered tasks with their handlers (`Tasks.Routes`), a request for either catalog task resolves with its own payload |
| Tasks.Handle | src/agent/tasks.ts:41-46 | the registered handler resolves to `func(job.data)`, which for both catalog functions is `job.data` itself |
| Tasks.PlanLlama.Work | src/agent/tasks.ts:41 | `work` appends exactly one worker to the registrations |
| Tasks.PlanLlamaTask | src/agent/tasks.ts:35-48 | registers exactly one worker under `name` with `func`, and returns `{name, description}` |
| Tasks.InitTasks | src/agent/tasks.ts:8-33 | returns the catalog in order, and registers exactly its two workers in that order |
| Tasks.Names | src/agent/agent.ts:38 | the names list has one entry per task, in order |
| Tasks.CatalogFacts | src/agent/tasks.ts:11-30 | two tasks with distinct names; workers are registered in catalog order; every worker echoes its job's payload |
| Agent.InitialTrace | src/agent/agent.ts:36-52 | no ensures; the two initial log entries and the two initial messages. Stated by `AgentProperties.InitialConversation` |
| Agent.ContextOrDefault | src/agent/agent.ts:28 | no ensures; the `context = {}` default. Stated by `AgentProperties.InitialConversation` |
| Agent.TaskLine | src/agent/agent.ts:45 | no ensures; `- "${t.name}": ${t.description}`. Stated by `Agent.TaskLineList` and `AgentProperties.CatalogTaskLines` |
| Agent.TaskLines | src/agent/agent.ts:45 | no ensures; the task lines joined by "\n\n". Stated by `AgentProperties.CatalogTaskLines` and `AgentProperties.CatalogTaskLinesHaveNoDollar` |
| Agent.SystemContent | src/agent/agent.ts:43-46 | no ensures; the template with its placeholder replaced. Stated by `AgentProperties.SystemMessageRendering` |
| Agent.UserContent | src/agent/agent.ts:50 | no ensures; `Goal: ${goal}\nContext: ${JSON.stringify(context)}`. Stated by `AgentProperties.InitialConversation` |
| Agent.InitialHistory | src/agent/agent.ts:40-52 | no ensures; the system message, then the user message. Stated by `AgentProperties.InitialConversation` |
| Agent.CallLlm | src/agent/agent.ts:55-56 | no ensures; the "Calling LLM..." log, then the call with the whole history. Stated by every `Agent.StepOn*` lemma and by `AgentProperties.StepEvents` |
| Agent.AgentRun | src/agent/agent.ts:25-103 | no ensures; the loop from the initial trace. Stated by `Agent.RunAgent`, `AgentProperties.InitialMessagesKept`, `AgentProperties.OneCallPerCompletion` and `AgentProperties.WeatherRun` |
| Agent.FeedbackContent | src/agent/agent.ts:86-92 | no ensures; `Task "${task}" completed. Result: ` followed by `JSON.stringify({task, result})`, which drops undefined members. Stated by `Agent.StepOnRunTask` and `AgentProperties.WeatherTurns` |
| Agent.Step | src/agent/agent.ts:54-102 | no ensures; one iteration of the loop. Its eight cases are stated by `Agent.StepOnProviderError`, `StepOnParseFailure`, `StepOnTaskConversionError`, `StepOnRunTask`, `StepOnRejectedTask`, `StepOnFinish`, `StepOnResultConversionError` and `StepOnUnrecognized`; its effect on the trace is stated by `AgentProperties.StepExtends` and `AgentProperties.StepEvents` |
| Agent.Loop | src/agent/agent.ts:54-102 | no ensures; the `while (true)` loop over the script of completions. Stated by `Agent.LoopOn*`, `Agent.RunAgent` and the whole-run lemmas of `AgentProperties` |
| Agent.TaskLineList | src/agent/agent.ts:45 | one `- "name": description` line per task, in order |
| Agent.StepOnProviderError | src/agent/agent.ts:55-56 | a failed model call ends the run right after the call is logged and made |
| Agent.StepOnParseFailure | src/agent/agent.ts:58-70 | an unparsable reply appends exactly the reply (assistant) and the correction (system), logs one error with the thrown text, and continues |
| Agent.StepOnTaskConversionError | src/agent/agent.ts:72-74 | a run_task whose task `${task}` cannot convert aborts the run with nothing logged or requested after the call |
| Agent.StepOnRunTask | src/agent/agent.ts:72-95 | a run_task sends one request; once it resolves, the history gets the reply and the feedback message, and the four log entries appear in order |
| Agent.StepOnRejectedTask | src/agent/agent.ts:72-76 | a rejected request aborts the run with the history unchanged |
| Agent.StepOnFinish | src/agent/agent.ts:97-101 | a finish whose result converts returns `params.result`, logs "Agent finished" and the final result, and leaves the history unchanged |
| Agent.StepOnResultConversionError | src/agent/agent.ts:97-99 | a finish whose result `${result}` cannot convert aborts the run after logging "Agent finished", with no final-result log |
| Agent.StepOnUnrecognized | src/agent/agent.ts:72-102 | a tag other than run_task/finish changes nothing but the call and its log line |
| Agent.LoopOnProviderError | src/agent/agent.ts:55-56 | in a run, a failed model call ends the run right after the call is logged and made |
| Agent.LoopOnParseFailure | src/agent/agent.ts:58-70 | in a run, an unparsable reply appends the reply and the correction and logs the error, and the run goes on with the rest of the script |
| Agent.LoopOnRunTask | src/agent/agent.ts:72-95 | in a run, a resolved task appends the reply and the feedback and logs the four entries, and the run goes on with the rest of the script |
| Agent.LoopOnRejectedTask | src/agent/agent.ts:72-76 | in a run, a rejected request ends the run with the rejection and the history unchanged |
| Agent.LoopOnFinish | src/agent/agent.ts:97-101 | in a run, a finish ends the run with `params.result`; the rest of the script is never consumed |
| Agent.LoopOnTaskConversionError | src/agent/agent.ts:72-74 | in a run, a task `${task}` cannot convert ends the run with `ConversionFailed` before any task log or request |
| Agent.LoopOnResultConversionError | src/agent/agent.ts:97-99 | in a run, a result `${result}` cannot convert ends the run with `ConversionFailed` after "Agent finished" is logged |
| Agent.LoopOnUnrecognized | src/agent/agent.ts:72-102 | in a run, an unrecognized tag sends the loop round again with the history unchanged |
| Agent.RunAgent | src/agent/agent.ts:25-103 | the controller's outcome, history, logs and collaborator calls are exactly those of `AgentRun`, and it registers exactly the catalog's workers |
| AgentProperties.PromptIntroHasNoDoubleBrace | src/agent/agent.ts:6-11 | the opening lines of the template have no `{{` and end in a newline |
| AgentProperties.PromptActionsHaveNoDoubleBrace | src/agent/agent.ts:12-13 | the two action lines contain braces but never `{{`, and end in a newline |
| AgentProperties.PromptHeadHasNoDoubleBrace | src/agent/agent.ts:6-15 | the template text before the placeholder has no `{{` and ends in a newline |
| AgentProperties.SystemMessageRendering | src/agent/agent.ts:43-46 | the system message is the template with `{{tasks}}` replaced by the task lines, and the rest unchanged |
| AgentProperties.CatalogTaskLines | src/agent/agent.ts:45 | the catalog renders as its two task lines separated by a blank line |
| AgentProperties.CatalogTaskLinesHaveNoDollar | src/agent/agent.ts:43-46 | the catalog text contains no `$`, so `replace` inserts it literally |
| AgentProperties.FetchDescriptionHasNoDollar | src/agent/tasks.ts:15 | the fetch_data description contains no `$` |
| AgentProperties.ProcessDescriptionHasNoDollar | src/agent/tasks.ts:24 | the process_data description contains no `$` |
| AgentProperties.InitialConversation | src/agent/agent.ts:36-52 | a run starts with the two log entries "Initializing agent..." and "Available tasks: fetch_data, process_data", exactly the rendered system prompt and `Goal: …\nContext: …` (context `{}` by default), and no calls |
| AgentProperties.StepExtends | src/agent/agent.ts:54-102 | one turn only appends to the history, the logs and the calls |
| AgentProperties.LoopAppendOnly | src/agent/agent.ts:54-102 | a whole run only appends: every earlier message, log entry and call survives unchanged |
| AgentProperties.InitialMessagesKept | src/agent/agent.ts:40-102 | the two initial messages are still the first two at the end of every run |
| AgentProperties.StepEvents | src/agent/agent.ts:55-76 | one turn records exactly one model call, made with the current history, followed by at most one dispatch |
| AgentProperties.StepKeepsCallOrder | src/agent/agent.ts:55-76 | one turn keeps "each dispatch follows a model call" and "each call saw a prefix of the history" |
| AgentProperties.LoopKeepsCallOrder | src/agent/agent.ts:54-102 | along a run, every dispatch directly follows a model call, and every model call was sent a prefix of the final history |
| AgentProperties.StepCallCount | src/agent/agent.ts:55-56 | every turn calls the model exactly once |
| AgentProperties.OneCallPerCompletion | src/agent/agent.ts:54-102 | a run makes at most one model call more than there are completions, and exactly that many iff it is left waiting for a reply |
| AgentProperties.NoRetryCap | src/agent/agent.ts:58-70 | with no parsable reply, the run never stops, and each completion adds exactly two messages |
| AgentProperties.WeatherTurns | src/agent/agent.ts:54-102 | from any trace, with the substrate running registered tasks with their handlers: invalid text, then fetch_data, whose payload the worker echoes, then finish "done" gives exactly one correction, one dispatch, the listed logs in order, and the result "done" |
| AgentProperties.WeatherRun | src/agent/agent.ts:25-103 | the same run from the start, for any goal (such as "fetch weather") and no context: six messages, four calls with the dispatch third, and the result "done" |

## Left out

- Console output (`console.log` and `console.error`) is not modelled. The `onLog` observer is modelled as the `logs` sequence.
- The `async` scheduling is not modelled. Every `await` is taken to settle before the next statement runs.
- `callLLM` (openai.ts) is not part of this model. It is a script of completions; a rejected call is `ProviderError`.
- The PlanLlama client is not part of this model. `work` is a registration record. `request` is the fixed function `respond`, which either resolves or rejects. `Tasks.Routes` says that `respond` runs registered tasks with their handlers. `Agent.RunAgent` does not require it; `AgentProperties.WeatherTurns` does. Registration never fails. The substrate's queueing, retries and workers' actual execution are not modelled. `Tasks.Handle` states what a registered handler returns.
- The text algorithms of `JSON.parse`, `JSON.stringify` and `String(number)` are oracle fields of `Codec`. Numbers are reals, so IEEE-754 rounding is not modelled.
- The `onLog` observer (agent.ts:33) is assumed to return normally. If it threw, `runAgent` would abort at that `log` call, for example before `callLLM`; in the model every log entry is appended and the run goes on.
- `Json.Interpolate`: the conversion `TypeError` is the outcome `ConversionFailed`, without its message text.
- `Schema.ParseAction`: the `TypeError` text for a null document is the V8 wording. Other engines phrase it differently.
- `Strings.ReplaceFirst` does not interpret `$` patterns in the replacement. `AgentProperties.CatalogTaskLinesHaveNoDollar` shows that the catalog text has none.
- Each model call is recorded as a snapshot of the history. In JavaScript, `callLLM` receives the live `history` array. Later pushes would be visible to a callee that kept the reference; that aliasing is not modelled.
- `Agent.RunAgent` stops when the script of completions runs out (`AwaitingReply`). The real loop would wait for another completion and has no bound.
- The web UI (App.tsx, App.jsx), openai.ts and test-openai.js are not part of this model.
