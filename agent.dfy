/**
 * The agent controller `runAgent`: it renders the initial conversation,
 * then repeatedly asks the language model for one action, parses it, and
 * either corrects the model, dispatches a task to the job substrate, or
 * returns the model's final result.
 *
 * The language model is a script of completions, one consumed per call.
 * `Loop` is the specification of the controller as a function of that
 * script; the method `RunAgent` is the controller itself and is proved to
 * compute exactly what `Loop` describes.
 */
module Agent {
  import opened Wrappers
  import opened Json
  import opened Strings
  import opened Schema
  import opened Tasks

  datatype Role = System | User | Assistant

  /** One entry of the conversation history. */
  datatype Message = Message(role: Role, content: string)

  datatype LogType = InfoLog | ActionLog | ResultLog | ErrorLog

  /** One call of the `onLog` observer. */
  datatype LogEntry = LogEntry(message: string, kind: LogType)

  /** What one call of the language model yields: its text, or a provider failure. */
  datatype Completion = Text(content: string) | ProviderError(error: string)

  /** The calls the controller makes on its two collaborators, in order. */
  datatype Event = LlmCall(messages: seq<Message>) | Dispatch(request: Request)

  /** Everything the controller has produced so far. */
  datatype Trace = Trace(history: seq<Message>, logs: seq<LogEntry>, events: seq<Event>)

  /**
   * How a run ends: with the `result` of a finish action, with a propagated
   * failure of the model or of the substrate, with the TypeError of a
   * template literal that cannot convert the task or the result, or still
   * waiting for a completion once the script is used up.
   */
  datatype Outcome =
    | Finished(result: Option<Json>)
    | LlmFailed(error: string)
    | TaskFailed(error: string)
    | ConversionFailed
    | AwaitingReply

  datatype Run = Run(outcome: Outcome, trace: Trace)

  /** The result of one loop iteration. */
  datatype Turn = Continue(next: Trace) | Halt(outcome: Outcome, last: Trace)

  // The system prompt template, split into short pieces: the part before
  // the `{{tasks}}` placeholder, the placeholder, and the part after it.
  const PromptIntro: string :=
    "\nYou are a workflow planning agent.\n\n"
    + "You MUST respond only in JSON.\n\n"
    + "Actions:\n"
  const PromptActions: string :=
    "1. {\"action\":\"run_task\","
    + "\"params\":{\"task\":string,"
    + "\"payload\":object}}\n"
    + "2. {\"action\":\"finish\","
    + "\"params\":{\"result\":string}}\n"
  const PromptHead: string := PromptIntro + PromptActions + "\nAvailable tasks:\n"
  const Placeholder: string := "{{tasks}}"
  const PromptTail: string :=
    "\n\nRules:\n"
    + "- Always respond with valid JSON.\n"
    + "- If you encounter an error, you must handle it gracefully"
    + " and return a valid JSON response.\n"
    + "\nDo not output explanations.\n"
  const SystemPrompt: string := PromptHead + Placeholder + PromptTail

  /** The system message the controller appends after an unparsable completion. */
  const Correction: string := "Your previous response was invalid JSON. Fix it."

  /** `- "name": description`, one task of the prompt. */
  function TaskLine(t: TaskDescription): string
  {
    "- \"" + t.name + "\": " + t.description
  }

  function TaskLineList(tasks: seq<TaskDescription>): (r: seq<string>)
    ensures |r| == |tasks| && forall i :: 0 <= i < |tasks| ==> r[i] == TaskLine(tasks[i])
  {
    if |tasks| == 0 then [] else [TaskLine(tasks[0])] + TaskLineList(tasks[1..])
  }

  /** The task lines joined by blank lines. */
  function TaskLines(tasks: seq<TaskDescription>): string
  {
    Join(TaskLineList(tasks), "\n\n")
  }

  /** The template with its placeholder replaced by the task lines. */
  function SystemContent(tasks: seq<TaskDescription>): string
  {
    ReplaceFirst(SystemPrompt, Placeholder, TaskLines(tasks))
  }

  function UserContent(goal: string, context: Json, codec: Codec): string
  {
    "Goal: " + goal + "\nContext: " + codec.stringify(context)
  }

  function InitialHistory(tasks: seq<TaskDescription>, goal: string, context: Json, codec: Codec): seq<Message>
  {
    [Message(System, SystemContent(tasks)), Message(User, UserContent(goal, context, codec))]
  }

  /** The `context = {}` default parameter. */
  function ContextOrDefault(context: Option<Json>): Json
  {
    match context
    case None => JObject([])
    case Some(c) => c
  }

  /** The member `key: v` of an object literal, dropped by `JSON.stringify` when `v` is undefined. */
  function DefinedMember(key: string, v: Option<Json>): seq<Member>
  {
    match v
    case None => []
    case Some(x) => [Member(key, x)]
  }

  /** The user message that feeds a task's result back to the model; `shown` is `${task}`. */
  function FeedbackContent(shown: string, task: Option<Json>, result: Option<Json>, codec: Codec): string
  {
    "Task \"" + shown + "\" completed. Result: "
    + codec.stringify(JObject(DefinedMember("task", task) + DefinedMember("result", result)))
  }

  /** The start of every iteration: log, then call the model with the whole history. */
  function CallLlm(t: Trace): Trace
  {
    Trace(t.history, t.logs + [LogEntry("Calling LLM...", InfoLog)], t.events + [LlmCall(t.history)])
  }

  /** One iteration of the `while (true)` loop, given the model's completion. */
  function Step(t: Trace, c: Completion, codec: Codec, respond: Request -> Reply): Turn
  {
    var called := CallLlm(t);
    match c
    case ProviderError(e) => Halt(LlmFailed(e), called)
    case Text(out) =>
      match ParseAction(out, codec.parse)
      case Failure(err) =>
        Continue(Trace(
          called.history + [Message(Assistant, out), Message(System, Correction)],
          called.logs + [LogEntry("Invalid JSON response: " + ErrorText(err), ErrorLog)],
          called.events))
      case Success(data) =>
        match View(data)
        case RunTask(task, payload) =>
          (match Interpolate(task, codec)
           case None => Halt(ConversionFailed, called)
           case Some(shown) =>
             var logs := called.logs + [
               LogEntry("Executing task: " + shown, ActionLog),
               LogEntry("Payload: " + StringifyText(payload, codec), InfoLog)];
             var events := called.events + [Dispatch(Request(task, payload))];
             (match respond(Request(task, payload))
              case Rejected(e) => Halt(TaskFailed(e), Trace(called.history, logs, events))
              case Resolved(result) =>
                Continue(Trace(
                  called.history + [Message(Assistant, out), Message(User, FeedbackContent(shown, task, result, codec))],
                  logs + [LogEntry("Task result: " + StringifyText(result, codec), ResultLog)],
                  events))))
        case Finish(result) =>
          (match Interpolate(result, codec)
           case None => Halt(ConversionFailed, Trace(
             called.history, called.logs + [LogEntry("Agent finished", InfoLog)], called.events))
           case Some(shown) => Halt(Finished(result), Trace(
             called.history,
             called.logs + [LogEntry("Agent finished", InfoLog), LogEntry("Final result: " + shown, ResultLog)],
             called.events)))
        case Unrecognized(_) => Continue(called)
  }

  /** The loop from trace `t` on, with `script` as the model's remaining completions. */
  function Loop(t: Trace, script: seq<Completion>, codec: Codec, respond: Request -> Reply): Run
    decreases |script|
  {
    if |script| == 0 then Run(AwaitingReply, CallLlm(t))
    else
      match Step(t, script[0], codec, respond)
      case Continue(next) => Loop(next, script[1..], codec, respond)
      case Halt(outcome, last) => Run(outcome, last)
  }

  /** The trace when the loop is first entered. */
  function InitialTrace(goal: string, context: Option<Json>, codec: Codec): Trace
  {
    Trace(
      InitialHistory(Catalog(), goal, ContextOrDefault(context), codec),
      [ LogEntry("Initializing agent...", InfoLog),
        LogEntry("Available tasks: " + Join(Names(Catalog()), ", "), InfoLog) ],
      [])
  }

  /** A whole run of the controller. */
  function AgentRun(goal: string, context: Option<Json>, script: seq<Completion>, codec: Codec, respond: Request -> Reply): Run
  {
    Loop(InitialTrace(goal, context, codec), script, codec, respond)
  }

  lemma LoopContinues(t: Trace, script: seq<Completion>, codec: Codec, respond: Request -> Reply, next: Trace)
    requires |script| > 0 && Step(t, script[0], codec, respond) == Continue(next)
    ensures Loop(t, script, codec, respond) == Loop(next, script[1..], codec, respond)
  {
  }

  lemma LoopHalts(t: Trace, script: seq<Completion>, codec: Codec, respond: Request -> Reply, outcome: Outcome, last: Trace)
    requires |script| > 0 && Step(t, script[0], codec, respond) == Halt(outcome, last)
    ensures Loop(t, script, codec, respond) == Run(outcome, last)
  {
  }

  // What one iteration does, outcome by outcome. Each iteration first logs
  // and calls the model with the history as it stands.

  lemma StepOnProviderError(t: Trace, e: string, codec: Codec, respond: Request -> Reply)
    ensures Step(t, ProviderError(e), codec, respond) == Halt(LlmFailed(e), CallLlm(t))
  {
  }

  lemma StepOnParseFailure(t: Trace, out: string, codec: Codec, respond: Request -> Reply)
    requires ParseAction(out, codec.parse).Failure?
    ensures Step(t, Text(out), codec, respond) == Continue(Trace(
      t.history + [Message(Assistant, out), Message(System, Correction)],
      t.logs + [ LogEntry("Calling LLM...", InfoLog),
                 LogEntry("Invalid JSON response: " + ErrorText(ParseAction(out, codec.parse).error), ErrorLog) ],
      t.events + [LlmCall(t.history)]))
  {
  }

  lemma StepOnTaskConversionError(t: Trace, out: string, codec: Codec, respond: Request -> Reply, task: Option<Json>, payload: Option<Json>)
    requires ParseAction(out, codec.parse).Success?
    requires View(ParseAction(out, codec.parse).value) == RunTask(task, payload)
    requires Interpolate(task, codec).None?
    ensures Step(t, Text(out), codec, respond) == Halt(ConversionFailed, Trace(
      t.history, t.logs + [LogEntry("Calling LLM...", InfoLog)], t.events + [LlmCall(t.history)]))
  {
  }

  lemma StepOnRunTask(t: Trace, out: string, codec: Codec, respond: Request -> Reply,
                      task: Option<Json>, shown: string, payload: Option<Json>, result: Option<Json>)
    requires ParseAction(out, codec.parse).Success?
    requires View(ParseAction(out, codec.parse).value) == RunTask(task, payload)
    requires Interpolate(task, codec) == Some(shown)
    requires respond(Request(task, payload)) == Resolved(result)
    ensures Step(t, Text(out), codec, respond) == Continue(Trace(
      t.history + [Message(Assistant, out), Message(User, FeedbackContent(shown, task, result, codec))],
      t.logs + [ LogEntry("Calling LLM...", InfoLog),
                 LogEntry("Executing task: " + shown, ActionLog),
                 LogEntry("Payload: " + StringifyText(payload, codec), InfoLog),
                 LogEntry("Task result: " + StringifyText(result, codec), ResultLog) ],
      t.events + [LlmCall(t.history), Dispatch(Request(task, payload))]))
  {
  }

  lemma StepOnRejectedTask(t: Trace, out: string, codec: Codec, respond: Request -> Reply,
                           task: Option<Json>, shown: string, payload: Option<Json>, e: string)
    requires ParseAction(out, codec.parse).Success?
    requires View(ParseAction(out, codec.parse).value) == RunTask(task, payload)
    requires Interpolate(task, codec) == Some(shown)
    requires respond(Request(task, payload)) == Rejected(e)
    ensures Step(t, Text(out), codec, respond) == Halt(TaskFailed(e), Trace(
      t.history,
      t.logs + [ LogEntry("Calling LLM...", InfoLog),
                 LogEntry("Executing task: " + shown, ActionLog),
                 LogEntry("Payload: " + StringifyText(payload, codec), InfoLog) ],
      t.events + [LlmCall(t.history), Dispatch(Request(task, payload))]))
  {
  }

  lemma StepOnFinish(t: Trace, out: string, codec: Codec, respond: Request -> Reply, result: Option<Json>, shown: string)
    requires ParseAction(out, codec.parse).Success?
    requires View(ParseAction(out, codec.parse).value) == Finish(result)
    requires Interpolate(result, codec) == Some(shown)
    ensures Step(t, Text(out), codec, respond) == Halt(Finished(result), Trace(
      t.history,
      t.logs + [ LogEntry("Calling LLM...", InfoLog),
                 LogEntry("Agent finished", InfoLog),
                 LogEntry("Final result: " + shown, ResultLog) ],
      t.events + [LlmCall(t.history)]))
  {
  }

  lemma StepOnResultConversionError(t: Trace, out: string, codec: Codec, respond: Request -> Reply, result: Option<Json>)
    requires ParseAction(out, codec.parse).Success?
    requires View(ParseAction(out, codec.parse).value) == Finish(result)
    requires Interpolate(result, codec).None?
    ensures Step(t, Text(out), codec, respond) == Halt(ConversionFailed, Trace(
      t.history,
      t.logs + [LogEntry("Calling LLM...", InfoLog), LogEntry("Agent finished", InfoLog)],
      t.events + [LlmCall(t.history)]))
  {
  }

  lemma StepOnUnrecognized(t: Trace, out: string, codec: Codec, respond: Request -> Reply, tag: Json)
    requires ParseAction(out, codec.parse).Success?
    requires View(ParseAction(out, codec.parse).value) == Unrecognized(tag)
    ensures Step(t, Text(out), codec, respond) == Continue(Trace(
      t.history, t.logs + [LogEntry("Calling LLM...", InfoLog)], t.events + [LlmCall(t.history)]))
  {
  }

  // The same, seen from the loop: each iteration consumes the first
  // completion of the script.

  /** A provider failure aborts the run after the call. */
  lemma LoopOnProviderError(t: Trace, script: seq<Completion>, codec: Codec, respond: Request -> Reply, e: string)
    requires |script| > 0 && script[0] == ProviderError(e)
    ensures Loop(t, script, codec, respond) == Run(LlmFailed(e), Trace(
      t.history, t.logs + [LogEntry("Calling LLM...", InfoLog)], t.events + [LlmCall(t.history)]))
  {
    StepOnProviderError(t, e, codec, respond);
    LoopHalts(t, script, codec, respond, LlmFailed(e), CallLlm(t));
  }

  // The loop-level lemmas below list the appended entries one by one, in
  // the order in which the controller appends them.

  /**
   * A completion that does not parse appends exactly the completion, as an
   * assistant message, and the correction, as a system message; it logs one
   * error and the loop goes on with the rest of the script.
   */
  lemma LoopOnParseFailure(t: Trace, script: seq<Completion>, codec: Codec, respond: Request -> Reply, out: string)
    requires |script| > 0 && script[0] == Text(out)
    requires ParseAction(out, codec.parse).Failure?
    ensures Loop(t, script, codec, respond) == Loop(Trace(
      t.history + [Message(Assistant, out)] + [Message(System, Correction)],
      t.logs + [LogEntry("Calling LLM...", InfoLog)]
             + [LogEntry("Invalid JSON response: " + ErrorText(ParseAction(out, codec.parse).error), ErrorLog)],
      t.events + [LlmCall(t.history)]), script[1..], codec, respond)
  {
    StepOnParseFailure(t, out, codec, respond);
    var next := Step(t, Text(out), codec, respond).next;
    assert next.history == t.history + [Message(Assistant, out)] + [Message(System, Correction)];
    assert next.logs == t.logs + [LogEntry("Calling LLM...", InfoLog)]
      + [LogEntry("Invalid JSON response: " + ErrorText(ParseAction(out, codec.parse).error), ErrorLog)];
    LoopContinues(t, script, codec, respond, next);
  }

  /**
   * A `run_task` action sends exactly one request; once it resolves, the
   * completion and a user message carrying the result are appended, the
   * four log entries appear in order, and the loop goes on.
   */
  lemma LoopOnRunTask(t: Trace, script: seq<Completion>, codec: Codec, respond: Request -> Reply,
                      out: string, task: Option<Json>, shown: string, payload: Option<Json>, result: Option<Json>)
    requires |script| > 0 && script[0] == Text(out)
    requires ParseAction(out, codec.parse).Success?
    requires View(ParseAction(out, codec.parse).value) == RunTask(task, payload)
    requires Interpolate(task, codec) == Some(shown)
    requires respond(Request(task, payload)) == Resolved(result)
    ensures Loop(t, script, codec, respond) == Loop(Trace(
      t.history + [Message(Assistant, out)] + [Message(User, FeedbackContent(shown, task, result, codec))],
      t.logs + [LogEntry("Calling LLM...", InfoLog)]
             + [LogEntry("Executing task: " + shown, ActionLog)]
             + [LogEntry("Payload: " + StringifyText(payload, codec), InfoLog)]
             + [LogEntry("Task result: " + StringifyText(result, codec), ResultLog)],
      t.events + [LlmCall(t.history)] + [Dispatch(Request(task, payload))]), script[1..], codec, respond)
  {
    StepOnRunTask(t, out, codec, respond, task, shown, payload, result);
    var next := Step(t, Text(out), codec, respond).next;
    assert next.history == t.history + [Message(Assistant, out)] + [Message(User, FeedbackContent(shown, task, result, codec))];
    assert next.logs == t.logs + [LogEntry("Calling LLM...", InfoLog)]
      + [LogEntry("Executing task: " + shown, ActionLog)]
      + [LogEntry("Payload: " + StringifyText(payload, codec), InfoLog)]
      + [LogEntry("Task result: " + StringifyText(result, codec), ResultLog)];
    assert next.events == t.events + [LlmCall(t.history)] + [Dispatch(Request(task, payload))];
    LoopContinues(t, script, codec, respond, next);
  }

  /** A rejected request aborts the run with nothing appended to the history. */
  lemma LoopOnRejectedTask(t: Trace, script: seq<Completion>, codec: Codec, respond: Request -> Reply,
                           out: string, task: Option<Json>, shown: string, payload: Option<Json>, e: string)
    requires |script| > 0 && script[0] == Text(out)
    requires ParseAction(out, codec.parse).Success?
    requires View(ParseAction(out, codec.parse).value) == RunTask(task, payload)
    requires Interpolate(task, codec) == Some(shown)
    requires respond(Request(task, payload)) == Rejected(e)
    ensures Loop(t, script, codec, respond) == Run(TaskFailed(e), Trace(
      t.history,
      t.logs + [LogEntry("Calling LLM...", InfoLog)]
             + [LogEntry("Executing task: " + shown, ActionLog)]
             + [LogEntry("Payload: " + StringifyText(payload, codec), InfoLog)],
      t.events + [LlmCall(t.history)] + [Dispatch(Request(task, payload))]))
  {
    StepOnRejectedTask(t, out, codec, respond, task, shown, payload, e);
    var last := Step(t, Text(out), codec, respond).last;
    assert last.logs == t.logs + [LogEntry("Calling LLM...", InfoLog)]
      + [LogEntry("Executing task: " + shown, ActionLog)]
      + [LogEntry("Payload: " + StringifyText(payload, codec), InfoLog)];
    assert last.events == t.events + [LlmCall(t.history)] + [Dispatch(Request(task, payload))];
    LoopHalts(t, script, codec, respond, TaskFailed(e), last);
  }

  /**
   * A `finish` action returns its `result`, appends nothing to the history,
   * and ends the run: the rest of the script is never consumed.
   */
  lemma LoopOnFinish(t: Trace, script: seq<Completion>, codec: Codec, respond: Request -> Reply,
                     out: string, result: Option<Json>, shown: string)
    requires |script| > 0 && script[0] == Text(out)
    requires ParseAction(out, codec.parse).Success?
    requires View(ParseAction(out, codec.parse).value) == Finish(result)
    requires Interpolate(result, codec) == Some(shown)
    ensures Loop(t, script, codec, respond) == Run(Finished(result), Trace(
      t.history,
      t.logs + [LogEntry("Calling LLM...", InfoLog)]
             + [LogEntry("Agent finished", InfoLog)]
             + [LogEntry("Final result: " + shown, ResultLog)],
      t.events + [LlmCall(t.history)]))
  {
    StepOnFinish(t, out, codec, respond, result, shown);
    var last := Step(t, Text(out), codec, respond).last;
    assert last.logs == t.logs + [LogEntry("Calling LLM...", InfoLog)]
      + [LogEntry("Agent finished", InfoLog)]
      + [LogEntry("Final result: " + shown, ResultLog)];
    LoopHalts(t, script, codec, respond, Finished(result), last);
  }

  /**
   * A task that `${task}` cannot convert aborts the run before anything is
   * logged or requested for it.
   */
  lemma LoopOnTaskConversionError(t: Trace, script: seq<Completion>, codec: Codec, respond: Request -> Reply,
                                  out: string, task: Option<Json>, payload: Option<Json>)
    requires |script| > 0 && script[0] == Text(out)
    requires ParseAction(out, codec.parse).Success?
    requires View(ParseAction(out, codec.parse).value) == RunTask(task, payload)
    requires Interpolate(task, codec).None?
    ensures Loop(t, script, codec, respond) == Run(ConversionFailed, Trace(
      t.history, t.logs + [LogEntry("Calling LLM...", InfoLog)], t.events + [LlmCall(t.history)]))
  {
    StepOnTaskConversionError(t, out, codec, respond, task, payload);
    LoopHalts(t, script, codec, respond, ConversionFailed, Step(t, Text(out), codec, respond).last);
  }

  /**
   * A finish whose result `${result}` cannot convert aborts the run after
   * "Agent finished" is logged, instead of returning.
   */
  lemma LoopOnResultConversionError(t: Trace, script: seq<Completion>, codec: Codec, respond: Request -> Reply,
                                    out: string, result: Option<Json>)
    requires |script| > 0 && script[0] == Text(out)
    requires ParseAction(out, codec.parse).Success?
    requires View(ParseAction(out, codec.parse).value) == Finish(result)
    requires Interpolate(result, codec).None?
    ensures Loop(t, script, codec, respond) == Run(ConversionFailed, Trace(
      t.history,
      t.logs + [LogEntry("Calling LLM...", InfoLog)] + [LogEntry("Agent finished", InfoLog)],
      t.events + [LlmCall(t.history)]))
  {
    StepOnResultConversionError(t, out, codec, respond, result);
    var last := Step(t, Text(out), codec, respond).last;
    assert last.logs == t.logs + [LogEntry("Calling LLM...", InfoLog)] + [LogEntry("Agent finished", InfoLog)];
    LoopHalts(t, script, codec, respond, ConversionFailed, last);
  }

  /**
   * Any other tag leaves the history as it was: only the call and its log
   * happened, and the loop goes round again.
   */
  lemma LoopOnUnrecognized(t: Trace, script: seq<Completion>, codec: Codec, respond: Request -> Reply, out: string, tag: Json)
    requires |script| > 0 && script[0] == Text(out)
    requires ParseAction(out, codec.parse).Success?
    requires View(ParseAction(out, codec.parse).value) == Unrecognized(tag)
    ensures Loop(t, script, codec, respond) == Loop(Trace(
      t.history, t.logs + [LogEntry("Calling LLM...", InfoLog)], t.events + [LlmCall(t.history)]), script[1..], codec, respond)
  {
    StepOnUnrecognized(t, out, codec, respond, tag);
    LoopContinues(t, script, codec, respond, Step(t, Text(out), codec, respond).next);
  }

  /**
   * `runAgent`: register the catalog, build the two initial messages, and
   * loop until the model finishes, a collaborator fails, or the script of
   * completions is used up.
   */
  method RunAgent(planLlama: PlanLlama, goal: string, context: Option<Json>, llm: seq<Completion>, codec: Codec)
    returns (outcome: Outcome, history: seq<Message>, logs: seq<LogEntry>, events: seq<Event>)
    modifies planLlama
    ensures Run(outcome, Trace(history, logs, events)) == AgentRun(goal, context, llm, codec, planLlama.respond)
    ensures planLlama.workers == old(planLlama.workers) + CatalogWorkers()
  {
    logs := [LogEntry("Initializing agent...", InfoLog)];
    var tasks := InitTasks(planLlama);
    logs := logs + [LogEntry("Available tasks: " + Join(Names(tasks), ", "), InfoLog)];
    var ctx := ContextOrDefault(context);
    history := [
      Message(System, ReplaceFirst(SystemPrompt, Placeholder, TaskLines(tasks))),
      Message(User, "Goal: " + goal + "\nContext: " + codec.stringify(ctx))];
    events := [];
    var i := 0;
    assert Trace(history, logs, events) == InitialTrace(goal, context, codec);
    assert llm[i..] == llm;
    while true
      invariant 0 <= i <= |llm|
      invariant planLlama.workers == old(planLlama.workers) + CatalogWorkers()
      invariant Loop(Trace(history, logs, events), llm[i..], codec, planLlama.respond)
             == AgentRun(goal, context, llm, codec, planLlama.respond)
      decreases |llm| - i
    {
      ghost var before := Trace(history, logs, events);
      ghost var script := llm[i..];
      logs := logs + [LogEntry("Calling LLM...", InfoLog)];
      events := events + [LlmCall(history)];
      if i == |llm| {
        outcome := AwaitingReply;
        return;
      }
      var completion := llm[i];
      assert script[0] == completion && script[1..] == llm[i + 1..];
      i := i + 1;
      if completion.ProviderError? {
        outcome := LlmFailed(completion.error);
        LoopOnProviderError(before, script, codec, planLlama.respond, completion.error);
        return;
      }
      var llmOutput := completion.content;

      var parsed := ParseAction(llmOutput, codec.parse);
      if parsed.Failure? {
        logs := logs + [LogEntry("Invalid JSON response: " + ErrorText(parsed.error), ErrorLog)];
        history := history + [Message(Assistant, llmOutput)];
        history := history + [Message(System, Correction)];
        LoopOnParseFailure(before, script, codec, planLlama.respond, llmOutput);
        continue;
      }
      var action := parsed.value;

      // `action.action === "run_task"`, then `const { task, payload } = action.params`
      var act := View(action);
      if act.RunTask? {
        var task, payload := act.task, act.payload;
        var shown := Interpolate(task, codec);
        if shown.None? {
          outcome := ConversionFailed;
          LoopOnTaskConversionError(before, script, codec, planLlama.respond, llmOutput, task, payload);
          return;
        }
        logs := logs + [LogEntry("Executing task: " + shown.value, ActionLog)];
        logs := logs + [LogEntry("Payload: " + StringifyText(payload, codec), InfoLog)];
        events := events + [Dispatch(Request(task, payload))];
        var reply := planLlama.respond(Request(task, payload));
        if reply.Rejected? {
          outcome := TaskFailed(reply.error);
          LoopOnRejectedTask(before, script, codec, planLlama.respond, llmOutput, task, shown.value, payload, reply.error);
          return;
        }
        var result := reply.result;
        logs := logs + [LogEntry("Task result: " + StringifyText(result, codec), ResultLog)];
        history := history + [Message(Assistant, llmOutput)];
        history := history + [Message(User, FeedbackContent(shown.value, task, result, codec))];
        LoopOnRunTask(before, script, codec, planLlama.respond, llmOutput, task, shown.value, payload, result);
        continue;
      }

      // `action.action === "finish"`
      if act.Finish? {
        var result := act.result;
        logs := logs + [LogEntry("Agent finished", InfoLog)];
        var shown := Interpolate(result, codec);
        if shown.None? {
          outcome := ConversionFailed;
          LoopOnResultConversionError(before, script, codec, planLlama.respond, llmOutput, result);
          return;
        }
        logs := logs + [LogEntry("Final result: " + shown.value, ResultLog)];
        outcome := Finished(result);
        LoopOnFinish(before, script, codec, planLlama.respond, llmOutput, result, shown.value);
        return;
      }
      LoopOnUnrecognized(before, script, codec, planLlama.respond, llmOutput, act.tag);
    }
  }
}
