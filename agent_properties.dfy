/**
 * Properties of the agent controller, stated about its specification
 * `Agent.Loop` (and so, through `Agent.RunAgent`'s postcondition, about
 * the controller itself).
 */
module AgentProperties {
  import opened Wrappers
  import opened Json
  import opened Strings
  import opened Schema
  import opened Tasks
  import opened Agent

  // ---------------------------------------------------------------------
  // The initial conversation
  // ---------------------------------------------------------------------

  lemma PromptIntroHasNoDoubleBrace()
    ensures NoDoubleBrace(PromptIntro) && PromptIntro[|PromptIntro| - 1] == '\n'
  {
    var c0 := "\nYou are a workflow planning agent.\n\n";
    var c1 := "You MUST respond only in JSON.\n\n";
    var c2 := "Actions:\n";
    assert NoDoubleBrace(c0) && NoDoubleBrace(c1) && NoDoubleBrace(c2);
    NoDoubleBraceAppend(c0, c1);
    NoDoubleBraceAppend(c0 + c1, c2);
  }

  /** The two action lines contain braces, but never two in a row. */
  lemma PromptActionsHaveNoDoubleBrace()
    ensures NoDoubleBrace(PromptActions) && PromptActions[|PromptActions| - 1] == '\n'
  {
    var c3 := "1. {\"action\":\"run_task\",";
    var c4 := "\"params\":{\"task\":string,";
    var c5 := "\"payload\":object}}\n";
    var c6 := "2. {\"action\":\"finish\",";
    var c7 := "\"params\":{\"result\":string}}\n";
    assert NoDoubleBrace(c3) && NoDoubleBrace(c4) && NoDoubleBrace(c5);
    assert NoDoubleBrace(c6) && NoDoubleBrace(c7);
    NoDoubleBraceAppend(c3, c4);
    NoDoubleBraceAppend(c3 + c4, c5);
    NoDoubleBraceAppend(c3 + c4 + c5, c6);
    NoDoubleBraceAppend(c3 + c4 + c5 + c6, c7);
  }

  /** The part of the template before the placeholder has no `{{` and ends in a newline. */
  lemma PromptHeadHasNoDoubleBrace()
    ensures NoDoubleBrace(PromptHead) && |PromptHead| > 0 && PromptHead[|PromptHead| - 1] == '\n'
  {
    var heading := "\nAvailable tasks:\n";
    PromptIntroHasNoDoubleBrace();
    PromptActionsHaveNoDoubleBrace();
    assert NoDoubleBrace(heading);
    NoDoubleBraceAppend(PromptIntro, PromptActions);
    NoDoubleBraceAppend(PromptIntro + PromptActions, heading);
  }

  /**
   * The system message is the template with its `{{tasks}}` placeholder
   * replaced by the task lines, and the rest of the template unchanged.
   */
  lemma SystemMessageRendering(tasks: seq<TaskDescription>)
    ensures SystemContent(tasks) == PromptHead + TaskLines(tasks) + PromptTail
  {
    PromptHeadHasNoDoubleBrace();
    NoMatchBefore(PromptHead, Placeholder, PromptTail);
    ReplaceFirstAfter(PromptHead, Placeholder, PromptTail, TaskLines(tasks));
  }

  /**
   * The catalog renders as two `- "name": description` lines separated by a
   * blank line.
   */
  lemma CatalogTaskLines()
    ensures TaskLines(Catalog()) ==
      "- \"" + "fetch_data" + "\": " + "Fetch data from a specified source."
      + "\n\n"
      + "- \"" + "process_data" + "\": " + "Process previously fetched data."
  {
    var lines := TaskLineList(Catalog());
    assert lines == [TaskLine(Catalog()[0]), TaskLine(Catalog()[1])];
    assert lines[1..] == [lines[1]];
  }

  lemma FetchDescriptionHasNoDollar()
    ensures '$' !in "Fetch data from a specified source."
  {
    assert "Fetch data from a specified source." == "Fetch data " + "from a " + "specified " + "source.";
    assert '$' !in "Fetch data " && '$' !in "from a " && '$' !in "specified " && '$' !in "source.";
  }

  lemma ProcessDescriptionHasNoDollar()
    ensures '$' !in "Process previously fetched data."
  {
    assert "Process previously fetched data." == "Process " + "previously " + "fetched " + "data.";
    assert '$' !in "Process " && '$' !in "previously " && '$' !in "fetched " && '$' !in "data.";
  }

  /**
   * The catalog text holds no `$`, so no substitution pattern of
   * `String.prototype.replace` can be triggered by it.
   */
  lemma CatalogTaskLinesHaveNoDollar()
    ensures '$' !in TaskLines(Catalog())
  {
    var lines := TaskLineList(Catalog());
    assert lines == [TaskLine(Catalog()[0]), TaskLine(Catalog()[1])];
    assert lines[1..] == [lines[1]];
    assert TaskLines(Catalog()) == lines[0] + "\n\n" + lines[1];
    FetchDescriptionHasNoDollar();
    ProcessDescriptionHasNoDollar();
    assert '$' !in "fetch_data" && '$' !in "process_data";
    assert '$' !in "- \"" && '$' !in "\": " && '$' !in "\n\n";
  }

  /**
   * A run starts with exactly two messages: the rendered system prompt and
   * the user's goal with the context (by default `{}`) as JSON.
   */
  lemma InitialConversation(goal: string, context: Option<Json>, codec: Codec)
    ensures |InitialTrace(goal, context, codec).history| == 2
    ensures InitialTrace(goal, context, codec).history[0] ==
      Message(System, PromptHead + TaskLines(Catalog()) + PromptTail)
    ensures InitialTrace(goal, context, codec).history[1] ==
      Message(User, "Goal: " + goal + "\nContext: " + codec.stringify(if context.None? then JObject([]) else context.value))
    ensures InitialTrace(goal, context, codec).logs == [
      LogEntry("Initializing agent...", InfoLog),
      LogEntry("Available tasks: " + ("fetch_data" + ", " + "process_data"), InfoLog)]
    ensures InitialTrace(goal, context, codec).events == []
  {
    SystemMessageRendering(Catalog());
    CatalogFacts();
    assert Names(Catalog()) == ["fetch_data", "process_data"];
    assert Join(Names(Catalog())[1..], ", ") == "process_data";
    assert InitialTrace(goal, context, codec).logs[1] ==
      LogEntry("Available tasks: " + ("fetch_data" + ", " + "process_data"), InfoLog);
  }

  // ---------------------------------------------------------------------
  // Append-only state
  // ---------------------------------------------------------------------

  /** `u` is `t` with entries appended: nothing of `t` was changed or removed. */
  predicate Extends(t: Trace, u: Trace)
  {
    t.history <= u.history && t.logs <= u.logs && t.events <= u.events
  }

  function TraceOf(turn: Turn): Trace
  {
    match turn
    case Continue(next) => next
    case Halt(_, last) => last
  }

  lemma StepExtends(t: Trace, c: Completion, codec: Codec, respond: Request -> Reply)
    ensures Extends(t, TraceOf(Step(t, c, codec, respond)))
  {
  }

  lemma ExtendsTransitive(t: Trace, u: Trace, w: Trace)
    requires Extends(t, u) && Extends(u, w)
    ensures Extends(t, w)
  {
  }

  /** No iteration modifies or removes an earlier message, log entry or call. */
  lemma {:induction false} LoopAppendOnly(t: Trace, script: seq<Completion>, codec: Codec, respond: Request -> Reply)
    ensures Extends(t, Loop(t, script, codec, respond).trace)
    decreases |script|
  {
    if |script| == 0 {
    } else {
      StepExtends(t, script[0], codec, respond);
      match Step(t, script[0], codec, respond)
      case Continue(next) =>
        LoopAppendOnly(next, script[1..], codec, respond);
        ExtendsTransitive(t, next, Loop(next, script[1..], codec, respond).trace);
      case Halt(_, _) =>
    }
  }

  /** The two initial messages are still the first two at the end of any run. */
  lemma InitialMessagesKept(goal: string, context: Option<Json>, script: seq<Completion>, codec: Codec, respond: Request -> Reply)
    ensures |AgentRun(goal, context, script, codec, respond).trace.history| >= 2
    ensures AgentRun(goal, context, script, codec, respond).trace.history[..2]
         == InitialTrace(goal, context, codec).history
  {
    LoopAppendOnly(InitialTrace(goal, context, codec), script, codec, respond);
  }

  // ---------------------------------------------------------------------
  // Calls to the model and to the substrate
  // ---------------------------------------------------------------------

  /**
   * Every dispatch comes right after a call to the model: dispatches and
   * model calls never overlap, and no two dispatches are adjacent.
   */
  predicate DispatchFollowsCall(events: seq<Event>)
  {
    forall i :: 0 <= i < |events| && events[i].Dispatch? ==> 0 < i && events[i - 1].LlmCall?
  }

  /** Every model call was sent a prefix of the final history. */
  predicate CallsSawPrefixes(t: Trace)
  {
    forall i :: 0 <= i < |t.events| && t.events[i].LlmCall? ==> t.events[i].messages <= t.history
  }

  /** One turn records one model call, with the history as it stands, and at most one dispatch after it. */
  lemma StepEvents(t: Trace, c: Completion, codec: Codec, respond: Request -> Reply)
    ensures var e := TraceOf(Step(t, c, codec, respond)).events;
      || e == t.events + [LlmCall(t.history)]
      || (|e| == |t.events| + 2 && e == t.events + [LlmCall(t.history), e[|e| - 1]] && e[|e| - 1].Dispatch?)
  {
  }

  lemma StepKeepsCallOrder(t: Trace, c: Completion, codec: Codec, respond: Request -> Reply)
    requires DispatchFollowsCall(t.events) && CallsSawPrefixes(t)
    ensures DispatchFollowsCall(TraceOf(Step(t, c, codec, respond)).events)
    ensures CallsSawPrefixes(TraceOf(Step(t, c, codec, respond)))
  {
    StepEvents(t, c, codec, respond);
    StepExtends(t, c, codec, respond);
  }

  /**
   * Along a whole run, each dispatch follows a model call, and every model
   * call saw a prefix of the final history. (That each call saw the history
   * exactly as it stood at that turn is `StepEvents`.)
   */
  lemma {:induction false} LoopKeepsCallOrder(t: Trace, script: seq<Completion>, codec: Codec, respond: Request -> Reply)
    requires DispatchFollowsCall(t.events) && CallsSawPrefixes(t)
    ensures DispatchFollowsCall(Loop(t, script, codec, respond).trace.events)
    ensures CallsSawPrefixes(Loop(t, script, codec, respond).trace)
    decreases |script|
  {
    if |script| == 0 {
      var u := CallLlm(t);
      assert u.events[..|t.events|] == t.events;
    } else {
      StepKeepsCallOrder(t, script[0], codec, respond);
      match Step(t, script[0], codec, respond)
      case Continue(next) => LoopKeepsCallOrder(next, script[1..], codec, respond);
      case Halt(_, _) =>
    }
  }

  /** The number of calls to the model among the events. */
  function CallCount(events: seq<Event>): nat
  {
    if |events| == 0 then 0
    else CallCount(events[..|events| - 1]) + (if events[|events| - 1].LlmCall? then 1 else 0)
  }

  lemma CallCountAppend(events: seq<Event>, more: seq<Event>)
    ensures CallCount(events + more) == CallCount(events) + CallCount(more)
    decreases |more|
  {
    if |more| == 0 {
      assert events + more == events;
    } else {
      var front := more[..|more| - 1];
      assert (events + more)[..|events + more| - 1] == events + front;
      assert (events + more)[|events + more| - 1] == more[|more| - 1];
      CallCountAppend(events, front);
    }
  }

  lemma StepCallCount(t: Trace, c: Completion, codec: Codec, respond: Request -> Reply)
    ensures CallCount(TraceOf(Step(t, c, codec, respond)).events) == CallCount(t.events) + 1
  {
    var e := TraceOf(Step(t, c, codec, respond)).events;
    StepEvents(t, c, codec, respond);
    CallCountAppend(t.events, [LlmCall(t.history)]);
    if e != t.events + [LlmCall(t.history)] {
      var d := e[|e| - 1];
      assert e == (t.events + [LlmCall(t.history)]) + [d];
      CallCountAppend(t.events + [LlmCall(t.history)], [d]);
    }
  }

  /**
   * Each completion of the script is consumed by exactly one model call: a
   * run makes at most one call more than there are completions, and it
   * makes exactly that many precisely when it is left waiting for a reply.
   */
  lemma {:induction false} OneCallPerCompletion(t: Trace, script: seq<Completion>, codec: Codec, respond: Request -> Reply)
    ensures CallCount(Loop(t, script, codec, respond).trace.events) <= CallCount(t.events) + |script| + 1
    ensures Loop(t, script, codec, respond).outcome == AwaitingReply <==>
      CallCount(Loop(t, script, codec, respond).trace.events) == CallCount(t.events) + |script| + 1
    decreases |script|
  {
    if |script| == 0 {
      CallCountAppend(t.events, [LlmCall(t.history)]);
    } else {
      StepCallCount(t, script[0], codec, respond);
      match Step(t, script[0], codec, respond)
      case Continue(next) => OneCallPerCompletion(next, script[1..], codec, respond);
      case Halt(_, _) =>
    }
  }

  // ---------------------------------------------------------------------
  // Retrying
  // ---------------------------------------------------------------------

  /**
   * There is no retry cap: a model that never produces a parsable action
   * keeps the run going through the whole script, and every one of its
   * completions adds exactly two messages.
   */
  lemma {:induction false} NoRetryCap(t: Trace, script: seq<Completion>, codec: Codec, respond: Request -> Reply)
    requires forall k :: 0 <= k < |script| ==> script[k].Text? && ParseAction(script[k].content, codec.parse).Failure?
    ensures Loop(t, script, codec, respond).outcome == AwaitingReply
    ensures |Loop(t, script, codec, respond).trace.history| == |t.history| + 2 * |script|
    decreases |script|
  {
    if |script| > 0 {
      StepOnParseFailure(t, script[0].content, codec, respond);
      var next := TraceOf(Step(t, script[0], codec, respond));
      LoopContinues(t, script, codec, respond, next);
      assert forall k :: 0 <= k < |script[1..]| ==> script[1..][k] == script[k + 1];
      NoRetryCap(next, script[1..], codec, respond);
    }
  }

  // ---------------------------------------------------------------------
  // A worked run
  // ---------------------------------------------------------------------

  /** The payload `{"source": "search", "searchTerm": "weather"}`. */
  function WeatherPayload(): Json
  {
    JObject([Member("source", JString("search")), Member("searchTerm", JString("weather"))])
  }

  /** The request that runs `fetch_data` on the weather payload. */
  function WeatherRequest(): Request
  {
    Request(Some(JString("fetch_data")), Some(WeatherPayload()))
  }

  /** The three completions of the worked run, and what the substrate does. */
  ghost predicate WeatherScenario(codec: Codec, respond: Request -> Reply, bad: string, fetch: string, finish: string)
  {
    && codec.parse(bad).Failure?
    && codec.parse(fetch) == Success(ActionObject(JString("run_task"),
         JObject([Member("task", JString("fetch_data")), Member("payload", WeatherPayload())])))
    && codec.parse(finish) == Success(ActionObject(JString("finish"), JObject([Member("result", JString("done"))])))
    && Routes(respond, CatalogWorkers())
  }

  /** The user message that reports the echoed weather payload. */
  function WeatherFeedback(codec: Codec): string
  {
    "Task \"" + "fetch_data" + "\" completed. Result: "
    + codec.stringify(JObject([Member("task", JString("fetch_data")), Member("result", WeatherPayload())]))
  }

  /**
   * The model first answers with text that is not JSON, then runs
   * `fetch_data` on a payload, which the registered worker echoes, then
   * finishes with "done". From any trace, the run is corrected once,
   * dispatches exactly one request, and finishes with "done"; the fetch
   * turn logs one action entry and one result entry.
   */
  lemma {:induction false} WeatherTurns(t: Trace, codec: Codec, respond: Request -> Reply, bad: string, fetch: string, finish: string)
    requires WeatherScenario(codec, respond, bad, fetch, finish)
    ensures Loop(t, [Text(bad), Text(fetch), Text(finish)], codec, respond) ==
      var h1 := t.history + [Message(Assistant, bad), Message(System, Correction)];
      var h2 := h1 + [Message(Assistant, fetch), Message(User, WeatherFeedback(codec))];
      Run(Finished(Some(JString("done"))), Trace(
        h2,
        t.logs + [
          LogEntry("Calling LLM...", InfoLog),
          LogEntry("Invalid JSON response: " + "SyntaxError: " + codec.parse(bad).error, ErrorLog),
          LogEntry("Calling LLM...", InfoLog),
          LogEntry("Executing task: " + "fetch_data", ActionLog),
          LogEntry("Payload: " + codec.stringify(WeatherPayload()), InfoLog),
          LogEntry("Task result: " + codec.stringify(WeatherPayload()), ResultLog),
          LogEntry("Calling LLM...", InfoLog),
          LogEntry("Agent finished", InfoLog),
          LogEntry("Final result: " + "done", ResultLog) ],
        t.events + [LlmCall(t.history), LlmCall(h1), Dispatch(WeatherRequest()), LlmCall(h2)]))
  {
    var script := [Text(bad), Text(fetch), Text(finish)];

    StepOnParseFailure(t, bad, codec, respond);
    var t1 := TraceOf(Step(t, Text(bad), codec, respond));
    LoopContinues(t, script, codec, respond, t1);
    assert script[1..] == [Text(fetch), Text(finish)];

    RunTaskRead(fetch, codec.parse, JString("fetch_data"), WeatherPayload());
    CatalogFacts();
    CatalogTaskEchoes(respond, "fetch_data", Some(WeatherPayload()));
    StepOnRunTask(t1, fetch, codec, respond, Some(JString("fetch_data")), "fetch_data", Some(WeatherPayload()), Some(WeatherPayload()));
    var t2 := TraceOf(Step(t1, Text(fetch), codec, respond));
    LoopContinues(t1, script[1..], codec, respond, t2);
    assert script[1..][1..] == [Text(finish)];

    FinishRead(finish, codec.parse, JString("done"));
    LoopOnFinish(t2, script[1..][1..], codec, respond, finish, Some(JString("done")), "done");

    assert ErrorText(ParseAction(bad, codec.parse).error) == "SyntaxError: " + codec.parse(bad).error;
    assert "Invalid JSON response: " + ErrorText(ParseAction(bad, codec.parse).error)
        == "Invalid JSON response: " + "SyntaxError: " + codec.parse(bad).error;
    assert DefinedMember("task", Some(JString("fetch_data"))) + DefinedMember("result", Some(WeatherPayload()))
        == [Member("task", JString("fetch_data")), Member("result", WeatherPayload())];
    assert FeedbackContent("fetch_data", Some(JString("fetch_data")), Some(WeatherPayload()), codec) == WeatherFeedback(codec);
    assert t2.history == t.history + [Message(Assistant, bad), Message(System, Correction)]
      + [Message(Assistant, fetch), Message(User, WeatherFeedback(codec))];
    assert t2.events == t.events + [LlmCall(t.history)] + [LlmCall(t1.history), Dispatch(WeatherRequest())];
    assert t2.logs == t.logs + [
      LogEntry("Calling LLM...", InfoLog),
      LogEntry("Invalid JSON response: " + "SyntaxError: " + codec.parse(bad).error, ErrorLog)] + [
      LogEntry("Calling LLM...", InfoLog),
      LogEntry("Executing task: " + "fetch_data", ActionLog),
      LogEntry("Payload: " + codec.stringify(WeatherPayload()), InfoLog),
      LogEntry("Task result: " + codec.stringify(WeatherPayload()), ResultLog)];
  }

  /** The worked run from the start, for any goal (such as "fetch weather") and no context. */
  lemma WeatherRun(goal: string, codec: Codec, respond: Request -> Reply, bad: string, fetch: string, finish: string)
    requires WeatherScenario(codec, respond, bad, fetch, finish)
    ensures var run := AgentRun(goal, None, [Text(bad), Text(fetch), Text(finish)], codec, respond);
      && run.outcome == Finished(Some(JString("done")))
      && |run.trace.history| == 6
      && run.trace.history[2..] == [
           Message(Assistant, bad), Message(System, Correction),
           Message(Assistant, fetch), Message(User, WeatherFeedback(codec))]
      && |run.trace.events| == 4
      && run.trace.events[2] == Dispatch(WeatherRequest())
      && forall i :: 0 <= i < 4 && i != 2 ==> run.trace.events[i].LlmCall?
  {
    var t0 := InitialTrace(goal, None, codec);
    InitialConversation(goal, None, codec);
    WeatherTurns(t0, codec, respond, bad, fetch, finish);
    var tail := [Message(Assistant, bad), Message(System, Correction),
                 Message(Assistant, fetch), Message(User, WeatherFeedback(codec))];
    var h := t0.history + [Message(Assistant, bad), Message(System, Correction)]
      + [Message(Assistant, fetch), Message(User, WeatherFeedback(codec))];
    assert h == t0.history + tail;
    assert h[2..] == tail;
  }
}
