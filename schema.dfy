/**
 * The action protocol between the language model and the agent:
 * `parseAction`, which validates the model's text, and the two-variant
 * `AgentAction` type through which the agent reads a validated action.
 */
module Schema {
  import opened Wrappers
  import opened Json

  /** What `parseAction` can throw. */
  datatype ParseError =
    | SyntaxError(message: string)  // thrown by JSON.parse, with its message
    | NullAccess                 // TypeError from reading `.action` of null
    | Malformed                  // Error("Malformed action")

  /** `${err}` for the thrown error, as the agent logs it: `String(err)` is the error's name, ": ", then its message. */
  function ErrorText(e: ParseError): string
  {
    match e
    case SyntaxError(message) => "SyntaxError: " + message
    case NullAccess => "TypeError: Cannot read properties of null (reading 'action')"
    case Malformed => "Error: Malformed action"
  }

  /** An object whose `action` and `params` members are both present and truthy. */
  predicate WellFormed(v: Json)
  {
    v.JObject? && Present(v, "action") && Present(v, "params")
  }

  /**
   * `parseAction(json)`: parse the text, read `data.action` and `data.params`,
   * throw unless both are truthy, and otherwise return the parsed value as it is.
   */
  function ParseAction(json: string, parse: string -> Result<Json, string>): (r: Result<Json, ParseError>)
    ensures parse(json).Failure? ==> r == Failure(SyntaxError(parse(json).error))
    ensures parse(json) == Success(JNull) ==> r == Failure(NullAccess)
    ensures r.Success? <==> parse(json).Success? && WellFormed(parse(json).value)
    ensures r.Success? ==> r.value == parse(json).value
    ensures r.Failure? && parse(json).Success? && parse(json).value != JNull ==> r.error == Malformed
  {
    match parse(json)
    case Failure(message) => Failure(SyntaxError(message))
    case Success(data) =>
      if data == JNull then Failure(NullAccess)
      else if !Present(data, "action") || !Present(data, "params") then Failure(Malformed)
      else Success(data)
  }

  /**
   * The `AgentAction` union as the agent reads it: `action.action` compared
   * with "run_task" and with "finish", then `action.params` destructured.
   * Any other truthy tag passes `parseAction` and reads as Unrecognized.
   */
  datatype AgentAction =
    | RunTask(task: Option<Json>, payload: Option<Json>)
    | Finish(result: Option<Json>)
    | Unrecognized(tag: Json)

  function View(data: Json): (r: AgentAction)
    requires WellFormed(data)
    ensures r.RunTask? <==> Lookup(data.members, "action") == Some(JString("run_task"))
    ensures r.Finish? <==> Lookup(data.members, "action") == Some(JString("finish"))
    ensures r.RunTask? ==>
      var params := Lookup(data.members, "params").value;
      r.task == Get(params, "task") && r.payload == Get(params, "payload")
    ensures r.Finish? ==> r.result == Get(Lookup(data.members, "params").value, "result")
    ensures r.Unrecognized? ==>
      Some(r.tag) == Lookup(data.members, "action") && Truthy(r.tag)
      && r.tag != JString("run_task") && r.tag != JString("finish")
  {
    var tag := Get(data, "action").value;
    var params := Get(data, "params").value;
    if tag == JString("run_task") then RunTask(Get(params, "task"), Get(params, "payload"))
    else if tag == JString("finish") then Finish(Get(params, "result"))
    else Unrecognized(tag)
  }

  /** A missing or falsy `action` or `params` member makes the action malformed. */
  lemma MissingOrFalsyIsMalformed(json: string, parse: string -> Result<Json, string>, members: seq<Member>, key: string)
    requires parse(json) == Success(JObject(members))
    requires key == "action" || key == "params"
    requires Lookup(members, key).None? || !Truthy(Lookup(members, key).value)
    ensures ParseAction(json, parse) == Failure(Malformed)
  {
  }

  /** A top level that is a number, string, boolean or array is malformed. */
  lemma NonObjectIsMalformed(json: string, parse: string -> Result<Json, string>)
    requires parse(json).Success? && parse(json).value != JNull && !parse(json).value.JObject?
    ensures ParseAction(json, parse) == Failure(Malformed)
  {
  }

  /** The object `{"action": tag, "params": params}`. */
  function ActionObject(tag: Json, params: Json): Json
  {
    JObject([Member("action", tag), Member("params", params)])
  }

  /**
   * Any truthy tag is accepted, and with `params: {}`: nothing restricts the
   * tag or the shape of the parameters.
   */
  lemma AnyTruthyTagAccepted(json: string, parse: string -> Result<Json, string>, tag: Json)
    requires Truthy(tag)
    requires parse(json) == Success(ActionObject(tag, JObject([])))
    ensures ParseAction(json, parse) == Success(ActionObject(tag, JObject([])))
    ensures tag != JString("run_task") && tag != JString("finish") ==>
      View(ActionObject(tag, JObject([]))) == Unrecognized(tag)
  {
    assert Lookup(ActionObject(tag, JObject([])).members, "action") == Some(tag);
    assert Lookup(ActionObject(tag, JObject([])).members, "params") == Some(JObject([]));
  }

  /** A `run_task` without a payload is a valid action whose payload is undefined. */
  lemma RunTaskWithoutPayload(json: string, parse: string -> Result<Json, string>, task: string)
    requires parse(json) == Success(ActionObject(JString("run_task"), JObject([Member("task", JString(task))])))
    ensures ParseAction(json, parse).Success?
    ensures View(ParseAction(json, parse).value) == RunTask(Some(JString(task)), None)
  {
    var params := JObject([Member("task", JString(task))]);
    var data := ActionObject(JString("run_task"), params);
    assert Lookup(data.members, "action") == Some(JString("run_task"));
    assert Lookup(data.members, "params") == Some(params);
    assert Lookup(params.members, "task") == Some(JString(task));
    assert Lookup(params.members, "payload") == None;
  }

  /** `{"action": "run_task", "params": {"task": task, "payload": payload}}` reads as that task and payload. */
  lemma RunTaskRead(json: string, parse: string -> Result<Json, string>, task: Json, payload: Json)
    requires parse(json) == Success(ActionObject(JString("run_task"),
      JObject([Member("task", task), Member("payload", payload)])))
    ensures ParseAction(json, parse).Success?
    ensures View(ParseAction(json, parse).value) == RunTask(Some(task), Some(payload))
  {
    var params := JObject([Member("task", task), Member("payload", payload)]);
    var data := ActionObject(JString("run_task"), params);
    assert Lookup(data.members, "action") == Some(JString("run_task"));
    assert Lookup(data.members, "params") == Some(params);
    assert Lookup(params.members, "task") == Some(task);
    assert Lookup(params.members, "payload") == Some(payload);
  }

  /** `{"action": "finish", "params": {"result": result}}` reads as a finish with that result. */
  lemma FinishRead(json: string, parse: string -> Result<Json, string>, result: Json)
    requires parse(json) == Success(ActionObject(JString("finish"), JObject([Member("result", result)])))
    ensures ParseAction(json, parse).Success?
    ensures View(ParseAction(json, parse).value) == Finish(Some(result))
  {
    var params := JObject([Member("result", result)]);
    var data := ActionObject(JString("finish"), params);
    assert Lookup(data.members, "action") == Some(JString("finish"));
    assert Lookup(data.members, "params") == Some(params);
    assert Lookup(params.members, "result") == Some(result);
  }
}
