/**
 * JSON values as the agent sees them after `JSON.parse`, together with the
 * few JavaScript operations the agent applies to them: property reads,
 * truthiness, template-literal conversion and `JSON.stringify`.
 *
 * The text algorithms of `JSON.parse` and `JSON.stringify` are not modelled:
 * they are supplied as the fields of a `Codec`.
 */
module Json {
  import opened Wrappers

  datatype Json =
    | JNull
    | JBool(b: bool)
    | JNumber(n: real)
    | JString(s: string)
    | JArray(items: seq<Json>)
    | JObject(members: seq<Member>)

  /** One `"key": value` pair of an object, in source order. */
  datatype Member = Member(key: string, value: Json)

  /**
   * The external text conversions:
   * - `parse` is `JSON.parse`; a failure carries the message of the thrown
   *   SyntaxError, without the "SyntaxError: " prefix;
   * - `stringify` is `JSON.stringify` on a defined value;
   * - `show` is `String(v)` for numbers and for arrays whose conversion does
   *   not throw.
   */
  datatype Codec = Codec(
    parse: string -> Result<Json, string>,
    stringify: Json -> string,
    show: Json -> string)

  /** JavaScript's ToBoolean, on the values JSON can denote. */
  predicate Truthy(v: Json)
  {
    match v
    case JNull => false
    case JBool(b) => b
    case JNumber(n) => n != 0.0
    case JString(s) => s != ""
    case JArray(_) => true
    case JObject(_) => true
  }

  /** Exactly four JSON values are falsy: null, false, 0 and the empty string. */
  lemma FalsyValues(v: Json)
    ensures !Truthy(v) <==> v in {JNull, JBool(false), JNumber(0.0), JString("")}
  {
  }

  /**
   * The value bound to `key` in an object's members. `JSON.parse` keeps the
   * LAST of several members with the same key, so the search runs from the end.
   */
  function Lookup(members: seq<Member>, key: string): Option<Json>
  {
    if |members| == 0 then None
    else if members[|members| - 1].key == key then Some(members[|members| - 1].value)
    else Lookup(members[..|members| - 1], key)
  }

  /**
   * `Lookup` finds nothing exactly when no member has the key, and otherwise
   * finds the value of the last member that has it.
   */
  lemma {:induction false} LookupFindsLastBinding(members: seq<Member>, key: string)
    ensures Lookup(members, key).None? <==> forall i :: 0 <= i < |members| ==> members[i].key != key
    ensures Lookup(members, key).Some? ==>
      exists i :: 0 <= i < |members| && members[i] == Member(key, Lookup(members, key).value)
        && forall j :: i < j < |members| ==> members[j].key != key
  {
    if |members| > 0 && members[|members| - 1].key != key {
      var front := members[..|members| - 1];
      LookupFindsLastBinding(front, key);
      assert forall i :: 0 <= i < |front| ==> front[i] == members[i];
    }
  }

  /**
   * Property read `v.key` (or destructuring `{key} = v`) on a value that is
   * not null: objects look the key up; numbers, strings, booleans and arrays
   * have no such own property, so the read gives `undefined` (None).
   */
  function Get(v: Json, key: string): Option<Json>
  {
    if v.JObject? then Lookup(v.members, key) else None
  }

  /** Whether `v.key` is present and truthy, i.e. `!!v.key`. */
  predicate Present(v: Json, key: string)
  {
    Get(v, key).Some? && Truthy(Get(v, key).value)
  }

  /**
   * Whether `${v}` throws a TypeError. An object with an own `toString`
   * member has no callable conversion: the member comes from `JSON.parse`, so
   * it is never a function, and `Object.prototype.valueOf` returns the object
   * itself. An array is converted by `Array.prototype.join`, which converts
   * every element, so it throws when any element, at any depth, does.
   */
  predicate ConversionThrows(v: Json)
  {
    match v
    case JObject(members) => exists i :: 0 <= i < |members| && members[i].key == "toString"
    case JArray(items) => exists i :: 0 <= i < |items| && ConversionThrows(items[i])
    case _ => false
  }

  /** `${v}` in a template literal; `None` is `undefined`, and a `None` result is the thrown TypeError. */
  function Interpolate(v: Option<Json>, codec: Codec): (r: Option<string>)
    ensures r.None? <==> v.Some? && ConversionThrows(v.value)
    ensures v.Some? && v.value.JObject? ==>
      (r.None? <==> Lookup(v.value.members, "toString").Some?)
    ensures v.Some? && v.value.JString? ==> r == Some(v.value.s)
  {
    match v
    case None => Some("undefined")
    case Some(JNull) => Some("null")
    case Some(JBool(b)) => Some(if b then "true" else "false")
    case Some(JString(s)) => Some(s)
    case Some(JObject(members)) =>
      LookupFindsLastBinding(members, "toString");
      if ConversionThrows(v.value) then None else Some("[object Object]")
    case Some(other) => if ConversionThrows(other) then None else Some(codec.show(other))
  }

  /** `${JSON.stringify(v)}`: `JSON.stringify(undefined)` is `undefined`. */
  function StringifyText(v: Option<Json>, codec: Codec): string
  {
    match v
    case None => "undefined"
    case Some(j) => codec.stringify(j)
  }
}
