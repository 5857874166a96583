/**
 * JSON values as they arrive in a request body or from a parsed model reply,
 * with the JavaScript operations the server applies to them: property lookup
 * on a destructured body, truthiness, and `String(v)`.
 */
module Json {
  import opened Wrappers
  import opened JsText

  datatype Json =
    | JNull
    | JBool(b: bool)
    | JNumber(n: real)
    | JString(s: string)
    | JArray(items: seq<Json>)
    | JObject(fields: map<string, Json>)

  /**
   * `const { key } = v ?? {}`: the property `key` of an object, and `undefined`
   * (None) for a missing key and for every value that is not an object.
   */
  function Get(v: Json, key: string): (r: Option<Json>)
    ensures r.Some? <==> v.JObject? && key in v.fields
    ensures r.Some? ==> r.value == v.fields[key]
  {
    match v
    case JObject(fields) => if key in fields then Some(fields[key]) else None
    case _ => None
  }

  /**
   * JavaScript truthiness of a possibly `undefined` JSON value: everything is
   * truthy except `undefined`, `null`, `false`, `0` and the empty string (a
   * JSON number is never NaN).
   */
  function Truthy(v: Option<Json>): (t: bool)
    ensures t <==> v.Some? && v.value !in {JNull, JBool(false), JNumber(0.0), JString("")}
  {
    match v
    case None => false
    case Some(JNull) => false
    case Some(JBool(b)) => b
    case Some(JNumber(n)) => n != 0.0
    case Some(JString(s)) => s != ""
    case Some(JArray(_)) => true
    case Some(JObject(_)) => true
  }

  /** The elements of `parts` separated by `sep`, as `Array.prototype.join` writes them. */
  function Join(parts: seq<string>, sep: string): (r: string)
    ensures parts == [] ==> r == ""
    ensures |parts| == 1 ==> r == parts[0]
  {
    if parts == [] then ""
    else if |parts| == 1 then parts[0]
    else Join(parts[..|parts| - 1], sep) + sep + parts[|parts| - 1]
  }

  /**
   * Converting `v` to text throws a TypeError: `v` is an object with its own
   * `toString` property (parsed JSON never holds a function, so that property
   * cannot be called and the fallback `valueOf` gives back the object), or an
   * array with such a value among its elements, at any depth.
   */
  predicate StringifyThrows(v: Json)
    decreases v
  {
    match v
    case JObject(fields) => "toString" in fields
    case JArray(items) => exists i :: 0 <= i < |items| && StringifyThrows(items[i])
    case _ => false
  }

  /** The message of the TypeError a failed conversion throws. */
  const TO_PRIMITIVE_ERROR: string := "Cannot convert object to primitive value"

  /** The texts of parts that all succeeded. */
  function Texts(parts: seq<Result<string, string>>): (r: seq<string>)
    requires forall i :: 0 <= i < |parts| ==> parts[i].Success?
    ensures |r| == |parts| && forall i :: 0 <= i < |parts| ==> r[i] == parts[i].value
  {
    if parts == [] then [] else Texts(parts[..|parts| - 1]) + [parts[|parts| - 1].value]
  }

  /** `r` is the part at `i`, and every part before it succeeded. */
  predicate IsFirstFailure(parts: seq<Result<string, string>>, i: int, r: Result<string, string>) {
    0 <= i < |parts| && parts[i] == r && forall j :: 0 <= j < i ==> parts[j].Success?
  }

  /** Every part's text joined with `sep`, or a failure among the parts (the first, by `JoinResultsFirstFailure`). */
  function JoinResults(parts: seq<Result<string, string>>, sep: string): (r: Result<string, string>)
    ensures r.Failure? <==> exists i :: 0 <= i < |parts| && parts[i].Failure?
    ensures r.Failure? ==> r in parts
    ensures r.Success? ==> r.value == Join(Texts(parts), sep)
  {
    if parts == [] then Success("")
    else if |parts| == 1 then parts[0]
    else
      var front, last := parts[..|parts| - 1], parts[|parts| - 1];
      assert forall i :: 0 <= i < |front| ==> front[i] == parts[i];
      var init := JoinResults(front, sep);
      if init.Failure? then init
      else if last.Failure? then last
      else
        assert Texts(parts)[..|parts| - 1] == Texts(front);
        Success(init.value + sep + last.value)
  }

  /** A failed join reports the first part that failed: every part before it succeeded. */
  lemma {:induction false} JoinResultsFirstFailure(parts: seq<Result<string, string>>, sep: string)
    requires JoinResults(parts, sep).Failure?
    ensures exists i :: IsFirstFailure(parts, i, JoinResults(parts, sep))
  {
    var r := JoinResults(parts, sep);
    if |parts| == 1 {
      assert IsFirstFailure(parts, 0, r);
    } else {
      var front := parts[..|parts| - 1];
      if JoinResults(front, sep).Failure? {
        JoinResultsFirstFailure(front, sep);
        var k :| IsFirstFailure(front, k, JoinResults(front, sep));
        assert IsFirstFailure(parts, k, r);
      } else {
        assert IsFirstFailure(parts, |parts| - 1, r);
      }
    }
  }

  /**
   * `String(v)`, or `v.toString()`: the text JavaScript makes of a JSON value
   * when it is interpolated into a template literal or converted with
   * `toString()`. Arrays join their elements with "," (null elements print as
   * nothing), objects print as "[object Object]", and the conversion throws
   * exactly when `StringifyThrows` says so.
   */
  function ToJsString(v: Json): (r: Result<string, string>)
    ensures r.Failure? <==> StringifyThrows(v)
    ensures r.Failure? ==> r.error == TO_PRIMITIVE_ERROR
    ensures v.JString? ==> r == Success(v.s)
    ensures v.JObject? && r.Success? ==> r.value == "[object Object]"
    decreases v
  {
    match v
    case JNull => Success("null")
    case JBool(b) => Success(if b then "true" else "false")
    case JNumber(n) => Success(NumberToString(n))
    case JString(s) => Success(s)
    case JArray(items) =>
      var parts := seq(|items|, i requires 0 <= i < |items| =>
                     if items[i].JNull? then Success("") else ToJsString(items[i]));
      assert forall i :: 0 <= i < |items| ==> (parts[i].Failure? <==> StringifyThrows(items[i]));
      assert forall i :: 0 <= i < |items| && parts[i].Failure? ==> parts[i].error == TO_PRIMITIVE_ERROR;
      JoinResults(parts, ",")
    case JObject(fields) =>
      if "toString" in fields then Failure(TO_PRIMITIVE_ERROR) else Success("[object Object]")
  }

  /** A one-element array prints as its element does, and a null one as nothing. */
  lemma {:induction false} ToJsStringSingleton(x: Json)
    ensures ToJsString(JArray([x])) == if x.JNull? then Success("") else ToJsString(x)
  {
    var parts := [if x.JNull? then Success("") else ToJsString(x)];
    assert seq(1, i requires 0 <= i < 1 => if [x][i].JNull? then Success("") else ToJsString([x][i])) == parts;
  }
}
