/** `acInvoke` / `ankiConnectInvoke`: one request to the flashcard server and
    the validation of its `{error, result}` reply, and `fetchCurrentCard`.
    The transport is left out: the reply arrives as a parameter, either a
    network error, a body that is not JSON, or the parsed JSON value. */
module AnkiConnect {
  import opened Wrappers

  const MSG_NETWORK := "failed to issue request"
  const MSG_FIELD_COUNT := "response has an unexpected number of fields"
  const MSG_NO_ERROR := "response is missing required error field"
  const MSG_NO_RESULT := "response is missing required result field"
  const MSG_NULL_REPLY := "TypeError: Cannot convert undefined or null to object"
  const MSG_NOT_JSON := "SyntaxError: the response is not valid JSON"
  /** What calling `response.hasOwnProperty(...)` throws when the reply has
      an own member of that name, which shadows the inherited method. */
  const MSG_NOT_FUNCTION := "TypeError: response.hasOwnProperty is not a function"

  /** A value `JSON.parse` can produce. An object is given by its members as
      written, in order; a name written twice is one property, whose value
      is the last one written (as `JSON.parse` does). */
  datatype Json =
    | JNull
    | JBool(b: bool)
    | JNumber(n: real)
    | JString(s: string)
    | JArray(items: seq<Json>)
    | JObject(members: seq<(string, Json)>)

  /** JavaScript truthiness. JSON numbers are finite, so only 0 is falsy. */
  predicate Truthy(v: Json): (b: bool)
    ensures v.JArray? || v.JObject? ==> b
    ensures v.JNull? ==> !b
    ensures v.JString? ==> (b <==> |v.s| > 0)
  {
    match v
    case JNull => false
    case JBool(b) => b
    case JNumber(n) => n != 0.0
    case JString(s) => s != ""
    case JArray(_) => true
    case JObject(_) => true
  }

  /** The property names of an object's members. */
  function Names(members: seq<(string, Json)>): set<string> {
    set m | m in members :: m.0
  }

  /** `v.hasOwnProperty(name)` for a name that is neither an index nor
      "length": only objects have such properties. */
  predicate HasOwn(v: Json, name: string): (b: bool)
    ensures b <==> v.JObject? && exists k :: 0 <= k < |v.members| && v.members[k].0 == name
  {
    v.JObject? && name in Names(v.members)
  }

  /** The value of the last member called `name`, `None` for `undefined`. */
  function Lookup(members: seq<(string, Json)>, name: string): (r: Option<Json>)
    ensures r.Some? <==> name in Names(members)
    ensures r.Some? ==>
      exists k :: 0 <= k < |members| && members[k] == (name, r.value) && forall j :: k < j < |members| ==> members[j].0 != name
  {
    if members == [] then None
    else if members[|members| - 1].0 == name then Some(members[|members| - 1].1)
    else
      var init := members[..|members| - 1];
      var r := Lookup(init, name);
      assert Names(members) == Names(init) + {members[|members| - 1].0} by {
        assert members == init + [members[|members| - 1]];
      }
      if r.Some? then
        var k :| 0 <= k < |init| && init[k] == (name, r.value) && forall j :: k < j < |init| ==> init[j].0 != name;
        assert members[k] == (name, r.value);
        assert forall j :: k < j < |members| ==> members[j].0 != name by {
          assert forall j :: k < j < |init| ==> members[j] == init[j];
        }
        r
      else r
  }

  /** `v[name]` on a parsed value, `None` for `undefined`. */
  function Get(v: Json, name: string): (r: Option<Json>)
    ensures r.Some? <==> HasOwn(v, name)
  {
    if v.JObject? then Lookup(v.members, name) else None
  }

  /** The length of `s` in UTF-16 code units: a character outside the
      Basic Multilingual Plane takes two. */
  function Utf16Length(s: string): (n: nat)
    ensures |s| <= n <= 2 * |s|
    ensures (forall i :: 0 <= i < |s| ==> s[i] as int <= 0xFFFF) ==> n == |s|
  {
    if s == [] then 0
    else Utf16Length(s[..|s| - 1]) + (if s[|s| - 1] as int > 0xFFFF then 2 else 1)
  }

  /** `Object.getOwnPropertyNames(v).length`; `None` where the call throws
      (on `null`). A string has an index per UTF-16 code unit and "length",
      an array its indices and "length", a number or boolean none. */
  function OwnPropertyCount(v: Json): (r: Option<nat>)
    ensures r.None? <==> v.JNull?
    ensures v.JObject? ==> r == Some(|Names(v.members)|)
  {
    match v
    case JNull => None
    case JBool(_) => Some(0)
    case JNumber(_) => Some(0)
    case JString(s) => Some(Utf16Length(s) + 1)
    case JArray(items) => Some(|items| + 1)
    case JObject(members) => Some(|Names(members)|)
  }

  /** The checks of the "load" handler, in their order: exactly two own
      properties, an `error` property, a `result` property, a falsy error.
      A rejection carries the thrown value. A reply whose own member
      "hasOwnProperty" hides the inherited method throws a `TypeError` at
      the first `hasOwnProperty` call. */
  function CheckResponse(v: Json): (r: Result<Json, Json>)
    ensures r.Success? <==>
      v.JObject? && Names(v.members) == {"error", "result"} && !Truthy(Get(v, "error").value)
    ensures r.Success? ==> Some(r.value) == Get(v, "result")
    ensures v.JNull? ==> r == Failure(JString(MSG_NULL_REPLY))
    ensures !v.JNull? && OwnPropertyCount(v) != Some(2) ==> r == Failure(JString(MSG_FIELD_COUNT))
    ensures OwnPropertyCount(v) == Some(2) && HasOwn(v, "hasOwnProperty") ==> r == Failure(JString(MSG_NOT_FUNCTION))
    ensures OwnPropertyCount(v) == Some(2) && !HasOwn(v, "hasOwnProperty") && !HasOwn(v, "error") ==>
      r == Failure(JString(MSG_NO_ERROR))
    ensures OwnPropertyCount(v) == Some(2) && !HasOwn(v, "hasOwnProperty") && HasOwn(v, "error") && !HasOwn(v, "result") ==>
      r == Failure(JString(MSG_NO_RESULT))
    ensures HasOwn(v, "error") && HasOwn(v, "result") && OwnPropertyCount(v) == Some(2) && Truthy(Get(v, "error").value) ==>
      r == Failure(Get(v, "error").value)
  {
    var count := OwnPropertyCount(v);
    if count.None? then Failure(JString(MSG_NULL_REPLY))
    else if count.value != 2 then Failure(JString(MSG_FIELD_COUNT))
    else if HasOwn(v, "hasOwnProperty") then
      if HasOwn(v, "error") && HasOwn(v, "result") then
        TwoNames(Names(v.members), "error", "result");
        Failure(JString(MSG_NOT_FUNCTION))
      else Failure(JString(MSG_NOT_FUNCTION))
    else if !HasOwn(v, "error") then Failure(JString(MSG_NO_ERROR))
    else if !HasOwn(v, "result") then Failure(JString(MSG_NO_RESULT))
    else
      TwoNames(Names(v.members), "error", "result");
      var error := Get(v, "error").value;
      if Truthy(error) then Failure(error) else Success(Get(v, "result").value)
  }

  /** A two-element set that holds two distinct names is exactly those. */
  lemma TwoNames(s: set<string>, a: string, b: string)
    requires |s| == 2 && a in s && b in s && a != b
    ensures s == {a, b}
  {
    var rest := s - {a, b};
    assert |s| == |{a, b}| + |rest|;
  }

  /** A well-formed reply with a null error resolves with its result. */
  lemma WellFormedReplyResolves(result: Json)
    ensures CheckResponse(JObject([("error", JNull), ("result", result)])) == Success(result)
  {
    var members := [("error", JNull), ("result", result)];
    assert Names(members) == {"error", "result"} by {
      assert members[0].0 == "error" && members[1].0 == "result";
    }
  }

  /** A reply carrying an error message rejects with that message, whatever
      the result. */
  lemma ErrorReplyRejects(message: string, result: Json)
    requires message != ""
    ensures CheckResponse(JObject([("result", result), ("error", JString(message))])) == Failure(JString(message))
  {
    var members := [("result", result), ("error", JString(message))];
    assert Names(members) == {"error", "result"} by {
      assert members[0].0 == "result" && members[1].0 == "error";
    }
    assert OwnPropertyCount(JObject(members)) == Some(2);
  }

  /** A reply with two members, one of them "hasOwnProperty", is refused
      with the `TypeError` even when its error is null. */
  lemma ShadowedHasOwnPropertyThrows(result: Json)
    ensures CheckResponse(JObject([("error", JNull), ("hasOwnProperty", result)])) == Failure(JString(MSG_NOT_FUNCTION))
  {
    var members := [("error", JNull), ("hasOwnProperty", result)];
    assert Names(members) == {"error", "hasOwnProperty"} by {
      assert members[0].0 == "error" && members[1].0 == "hasOwnProperty";
    }
  }

  /** What arrives for one request. */
  datatype Reply = NetworkError | NotJson | Parsed(value: Json)

  /** The promise `acInvoke(action, version, params)` settles to: a network
      error rejects with "failed to issue request", an unparsable body with
      the `SyntaxError`, a parsed reply as `CheckResponse` says. */
  function Invoke(reply: Reply): (r: Result<Json, Json>)
    ensures reply.NetworkError? ==> r == Failure(JString(MSG_NETWORK))
    ensures reply.NotJson? ==> r == Failure(JString(MSG_NOT_JSON))
    ensures reply.Parsed? ==> r == CheckResponse(reply.value)
    ensures r.Success? ==> reply.Parsed?
  {
    match reply
    case NetworkError => Failure(JString(MSG_NETWORK))
    case NotJson => Failure(JString(MSG_NOT_JSON))
    case Parsed(v) => CheckResponse(v)
  }

  /** A status line: fixed text, or a prefix followed by a value's string
      conversion and a suffix (`"Error: " + e`). */
  datatype Status = Text(message: string) | Showing(prefix: string, value: Option<Json>, suffix: string)

  /** `fetchCurrentCard()`: the result of "guiCurrentCard", or `null` with
      the status "Error: <reason>" when the request rejects. */
  function FetchCurrentCard(reply: Reply): (r: (Json, Option<Status>))
    ensures Invoke(reply).Success? ==> r == (Invoke(reply).value, None)
    ensures Invoke(reply).Failure? ==> r == (JNull, Some(Showing("Error: ", Some(Invoke(reply).error), "")))
    ensures Truthy(r.0) ==> Invoke(reply).Success?
  {
    match Invoke(reply)
    case Success(result) => (result, None)
    case Failure(e) => (JNull, Some(Showing("Error: ", Some(e), "")))
  }
}
