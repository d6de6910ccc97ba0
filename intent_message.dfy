/** `updateMessage` of app.js: when a conversation response has no output,
    give it one whose text reflects the confidence of the top intent. The
    handler does not call it. */
module IntentMessage {
  import opened Js

  const UnderstoodPrefix := "I understood your intent was "
  const ThinkPrefix := "I think your intent was "
  const NotUnderstoodText := "I did not understand your intent"

  const HighConfidence := 0.75
  const MediumConfidence := 0.5

  /** `v >= t` in JavaScript for the values a confidence can take here:
      numbers compare as they are, booleans and null as 1, 0 and 0; any other
      value compares as NaN, so never. */
  predicate AtLeast(v: Json, t: real) {
    match v
    case Num(n) => n >= t
    case Bool(b) => (if b then 1.0 else 0.0) >= t
    case Null => 0.0 >= t
    case _ => false
  }

  /** The top intent, `response.intents[0]`, when `response.intents` and it are
      both truthy. */
  function TopIntent(response: map<string, Json>): Option<Json> {
    var intents := Get(Obj(response), "intents");
    if Truthy(intents) && Truthy(At0(intents)) then Some(At0(intents)) else None
  }

  /** The text chosen for the top intent. */
  function ConfidenceText(response: map<string, Json>, showNumber: real -> string): (t: Json)
    ensures t == Null <==> TopIntent(response).None?
    ensures TopIntent(response).Some? ==>
      var name := ToJsString(Get(TopIntent(response).value, "intent"), showNumber);
      t.Str? && (t.s == NotUnderstoodText || t.s == UnderstoodPrefix + name || t.s == ThinkPrefix + name)
  {
    match TopIntent(response)
    case None => Null
    case Some(intent) =>
      var confidence := Get(intent, "confidence");
      var name := ToJsString(Get(intent, "intent"), showNumber);
      if AtLeast(confidence, HighConfidence) then Str(UnderstoodPrefix + name)
      else if AtLeast(confidence, MediumConfidence) then Str(ThinkPrefix + name)
      else Str(NotUnderstoodText)
  }

  /** The response after `updateMessage`. */
  function Updated(response: map<string, Json>, showNumber: real -> string): map<string, Json> {
    if Truthy(Get(Obj(response), "output")) then response
    else response["output" := Obj(map["text" := ConfidenceText(response, showNumber)])]
  }

  /** `updateMessage(input, response)`: the request input is not consulted;
      `response` is changed in place and returned. */
  method UpdateMessage(input: Json, response: JsObject, showNumber: real -> string) returns (r: JsObject)
    modifies response
    ensures r == response
    ensures response.props == Updated(old(response.props), showNumber)
  {
    var responseText := Null;
    if !Truthy(Get(response.Value(), "output")) {
      response.props := response.props["output" := Obj(map[])];
    } else {
      return response;
    }
    var intents := Get(response.Value(), "intents");
    if Truthy(intents) && Truthy(At0(intents)) {
      var intent := At0(intents);
      if AtLeast(Get(intent, "confidence"), HighConfidence) {
        responseText := Str(UnderstoodPrefix + ToJsString(Get(intent, "intent"), showNumber));
      } else if AtLeast(Get(intent, "confidence"), MediumConfidence) {
        responseText := Str(ThinkPrefix + ToJsString(Get(intent, "intent"), showNumber));
      } else {
        responseText := Str(NotUnderstoodText);
      }
    }
    var output := Get(response.Value(), "output");
    response.props := response.props["output" := Obj(output.props["text" := responseText])];
    return response;
  }

  // ---------------------------------------------------------------------
  // Properties

  /** A response that already has an output is returned unchanged; otherwise
      only `output` changes, to an object holding just the chosen text. */
  lemma UpdatedChangesOnlyOutput(response: map<string, Json>, showNumber: real -> string)
    ensures Truthy(Get(Obj(response), "output")) ==> Updated(response, showNumber) == response
    ensures !Truthy(Get(Obj(response), "output")) ==>
      && Updated(response, showNumber).Keys == response.Keys + {"output"}
      && (forall k :: k in response && k != "output" ==> Updated(response, showNumber)[k] == response[k])
      && Updated(response, showNumber)["output"] == Obj(map["text" := ConfidenceText(response, showNumber)])
  {
  }

  /** Updating twice is updating once: the output the first update creates is
      truthy, so the second is a no-op. */
  lemma UpdatedIdempotent(response: map<string, Json>, showNumber: real -> string)
    ensures Updated(Updated(response, showNumber), showNumber) == Updated(response, showNumber)
  {
  }

  /** The three confidence bands, for a top intent with a numeric confidence. */
  lemma ConfidenceBands(response: map<string, Json>, showNumber: real -> string, intent: Json, c: real)
    requires TopIntent(response) == Some(intent) && Get(intent, "confidence") == Num(c)
    ensures var name := ToJsString(Get(intent, "intent"), showNumber);
      && (c >= 0.75 ==> ConfidenceText(response, showNumber) == Str(UnderstoodPrefix + name))
      && (0.5 <= c < 0.75 ==> ConfidenceText(response, showNumber) == Str(ThinkPrefix + name))
      && (c < 0.5 ==> ConfidenceText(response, showNumber) == Str(NotUnderstoodText))
  {
  }

  /** How sure a chosen text claims to be: 0 for none, 1 not understood,
      2 a guess, 3 understood. */
  function Assurance(t: Json): nat {
    if t.Str? && |t.s| >= |UnderstoodPrefix| && t.s[..|UnderstoodPrefix|] == UnderstoodPrefix then 3
    else if t.Str? && |t.s| >= |ThinkPrefix| && t.s[..|ThinkPrefix|] == ThinkPrefix then 2
    else if t.Str? then 1
    else 0
  }

  /** More confidence in the same top intent never yields a less assured
      text. */
  lemma ConfidenceMonotone(response: map<string, Json>, intent: Json, c1: real, c2: real, rest: seq<Json>,
                           showNumber: real -> string)
    requires intent.Obj? && c1 <= c2
    ensures var r1 := response["intents" := Arr([intent.(props := intent.props["confidence" := Num(c1)])] + rest)];
      var r2 := response["intents" := Arr([intent.(props := intent.props["confidence" := Num(c2)])] + rest)];
      Assurance(ConfidenceText(r1, showNumber)) <= Assurance(ConfidenceText(r2, showNumber))
  {
    var i1 := intent.(props := intent.props["confidence" := Num(c1)]);
    var i2 := intent.(props := intent.props["confidence" := Num(c2)]);
    var r1 := response["intents" := Arr([i1] + rest)];
    var r2 := response["intents" := Arr([i2] + rest)];
    assert TopIntent(r1) == Some(i1) && TopIntent(r2) == Some(i2);
    assert Get(i1, "intent") == Get(i2, "intent");
    assert Get(i1, "confidence") == Num(c1) && Get(i2, "confidence") == Num(c2);
    AssuranceLevels(ToJsString(Get(i1, "intent"), showNumber));
  }

  /** The three texts have assurance 3, 2 and 1, whatever the intent's name. */
  lemma AssuranceLevels(name: string)
    ensures Assurance(Str(UnderstoodPrefix + name)) == 3
    ensures Assurance(Str(ThinkPrefix + name)) == 2
    ensures Assurance(Str(NotUnderstoodText)) == 1
  {
    assert (UnderstoodPrefix + name)[..|UnderstoodPrefix|] == UnderstoodPrefix;
    assert (ThinkPrefix + name)[..|ThinkPrefix|] == ThinkPrefix;
    if |ThinkPrefix + name| >= |UnderstoodPrefix| {
      assert (ThinkPrefix + name)[..|UnderstoodPrefix|][2] != UnderstoodPrefix[2];
    }
    assert NotUnderstoodText[..|ThinkPrefix|][2] != ThinkPrefix[2];
    assert NotUnderstoodText[..|UnderstoodPrefix|][2] != UnderstoodPrefix[2];
  }

  /** Only `intents[0]` is consulted: intents after the first do not change
      the text. */
  lemma OnlyTopIntentConsulted(response: map<string, Json>, first: Json, rest1: seq<Json>, rest2: seq<Json>,
                               showNumber: real -> string)
    ensures ConfidenceText(response["intents" := Arr([first] + rest1)], showNumber)
         == ConfidenceText(response["intents" := Arr([first] + rest2)], showNumber)
  {
  }
}
