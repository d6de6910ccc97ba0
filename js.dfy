/** JavaScript values as the message endpoint sees them: parsed JSON bodies,
    responses of the two services, and the handful of language operations the
    endpoint applies to them (truthiness, `||`, property reads, `String(v)`,
    `String.prototype.indexOf`). */
module Js {

  datatype Option<+T> = None | Some(value: T)

  /** A JSON-shaped JavaScript value. `Undefined` is what reading a missing
      property yields. */
  datatype Json =
    | Undefined
    | Null
    | Bool(b: bool)
    | Num(n: real)
    | Str(s: string)
    | Arr(items: seq<Json>)
    | Obj(props: map<string, Json>)

  /** JavaScript truthiness (NaN is not represented). */
  predicate Truthy(v: Json) {
    match v
    case Undefined => false
    case Null => false
    case Bool(b) => b
    case Num(n) => n != 0.0
    case Str(s) => s != ""
    case Arr(_) => true
    case Obj(_) => true
  }

  /** Reading a property of `v` does not throw a TypeError. */
  predicate Readable(v: Json) {
    !v.Undefined? && !v.Null?
  }

  /** JavaScript's `a || b`: the left operand when it is truthy, otherwise the
      right one. */
  function Or(a: Json, b: Json): (r: Json)
    ensures r == a || r == b
    ensures Truthy(r) <==> Truthy(a) || Truthy(b)
    ensures Truthy(a) ==> r == a
    ensures !Truthy(a) ==> r == b
  {
    if Truthy(a) then a else b
  }

  /** `v[key]` for a non-numeric key; only own properties of objects exist in
      this model. */
  function Get(v: Json, key: string): Json
    requires Readable(v)
  {
    match v
    case Obj(props) => if key in props then props[key] else Undefined
    case _ => Undefined
  }

  /** `v[0]`: the first element of an array, the first character of a string,
      the property "0" of an object. */
  function At0(v: Json): Json
    requires Readable(v)
  {
    match v
    case Arr(items) => if |items| > 0 then items[0] else Undefined
    case Str(s) => if |s| > 0 then Str(s[..1]) else Undefined
    case Obj(props) => if "0" in props then props["0"] else Undefined
    case _ => Undefined
  }

  function JoinWith(parts: seq<string>, sep: string): string
  {
    if |parts| == 0 then ""
    else if |parts| == 1 then parts[0]
    else parts[0] + sep + JoinWith(parts[1..], sep)
  }

  /** `String(v)`, the conversion `'text' + v` applies. Rendering a number is
      the host's business and is passed in as `showNumber`. */
  function ToJsString(v: Json, showNumber: real -> string): string
    decreases v
  {
    match v
    case Undefined => "undefined"
    case Null => "null"
    case Bool(b) => if b then "true" else "false"
    case Num(n) => showNumber(n)
    case Str(s) => s
    case Arr(items) =>
      // Array.prototype.toString joins with "," and shows null and undefined as ""
      JoinWith(seq(|items|, i requires 0 <= i < |items| =>
                 if items[i].Undefined? || items[i].Null? then "" else ToJsString(items[i], showNumber)), ",")
    case Obj(_) => "[object Object]"
  }

  /** `sub` occurs in `s` starting at index `j`. */
  predicate MatchesAt(s: string, sub: string, j: nat) {
    j + |sub| <= |s| && s[j..j + |sub|] == sub
  }

  predicate Contains(s: string, sub: string) {
    exists j: nat :: j <= |s| && MatchesAt(s, sub, j)
  }

  /** Matches in the tail of `s` are the matches in `s` shifted by one. */
  lemma MatchesInTail(s: string, sub: string)
    requires |s| > 0
    ensures forall j: nat :: j > 0 ==> (MatchesAt(s, sub, j) <==> MatchesAt(s[1..], sub, j - 1))
  {
  }

  /** Without a match at the front, `sub` occurs in `s` iff it occurs in its tail. */
  lemma ContainsInTail(s: string, sub: string)
    requires |s| > 0 && !MatchesAt(s, sub, 0)
    ensures Contains(s, sub) <==> Contains(s[1..], sub)
  {
    MatchesInTail(s, sub);
    if Contains(s, sub) {
      var j: nat :| j <= |s| && MatchesAt(s, sub, j);
      assert j > 0 && MatchesAt(s[1..], sub, j - 1);
    }
    if Contains(s[1..], sub) {
      var j: nat :| j <= |s[1..]| && MatchesAt(s[1..], sub, j);
      assert MatchesAt(s, sub, j + 1);
    }
  }

  /** `s.indexOf(sub)`: the first index at which `sub` occurs, or -1. */
  function IndexOf(s: string, sub: string): (r: int)
    ensures r == -1 || (0 <= r && MatchesAt(s, sub, r))
    ensures r == -1 <==> !Contains(s, sub)
    ensures r >= 0 ==> forall j: nat :: j < r ==> !MatchesAt(s, sub, j)
    decreases |s|
  {
    if |sub| > |s| then
      -1
    else if s[..|sub|] == sub then
      assert MatchesAt(s, sub, 0);
      0
    else
      assert !MatchesAt(s, sub, 0);
      var k := IndexOf(s[1..], sub);
      MatchesInTail(s, sub);
      ContainsInTail(s, sub);
      if k == -1 then -1 else k + 1
  }

  /** The one object whose properties the endpoint updates in place: the
      response received from the conversation service. Its nested values are
      immutable in this model. */
  class JsObject {
    var props: map<string, Json>

    constructor (props: map<string, Json>)
      ensures this.props == props
    {
      this.props := props;
    }

    function Value(): Json
      reads this
    {
      Obj(props)
    }
  }
}
