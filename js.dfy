/** JavaScript values and the few built-in operations the gateway relies on:
    `undefined`/`null` (`??`), plain JSON values as they arrive in a request body
    or a tool call's arguments, and `Array.prototype.join`. */
module Js {

  /** An optional value. `None` stands for a missing property (`undefined`). */
  datatype Option<+T> = None | Some(value: T) {
    function GetOr(default: T): (r: T)
      ensures Some? ==> r == value
      ensures None? ==> r == default
    {
      match this
      case Some(v) => v
      case None => default
    }
  }

  /** A JSON value. Numbers are kept integral: no number is ever inspected. */
  datatype JsonValue =
    | JNull
    | JBool(b: bool)
    | JNum(n: int)
    | JStr(s: string)
    | JArr(elems: seq<JsonValue>)
    | JObj(fields: map<string, JsonValue>)

  /** `v == null || v === undefined`, the test behind `??`. */
  predicate IsNullish(v: Option<JsonValue>) {
    v.None? || v.value.JNull?
  }

  /** `a ?? b` on a possibly missing JSON value. */
  function Coalesce(a: Option<JsonValue>, b: JsonValue): (r: JsonValue)
    ensures !IsNullish(a) ==> r == a.value
    ensures IsNullish(a) ==> r == b
  {
    if IsNullish(a) then b else a.value
  }

  /** `value.key === str`: reading a property of a JSON value and comparing it
      strictly with a string. Only an object can carry an own property here;
      a missing property reads as `undefined`, which equals no string. */
  predicate PropertyIsString(value: JsonValue, key: string, str: string) {
    value.JObj? && key in value.fields && value.fields[key] == JStr(str)
  }

  /** `parts.join(sep)` on an array of strings. */
  function Join(parts: seq<string>, sep: string): (r: string)
    ensures |parts| == 0 ==> r == ""
    ensures |parts| == 1 ==> r == parts[0]
    ensures |parts| > 0 ==> |parts[0]| <= |r| && r[..|parts[0]|] == parts[0]
  {
    if |parts| == 0 then ""
    else if |parts| == 1 then parts[0]
    else parts[0] + sep + Join(parts[1..], sep)
  }

  /** Joining one more part appends the separator and that part. */
  lemma {:induction false} JoinSnoc(parts: seq<string>, sep: string)
    requires |parts| >= 2
    ensures Join(parts, sep) == Join(parts[..|parts| - 1], sep) + sep + parts[|parts| - 1]
  {
    if |parts| > 2 {
      JoinSnoc(parts[1..], sep);
      assert parts[1..][..|parts| - 2] == parts[..|parts| - 1][1..];
    }
  }
}
