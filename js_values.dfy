/** JavaScript values as the endpoints see them after `JSON.parse`, and the few
    built-in operations they rely on: truthiness, `??`, `||`, optional property
    access, `Number(...)` with `Number.isFinite`, `String(...)`,
    `String.prototype.trim` and `String.prototype.includes`. */
module JsValues {

  datatype Option<+T> = None | Some(value: T) {
    /** `x ?? default` for an optional value. */
    function GetOr(default: T): T {
      match this
      case Some(v) => v
      case None => default
    }
  }

  /** A value as `JSON.parse` can produce it, with two exclusions: numbers
      are finite, so the `Infinity` that an overflowing literal such as
      `1e400` parses to is left out, and arrays are not represented. */
  datatype JsValue =
    | Undefined
    | Null
    | Bool(b: bool)
    | Num(n: real)
    | Str(s: string)
    | Obj(fields: map<string, JsValue>)

  /** `v === undefined || v === null`: the values `??` skips. */
  predicate IsNullish(v: JsValue) {
    v.Undefined? || v.Null?
  }

  /** JavaScript truthiness, `!!v`. */
  predicate Truthy(v: JsValue) {
    match v
    case Undefined => false
    case Null => false
    case Bool(b) => b
    case Num(n) => n != 0.0
    case Str(s) => s != ""
    case Obj(_) => true
  }

  /** `a ?? b` */
  function Coalesce(a: JsValue, b: JsValue): JsValue {
    if IsNullish(a) then b else a
  }

  /** `a || b` */
  function Or(a: JsValue, b: JsValue): JsValue {
    if Truthy(a) then a else b
  }

  /** `v?.key`: an own property of an object; `undefined` for a missing key and
      for every value that is not an object. */
  function Prop(v: JsValue, key: string): JsValue {
    if v.Obj? && key in v.fields then v.fields[key] else Undefined
  }

  /** The text `String(o)` gives for a plain object. */
  const ObjectText: string := "[object Object]"

  /** How `Number(s)` reads a string: `Some(x)` when the number is finite,
      `None` for NaN and for the two infinities. Left abstract: the decimal,
      hexadecimal and exponent grammar of JavaScript is not modelled. */
  type StringToNumber = string -> Option<real>

  /** `Number(v)` filtered through `Number.isFinite`. A plain object is first
      turned into its text, as JavaScript does. */
  function ToNumber(v: JsValue, parse: StringToNumber): Option<real> {
    match v
    case Undefined => None
    case Null => Some(0.0)
    case Bool(b) => Some(if b then 1.0 else 0.0)
    case Num(n) => Some(n)
    case Str(s) => parse(s)
    case Obj(_) => parse(ObjectText)
  }

  /** `String(v)` for the two kinds of value the endpoints ever stringify
      without a number in hand: strings and objects. */
  function ToText(v: JsValue): string
    requires v.Str? || v.Obj?
  {
    if v.Str? then v.s else ObjectText
  }

  /** `s.includes(t)` */
  predicate Includes(s: string, t: string)
    decreases |s|
  {
    t <= s || (|s| > 0 && Includes(s[1..], t))
  }

  /** A `t` that starts at position `i` of `s` is found by `includes`. */
  lemma {:induction false} IncludesAt(s: string, t: string, i: nat)
    requires i <= |s| && t <= s[i..]
    ensures Includes(s, t)
    decreases i
  {
    if i > 0 {
      assert s[1..][i - 1..] == s[i..];
      IncludesAt(s[1..], t, i - 1);
    }
  }

  /** What `includes` finds starts at some position of `s`. */
  lemma {:induction false} IncludesWitness(s: string, t: string) returns (i: nat)
    requires Includes(s, t)
    ensures i <= |s| && t <= s[i..]
    decreases |s|
  {
    if t <= s {
      i := 0;
    } else {
      var j := IncludesWitness(s[1..], t);
      assert s[1..][j..] == s[j + 1..];
      i := j + 1;
    }
  }

  /** `includes` finds `t` exactly when `t` starts at some position of `s`. */
  lemma IncludesIff(s: string, t: string)
    ensures Includes(s, t) <==> exists i :: 0 <= i <= |s| && t <= s[i..]
  {
    if Includes(s, t) {
      var i := IncludesWitness(s, t);
    }
    forall i | 0 <= i <= |s| && t <= s[i..]
      ensures Includes(s, t)
    {
      IncludesAt(s, t, i);
    }
  }

  /** Whitespace and line terminators as ECMAScript defines them for `trim`:
      tab to carriage return, space, the space separators of Unicode, the
      line and paragraph separators and the byte-order mark. */
  predicate IsWhitespace(c: char) {
    || c == ' '
    || ('\t' <= c <= '\r')
    || c == '\U{00A0}'
    || c == '\U{1680}'
    || ('\U{2000}' <= c <= '\U{200A}')
    || c == '\U{2028}'
    || c == '\U{2029}'
    || c == '\U{202F}'
    || c == '\U{205F}'
    || c == '\U{3000}'
    || c == '\U{FEFF}'
  }

  /** `s.trimStart()`: the suffix of `s` left after dropping leading whitespace. */
  function TrimStart(s: string): (r: string)
    ensures |r| <= |s| && r == s[|s| - |r|..]
    ensures forall i :: 0 <= i < |s| - |r| ==> IsWhitespace(s[i])
    ensures r == [] || !IsWhitespace(r[0])
  {
    if |s| > 0 && IsWhitespace(s[0]) then TrimStart(s[1..]) else s
  }

  /** `s.trimEnd()`: the prefix of `s` left after dropping trailing whitespace. */
  function TrimEnd(s: string): (r: string)
    ensures |r| <= |s| && r == s[..|r|]
    ensures forall i :: |r| <= i < |s| ==> IsWhitespace(s[i])
    ensures r == [] || !IsWhitespace(r[|r| - 1])
  {
    if |s| > 0 && IsWhitespace(s[|s| - 1]) then TrimEnd(s[..|s| - 1]) else s
  }

  /** `s.trim()` */
  function Trim(s: string): string {
    TrimEnd(TrimStart(s))
  }

  /** `!s.trim()` holds exactly for the strings made of whitespace only. */
  lemma TrimEmptyIffBlank(s: string)
    ensures Trim(s) == "" <==> forall i :: 0 <= i < |s| ==> IsWhitespace(s[i])
  {
  }
}
