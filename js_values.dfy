/**
 * The JavaScript values that flow through the account mirror, the session cache and
 * the screens, with the few pieces of JavaScript semantics the source relies on:
 * truthiness, destructuring defaults, `String(v)`, `Number(s)`, loose `==` against a
 * string, the relational `>` and the string built-ins `search`, `split`, `join` and
 * `includes`.
 */
module JsValues {
  import opened Base

  /** A JavaScript value. `Undef` is `undefined`; numbers are integers. */
  datatype JsValue =
    | Undef
    | Null
    | Bool(b: bool)
    | Num(n: int)
    | Str(s: string)
    | Arr(items: seq<JsValue>)
    | Obj(fields: map<string, JsValue>)

  /** A document as a bag of fields; a field that is not there reads as `undefined`. */
  type Record = map<string, JsValue>

  function Get(r: Record, key: string): JsValue
  {
    if key in r then r[key] else Undef
  }

  /** The default of a destructuring pattern `{ key = d }`: it replaces `undefined` only. */
  function OrDefault(v: JsValue, d: JsValue): JsValue
  {
    if v == Undef then d else v
  }

  /** JavaScript truthiness (there is no NaN here). */
  predicate Truthy(v: JsValue)
  {
    match v
    case Undef => false
    case Null => false
    case Bool(b) => b
    case Num(n) => n != 0
    case Str(s) => s != ""
    case Arr(_) => true
    case Obj(_) => true
  }

  /** `mergeItems(partial)`: a shallow update of the mirror, the partial's fields winning. */
  function Merge(r: Record, partial: Record): Record
  {
    r + partial
  }

  // ---------------------------------------------------------------- strings

  /** `s.search(c)` for a one-character pattern: the first index of `c`, or -1. */
  function IndexOf(s: string, c: char): (k: int)
    ensures k == -1 <==> c !in s
    ensures k != -1 ==> 0 <= k < |s| && s[k] == c && c !in s[..k]
  {
    if |s| == 0 then -1
    else if s[0] == c then 0
    else
      var k := IndexOf(s[1..], c);
      assert s[1..][..if k < 0 then 0 else k] == s[1..if k < 0 then 1 else k + 1];
      if k < 0 then -1 else k + 1
  }

  /** `s.split(c)` for a one-character separator. */
  function Split(s: string, c: char): (parts: seq<string>)
    ensures |parts| >= 1
    ensures forall i :: 0 <= i < |parts| ==> c !in parts[i]
    decreases |s|
  {
    var k := IndexOf(s, c);
    if k < 0 then [s] else [s[..k]] + Split(s[k + 1..], c)
  }

  /** `parts.join(sep)`. */
  function JoinWith(parts: seq<string>, sep: string): string
  {
    if |parts| == 0 then ""
    else if |parts| == 1 then parts[0]
    else parts[0] + sep + JoinWith(parts[1..], sep)
  }

  /** Joining what `split` cut, with the same separator, gives the string back. */
  lemma {:induction false} JoinSplit(s: string, c: char)
    ensures JoinWith(Split(s, c), [c]) == s
    decreases |s|
  {
    var k := IndexOf(s, c);
    if k >= 0 {
      var head, tail := s[..k], s[k + 1..];
      var rest := Split(tail, c);
      assert Split(s, c) == [head] + rest;
      JoinSplit(tail, c);
      JoinCons(head, rest, [c]);
      CutAt(s, k);
    }
  }

  lemma JoinCons(head: string, rest: seq<string>, sep: string)
    requires |rest| >= 1
    ensures JoinWith([head] + rest, sep) == head + sep + JoinWith(rest, sep)
  {
    assert ([head] + rest)[1..] == rest;
  }

  lemma CutAt(s: string, k: nat)
    requires k < |s|
    ensures s == s[..k] + [s[k]] + s[k + 1..]
  {
  }

  /** `hay.includes(needle)` on strings. */
  predicate IsSubstring(needle: string, hay: string)
    decreases |hay|
  {
    needle <= hay || (|hay| > 0 && IsSubstring(needle, hay[1..]))
  }

  // ----------------------------------------------------------- conversions

  function Digit(d: nat): char
    requires d < 10
  {
    "0123456789"[d]
  }

  function NatToDecimal(n: nat): (s: string)
    ensures |s| >= 1
    ensures forall i :: 0 <= i < |s| ==> '0' <= s[i] <= '9'
  {
    if n < 10 then [Digit(n)] else NatToDecimal(n / 10) + [Digit(n % 10)]
  }

  /** `String(n)` for an integer. */
  function IntToDecimal(n: int): string
  {
    if n < 0 then "-" + NatToDecimal(-n) else NatToDecimal(n)
  }

  function DigitsValue(s: string): nat
    requires forall i :: 0 <= i < |s| ==> '0' <= s[i] <= '9'
  {
    if |s| == 0 then 0
    else DigitsValue(s[..|s| - 1]) * 10 + (s[|s| - 1] as int - '0' as int)
  }

  /**
   * `Number(s)` restricted to what can equal an integer here: the empty string is 0,
   * a string of decimal digits is its value, anything else is NaN (None).
   */
  function ToNumber(s: string): Option<int>
  {
    if s == "" then Some(0)
    else if forall i :: 0 <= i < |s| ==> '0' <= s[i] <= '9' then Some(DigitsValue(s))
    else None
  }

  /** `String(v)`, as template literals and `Array.prototype.join` use it. */
  function ToStr(v: JsValue): string
  {
    match v
    case Undef => "undefined"
    case Null => "null"
    case Bool(b) => if b then "true" else "false"
    case Num(n) => IntToDecimal(n)
    case Str(s) => s
    case Arr(xs) => JoinWith(ElementStrings(xs), ",")
    case Obj(_) => "[object Object]"
  }

  /** How `join` prints each element: null and undefined as the empty string. */
  function ElementStrings(xs: seq<JsValue>): (r: seq<string>)
    ensures |r| == |xs|
  {
    if xs == [] then []
    else [if xs[0].Undef? || xs[0].Null? then "" else ToStr(xs[0])] + ElementStrings(xs[1..])
  }

  /** Loose equality `v == s` against a string `s`. */
  predicate LooseEquals(v: JsValue, s: string)
  {
    match v
    case Undef => false
    case Null => false
    case Bool(b) => ToNumber(s) == Some(if b then 1 else 0)
    case Num(n) => ToNumber(s) == Some(n)
    case Str(t) => t == s
    case Arr(_) => ToStr(v) == s
    case Obj(_) => ToStr(v) == s
  }

  function ToPrimitive(v: JsValue): JsValue
  {
    if v.Arr? || v.Obj? then Str(ToStr(v)) else v
  }

  /** `Number(v)` of a primitive; None is NaN. */
  function NumberOf(v: JsValue): Option<int>
  {
    match v
    case Undef => None
    case Null => Some(0)
    case Bool(b) => Some(if b then 1 else 0)
    case Num(n) => Some(n)
    case Str(s) => ToNumber(s)
    case _ => None
  }

  /** Code-unit order of strings, as `<` compares two strings. */
  predicate StrLess(x: string, y: string)
  {
    if |x| == 0 then |y| > 0
    else if |y| == 0 then false
    else if x[0] == y[0] then StrLess(x[1..], y[1..])
    else x[0] < y[0]
  }

  /** The relational `a > b`: strings compare by code units, everything else as numbers. */
  predicate Greater(a: JsValue, b: JsValue)
  {
    var pa, pb := ToPrimitive(a), ToPrimitive(b);
    if pa.Str? && pb.Str? then StrLess(pb.s, pa.s)
    else NumberOf(pa).Some? && NumberOf(pb).Some? && NumberOf(pa).value > NumberOf(pb).value
  }
}
