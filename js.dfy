/**
 * The pieces of JavaScript semantics the views rely on: truthiness, `String(x)`,
 * `parseInt`, `String.prototype.split` with a one-character separator,
 * `Array.prototype.find` and `Array.prototype.reduce`, plus the shape of a
 * `fetch` outcome as the views see it.
 */
module Js {
  import opened Json

  /** A settled `fetch` followed by `res.json()`: either it rejected with an error message, or a status and a parsed body arrived. */
  datatype Response = Failed(message: string) | Received(ok: bool, body: Value)

  /** JavaScript truthiness of a JSON value (`undefined`, null, false, 0 and "" are falsy). */
  predicate Truthy(v: Value) {
    match v
    case Null => false
    case Bool(b) => b
    case Num(n) => n != 0
    case Str(s) => s != ""
    case Arr(_) => true
    case Obj(_) => true
  }

  predicate TruthyOpt(o: Option<Value>) {
    o.Some? && Truthy(o.value)
  }

  /** `v.key`: the property of an object, `undefined` (None) for any other value. */
  function Prop(v: Value, key: string): Option<Value>
  {
    if v.Obj? then Lookup(v.fields, key) else None
  }

  /** `String(v)` for a JSON value; an array joins its items' texts with ',' and shows null as empty. */
  function JsString(v: Value): string
    decreases v, 1
  {
    match v
    case Null => "null"
    case Bool(b) => if b then "true" else "false"
    case Num(n) => DecimalText(n)
    case Str(s) => s
    case Arr(items) => JoinTexts(items)
    case Obj(_) => "[object Object]"
  }

  function JoinTexts(items: seq<Value>): string
    decreases items, 0
  {
    if items == [] then ""
    else
      var first := if items[0].Null? then "" else JsString(items[0]);
      if |items| == 1 then first else first + "," + JoinTexts(items[1..])
  }

  /** `String(x)` or `${x}` where x may be `undefined`. */
  function Text(o: Option<Value>): string
  {
    if o.None? then "undefined" else JsString(o.value)
  }

  /** The message of the TypeError a read of property `key` of null throws (V8's wording). */
  function NullReadMessage(key: string): string
  {
    "Cannot read properties of null (reading '" + key + "')"
  }

  /** A present, non-empty string. */
  predicate IsText(x: Option<Value>) {
    x.Some? && x.value.Str? && x.value.s != ""
  }

  /** `new Error(x || fallback).message`. */
  function ErrorText(x: Option<Value>, fallback: string): (msg: string)
    ensures !TruthyOpt(x) ==> msg == fallback
    ensures IsText(x) ==> msg == x.value.s
  {
    if TruthyOpt(x) then JsString(x.value) else fallback
  }

  /** The index of the first element satisfying `p`, or |s| when there is none (`findIndex`, with -1 read as |s|). */
  function FirstIndex<T>(s: seq<T>, p: T -> bool): (k: nat)
    ensures k <= |s|
    ensures k < |s| ==> p(s[k])
    ensures forall j :: 0 <= j < k ==> !p(s[j])
  {
    if s == [] then 0 else if p(s[0]) then 0 else 1 + FirstIndex(s[1..], p)
  }

  /** `Array.prototype.find`: the first element satisfying `p`, None for `undefined`. */
  function Find<T>(s: seq<T>, p: T -> bool): (r: Option<T>)
    ensures r.None? <==> forall j :: 0 <= j < |s| ==> !p(s[j])
    ensures r.Some? ==> p(r.value) && FirstIndex(s, p) < |s| && r.value == s[FirstIndex(s, p)]
  {
    var k := FirstIndex(s, p);
    if k < |s| then Some(s[k]) else None
  }

  /** `s.split(c)` for a one-character separator: the maximal separator-free pieces, always at least one. */
  function Split(s: string, c: char): (parts: seq<string>)
    ensures |parts| >= 1
    ensures forall i :: 0 <= i < |parts| ==> c !in parts[i]
    ensures Join(parts, c) == s
  {
    var k := FirstIndex(s, (x: char) => x == c);
    if k == |s| then
      assert c !in s;
      [s]
    else
      var rest := Split(s[k + 1..], c);
      assert c !in s[..k];
      assert s == s[..k] + [c] + s[k + 1..];
      [s[..k]] + rest
  }

  /** `parts.join(c)`. */
  function Join(parts: seq<string>, c: char): string
    requires |parts| >= 1
  {
    if |parts| == 1 then parts[0] else parts[0] + [c] + Join(parts[1..], c)
  }

  /** Splitting a join of separator-free pieces gives the pieces back. */
  lemma {:induction false} SplitJoin(parts: seq<string>, c: char)
    requires |parts| >= 1
    requires forall i :: 0 <= i < |parts| ==> c !in parts[i]
    ensures Split(Join(parts, c), c) == parts
  {
    var s := Join(parts, c);
    var p := (x: char) => x == c;
    if |parts| == 1 {
      FirstIndexAbsent(s, c);
    } else {
      var tail := Join(parts[1..], c);
      assert Split(s, c) == [parts[0]] + Split(tail, c) by {
        assert s == parts[0] + [c] + tail;
        FirstIndexAfter(parts[0], c, tail);
        var k := |parts[0]|;
        assert s[..k] == parts[0];
        assert s[k + 1..] == tail;
      }
      SplitJoin(parts[1..], c);
      assert parts == [parts[0]] + parts[1..];
    }
  }

  lemma FirstIndexAbsent(s: string, c: char)
    requires c !in s
    ensures FirstIndex(s, (x: char) => x == c) == |s|
  {
  }

  lemma FirstIndexAfter(a: string, c: char, b: string)
    requires c !in a
    ensures FirstIndex(a + [c] + b, (x: char) => x == c) == |a|
  {
    var s := a + [c] + b;
    assert s[|a|] == c;
    assert forall j :: 0 <= j < |a| ==> s[j] == a[j];
  }

  /** `s.reduce((acc, x) => acc + f(x), acc)`: a left fold. */
  function Reduce<T>(s: seq<T>, f: T -> int, acc: int): int
  {
    if s == [] then acc else Reduce(s[1..], f, acc + f(s[0]))
  }

  /** The sum of `f` over `s`, defined from the right so that it splits over concatenation. */
  function Sum<T>(s: seq<T>, f: T -> int): int
  {
    if s == [] then 0 else Sum(s[..|s| - 1], f) + f(s[|s| - 1])
  }

  /** The left fold that `reduce` performs adds up to the same total as the sum, shifted by the start value. */
  lemma {:induction false} ReduceIsSum<T>(s: seq<T>, f: T -> int, acc: int)
    ensures Reduce(s, f, acc) == acc + Sum(s, f)
  {
    if s != [] {
      ReduceIsSum(s[1..], f, acc + f(s[0]));
      SumCons(s, f);
    }
  }

  lemma {:induction false} SumCons<T>(s: seq<T>, f: T -> int)
    requires s != []
    ensures Sum(s, f) == f(s[0]) + Sum(s[1..], f)
  {
    if |s| > 1 {
      SumCons(s[..|s| - 1], f);
      assert s[..|s| - 1][1..] == s[1..][..|s[1..]| - 1];
    }
  }

  /** Summing a concatenation adds the two sums. */
  lemma {:induction false} SumAppend<T>(a: seq<T>, b: seq<T>, f: T -> int)
    ensures Sum(a + b, f) == Sum(a, f) + Sum(b, f)
  {
    if b != [] {
      SumAppend(a, b[..|b| - 1], f);
      assert (a + b)[..|a + b| - 1] == a + b[..|b| - 1];
    } else {
      assert a + b == a;
    }
  }

  /** `parseInt(s)` (radix 10) on a sign and a run of decimal digits: None stands for NaN. */
  function ParseInt(s: string): Option<int>
  {
    if |s| > 0 && (s[0] == '-' || s[0] == '+') then
      match LeadingNumber(s[1..])
      case None => None
      case Some(n) => var v: int := n; Some(if s[0] == '-' then -v else v)
    else
      match LeadingNumber(s)
      case None => None
      case Some(n) => Some(n)
  }

  /** The value of the longest run of digits at the start of `s`, None when `s` does not start with a digit. */
  function LeadingNumber(s: string): Option<nat>
  {
    var k := FirstIndex(s, (ch: char) => !IsDigit(ch));
    if k == 0 then None else Some(DigitsValue(s[..k]))
  }

  /** `parseInt(s)` as `JSON.stringify` writes it: NaN becomes null. */
  function IntField(s: string): Value
  {
    match ParseInt(s)
    case None => Null
    case Some(n) => Num(n)
  }

  /** `parseInt` reads back every integer that `String` writes. */
  lemma ParseIntDecimal(n: int)
    ensures ParseInt(DecimalText(n)) == Some(n)
  {
    var m := if n < 0 then -n else n;
    var d := Digits(m);
    FirstNonDigitOfDigits(d);
    assert d[..|d|] == d;
    DigitsRoundTrip(m);
    if n < 0 {
      assert DecimalText(n)[1..] == d;
    }
  }

  lemma FirstNonDigitOfDigits(d: string)
    requires forall i :: 0 <= i < |d| ==> IsDigit(d[i])
    ensures FirstIndex(d, (ch: char) => !IsDigit(ch)) == |d|
  {
  }

  /** `parseInt` ignores whatever follows the leading digits. */
  lemma ParseIntStopsAtNonDigit(digits: string, rest: string)
    requires |digits| > 0 && forall i :: 0 <= i < |digits| ==> IsDigit(digits[i])
    requires |rest| > 0 && !IsDigit(rest[0])
    ensures ParseInt(digits + rest) == Some(DigitsValue(digits))
  {
    var s := digits + rest;
    assert s[..|digits|] == digits;
  }
}
