/**
 * JSON values exchanged between backend.py and the React views, and the two
 * ways the backend builds objects: literal dictionaries and `dict(zip(keys, row))`.
 * Numbers are integers only: the floating-point fields are not part of this model.
 */
module Json {

  datatype Option<+T> = None | Some(value: T)

  /** A JSON value; an object keeps its keys in insertion order, as both Python dicts and JavaScript objects do. */
  datatype Value =
    | Null
    | Bool(b: bool)
    | Num(n: int)
    | Str(s: string)
    | Arr(items: seq<Value>)
    | Obj(fields: seq<(string, Value)>)

  type Fields = seq<(string, Value)>

  /** The keys of an object, in order (`Object.keys`, or iterating a Python dict). */
  function Keys(fields: Fields): (ks: seq<string>)
    ensures |ks| == |fields|
    ensures forall i :: 0 <= i < |fields| ==> ks[i] == fields[i].0
  {
    if fields == [] then [] else [fields[0].0] + Keys(fields[1..])
  }

  /** The values of an object, in key order (`Object.values`). */
  function Values(fields: Fields): (vs: seq<Value>)
    ensures |vs| == |fields|
    ensures forall i :: 0 <= i < |fields| ==> vs[i] == fields[i].1
  {
    if fields == [] then [] else [fields[0].1] + Values(fields[1..])
  }

  predicate DistinctKeys(fields: Fields) {
    forall i, j :: 0 <= i < j < |fields| ==> fields[i].0 != fields[j].0
  }

  /** The value stored under `key`, or None when the key is absent (JavaScript's `undefined`). */
  function Lookup(fields: Fields, key: string): (r: Option<Value>)
    ensures r.None? <==> forall i :: 0 <= i < |fields| ==> fields[i].0 != key
    ensures r.Some? ==> exists i :: 0 <= i < |fields| && fields[i] == (key, r.value)
  {
    if fields == [] then None
    else if fields[0].0 == key then Some(fields[0].1)
    else Lookup(fields[1..], key)
  }

  /** A key not used by any earlier pair finds that pair's value. */
  lemma {:induction false} LookupFirst(fields: Fields, k: nat)
    requires k < |fields| && forall j :: 0 <= j < k ==> fields[j].0 != fields[k].0
    ensures Lookup(fields, fields[k].0) == Some(fields[k].1)
  {
    if k > 0 {
      LookupFirst(fields[1..], k - 1);
    }
  }

  /** `d[key] = v` on a Python dict: an existing key keeps its place and takes the new value, a new key goes last. */
  function DictSet(d: Fields, key: string, v: Value): (r: Fields)
    ensures Lookup(r, key) == Some(v)
  {
    if d == [] then [(key, v)]
    else if d[0].0 == key then [(key, v)] + d[1..]
    else [d[0]] + DictSet(d[1..], key, v)
  }

  /** Assigning one key leaves every other key's value as it was. */
  lemma {:induction false} DictSetOtherKeys(d: Fields, key: string, v: Value, k: string)
    requires k != key
    ensures Lookup(DictSet(d, key, v), k) == Lookup(d, k)
  {
    if d != [] && d[0].0 != key {
      DictSetOtherKeys(d[1..], key, v, k);
      var t := DictSet(d[1..], key, v);
      assert ([d[0]] + t)[1..] == t;
    } else if d != [] {
      assert ([(key, v)] + d[1..])[1..] == d[1..];
    }
  }

  /** Assigning keeps the key order: an existing key stays in its place, a new key goes last. */
  lemma DictSetKeys(d: Fields, key: string, v: Value)
    ensures Keys(DictSet(d, key, v)) == if Lookup(d, key).Some? then Keys(d) else Keys(d) + [key]
  {
    if Lookup(d, key).Some? {
      DictSetKeepsKeys(d, key, v);
    } else {
      AppendNew(d, key, v);
      assert Keys(d + [(key, v)]) == Keys(d) + [key];
    }
  }

  lemma {:induction false} DictSetKeepsKeys(d: Fields, key: string, v: Value)
    requires Lookup(d, key).Some?
    ensures Keys(DictSet(d, key, v)) == Keys(d)
  {
    if d[0].0 == key {
      KeysCons((key, v), d[1..]);
      KeysCons(d[0], d[1..]);
      assert [d[0]] + d[1..] == d;
    } else {
      var t := DictSet(d[1..], key, v);
      DictSetKeepsKeys(d[1..], key, v);
      KeysCons(d[0], t);
      KeysCons(d[0], d[1..]);
      assert [d[0]] + d[1..] == d;
    }
  }

  lemma KeysCons(p: (string, Value), t: Fields)
    ensures Keys([p] + t) == [p.0] + Keys(t)
  {
    assert ([p] + t)[1..] == t;
  }

  /** `dict(zip(keys, vals))`: pairs up to the shorter side, later duplicates overwrite earlier ones. */
  function DictZip(keys: seq<string>, vals: seq<Value>): Fields
  {
    DictZipInto([], keys, vals)
  }

  function DictZipInto(d: Fields, keys: seq<string>, vals: seq<Value>): Fields
    decreases |keys|
  {
    if keys == [] || vals == [] then d
    else DictZipInto(DictSet(d, keys[0], vals[0]), keys[1..], vals[1..])
  }

  /** The pairs `zip` yields: one per position of the shorter side. */
  function Zip(keys: seq<string>, vals: seq<Value>): (r: Fields)
    ensures |r| == if |keys| < |vals| then |keys| else |vals|
    ensures forall i :: 0 <= i < |r| ==> r[i] == (keys[i], vals[i])
  {
    if keys == [] || vals == [] then [] else [(keys[0], vals[0])] + Zip(keys[1..], vals[1..])
  }

  /** With distinct keys, `dict(zip(keys, vals))` is exactly the zipped pairs, in key order. */
  lemma {:induction false} DictZipDistinct(keys: seq<string>, vals: seq<Value>)
    requires forall i, j :: 0 <= i < j < |keys| ==> keys[i] != keys[j]
    ensures DictZip(keys, vals) == Zip(keys, vals)
  {
    DictZipIntoDistinct([], keys, vals);
  }

  lemma {:induction false} DictZipIntoDistinct(d: Fields, keys: seq<string>, vals: seq<Value>)
    requires forall i, j :: 0 <= i < j < |keys| ==> keys[i] != keys[j]
    requires forall i, j :: 0 <= i < |d| && 0 <= j < |keys| ==> d[i].0 != keys[j]
    ensures DictZipInto(d, keys, vals) == d + Zip(keys, vals)
    decreases |keys|
  {
    if keys == [] || vals == [] {
    } else {
      var d', ks, vs := d + [(keys[0], vals[0])], keys[1..], vals[1..];
      assert DictSet(d, keys[0], vals[0]) == d' by {
        AppendNew(d, keys[0], vals[0]);
      }
      assert DictZipInto(d', ks, vs) == d' + Zip(ks, vs) by {
        DistinctAfterFirst(d, keys, vals[0]);
        DictZipIntoDistinct(d', ks, vs);
      }
      assert Zip(keys, vals) == [(keys[0], vals[0])] + Zip(ks, vs);
      AppendAssoc(d, [(keys[0], vals[0])], Zip(ks, vs));
    }
  }

  /** The keys of the zipped pairs are the keys themselves when there are enough values. */
  lemma KeysOfZip(keys: seq<string>, vals: seq<Value>)
    requires |keys| <= |vals|
    ensures Keys(Zip(keys, vals)) == keys
  {
  }

  /** Concatenation regrouped, stated apart so that no other sequence facts are in scope. */
  lemma AppendAssoc(a: Fields, b: Fields, c: Fields)
    ensures (a + b) + c == a + (b + c)
  {
  }

  /** Moving the first key into the dict keeps the remaining keys distinct and new. */
  lemma DistinctAfterFirst(d: Fields, keys: seq<string>, v: Value)
    requires keys != []
    requires forall i, j :: 0 <= i < j < |keys| ==> keys[i] != keys[j]
    requires forall i, j :: 0 <= i < |d| && 0 <= j < |keys| ==> d[i].0 != keys[j]
    ensures forall i, j :: 0 <= i < j < |keys[1..]| ==> keys[1..][i] != keys[1..][j]
    ensures forall i, j :: 0 <= i < |d + [(keys[0], v)]| && 0 <= j < |keys[1..]| ==> (d + [(keys[0], v)])[i].0 != keys[1..][j]
  {
    var d', ks := d + [(keys[0], v)], keys[1..];
    forall i, j | 0 <= i < j < |ks|
      ensures ks[i] != ks[j]
    {
      assert ks[i] == keys[i + 1] && ks[j] == keys[j + 1];
    }
    forall i, j | 0 <= i < |d'| && 0 <= j < |ks|
      ensures d'[i].0 != ks[j]
    {
      assert ks[j] == keys[j + 1];
    }
  }

  lemma {:induction false} AppendNew(d: Fields, key: string, v: Value)
    requires forall i :: 0 <= i < |d| ==> d[i].0 != key
    ensures DictSet(d, key, v) == d + [(key, v)]
  {
    if d != [] {
      assert d[0].0 != key;
      AppendNew(d[1..], key, v);
      calc {
        DictSet(d, key, v);
        [d[0]] + DictSet(d[1..], key, v);
        [d[0]] + (d[1..] + [(key, v)]);
        { AppendAssoc([d[0]], d[1..], [(key, v)]); }
        ([d[0]] + d[1..]) + [(key, v)];
        { assert [d[0]] + d[1..] == d; }
        d + [(key, v)];
      }
    }
  }

  /** The decimal digit for 0..9. */
  function DigitChar(d: int): char
    requires 0 <= d < 10
  {
    "0123456789"[d]
  }

  predicate IsDigit(c: char) { '0' <= c <= '9' }

  function DigitValue(c: char): int
    requires IsDigit(c)
  {
    c as int - '0' as int
  }

  /** Python's `str(n)` and JavaScript's `String(n)` for an integer: base 10, leading '-' for negatives. */
  function DecimalText(n: int): (s: string)
    ensures |s| > 0
  {
    if n < 0 then "-" + Digits(-n) else Digits(n)
  }

  function Digits(n: nat): (s: string)
    ensures |s| > 0 && forall i :: 0 <= i < |s| ==> IsDigit(s[i])
  {
    if n < 10 then [DigitChar(n)] else Digits(n / 10) + [DigitChar(n % 10)]
  }

  /** The number a non-empty string of decimal digits denotes. */
  function DigitsValue(s: string): (n: nat)
    requires forall i :: 0 <= i < |s| ==> IsDigit(s[i])
  {
    if s == [] then 0 else 10 * DigitsValue(s[..|s| - 1]) + DigitValue(s[|s| - 1])
  }

  lemma {:induction false} DigitsRoundTrip(n: nat)
    ensures DigitsValue(Digits(n)) == n
  {
    if n >= 10 {
      DigitsRoundTrip(n / 10);
      var s := Digits(n);
      assert s[..|s| - 1] == Digits(n / 10);
    }
  }
}
