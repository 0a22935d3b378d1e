/**
 * The part of JavaScript's value model the application relies on:
 * truthiness, optional chaining, `||`, and string conversion.
 */
module Js {

  /** A JavaScript value. Numbers are integers (no NaN, no fractions). */
  datatype Value =
    | Undefined
    | Null
    | Bool(b: bool)
    | Num(n: int)
    | Str(s: string)
    | Arr(elems: seq<Value>)
    | Obj(fields: map<string, Value>)

  /** JavaScript's ToBoolean: `undefined`, `null`, `false`, `0` and `''` are falsy. */
  predicate Truthy(v: Value)
  {
    match v
    case Undefined => false
    case Null => false
    case Bool(b) => b
    case Num(n) => n != 0
    case Str(s) => s != ""
    case Arr(_) => true
    case Obj(_) => true
  }

  /** `v?.key`: a missing property, or a property of a non-object, reads as `undefined`. */
  function Get(v: Value, key: string): (r: Value)
    ensures v.Obj? && key in v.fields ==> r == v.fields[key]
    ensures !(v.Obj? && key in v.fields) ==> r == Undefined
  {
    if v.Obj? && key in v.fields then v.fields[key] else Undefined
  }

  /** `a || b`: the left operand when it is truthy, the right one otherwise. */
  function Or(a: Value, b: Value): (r: Value)
    ensures Truthy(a) ==> r == a
    ensures !Truthy(a) ==> r == b
  {
    if Truthy(a) then a else b
  }

  /** `a || b || ... || z` over a non-empty list of operands, grouped from the right. */
  function OrChain(xs: seq<Value>): (r: Value)
    requires |xs| > 0
    decreases |xs|
  {
    if |xs| == 1 then xs[0] else Or(xs[0], OrChain(xs[1..]))
  }

  /** The position `||` stops at: the first truthy operand, or the last operand. */
  function FirstTruthyIndex(xs: seq<Value>): (k: nat)
    requires |xs| > 0
    ensures k < |xs|
    ensures Truthy(xs[k]) || k == |xs| - 1
    ensures forall j :: 0 <= j < k ==> !Truthy(xs[j])
    decreases |xs|
  {
    if Truthy(xs[0]) || |xs| == 1 then 0 else 1 + FirstTruthyIndex(xs[1..])
  }

  /** An `||` chain evaluates to the operand at which it stops. */
  lemma {:induction false} OrChainIsFirstTruthy(xs: seq<Value>)
    requires |xs| > 0
    ensures OrChain(xs) == xs[FirstTruthyIndex(xs)]
    decreases |xs|
  {
    if |xs| > 1 && !Truthy(xs[0]) {
      OrChainIsFirstTruthy(xs[1..]);
    }
  }

  /** A four-operand chain, written out. */
  lemma OrChainOfFour(a: Value, b: Value, c: Value, d: Value)
    ensures OrChain([a, b, c, d]) == Or(a, Or(b, Or(c, d)))
  {
    assert OrChain([d]) == d;
    assert [c, d][1..] == [d];
    assert OrChain([c, d]) == Or(c, d);
    assert [b, c, d][1..] == [c, d];
    assert OrChain([b, c, d]) == Or(b, Or(c, d));
    assert [a, b, c, d][1..] == [b, c, d];
  }

  /** An object with one more property, as `{...m, key: v}` builds it. */
  function With(m: map<string, Value>, key: string, v: Value): (r: map<string, Value>)
    ensures key in r && r[key] == v
    ensures forall k :: k in m && k != key ==> k in r && r[k] == m[k]
    ensures r.Keys == m.Keys + {key}
  {
    m[key := v]
  }

  /**
   * The own enumerable properties that `{...v}` copies: an array gives its
   * elements and a string its one-character strings, under their decimal
   * indices; `undefined`, `null`, booleans and numbers give none.
   */
  function SpreadFields(v: Value): (r: map<string, Value>)
    ensures v.Obj? ==> r == v.fields
    ensures v.Arr? ==> forall i :: 0 <= i < |v.elems| ==> NatToString(i) in r && r[NatToString(i)] == v.elems[i]
    ensures v.Str? ==> forall i :: 0 <= i < |v.s| ==> NatToString(i) in r && r[NatToString(i)] == Str([v.s[i]])
    ensures !v.Obj? && !v.Arr? && !v.Str? ==> r == map[]
  {
    match v
    case Obj(m) => m
    case Arr(xs) => IndexEntries(xs, |xs|)
    case Str(s) => IndexEntries(Characters(s), |s|)
    case _ => map[]
  }

  /** The characters of `s`, each as a string of its own. */
  function Characters(s: string): (r: seq<Value>)
    ensures |r| == |s|
    ensures forall i :: 0 <= i < |s| ==> r[i] == Str([s[i]])
  {
    seq(|s|, i requires 0 <= i < |s| => Str([s[i]]))
  }

  /** The first `n` elements of `xs`, keyed by their decimal index. */
  function IndexEntries(xs: seq<Value>, n: nat): (r: map<string, Value>)
    requires n <= |xs|
    ensures forall i :: 0 <= i < n ==> NatToString(i) in r && r[NatToString(i)] == xs[i]
    decreases n
  {
    if n == 0 then map[]
    else
      var prev := IndexEntries(xs, n - 1);
      var r := prev[NatToString(n - 1) := xs[n - 1]];
      assert forall i :: 0 <= i < n - 1 ==> NatToString(i) != NatToString(n - 1) by {
        forall i | 0 <= i < n - 1 ensures NatToString(i) != NatToString(n - 1) {
          if NatToString(i) == NatToString(n - 1) { NatToStringInjective(i, n - 1); }
        }
      }
      r
  }

  /** One decimal digit. */
  function Digit(d: nat): (c: char)
    requires d < 10
    ensures '0' <= c <= '9'
    ensures c as int - '0' as int == d
  {
    ['0', '1', '2', '3', '4', '5', '6', '7', '8', '9'][d]
  }

  /** Decimal notation of a natural number, without leading zeros. */
  function NatToString(n: nat): (s: string)
    ensures |s| > 0
    ensures forall i :: 0 <= i < |s| ==> '0' <= s[i] <= '9'
    ensures n == 0 <==> s == "0"
    ensures n > 0 ==> s[0] != '0'
    decreases n
  {
    if n < 10 then [Digit(n)] else NatToString(n / 10) + [Digit(n % 10)]
  }

  /** Reading a decimal string back: the inverse of NatToString. */
  function DecimalValue(s: string): (n: nat)
    requires forall i :: 0 <= i < |s| ==> '0' <= s[i] <= '9'
    decreases |s|
  {
    if s == [] then 0 else 10 * DecimalValue(s[..|s| - 1]) + (s[|s| - 1] as int - '0' as int)
  }

  lemma {:induction false} DecimalValueOfNatToString(n: nat)
    ensures DecimalValue(NatToString(n)) == n
    decreases n
  {
    var s := NatToString(n);
    if n >= 10 {
      DecimalValueOfNatToString(n / 10);
      assert s[..|s| - 1] == NatToString(n / 10);
    }
  }

  lemma NatToStringInjective(a: nat, b: nat)
    requires NatToString(a) == NatToString(b)
    ensures a == b
  {
    DecimalValueOfNatToString(a);
    DecimalValueOfNatToString(b);
  }

  /** Decimal notation of an integer, `-` for negatives. */
  function IntToString(n: int): (s: string)
    ensures |s| > 0
    ensures n >= 0 ==> s == NatToString(n)
    ensures n < 0 ==> s == "-" + NatToString(-n)
  {
    if n < 0 then "-" + NatToString(-n) else NatToString(n)
  }

  /**
   * `String(v)`, as a template literal converts a value. `new Error(v)`
   * converts its argument the same way except for `undefined`, which gives
   * the empty message; the application never passes `undefined` to it.
   */
  function StringOf(v: Value): (s: string)
    ensures v.Str? ==> s == v.s
    ensures v == Undefined ==> s == "undefined"
    ensures v == Null ==> s == "null"
  {
    match v
    case Undefined => "undefined"
    case Null => "null"
    case Bool(b) => if b then "true" else "false"
    case Num(n) => IntToString(n)
    case Str(s) => s
    case Arr(xs) => JoinElements(xs)
    case Obj(_) => "[object Object]"
  }

  /** `Array.prototype.join(',')`, where `null` and `undefined` elements print as empty. */
  function JoinElements(xs: seq<Value>): (s: string)
    decreases xs
  {
    if xs == [] then ""
    else
      var head := if xs[0] == Undefined || xs[0] == Null then "" else StringOf(xs[0]);
      if |xs| == 1 then head else head + "," + JoinElements(xs[1..])
  }
}
