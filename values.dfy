/**
 * JSON values as the application keeps them in browser storage, and the few
 * JavaScript value rules the code relies on: truthiness, `a || b`,
 * `Math.round`, `Math.max`/`Math.min` clamping and number-to-text conversion.
 */
module Values {

  datatype Option<T> = None | Some(value: T)

  /** A JSON value (what JSON.parse can return). Numbers are exact reals. */
  datatype Field =
    | FNull
    | FBool(b: bool)
    | FNum(n: real)
    | FStr(s: string)
    | FList(elems: seq<Field>)
    | FObj(fields: map<string, Field>)

  /** A stored document: a JSON object. */
  type Record = map<string, Field>

  /** JavaScript truthiness of a JSON value: null, false, 0 and "" are falsy. */
  predicate Truthy(v: Field) {
    match v
    case FNull => false
    case FBool(b) => b
    case FNum(n) => n != 0.0
    case FStr(s) => s != ""
    case FList(_) => true
    case FObj(_) => true
  }

  /** The property `rec[name]`, or None when the record lacks it (JavaScript `undefined`). */
  function Prop(rec: Record, name: string): (r: Option<Field>)
    ensures r.Some? <==> name in rec
    ensures r.Some? ==> r.value == rec[name]
  {
    if name in rec then Some(rec[name]) else None
  }

  /** Whether `rec[name]` is truthy (an absent property is `undefined`, which is falsy). */
  predicate PropTruthy(rec: Record, name: string) {
    name in rec && Truthy(rec[name])
  }

  /**
   * JavaScript `a === b` on two property values (None is `undefined`).
   * Primitives compare by value; arrays and objects read from storage are
   * distinct references, so they are never strictly equal.
   */
  predicate StrictEquals(a: Option<Field>, b: Option<Field>) {
    match (a, b)
    case (None, None) => true
    case (Some(x), Some(y)) => x == y && !x.FList? && !x.FObj?
    case _ => false
  }

  /** `rec[name] || 0` for a numeric property; a non-numeric value counts as 0. */
  function Amount(rec: Record, name: string): (r: real)
    ensures name !in rec ==> r == 0.0
    ensures name in rec && rec[name].FNum? ==> r == rec[name].n
  {
    if name in rec && rec[name].FNum? then rec[name].n else 0.0
  }

  /** The text of a string property, or "" when it is absent or not a string. */
  function Text(rec: Record, name: string): string {
    if name in rec && rec[name].FStr? then rec[name].s else ""
  }

  /** `Math.round(x)`: the nearest integer, halves rounded up. */
  function Round(x: real): (r: int)
    ensures r as real - 0.5 <= x < r as real + 0.5
  {
    (x + 0.5).Floor
  }

  lemma RoundMonotone(x: real, y: real)
    requires x <= y
    ensures Round(x) <= Round(y)
  {
    assert Round(x) as real <= x + 0.5 <= y + 0.5 < Round(y) as real + 1.0;
  }

  lemma RoundOfInt(n: int)
    ensures Round(n as real) == n
  {
  }

  /** Rounding keeps a value inside an integer interval. */
  lemma RoundWithin(x: real, lo: int, hi: int)
    requires lo as real <= x <= hi as real
    ensures lo <= Round(x) <= hi
  {
    RoundMonotone(lo as real, x);
    RoundMonotone(x, hi as real);
    RoundOfInt(lo);
    RoundOfInt(hi);
  }

  /** `x.toFixed(digits)` read back as a number, for a non-negative scale 10^digits: halves round away from zero. */
  function ToFixed(x: real, scale: nat): (r: real)
    requires scale > 0
    ensures x >= 0.0 ==> r == Round(x * scale as real) as real / scale as real
    ensures x < 0.0 ==> r == -(Round(-x * scale as real) as real / scale as real)
  {
    if x < 0.0 then -(Round(-x * scale as real) as real / scale as real)
    else Round(x * scale as real) as real / scale as real
  }

  /** `Math.max(a, b)` on numbers. */
  function Max(a: real, b: real): (r: real)
    ensures r >= a && r >= b
    ensures r == a || r == b
  {
    if a >= b then a else b
  }

  /** `Math.min(hi, Math.max(lo, x))`. */
  function Clamp(x: int, lo: int, hi: int): (r: int)
    requires lo <= hi
    ensures lo <= r <= hi
    ensures lo <= x <= hi ==> r == x
    ensures x < lo ==> r == lo
    ensures x > hi ==> r == hi
  {
    if x < lo then lo else if x > hi then hi else x
  }

  lemma ClampMonotone(x: int, y: int, lo: int, hi: int)
    requires lo <= hi && x <= y
    ensures Clamp(x, lo, hi) <= Clamp(y, lo, hi)
  {
  }

  // ---------------------------------------------------------------------------
  // Decimal text of integers, as JavaScript prints an integer-valued number.

  function DigitChar(d: nat): (c: char)
    requires d < 10
    ensures '0' <= c <= '9'
  {
    "0123456789"[d]
  }

  function DigitValue(c: char): (d: nat)
    ensures d < 10
  {
    if '0' <= c <= '9' then (c as int - '0' as int) else 0
  }

  /** Digits of a natural number, most significant first, no leading zeros. */
  function NatText(n: nat): (s: string)
    ensures |s| > 0
    ensures forall i :: 0 <= i < |s| ==> '0' <= s[i] <= '9'
    ensures s[0] == '0' ==> n == 0
    decreases n
  {
    if n < 10 then [DigitChar(n)] else NatText(n / 10) + [DigitChar(n % 10)]
  }

  /** Integer text with a leading '-' for negatives. */
  function IntText(n: int): (s: string)
    ensures |s| > 0
    ensures (s[0] == '-') <==> n < 0
    ensures n >= 0 ==> '0' <= s[0] <= '9'
  {
    if n < 0 then "-" + NatText(-n) else NatText(n)
  }

  /** The value a string of decimal digits denotes. */
  function DigitsValue(s: string): nat
  {
    if s == [] then 0 else DigitsValue(s[..|s| - 1]) * 10 + DigitValue(s[|s| - 1])
  }

  lemma DigitRoundTrip(d: nat)
    requires d < 10
    ensures DigitValue(DigitChar(d)) == d
  {
    assert "0123456789"[d] as int - '0' as int == d;
  }

  /** Reading back the digits NatText prints gives the number. */
  lemma {:induction false} NatTextRoundTrip(n: nat)
    ensures DigitsValue(NatText(n)) == n
    decreases n
  {
    var s := NatText(n);
    if n < 10 {
      DigitRoundTrip(n);
      assert s[..|s| - 1] == [];
    } else {
      NatTextRoundTrip(n / 10);
      DigitRoundTrip(n % 10);
      assert s[..|s| - 1] == NatText(n / 10);
    }
  }

  /** Different numbers print differently. */
  lemma NatTextInjective(m: nat, n: nat)
    requires NatText(m) == NatText(n)
    ensures m == n
  {
    NatTextRoundTrip(m);
    NatTextRoundTrip(n);
  }

  /** The value of an integer text: a leading '-' negates the digits after it. */
  function IntValue(s: string): int {
    if |s| > 0 && s[0] == '-' then -(DigitsValue(s[1..]) as int) else DigitsValue(s)
  }

  /** Reading back the text IntText prints gives the integer. */
  lemma IntTextRoundTrip(n: int)
    ensures IntValue(IntText(n)) == n
  {
    if n < 0 {
      NegativeRoundTrip(n);
    } else {
      NatTextRoundTrip(n);
      assert IntValue(NatText(n)) == DigitsValue(NatText(n));
    }
  }

  /** The negative case of IntTextRoundTrip. */
  lemma NegativeRoundTrip(n: int)
    requires n < 0
    ensures IntValue(IntText(n)) == n
  {
    IntTextNeg(n);
    ValueOfNeg(NatText(-n));
    NatTextRoundTrip(-n);
  }

  /** A negative integer prints as a minus sign and the digits of its magnitude. */
  lemma IntTextNeg(n: int)
    requires n < 0
    ensures IntText(n) == "-" + NatText(-n)
  {
  }

  /** A leading minus sign negates the value of the digits after it. */
  lemma ValueOfNeg(d: string)
    ensures IntValue("-" + d) == -(DigitsValue(d) as int)
  {
    assert ("-" + d)[0] == '-' && ("-" + d)[1..] == d;
  }

  /** Different integers print differently. */
  lemma IntTextInjective(m: int, n: int)
    requires IntText(m) == IntText(n)
    ensures m == n
  {
    IntTextRoundTrip(m);
    IntTextRoundTrip(n);
  }

  /** `s.split(c)[0]`: the text before the first occurrence of c (all of s if there is none). */
  function Before(s: string, c: char): (r: string)
    ensures r <= s
    ensures c !in r
    ensures |r| < |s| ==> s[|r|] == c
  {
    if s == [] then [] else if s[0] == c then [] else [s[0]] + Before(s[1..], c)
  }
}
