/**
 * Values of the JavaScript runtime that the analysis code relies on:
 * optional values, numbers that may be NaN, and the few string
 * operations the feedback templates use.
 */
module JsValues {

  datatype Option<T> = None | Some(value: T)

  /**
   * A JavaScript number as the analysis code can produce it. Every division
   * in the core is either by a positive count or `0 / 0` over an empty list,
   * so the only non-finite value that can arise is NaN.
   */
  datatype Number = NaN | Num(value: real)

  /** JavaScript `a / b`, for the divisions of the core, where `b` is 0 only if `a` is. */
  function Divide(a: real, b: real): (r: Number)
    requires b == 0.0 ==> a == 0.0
    ensures r.NaN? <==> b == 0.0
    ensures r.Num? ==> r.value * b == a
  {
    if b == 0.0 then NaN else Num(a / b)
  }

  /** JavaScript `x * k`: NaN stays NaN. */
  function Scale(x: Number, k: real): (r: Number)
    ensures r.NaN? <==> x.NaN?
    ensures r.Num? ==> r.value == x.value * k
  {
    match x
    case NaN => NaN
    case Num(v) => Num(v * k)
  }

  /** `(part / whole) * 100` undoes to `100 * part`, and lies in [0, 100] when `part` lies in [0, whole]. */
  lemma PercentBounds(part: real, whole: real)
    requires whole > 0.0
    ensures ((part / whole) * 100.0) * whole == 100.0 * part
    ensures 0.0 <= part <= whole ==> 0.0 <= (part / whole) * 100.0 <= 100.0
  {
    var q := part / whole;
    assert q * whole == part;
    if 0.0 <= part <= whole {
      assert q <= 1.0;
    }
  }

  /** JavaScript `(part / whole) * 100` for a `whole` that is 0 only when `part` is. */
  function Percent(part: real, whole: real): (r: Number)
    requires whole >= 0.0 && (whole == 0.0 ==> part == 0.0)
    ensures r.NaN? <==> whole == 0.0
    ensures r.Num? ==> r.value * whole == 100.0 * part
    ensures r.Num? && 0.0 <= part <= whole ==> 0.0 <= r.value <= 100.0
  {
    if whole == 0.0 then NaN
    else
      PercentBounds(part, whole);
      Num((part / whole) * 100.0)
  }

  /** A percentage is 100 exactly for the whole and 0 exactly for nothing. */
  lemma PercentExtremes(part: real, whole: real)
    requires whole > 0.0
    ensures Percent(part, whole) == Num(100.0) <==> part == whole
    ensures Percent(part, whole) == Num(0.0) <==> part == 0.0
  {
    var v := Percent(part, whole).value;
    assert v * whole == 100.0 * part;
    if part == whole {
      assert (v - 100.0) * whole == 0.0;
    }
    if part == 0.0 {
      assert v * whole == 0.0;
    }
  }

  /** JavaScript `x >= t`; every comparison with NaN is false. */
  predicate AtLeast(x: Number, t: real) {
    x.Num? && x.value >= t
  }

  /** JavaScript `x < t`. */
  predicate Below(x: Number, t: real) {
    x.Num? && x.value < t
  }

  /** JavaScript `x > y`. */
  predicate Above(x: Number, y: Number) {
    x.Num? && y.Num? && x.value > y.value
  }

  /** `String.prototype.toLowerCase` restricted to the ASCII letters. */
  function LowerChar(c: char): char {
    if 'A' <= c <= 'Z' then (c as int + 32) as char else c
  }

  /** Upper-case ASCII letters become lower case; no other character changes. */
  function ToLower(s: string): (r: string)
    ensures |r| == |s|
    ensures forall i :: 0 <= i < |s| ==> !('A' <= r[i] <= 'Z')
    ensures forall i :: 0 <= i < |s| && !('A' <= s[i] <= 'Z') ==> r[i] == s[i]
    ensures forall i :: 0 <= i < |s| && 'A' <= s[i] <= 'Z' ==> r[i] as int - s[i] as int == 'a' as int - 'A' as int
  {
    seq(|s|, i requires 0 <= i < |s| => LowerChar(s[i]))
  }

  /** Lowercasing twice is lowercasing once. */
  lemma LowerIdempotent(s: string)
    ensures ToLower(ToLower(s)) == ToLower(s)
  {
  }

  /** `tags.map(tag => tag.toLowerCase())`. */
  function LowerAll(ss: seq<string>): seq<string> {
    seq(|ss|, i requires 0 <= i < |ss| => ToLower(ss[i]))
  }

  /** `Array.prototype.join(sep)` on strings. */
  function Join(ss: seq<string>, sep: string): string
  {
    if |ss| == 0 then ""
    else if |ss| == 1 then ss[0]
    else ss[0] + sep + Join(ss[1..], sep)
  }

  /** A join whose first item is non-empty is non-empty. */
  lemma JoinNonEmpty(ss: seq<string>, sep: string)
    requires ss != [] && ss[0] != ""
    ensures Join(ss, sep) != ""
  {
    if |ss| > 1 {
      assert Join(ss, sep) == ss[0] + sep + Join(ss[1..], sep);
    }
  }

  predicate StartsWith(s: string, prefix: string) {
    |prefix| <= |s| && s[..|prefix|] == prefix
  }
}
