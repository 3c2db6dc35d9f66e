/**
 * Answer-pattern analysis over the correctness sequence of a quiz, in
 * submission order: the longest runs of correct and incorrect answers,
 * a trend read from the means of the two halves, and a consistency label
 * read from the variance of the 0/1 sequence.
 */
module AnswerPattern {
  import opened JsValues

  // ---------------------------------------------------------------- streaks

  /** `s[i..j]` consists of `v` only. */
  predicate IsRun(s: seq<bool>, v: bool, i: int, j: int) {
    0 <= i <= j <= |s| && forall k :: i <= k < j ==> s[k] == v
  }

  /** `m` is the length of the longest run of `v` that ends at or before position `n`. */
  ghost predicate LongestRunUpTo(s: seq<bool>, v: bool, n: int, m: nat) {
    && (exists i, j :: IsRun(s, v, i, j) && j <= n && j - i == m)
    && (forall i, j :: IsRun(s, v, i, j) && j <= n ==> j - i <= m)
  }

  /** `m` is the length of the longest run of `v` in `s`. */
  ghost predicate LongestRun(s: seq<bool>, v: bool, m: nat) {
    LongestRunUpTo(s, v, |s|, m)
  }

  /** The run of `v` that ends at position `n` has length exactly `c`. */
  predicate RunEndingAt(s: seq<bool>, v: bool, n: int, c: nat) {
    c <= n <= |s| && IsRun(s, v, n - c, n) && (c < n ==> s[n - c - 1] != v)
  }

  /**
   * `findStreaks`: one scan keeping the current correct and incorrect
   * counters and their maxima.
   */
  method FindStreaks(answers: seq<bool>) returns (maxCorrect: nat, maxIncorrect: nat)
    ensures LongestRun(answers, true, maxCorrect)
    ensures LongestRun(answers, false, maxIncorrect)
  {
    var currentCorrect, currentIncorrect := 0, 0;
    maxCorrect, maxIncorrect := 0, 0;
    assert IsRun(answers, true, 0, 0) && IsRun(answers, false, 0, 0);
    for k := 0 to |answers|
      invariant RunEndingAt(answers, true, k, currentCorrect)
      invariant RunEndingAt(answers, false, k, currentIncorrect)
      invariant LongestRunUpTo(answers, true, k, maxCorrect)
      invariant LongestRunUpTo(answers, false, k, maxIncorrect)
    {
      StepRuns(answers, k, true, currentCorrect, maxCorrect);
      StepRuns(answers, k, false, currentIncorrect, maxIncorrect);
      if answers[k] {
        currentCorrect := currentCorrect + 1;
        currentIncorrect := 0;
        if currentCorrect > maxCorrect {
          maxCorrect := currentCorrect;
        }
      } else {
        currentIncorrect := currentIncorrect + 1;
        currentCorrect := 0;
        if currentIncorrect > maxIncorrect {
          maxIncorrect := currentIncorrect;
        }
      }
    }
  }

  /** Any run of `v` ending at `n` lies within the run of `v` ending there. */
  lemma RunWithinLast(s: seq<bool>, v: bool, n: nat, c: nat, i: int)
    requires RunEndingAt(s, v, n, c) && IsRun(s, v, i, n)
    ensures n - i <= c
  {
    if c < n {
      assert s[n - c - 1] != v;
    }
  }

  /** One step of the scan keeps the loop's facts about the runs of `v`. */
  lemma StepRuns(s: seq<bool>, k: nat, v: bool, current: nat, longest: nat)
    requires k < |s|
    requires RunEndingAt(s, v, k, current) && LongestRunUpTo(s, v, k, longest)
    ensures var current' := if s[k] == v then current + 1 else 0;
      var longest' := if current' > longest then current' else longest;
      RunEndingAt(s, v, k + 1, current') && LongestRunUpTo(s, v, k + 1, longest')
  {
    var current' := if s[k] == v then current + 1 else 0;
    var longest' := if current' > longest then current' else longest;
    assert RunEndingAt(s, v, k + 1, current');
    if current' > longest {
      assert IsRun(s, v, k + 1 - current', k + 1);
    }
    forall i, j | IsRun(s, v, i, j) && j <= k + 1
      ensures j - i <= longest'
    {
      if j == k + 1 {
        RunWithinLast(s, v, k + 1, current', i);
      }
    }
  }

  /** The longest run is determined by the predicate: two lengths satisfying it agree. */
  lemma LongestRunUnique(s: seq<bool>, v: bool, a: nat, b: nat)
    requires LongestRun(s, v, a) && LongestRun(s, v, b)
    ensures a == b
  {
    var i, j :| IsRun(s, v, i, j) && j <= |s| && j - i == a;
    var i', j' :| IsRun(s, v, i', j') && j' <= |s| && j' - i' == b;
    assert a <= b && b <= a;
  }

  /**
   * A run of correct answers and a run of incorrect answers cannot overlap,
   * so the two longest streaks together fit in the sequence.
   */
  lemma {:induction false} StreaksFitTogether(s: seq<bool>, a: nat, b: nat)
    requires LongestRun(s, true, a) && LongestRun(s, false, b)
    ensures a <= |s| && b <= |s| && a + b <= |s|
  {
    var i, j :| IsRun(s, true, i, j) && j <= |s| && j - i == a;
    var i', j' :| IsRun(s, false, i', j') && j' <= |s| && j' - i' == b;
    if a > 0 && b > 0 {
      // The later of the two starts lies outside one of the runs.
      var k := if i < i' then i' else i;
      if k < |s| && s[k] {
        assert k >= j';
      } else {
        assert k >= j;
      }
    }
  }

  /** The longest correct streak is 0 exactly when no answer is correct. */
  lemma NoCorrectStreak(s: seq<bool>, a: nat)
    requires LongestRun(s, true, a)
    ensures a == 0 <==> forall k :: 0 <= k < |s| ==> !s[k]
  {
    if a == 0 {
      forall k | 0 <= k < |s| ensures !s[k] {
        if s[k] { assert IsRun(s, true, k, k + 1); }
      }
    } else {
      var i, j :| IsRun(s, true, i, j) && j <= |s| && j - i == a;
      assert s[i];
    }
  }

  // ------------------------------------------------------ trend and variance

  /** The pattern value of an answer: `a.isCorrect ? 1 : 0`. */
  function Bit(b: bool): real {
    if b then 1.0 else 0.0
  }

  /** The sum of the 0/1 pattern: the number of correct answers. */
  function Ones(s: seq<bool>): (r: nat)
    ensures r <= |s|
  {
    if |s| == 0 then 0 else (if s[0] then 1 else 0) + Ones(s[1..])
  }

  /** `pattern.reduce((a, b) => a + b, 0) / pattern.length`: NaN for an empty pattern. */
  function Mean(s: seq<bool>): (r: Number)
    ensures r.NaN? <==> s == []
    ensures r.Num? ==> r.value * (|s| as real) == Ones(s) as real
  {
    Divide(Ones(s) as real, |s| as real)
  }

  /** `pattern.reduce((a, b) => a + Math.pow(b - avg, 2), 0)`. */
  function SquaredDeviations(s: seq<bool>, avg: real): real {
    if |s| == 0 then 0.0
    else (Bit(s[0]) - avg) * (Bit(s[0]) - avg) + SquaredDeviations(s[1..], avg)
  }

  /** The population variance of the 0/1 pattern around its mean. */
  function Variance(s: seq<bool>): (r: Number)
    ensures r.NaN? <==> s == []
    ensures r.Num? ==> r.value * (|s| as real) == SquaredDeviations(s, Mean(s).value)
  {
    match Mean(s)
    case NaN => NaN
    case Num(avg) => Divide(SquaredDeviations(s, avg), |s| as real)
  }

  /** `isImproving`: the second half, from index `|s| / 2` on, has the higher mean. */
  function IsImproving(s: seq<bool>): (r: bool)
    ensures r ==> 2 <= |s|
  {
    var half := |s| / 2;
    assert |s| < 2 ==> s[..half] == [];
    Above(Mean(s[half..]), Mean(s[..half]))
  }

  /** `isConsistent`: the variance is below 1/4, which an empty pattern's NaN never is. */
  function IsConsistent(s: seq<bool>): (r: bool)
    ensures r ==> s != []
  {
    Below(Variance(s), 0.25)
  }

  datatype Trend = Improving | Consistent | Variable

  function TrendName(t: Trend): string {
    match t
    case Improving => "Improving"
    case Consistent => "Consistent"
    case Variable => "Variable"
  }

  /** `determinePattern`: Improving takes priority over the variance test. */
  function DeterminePattern(s: seq<bool>): (r: Trend)
    ensures |s| < 2 ==> r != Improving
    ensures s == [] ==> r == Variable
  {
    if IsImproving(s) then Improving
    else if IsConsistent(s) then Trend.Consistent
    else Variable
  }

  datatype Consistency = VeryConsistent | FairlyConsistent | SomewhatConsistent | Inconsistent

  /** The labels of the consistency levels; the second one reads "Consistent". */
  function ConsistencyName(c: Consistency): string {
    match c
    case VeryConsistent => "Very Consistent"
    case FairlyConsistent => "Consistent"
    case SomewhatConsistent => "Somewhat Consistent"
    case Inconsistent => "Inconsistent"
  }

  /** `calculateConsistency`: thresholds 0.1, 0.25 and 0.4 on the variance. */
  function CalculateConsistency(s: seq<bool>): (r: Consistency)
    ensures s == [] ==> r == Inconsistent
  {
    var variance := Variance(s);
    if Below(variance, 0.1) then VeryConsistent
    else if Below(variance, 0.25) then FairlyConsistent
    else if Below(variance, 0.4) then SomewhatConsistent
    else Inconsistent
  }

  /** For a 0/1 pattern, the squared deviations from `c` expand to `ones * (1 - 2c) + n * c * c`. */
  lemma {:induction false} SquaredDeviationsOfBits(s: seq<bool>, c: real)
    ensures SquaredDeviations(s, c) == (Ones(s) as real) * (1.0 - 2.0 * c) + (|s| as real) * c * c
  {
    if |s| > 0 {
      SquaredDeviationsOfBits(s[1..], c);
      assert (Bit(s[0]) - c) * (Bit(s[0]) - c) == Bit(s[0]) * (1.0 - 2.0 * c) + c * c;
    }
  }

  /**
   * The expansion at the mean `k / n`, divided by `n`, is `k * (n - k) / n^2`,
   * stated without the division.
   */
  lemma ExpansionAtMean(k: real, n: real, sd: real)
    requires n > 0.0
    requires sd == k * (1.0 - 2.0 * (k / n)) + n * (k / n) * (k / n)
    ensures Divide(sd, n).Num? && Divide(sd, n).value * (n * n) == k * n - k * k
  {
    var p := k / n;
    var v := sd / n;
    assert p * n == k;
    assert v * n == sd;
    assert n * p * p == k * p;
    assert v * n == k - k * p;
    assert (v * n) * n == k * n - (k * p) * n;
  }

  /** A value scaled by a positive `b` compares with `t` as its scaled form compares with `t * b`. */
  lemma ScaledBelow(v: real, a: real, b: real, t: real)
    requires b > 0.0 && v * b == a
    ensures v < t <==> a < t * b
  {
    if v < t {
      assert v * b < t * b;
    } else {
      assert t * b <= v * b;
    }
  }

  lemma ScaledAtMost(v: real, a: real, b: real, t: real)
    requires b > 0.0 && v * b == a
    ensures v <= t <==> a <= t * b
  {
    if v <= t {
      assert v * b <= t * b;
    } else {
      assert t * b < v * b;
    }
  }

  /** Scaling by a positive `b` keeps the sign. */
  lemma ScaledSign(v: real, a: real, b: real)
    requires b > 0.0 && v * b == a
    ensures v == 0.0 <==> a == 0.0
    ensures v >= 0.0 <==> a >= 0.0
  {
  }

  /** `int` products survive the conversion to `real`. */
  lemma CastProduct(a: int, b: int)
    ensures (a * b) as real == (a as real) * (b as real)
  {
  }

  lemma SquarePositive(d: int)
    requires d != 0
    ensures d * d > 0
  {
    if d > 0 {
      assert d * d > 0;
    } else {
      assert (-d) * (-d) > 0;
    }
  }

  /** `4 k (n - k) <= n^2`, with equality only at `n = 2 k`: the difference is `(n - 2 k)^2`. */
  lemma IntQuarter(k: int, n: int)
    ensures 4 * (k * (n - k)) <= n * n
    ensures 2 * k != n ==> 4 * (k * (n - k)) < n * n
  {
    var m := n - 2 * k;
    assert n * n - 4 * (k * (n - k)) == m * m;
    if m != 0 {
      SquarePositive(m);
    }
  }

  /** A value `v` with `v * b == a` for integers `0 <= 4 a <= b` lies in [0, 1/4]. */
  lemma ScaledQuarter(v: real, a: int, b: int)
    requires b > 0 && 0 <= a && 4 * a <= b && v * (b as real) == a as real
    ensures 0.0 <= v <= 0.25
    ensures v < 0.25 <==> 4 * a < b
    ensures v == 0.0 <==> a == 0
  {
    ScaledBelow(v, a as real, b as real, 0.25);
    ScaledAtMost(v, a as real, b as real, 0.25);
    ScaledSign(v, a as real, b as real);
  }

  /**
   * A value `v` with `v * n^2 == k * (n - k)`, the variance of `k` ones
   * among `n` bits, lies in [0, 1/4]; it is below 1/4 exactly when
   * `2 k != n`, and it is 0 when `k` is 0 or `n`.
   */
  lemma BitVarianceFacts(v: real, k: int, n: int, kr: real, nr: real)
    requires 0 <= k <= n && n > 0 && kr == k as real && nr == n as real
    requires v * (nr * nr) == kr * nr - kr * kr
    ensures 0.0 <= v <= 0.25
    ensures v < 0.25 <==> 2 * k != n
    ensures k == 0 || k == n ==> v == 0.0
  {
    CastProduct(n, n);
    CastProduct(k, n - k);
    IntQuarter(k, n);
    assert n * n > 0 && k * (n - k) >= 0;
    ScaledQuarter(v, k * (n - k), n * n);
  }

  /**
   * The variance of a non-empty 0/1 pattern with `k` ones out of `n` is
   * `v = k * (n - k) / n^2`, stated without the division.
   */
  lemma VarianceOfBits(s: seq<bool>) returns (v: real)
    requires |s| > 0
    ensures Variance(s) == Num(v)
    ensures var n := |s| as real; var k := Ones(s) as real; v * (n * n) == k * n - k * k
  {
    var n := |s| as real;
    var k := Ones(s) as real;
    var p := k / n;
    var sd := SquaredDeviations(s, p);
    SquaredDeviationsOfBits(s, p);
    ExpansionAtMean(k, n, sd);
    v := Divide(sd, n).value;
  }

  /**
   * The variance `v` of a non-empty 0/1 pattern lies in [0, 1/4]; it is
   * below 1/4 exactly when not half of the answers are correct, and it is 0
   * when all answers agree.
   */
  lemma VarianceBounds(s: seq<bool>) returns (v: real)
    requires |s| > 0
    ensures Variance(s) == Num(v)
    ensures 0.0 <= v <= 0.25
    ensures v < 0.25 <==> 2 * Ones(s) != |s|
    ensures Ones(s) == 0 || Ones(s) == |s| ==> v == 0.0
  {
    v := VarianceOfBits(s);
    BitVarianceFacts(v, Ones(s), |s|, Ones(s) as real, |s| as real);
  }

  /**
   * The consistency label of a non-empty pattern is never "Inconsistent",
   * is "Somewhat Consistent" exactly when half of the answers are correct,
   * and is "Very Consistent" when all answers agree. An empty pattern has a
   * NaN variance and is labelled "Inconsistent".
   */
  lemma ConsistencyLabels(s: seq<bool>)
    ensures |s| == 0 ==> CalculateConsistency(s) == Inconsistent
    ensures |s| > 0 ==> CalculateConsistency(s) != Inconsistent
    ensures |s| > 0 ==> (CalculateConsistency(s) == SomewhatConsistent <==> 2 * Ones(s) == |s|)
    ensures |s| > 0 && (Ones(s) == 0 || Ones(s) == |s|) ==> CalculateConsistency(s) == VeryConsistent
  {
    if |s| > 0 {
      var v := VarianceBounds(s);
    }
  }

  /** Two ratios with positive denominators compare as their cross products. */
  lemma CompareRatios(a: real, x: real, b: real, y: real)
    requires x > 0.0 && y > 0.0
    ensures a / x < b / y <==> a * y < b * x
  {
    var qa := a / x;
    var qb := b / y;
    var c := x * y;
    assert c > 0.0;
    assert a * y == qa * c && b * x == qb * c;
    if qa < qb {
      assert qa * c < qb * c;
    } else {
      assert qb * c <= qa * c;
    }
  }

  /** `a / x < b / y` for counts, compared as the integer cross products. */
  lemma CompareCountRatios(a: int, x: int, b: int, y: int)
    requires x > 0 && y > 0
    ensures (a as real) / (x as real) < (b as real) / (y as real) <==> a * y < b * x
  {
    CompareRatios(a as real, x as real, b as real, y as real);
    CastProduct(a, y);
    CastProduct(b, x);
  }

  /** Improving, compared without division: `ones(first) / h < ones(second) / (n - h)`. */
  lemma ImprovingCrossMultiplied(s: seq<bool>)
    requires |s| >= 2
    ensures var h := |s| / 2;
      IsImproving(s) <==> Ones(s[..h]) * (|s| - h) < Ones(s[h..]) * h
  {
    var h := |s| / 2;
    CompareCountRatios(Ones(s[..h]), h, Ones(s[h..]), |s| - h);
  }

  /**
   * The trend: Improving exactly when the second half has the higher mean,
   * never for fewer than two answers (the first half is then empty and its
   * mean is NaN); otherwise Consistent exactly when not half of the answers
   * are correct, and Variable when exactly half are. No answers give Variable.
   */
  lemma TrendRules(s: seq<bool>)
    ensures DeterminePattern(s) == Improving <==> IsImproving(s)
    ensures |s| < 2 ==> DeterminePattern(s) != Improving
    ensures |s| == 0 ==> DeterminePattern(s) == Variable
    ensures |s| > 0 && !IsImproving(s) ==>
      (DeterminePattern(s) == Trend.Consistent <==> 2 * Ones(s) != |s|)
    ensures |s| > 0 && !IsImproving(s) ==>
      (DeterminePattern(s) == Variable <==> 2 * Ones(s) == |s|)
  {
    if |s| > 0 {
      var v := VarianceBounds(s);
    }
    if |s| < 2 {
      assert s[..|s| / 2] == [];
    }
  }

  /** Two wrong answers followed by two right ones are improving. */
  lemma ImprovingExample()
    ensures DeterminePattern([false, false, true, true]) == Improving
  {
    var s := [false, false, true, true];
    assert s[..2] == [false, false] && s[2..] == [true, true];
  }

  /** All-correct and all-wrong answers are consistent and very consistent, not improving. */
  lemma UniformExamples()
    ensures DeterminePattern([true, true, true, true]) == Trend.Consistent
    ensures DeterminePattern([false, false, false, false]) == Trend.Consistent
    ensures CalculateConsistency([true, true, true, true]) == VeryConsistent
    ensures CalculateConsistency([false, false, false, false]) == VeryConsistent
  {
    var t := [true, true, true, true];
    var f := [false, false, false, false];
    assert t[..2] == [true, true] && t[2..] == [true, true];
    assert f[..2] == [false, false] && f[2..] == [false, false];
    var vt := VarianceBounds(t);
    var vf := VarianceBounds(f);
  }

  // ------------------------------------------------------------ the report

  datatype PatternReport = PatternReport(
    accuracy: Number,
    longestCorrectStreak: nat,
    longestIncorrectStreak: nat,
    pattern: Trend,
    consistency: Consistency)

  /** `(correct / total) * 100`: NaN for no answers, otherwise the percentage correct. */
  function Accuracy(answers: seq<bool>): (r: Number)
    ensures r.NaN? <==> answers == []
    ensures r.Num? ==>
      0.0 <= r.value <= 100.0 &&
      r.value * (|answers| as real) == 100.0 * (Ones(answers) as real)
  {
    Percent(Ones(answers) as real, |answers| as real)
  }

  /** `analyzeAnswerPattern` on the correctness of each answer, in order. */
  method AnalyzeAnswerPattern(answers: seq<bool>) returns (r: PatternReport)
    ensures r.accuracy == Accuracy(answers)
    ensures LongestRun(answers, true, r.longestCorrectStreak)
    ensures LongestRun(answers, false, r.longestIncorrectStreak)
    ensures r.longestCorrectStreak + r.longestIncorrectStreak <= |answers|
    ensures r.pattern == DeterminePattern(answers)
    ensures r.consistency == CalculateConsistency(answers)
  {
    var total := |answers|;
    var correct := Ones(answers);
    var maxCorrect, maxIncorrect := FindStreaks(answers);
    StreaksFitTogether(answers, maxCorrect, maxIncorrect);
    r := PatternReport(
      Percent(correct as real, total as real),
      maxCorrect,
      maxIncorrect,
      DeterminePattern(answers),
      CalculateConsistency(answers));
  }
}
