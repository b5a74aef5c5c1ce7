/**
 * The two JavaScript numeric conversions the watched list relies on:
 * `Number(text)` applied to the provider's rating and runtime strings, and the
 * `average` helper that folds a list of numbers with `reduce`.
 *
 * Numbers are exact reals here; floating-point rounding is not modelled. NaN,
 * which the source can produce and then propagate through `average`, is a
 * constructor of its own.
 */
module JsNumber {

  /** A JavaScript number: NaN or a (finite) value. */
  datatype Number = NaN | Num(value: real)

  predicate IsDigit(c: char) { '0' <= c <= '9' }

  predicate AllDigits(s: string) { forall i :: 0 <= i < |s| ==> IsDigit(s[i]) }

  /** The value of a decimal numeral, most significant digit first. */
  function DigitsValue(s: string): nat
    requires AllDigits(s)
  {
    if s == [] then 0 else 10 * DigitsValue(s[..|s| - 1]) + ((s[|s| - 1] as int) - ('0' as int))
  }

  function Pow10(n: nat): (p: nat)
    ensures p >= 1
  {
    if n == 0 then 1 else 10 * Pow10(n - 1)
  }

  /** Index of the first `c` in `s`, or `|s|` when there is none. */
  function IndexOf(s: string, c: char): (i: nat)
    ensures i <= |s|
    ensures forall j :: 0 <= j < i ==> s[j] != c
    ensures i < |s| ==> s[i] == c
  {
    if s == [] then 0 else if s[0] == c then 0 else 1 + IndexOf(s[1..], c)
  }

  /**
   * `s.split(" ").at(0)`: the text before the first space, or all of `s` when
   * it has no space (splitting "" yields [""], so the result is then "").
   */
  function FirstField(s: string): (r: string)
    ensures r <= s
    ensures ' ' !in r
    ensures |r| < |s| ==> s[|r|] == ' '
  {
    s[..IndexOf(s, ' ')]
  }

  /**
   * `Number(s)` for the numerals the provider sends: the empty string is 0,
   * digits with at most one decimal point (and at least one digit) are their
   * decimal value, anything else is NaN.
   */
  function ToNumber(s: string): (n: Number)
    ensures s == "" ==> n == Num(0.0)
    ensures n.Num? ==> n.value >= 0.0
    ensures (exists i :: 0 <= i < |s| && s[i] != '.' && !IsDigit(s[i])) ==> n == NaN
  {
    if s == "" then Num(0.0)
    else
      var dot := IndexOf(s, '.');
      Numeral(s[..dot], if dot < |s| then s[dot + 1..] else "")
  }

  /**
   * The number written with `whole` before the decimal point and `frac` after
   * it, or NaN when either part has a non-digit or both are empty.
   */
  function Numeral(whole: string, frac: string): (n: Number)
    ensures n.Num? ==> n.value >= 0.0
  {
    if AllDigits(whole) && AllDigits(frac) && (whole != "" || frac != "") then
      Num(DigitsValue(whole) as real + DigitsValue(frac) as real / Pow10(|frac|) as real)
    else
      NaN
  }

  /** `Number(runtime.split(" ").at(0))`: the runtime stored with a watched movie. */
  function ParseRuntime(runtime: string): (n: Number)
    ensures ' ' !in runtime ==> n == ToNumber(runtime)
    ensures n.Num? ==> n.value >= 0.0
  {
    var field := FirstField(runtime);
    assert ' ' !in runtime ==> |field| == |runtime| && field == runtime;
    ToNumber(field)
  }

  /** A plain digit string converts to its decimal value. */
  lemma ToNumberOfDigits(s: string)
    requires AllDigits(s) && s != ""
    ensures ToNumber(s) == Num(DigitsValue(s) as real)
  {
    var dot := IndexOf(s, '.');
    assert dot < |s| ==> IsDigit(s[dot]);
    assert dot == |s|;
    assert s[..dot] == s;
    assert DigitsValue("") as real / Pow10(0) as real == 0.0;
  }

  /**
   * A numeral with a decimal point, such as the rating "8.8", converts to its
   * whole part plus its fraction digits scaled down by their count.
   */
  /** In digits followed by a point, the first point is the one after the digits. */
  lemma PointAfterDigits(whole: string, rest: string)
    requires AllDigits(whole) && rest != [] && rest[0] == '.'
    ensures IndexOf(whole + rest, '.') == |whole|
  {
    var s := whole + rest;
    var dot := IndexOf(s, '.');
    assert s[|whole|] == '.';
    assert dot < |whole| ==> s[dot] == whole[dot] && IsDigit(s[dot]);
  }

  /** Text with a point after a digit run converts the parts around that point. */
  lemma ToNumberAtPoint(whole: string, frac: string)
    requires AllDigits(whole)
    ensures ToNumber(whole + "." + frac) == Numeral(whole, frac)
  {
    var s := whole + "." + frac;
    assert s == whole + ("." + frac);
    PointAfterDigits(whole, "." + frac);
    assert s[..|whole|] == whole && s[|whole| + 1..] == frac;
  }

  lemma ToNumberOfDecimal(whole: string, frac: string)
    requires AllDigits(whole) && AllDigits(frac) && (whole != "" || frac != "")
    ensures ToNumber(whole + "." + frac) ==
            Num(DigitsValue(whole) as real + DigitsValue(frac) as real / Pow10(|frac|) as real)
  {
    ToNumberAtPoint(whole, frac);
  }

  /** The usual rating text. */
  lemma RatingOfDecimal()
    ensures ToNumber("8.8") == Num(8.8)
  {
    ToNumberOfDecimal("8", "8");
    assert "8" + "." + "8" == "8.8";
  }

  /** Text with two decimal points is not a numeral: it converts to NaN. */
  lemma ToNumberTwoPoints(s: string, i: nat, j: nat)
    requires i < j < |s| && s[i] == '.' && s[j] == '.'
    ensures ToNumber(s) == NaN
  {
    var dot := IndexOf(s, '.');
    assert dot <= i;
    var frac := s[dot + 1..];
    assert frac[j - dot - 1] == '.';
  }

  /** The decimal numeral of `n`, the way the provider writes a runtime. */
  function NatToString(n: nat): string
  {
    if n < 10 then [('0' as int + n) as char]
    else NatToString(n / 10) + [('0' as int + n % 10) as char]
  }

  lemma {:induction false} NatToStringValue(n: nat)
    ensures NatToString(n) != ""
    ensures AllDigits(NatToString(n))
    ensures ' ' !in NatToString(n)
    ensures DigitsValue(NatToString(n)) == n
  {
    var s := NatToString(n);
    if n >= 10 {
      NatToStringValue(n / 10);
      var p := NatToString(n / 10);
      assert s[..|s| - 1] == p;
      assert forall i :: 0 <= i < |s| ==> IsDigit(s[i]) by {
        forall i | 0 <= i < |s| ensures IsDigit(s[i]) {
          if i < |p| { assert s[i] == p[i]; }
        }
      }
    }
  }

  /**
   * A runtime written "<n> <unit>" (for instance "148 min") is stored as n:
   * the number formed by the text before the first space.
   */
  lemma RuntimeRoundTrip(n: nat, unit: string)
    ensures ParseRuntime(NatToString(n) + " " + unit) == Num(n as real)
  {
    var digits := NatToString(n);
    NatToStringValue(n);
    var s := digits + " " + unit;
    assert s[|digits|] == ' ';
    assert s[..|digits|] == digits;
    assert FirstField(s) == digits;
    ToNumberOfDigits(digits);
  }

  /** The provider's usual runtime text. */
  lemma RuntimeOfMinutes()
    ensures ParseRuntime("148 min") == Num(148.0)
  {
    assert NatToString(14) == "14";
    assert NatToString(148) == "148";
    assert NatToString(148) + " " + "min" == "148 min";
    RuntimeRoundTrip(148, "min");
  }

  /** A runtime the provider does not know ("N/A") is stored as NaN. */
  lemma RuntimeUnknown()
    ensures ParseRuntime("N/A") == NaN
  {
  }

  /** `a + b`; NaN absorbs everything. */
  function Plus(a: Number, b: Number): Number
  {
    if a.NaN? || b.NaN? then NaN else Num(a.value + b.value)
  }

  /** `a / n` for a positive length `n`. */
  function DivideBy(a: Number, n: nat): Number
    requires n > 0
  {
    if a.NaN? then NaN else Num(a.value / n as real)
  }

  /** `xs.reduce((acc, cur) => acc + cur / len, acc)`. */
  function Reduce(acc: Number, xs: seq<Number>, len: nat): (r: Number)
    requires xs != [] ==> len > 0
    ensures xs == [] ==> r == acc
    ensures acc.NaN? || NaN in xs ==> r == NaN
    decreases |xs|
  {
    if xs == [] then acc else Reduce(Plus(acc, DivideBy(xs[0], len)), xs[1..], len)
  }

  /** `average(arr)`: each element divided by the length, summed from 0. */
  function Average(xs: seq<Number>): (r: Number)
    ensures xs == [] ==> r == Num(0.0)
  {
    Reduce(Num(0.0), xs, |xs|)
  }

  /** The plain sum of a list, the reference the average is compared with. */
  function Total(xs: seq<Number>): Number
  {
    if xs == [] then Num(0.0) else Plus(xs[0], Total(xs[1..]))
  }

  /** Dividing a sum by a positive length divides each summand. */
  lemma DivAdd(a: real, b: real, n: real)
    requires n > 0.0
    ensures (a + b) / n == a / n + b / n
  {
    assert a / n * n == a;
    assert b / n * n == b;
    assert (a / n + b / n) * n == a / n * n + b / n * n;
  }

  lemma {:induction false} ReduceIsScaledTotal(acc: Number, xs: seq<Number>, len: nat)
    requires len > 0
    ensures Reduce(acc, xs, len) == Plus(acc, DivideBy(Total(xs), len))
    decreases |xs|
  {
    if xs != [] {
      ReduceIsScaledTotal(Plus(acc, DivideBy(xs[0], len)), xs[1..], len);
      var t := Total(xs[1..]);
      if acc.Num? && xs[0].Num? && t.Num? {
        DivAdd(xs[0].value, t.value, len as real);
      }
    }
  }

  /**
   * The average of an empty list is 0; otherwise it is the total divided by
   * the length, which is NaN exactly when some element is NaN.
   */
  lemma AverageIsMean(xs: seq<Number>)
    ensures xs == [] ==> Average(xs) == Num(0.0)
    ensures xs != [] ==> Average(xs) == DivideBy(Total(xs), |xs|)
  {
    if xs != [] {
      ReduceIsScaledTotal(Num(0.0), xs, |xs|);
    }
  }

  lemma {:induction false} TotalNaN(xs: seq<Number>)
    ensures Total(xs) == NaN <==> NaN in xs
  {
    if xs != [] {
      TotalNaN(xs[1..]);
      assert xs == [xs[0]] + xs[1..];
    }
  }

  /** One unrated movie (NaN) makes the whole average NaN, and only then. */
  lemma AverageNaN(xs: seq<Number>)
    ensures Average(xs) == NaN <==> NaN in xs
  {
    AverageIsMean(xs);
    TotalNaN(xs);
  }

  /** `n * x`, written as repeated addition so that bounds proofs stay linear. */
  function Times(n: nat, x: real): real
  {
    if n == 0 then 0.0 else Times(n - 1, x) + x
  }

  lemma {:induction false} TotalBounds(xs: seq<Number>, lo: real, hi: real)
    requires forall i :: 0 <= i < |xs| ==> xs[i].Num? && lo <= xs[i].value <= hi
    ensures Total(xs).Num?
    ensures Times(|xs|, lo) <= Total(xs).value <= Times(|xs|, hi)
  {
    if xs != [] {
      TotalBounds(xs[1..], lo, hi);
    }
  }

  lemma {:induction false} TimesIsProduct(n: nat, x: real)
    ensures Times(n, x) == n as real * x
  {
    if n > 0 {
      TimesIsProduct(n - 1, x);
    }
  }

  lemma MeanBounds(t: real, n: nat, lo: real, hi: real)
    requires n > 0 && Times(n, lo) <= t <= Times(n, hi)
    ensures lo <= t / n as real <= hi
  {
    TimesIsProduct(n, lo);
    TimesIsProduct(n, hi);
    assert (t / n as real) * n as real == t;
  }

  lemma MeanOfBounded(xs: seq<Number>, lo: real, hi: real)
    requires xs != []
    requires forall i :: 0 <= i < |xs| ==> xs[i].Num? && lo <= xs[i].value <= hi
    ensures DivideBy(Total(xs), |xs|).Num?
    ensures lo <= DivideBy(Total(xs), |xs|).value <= hi
  {
    TotalBounds(xs, lo, hi);
    MeanBounds(Total(xs).value, |xs|, lo, hi);
  }

  /**
   * When every value lies in [lo, hi] (user ratings between 0 and 10, say),
   * so does their average.
   */
  lemma AverageBounds(xs: seq<Number>, lo: real, hi: real)
    requires xs != []
    requires forall i :: 0 <= i < |xs| ==> xs[i].Num? && lo <= xs[i].value <= hi
    ensures Average(xs).Num?
    ensures lo <= Average(xs).value <= hi
  {
    AverageIsMean(xs);
    MeanOfBounded(xs, lo, hi);
  }
}
