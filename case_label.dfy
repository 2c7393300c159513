/**
 * The short case-count label drawn on each country marker by
 * `countryPointToLayer` (src/pages/index.js): the count is rendered as its
 * decimal string and then cut, not rounded, by dropping trailing digits.
 */
module CaseLabel {

  import opened Wrappers

  /** The character of one decimal digit. */
  function Digit(d: nat): (c: char)
    requires d < 10
    ensures '0' <= c <= '9' && c as int - '0' as int == d
  {
    "0123456789"[d]
  }

  predicate IsDigit(c: char) {
    '0' <= c <= '9'
  }

  /** JavaScript's `${n}` for a non-negative integer: its decimal string. */
  function Decimal(n: nat): (s: string)
    ensures |s| >= 1
    ensures forall i :: 0 <= i < |s| ==> IsDigit(s[i])
    ensures s[0] == '0' <==> n == 0
  {
    if n < 10 then [Digit(n)] else Decimal(n / 10) + [Digit(n % 10)]
  }

  /** The number a string of decimal digits denotes. */
  function DigitsValue(s: string): nat
    requires forall i :: 0 <= i < |s| ==> IsDigit(s[i])
  {
    if s == [] then 0
    else
      var last := s[|s| - 1];
      assert IsDigit(last);
      10 * DigitsValue(s[..|s| - 1]) + (last as int - '0' as int)
  }

  /** Reading back the decimal string gives the number again. */
  lemma {:induction false} DecimalRoundTrip(n: nat)
    ensures DigitsValue(Decimal(n)) == n
  {
    var s := Decimal(n);
    if n >= 10 {
      DecimalRoundTrip(n / 10);
      assert s[..|s| - 1] == Decimal(n / 10);
    } else {
      assert s[..|s| - 1] == [];
    }
  }

  /** Different counts get different decimal strings. */
  lemma DecimalInjective(m: nat, n: nat)
    requires Decimal(m) == Decimal(n)
    ensures m == n
  {
    DecimalRoundTrip(m);
    DecimalRoundTrip(n);
  }

  function Pow10(k: nat): (p: nat)
    ensures p >= 1
  {
    if k == 0 then 1 else 10 * Pow10(k - 1)
  }

  lemma MulAtLeast(a: nat, d: nat)
    requires a >= 1
    ensures a * d >= d
  {
  }

  lemma DivUnique(x: nat, d: nat, q: nat, r: nat)
    requires 0 <= r < d
    requires x == q * d + r
    ensures x / d == q
  {
    var q', r' := x / d, x % d;
    assert x == d * q' + r';
    if q' > q {
      assert (q' - q) * d == q' * d - q * d;
      MulAtLeast(q' - q, d);
    } else if q' < q {
      assert (q - q') * d == q * d - q' * d;
      MulAtLeast(q - q', d);
    }
  }

  /** Dividing by ten and then by `p` is dividing by `10 * p`. */
  lemma DivDiv(n: nat, p: nat)
    requires p >= 1
    ensures (n / 10) / p == n / (10 * p)
  {
    var q, r := n / (10 * p), n % (10 * p);
    assert n == q * (10 * p) + r;
    DivUnique(n, 10, p * q + r / 10, r % 10);
    DivUnique(n / 10, p, q, r / 10);
  }

  /**
   * Cutting the last `k` digits off the decimal string of a number with more
   * than `k` digits gives the decimal string of the number divided by 10^k.
   */
  lemma {:induction false} DropDigits(n: nat, k: nat)
    requires n >= Pow10(k)
    ensures |Decimal(n)| > k
    ensures Decimal(n)[..|Decimal(n)| - k] == Decimal(n / Pow10(k))
  {
    if k > 0 {
      var m := n / 10;
      assert m >= Pow10(k - 1);
      DropDigits(m, k - 1);
      DivDiv(n, Pow10(k - 1));
      var s, t := Decimal(n), Decimal(m);
      assert s == t + [Digit(n % 10)];
      assert s[..|s| - k] == t[..|t| - (k - 1)];
    }
  }

  /**
   * JavaScript's `s.slice(0, -k)` for `k > 0`: the end index counts back from
   * the end of `s` and is clamped at zero (`-0` would mean index 0 instead).
   */
  function DropLast(s: string, k: nat): (r: string)
    requires k > 0
    ensures |r| == if |s| >= k then |s| - k else 0
    ensures r <= s
  {
    s[..if |s| >= k then |s| - k else 0]
  }

  /**
   * The marker label of a known case count: over a million it is the
   * decimal string without its last six digits followed by "M+", over a
   * thousand without its last three digits followed by "k+", and otherwise
   * the plain decimal string.
   */
  function CaseLabel(cases: nat): (r: string)
    ensures cases > 1000000 ==> r == Decimal(cases / 1000000) + "M+"
    ensures 1000 < cases <= 1000000 ==> r == Decimal(cases / 1000) + "k+"
    ensures cases <= 1000 ==> r == Decimal(cases)
  {
    var s := Decimal(cases);
    if cases > 1000000 then
      DropDigits(cases, 6);
      DropLast(s, 6) + "M+"
    else if cases > 1000 then
      DropDigits(cases, 3);
      DropLast(s, 3) + "k+"
    else
      s
  }

  /**
   * The label for the `cases` property as the marker receives it: an absent
   * count renders as "undefined", and `undefined > 1000` is false, so no
   * suffix is added.
   */
  function MarkerLabel(cases: Option<nat>): (r: string)
    ensures cases.None? ==> r == "undefined"
    ensures cases.Some? && cases.value > 1000000 ==> r == Decimal(cases.value / 1000000) + "M+"
    ensures cases.Some? && 1000 < cases.value <= 1000000 ==> r == Decimal(cases.value / 1000) + "k+"
    ensures cases.Some? && cases.value <= 1000 ==> r == Decimal(cases.value)
  {
    match cases
    case None => "undefined"
    case Some(n) => CaseLabel(n)
  }

  /** The label keeps at most the leading digits and is never longer than the count's own string. */
  lemma LabelShape(cases: nat)
    ensures cases > 1000000 ==> |CaseLabel(cases)| == |Decimal(cases)| - 4
    ensures 1000 < cases <= 1000000 ==> |CaseLabel(cases)| == |Decimal(cases)| - 1
    ensures CaseLabel(cases)[0] == Decimal(cases)[0]
  {
  }

  /** Worked example: 1,234,567 is labelled "1M+". */
  lemma MillionsExample()
    ensures CaseLabel(1234567) == "1M+"
  {
  }

  /** Worked example: exactly one million is not over a million, so it is labelled "1000k+". */
  lemma MillionBoundaryExample()
    ensures CaseLabel(1000000) == "1000k+"
  {
  }

  /** Worked example: 12,345 is labelled "12k+". */
  lemma ThousandsExample()
    ensures CaseLabel(12345) == "12k+"
  {
  }

  /** Worked example: 999 is labelled "999". */
  lemma PlainExample()
    ensures CaseLabel(999) == "999"
  {
  }
}
