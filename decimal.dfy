/** The Python built-ins the calculator relies on, over Dafny strings:
    `str.replace`, `float(str)` on plain decimal literals, and the
    fixed-point format `f"{x:.2f}"`. */
module Decimal {

  datatype Option<T> = None | Some(value: T)

  predicate IsDigit(c: char) { '0' <= c <= '9' }

  predicate AllDigits(s: string) { forall i :: 0 <= i < |s| ==> IsDigit(s[i]) }

  function DigitValue(c: char): (d: nat)
    requires IsDigit(c)
    ensures d < 10
  {
    c as int - '0' as int
  }

  function DigitChar(d: nat): (c: char)
    requires d < 10
    ensures IsDigit(c) && DigitValue(c) == d
  {
    ('0' as int + d) as char
  }

  /** The number a string of decimal digits denotes; the empty string denotes 0. */
  function NaturalValue(s: string): nat
    requires AllDigits(s)
  {
    if s == [] then 0 else NaturalValue(s[..|s| - 1]) * 10 + DigitValue(s[|s| - 1])
  }

  function Pow10(n: nat): (p: nat)
    ensures p >= 1
  {
    if n == 0 then 1 else 10 * Pow10(n - 1)
  }

  /** `str(n)`: the decimal digits of `n`, with no leading zero. */
  function NatToString(n: nat): (s: string)
    ensures |s| >= 1 && AllDigits(s)
    ensures s[0] == '0' <==> n == 0
  {
    if n < 10 then [DigitChar(n)] else NatToString(n / 10) + [DigitChar(n % 10)]
  }

  lemma {:induction false} NatToStringRoundTrip(n: nat)
    ensures NaturalValue(NatToString(n)) == n
  {
    if n >= 10 {
      var s := NatToString(n);
      assert s[..|s| - 1] == NatToString(n / 10);
      NatToStringRoundTrip(n / 10);
    }
  }

  /** Index of the first occurrence of `c` in `s`, if there is one. */
  function IndexOf(s: string, c: char): (r: Option<nat>)
    ensures r.Some? ==> r.value < |s| && s[r.value] == c
    ensures r.Some? ==> forall j :: 0 <= j < r.value ==> s[j] != c
    ensures r.None? ==> forall j :: 0 <= j < |s| ==> s[j] != c
  {
    if s == [] then None
    else if s[0] == c then Some(0)
    else match IndexOf(s[1..], c)
      case None => None
      case Some(k) => Some(k + 1)
  }

  /** `s.replace(pat, rep)`: every non-overlapping occurrence of `pat`,
      scanned from the left, replaced by `rep`; an empty `pat` puts `rep`
      before every character and at the end. */
  function Replace(s: string, pat: string, rep: string): string
    decreases |s|
  {
    if pat == [] then
      if s == [] then rep else rep + [s[0]] + Replace(s[1..], pat, rep)
    else if |s| < |pat| then s
    else if s[..|pat|] == pat then rep + Replace(s[|pat|..], pat, rep)
    else [s[0]] + Replace(s[1..], pat, rep)
  }

  /** A string whose first character does not start `pat` keeps that
      character and is replaced from the next one on. */
  lemma ReplaceSkip(s: string, pat: string, rep: string)
    requires pat != [] && s != [] && s[0] != pat[0]
    ensures Replace(s, pat, rep) == [s[0]] + Replace(s[1..], pat, rep)
  {
    if |s| >= |pat| {
      assert s[..|pat|][0] == s[0];
    }
  }

  /** `pat` on its own is replaced by `rep`. */
  lemma ReplaceWhole(pat: string, rep: string)
    requires pat != []
    ensures Replace(pat, pat, rep) == rep
  {
    assert pat[..|pat|] == pat && pat[|pat|..] == [];
  }

  /** `pat` occurs in `s` starting at index `i`. */
  predicate OccursAt(s: string, pat: string, i: nat)
  {
    i + |pat| <= |s| && s[i..i + |pat|] == pat
  }

  /** `replace` leaves a string in which `pat` never occurs as it is. */
  lemma {:induction false} ReplaceAbsent(s: string, pat: string, rep: string)
    requires pat != []
    requires forall i: nat :: !OccursAt(s, pat, i)
    ensures Replace(s, pat, rep) == s
  {
    if |s| >= |pat| {
      assert !OccursAt(s, pat, 0);
      assert s[0..|pat|] == s[..|pat|];
      forall i: nat
        ensures !OccursAt(s[1..], pat, i)
      {
        assert !OccursAt(s, pat, i + 1);
        if i + |pat| <= |s[1..]| {
          assert s[1..][i..i + |pat|] == s[i + 1..i + 1 + |pat|];
        }
      }
      ReplaceAbsent(s[1..], pat, rep);
      assert [s[0]] + s[1..] == s;
    }
  }

  /** Stripping a unit suffix: `(s + pat).replace(pat, rep) == s + rep` when
      `s` never contains the first character of `pat`. */
  lemma {:induction false} ReplaceSuffix(s: string, pat: string, rep: string)
    requires pat != []
    requires forall i :: 0 <= i < |s| ==> s[i] != pat[0]
    ensures Replace(s + pat, pat, rep) == s + rep
  {
    if s == [] {
      ReplaceWhole(pat, rep);
      assert s + pat == pat && s + rep == rep;
    } else {
      var t := s + pat;
      assert t[0] == s[0] && t[1..] == s[1..] + pat;
      ReplaceSkip(t, pat, rep);
      ReplaceSuffix(s[1..], pat, rep);
      assert [s[0]] + (s[1..] + rep) == s + rep;
    }
  }

  /** The value of the literal `whole.frac`. */
  function DecimalValue(whole: string, frac: string): (v: real)
    requires AllDigits(whole) && AllDigits(frac)
    ensures v >= 0.0
  {
    NaturalValue(whole) as real + NaturalValue(frac) as real / Pow10(|frac|) as real
  }

  /** `float(s)` for an unsigned decimal literal: digits, an optional point
      and digits, with at least one digit in all (so "5." and ".5" read too);
      None where Python raises ValueError. */
  function ParseUnsigned(s: string): (r: Option<real>)
    ensures r.Some? ==> s != [] && r.value >= 0.0
  {
    match IndexOf(s, '.')
    case None =>
      if s != [] && AllDigits(s) then Some(NaturalValue(s) as real) else None
    case Some(k) =>
      var whole, frac := s[..k], s[k + 1..];
      if AllDigits(whole) && AllDigits(frac) && |whole| + |frac| > 0 then
        Some(DecimalValue(whole, frac))
      else None
  }

  /** `float(s)` for a decimal literal with an optional sign. */
  function ParseDecimal(s: string): (r: Option<real>)
    ensures r.Some? ==> s != [] && (r.value < 0.0 ==> s[0] == '-')
  {
    if s != [] && (s[0] == '+' || s[0] == '-') then
      match ParseUnsigned(s[1..])
      case None => None
      case Some(v) => Some(if s[0] == '-' then -v else v)
    else ParseUnsigned(s)
  }

  /** In `whole.frac` with a digits-only `whole`, the first point is the one
      after `whole`. */
  lemma PointAfterWhole(whole: string, frac: string)
    requires AllDigits(whole)
    ensures IndexOf(whole + "." + frac, '.') == Some(|whole|)
  {
    var s := whole + "." + frac;
    assert s[|whole|] == '.';
    assert forall j :: 0 <= j < |whole| ==> s[j] == whole[j] && s[j] != '.';
  }

  /** A literal `whole.frac` reads as its whole part plus its fraction. */
  lemma ParseDigitsDotDigits(whole: string, frac: string)
    requires AllDigits(whole) && AllDigits(frac) && |whole| + |frac| > 0
    ensures ParseDecimal(whole + "." + frac) == Some(DecimalValue(whole, frac))
  {
    var s := whole + "." + frac;
    PointAfterWhole(whole, frac);
    assert s[..|whole|] == whole;
    assert s[|whole| + 1..] == frac;
    assert ParseUnsigned(s) == Some(DecimalValue(whole, frac));
    assert s[0] != '+' && s[0] != '-' by {
      if whole != [] { assert s[0] == whole[0]; }
    }
  }

  /** The integer nearest to `x`, the even one of two at equal distance:
      how Python rounds the value it formats. */
  function RoundHalfEven(x: real): (n: int)
    ensures n as real - x <= 0.5 && x - n as real <= 0.5
    ensures n as real - x == 0.5 || x - n as real == 0.5 ==> n % 2 == 0
  {
    var f := x.Floor;
    var d := x - f as real;
    if d < 0.5 then f
    else if d > 0.5 then f + 1
    else if f % 2 == 0 then f
    else f + 1
  }

  /** `n` hundredths written with two decimals, as `f"{n / 100:.2f}"` writes them. */
  function Hundredths(n: nat): string
  {
    NatToString(n / 100) + "." + [DigitChar(n / 10 % 10), DigitChar(n % 10)]
  }

  /** `f"{v:.2f}"` for `v >= 0`: `v` rounded to hundredths, then written out. */
  function Fixed2Unsigned(v: real): string
    requires v >= 0.0
  {
    Hundredths(RoundHalfEven(v * 100.0))
  }

  /** `f"{v:.2f}"`: a minus sign for a negative value, then its magnitude
      to two decimals. */
  function Fixed2(v: real): string
  {
    if v < 0.0 then "-" + Fixed2Unsigned(-v) else Fixed2Unsigned(v)
  }

  /** The shape of `f"{v:.2f}"`: a minus sign exactly for a negative value,
      otherwise a leading digit, and a point before the last two digits. */
  lemma Fixed2Shape(v: real)
    ensures var t := Fixed2(v);
      |t| >= 4 && t[|t| - 3] == '.' && IsDigit(t[|t| - 2]) && IsDigit(t[|t| - 1])
      && (t[0] == '-' <==> v < 0.0) && (v >= 0.0 ==> IsDigit(t[0]))
  {
    var m := if v < 0.0 then -v else v;
    var n := RoundHalfEven(m * 100.0);
    assert n >= 0;
    var h := Hundredths(n);
    assert h[0] == NatToString(n / 100)[0];
    assert h[|h| - 3..] == "." + [DigitChar(n / 10 % 10), DigitChar(n % 10)];
  }

  lemma TwoDigitsValue(n: nat)
    ensures NaturalValue([DigitChar(n / 10 % 10), DigitChar(n % 10)]) == n % 100
  {
    var t := [DigitChar(n / 10 % 10), DigitChar(n % 10)];
    assert t[..1] == [DigitChar(n / 10 % 10)];
    assert t[..1][..0] == [];
    assert NaturalValue(t[..1]) == n / 10 % 10;
    assert n % 100 == (n / 10 % 10) * 10 + n % 10;
  }

  /** What `Hundredths(n)` writes, `float` reads back as exactly `n / 100`. */
  lemma HundredthsReadsBack(n: nat)
    ensures ParseDecimal(Hundredths(n)) == Some(n as real / 100.0)
  {
    var whole := NatToString(n / 100);
    var frac := [DigitChar(n / 10 % 10), DigitChar(n % 10)];
    ParseDigitsDotDigits(whole, frac);
    NatToStringRoundTrip(n / 100);
    TwoDigitsValue(n);
    assert Pow10(2) == 100;
    assert DecimalValue(whole, frac) == (n / 100) as real + (n % 100) as real / 100.0;
    assert n == 100 * (n / 100) + n % 100;
  }

  /** A minus sign in front of an unsigned literal negates what it reads as. */
  lemma MinusReadsBack(t: string)
    requires t != [] && IsDigit(t[0]) && ParseDecimal(t).Some?
    ensures ParseDecimal("-" + t) == Some(-ParseDecimal(t).value)
  {
    assert ("-" + t)[1..] == t;
  }

  /** Rounding to hundredths moves a value by at most half a hundredth, onto
      a whole number of hundredths. */
  lemma RoundedToHundredths(m: real)
    requires m >= 0.0
    ensures var n := RoundHalfEven(m * 100.0);
      n >= 0 && -0.005 <= n as real / 100.0 - m <= 0.005
  {
  }

  /** What `Fixed2Unsigned` writes reads back as `m` rounded to hundredths. */
  lemma Fixed2UnsignedReadsBack(m: real)
    requires m >= 0.0
    ensures RoundHalfEven(m * 100.0) >= 0
    ensures ParseDecimal(Fixed2Unsigned(m)) == Some(RoundHalfEven(m * 100.0) as real / 100.0)
    ensures IsDigit(Fixed2Unsigned(m)[0])
  {
    RoundedToHundredths(m);
    var n := RoundHalfEven(m * 100.0);
    HundredthsReadsBack(n);
    assert Hundredths(n)[0] == NatToString(n / 100)[0];
  }

  /** The text `f"{v:.2f}"` produces reads back, through `float`, as `v`
      rounded to a whole number of hundredths. */
  lemma Fixed2ReadsBack(v: real)
    ensures ParseDecimal(Fixed2(v)).Some?
    ensures var q := ParseDecimal(Fixed2(v)).value;
      -0.005 <= q - v <= 0.005 && (q * 100.0).Floor as real == q * 100.0
  {
    var m := if v < 0.0 then -v else v;
    var n := RoundHalfEven(m * 100.0);
    RoundedToHundredths(m);
    Fixed2UnsignedReadsBack(m);
    if v < 0.0 {
      MinusReadsBack(Fixed2Unsigned(m));
      var q := -(n as real / 100.0);
      assert ParseDecimal(Fixed2(v)) == Some(q);
      assert q * 100.0 == (-n) as real;
      assert ((-n) as real).Floor == -n;
    } else {
      var q := n as real / 100.0;
      assert ParseDecimal(Fixed2(v)) == Some(q);
      assert q * 100.0 == n as real;
      assert (n as real).Floor == n;
    }
  }
}
