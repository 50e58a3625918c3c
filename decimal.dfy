/**
 * Go's int64 and the two decimal conversions of the strconv package that the
 * library uses: Itoa (rendering a JNumber) and Atoi (parsing a number token).
 */
module Decimal {

  const MaxInt64: int := 0x7fff_ffff_ffff_ffff
  const MinInt64: int := -0x8000_0000_0000_0000
  const MaxUint64: int := 0xffff_ffff_ffff_ffff

  newtype int64 = x: int | MinInt64 <= x <= MaxInt64

  /** ASCII digits; the Unicode digit classes of unicode.IsDigit are not modelled. */
  predicate IsDigit(c: char)
  {
    '0' <= c <= '9'
  }

  predicate AllDigits(s: string)
  {
    forall i :: 0 <= i < |s| ==> IsDigit(s[i])
  }

  function DigitValue(c: char): nat
    requires IsDigit(c)
  {
    c as int - '0' as int
  }

  function DigitChar(d: nat): (c: char)
    requires d < 10
    ensures IsDigit(c) && DigitValue(c) == d
  {
    ('0' as int + d) as char
  }

  /** The length of the leading run of digits. */
  function DigitRun(s: string): (n: nat)
    ensures n <= |s| && AllDigits(s[..n]) && (n < |s| ==> !IsDigit(s[n]))
  {
    if s == [] || !IsDigit(s[0]) then 0
    else
      var n := 1 + DigitRun(s[1..]);
      assert forall i :: 0 < i < n ==> s[..n][i] == s[1..][..n - 1][i - 1];
      n
  }

  /** A digit run of length k, ended by the end or a non-digit, is the leading run. */
  lemma {:induction false} DigitRunIs(s: string, k: nat)
    requires k <= |s| && AllDigits(s[..k]) && (k < |s| ==> !IsDigit(s[k]))
    ensures DigitRun(s) == k
  {
    var n := DigitRun(s);
    DigitsBefore(s, k);
    DigitsBefore(s, n);
  }

  /** The leading run is the whole text exactly when the text is all digits. */
  lemma RunIsAll(s: string)
    ensures DigitRun(s) == |s| <==> AllDigits(s)
  {
    assert s[..|s|] == s;
  }

  /** A prefix of digits is a digit at each of its positions. */
  lemma DigitsBefore(s: string, k: nat)
    requires k <= |s| && AllDigits(s[..k])
    ensures forall i :: 0 <= i < k ==> IsDigit(s[i])
  {
    forall i | 0 <= i < k
      ensures IsDigit(s[i])
    {
      assert s[..k][i] == s[i];
    }
  }

  /** The value of a run of decimal digits, read left to right. */
  function ValueOf(s: string): nat
    requires AllDigits(s)
  {
    if s == [] then 0 else ValueOf(s[..|s| - 1]) * 10 + DigitValue(s[|s| - 1])
  }

  /** The shortest decimal text of a natural number (strconv.Itoa on n >= 0). */
  function Digits(n: nat): (s: string)
    ensures |s| >= 1 && AllDigits(s) && ValueOf(s) == n
    ensures |s| > 1 ==> s[0] != '0'
  {
    if n < 10 then [DigitChar(n)]
    else
      var s := Digits(n / 10) + [DigitChar(n % 10)];
      assert s[..|s| - 1] == Digits(n / 10);
      s
  }

  /** strconv.Itoa: an optional minus sign followed by the digits of |n|. */
  function Itoa(n: int): (s: string)
    ensures |s| >= 1
    ensures n >= 0 <==> IsDigit(s[0])
    ensures n < 0 <==> s[0] == '-'
  {
    if n < 0 then "-" + Digits(-n) else Digits(n)
  }

  /** The out-of-range result of strconv.Atoi: the nearest int64. */
  function Clamp(x: int): (r: int64)
    ensures MinInt64 <= x <= MaxInt64 ==> r as int == x
    ensures x > MaxInt64 ==> r as int == MaxInt64
    ensures x < MinInt64 ==> r as int == MinInt64
  {
    if x > MaxInt64 then MaxInt64 as int64
    else if x < MinInt64 then MinInt64 as int64
    else x as int64
  }

  /** The text after one optional leading sign. */
  function Unsigned(s: string): (u: string)
    ensures |s| >= 1 && (s[0] == '-' || s[0] == '+') ==> u == s[1..]
    ensures |s| == 0 || (s[0] != '-' && s[0] != '+') ==> u == s
  {
    if |s| >= 1 && (s[0] == '-' || s[0] == '+') then s[1..] else s
  }

  /**
   * strconv.Atoi as the parser uses it, its error discarded. After one
   * optional sign, ParseUint reads the digits left to right: the first digit
   * that takes the value past 2^64 - 1 is a range error, and a non-digit
   * before that is a syntax error. Since a longer prefix of digits never has
   * a smaller value, the range error happens exactly when the whole leading
   * digit run is past 2^64 - 1, whatever follows it. A range error yields the
   * nearest int64 bound, a syntax error (a sign alone included) yields 0.
   */
  function Atoi(s: string): (r: int64)
    ensures r < 0 ==> |s| >= 2 && s[0] == '-'
    ensures |s| == 0 || !(IsDigit(s[0]) || s[0] == '-' || s[0] == '+') ==> r == 0
    ensures |s| >= 1 && AllDigits(s) ==> r as int == if ValueOf(s) <= MaxInt64 then ValueOf(s) else MaxInt64
  {
    var u := Unsigned(s);
    RunIsAll(u);
    var run := u[..DigitRun(u)];
    var v := if |s| >= 1 && s[0] == '-' then -(ValueOf(run) as int) else ValueOf(run);
    assert |run| == |u| ==> run == u;
    if |u| == 0 then 0
    else if |run| == |u| || ValueOf(run) > MaxUint64 then Clamp(v)
    else 0
  }

  /** The smallest literal past 2^64 - 1, with a fraction: strconv.Atoi gives MaxInt64, not 0. */
  lemma AtoiOverflowExample()
    ensures Atoi(Digits(MaxUint64 + 1) + ".5") as int == MaxInt64
  {
    var run := Digits(MaxUint64 + 1);
    var s := run + ".5";
    assert s[..|run|] == run && s[|run|] == '.';
    DigitRunIs(s, |run|);
    AtoiOverflow(s);
  }

  /** Atoi undoes Itoa on every int64. */
  lemma AtoiItoa(n: int64)
    ensures Atoi(Itoa(n as int)) == n
  {
    var s := Itoa(n as int);
    var d := Digits(if n < 0 then -(n as int) else n as int);
    assert Unsigned(s) == d;
    RunIsAll(d);
    assert d[..DigitRun(d)] == d;
  }

  /** A digit run that is not zero-padded has a positive value unless it is "0". */
  lemma {:induction false} ValuePositive(s: string)
    requires AllDigits(s) && |s| >= 1 && s[0] != '0'
    ensures ValueOf(s) > 0
  {
    if |s| > 1 {
      ValuePositive(s[..|s| - 1]);
    }
  }

  /** A canonical digit run is the text of its own value: Digits(ValueOf(s)) == s. */
  lemma {:induction false} DigitsValueOf(s: string)
    requires AllDigits(s) && |s| >= 1 && (|s| > 1 ==> s[0] != '0')
    ensures Digits(ValueOf(s)) == s
  {
    if |s| > 1 {
      var p := s[..|s| - 1];
      ValuePositive(p);
      DigitsValueOf(p);
      var n := ValueOf(s);
      assert n / 10 == ValueOf(p) && n % 10 == DigitValue(s[|s| - 1]);
      assert DigitChar(n % 10) == s[|s| - 1];
      assert s == p + [s[|s| - 1]];
    }
  }

  /** Itoa undoes Atoi on canonical digit runs whose value fits in an int64. */
  lemma ItoaAtoi(s: string)
    requires AllDigits(s) && |s| >= 1 && (|s| > 1 ==> s[0] != '0') && ValueOf(s) <= MaxInt64
    ensures Itoa(Atoi(s) as int) == s
  {
    DigitsValueOf(s);
  }

  /** Past MaxInt64, Atoi clamps, so Itoa does not give a canonical digit run back. */
  lemma ItoaAtoiPastMax(s: string)
    requires AllDigits(s) && |s| >= 1 && ValueOf(s) > MaxInt64
    ensures Atoi(s) as int == MaxInt64 && Itoa(Atoi(s) as int) != s
  {
    var t := Itoa(MaxInt64);
    assert ValueOf(t) == MaxInt64;
  }

  /**
   * A number literal that starts with a digit but is not all digits parses to
   * 0, when its leading digit run fits in a uint64: the syntax error comes
   * first and is dropped.
   */
  lemma AtoiNotInteger(s: string)
    requires |s| >= 1 && IsDigit(s[0]) && !AllDigits(s)
    requires ValueOf(s[..DigitRun(s)]) <= MaxUint64
    ensures Atoi(s) == 0
  {
    assert Unsigned(s) == s;
    RunIsAll(s);
  }

  /**
   * A literal whose leading digit run is past 2^64 - 1 parses to MaxInt64
   * whatever follows the run: the range error comes before any syntax error.
   */
  lemma AtoiOverflow(s: string)
    requires |s| >= 1 && IsDigit(s[0]) && ValueOf(s[..DigitRun(s)]) > MaxUint64
    ensures Atoi(s) as int == MaxInt64
  {
    assert Unsigned(s) == s;
  }
}
