/**
 * Exact arithmetic and decimal text for the evaluation scripts.
 *
 * The scripts divide with Python's float `/` (an average of centipawn
 * samples, an average error, an accuracy percentage). Here every such
 * quotient is kept exact as a `Ratio`, compared by cross-multiplication,
 * and Python's `int(...)` on it is truncation toward zero.
 */
module Numbers {
  import opened Wrappers

  /** The exact quotient num / den. */
  datatype Ratio = Ratio(num: int, den: nat)

  /** `num / den < t` for a positive `den`: the comparison `avg_error < threshold`. */
  predicate Below(r: Ratio, t: int) {
    r.num < t * r.den
  }

  function Abs(x: int): nat {
    if x < 0 then -x else x
  }

  function Sum(s: seq<int>): int {
    if s == [] then 0 else Sum(s[..|s| - 1]) + s[|s| - 1]
  }

  lemma SumAppend(s: seq<int>, x: int)
    ensures Sum(s + [x]) == Sum(s) + x
  {
    assert (s + [x])[..|s|] == s;
  }

  /** Python's `int(num / den)`: the quotient truncated toward zero. */
  function Trunc(r: Ratio): int
    requires r.den > 0
  {
    if r.num >= 0 then r.num / r.den else -((-r.num) / r.den)
  }

  /** Trunc is the quotient rounded toward zero: the largest multiple of `den` not beyond `num` in size, with `num`'s sign. */
  lemma TruncTowardZero(r: Ratio)
    requires r.den > 0
    ensures Abs(Trunc(r)) * r.den <= Abs(r.num) < (Abs(Trunc(r)) + 1) * r.den
    ensures Trunc(r) < 0 ==> r.num < 0
    ensures Trunc(r) > 0 ==> r.num > 0
    ensures r.num >= 0 ==> Trunc(r) >= 0
  {
    var q := Abs(r.num) / r.den;
    DivBounds(Abs(r.num), r.den);
    assert Abs(Trunc(r)) == q;
  }

  lemma DivBounds(n: nat, d: nat)
    requires d > 0
    ensures (n / d) * d <= n < (n / d + 1) * d
  {
    var q, m := n / d, n % d;
    assert n == d * q + m && 0 <= m < d;
    calc {
      (q + 1) * d;
      == q * d + d;
      > q * d + m;
    }
  }

  predicate IsDigit(ch: char) {
    '0' <= ch <= '9'
  }

  predicate AllDigits(s: string) {
    forall i :: 0 <= i < |s| ==> IsDigit(s[i])
  }

  /** Decimal digits as `str` writes them: at least one, and no leading zero unless the number is 0. */
  predicate Decimal(s: string) {
    |s| > 0 && AllDigits(s) && (s[0] == '0' ==> |s| == 1)
  }

  function DigitChar(d: nat): (ch: char)
    requires d < 10
    ensures IsDigit(ch) && ch as int - '0' as int == d
  {
    ('0' as int + d) as char
  }

  /** `str(n)` for a natural number: its decimal digits, most significant first. */
  function NatToString(n: nat): string {
    if n < 10 then [DigitChar(n)] else NatToString(n / 10) + [DigitChar(n % 10)]
  }

  /** The number a string of decimal digits denotes. */
  function DigitsValue(s: string): int {
    if s == [] then 0 else DigitsValue(s[..|s| - 1]) * 10 + (s[|s| - 1] as int - '0' as int)
  }

  /**
   * Reads an integer written with an optional `+` or `-` before decimal
   * digits without a leading zero; None for any other text.
   */
  function ParseSigned(s: string): Option<int> {
    if |s| > 1 && (s[0] == '+' || s[0] == '-') && Decimal(s[1..]) then
      Some(if s[0] == '-' then -DigitsValue(s[1..]) else DigitsValue(s[1..]))
    else if Decimal(s) then
      Some(DigitsValue(s))
    else
      None
  }

  /**
   * The f-string `f"{sign}{value}"` both scripts use, where `sign` is "+"
   * when `plus` holds and empty otherwise.
   */
  function SignedText(plus: bool, value: int): (r: string)
    requires plus ==> value >= 0
    ensures |r| > 0
    ensures r[0] == '+' <==> plus
    ensures r[0] == '-' <==> value < 0
  {
    var digits := NatToString(Abs(value));
    NatToStringRoundTrip(Abs(value));
    if plus then "+" + digits
    else if value < 0 then "-" + digits
    else digits
  }

  /** The signed text reads back as the value it was written from. */
  lemma SignedTextReadsBack(plus: bool, value: int)
    requires plus ==> value >= 0
    ensures ParseSigned(SignedText(plus, value)) == Some(value)
  {
    var digits := NatToString(Abs(value));
    NatToStringRoundTrip(Abs(value));
    if plus {
      assert ("+" + digits)[1..] == digits;
    } else if value < 0 {
      assert ("-" + digits)[1..] == digits;
    }
  }

  /** `str(n)` writes decimal digits without a leading zero, and they read back as n. */
  lemma {:induction false} NatToStringRoundTrip(n: nat)
    ensures Decimal(NatToString(n))
    ensures NatToString(n)[0] == '0' <==> n == 0
    ensures DigitsValue(NatToString(n)) == n
  {
    if n >= 10 {
      NatToStringRoundTrip(n / 10);
      var s := NatToString(n / 10) + [DigitChar(n % 10)];
      assert s[..|s| - 1] == NatToString(n / 10);
    }
  }
}
