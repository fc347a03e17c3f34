/** The two formatters of MIST amounts and the decimal reading of what they print. */
module SuiFormat {

  const MIST := 1_000_000_000

  function Pow10(k: nat): (p: nat)
    ensures p >= 1
  {
    if k == 0 then 1 else 10 * Pow10(k - 1)
  }

  predicate IsDigit(c: char) { '0' <= c <= '9' }
  predicate AllDigits(s: string) { forall i :: 0 <= i < |s| ==> IsDigit(s[i]) }

  function Digits(n: nat): string {
    if n < 10 then [('0' as int + n) as char] else Digits(n / 10) + [('0' as int + n % 10) as char]
  }

  function Zeros(k: nat): (z: string)
    ensures |z| == k
  {
    if k == 0 then "" else Zeros(k - 1) + "0"
  }

  function PadStart(s: string, w: nat): (p: string)
    ensures |p| == if |s| >= w then |s| else w
  {
    if |s| >= w then s else Zeros(w - |s|) + s
  }

  function PadEnd(s: string, w: nat): (p: string)
    ensures |p| == if |s| >= w then |s| else w
  {
    if |s| >= w then s else s + Zeros(w - |s|)
  }

  function StripZeros(s: string): string {
    if s != "" && s[|s| - 1] == '0' then StripZeros(s[..|s| - 1]) else s
  }

  function Fraction(mist: nat): string { PadStart(Digits(mist % MIST), 9) }

  /** The exact formatter: trailing zeros of the fraction dropped, at least one digit kept. */
  function ExactFraction(mist: nat): string {
    var f := StripZeros(Fraction(mist));
    if f == "" then "0" else f
  }
  function Exact(mist: nat): string { Digits(mist / MIST) + "." + ExactFraction(mist) }

  /** The display formatter: the first four digits of the fraction. */
  function Short(mist: nat): string
    requires |Fraction(mist)| >= 4
  {
    Digits(mist / MIST) + "." + Fraction(mist)[..4]
  }

  // ------------------------------------------------------------ reading decimals

  function Value(s: string): nat
    requires AllDigits(s)
  {
    if s == "" then 0 else 10 * Value(s[..|s| - 1]) + (s[|s| - 1] as int - '0' as int)
  }

  /** MIST denoted by a whole part and a fraction of at most nine digits. */
  function Amount(whole: string, fraction: string): nat
    requires AllDigits(whole) && AllDigits(fraction) && |fraction| <= 9
  {
    Value(whole) * MIST + Value(fraction) * Pow10(9 - |fraction|)
  }

  // ------------------------------------------------------------ digits

  lemma {:induction false} DigitsValue(n: nat)
    ensures AllDigits(Digits(n)) && Value(Digits(n)) == n && Digits(n) != ""
    ensures |Digits(n)| > 1 ==> Digits(n)[0] != '0'
  {
    if n >= 10 {
      DigitsValue(n / 10);
      assert Digits(n)[..|Digits(n)| - 1] == Digits(n / 10);
      if |Digits(n / 10)| == 1 {
        assert n / 10 >= 1 && n / 10 < 10;
      }
    }
  }

  lemma {:induction false} DigitsLength(n: nat, k: nat)
    requires 1 <= k && n < Pow10(k)
    ensures |Digits(n)| <= k
  {
    if n >= 10 {
      assert Pow10(k) == 10 * Pow10(k - 1);
      assert k >= 2 by { assert Pow10(1) == 10 * Pow10(0); }
      DigitsLength(n / 10, k - 1);
    }
  }

  lemma {:induction false} ZerosAre(k: nat)
    ensures |Zeros(k)| == k && AllDigits(Zeros(k)) && Value(Zeros(k)) == 0 && forall i :: 0 <= i < k ==>
      Zeros(k)[i] == '0'
  {
    if k > 0 {
      ZerosAre(k - 1);
      assert Zeros(k)[..k - 1] == Zeros(k - 1);
    }
  }

  lemma Shift(x: nat, p: nat, y: nat, d: nat)
    ensures 10 * (x * p + y) + d == x * (10 * p) + (10 * y + d)
  {
  }

  /** Reading is positional. */
  lemma {:induction false} ValueConcat(a: string, b: string)
    requires AllDigits(a) && AllDigits(b)
    ensures AllDigits(a + b) && Value(a + b) == Value(a) * Pow10(|b|) + Value(b)
    decreases |b|
  {
    if b == "" {
      assert a + b == a;
    } else {
      var m := |b| - 1;
      ValueConcat(a, b[..m]);
      assert (a + b)[..|a + b| - 1] == a + b[..m];
      Shift(Value(a), Pow10(m), Value(b[..m]), b[m] as int - '0' as int);
    }
  }

  lemma {:induction false} ValueBound(s: string)
    requires AllDigits(s)
    ensures Value(s) < Pow10(|s|)
  {
    if s != "" {
      ValueBound(s[..|s| - 1]);
    }
  }

  lemma NineZeros()
    ensures Pow10(9) == MIST && Pow10(5) == 100_000 && Pow10(4) == 10_000
  {
    assert Pow10(1) == 10 && Pow10(2) == 100 && Pow10(3) == 1_000 && Pow10(4) == 10_000;
    assert Pow10(5) == 100_000 && Pow10(6) == 1_000_000 && Pow10(7) == 10_000_000 && Pow10(8) == 100_000_000;
  }

  lemma PadValue(d: string, w: nat)
    requires AllDigits(d)
    ensures AllDigits(PadStart(d, w)) && Value(PadStart(d, w)) == Value(d)
  {
    if |d| < w {
      ZerosAre(w - |d|);
      ValueConcat(Zeros(w - |d|), d);
    }
  }

  /** The padded fraction has exactly nine digits and the value of the remainder. */
  lemma FractionValue(mist: nat)
    ensures |Fraction(mist)| == 9 && AllDigits(Fraction(mist)) && Value(Fraction(mist)) == mist % MIST
  {
    NineZeros();
    DigitsValue(mist % MIST);
    DigitsLength(mist % MIST, 9);
    PadValue(Digits(mist % MIST), 9);
  }

  /** Stripping removes exactly the trailing zeros. */
  lemma {:induction false} StripIsPrefix(s: string)
    ensures |StripZeros(s)| <= |s| && s == StripZeros(s) + Zeros(|s| - |StripZeros(s)|)
    ensures StripZeros(s) != "" ==> StripZeros(s)[|StripZeros(s)| - 1] != '0'
  {
    if s != "" && s[|s| - 1] == '0' {
      var init := s[..|s| - 1];
      StripIsPrefix(init);
      var k := |init| - |StripZeros(init)|;
      assert s == init + "0";
      assert s == StripZeros(init) + (Zeros(k) + "0");
      assert Zeros(k + 1) == Zeros(k) + "0";
    } else {
      assert Zeros(0) == "" && s + "" == s;
    }
  }

  // ------------------------------------------------------------ theorems

  lemma ZerosBehind(f: string, k: nat)
    requires AllDigits(f + Zeros(k))
    ensures AllDigits(f) && Value(f) * Pow10(k) == Value(f + Zeros(k))
  {
    ZerosAre(k);
    assert AllDigits(f) by { assert forall i :: 0 <= i < |f| ==> f[i] == (f + Zeros(k))[i]; }
    ValueConcat(f, Zeros(k));
  }

  /** Stripping the zeros of nine digits and reading them back as a fraction. */
  lemma StripValue(s: string)
    requires |s| == 9 && AllDigits(s)
    ensures var f := StripZeros(s); |f| <= 9 && AllDigits(f) && Value(f) * Pow10(9 - |f|) == Value(s)
  {
    StripIsPrefix(s);
    ZerosBehind(StripZeros(s), 9 - |StripZeros(s)|);
  }

  lemma OneZero()
    ensures AllDigits("0") && Value("0") == 0 && "0" + Zeros(8) == Zeros(9)
  {
    assert "0"[..0] == "";
    ZerosAre(8);
    ZerosAre(9);
  }

  lemma ExactFractionValue(mist: nat)
    ensures var f := ExactFraction(mist); AllDigits(f) && 1 <= |f| <= 9 && Value(f) * Pow10(9 - |f|) == mist % MIST
    ensures var f := ExactFraction(mist); f == "0" || f[|f| - 1] != '0'
  {
    FractionValue(mist);
    StripIsPrefix(Fraction(mist));
    StripValue(Fraction(mist));
    OneZero();
  }

  lemma PadBack(s: string, f: string, k: nat)
    requires |s| == 9 && s == f + Zeros(k)
    ensures PadEnd(if f == "" then "0" else f, 9) == s
  {
    OneZero();
    if f == "" {
      assert s == Zeros(9);
    } else if k == 0 {
      assert f + "" == f;
    }
  }

  /** Zero-padding the exact fraction gives the full nine digits back. */
  lemma ExactPadded(mist: nat)
    ensures PadEnd(ExactFraction(mist), 9) == Fraction(mist)
  {
    FractionValue(mist);
    StripIsPrefix(Fraction(mist));
    PadBack(Fraction(mist), StripZeros(Fraction(mist)), 9 - |StripZeros(Fraction(mist))|);
  }

  /** The exact text reads back as the amount, and its fraction is canonical: one to nine digits, no trailing zero
      unless it is "0". */
  lemma ExactRoundTrip(mist: nat)
    ensures var whole, f := Digits(mist / MIST), ExactFraction(mist);
      Exact(mist) == whole + "." + f && AllDigits(whole) && AllDigits(f) && 1 <= |f| <= 9 && Amount(whole, f) == mist &&
      (f == "0" || f[|f| - 1] != '0')
  {
    DigitsValue(mist / MIST);
    ExactFractionValue(mist);
  }

  /** Different amounts have different exact texts. */
  lemma ExactInjective(a: nat, b: nat)
    requires Exact(a) == Exact(b)
    ensures a == b
  {
    ExactRoundTrip(a);
    ExactRoundTrip(b);
    var (x, f, y, g) := (Digits(a / MIST), ExactFraction(a), Digits(b / MIST), ExactFraction(b));
    SplitPoint(x, f, y, g);
  }

  lemma SplitPoint(x: string, f: string, y: string, g: string)
    requires AllDigits(x) && AllDigits(y) && AllDigits(f) && AllDigits(g) && x + "." + f == y + "." + g
    ensures x == y && f == g
  {
    var s := x + "." + f;
    assert s[|x|] == '.' && s[|y|] == '.';
    assert |x| == |y| by {
      assert s[..|x|] == x && s[..|y|] == y;
    }
    assert x == s[..|x|] && y == s[..|y|] && f == s[|x| + 1..] && g == s[|y| + 1..];
  }

  /** The first four of nine digits are the value rounded down to the fifth place. */
  lemma FirstFour(s: string)
    requires |s| == 9 && AllDigits(s)
    ensures AllDigits(s[..4]) && Value(s[..4]) * 100_000 == Value(s) - Value(s) % 100_000
  {
    NineZeros();
    var f, rest := s[..4], s[4..];
    assert s == f + rest;
    ValueConcat(f, rest);
    ValueBound(rest);
  }

  /** The four-digit text shows exactly the amount rounded down to 100000 MIST, and is the exact text zero-padded and
      cut. */
  lemma ShortRoundsDown(mist: nat)
    ensures |Fraction(mist)| >= 4
    ensures var whole, f := Digits(mist / MIST), Fraction(mist)[..4];
      Short(mist) == whole + "." + f && AllDigits(whole) && AllDigits(f) && Amount(whole, f) == mist - mist % 100_000
    ensures Short(mist) == Digits(mist / MIST) + "." + PadEnd(ExactFraction(mist), 9)[..4]
  {
    NineZeros();
    DigitsValue(mist / MIST);
    FractionValue(mist);
    ExactPadded(mist);
    FirstFour(Fraction(mist));
    RemainderOfRemainder(mist);
  }

  lemma RemainderOfRemainder(mist: nat)
    ensures (mist % MIST) % 100_000 == mist % 100_000
  {
    var q, r := mist / MIST, mist % MIST;
    assert mist == (q * 10_000 + r / 100_000) * 100_000 + r % 100_000;
  }

  /** A larger amount is never shown as a smaller one. */
  lemma ShortMonotone(a: nat, b: nat)
    requires a <= b
    ensures |Fraction(a)| >= 4 && |Fraction(b)| >= 4
    ensures AllDigits(Digits(a / MIST)) && AllDigits(Digits(b / MIST)) && AllDigits(Fraction(a)[..4]) &&
      AllDigits(Fraction(b)[..4])
    ensures Amount(Digits(a / MIST), Fraction(a)[..4]) <= Amount(Digits(b / MIST), Fraction(b)[..4])
  {
    ShortRoundsDown(a);
    ShortRoundsDown(b);
    RoundingMonotone(a, b);
  }

  lemma RoundingMonotone(a: nat, b: nat)
    requires a <= b
    ensures a - a % 100_000 <= b - b % 100_000
  {
    assert a - a % 100_000 == a / 100_000 * 100_000 && b - b % 100_000 == b / 100_000 * 100_000;
  }
}
