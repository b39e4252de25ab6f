/** Decimal rendering of integers, as used for the numeric query parameter and the date fields. */
module Decimal {
  import opened Wrappers

  predicate IsDigit(c: char) { '0' <= c <= '9' }

  predicate AllDigits(s: string) { forall i :: 0 <= i < |s| ==> IsDigit(s[i]) }

  function DigitChar(d: nat): (c: char)
    requires d < 10
    ensures IsDigit(c) && c as int - '0' as int == d
  {
    ('0' as int + d) as char
  }

  /** The shortest decimal spelling of n ("0" for zero). */
  function Digits(n: nat): (s: string)
    ensures |s| >= 1 && AllDigits(s)
    decreases n
  {
    if n < 10 then [DigitChar(n)] else Digits(n / 10) + [DigitChar(n % 10)]
  }

  function Zeros(k: nat): (s: string)
    ensures |s| == k && forall i :: 0 <= i < k ==> s[i] == '0'
  {
    seq(k, _ => '0')
  }

  /** Left-pads s with zeros to at least width characters. */
  function PadLeft(s: string, width: nat): (r: string)
  {
    if |s| >= width then s else Zeros(width - |s|) + s
  }

  /**
   * An integer with a leading '-' when negative and its magnitude zero-padded to
   * width digits: the rendering the date layout uses for year, month and day,
   * and, with width 0, the rendering of a plain integer.
   */
  function FormatInt(x: int, width: nat): (s: string)
  {
    (if x < 0 then "-" else "") + PadLeft(Digits(if x < 0 then -x else x), width)
  }

  /** The decimal string of an int, with a minus sign when negative. */
  function Itoa(x: int): (s: string)
    ensures x >= 0 ==> |s| >= 1 && AllDigits(s)
    ensures x < 0 ==> |s| >= 2 && s[0] == '-' && AllDigits(s[1..])
  {
    FormatInt(x, 0)
  }

  /** The value of a string of digits, read most significant digit first. */
  function ParseNat(s: string): (n: nat)
    requires AllDigits(s)
  {
    if s == [] then 0 else ParseNat(s[..|s| - 1]) * 10 + (s[|s| - 1] as int - '0' as int)
  }

  /** Reads an optionally negative decimal integer; None for anything else. */
  function Atoi(s: string): (r: Option<int>)
  {
    if |s| > 0 && s[0] == '-' then
      if |s| > 1 && AllDigits(s[1..]) then Some(-(ParseNat(s[1..]) as int)) else None
    else if |s| > 0 && AllDigits(s) then Some(ParseNat(s))
    else None
  }

  function Pow10(k: nat): (p: nat)
    ensures p >= 1
  {
    if k == 0 then 1 else 10 * Pow10(k - 1)
  }

  lemma {:induction false} ParseDigits(n: nat)
    ensures ParseNat(Digits(n)) == n
    decreases n
  {
    if n >= 10 {
      ParseDigits(n / 10);
      var s := Digits(n);
      assert s[..|s| - 1] == Digits(n / 10);
    }
  }

  lemma {:induction false} ParseLeadingZeros(k: nat, s: string)
    requires AllDigits(s)
    ensures AllDigits(Zeros(k) + s) && ParseNat(Zeros(k) + s) == ParseNat(s)
    decreases |s|
  {
    var z := Zeros(k) + s;
    if s == [] {
      assert z == Zeros(k);
      AllZerosParse(k);
    } else {
      ParseLeadingZeros(k, s[..|s| - 1]);
      assert z[..|z| - 1] == Zeros(k) + s[..|s| - 1];
    }
  }

  lemma {:induction false} AllZerosParse(k: nat)
    ensures ParseNat(Zeros(k)) == 0
  {
    if k > 0 {
      AllZerosParse(k - 1);
      assert Zeros(k)[..k - 1] == Zeros(k - 1);
    }
  }

  lemma {:induction false} DigitsLength(n: nat, w: nat)
    requires 1 <= w && n < Pow10(w)
    ensures |Digits(n)| <= w
    decreases n
  {
    if n >= 10 {
      DigitsLength(n / 10, w - 1);
    }
  }

  /** Zero-padding never changes the value a digit string denotes. */
  lemma PadLeftParse(n: nat, width: nat)
    ensures AllDigits(PadLeft(Digits(n), width))
    ensures ParseNat(PadLeft(Digits(n), width)) == n
  {
    ParseDigits(n);
    var s := Digits(n);
    if |s| < width {
      ParseLeadingZeros(width - |s|, s);
    }
  }

  /** For width w and 0 <= n < 10^w the padded rendering has exactly w digits. */
  lemma PadLeftLength(n: nat, w: nat)
    requires 1 <= w && n < Pow10(w)
    ensures |PadLeft(Digits(n), w)| == w
  {
    DigitsLength(n, w);
  }

  /** Reading back the decimal string of any int gives that int. */
  lemma ItoaRoundTrip(x: int)
    ensures Atoi(Itoa(x)) == Some(x)
  {
    var m := if x < 0 then -x else x;
    PadLeftParse(m, 0);
    var s := Itoa(x);
    if x < 0 {
      assert s[1..] == Digits(m);
    } else {
      assert s == Digits(m);
    }
  }
}
