/**
 The two pieces of Java text handling the configuration code relies on:
 `StringUtils.isBlank` (commons-lang3) and `Integer.parseInt`, together with
 `Integer.toString`, the canonical decimal spelling `parseInt` reads back.
 */
module JavaText {
  import opened Wrappers

  const MIN_INT: int := -0x8000_0000
  const MAX_INT: int := 0x7fff_ffff

  predicate IsInt32(n: int) {
    MIN_INT <= n <= MAX_INT
  }

  /**
   `Character.isWhitespace` as of Java 7 and 8 (Unicode 6.0 and 6.2): the
   space, line and paragraph separators except the three no-break spaces,
   plus U+0009..U+000D and U+001C..U+001F. U+180E, the Mongolian vowel
   separator, is still a space separator in those tables.
   */
  predicate IsWhitespace(c: char) {
    var u := c as int;
    || 0x09 <= u <= 0x0D
    || 0x1C <= u <= 0x20
    || u == 0x1680
    || u == 0x180E
    || (0x2000 <= u <= 0x200A && u != 0x2007)
    || u == 0x2028 || u == 0x2029
    || u == 0x205F
    || u == 0x3000
  }

  /** The scan inside `StringUtils.isBlank`: every character, first to last, is whitespace. */
  predicate AllWhitespace(t: string)
    decreases |t|
  {
    |t| == 0 || (IsWhitespace(t[0]) && AllWhitespace(t[1..]))
  }

  /**
   `StringUtils.isBlank`: null, empty, or whitespace only. A value is not
   blank exactly when it is present and holds a non-whitespace character.
   */
  predicate IsBlank(s: Option<string>)
    ensures !IsBlank(s) <==> s.Some? && exists i | 0 <= i < |s.value| :: !IsWhitespace(s.value[i])
  {
    match s
    case None => true
    case Some(t) =>
      AllWhitespaceMeansEvery(t);
      AllWhitespace(t)
  }

  lemma {:induction false} AllWhitespaceMeansEvery(t: string)
    ensures AllWhitespace(t) <==> forall i | 0 <= i < |t| :: IsWhitespace(t[i])
    decreases |t|
  {
    if |t| > 0 {
      AllWhitespaceMeansEvery(t[1..]);
      assert forall i | 1 <= i < |t| :: t[i] == t[1..][i - 1];
    }
  }

  lemma {:induction false} BlankExamples()
    ensures IsBlank(None) && IsBlank(Some("")) && IsBlank(Some(" \t\n"))
    ensures !IsBlank(Some(" x "))
    ensures !IsBlank(Some([0xA0 as char]))
    ensures IsBlank(Some([0x180E as char]))
  {
    var ws := " \t\n";
    assert IsWhitespace(ws[0]) && IsWhitespace(ws[1]) && IsWhitespace(ws[2]);
    assert " x "[1] == 'x';
    assert [0xA0 as char][0] as int == 0xA0;
    assert [0x180E as char][0] as int == 0x180E;
  }

  predicate IsDigit(c: char) {
    '0' <= c <= '9'
  }

  predicate AllDigits(s: string) {
    forall i | 0 <= i < |s| :: IsDigit(s[i])
  }

  /** The value of a run of decimal digits, most significant first. */
  function DigitsValue(ds: string): nat
    requires AllDigits(ds)
    decreases |ds|
  {
    if |ds| == 0 then 0
    else DigitsValue(ds[..|ds| - 1]) * 10 + (ds[|ds| - 1] as int - '0' as int)
  }

  /**
   `Integer.parseInt(s)` in radix 10: an optional `-` or `+`, then at least one
   digit, and the value must fit in 32 bits; anything else is a
   `NumberFormatException`, here `None`.
   */
  function ParseInt(s: string): (r: Option<int>)
    ensures r.Some? ==> IsInt32(r.value)
    ensures r.Some? ==> 0 < |s| && (IsDigit(s[0]) || s[0] == '-' || s[0] == '+')
    ensures r.Some? && 0 < |s| && s[0] == '-' ==> r.value <= 0
    ensures r.Some? && 0 < |s| && s[0] != '-' ==> r.value >= 0
  {
    if |s| == 0 then None
    else
      var negative := s[0] == '-';
      var digits := if s[0] == '-' || s[0] == '+' then s[1..] else s;
      if |digits| == 0 || !AllDigits(digits) then None
      else
        var magnitude: int := DigitsValue(digits);
        var v: int := if negative then -magnitude else magnitude;
        if IsInt32(v) then Some(v) else None
  }

  function DigitChar(d: nat): (c: char)
    requires d < 10
    ensures IsDigit(c) && c as int - '0' as int == d
  {
    ('0' as int + d) as char
  }

  /** The decimal digits of `n` without leading zeros ("0" for zero). */
  function NatToDigits(n: nat): (ds: string)
    ensures |ds| > 0 && AllDigits(ds)
    ensures ds[0] == '0' <==> n == 0
    decreases n
  {
    if n < 10 then [DigitChar(n)]
    else NatToDigits(n / 10) + [DigitChar(n % 10)]
  }

  /**
   `Integer.toString(n)`: a `-` exactly for negative values, then the digits
   of the magnitude with no leading zero (except for zero itself).
   */
  function IntToString(n: int): (s: string)
    ensures |s| > 0 && (s[0] == '-' <==> n < 0)
    ensures n < 0 ==> |s| > 1 && AllDigits(s[1..]) && s[1] != '0'
    ensures n >= 0 ==> AllDigits(s) && (s[0] == '0' <==> n == 0)
  {
    if n < 0 then "-" + NatToDigits(-n) else NatToDigits(n)
  }

  lemma {:induction false} NatToDigitsValue(n: nat)
    ensures |NatToDigits(n)| > 0
    ensures AllDigits(NatToDigits(n))
    ensures DigitsValue(NatToDigits(n)) == n
    decreases n
  {
    var ds := NatToDigits(n);
    if n >= 10 {
      NatToDigitsValue(n / 10);
      var prefix := NatToDigits(n / 10);
      assert ds == prefix + [DigitChar(n % 10)];
      assert ds[..|ds| - 1] == prefix;
    }
  }

  /** `Integer.parseInt` reads back every 32-bit value `Integer.toString` writes. */
  lemma {:induction false} ParseIntToString(n: int)
    requires IsInt32(n)
    ensures ParseInt(IntToString(n)) == Some(n)
  {
    if n < 0 {
      NatToDigitsValue(-n);
      var s := IntToString(n);
      assert s[1..] == NatToDigits(-n);
    } else {
      NatToDigitsValue(n);
      var s := IntToString(n);
      assert IsDigit(s[0]);
    }
  }

  /** Input that `parseInt` rejects: a leading or trailing blank, a bare sign, empty text. */
  lemma {:induction false} ParseIntRejectsMalformed()
    ensures ParseInt(" 42") == None
    ensures ParseInt("42 ") == None
    ensures ParseInt("-") == None
    ensures ParseInt("") == None
  {
  }

  /** The 32-bit boundary: one past `MAX_INT` is rejected, `MIN_INT` itself is read. */
  lemma {:induction false} ParseIntBounds()
    ensures ParseInt("2147483648") == None
    ensures ParseInt("-2147483648") == Some(MIN_INT)
  {
    // DigitsValue reads from the last digit, so each prefix's value is established in turn.
    var big := "2147483648";
    assert AllDigits(big);
    assert DigitsValue(big[..0]) == 0;
    assert big[..1][..0] == big[..0];
    assert DigitsValue(big[..1]) == 2;
    assert big[..2][..1] == big[..1];
    assert DigitsValue(big[..2]) == 21;
    assert big[..3][..2] == big[..2];
    assert DigitsValue(big[..3]) == 214;
    assert big[..4][..3] == big[..3];
    assert DigitsValue(big[..4]) == 2147;
    assert big[..5][..4] == big[..4];
    assert DigitsValue(big[..5]) == 21474;
    assert big[..6][..5] == big[..5];
    assert DigitsValue(big[..6]) == 214748;
    assert big[..7][..6] == big[..6];
    assert DigitsValue(big[..7]) == 2147483;
    assert big[..8][..7] == big[..7];
    assert DigitsValue(big[..8]) == 21474836;
    assert big[..9][..8] == big[..8];
    assert DigitsValue(big[..9]) == 214748364;
    assert big[..10] == big;
    assert DigitsValue(big) == 2147483648;
    var small := "-2147483648";
    assert small[1..] == big;
  }

  /** A leading `+` and leading zeros are accepted. */
  lemma {:induction false} ParseIntSignAndZeros()
    ensures ParseInt("+007") == Some(7)
  {
    var ds := "+007"[1..];
    assert ds == "007";
    assert AllDigits(ds);
    assert ds[..2] == "00" && ds[..2][..1] == "0" && ds[..1] == "0" && ds[..1][..0] == "";
    assert DigitsValue("0") == 0;
    assert DigitsValue("00") == 0;
    assert DigitsValue(ds) == 7;
  }
}
