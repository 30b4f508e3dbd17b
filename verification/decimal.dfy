/**
 * Integers as decimal text: `str(i)` for an int and `int(text)` in base 10,
 * with the whitespace, sign and underscore rules Python's int() applies to
 * ASCII input.
 */
module DecimalText {
  import opened Wrappers

  predicate IsDigit(c: char) { '0' <= c <= '9' }

  function DigitChar(d: int): (c: char)
    requires 0 <= d < 10
    ensures IsDigit(c) && c as int - '0' as int == d
  {
    (d + '0' as int) as char
  }

  function NatToDecimal(n: nat): (s: string)
    ensures s != [] && forall i :: 0 <= i < |s| ==> IsDigit(s[i])
    decreases n
  {
    if n < 10 then [DigitChar(n)] else NatToDecimal(n / 10) + [DigitChar(n % 10)]
  }

  /** `str(i)` for an int. */
  function IntToDecimal(i: int): string
  {
    if i < 0 then "-" + NatToDecimal(-i) else NatToDecimal(i)
  }

  /** The value of a run of ASCII digits and single underscores. */
  function DigitsValue(s: string): nat
  {
    if s == [] then 0
    else
      var last := s[|s| - 1];
      if IsDigit(last) then DigitsValue(s[..|s| - 1]) * 10 + (last as int - '0' as int)
      else DigitsValue(s[..|s| - 1])
  }

  /** Digits with single underscores between them, as int() accepts (no leading, trailing or doubled underscore). */
  predicate WellFormedDigits(s: string)
  {
    && s != []
    && IsDigit(s[0]) && IsDigit(s[|s| - 1])
    && (forall i :: 0 <= i < |s| ==> IsDigit(s[i]) || s[i] == '_')
    && NoDoubleUnderscore(s)
  }

  predicate NoDoubleUnderscore(s: string)
  {
    |s| < 2 || (!(s[0] == '_' && s[1] == '_') && NoDoubleUnderscore(s[1..]))
  }

  /**
   * The whitespace int() skips: around bytes, ASCII \t \n \v \f \r and space;
   * around a str also \x1c-\x1f.
   */
  predicate IsSpace(c: char, forBytes: bool)
  {
    c == ' ' || 9 <= c as int <= 13 || (!forBytes && 28 <= c as int <= 31)
  }

  function StripLeft(s: string, forBytes: bool): string
  {
    if s != [] && IsSpace(s[0], forBytes) then StripLeft(s[1..], forBytes) else s
  }

  function StripRight(s: string, forBytes: bool): string
  {
    if s != [] && IsSpace(s[|s| - 1], forBytes) then StripRight(s[..|s| - 1], forBytes) else s
  }

  /** `int(text)` in base 10 (`forBytes` when the argument was bytes): None is the ValueError. */
  function ParseInt(text: string, forBytes: bool): Option<int>
  {
    ParseSigned(StripRight(StripLeft(text, forBytes), forBytes))
  }

  /** An optional sign, then well-formed digits. */
  function ParseSigned(t: string): Option<int>
  {
    if t == [] then None
    else
      var body := if t[0] == '-' || t[0] == '+' then t[1..] else t;
      if WellFormedDigits(body) then
        Some(if t[0] == '-' then -(DigitsValue(body) as int) else DigitsValue(body))
      else None
  }

  /** The decimal text `str()` gives back: an optional '-', then digits without a leading zero, and never "-0". */
  predicate IsCanonicalDecimal(s: string)
  {
    var body := if s != [] && s[0] == '-' then s[1..] else s;
    && body != []
    && (forall i :: 0 <= i < |body| ==> IsDigit(body[i]))
    && (body[0] == '0' ==> body == "0" && s == "0")
  }

  lemma {:induction false} DigitsValueOfDecimal(n: nat)
    ensures DigitsValue(NatToDecimal(n)) == n
    decreases n
  {
    var s := NatToDecimal(n);
    if n >= 10 {
      DigitsValueOfDecimal(n / 10);
      assert s[..|s| - 1] == NatToDecimal(n / 10);
    }
  }

  lemma {:induction false} DigitsValuePositive(s: string)
    requires s != [] && (forall i :: 0 <= i < |s| ==> IsDigit(s[i])) && s[0] != '0'
    ensures DigitsValue(s) >= 1
    decreases |s|
  {
    if |s| > 1 {
      DigitsValuePositive(s[..|s| - 1]);
    }
  }

  lemma {:induction false} DecimalOfDigits(s: string)
    requires s != [] && (forall i :: 0 <= i < |s| ==> IsDigit(s[i]))
    requires s[0] == '0' ==> s == "0"
    ensures NatToDecimal(DigitsValue(s)) == s
    decreases |s|
  {
    var n := DigitsValue(s);
    var init := s[..|s| - 1];
    var d := s[|s| - 1] as int - '0' as int;
    if |s| == 1 {
      assert init == [];
      assert DigitsValue(init) == 0;
      assert n == d;
      assert [DigitChar(d)] == s;
    } else {
      DigitsValuePositive(init);
      DecimalOfDigits(init);
      assert n == DigitsValue(init) * 10 + d;
      assert n / 10 == DigitsValue(init) && n % 10 == d;
      assert s == init + [s[|s| - 1]];
    }
  }

  lemma StripNothing(s: string, forBytes: bool)
    requires s != [] && !IsSpace(s[0], forBytes) && !IsSpace(s[|s| - 1], forBytes)
    ensures StripRight(StripLeft(s, forBytes), forBytes) == s
  {
    assert StripLeft(s, forBytes) == s;
  }

  lemma {:induction false} AllDigitsWellFormed(s: string)
    requires s != [] && forall i :: 0 <= i < |s| ==> IsDigit(s[i])
    ensures WellFormedDigits(s)
  {
    NoUnderscoreNoDouble(s);
  }

  lemma {:induction false} NoUnderscoreNoDouble(s: string)
    requires forall i :: 0 <= i < |s| ==> IsDigit(s[i])
    ensures NoDoubleUnderscore(s)
    decreases |s|
  {
    if |s| >= 2 {
      NoUnderscoreNoDouble(s[1..]);
    }
  }

  lemma ParseSignedDigits(digits: string)
    requires digits != [] && forall i :: 0 <= i < |digits| ==> IsDigit(digits[i])
    ensures ParseSigned(digits) == Some(DigitsValue(digits))
  {
    AllDigitsWellFormed(digits);
  }

  lemma ParseSignedNegative(neg: string)
    requires |neg| >= 2 && neg[0] == '-'
    requires forall i :: 1 <= i < |neg| ==> IsDigit(neg[i])
    ensures ParseSigned(neg) == Some(-(DigitsValue(neg[1..]) as int))
  {
    AllDigitsWellFormed(neg[1..]);
  }

  lemma StripNegative(neg: string, forBytes: bool)
    requires |neg| >= 2 && neg[0] == '-'
    requires forall i :: 1 <= i < |neg| ==> IsDigit(neg[i])
    ensures StripRight(StripLeft(neg, forBytes), forBytes) == neg
  {
    StripNothing(neg, forBytes);
  }
}
