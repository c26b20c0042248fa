/** Python's `str(n)` for integers, `int(s)` for base-10 strings, and which
    strings `float(s)` accepts. Digits are the ASCII digits. */
module PyNumbers {
  import opened Wrappers
  import opened PyStrings

  predicate IsDigit(c: char) { '0' <= c <= '9' }

  function DigitChar(d: nat): (c: char)
    requires d < 10
    ensures IsDigit(c) && c as int - '0' as int == d
  {
    (d + '0' as int) as char
  }

  /** `str(n)` for a natural number: its decimal digits, most significant first. */
  function NatToDecimal(n: nat): (s: string)
    ensures |s| >= 1
    ensures forall i :: 0 <= i < |s| ==> IsDigit(s[i])
  {
    if n < 10 then [DigitChar(n)] else NatToDecimal(n / 10) + [DigitChar(n % 10)]
  }

  /** `str(n)` for any integer. */
  function IntToDecimal(n: int): string {
    if n < 0 then "-" + NatToDecimal(-n) else NatToDecimal(n)
  }

  /** The digit part `int()` accepts in base 10: digits, where single
      underscores may separate two digits. */
  predicate IsDigitGroup(s: string) {
    && |s| > 0 && IsDigit(s[0]) && IsDigit(s[|s| - 1])
    && (forall i :: 0 <= i < |s| ==> IsDigit(s[i]) || s[i] == '_')
    && NoDoubleUnderscore(s)
  }

  predicate NoDoubleUnderscore(s: string) {
    |s| < 2 || (!(s[0] == '_' && s[1] == '_') && NoDoubleUnderscore(s[1..]))
  }

  lemma {:induction false} DigitsHaveNoUnderscore(s: string)
    requires forall i :: 0 <= i < |s| ==> IsDigit(s[i])
    ensures NoDoubleUnderscore(s)
  {
    if |s| >= 2 {
      DigitsHaveNoUnderscore(s[1..]);
    }
  }

  /** The number the digits of `s` spell, underscores skipped. */
  function DigitsValue(s: string): nat {
    if s == [] then 0
    else
      var last := s[|s| - 1];
      if IsDigit(last) then DigitsValue(s[..|s| - 1]) * 10 + (last as int - '0' as int)
      else DigitsValue(s[..|s| - 1])
  }

  /** `int(s)` on ASCII text: surrounding whitespace, an optional sign, then
      a group of ASCII digits; `None` where Python raises ValueError. */
  function ParseInt(s: string): Option<int> {
    var t := Strip(s);
    if |t| > 0 && (t[0] == '+' || t[0] == '-') then
      if IsDigitGroup(t[1..]) then
        var v: int := DigitsValue(t[1..]);
        Some(if t[0] == '-' then -v else v)
      else None
    else if IsDigitGroup(t) then Some(DigitsValue(t))
    else None
  }

  lemma {:induction false} DigitsValueOfDecimal(n: nat)
    ensures DigitsValue(NatToDecimal(n)) == n
  {
    var s := NatToDecimal(n);
    if n >= 10 {
      DigitsValueOfDecimal(n / 10);
      assert s[..|s| - 1] == NatToDecimal(n / 10);
    } else {
      assert s[..|s| - 1] == [];
    }
  }

  lemma DecimalIsStripped(n: int)
    ensures IsStripped(IntToDecimal(n))
  {
    var d := NatToDecimal(if n < 0 then -n else n);
    assert IsDigit(d[0]) && IsDigit(d[|d| - 1]);
  }

  /** `int(str(n)) == n`, and `int()` ignores whitespace padding. */
  lemma ParseIntDecimal(n: int, w1: string, w2: string)
    requires AllSpace(w1) && AllSpace(w2)
    ensures ParseInt(w1 + IntToDecimal(n) + w2) == Some(n)
  {
    var t := IntToDecimal(n);
    DecimalIsStripped(n);
    StripPadded(w1, t, w2);
    ParseStrippedDecimal(n);
  }

  /** `int()` of one or two digits is their decimal value. */
  lemma ParseShortDigits(s: string)
    requires 1 <= |s| <= 2 && IsDigit(s[0]) && IsDigit(s[|s| - 1])
    ensures ParseInt(s) == Some(if |s| == 1 then s[0] as int - '0' as int
                                else (s[0] as int - '0' as int) * 10 + (s[1] as int - '0' as int))
  {
    assert IsDigitGroup(s);
    ParseDigitGroup(s);
    ShortDigitsValue(s);
  }

  lemma ParseDigitGroup(s: string)
    requires IsDigitGroup(s)
    ensures ParseInt(s) == Some(DigitsValue(s) as int)
  {
    DigitGroupIsStripped(s);
    StripStripped(s);
  }

  lemma DigitGroupIsStripped(s: string)
    requires IsDigitGroup(s)
    ensures IsStripped(s)
  {
  }

  lemma ShortDigitsValue(s: string)
    requires 1 <= |s| <= 2 && IsDigit(s[0]) && IsDigit(s[|s| - 1])
    ensures DigitsValue(s) == if |s| == 1 then s[0] as int - '0' as int
                              else (s[0] as int - '0' as int) * 10 + (s[1] as int - '0' as int)
  {
    var init := s[..|s| - 1];
    assert |s| == 2 ==> init[..0] == [] && DigitsValue(init) == s[0] as int - '0' as int;
  }

  /** `int(str(n)) == n` once the padding is gone. */
  lemma ParseStrippedDecimal(n: int)
    ensures var t := IntToDecimal(n);
      (|t| > 0 && (t[0] == '+' || t[0] == '-') ==>
        IsDigitGroup(t[1..]) && (if t[0] == '-' then -(DigitsValue(t[1..]) as int) else DigitsValue(t[1..])) == n)
    ensures var t := IntToDecimal(n);
      (!(|t| > 0 && (t[0] == '+' || t[0] == '-')) ==> IsDigitGroup(t) && DigitsValue(t) == n)
  {
    var t := IntToDecimal(n);
    if n < 0 {
      var d := NatToDecimal(-n);
      DigitsValueOfDecimal(-n);
      assert t[1..] == d;
      DigitsHaveNoUnderscore(d);
    } else {
      DigitsValueOfDecimal(n);
      DigitsHaveNoUnderscore(t);
    }
  }

  /** `int("")` and `int("abc")` raise. */
  lemma ParseIntRejects()
    ensures ParseInt("") == None
    ensures ParseInt("abc") == None
  {
    StripPadded("", "abc", "");
    assert "" + "abc" + "" == "abc";
  }

  /** `int("1__0")` raises: underscores only ever come one at a time. */
  lemma ParseIntRejectsDoubleUnderscore()
    ensures ParseInt("1__0") == None
  {
    StripPadded("", "1__0", "");
    assert "" + "1__0" + "" == "1__0";
    assert !IsDigitGroup("1__0") by {
      assert "1__0"[1..] == "__0";
    }
  }
  /** The index of the first character of `s` in `cs`, or `|s|` when none is. */
  function FirstOf(s: string, cs: set<char>): (i: nat)
    ensures i <= |s|
    ensures forall j :: 0 <= j < i ==> s[j] !in cs
    ensures i < |s| ==> s[i] in cs
  {
    if s == [] || s[0] in cs then 0 else 1 + FirstOf(s[1..], cs)
  }

  /** The special values `float()` accepts, in any mix of case. */
  predicate IsFloatSpecial(u: string) {
    var l := LowerAscii(u);
    l == "inf" || l == "infinity" || l == "nan"
  }

  predicate IsOptionalDigitGroup(s: string) {
    s == [] || IsDigitGroup(s)
  }

  /** The part of a decimal literal before its exponent: digit groups
      around at most one '.', with at least one digit. */
  predicate IsMantissa(m: string) {
    var k := FirstOf(m, {'.'});
    if k == |m| then IsDigitGroup(m)
    else
      var whole, fraction := m[..k], m[k + 1..];
      && (whole != [] || fraction != [])
      && IsOptionalDigitGroup(whole) && IsOptionalDigitGroup(fraction)
  }

  /** The part after 'e' or 'E': an optional sign, then a digit group. */
  predicate IsExponent(x: string) {
    if |x| > 0 && (x[0] == '+' || x[0] == '-') then IsDigitGroup(x[1..]) else IsDigitGroup(x)
  }

  /** A decimal literal: a mantissa, then optionally 'e' or 'E' and an exponent. */
  predicate IsDecimalFloat(u: string) {
    var k := FirstOf(u, {'e', 'E'});
    IsMantissa(u[..k]) && (k == |u| || IsExponent(u[k + 1..]))
  }

  /** A float literal once its sign is gone: a special value or a decimal literal. */
  predicate IsFloatBody(u: string) {
    IsFloatSpecial(u) || IsDecimalFloat(u)
  }

  /** The text after an optional leading sign. */
  function Unsigned(t: string): (u: string)
    ensures |u| <= |t| && u == t[|t| - |u|..]
  {
    if |t| > 0 && (t[0] == '+' || t[0] == '-') then t[1..] else t
  }

  /** `float(s)` does not raise: surrounding whitespace, an optional sign,
      then a special value or a decimal literal. The value is not modelled. */
  predicate FloatParses(s: string) {
    IsFloatBody(Unsigned(Strip(s)))
  }

  lemma NoneOf(s: string, cs: set<char>)
    requires forall i :: 0 <= i < |s| ==> s[i] !in cs
    ensures FirstOf(s, cs) == |s|
  {
  }

  /** A digit group is a decimal literal with no '.' and no exponent. */
  lemma DigitGroupIsDecimalFloat(u: string)
    requires IsDigitGroup(u)
    ensures IsDecimalFloat(u)
  {
    NoneOf(u, {'e', 'E'});
    assert u[..|u|] == u;
    NoneOf(u, {'.'});
  }

  /** Every string `int()` accepts, `float()` accepts too. */
  lemma IntTextIsFloatText(s: string)
    requires ParseInt(s).Some?
    ensures FloatParses(s)
  {
    var t := Strip(s);
    assert IsDigitGroup(Unsigned(t));
    DigitGroupIsDecimalFloat(Unsigned(t));
  }

  /** `float()` accepts the default volume, exponents, signs and the special
      values, and rejects words, a lone '.', and underscores that do not sit
      between two digits. */
  lemma FloatParsesExamples()
    ensures FloatParses("0.15") && FloatParses("1e-3") && FloatParses("-Infinity")
    ensures !FloatParses("loud") && !FloatParses(".") && !FloatParses("1_.5")
  {
    FloatAcceptsInfinity();
    FloatAcceptsDefaultVolume();
    FloatAcceptsExponent();
    FloatRejectsWord();
    FloatRejectsLoneDot();
    FloatRejectsTrailingUnderscore();
  }

  lemma FloatAcceptsDefaultVolume() ensures FloatParses("0.15") {
    PlainFloatText("0.15");
    DecimalAcceptsDefaultVolume();
  }

  lemma FloatAcceptsExponent() ensures FloatParses("1e-3") {
    PlainFloatText("1e-3");
    DecimalAcceptsExponent();
  }

  lemma FloatRejectsWord() ensures !FloatParses("loud") {
    PlainFloatText("loud");
    BodyRejectsWord();
  }

  lemma FloatRejectsLoneDot() ensures !FloatParses(".") {
    PlainFloatText(".");
    BodyRejectsLoneDot();
  }

  lemma FloatRejectsTrailingUnderscore() ensures !FloatParses("1_.5") {
    PlainFloatText("1_.5");
    BodyRejectsTrailingUnderscore();
  }

  /** A string with no padding and no sign is its own body. */
  lemma PlainFloatText(s: string)
    requires IsStripped(s) && s != [] && s[0] != '+' && s[0] != '-'
    ensures FloatParses(s) == IsFloatBody(s)
  {
    StripStripped(s);
  }

  lemma DecimalAcceptsDefaultVolume()
    ensures IsDecimalFloat("0.15")
  {
    var u := "0.15";
    NoneOf(u, {'e', 'E'});
    assert u[..4] == u;
    assert FirstOf(u, {'.'}) == 1 by {
      assert u[1..] == ".15";
    }
    assert u[..1] == "0" && u[2..] == "15";
    assert IsDigitGroup("15") by {
      assert "15"[1..] == "5";
    }
  }

  lemma FloatAcceptsInfinity()
    ensures FloatParses("-Infinity")
  {
    StripStripped("-Infinity");
    assert Unsigned("-Infinity") == "Infinity";
    assert LowerAscii("Infinity") == "infinity";
  }

  lemma DecimalAcceptsExponent()
    ensures IsDecimalFloat("1e-3")
  {
    var u := "1e-3";
    assert FirstOf(u, {'e', 'E'}) == 1 by {
      assert u[1..] == "e-3";
    }
    assert IsMantissa(u[..1]) by {
      assert u[..1] == "1";
      assert FirstOf("1", {'.'}) == 1 by {
        assert "1"[1..] == "";
      }
    }
    assert IsExponent(u[2..]) by {
      assert u[2..] == "-3" && "-3"[1..] == "3";
    }
  }

  lemma BodyRejectsWord()
    ensures !IsFloatBody("loud")
  {
    var u := "loud";
    assert LowerAscii(u) == "loud";
    NoneOf(u, {'e', 'E'});
    NoneOf(u, {'.'});
    assert u[..4] == u;
  }

  lemma BodyRejectsLoneDot()
    ensures !IsFloatBody(".")
  {
    assert |LowerAscii(".")| == 1;
    NoneOf(".", {'e', 'E'});
    assert "."[..1] == ".";
    assert "."[..0] == [] && "."[1..] == [];
  }

  lemma BodyRejectsTrailingUnderscore()
    ensures !IsFloatBody("1_.5")
  {
    var u := "1_.5";
    assert |LowerAscii(u)| == 4;
    NoneOf(u, {'e', 'E'});
    assert u[..4] == u;
    assert FirstOf(u, {'.'}) == 2 by {
      assert u[1..] == "_.5" && u[2..] == ".5";
    }
    assert u[..2] == "1_";
  }
}
