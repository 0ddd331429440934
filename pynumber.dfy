/** Python's `int(float(s))`, the conversion both interview front ends apply
    to the score text of an evaluator reply. `float` accepts an optional sign
    followed by a decimal numeral (`7`, `7.5`, `7.`, `.5`) or by one of the
    words `inf`, `infinity`, `nan` in any case, all surrounded by optional
    white space; a numeral too large for a double becomes an infinity. `int`
    then truncates toward zero, raises OverflowError on an infinity and
    ValueError on a NaN. */
module PyNumber {
  import opened PyText

  /** The value `int(float(s))` returns, or the exception it raises. */
  datatype IntOfFloatResult = Truncated(value: int) | ValueError | OverflowError

  /** 2^1024 - 2^970, halfway between the largest finite double
      (2^1024 - 2^971) and 2^1024. Rounding to nearest, ties to even, sends a
      decimal value to infinity exactly when its magnitude reaches this
      bound; as the bound is an integer, that is when the integer part of the
      numeral reaches it. */
  const FLOAT_OVERFLOW_BOUND: nat := 179769313486231580793728971405303415079934132710037826936173778980444968292764750946649017977587207096330286416692887910946555547851940402630657488671505820681908902000708383676273854845817711531764475730270069855571366959622842914819860834936475292719074168444365510704342711559699508093042880177904174497792

  /** The integers whose decimal text `float` reads as a finite number. */
  predicate InFloatRange(n: int) {
    -(FLOAT_OVERFLOW_BOUND as int) < n < FLOAT_OVERFLOW_BOUND
  }

  /** The numeral without its sign. */
  function Unsigned(t: string): (r: string)
    ensures |r| <= |t|
  {
    if |t| > 0 && (t[0] == '-' || t[0] == '+') then t[1..] else t
  }

  /** The integer part of `digits ['.' digits]` or `'.' digits`; None when
      the text has any other shape. */
  function DecimalIntegerPart(body: string): (r: Option<nat>)
  {
    match Find(body, ".")
    case None => if |body| > 0 && AllDigits(body) then Some(DigitsValue(body)) else None
    case Some(i) =>
      var whole, fraction := body[..i], body[i + 1..];
      if AllDigits(whole) && AllDigits(fraction) && |whole| + |fraction| > 0
      then Some(DigitsValue(whole))
      else None
  }

  /** `int(float(s))` for a string `s` that is already stripped. */
  function NumeralValue(t: string): (r: IntOfFloatResult)
    ensures t == [] ==> r == ValueError
  {
    var body := Unsigned(t);
    if AnInfinity(body) then OverflowError
    else if IsSpecialWord(body, "nan") then ValueError
    else
      match DecimalIntegerPart(body)
      case None => ValueError
      case Some(m) =>
        if m >= FLOAT_OVERFLOW_BOUND then OverflowError
        else Truncated(if |t| > 0 && t[0] == '-' then -(m as int) else m)
  }

  /** `body.lower() == word`, for a lower-case ASCII word. */
  predicate IsSpecialWord(body: string, word: string) {
    AsciiLower(body) == word
  }

  /** The words `float` reads as an infinity. */
  predicate AnInfinity(body: string) {
    IsSpecialWord(body, "inf") || IsSpecialWord(body, "infinity")
  }

  function IntOfFloat(s: string): (r: IntOfFloatResult)
    ensures AllSpace(s) ==> r == ValueError
  {
    if AllSpace(s) then
      AllSpaceStripsToEmpty(s);
      NumeralValue(Strip(s))
    else NumeralValue(Strip(s))
  }

  lemma {:induction false} DigitsHaveNoDot(d: string)
    requires AllDigits(d)
    ensures HeadCharFree(d, ".")
  {
    assert forall i :: 0 <= i < |d| ==> d[i] != '.';
  }

  /** A numeral whose first character is a digit is not one of the words. */
  lemma {:induction false} NotAWord(body: string)
    requires |body| > 0 && IsDigit(body[0])
    ensures !IsSpecialWord(body, "inf") && !IsSpecialWord(body, "infinity") && !IsSpecialWord(body, "nan")
  {
    assert AsciiLower(body)[0] == body[0];
  }

  /** A plain run of digits is read as its decimal value. */
  lemma {:induction false} DigitsNumeral(body: string)
    requires |body| > 0 && AllDigits(body)
    ensures DecimalIntegerPart(body) == Some(DigitsValue(body))
    ensures !IsSpecialWord(body, "inf") && !IsSpecialWord(body, "infinity") && !IsSpecialWord(body, "nan")
  {
    NotAWord(body);
    DigitsHaveNoDot(body);
    NotContained(body, ".");
  }

  /** A stripped numeral that is a sign followed by an unsigned decimal. */
  lemma {:induction false} SignedNumeral(t: string, body: string, m: nat)
    requires t == body || t == "-" + body
    requires |body| > 0 && IsDigit(body[0]) && DecimalIntegerPart(body) == Some(m)
    ensures NumeralValue(t)
         == if m >= FLOAT_OVERFLOW_BOUND then OverflowError else Truncated(if t == body then m else -(m as int))
  {
    assert Unsigned(t) == body;
    NotAWord(body);
  }

  lemma {:induction false} IntToStringStripped(n: int)
    ensures Strip(IntToString(n)) == IntToString(n)
  {
    assert IsStripped(IntToString(n));
    StrippedFixed(IntToString(n));
  }

  /** `int(float(str(n)))`: the rendering of an integer reads back as itself
      while it fits a double, and overflows beyond. */
  lemma {:induction false} IntOfFloatOfString(n: int)
    ensures InFloatRange(n) ==> IntOfFloat(IntToString(n)) == Truncated(n)
    ensures !InFloatRange(n) ==> IntOfFloat(IntToString(n)) == OverflowError
  {
    var m: nat := if n < 0 then -n else n;
    var body := NatToString(m);
    DigitsNumeral(body);
    SignedNumeral(IntToString(n), body, m);
    IntToStringStripped(n);
  }

  lemma {:induction false} FractionNumeral(digits: string, fraction: string)
    requires |digits| > 0 && AllDigits(digits) && AllDigits(fraction)
    ensures DecimalIntegerPart(digits + "." + fraction) == Some(DigitsValue(digits))
  {
    var body := digits + "." + fraction;
    DigitsHaveNoDot(digits);
    SkipHeadFree(body, ".", 0, |digits|);
    assert body[|digits|..|digits| + 1] == ".";
    FoundAt(body, ".", |digits|);
    assert body[..|digits|] == digits;
    assert body[|digits| + 1..] == fraction;
  }

  lemma {:induction false} FractionStripped(n: int, fraction: string)
    requires AllDigits(fraction)
    ensures Strip(IntToString(n) + "." + fraction) == IntToString(n) + "." + fraction
  {
    var s := IntToString(n) + "." + fraction;
    assert IsStripped(s) by {
      if fraction != [] {
        assert s[|s| - 1] == fraction[|fraction| - 1];
      }
    }
    StrippedFixed(s);
  }

  /** `int(float(str(n) + "." + f)) == n`: the fraction is dropped, which for a
      negative number is truncation toward zero. */
  lemma {:induction false} IntOfFloatTruncates(n: int, fraction: string)
    requires AllDigits(fraction) && InFloatRange(n)
    ensures IntOfFloat(IntToString(n) + "." + fraction) == Truncated(n)
  {
    var m: nat := if n < 0 then -n else n;
    var digits := NatToString(m);
    var body := digits + "." + fraction;
    FractionNumeral(digits, fraction);
    assert IntToString(n) + "." + fraction == if n < 0 then "-" + body else body;
    SignedNumeral(IntToString(n) + "." + fraction, body, m);
    FractionStripped(n, fraction);
  }

  /** `int(float("-7.9")) == -7`: truncation, not flooring. */
  lemma {:induction false} NegativeTruncatesTowardZero()
    ensures IntOfFloat("-7.9") == Truncated(-7)
  {
    assert DigitChar(7) == '7';
    assert NatToString(7) == "7";
    assert IntToString(-7) == "-7";
    assert IntToString(-7) + "." + "9" == "-7.9";
    IntOfFloatTruncates(-7, "9");
  }

  /** `int(float("inf"))` raises OverflowError. */
  lemma {:induction false} InfinityOverflows()
    ensures IntOfFloat("inf") == OverflowError
  {
    var s := "inf";
    StrippedFixed(s);
    assert Unsigned(s) == s;
    assert AsciiLower(s) == s;
  }

  // ---------------------------------------------------------------------------
  // What `float` accepts

  /** The decimal shape `float` accepts after the sign: digits, or digits
      around a single dot, with at least one digit. */
  predicate IsDecimalShape(body: string) {
    (|body| > 0 && AllDigits(body))
    || exists i :: 0 <= i < |body| && body[i] == '.' && AllDigits(body[..i]) && AllDigits(body[i + 1..]) && |body| > 1
  }

  /** `DecimalIntegerPart` recognises exactly the decimal shape and returns
      the value of the digits before the dot. */
  lemma {:induction false} DecimalIntegerPartShape(body: string)
    ensures DecimalIntegerPart(body).Some? <==> IsDecimalShape(body)
    ensures |body| > 0 && AllDigits(body) ==> DecimalIntegerPart(body) == Some(DigitsValue(body))
    ensures forall i :: 0 <= i < |body| && body[i] == '.' && AllDigits(body[..i]) && AllDigits(body[i + 1..]) && |body| > 1
                 ==> DecimalIntegerPart(body) == Some(DigitsValue(body[..i]))
  {
    if |body| > 0 && AllDigits(body) {
      DigitsNumeral(body);
    }
    forall i | 0 <= i < |body| && body[i] == '.' && AllDigits(body[..i]) && AllDigits(body[i + 1..]) && |body| > 1
      ensures DecimalIntegerPart(body) == Some(DigitsValue(body[..i]))
    {
      DotAt(body, i);
    }
    FindFromFirst(body, ".", 0);
    match Find(body, ".")
    case None =>
    case Some(i) =>
      assert body[i..i + 1] == ".";
      assert body[i] == '.';
  }

  /** The first dot of a body whose text before it is all digits is found. */
  lemma {:induction false} DotAt(body: string, i: nat)
    requires i < |body| && body[i] == '.' && AllDigits(body[..i])
    ensures Find(body, ".") == Some(i)
  {
    forall j | 0 <= j < i ensures body[j] != '.' {
      assert body[j] == body[..i][j];
    }
    SkipHeadFree(body, ".", 0, i);
    assert body[i..i + 1] == ".";
    FoundAt(body, ".", i);
  }

  /** A decimal starts with a digit or a dot, so it is never one of the words. */
  lemma {:induction false} DecimalIsNotAWord(body: string)
    requires DecimalIntegerPart(body).Some?
    ensures !IsSpecialWord(body, "inf") && !IsSpecialWord(body, "infinity") && !IsSpecialWord(body, "nan")
  {
    FindFromFirst(body, ".", 0);
    match Find(body, ".")
    case None =>
    case Some(i) =>
      assert body[i..i + 1] == ".";
      if i > 0 {
        assert body[0] == body[..i][0];
      }
    assert |body| > 0 && (IsDigit(body[0]) || body[0] == '.');
    assert AsciiLower(body)[0] == body[0];
  }

  /** Every outcome of `int(float(t))` for a stripped `t`: a value exactly for
      a decimal whose integer part is below the overflow bound, with the sign
      applied; OverflowError for the infinity words and for larger decimals;
      ValueError for `nan` and for every other text. */
  lemma {:induction false} NumeralValueCases(t: string)
    ensures var body := Unsigned(t);
            var m := DecimalIntegerPart(body);
            (NumeralValue(t).Truncated? <==> m.Some? && m.value < FLOAT_OVERFLOW_BOUND)
            && (NumeralValue(t).Truncated? ==>
                  NumeralValue(t).value == if |t| > 0 && t[0] == '-' then -(m.value as int) else m.value)
            && (NumeralValue(t).OverflowError? <==>
                  AnInfinity(body) || (m.Some? && m.value >= FLOAT_OVERFLOW_BOUND))
            && (NumeralValue(t).ValueError? <==> IsSpecialWord(body, "nan") || (m.None? && !AnInfinity(body)))
  {
    if DecimalIntegerPart(Unsigned(t)).Some? {
      DecimalIsNotAWord(Unsigned(t));
    }
  }
}
