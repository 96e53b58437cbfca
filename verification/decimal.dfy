/** Base-10 signed 64-bit parsing and printing, as strconv.ParseInt(s, 10, 64) and strconv.FormatInt(n, 10)
    behave. Comb.Incr stores its counters in this form and ExtractTokenCount reads it. */
module Decimal {
  import opened Wrappers

  const MAX_INT64 := 0x7FFF_FFFF_FFFF_FFFF
  const MIN_INT64 := -0x8000_0000_0000_0000

  predicate IsInt64(n: int) {
    MIN_INT64 <= n <= MAX_INT64
  }

  predicate IsDigit(c: char) {
    '0' <= c <= '9'
  }

  predicate AllDigits(s: string) {
    forall i | 0 <= i < |s| :: IsDigit(s[i])
  }

  function DigitChar(d: nat): char
    requires d < 10
  {
    '0' + d as char
  }

  function DigitValue(c: char): nat
    requires IsDigit(c)
  {
    (c as int) - ('0' as int)
  }

  function FormatNat(n: nat): string {
    if n < 10 then [DigitChar(n)] else FormatNat(n / 10) + [DigitChar(n % 10)]
  }

  function FormatInt(n: int): string {
    if n < 0 then "-" + FormatNat(-n) else FormatNat(n)
  }

  function DigitsValue(s: string): nat
    requires AllDigits(s)
  {
    if s == "" then 0 else 10 * DigitsValue(s[..|s| - 1]) + DigitValue(s[|s| - 1])
  }

  /** At least one digit, then the 64-bit range check. */
  function ParseDigits(digits: string, negative: bool): Option<int> {
    if digits == "" || !AllDigits(digits) then None
    else
      var magnitude: int := DigitsValue(digits);
      var n := if negative then -magnitude else magnitude;
      if IsInt64(n) then Some(n) else None
  }

  predicate IsSigned(s: string) {
    s != "" && (s[0] == '-' || s[0] == '+')
  }

  /** An optional sign, then the digits. */
  function ParseInt(s: string): Option<int> {
    ParseDigits(if IsSigned(s) then s[1..] else s, IsSigned(s) && s[0] == '-')
  }

  lemma {:induction false} FormatNatReadsBack(n: nat)
    ensures FormatNat(n) != "" && AllDigits(FormatNat(n)) && DigitsValue(FormatNat(n)) == n
  {
    if n >= 10 {
      FormatNatReadsBack(n / 10);
      assert FormatNat(n)[..|FormatNat(n)| - 1] == FormatNat(n / 10);
    }
  }

  /** What Incr writes, the next Incr reads back as the same number. */
  lemma ParseUndoesFormat(n: int)
    requires IsInt64(n)
    ensures ParseInt(FormatInt(n)) == Some(n)
  {
    FormatNatReadsBack(if n < 0 then -n else n);
    if n < 0 {
      assert FormatInt(n)[1..] == FormatNat(-n);
    } else {
      assert IsDigit(FormatInt(n)[0]);
    }
  }

  // ----- Which texts are numbers -----

  /** FormatNat writes base 10. */
  lemma FormatNatIsDecimal(n: nat, d: nat)
    requires d < 10
    ensures FormatNat(d) == ["0123456789"[d]]
    ensures n > 0 ==> FormatNat(10 * n + d) == FormatNat(n) + ["0123456789"[d]]
  {
    assert "0123456789"[d] == '0' + d as char;
    assert (10 * n + d) / 10 == n && (10 * n + d) % 10 == d;
  }

  function Zeros(count: nat): string {
    seq(count, _ => '0')
  }

  /** A sign that goes with n or none, any number of zeros, and the magnitude of n. */
  predicate IsText(s: string, n: int, sign: string, zeros: nat) {
    && s == sign + Zeros(zeros) + FormatNat(if n < 0 then -n else n)
    && (sign == "-" || (n >= 0 && (sign == "" || sign == "+")))
    && (sign == "-" ==> n <= 0)
  }

  /** A text is read as n if and only if n is an int64 and the text one of its base-10 texts; every other text is no
      number. */
  lemma ParsesExactly(s: string, n: int)
    ensures ParseInt(s) == Some(n) <==> IsInt64(n) && exists sign, zeros :: IsText(s, n, sign, zeros)
  {
    if IsInt64(n) && exists sign, zeros :: IsText(s, n, sign, zeros) {
      var sign, zeros :| IsText(s, n, sign, zeros);
      TextIsRead(s, n, sign, zeros);
    }
    if ParseInt(s) == Some(n) {
      var sign, zeros := ReadIsText(s, n);
    }
  }

  lemma ReadIsText(s: string, n: int) returns (sign: string, zeros: nat)
    requires ParseInt(s) == Some(n)
    ensures IsText(s, n, sign, zeros)
  {
    var digits := if IsSigned(s) then s[1..] else s;
    sign := if IsSigned(s) then [s[0]] else "";
    assert s == sign + digits;
    zeros := DigitsAreText(digits);
    DigitsBehindSign(s, n, sign, digits, zeros);
  }

  lemma DigitsBehindSign(s: string, n: int, sign: string, digits: string, zeros: nat)
    requires s == sign + digits && AllDigits(digits) && digits == Zeros(zeros) + FormatNat(DigitsValue(digits))
    requires sign == "" || sign == "+" || sign == "-"
    requires if sign == "-" then -n == DigitsValue(digits) else n == DigitsValue(digits)
    ensures IsText(s, n, sign, zeros)
  {
    SignAndDigits(sign, Zeros(zeros), FormatNat(DigitsValue(digits)));
  }

  lemma SignAndDigits(sign: string, zeros: string, digits: string)
    ensures sign + zeros + digits == sign + (zeros + digits)
  {}

  lemma TextIsRead(s: string, n: int, sign: string, zeros: nat)
    requires IsText(s, n, sign, zeros) && IsInt64(n)
    ensures ParseInt(s) == Some(n)
  {
    var magnitude := if n < 0 then -n else n;
    FormatNatReadsBack(magnitude);
    ZerosCountNothing(zeros, FormatNat(magnitude));
    SignAndDigits(sign, Zeros(zeros), FormatNat(magnitude));
    SignedIsRead(s, sign, Zeros(zeros) + FormatNat(magnitude), n);
  }

  lemma SignedIsRead(s: string, sign: string, digits: string, n: int)
    requires s == sign + digits && digits != "" && AllDigits(digits) && IsInt64(n)
    requires sign == "" || sign == "+" || sign == "-"
    requires if sign == "-" then -n == DigitsValue(digits) else n == DigitsValue(digits)
    ensures ParseInt(s) == Some(n)
  {
    assert IsDigit(digits[0]);
    assert ParseDigits(digits, sign == "-") == Some(n);
    if sign == "" {
      assert s == digits;
    } else {
      SignIsSplitOff(s, sign, digits);
    }
  }

  lemma SignIsSplitOff(s: string, sign: string, digits: string)
    requires s == sign + digits && |sign| == 1
    ensures s != "" && s[0] == sign[0] && s[1..] == digits
  {}

  lemma {:induction false} ZerosCountNothing(zeros: nat, digits: string)
    requires AllDigits(digits)
    ensures AllDigits(Zeros(zeros) + digits) && DigitsValue(Zeros(zeros) + digits) == DigitsValue(digits)
    decreases |digits|, zeros
  {
    var all := Zeros(zeros) + digits;
    if digits != "" {
      ZerosCountNothing(zeros, digits[..|digits| - 1]);
      assert all[..|all| - 1] == Zeros(zeros) + digits[..|digits| - 1];
    } else if zeros > 0 {
      ZerosCountNothing(zeros - 1, "");
      assert all[..|all| - 1] == Zeros(zeros - 1) + "";
    }
  }

  /** One more digit after a text. */
  lemma OneMoreDigit(n: nat, d: nat)
    requires d < 10
    ensures FormatNat(10 * n + d) == (if n == 0 then "" else FormatNat(n)) + [DigitChar(d)]
  {
    assert (10 * n + d) / 10 == n && (10 * n + d) % 10 == d;
  }

  lemma {:induction false} DigitsAreText(digits: string) returns (zeros: nat)
    requires digits != "" && AllDigits(digits)
    ensures digits == Zeros(zeros) + FormatNat(DigitsValue(digits))
  {
    var n := |digits| - 1;
    var front, c := digits[..n], digits[n];
    OneMoreDigit(DigitsValue(front), DigitValue(c));
    zeros := 0;
    if front != "" {
      zeros := DigitsAreText(front);
      if DigitsValue(front) == 0 {
        assert FormatNat(0) == "0";
        zeros := zeros + 1;
      }
    }
    assert digits == front + [c];
  }
}
