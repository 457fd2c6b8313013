/*
 * src/utils.c: pkcs11_logger_utils_str_to_long, a checked wrapper around
 * strtoul(str, &endptr, 10) as ISO C11 section 7.22.1.4 defines it.
 */
module Utils {
  import opened LoggerDefs
  import Format

  // ---------------------------------------------------------------------
  // strtoul(str, &endptr, 10)
  // ---------------------------------------------------------------------

  /** isspace in the "C" locale. */
  predicate IsSpace(c: char) {
    c == ' ' || c == '\t' || c == '\n' || c == 11 as char || c == 12 as char || c == '\r'
  }

  predicate IsDigit(c: char) {
    '0' <= c <= '9'
  }

  /** The first index at or after i that does not hold white space. */
  function SkipSpace(s: string, i: nat): (j: nat)
    requires i <= |s|
    ensures i <= j <= |s|
    ensures forall k :: i <= k < j ==> IsSpace(s[k])
    ensures j < |s| ==> !IsSpace(s[j])
    decreases |s| - i
  {
    if i < |s| && IsSpace(s[i]) then SkipSpace(s, i + 1) else i
  }

  /** The end of the run of decimal digits that starts at i. */
  function DigitRun(s: string, i: nat): (j: nat)
    requires i <= |s|
    ensures i <= j <= |s|
    ensures forall k :: i <= k < j ==> IsDigit(s[k])
    ensures j < |s| ==> !IsDigit(s[j])
    decreases |s| - i
  {
    if i < |s| && IsDigit(s[i]) then DigitRun(s, i + 1) else i
  }

  /** The value of a string of decimal digits, most significant first. */
  function DecimalValue(digits: string): (v: nat)
    requires forall k :: 0 <= k < |digits| ==> IsDigit(digits[k])
  {
    if digits == [] then 0
    else
      assert IsDigit(digits[|digits| - 1]);
      DecimalValue(digits[..|digits| - 1]) * 10 + (digits[|digits| - 1] as int - '0' as int)
  }

  /** What strtoul hands back: the value, where endptr points, and whether errno became ERANGE. */
  datatype Conversion = Conversion(value: nat, end: nat, erange: bool)

  /**
   * strtoul(s, &endptr, 10): white space, an optional sign, then the longest
   * run of digits. Without digits nothing is consumed and the value is 0. A
   * magnitude above ULONG_MAX gives ULONG_MAX and ERANGE; otherwise a minus
   * sign negates in unsigned long arithmetic.
   */
  function Strtoul(s: string): (r: Conversion)
    ensures r.end <= |s|
    ensures r.value <= ULONG_MAX
    ensures r.erange ==> r.value == ULONG_MAX && r.end > 0
    ensures r.end == 0 ==> r.value == 0 && !r.erange
  {
    var i := SkipSpace(s, 0);
    var negative := i < |s| && s[i] == '-';
    var j := if i < |s| && (s[i] == '+' || s[i] == '-') then i + 1 else i;
    var k := DigitRun(s, j);
    if k == j then Conversion(0, 0, false)
    else
      var magnitude := DecimalValue(s[j..k]);
      if magnitude > ULONG_MAX then Conversion(ULONG_MAX, k, true)
      else if negative && magnitude > 0 then Conversion(ULONG_MAX + 1 - magnitude, k, false)
      else Conversion(magnitude, k, false)
  }

  // ---------------------------------------------------------------------
  // pkcs11_logger_utils_str_to_long
  // ---------------------------------------------------------------------

  /** The return code and the value `*val` holds afterwards; None stands for a NULL pointer. */
  datatype StrToLongResult = StrToLongResult(rv: int, val: Option<nat>)

  /**
   * A NULL argument, an errno set by strtoul, or anything but the end of the
   * string (or a NUL) at endptr is an error, and `*val` is then left as it
   * was. Otherwise `*val` receives the converted value.
   */
  function StrToLong(str: Option<string>, val: Option<nat>): (r: StrToLongResult)
    ensures r.rv == RV_SUCCESS || r.rv == RV_ERROR
    ensures r.rv == RV_ERROR ==> r.val == val
    ensures (str.None? || val.None?) ==> r.rv == RV_ERROR
    ensures r.rv == RV_SUCCESS <==>
      str.Some? && val.Some? && !Strtoul(str.value).erange && AtTerminator(str.value, Strtoul(str.value).end)
    ensures r.rv == RV_SUCCESS ==> r.val == Some(Strtoul(str.value).value)
  {
    if str.None? || val.None? then StrToLongResult(RV_ERROR, val)
    else
      var c := Strtoul(str.value);
      if c.erange || !AtTerminator(str.value, c.end) then StrToLongResult(RV_ERROR, val)
      else StrToLongResult(RV_SUCCESS, Some(c.value))
  }

  /** `*endptr == '\0'`: endptr is at the end of the text or at an embedded NUL. */
  predicate AtTerminator(s: string, i: nat) {
    i >= |s| || s[i] == '\0'
  }

  // ---------------------------------------------------------------------
  // Properties
  // ---------------------------------------------------------------------

  /** The decimal rendering of a number is a run of digits worth that number. */
  lemma {:induction false} DecimalValueOfDecimal(n: nat)
    ensures forall k :: 0 <= k < |Format.Decimal(n)| ==> IsDigit(Format.Decimal(n)[k])
    ensures DecimalValue(Format.Decimal(n)) == n
  {
    var s := Format.Decimal(n);
    DecimalAllDigits(n);
    if n >= 10 {
      DecimalValueOfDecimal(n / 10);
      assert s[..|s| - 1] == Format.Decimal(n / 10);
      DigitCharValue(n % 10);
    } else {
      DigitCharValue(n);
    }
  }

  lemma DecimalAllDigits(n: nat)
    ensures forall k :: 0 <= k < |Format.Decimal(n)| ==> IsDigit(Format.Decimal(n)[k])
  {
    var s := Format.Decimal(n);
    assert forall k :: 0 <= k < |s| ==> s[k] in s;
  }

  lemma DigitCharValue(d: nat)
    requires d < 10
    ensures Format.DecimalDigits[d] as int - '0' as int == d
  {
  }

  /**
   * Round trip: every unsigned long, written in decimal, is read back exactly.
   */
  lemma DecimalRoundTrip(n: nat, old_val: nat)
    requires n <= ULONG_MAX
    ensures StrToLong(Some(Format.Decimal(n)), Some(old_val)) == StrToLongResult(RV_SUCCESS, Some(n))
  {
    var s := Format.Decimal(n);
    DecimalValueOfDecimal(n);
    assert !IsSpace(s[0]) && s[0] != '+' && s[0] != '-';
    assert SkipSpace(s, 0) == 0;
    DigitRunAll(s, 0);
    assert s[0..|s|] == s;
  }

  lemma {:induction false} DigitRunAll(s: string, i: nat)
    requires i <= |s|
    requires forall k :: 0 <= k < |s| ==> IsDigit(s[k])
    ensures DigitRun(s, i) == |s|
    decreases |s| - i
  {
    if i < |s| {
      DigitRunAll(s, i + 1);
    }
  }

  /** Text after the digits makes the conversion fail, and `*val` keeps its value. */
  lemma TrailingTextRejected(old_val: nat)
    ensures StrToLong(Some("InvalidValue"), Some(old_val)) == StrToLongResult(RV_ERROR, Some(old_val))
    ensures StrToLong(Some("0x10"), Some(old_val)) == StrToLongResult(RV_ERROR, Some(old_val))
  {
    var s := "0x10";
    assert SkipSpace(s, 0) == 0;
    assert DigitRun(s, 1) == 1;
    assert DigitRun(s, 0) == 1;
    assert s[0..1] == "0";
    assert DecimalValue(s[0..1]) == DecimalValue(s[0..0]) * 10;
    var t := "InvalidValue";
    assert SkipSpace(t, 0) == 0;
    assert DigitRun(t, 0) == 0;
  }

  /** A value above ULONG_MAX sets ERANGE and is rejected. */
  lemma OverflowRejected(digits: string, old_val: nat)
    requires |digits| > 0 && forall k :: 0 <= k < |digits| ==> IsDigit(digits[k])
    requires DecimalValue(digits) > ULONG_MAX
    ensures StrToLong(Some(digits), Some(old_val)) == StrToLongResult(RV_ERROR, Some(old_val))
  {
    assert SkipSpace(digits, 0) == 0;
    DigitRunAll(digits, 0);
    assert digits[0..|digits|] == digits;
  }

  /**
   * The empty string converts to 0 with endptr at the terminating NUL, so it
   * is accepted; leading white space and a sign are accepted too.
   */
  lemma StrtoulEdgeCases(old_val: nat)
    ensures StrToLong(Some(""), Some(old_val)) == StrToLongResult(RV_SUCCESS, Some(0))
    ensures StrToLong(Some(" +16"), Some(old_val)) == StrToLongResult(RV_SUCCESS, Some(16))
    ensures StrToLong(Some("-1"), Some(old_val)) == StrToLongResult(RV_SUCCESS, Some(ULONG_MAX))
  {
    var s := " +16";
    assert SkipSpace(s, 1) == 1;
    assert SkipSpace(s, 0) == 1;
    assert DigitRun(s, 4) == 4;
    assert DigitRun(s, 2) == 4;
    assert s[2..4] == "16";
    assert DecimalValue("16") == DecimalValue("1") * 10 + 6;
    assert DecimalValue("1") == DecimalValue("") * 10 + 1;
    var t := "-1";
    assert SkipSpace(t, 0) == 0;
    assert DigitRun(t, 1) == 2;
    assert t[1..2] == "1";
    assert DecimalValue("1") == 1;
  }
}
