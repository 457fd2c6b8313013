/*
 * The printf conversions the trace lines use: `%lu` and `%d` for numbers
 * and `%p` for addresses (as glibc prints them).
 */
module Format {
  import opened LoggerDefs

  const DecimalDigits: string := "0123456789"
  const LowerHexDigits: string := "0123456789abcdef"

  /** `%lu` (and `%d` of a small non-negative value): most significant digit first. */
  function Decimal(n: nat): (s: string)
    ensures |s| >= 1
    ensures forall c :: c in s ==> '0' <= c <= '9'
  {
    if n < 10 then [DecimalDigits[n]] else Decimal(n / 10) + [DecimalDigits[n % 10]]
  }

  function LowerHex(n: nat): (s: string)
    ensures |s| >= 1
  {
    if n < 16 then [LowerHexDigits[n]] else LowerHex(n / 16) + [LowerHexDigits[n % 16]]
  }

  /** `%p`: "(nil)" for NULL, otherwise 0x and the lowercase hexadecimal address. */
  function PointerText(p: Option<Address>): (s: string)
    ensures p.None? <==> s == "(nil)"
  {
    match p
    case None => "(nil)"
    case Some(a) =>
      var s := "0x" + LowerHex(a);
      assert s[0] == '0' != "(nil)"[0];
      s
  }
}
