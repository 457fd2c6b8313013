/*
 * src/translate.c: the byte-buffer hex encoder and the code-to-name
 * translators.
 */
module Translate {
  import opened LoggerDefs

  // ---------------------------------------------------------------------
  // pkcs11_logger_translate_ck_byte_ptr
  // ---------------------------------------------------------------------

  /** The digit table `t` of the encoder. */
  const HexDigits: string := "0123456789ABCDEF"

  function HexDigit(n: nat): (c: char)
    requires n < 16
    ensures c in HexDigits
  {
    HexDigits[n]
  }

  /** Specification of the encoder: two uppercase digits per byte, high nibble first. */
  function Hex(bs: seq<byte>): (s: string)
    ensures |s| == 2 * |bs|
  {
    if bs == [] then [] else [HexDigit(bs[0] / 16), HexDigit(bs[0] % 16)] + Hex(bs[1..])
  }

  /** Character 2i is the high nibble of byte i, character 2i+1 its low nibble. */
  lemma HexAt(bs: seq<byte>, i: nat)
    requires i < |bs|
    ensures Hex(bs)[2 * i] == HexDigit(bs[i] / 16)
    ensures Hex(bs)[2 * i + 1] == HexDigit(bs[i] % 16)
  {
    var pre, rest := bs[..i], bs[i + 1..];
    assert bs == pre + ([bs[i]] + rest);
    HexAppend(pre, [bs[i]] + rest);
    HexAppend([bs[i]], rest);
    var pair := Hex([bs[i]]);
    assert pair == [HexDigit(bs[i] / 16), HexDigit(bs[i] % 16)];
    assert Hex(bs) == Hex(pre) + (pair + Hex(rest));
  }

  /** Every character of the encoding is one of 0-9 A-F: the output is uppercase only. */
  lemma {:induction false} HexAlphabet(bs: seq<byte>)
    ensures forall c :: c in Hex(bs) ==> c in HexDigits
    ensures '\0' !in Hex(bs)
  {
    if bs != [] {
      HexAlphabet(bs[1..]);
      assert Hex(bs) == [HexDigit(bs[0] / 16), HexDigit(bs[0] % 16)] + Hex(bs[1..]);
    }
  }

  /** The value of one digit of the encoder's table; None for any other character. */
  function DigitValue(c: char): (v: Option<nat>)
    ensures v.Some? ==> v.value < 16 && HexDigit(v.value) == c
  {
    if '0' <= c <= '9' then Some(c as int - '0' as int)
    else if 'A' <= c <= 'F' then Some(c as int - 'A' as int + 10)
    else None
  }

  lemma DigitValueOfHexDigit(n: nat)
    requires n < 16
    ensures DigitValue(HexDigit(n)) == Some(n)
  {
  }

  /** Decoding of digit pairs: the partner of Hex. */
  function Unhex(s: string): (r: Option<seq<byte>>)
    ensures r.Some? ==> |s| == 2 * |r.value|
  {
    if s == [] then Some([])
    else if |s| == 1 then None
    else
      var hi := DigitValue(s[0]);
      var lo := DigitValue(s[1]);
      var rest := Unhex(s[2..]);
      if hi.None? || lo.None? || rest.None? then None
      else Some([PairValue(hi.value, lo.value)] + rest.value)
  }

  function PairValue(hi: nat, lo: nat): (b: byte)
    requires hi < 16 && lo < 16
    ensures b / 16 == hi && b % 16 == lo
  {
    hi * 16 + lo
  }

  /** Encoding one byte yields its pair of digits, which decode back to it. */
  lemma UnhexPair(b: byte, rest: string)
    ensures Unhex([HexDigit(b / 16), HexDigit(b % 16)] + rest)
         == (if Unhex(rest).Some? then Some([b] + Unhex(rest).value) else None)
  {
    var s := [HexDigit(b / 16), HexDigit(b % 16)] + rest;
    DigitValueOfHexDigit(b / 16);
    DigitValueOfHexDigit(b % 16);
    assert s[2..] == rest;
    assert PairValue(b / 16, b % 16) == b;
  }

  /** Round trip: decoding the encoder's output gives back exactly the input bytes. */
  lemma {:induction false} UnhexHex(bs: seq<byte>)
    ensures Unhex(Hex(bs)) == Some(bs)
  {
    if bs != [] {
      UnhexHex(bs[1..]);
      UnhexPair(bs[0], Hex(bs[1..]));
      assert [bs[0]] + bs[1..] == bs;
    }
  }

  /** The encoding is injective: different buffers never print the same. */
  lemma HexInjective(a: seq<byte>, b: seq<byte>)
    requires Hex(a) == Hex(b)
    ensures a == b
  {
    UnhexHex(a);
    UnhexHex(b);
  }

  /** Encoding distributes over concatenation. */
  lemma {:induction false} HexAppend(a: seq<byte>, b: seq<byte>)
    ensures Hex(a + b) == Hex(a) + Hex(b)
  {
    if a != [] {
      assert (a + b)[0] == a[0];
      assert (a + b)[1..] == a[1..] + b;
      HexAppend(a[1..], b);
    } else {
      assert a + b == b;
    }
  }

  /** `(length * 2) + 1` computed in CK_ULONG, which wraps modulo 2^64. */
  function HexBufferSize(length: nat): nat {
    (2 * length + 1) % (ULONG_MAX + 1)
  }

  /** The largest length whose buffer size does not wrap. */
  const MaxHexLength: nat := ULONG_MAX / 2

  /**
   * The lengths the encoder handles: CK_UNAVAILABLE_INFORMATION, whose
   * buffer size wraps to ULONG_MAX and is never allocated, so no byte is
   * read; or a length whose buffer size does not wrap, with that many bytes
   * behind the pointer.
   */
  predicate HexReadable(bytes: seq<byte>, length: nat) {
    length == CK_UNAVAILABLE_INFORMATION || (length <= |bytes| && length <= MaxHexLength)
  }

  /** Below MaxHexLength the size is exact; CK_UNAVAILABLE_INFORMATION asks for ULONG_MAX bytes. */
  lemma HexBufferSizeWrap(length: nat)
    ensures length <= MaxHexLength ==> HexBufferSize(length) == 2 * length + 1
    ensures HexBufferSize(CK_UNAVAILABLE_INFORMATION) == ULONG_MAX
  {
  }

  /**
   * pkcs11_logger_translate_ck_byte_ptr. Allocates HexBufferSize(length)
   * zeroed characters (malloc succeeds when the request fits in what the
   * heap can supply), then reads bytes[0 .. length) and fills them pairwise.
   * The result is the whole buffer, terminating NUL included; None is the
   * NULL of a failed allocation.
   */
  method TranslateCkBytePtr(bytes: seq<byte>, length: nat, heapLimit: HeapSize) returns (output: Option<string>)
    requires HexReadable(bytes, length)
    ensures output.None? <==> HexBufferSize(length) > heapLimit
    ensures output.None? <==> 2 * length + 1 > heapLimit
    ensures length == CK_UNAVAILABLE_INFORMATION ==> output.None?
    ensures output.Some? ==> length <= |bytes| && output.value == Hex(bytes[..length]) + ['\0']
    ensures output.Some? ==> CString(output.value) == Hex(bytes[..length])
  {
    var outputLen := (length * 2 + 1) % (ULONG_MAX + 1);
    HexBufferSizeWrap(length);
    if outputLen > heapLimit {
      return None;
    }
    var text := EncodeHex(bytes, length);
    output := Some(text);
  }

  /** The zeroed buffer of 2*length+1 characters, filled pairwise by the loop. */
  method EncodeHex(bytes: seq<byte>, length: nat) returns (text: string)
    requires length <= |bytes|
    ensures text == Hex(bytes[..length]) + ['\0']
    ensures CString(text) == Hex(bytes[..length])
  {
    var buffer := new char[2 * length + 1](_ => '\0');
    for i := 0 to length
      invariant buffer[..2 * i] == Hex(bytes[..i])
      invariant buffer[2 * length] == '\0'
    {
      PutHexPair(buffer, bytes, i);
    }
    text := buffer[..];
    TerminatedHex(text, bytes[..length]);
  }

  /** One pass of the loop: the two digits of byte i land at 2*i and 2*i+1. */
  method PutHexPair(buffer: array<char>, bytes: seq<byte>, i: nat)
    requires i < |bytes| && 2 * i + 2 < buffer.Length
    requires buffer[..2 * i] == Hex(bytes[..i])
    modifies buffer
    ensures buffer[..2 * i + 2] == Hex(bytes[..i + 1])
    ensures buffer[buffer.Length - 1] == old(buffer[buffer.Length - 1])
  {
    var lo := bytes[i] % 16;
    var hi := bytes[i] / 16;
    buffer[i * 2] := HexDigits[hi];
    buffer[i * 2 + 1] := HexDigits[lo];
    HexStep(bytes, i);
    assert buffer[..2 * i + 2] == buffer[..2 * i] + [buffer[2 * i], buffer[2 * i + 1]];
  }

  /** The filled buffer is the hex text and its NUL, and prints as the hex text. */
  lemma TerminatedHex(text: string, bs: seq<byte>)
    requires |text| == 2 * |bs| + 1 && text[..2 * |bs|] == Hex(bs) && text[2 * |bs|] == '\0'
    ensures text == Hex(bs) + ['\0']
    ensures CString(text) == Hex(bs)
  {
    assert text == text[..2 * |bs|] + [text[2 * |bs|]];
    HexAlphabet(bs);
    CStringOfTerminated(Hex(bs));
  }

  /** One more byte appends its two digits. */
  lemma HexStep(bytes: seq<byte>, i: nat)
    requires i < |bytes|
    ensures Hex(bytes[..i + 1]) == Hex(bytes[..i]) + [HexDigit(bytes[i] / 16), HexDigit(bytes[i] % 16)]
  {
    assert bytes[..i + 1] == bytes[..i] + [bytes[i]];
    HexAppend(bytes[..i], [bytes[i]]);
  }

  /** A NUL-free text followed by a NUL prints as that text. */
  lemma {:induction false} CStringOfTerminated(t: string)
    requires '\0' !in t
    ensures CString(t + ['\0']) == t
  {
    if t != [] {
      assert (t + ['\0'])[1..] == t[1..] + ['\0'];
      CStringOfTerminated(t[1..]);
    }
  }

  // ---------------------------------------------------------------------
  // Code-to-name translators: every code outside the case list is "Unknown"
  // ---------------------------------------------------------------------

  const KnownReturnValues: set<nat> := {
    CKR_OK, CKR_CANCEL, CKR_HOST_MEMORY, CKR_SLOT_ID_INVALID, CKR_GENERAL_ERROR,
    CKR_FUNCTION_FAILED, CKR_ARGUMENTS_BAD, CKR_ATTRIBUTE_SENSITIVE,
    CKR_ATTRIBUTE_TYPE_INVALID, CKR_FUNCTION_NOT_SUPPORTED, CKR_PIN_INCORRECT,
    CKR_USER_NOT_LOGGED_IN, CKR_BUFFER_TOO_SMALL, CKR_CRYPTOKI_NOT_INITIALIZED
  }

  /** pkcs11_logger_translate_ck_rv (a subset of its cases). */
  function TranslateCkRv(rv: nat): (name: string)
    ensures name == "Unknown" <==> rv !in KnownReturnValues
  {
    if rv == CKR_OK then "CKR_OK"
    else if rv == CKR_CANCEL then "CKR_CANCEL"
    else if rv == CKR_HOST_MEMORY then "CKR_HOST_MEMORY"
    else if rv == CKR_SLOT_ID_INVALID then "CKR_SLOT_ID_INVALID"
    else if rv == CKR_GENERAL_ERROR then "CKR_GENERAL_ERROR"
    else if rv == CKR_FUNCTION_FAILED then "CKR_FUNCTION_FAILED"
    else if rv == CKR_ARGUMENTS_BAD then "CKR_ARGUMENTS_BAD"
    else if rv == CKR_ATTRIBUTE_SENSITIVE then "CKR_ATTRIBUTE_SENSITIVE"
    else if rv == CKR_ATTRIBUTE_TYPE_INVALID then "CKR_ATTRIBUTE_TYPE_INVALID"
    else if rv == CKR_FUNCTION_NOT_SUPPORTED then "CKR_FUNCTION_NOT_SUPPORTED"
    else if rv == CKR_PIN_INCORRECT then "CKR_PIN_INCORRECT"
    else if rv == CKR_USER_NOT_LOGGED_IN then "CKR_USER_NOT_LOGGED_IN"
    else if rv == CKR_BUFFER_TOO_SMALL then "CKR_BUFFER_TOO_SMALL"
    else if rv == CKR_CRYPTOKI_NOT_INITIALIZED then "CKR_CRYPTOKI_NOT_INITIALIZED"
    else "Unknown"
  }

  const CKU_SO: nat := 0
  const CKU_USER: nat := 1
  const CKU_CONTEXT_SPECIFIC: nat := 2

  /** pkcs11_logger_translate_ck_user_type (all of its cases). */
  function TranslateCkUserType(userType: nat): (name: string)
    ensures name == "Unknown" <==> userType > CKU_CONTEXT_SPECIFIC
  {
    if userType == CKU_SO then "CKU_SO"
    else if userType == CKU_USER then "CKU_USER"
    else if userType == CKU_CONTEXT_SPECIFIC then "CKU_CONTEXT_SPECIFIC"
    else "Unknown"
  }

  const CKS_RO_PUBLIC_SESSION: nat := 0
  const CKS_RO_USER_FUNCTIONS: nat := 1
  const CKS_RW_PUBLIC_SESSION: nat := 2
  const CKS_RW_USER_FUNCTIONS: nat := 3
  const CKS_RW_SO_FUNCTIONS: nat := 4

  /** pkcs11_logger_translate_ck_state (all of its cases). */
  function TranslateCkState(state: nat): (name: string)
    ensures name == "Unknown" <==> state > CKS_RW_SO_FUNCTIONS
  {
    if state == CKS_RO_PUBLIC_SESSION then "CKS_RO_PUBLIC_SESSION"
    else if state == CKS_RO_USER_FUNCTIONS then "CKS_RO_USER_FUNCTIONS"
    else if state == CKS_RW_PUBLIC_SESSION then "CKS_RW_PUBLIC_SESSION"
    else if state == CKS_RW_USER_FUNCTIONS then "CKS_RW_USER_FUNCTIONS"
    else if state == CKS_RW_SO_FUNCTIONS then "CKS_RW_SO_FUNCTIONS"
    else "Unknown"
  }

  const CKM_RSA_PKCS_KEY_PAIR_GEN: nat := 0x0000
  const CKM_RSA_PKCS: nat := 0x0001
  const CKM_SHA_1: nat := 0x0220
  const CKM_SHA256: nat := 0x0250
  const CKM_VENDOR_DEFINED: nat := 0x8000_0000

  const KnownMechanisms: set<nat> := {
    CKM_RSA_PKCS_KEY_PAIR_GEN, CKM_RSA_PKCS, CKM_SHA_1, CKM_SHA256, CKM_VENDOR_DEFINED
  }

  /** pkcs11_logger_translate_ck_mechanism_type (a subset of its cases). */
  function TranslateCkMechanismType(mechanism: nat): (name: string)
    ensures name == "Unknown" <==> mechanism !in KnownMechanisms
  {
    if mechanism == CKM_RSA_PKCS_KEY_PAIR_GEN then "CKM_RSA_PKCS_KEY_PAIR_GEN"
    else if mechanism == CKM_RSA_PKCS then "CKM_RSA_PKCS"
    else if mechanism == CKM_SHA_1 then "CKM_SHA_1"
    else if mechanism == CKM_SHA256 then "CKM_SHA256"
    else if mechanism == CKM_VENDOR_DEFINED then "CKM_VENDOR_DEFINED"
    else "Unknown"
  }

  const CKA_CLASS: nat := 0x0000
  const CKA_TOKEN: nat := 0x0001
  const CKA_PRIVATE: nat := 0x0002
  const CKA_LABEL: nat := 0x0003
  const CKA_VALUE: nat := 0x0011
  const CKA_KEY_TYPE: nat := 0x0100
  const CKA_ID: nat := 0x0102
  const CKA_WRAP_TEMPLATE: nat := 0x4000_0211
  const CKA_UNWRAP_TEMPLATE: nat := 0x4000_0212
  const CKA_VENDOR_DEFINED: nat := 0x8000_0000

  const KnownAttributes: set<nat> := {
    CKA_CLASS, CKA_TOKEN, CKA_PRIVATE, CKA_LABEL, CKA_VALUE, CKA_KEY_TYPE, CKA_ID,
    CKA_WRAP_TEMPLATE, CKA_UNWRAP_TEMPLATE, CKA_VENDOR_DEFINED
  }

  /** pkcs11_logger_translate_ck_attribute (a subset of its cases). */
  function TranslateCkAttribute(attrType: nat): (name: string)
    ensures name == "Unknown" <==> attrType !in KnownAttributes
  {
    if attrType == CKA_CLASS then "CKA_CLASS"
    else if attrType == CKA_TOKEN then "CKA_TOKEN"
    else if attrType == CKA_PRIVATE then "CKA_PRIVATE"
    else if attrType == CKA_LABEL then "CKA_LABEL"
    else if attrType == CKA_VALUE then "CKA_VALUE"
    else if attrType == CKA_KEY_TYPE then "CKA_KEY_TYPE"
    else if attrType == CKA_ID then "CKA_ID"
    else if attrType == CKA_WRAP_TEMPLATE then "CKA_WRAP_TEMPLATE"
    else if attrType == CKA_UNWRAP_TEMPLATE then "CKA_UNWRAP_TEMPLATE"
    else if attrType == CKA_VENDOR_DEFINED then "CKA_VENDOR_DEFINED"
    else "Unknown"
  }
}
