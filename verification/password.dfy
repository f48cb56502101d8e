/** The password rules of the registration schema (`UserCreate`): at least
    8 characters (`min_length=8`, which counts code points) and, checked
    afterwards, at most 72 bytes once encoded as UTF-8. A Dafny `char` is a
    Unicode scalar value, so a password here is a sequence of code points. */
module Password {
  import opened Common

  const MinLength: nat := 8
  const MaxBytes: nat := 72
  const TooLongMessage: string := "Password cannot exceed 72 bytes"

  datatype PasswordError =
    | TooShort      // the `min_length` constraint
    | TooLong(message: string)

  // ===========================================================================
  // UTF-8

  /** The bytes UTF-8 encodes one code point into. */
  function EncodeChar(c: char): (bs: seq<nat>)
    ensures 1 <= |bs| <= 4
    ensures forall i :: 0 <= i < |bs| ==> bs[i] < 256
    ensures |bs| == 1 <==> c as int < 0x80
  {
    var n := c as int;
    if n < 0x80 then [n]
    else if n < 0x800 then [0xC0 + n / 0x40, 0x80 + n % 0x40]
    else if n < 0x1_0000 then [0xE0 + n / 0x1000, 0x80 + (n / 0x40) % 0x40, 0x80 + n % 0x40]
    else [0xF0 + n / 0x4_0000, 0x80 + (n / 0x1000) % 0x40, 0x80 + (n / 0x40) % 0x40, 0x80 + n % 0x40]
  }

  /** `s.encode('utf-8')`. */
  function Encode(s: string): (bs: seq<nat>)
    ensures forall i :: 0 <= i < |bs| ==> bs[i] < 256
  {
    if s == [] then [] else Encode(s[..|s| - 1]) + EncodeChar(s[|s| - 1])
  }

  /** The width of one code point, read off its value. */
  function Width(c: char): (w: nat)
    ensures w == |EncodeChar(c)|
  {
    if c as int < 0x80 then 1 else if c as int < 0x800 then 2 else if c as int < 0x1_0000 then 3 else 4
  }

  /** The leading byte of a code point's encoding announces its width, as
      UTF-8 decoders read it; continuation bytes are all 10xxxxxx. */
  lemma EncodeCharSelfDescribing(c: char)
    ensures var bs := EncodeChar(c);
      && (|bs| == 1 <==> bs[0] < 0x80)
      && (|bs| == 2 <==> 0xC0 <= bs[0] < 0xE0)
      && (|bs| == 3 <==> 0xE0 <= bs[0] < 0xF0)
      && (|bs| == 4 <==> 0xF0 <= bs[0] < 0xF8)
      && forall i :: 1 <= i < |bs| ==> 0x80 <= bs[i] < 0xC0
  {
    var n := c as int;
    assert n < 0x11_0000;
  }

  /** `len(s.encode('utf-8'))`. */
  function ByteLength(s: string): (n: nat)
  {
    if s == [] then 0 else ByteLength(s[..|s| - 1]) + Width(s[|s| - 1])
  }

  lemma {:induction false} EncodeLength(s: string)
    ensures |Encode(s)| == ByteLength(s)
  {
    if s != [] {
      EncodeLength(s[..|s| - 1]);
    }
  }

  /** Every code point takes one to four bytes. */
  lemma {:induction false} ByteLengthBounds(s: string)
    ensures |s| <= ByteLength(s) <= 4 * |s|
  {
    if s != [] {
      ByteLengthBounds(s[..|s| - 1]);
    }
  }

  predicate IsAscii(s: string) {
    forall i :: 0 <= i < |s| ==> s[i] as int < 0x80
  }

  /** An ASCII text takes one byte per character. */
  lemma {:induction false} AsciiByteLength(s: string)
    requires IsAscii(s)
    ensures ByteLength(s) == |s|
  {
    if s != [] {
      AsciiByteLength(s[..|s| - 1]);
    }
  }

  // ===========================================================================
  // The validator

  /** The `password` field's constraints, in pydantic's order: the length
      constraint, then `validate_password_length`, which returns the value
      unchanged. */
  function ValidatePassword(p: string): (r: Result<string, PasswordError>)
    ensures r.Ok? <==> MinLength <= |p| && ByteLength(p) <= MaxBytes
    ensures r.Ok? ==> r.value == p
    ensures |p| < MinLength ==> r == Err(TooShort)
    ensures |p| >= MinLength && ByteLength(p) > MaxBytes ==> r == Err(TooLong(TooLongMessage))
  {
    if |p| < MinLength then Err(TooShort)
    else if ByteLength(p) > MaxBytes then Err(TooLong(TooLongMessage))
    else Ok(p)
  }

  /** The byte comparison is strict: exactly 72 bytes pass. */
  lemma SeventyTwoBytesPass(p: string)
    requires |p| >= MinLength && |Encode(p)| == MaxBytes
    ensures ValidatePassword(p) == Ok(p)
  {
    EncodeLength(p);
  }

  /** An ASCII password is accepted exactly when it has 8 to 72 characters. */
  lemma AsciiPasswordRule(p: string)
    requires IsAscii(p)
    ensures ValidatePassword(p).Ok? <==> 8 <= |p| <= 72
  {
    AsciiByteLength(p);
  }

  /** Any password of 8 to 18 characters fits, whatever its characters; any
      password of more than 72 characters is too long. */
  lemma LengthDecidesAtTheExtremes(p: string)
    ensures 8 <= |p| <= 18 ==> ValidatePassword(p) == Ok(p)
    ensures |p| > 72 ==> ValidatePassword(p) == Err(TooLong(TooLongMessage))
  {
    ByteLengthBounds(p);
  }
}
