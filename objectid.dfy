/**
 * MongoDB object ids as the handlers use them: `ObjectId(s)` accepts exactly the strings of 24
 * hexadecimal digits (either case) and `str(oid)` prints 24 lower-case digits. An id is modelled
 * by the number its 12 bytes denote, so two spellings that differ only in case name one id.
 */
module ObjectIds {
  import opened Common

  type ObjectId = nat

  const Digits: nat := 24

  function Pow16(n: nat): (p: nat)
    ensures p > 0
  {
    if n == 0 then 1 else 16 * Pow16(n - 1)
  }

  /** Every id has 12 bytes, so its number is below 16^24. */
  const Limit: nat := Pow16(Digits)

  predicate IsHexDigit(c: char)
  {
    ('0' <= c <= '9') || ('a' <= c <= 'f') || ('A' <= c <= 'F')
  }

  predicate IsHex(s: string)
  {
    forall i :: 0 <= i < |s| ==> IsHexDigit(s[i])
  }

  function DigitValue(c: char): (d: nat)
    requires IsHexDigit(c)
    ensures d < 16
  {
    if '0' <= c <= '9' then c as nat - '0' as nat
    else if 'a' <= c <= 'f' then c as nat - 'a' as nat + 10
    else c as nat - 'A' as nat + 10
  }

  /** The number a string of hexadecimal digits denotes, most significant digit first. */
  function HexValue(s: string): (v: nat)
    requires IsHex(s)
    ensures v < Pow16(|s|)
  {
    if s == [] then 0 else HexValue(s[..|s| - 1]) * 16 + DigitValue(s[|s| - 1])
  }

  /** `ObjectId(s)`: None where bson raises InvalidId. */
  function Parse(s: string): (r: Option<ObjectId>)
    ensures r.Some? <==> |s| == Digits && IsHex(s)
    ensures r.Some? ==> r.value < Limit
  {
    if |s| == Digits && IsHex(s) then Some(HexValue(s)) else None
  }

  function DigitChar(d: nat): (c: char)
    requires d < 16
    ensures IsHexDigit(c) && DigitValue(c) == d && !('A' <= c <= 'F')
  {
    if d < 10 then ('0' as nat + d) as char else ('a' as nat + d - 10) as char
  }

  /** The `width` lower-case hexadecimal digits of `n`, most significant first. */
  function Hex(n: nat, width: nat): (s: string)
    ensures |s| == width && IsHex(s)
  {
    if width == 0 then "" else Hex(n / 16, width - 1) + [DigitChar(n % 16)]
  }

  /** `str(oid)`. */
  function ToString(id: ObjectId): (s: string)
    ensures |s| == Digits && IsHex(s)
    ensures forall i :: 0 <= i < |s| ==> !('A' <= s[i] <= 'F')
  {
    HexLowerCase(id, Digits);
    Hex(id, Digits)
  }

  lemma {:induction false} HexLowerCase(n: nat, width: nat)
    ensures forall i :: 0 <= i < width ==> !('A' <= Hex(n, width)[i] <= 'F')
  {
    if width > 0 {
      HexLowerCase(n / 16, width - 1);
    }
  }

  lemma {:induction false} HexValueOfHex(n: nat, width: nat)
    requires n < Pow16(width)
    ensures HexValue(Hex(n, width)) == n
  {
    if width > 0 {
      var s := Hex(n, width);
      assert s[..|s| - 1] == Hex(n / 16, width - 1);
      HexValueOfHex(n / 16, width - 1);
    }
  }

  /** Printing an id and parsing the text back gives the same id (`ObjectId(str(oid)) == oid`). */
  lemma ParseToString(id: ObjectId)
    requires id < Limit
    ensures Parse(ToString(id)) == Some(id)
  {
    HexValueOfHex(id, Digits);
  }
}
