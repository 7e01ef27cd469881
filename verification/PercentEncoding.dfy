/** Percent-encoding (section 2.1 of RFC 3986) as the daemon prints and reads query values. */
module PercentEncoding {
  import opened Prelude
  import opened Framing

  const PERCENT: Byte := 37

  predicate Alphanumeric(b: Byte) {
    48 <= b <= 57 || 65 <= b <= 90 || 97 <= b <= 122
  }

  function HexDigit(n: int): Byte
    requires 0 <= n < 16
  {
    if n < 10 then (48 + n) as Byte else (55 + n) as Byte
  }

  function HexValue(b: Byte): (r: Option<int>)
    ensures r.Some? ==> 0 <= r.value < 16
  {
    if 48 <= b <= 57 then Some(b as int - 48)
    else if 65 <= b <= 70 then Some(b as int - 55)
    else if 97 <= b <= 102 then Some(b as int - 87)
    else None
  }

  function EncodeByte(b: Byte): Bytes {
    if Alphanumeric(b) then [b] else [PERCENT, HexDigit(b as int / 16), HexDigit(b as int % 16)]
  }

  function Encode(s: Bytes): Bytes {
    if s == [] then [] else EncodeByte(s[0]) + Encode(s[1..])
  }

  /** A percent sign without two hexadecimal digits after it stands for itself. */
  function Decode(s: Bytes): Bytes
    decreases |s|
  {
    if s == [] then []
    else if s[0] == PERCENT && |s| >= 3 && HexValue(s[1]).Some? && HexValue(s[2]).Some? then
      [(16 * HexValue(s[1]).value + HexValue(s[2]).value) as Byte] + Decode(s[3..])
    else [s[0]] + Decode(s[1..])
  }

  lemma DecodeByte(b: Byte, more: Bytes)
    ensures Decode(EncodeByte(b) + more) == [b] + Decode(more)
  {
    var s := EncodeByte(b) + more;
    if Alphanumeric(b) {
      assert s[1..] == more;
    } else {
      assert s[3..] == more;
      assert HexValue(s[1]) == Some(b as int / 16) && HexValue(s[2]) == Some(b as int % 16);
    }
  }

  /** Every byte string survives encoding. */
  lemma {:induction false} DecodeEncode(s: Bytes)
    ensures Decode(Encode(s)) == s
  {
    if s != [] {
      DecodeByte(s[0], Encode(s[1..]));
      DecodeEncode(s[1..]);
    }
  }

  /** Encoding leaves nothing but letters, digits and percent signs. */
  lemma {:induction false} EncodedIsPlain(s: Bytes)
    ensures forall b | b in Encode(s) :: Alphanumeric(b) || b == PERCENT
  {
    if s != [] {
      EncodedIsPlain(s[1..]);
      forall b | b in EncodeByte(s[0])
        ensures Alphanumeric(b) || b == PERCENT
      {
      }
    }
  }

  // ----- literally -----

  predicate IsDigit(b: Byte, digits: string, n: int)
    requires |digits| == 16 && 0 <= n < 16
  {
    b as int == digits[n] as int
  }

  /** The byte is a hexadecimal digit of this value, in either case. */
  predicate Stands(b: Byte, n: int)
    requires 0 <= n < 16
  {
    IsDigit(b, "0123456789ABCDEF", n) || IsDigit(b, "0123456789abcdef", n)
  }

  lemma HexValueStands(b: Byte, n: int)
    requires 0 <= n < 16
    ensures HexValue(b) == Some(n) <==> Stands(b, n)
  {
  }

  lemma HexDigitIs(n: int)
    requires 0 <= n < 16
    ensures IsDigit(HexDigit(n), "0123456789ABCDEF", n)
  {
  }

  predicate LetterOrDigit(b: int) {
    '0' as int <= b <= '9' as int || 'A' as int <= b <= 'Z' as int || 'a' as int <= b <= 'z' as int
  }

  /** A percent sign, and the byte's two digits in capitals. */
  predicate Escapes(s: Bytes, b: Byte) {
    && |s| == 3 && s[0] == 37
    && IsDigit(s[1], "0123456789ABCDEF", b as int / 16) && IsDigit(s[2], "0123456789ABCDEF", b as int % 16)
  }

  /** A letter or digit stands for itself, and any other byte is escaped. */
  lemma EncodeByByte(s: Bytes) returns (e: Bytes)
    requires s != []
    ensures Encode(s) == e + Encode(s[1..])
    ensures if LetterOrDigit(s[0] as int) then e == [s[0]] else Escapes(e, s[0])
  {
    var b := s[0];
    e := EncodeByte(b);
    HexDigitIs(b as int / 16);
    HexDigitIs(b as int % 16);
  }

  /** A percent sign with two hexadecimal digits after it, in either case, is the byte they say. */
  lemma DecodeEscape(a: int, b: int, hi: Byte, lo: Byte, more: Bytes)
    requires 0 <= a < 16 && 0 <= b < 16 && Stands(hi, a) && Stands(lo, b)
    ensures Decode([37, hi, lo] + more) == [(16 * a + b) as Byte] + Decode(more)
  {
    HexValueStands(hi, a);
    HexValueStands(lo, b);
    assert ([37, hi, lo] + more)[3..] == more;
  }

  /** Everything else stands for itself: other bytes, a plus sign among them, and a percent sign without two
      digits. */
  lemma DecodePlain(s: Bytes)
    requires s != []
    requires s[0] == 37 && |s| >= 3 ==> forall a, b | 0 <= a < 16 && 0 <= b < 16 ::
               !(Stands(s[1], a) && Stands(s[2], b))
    ensures Decode(s) == [s[0]] + Decode(s[1..])
  {
    if s[0] == 37 && |s| >= 3 && HexValue(s[1]).Some? && HexValue(s[2]).Some? {
      HexValueStands(s[1], HexValue(s[1]).value);
      HexValueStands(s[2], HexValue(s[2]).value);
      assert false;
    }
  }
}
