/** Lower-case base16, as in section 8 of RFC 4648 with the digits a to f. */
module Hex {
  import opened Prelude

  type Byte = b: int | 0 <= b < 256

  const DIGITS := "0123456789abcdef"

  function HexByte(b: Byte): string {
    [DIGITS[b / 16], DIGITS[b % 16]]
  }

  function Encode(bytes: seq<Byte>): string {
    if bytes == [] then "" else HexByte(bytes[0]) + Encode(bytes[1..])
  }

  function DigitValue(c: char): Option<int> {
    if '0' <= c <= '9' then Some(c as int - '0' as int)
    else if 'a' <= c <= 'f' then Some(c as int - 'a' as int + 10)
    else None
  }

  function Decode(s: string): Option<seq<Byte>>
    decreases |s|
  {
    if s == "" then Some([])
    else if |s| == 1 then None
    else
      var hi, lo, rest := DigitValue(s[0]), DigitValue(s[1]), Decode(s[2..]);
      if hi.None? || lo.None? || rest.None? then None
      else var b: Byte := 16 * hi.value + lo.value; Some([b] + rest.value)
  }

  lemma DigitRoundTrip(n: int)
    requires 0 <= n < 16
    ensures DigitValue(DIGITS[n]) == Some(n)
  {
  }

  lemma ValueRoundTrip(c: char)
    requires DigitValue(c).Some?
    ensures 0 <= DigitValue(c).value < 16 && DIGITS[DigitValue(c).value] == c
  {
  }

  lemma PairRoundTrip(hi: char, lo: char)
    requires DigitValue(hi).Some? && DigitValue(lo).Some?
    ensures 0 <= 16 * DigitValue(hi).value + DigitValue(lo).value < 256
    ensures HexByte(16 * DigitValue(hi).value + DigitValue(lo).value) == [hi, lo]
  {
    hide DigitValue;
    ValueRoundTrip(hi);
    ValueRoundTrip(lo);
    Halves(DigitValue(hi).value, DigitValue(lo).value);
  }

  lemma Halves(h: int, l: int)
    requires 0 <= l < 16
    ensures (16 * h + l) / 16 == h && (16 * h + l) % 16 == l
  {
  }

  /** Decoding inverts encoding, so encoding is injective. */
  lemma {:induction false} DecodeEncode(bytes: seq<Byte>)
    ensures Decode(Encode(bytes)) == Some(bytes)
  {
    hide DigitValue;
    if bytes != [] {
      var s := Encode(bytes);
      assert s[2..] == Encode(bytes[1..]);
      DecodeEncode(bytes[1..]);
      DigitRoundTrip(bytes[0] / 16);
      DigitRoundTrip(bytes[0] % 16);
      assert bytes == [bytes[0]] + bytes[1..];
    }
  }

  /** And the other way round: whatever decodes is the encoding of its value. */
  lemma {:induction false} EncodeDecode(s: string)
    requires Decode(s).Some?
    ensures Encode(Decode(s).value) == s
    decreases |s|
  {
    hide DigitValue, HexByte;
    if s != "" {
      var rest := Decode(s[2..]).value;
      EncodeDecode(s[2..]);
      PairRoundTrip(s[0], s[1]);
      var bytes := Decode(s).value;
      assert bytes[1..] == rest;
      assert s == [s[0], s[1]] + s[2..];
    }
  }

  /** Two digits for each byte, the high half first. */
  lemma {:induction false} DigitsOf(bytes: seq<Byte>, i: nat)
    requires i < |bytes|
    ensures |Encode(bytes)| == 2 * |bytes|
    ensures Encode(bytes)[2 * i] == "0123456789abcdef"[bytes[i] / 16]
    ensures Encode(bytes)[2 * i + 1] == "0123456789abcdef"[bytes[i] % 16]
  {
    if |bytes| > 1 {
      DigitsOf(bytes[1..], if i == 0 then 0 else i - 1);
      assert Encode(bytes)[2..] == Encode(bytes[1..]);
    }
  }
}
