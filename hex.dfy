/**
 * Bytes and the `hex` crate's `encode` (lower-case digits) and `decode`.
 * `decode` reads the UTF-8 bytes of its text: an odd number of bytes is
 * refused first, then the first byte that is not a hex digit of either case,
 * reported as that byte read as a character, with its byte index.
 */
module Hex {
  import opened Wrappers

  type byte = x: int | 0 <= x < 256

  datatype HexError = OddLength | InvalidHexCharacter(c: char, index: nat)

  /** The UTF-8 encoding of one character. */
  function CharUtf8(c: char): (r: seq<byte>)
    ensures 1 <= |r| <= 4
    ensures c as int < 0x80 <==> |r| == 1
    ensures c as int < 0x80 ==> r == [c as int]
    ensures c as int >= 0x80 ==> forall k :: 0 <= k < |r| ==> r[k] >= 0x80
  {
    var v := c as int;
    if v < 0x80 then [v]
    else if v < 0x800 then [0xC0 + v / 0x40, 0x80 + v % 0x40]
    else if v < 0x10000 then [0xE0 + v / 0x1000, 0x80 + (v / 0x40) % 0x40, 0x80 + v % 0x40]
    else [0xF0 + v / 0x40000, 0x80 + (v / 0x1000) % 0x40, 0x80 + (v / 0x40) % 0x40, 0x80 + v % 0x40]
  }

  /** `str::as_bytes`: the UTF-8 bytes of a text. */
  function Utf8Of(s: string): (r: seq<byte>)
    ensures |r| >= |s|
  {
    if s == [] then [] else CharUtf8(s[0]) + Utf8Of(s[1..])
  }

  lemma {:induction false} Utf8OfAppend(a: string, b: string)
    ensures Utf8Of(a + b) == Utf8Of(a) + Utf8Of(b)
    decreases |a|
  {
    if a == [] {
      assert a + b == b;
    } else {
      assert (a + b)[0] == a[0] && (a + b)[1..] == a[1..] + b;
      Utf8OfAppend(a[1..], b);
    }
  }

  /** The lower-case digit `hex::encode` writes for a nibble. */
  function Digit(n: int): (c: char)
    requires 0 <= n < 16
    ensures c as int < 0x80
  {
    if n < 10 then ('0' as int + n) as char else ('a' as int + n - 10) as char
  }

  /** The value of a hex digit of either case. */
  function DigitValue(c: char): (r: Option<nat>)
    ensures r.Some? ==> r.value < 16 && c as int < 0x80
  {
    if '0' <= c <= '9' then Some(c as int - '0' as int)
    else if 'a' <= c <= 'f' then Some(c as int - 'a' as int + 10)
    else if 'A' <= c <= 'F' then Some(c as int - 'A' as int + 10)
    else None
  }

  lemma DigitValueOfDigit(n: int)
    requires 0 <= n < 16
    ensures DigitValue(Digit(n)) == Some(n)
  {
  }

  /** `hex::encode`: two lower-case digits per byte, high nibble first. */
  function Encode(b: seq<byte>): (r: string)
    ensures |r| == 2 * |b|
    ensures forall i :: 0 <= i < |r| ==> r[i] as int < 0x80
  {
    if b == [] then [] else [Digit(b[0] / 16), Digit(b[0] % 16)] + Encode(b[1..])
  }

  /** Decoding the byte pairs from index `offset` on; the offset only numbers the offending byte. */
  function DecodePairs(bytes: seq<byte>, offset: nat): (r: Result<seq<byte>, HexError>)
    requires |bytes| % 2 == 0
    ensures r.Ok? ==> 2 * |r.value| == |bytes|
    ensures r.Err? ==> r.error.InvalidHexCharacter?
    decreases |bytes|
  {
    if bytes == [] then Ok([])
    else match (DigitValue(bytes[0] as char), DigitValue(bytes[1] as char))
      case (None, _) => Err(InvalidHexCharacter(bytes[0] as char, offset))
      case (_, None) => Err(InvalidHexCharacter(bytes[1] as char, offset + 1))
      case (Some(hi), Some(lo)) =>
        match DecodePairs(bytes[2..], offset + 2)
        case Err(e) => Err(e)
        case Ok(rest) => Ok([hi * 16 + lo] + rest)
  }

  /** `hex::decode` of a text: its UTF-8 bytes are decoded. */
  function Decode(s: string): (r: Result<seq<byte>, HexError>)
    ensures |Utf8Of(s)| % 2 == 1 <==> r == Err(OddLength)
    ensures r.Ok? ==> 2 * |r.value| == |Utf8Of(s)|
  {
    var bytes := Utf8Of(s);
    if |bytes| % 2 == 1 then Err(OddLength) else DecodePairs(bytes, 0)
  }

  /** A text of single-byte characters is its own byte sequence. */
  lemma {:induction false} Utf8OfAscii(s: string)
    requires forall i :: 0 <= i < |s| ==> s[i] as int < 0x80
    ensures |Utf8Of(s)| == |s|
    ensures forall i :: 0 <= i < |s| ==> Utf8Of(s)[i] == s[i] as int
    decreases |s|
  {
    if s != [] {
      Utf8OfAscii(s[1..]);
    }
  }

  /** Decoding what was encoded gives the bytes back. */
  lemma {:induction false} DecodeEncode(b: seq<byte>)
    ensures Decode(Encode(b)) == Ok(b)
  {
    Utf8OfAscii(Encode(b));
    DecodePairsEncode(b, Utf8Of(Encode(b)), 0);
  }

  /** Decoding the byte codes of an encoding gives the bytes back, whatever the offset. */
  lemma {:induction false} DecodePairsEncode(b: seq<byte>, bytes: seq<byte>, offset: nat)
    requires |bytes| == 2 * |b|
    requires forall k :: 0 <= k < |bytes| ==> bytes[k] == Encode(b)[k] as int
    ensures DecodePairs(bytes, offset) == Ok(b)
    decreases |b|
  {
    if b != [] {
      var s := Encode(b);
      assert s[2..] == Encode(b[1..]);
      DigitValueOfDigit(b[0] / 16);
      DigitValueOfDigit(b[0] % 16);
      assert bytes[0] as char == s[0] && bytes[1] as char == s[1];
      DecodePairsEncode(b[1..], bytes[2..], offset + 2);
      assert [b[0]] + b[1..] == b;
    }
  }

  /** A character outside the hex alphabet in a text of an even number of bytes makes decoding fail. */
  lemma DecodeRejectsNonDigit(s: string, i: nat)
    requires |Utf8Of(s)| % 2 == 0 && i < |s| && DigitValue(s[i]).None?
    ensures Decode(s).Err?
  {
    assert s == s[..i] + [s[i]] + s[i + 1..];
    Utf8OfAppend(s[..i] + [s[i]], s[i + 1..]);
    Utf8OfAppend(s[..i], [s[i]]);
    assert Utf8Of([s[i]]) == CharUtf8(s[i]);
    var j := |Utf8Of(s[..i])|;
    assert Utf8Of(s)[j] == CharUtf8(s[i])[0];
    DecodePairsRejects(Utf8Of(s), 0, j);
  }

  lemma {:induction false} DecodePairsRejects(bytes: seq<byte>, offset: nat, i: nat)
    requires |bytes| % 2 == 0 && i < |bytes| && DigitValue(bytes[i] as char).None?
    ensures DecodePairs(bytes, offset).Err?
    decreases |bytes|
  {
    if i >= 2 && DigitValue(bytes[0] as char).Some? && DigitValue(bytes[1] as char).Some? {
      DecodePairsRejects(bytes[2..], offset + 2, i - 2);
    }
  }

  /**
   * Lengths are counted in bytes: "é" (two bytes) is refused at its first
   * byte, and "éa" (three bytes) has odd length.
   */
  lemma NonAsciiCountsBytes()
    ensures Decode("é") == Err(InvalidHexCharacter(0xC3 as char, 0))
    ensures Decode("éa") == Err(OddLength)
  {
    assert Utf8Of("é") == [0xC3, 0xA9];
    assert Utf8Of("éa") == [0xC3, 0xA9, 0x61];
  }
}
