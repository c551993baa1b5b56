/** Bytes, UTF-8 and Base64.

    `Buffer.from(text).toString("base64")` in the relay is UTF-8 encoding
    followed by the Base64 encoding of section 4 of RFC 4648 (standard
    alphabet, `=` padding). Both are written out here; the decoder is the
    partner the encoder is proved against. */
module Base64 {
  import opened Text

  type byte = x: int | 0 <= x < 256
  type sextet = x: int | 0 <= x < 64

  // ---------------------------------------------------------------------------
  // UTF-8 (RFC 3629, section 3)

  /** The UTF-8 encoding of one Unicode scalar value. */
  function Utf8Char(c: char): (bs: seq<byte>)
    ensures 1 <= |bs| <= 4
    ensures |bs| == 1 <==> c as int < 0x80
    ensures c as int < 0x80 ==> bs == [c as int]
    ensures |bs| > 1 ==> bs[0] >= 0xC0 && forall k :: 1 <= k < |bs| ==> 0x80 <= bs[k] < 0xC0
  {
    var cp := c as int;
    if cp < 0x80 then [cp]
    else if cp < 0x800 then [0xC0 + cp / 64, 0x80 + cp % 64]
    else if cp < 0x10000 then [0xE0 + cp / 4096, 0x80 + (cp / 64) % 64, 0x80 + cp % 64]
    else [0xF0 + cp / 262144, 0x80 + (cp / 4096) % 64, 0x80 + (cp / 64) % 64, 0x80 + cp % 64]
  }

  /** The UTF-8 encoding of a string, character by character. */
  function Utf8(s: string): (bs: seq<byte>)
    ensures |bs| >= |s|
  {
    if s == [] then [] else Utf8Char(s[0]) + Utf8(s[1..])
  }

  lemma {:induction false} Utf8Append(a: string, b: string)
    ensures Utf8(a + b) == Utf8(a) + Utf8(b)
  {
    if a == [] {
      assert a + b == b;
    } else {
      assert (a + b)[0] == a[0] && (a + b)[1..] == a[1..] + b;
      Utf8Append(a[1..], b);
    }
  }

  predicate IsAscii(s: string) {
    forall i :: 0 <= i < |s| ==> s[i] as int < 0x80
  }

  /** An ASCII string encodes to one byte per character, its code. */
  lemma {:induction false} Utf8OfAscii(s: string)
    requires IsAscii(s)
    ensures |Utf8(s)| == |s|
    ensures forall i :: 0 <= i < |s| ==> Utf8(s)[i] == s[i] as int
  {
    if s != [] {
      Utf8OfAscii(s[1..]);
    }
  }

  // ---------------------------------------------------------------------------
  // The Base64 alphabet (RFC 4648, section 4, Table 1)

  /** The character that encodes the 6-bit value `v`. */
  function EncodeSextet(v: sextet): (c: char)
    ensures c != '='
  {
    if v < 26 then ('A' as int + v) as char
    else if v < 52 then ('a' as int + (v - 26)) as char
    else if v < 62 then ('0' as int + (v - 52)) as char
    else if v == 62 then '+'
    else '/'
  }

  /** The 6-bit value a character encodes, if it is in the alphabet. */
  function DecodeSextet(c: char): (r: Option<sextet>)
    ensures c == '=' ==> r == None
  {
    if 'A' <= c <= 'Z' then Some(c as int - 'A' as int)
    else if 'a' <= c <= 'z' then Some(c as int - 'a' as int + 26)
    else if '0' <= c <= '9' then Some(c as int - '0' as int + 52)
    else if c == '+' then Some(62)
    else if c == '/' then Some(63)
    else None
  }

  lemma SextetRoundTrip(v: sextet)
    ensures DecodeSextet(EncodeSextet(v)) == Some(v)
  {
  }

  lemma SextetUnique(c: char)
    requires DecodeSextet(c).Some?
    ensures EncodeSextet(DecodeSextet(c).value) == c
  {
  }

  predicate IsAlphabet(c: char) { DecodeSextet(c).Some? }

  // ---------------------------------------------------------------------------
  // Splitting three bytes into four sextets and joining them back

  function Hi6(b0: byte): sextet { b0 / 4 }
  function Mid6a(b0: byte, b1: byte): sextet { (b0 % 4) * 16 + b1 / 16 }
  function Mid6b(b1: byte, b2: byte): sextet { (b1 % 16) * 4 + b2 / 64 }
  function Lo6(b2: byte): sextet { b2 % 64 }

  function Join0(v0: sextet, v1: sextet): byte { (v0 as int) * 4 + (v1 as int) / 16 }
  function Join1(v1: sextet, v2: sextet): byte { ((v1 as int) % 16) * 16 + (v2 as int) / 4 }
  function Join2(v2: sextet, v3: sextet): byte { ((v2 as int) % 4) * 64 + v3 as int }

  lemma DivMod4(a: int, b: int)
    requires 0 <= b < 4
    ensures (a * 4 + b) / 4 == a && (a * 4 + b) % 4 == b
  {
  }

  lemma DivMod16(a: int, b: int)
    requires 0 <= b < 16
    ensures (a * 16 + b) / 16 == a && (a * 16 + b) % 16 == b
  {
  }

  lemma DivMod64(a: int, b: int)
    requires 0 <= b < 64
    ensures (a * 64 + b) / 64 == a && (a * 64 + b) % 64 == b
  {
  }

  lemma JoinSplit0(b0: byte, b1: byte)
    ensures Join0(Hi6(b0), Mid6a(b0, b1)) == b0
  {
    DivMod16(b0 % 4, b1 / 16);
  }

  lemma JoinSplit1(b0: byte, b1: byte, b2: byte)
    ensures Join1(Mid6a(b0, b1), Mid6b(b1, b2)) == b1
  {
    DivMod16(b0 % 4, b1 / 16);
    DivMod4(b1 % 16, b2 / 64);
  }

  lemma JoinSplit2(b1: byte, b2: byte)
    ensures Join2(Mid6b(b1, b2), Lo6(b2)) == b2
  {
    DivMod4(b1 % 16, b2 / 64);
  }

  lemma SplitJoin0(v0: sextet, v1: sextet)
    ensures Hi6(Join0(v0, v1)) == v0
  {
    DivMod4(v0, v1 / 16);
  }

  lemma SplitJoin1(v0: sextet, v1: sextet, v2: sextet)
    ensures Mid6a(Join0(v0, v1), Join1(v1, v2)) == v1
  {
    DivMod4(v0, v1 / 16);
    DivMod16(v1 % 16, v2 / 4);
  }

  lemma SplitJoin2(v1: sextet, v2: sextet, v3: sextet)
    ensures Mid6b(Join1(v1, v2), Join2(v2, v3)) == v2
  {
    DivMod16(v1 % 16, v2 / 4);
    DivMod64(v2 % 4, v3);
  }

  lemma SplitJoin3(v2: sextet, v3: sextet)
    ensures Lo6(Join2(v2, v3)) == v3
  {
  }

  // ---------------------------------------------------------------------------
  // Encoding

  /** Three bytes make four characters. */
  function EncodeBlock(b0: byte, b1: byte, b2: byte): (s: string)
    ensures |s| == 4
  {
    [EncodeSextet(Hi6(b0)), EncodeSextet(Mid6a(b0, b1)),
     EncodeSextet(Mid6b(b1, b2)), EncodeSextet(Lo6(b2))]
  }

  /** Base64 of a byte sequence: whole blocks, then a final block of one or
      two bytes padded with `=` (RFC 4648, section 4, cases (2) and (3)). */
  function Encode(bs: seq<byte>): (s: string)
    ensures |s| == 4 * ((|bs| + 2) / 3)
    decreases |bs|
  {
    if |bs| == 0 then ""
    else if |bs| == 1 then
      [EncodeSextet(Hi6(bs[0])), EncodeSextet(Mid6a(bs[0], 0)), '=', '=']
    else if |bs| == 2 then
      [EncodeSextet(Hi6(bs[0])), EncodeSextet(Mid6a(bs[0], bs[1])),
       EncodeSextet(Mid6b(bs[1], 0)), '=']
    else
      EncodedLengthStep(|bs|);
      EncodeBlock(bs[0], bs[1], bs[2]) + Encode(bs[3..])
  }

  lemma EncodedLengthStep(n: nat)
    requires n >= 3
    ensures 4 + 4 * ((n - 3 + 2) / 3) == 4 * ((n + 2) / 3)
  {
    assert (n - 3 + 2) / 3 + 1 == (n + 2) / 3;
  }

  // ---------------------------------------------------------------------------
  // Decoding (strict: the length is a multiple of four, padding only at the
  // end, and the bits that padding discards are zero)

  function DecodeBlock(c0: char, c1: char, c2: char, c3: char): (r: Option<seq<byte>>)
    ensures r.Some? ==> |r.value| == 3
    ensures r.Some? <==> IsAlphabet(c0) && IsAlphabet(c1) && IsAlphabet(c2) && IsAlphabet(c3)
  {
    match (DecodeSextet(c0), DecodeSextet(c1), DecodeSextet(c2), DecodeSextet(c3))
    case (Some(v0), Some(v1), Some(v2), Some(v3)) =>
      Some([Join0(v0, v1), Join1(v1, v2), Join2(v2, v3)])
    case _ => None
  }

  /** The last four characters: a whole block, or one ending in `==` or `=`. */
  function DecodeLast(c0: char, c1: char, c2: char, c3: char): (r: Option<seq<byte>>)
    ensures r.Some? ==> 1 <= |r.value| <= 3
  {
    if c2 == '=' && c3 == '=' then
      match (DecodeSextet(c0), DecodeSextet(c1))
      case (Some(v0), Some(v1)) =>
        if v1 % 16 == 0 then Some([Join0(v0, v1)]) else None
      case _ => None
    else if c3 == '=' then
      match (DecodeSextet(c0), DecodeSextet(c1), DecodeSextet(c2))
      case (Some(v0), Some(v1), Some(v2)) =>
        if v2 % 4 == 0 then Some([Join0(v0, v1), Join1(v1, v2)]) else None
      case _ => None
    else
      DecodeBlock(c0, c1, c2, c3)
  }

  function Decode(s: string): (r: Option<seq<byte>>)
    decreases |s|
  {
    if |s| == 0 then Some([])
    else if |s| < 4 then None
    else if |s| == 4 then DecodeLast(s[0], s[1], s[2], s[3])
    else
      match DecodeBlock(s[0], s[1], s[2], s[3])
      case None => None
      case Some(head) =>
        match Decode(s[4..])
        case None => None
        case Some(tail) => Some(head + tail)
  }

  // ---------------------------------------------------------------------------
  // Round trips

  lemma BlockRoundTrip(b0: byte, b1: byte, b2: byte)
    ensures var e := EncodeBlock(b0, b1, b2);
            DecodeBlock(e[0], e[1], e[2], e[3]) == Some([b0, b1, b2])
  {
    SextetRoundTrip(Hi6(b0));
    SextetRoundTrip(Mid6a(b0, b1));
    SextetRoundTrip(Mid6b(b1, b2));
    SextetRoundTrip(Lo6(b2));
    JoinSplit0(b0, b1);
    JoinSplit1(b0, b1, b2);
    JoinSplit2(b1, b2);
  }

  lemma OneByteRoundTrip(b0: byte)
    ensures Decode(Encode([b0])) == Some([b0])
  {
    SextetRoundTrip(Hi6(b0));
    SextetRoundTrip(Mid6a(b0, 0));
    JoinSplit0(b0, 0);
  }

  lemma TwoByteRoundTrip(b0: byte, b1: byte)
    ensures Decode(Encode([b0, b1])) == Some([b0, b1])
  {
    SextetRoundTrip(Hi6(b0));
    SextetRoundTrip(Mid6a(b0, b1));
    SextetRoundTrip(Mid6b(b1, 0));
    JoinSplit0(b0, b1);
    JoinSplit1(b0, b1, 0);
  }

  lemma ThreeByteRoundTrip(bs: seq<byte>)
    requires |bs| == 3
    ensures Decode(Encode(bs)) == Some(bs)
  {
    var e := EncodeBlock(bs[0], bs[1], bs[2]);
    assert bs[3..] == [];
    assert Encode(bs) == e + "";
    assert e + "" == e;
    BlockRoundTrip(bs[0], bs[1], bs[2]);
    assert bs == [bs[0], bs[1], bs[2]];
  }

  lemma LongRoundTrip(bs: seq<byte>)
    requires |bs| > 3 && Decode(Encode(bs[3..])) == Some(bs[3..])
    ensures Decode(Encode(bs)) == Some(bs)
  {
    SplitThree(bs);
    EncodeFirstBlock(bs);
    DecodeBlockThen(bs[0], bs[1], bs[2], Encode(bs[3..]));
  }

  lemma SplitThree(bs: seq<byte>)
    requires |bs| >= 3
    ensures bs == [bs[0], bs[1], bs[2]] + bs[3..]
  {
  }

  lemma EncodeFirstBlock(bs: seq<byte>)
    requires |bs| > 3
    ensures Encode(bs) == EncodeBlock(bs[0], bs[1], bs[2]) + Encode(bs[3..])
    ensures |Encode(bs[3..])| > 0
  {
  }

  lemma DecodeBlockThen(b0: byte, b1: byte, b2: byte, rest: string)
    requires |rest| > 0 && Decode(rest).Some?
    ensures Decode(EncodeBlock(b0, b1, b2) + rest) == Some([b0, b1, b2] + Decode(rest).value)
  {
    var e := EncodeBlock(b0, b1, b2);
    BlockRoundTrip(b0, b1, b2);
    var s := e + rest;
    assert s[0] == e[0] && s[1] == e[1] && s[2] == e[2] && s[3] == e[3];
    assert s[4..] == rest;
  }

  /** Decoding undoes encoding, for every byte sequence. */
  lemma {:induction false} DecodeEncode(bs: seq<byte>)
    ensures Decode(Encode(bs)) == Some(bs)
    decreases |bs|
  {
    if |bs| == 1 {
      OneByteRoundTrip(bs[0]);
      assert bs == [bs[0]];
    } else if |bs| == 2 {
      TwoByteRoundTrip(bs[0], bs[1]);
      assert bs == [bs[0], bs[1]];
    } else if |bs| == 3 {
      ThreeByteRoundTrip(bs);
    } else if |bs| > 3 {
      DecodeEncode(bs[3..]);
      LongRoundTrip(bs);
    }
  }

  lemma DecodeBlockInverse(c0: char, c1: char, c2: char, c3: char)
    requires DecodeBlock(c0, c1, c2, c3).Some?
    ensures var b := DecodeBlock(c0, c1, c2, c3).value;
            EncodeBlock(b[0], b[1], b[2]) == [c0, c1, c2, c3]
  {
    var v0, v1, v2, v3 := DecodeSextet(c0).value, DecodeSextet(c1).value,
                          DecodeSextet(c2).value, DecodeSextet(c3).value;
    SextetUnique(c0);
    SextetUnique(c1);
    SextetUnique(c2);
    SextetUnique(c3);
    SplitJoin0(v0, v1);
    SplitJoin1(v0, v1, v2);
    SplitJoin2(v1, v2, v3);
    SplitJoin3(v2, v3);
  }

  lemma DecodeLastInverse(c0: char, c1: char, c2: char, c3: char)
    requires DecodeLast(c0, c1, c2, c3).Some?
    ensures Encode(DecodeLast(c0, c1, c2, c3).value) == [c0, c1, c2, c3]
  {
    var bs := DecodeLast(c0, c1, c2, c3).value;
    if c2 == '=' && c3 == '=' {
      var v0, v1 := DecodeSextet(c0).value, DecodeSextet(c1).value;
      SextetUnique(c0);
      SextetUnique(c1);
      SplitJoin0(v0, v1);
      assert Mid6a(Join0(v0, v1), 0) == v1;
    } else if c3 == '=' {
      var v0, v1, v2 := DecodeSextet(c0).value, DecodeSextet(c1).value, DecodeSextet(c2).value;
      SextetUnique(c0);
      SextetUnique(c1);
      SextetUnique(c2);
      SplitJoin0(v0, v1);
      SplitJoin1(v0, v1, v2);
      assert Mid6b(Join1(v1, v2), 0) == v2;
    } else {
      DecodeBlockInverse(c0, c1, c2, c3);
      assert bs[3..] == [];
    }
  }

  /** Encoding undoes decoding: every string the decoder accepts is the
      encoding of what it decodes to, so the encoding is one-to-one onto the
      strings it accepts. */
  lemma {:induction false} EncodeDecode(s: string)
    requires Decode(s).Some?
    ensures Encode(Decode(s).value) == s
    decreases |s|
  {
    if |s| == 4 {
      DecodeLastInverse(s[0], s[1], s[2], s[3]);
      assert s == [s[0], s[1], s[2], s[3]];
    } else if |s| > 4 {
      var head := DecodeBlock(s[0], s[1], s[2], s[3]).value;
      var tail := Decode(s[4..]).value;
      assert Decode(s).value == head + tail;
      EncodeDecode(s[4..]);
      EncodeOfBlockThen(head, tail);
      DecodeBlockInverse(s[0], s[1], s[2], s[3]);
      SplitFirstFour(s);
    }
  }

  lemma SplitFirstFour(s: string)
    requires |s| > 4
    ensures s == [s[0], s[1], s[2], s[3]] + s[4..]
  {
  }

  lemma EncodeOfBlockThen(head: seq<byte>, tail: seq<byte>)
    requires |head| == 3 && |tail| > 0
    ensures Encode(head + tail) == EncodeBlock(head[0], head[1], head[2]) + Encode(tail)
  {
    var bs := head + tail;
    assert bs[0] == head[0] && bs[1] == head[1] && bs[2] == head[2];
    assert bs[3..] == tail;
  }

  /** Test vectors of section 10 of RFC 4648: they fix the alphabet, the bit
      order and the padding. */
  lemma RfcVectors()
    ensures Encode(Utf8("f")) == "Zg=="
    ensures Encode(Utf8("fo")) == "Zm8="
    ensures Encode(Utf8("foo")) == "Zm9v"
  {
    Utf8OfAscii("foo");
    Utf8OfAscii("fo");
    Utf8OfAscii("f");
  }

  /** The two-block vector of section 10 of RFC 4648. */
  lemma RfcVectorTwoBlocks()
    ensures Encode(Utf8("foobar")) == "Zm9vYmFy"
  {
    Utf8OfAscii("foobar");
    var bs: seq<byte> := [0x66, 0x6F, 0x6F, 0x62, 0x61, 0x72];
    assert Utf8("foobar") == bs;
    assert bs[3..][3..] == [];
    assert Encode(bs) == EncodeBlock(0x66, 0x6F, 0x6F) + EncodeBlock(0x62, 0x61, 0x72);
  }
}
