/**
 * `nbase::Base64Encode` and `nbase::Base64Decode`: the base 64 encoding of
 * section 4 of RFC 4648, with the standard alphabet and '=' padding. Every
 * three bytes become four characters; a final one or two bytes become four
 * characters ending in two or one '='.
 */
module Base64 {
  import opened Wrappers

  type byte = x: int | 0 <= x < 256
  /** A six-bit value, the index of one character of the alphabet. */
  type sextet = x: int | 0 <= x < 64

  /** The alphabet of section 4 of RFC 4648: A-Z, a-z, 0-9, '+' and '/'. */
  function CharOf(i: sextet): (c: char)
    ensures c != '='
  {
    if i < 26 then ('A' as int + i) as char
    else if i < 52 then ('a' as int + i - 26) as char
    else if i < 62 then ('0' as int + i - 52) as char
    else if i == 62 then '+'
    else '/'
  }

  /** The alphabet index of `c`, or `None` for a character outside the alphabet ('=' included). */
  function IndexOf(c: char): (r: Option<sextet>)
    ensures r.Some? ==> CharOf(r.value) == c
  {
    if 'A' <= c <= 'Z' then Some(c as int - 'A' as int)
    else if 'a' <= c <= 'z' then Some(c as int - 'a' as int + 26)
    else if '0' <= c <= '9' then Some(c as int - '0' as int + 52)
    else if c == '+' then Some(62)
    else if c == '/' then Some(63)
    else None
  }

  lemma IndexOfCharOf(i: sextet)
    ensures IndexOf(CharOf(i)) == Some(i)
  {
  }

  // ------------------------------------------------------------------ encode

  /** Three bytes, 24 bits, as four six-bit indices, most significant first. */
  function EncodeTriple(b0: byte, b1: byte, b2: byte): string
  {
    [CharOf(b0 / 4), CharOf((b0 % 4) * 16 + b1 / 16), CharOf((b1 % 16) * 4 + b2 / 64), CharOf(b2 % 64)]
  }

  /** Two final bytes: three characters, the last padded with zero bits, and one '='. */
  function EncodePair(b0: byte, b1: byte): string
  {
    [CharOf(b0 / 4), CharOf((b0 % 4) * 16 + b1 / 16), CharOf((b1 % 16) * 4), '=']
  }

  /** One final byte: two characters, the second padded with zero bits, and "==". */
  function EncodeSingle(b0: byte): string
  {
    [CharOf(b0 / 4), CharOf((b0 % 4) * 16), '=', '=']
  }

  function Encode(s: seq<byte>): string
  {
    if |s| == 0 then ""
    else if |s| == 1 then EncodeSingle(s[0])
    else if |s| == 2 then EncodePair(s[0], s[1])
    else EncodeTriple(s[0], s[1], s[2]) + Encode(s[3..])
  }

  /** Four characters for every started group of three bytes. */
  lemma {:induction false} EncodeLength(s: seq<byte>)
    ensures |Encode(s)| == 4 * ((|s| + 2) / 3)
    decreases |s|
  {
    if |s| >= 3 {
      EncodeLength(s[3..]);
      assert (|s| + 2) / 3 == (|s[3..]| + 2) / 3 + 1;
    }
  }

  // ------------------------------------------------------------------ decode

  /** Four indices back to three bytes. */
  function DecodeIndices(i0: sextet, i1: sextet, i2: sextet, i3: sextet): seq<byte>
  {
    [i0 * 4 + i1 / 16, (i1 % 16) * 16 + i2 / 4, (i2 % 4) * 64 + i3]
  }

  /**
   * One group of four characters. Padding is accepted only in the last
   * group: "xx==" gives one byte and "xxx=" two.
   */
  function DecodeQuad(q: string, last: bool): (r: Option<seq<byte>>)
    requires |q| == 4
    ensures r.Some? ==> 1 <= |r.value| <= 3
    ensures r.Some? && |r.value| < 3 ==> last && q[3] == '='
  {
    var i0, i1, i2, i3 := IndexOf(q[0]), IndexOf(q[1]), IndexOf(q[2]), IndexOf(q[3]);
    if i0.None? || i1.None? then None
    else if i2.Some? && i3.Some? then Some(DecodeIndices(i0.value, i1.value, i2.value, i3.value))
    else if last && i2.Some? && q[3] == '=' then
      Some([i0.value * 4 + i1.value / 16, (i1.value % 16) * 16 + i2.value / 4])
    else if last && q[2] == '=' && q[3] == '=' then Some([i0.value * 4 + i1.value / 16])
    else None
  }

  /**
   * `None` when the text is not a whole number of four-character groups,
   * holds a character outside the alphabet, or pads anywhere but at its end.
   */
  function Decode(t: string): (r: Option<seq<byte>>)
    decreases |t|
  {
    if t == [] then Some([])
    else if |t| < 4 then None
    else match DecodeQuad(t[..4], |t| == 4)
      case None => None
      case Some(bytes) =>
        match Decode(t[4..])
        case None => None
        case Some(rest) => Some(bytes + rest)
  }

  /** Decoding yields at most three bytes per group and fails on a length that is not a multiple of 4. */
  lemma {:induction false} DecodeLength(t: string)
    ensures Decode(t).Some? ==> |t| % 4 == 0 && |Decode(t).value| <= 3 * (|t| / 4)
    decreases |t|
  {
    if t != [] && |t| >= 4 && Decode(t).Some? {
      var rest := t[4..];
      DecodeLength(rest);
      var bytes := DecodeQuad(t[..4], |t| == 4).value;
      assert Decode(t).value == bytes + Decode(rest).value;
      assert |rest| % 4 == 0 && |t| == |rest| + 4;
      assert |t| / 4 == |rest| / 4 + 1;
    }
  }

  // -------------------------------------------------------------- round trip

  lemma DecodeEncodedTriple(b0: byte, b1: byte, b2: byte, last: bool)
    ensures DecodeQuad(EncodeTriple(b0, b1, b2), last) == Some([b0, b1, b2])
  {
    var i0, i1, i2, i3 := b0 / 4, (b0 % 4) * 16 + b1 / 16, (b1 % 16) * 4 + b2 / 64, b2 % 64;
    IndexOfCharOf(i0);
    IndexOfCharOf(i1);
    IndexOfCharOf(i2);
    IndexOfCharOf(i3);
    assert i1 / 16 == b0 % 4 && i1 % 16 == b1 / 16;
    assert i2 / 4 == b1 % 16 && i2 % 4 == b2 / 64;
  }

  lemma DecodeEncodedPair(b0: byte, b1: byte)
    ensures DecodeQuad(EncodePair(b0, b1), true) == Some([b0, b1])
  {
    var i0, i1, i2 := b0 / 4, (b0 % 4) * 16 + b1 / 16, (b1 % 16) * 4;
    IndexOfCharOf(i0);
    IndexOfCharOf(i1);
    IndexOfCharOf(i2);
    assert i1 / 16 == b0 % 4 && i1 % 16 == b1 / 16;
    assert i2 / 4 == b1 % 16;
  }

  lemma DecodeEncodedSingle(b0: byte)
    ensures DecodeQuad(EncodeSingle(b0), true) == Some([b0])
  {
    var i0, i1 := b0 / 4, (b0 % 4) * 16;
    IndexOfCharOf(i0);
    IndexOfCharOf(i1);
    assert i1 / 16 == b0 % 4;
  }

  /** Decoding a group followed by more text decodes the group, then the rest. */
  lemma DecodeGroupThen(q: string, rest: string, bytes: seq<byte>, tail: seq<byte>)
    requires |q| == 4 && DecodeQuad(q, rest == []) == Some(bytes) && Decode(rest) == Some(tail)
    ensures Decode(q + rest) == Some(bytes + tail)
  {
    var t := q + rest;
    assert t[..4] == q && t[4..] == rest;
  }

  lemma DecodeEncodeSingle(s: seq<byte>)
    requires |s| == 1
    ensures Decode(Encode(s)) == Some(s)
  {
    DecodeEncodedSingle(s[0]);
    DecodeGroupThen(EncodeSingle(s[0]), [], [s[0]], []);
    assert EncodeSingle(s[0]) + [] == Encode(s);
    assert [s[0]] + [] == s;
  }

  lemma DecodeEncodePair(s: seq<byte>)
    requires |s| == 2
    ensures Decode(Encode(s)) == Some(s)
  {
    DecodeEncodedPair(s[0], s[1]);
    DecodeGroupThen(EncodePair(s[0], s[1]), [], [s[0], s[1]], []);
    assert EncodePair(s[0], s[1]) + [] == Encode(s);
    assert [s[0], s[1]] + [] == s;
  }

  /** Decoding an encoding gives the bytes back, for every byte string. */
  lemma {:induction false} DecodeEncode(s: seq<byte>)
    ensures Decode(Encode(s)) == Some(s)
    decreases |s|
  {
    if |s| == 1 {
      DecodeEncodeSingle(s);
    } else if |s| == 2 {
      DecodeEncodePair(s);
    } else if |s| >= 3 {
      var rest := Encode(s[3..]);
      EncodeLength(s[3..]);
      DecodeEncodedTriple(s[0], s[1], s[2], rest == []);
      DecodeEncode(s[3..]);
      DecodeGroupThen(EncodeTriple(s[0], s[1], s[2]), rest, [s[0], s[1], s[2]], s[3..]);
      assert [s[0], s[1], s[2]] + s[3..] == s;
    }
  }

  /** The padding of an encoding with `k` extra bytes after its whole groups: "" for none, "==" for one, "=" for two. */
  function Padding(k: int): string
  {
    if k == 1 then "==" else if k == 2 then "=" else ""
  }

  /** A group of three bytes carries no padding. */
  lemma TripleUnpadded(b0: byte, b1: byte, b2: byte)
    ensures '=' !in EncodeTriple(b0, b1, b2)
  {
  }

  /** `t` ends in `p`, and no '=' comes before it. */
  predicate EndsInPadding(t: string, p: string)
  {
    |p| <= |t| && t[|t| - |p|..] == p && '=' !in t[..|t| - |p|]
  }

  lemma ShortPadding(s: seq<byte>)
    requires |s| < 3
    ensures EndsInPadding(Encode(s), Padding(|s| % 3))
  {
    if |s| == 1 {
      var t := Encode(s);
      assert t == EncodeSingle(s[0]);
      assert Padding(|s| % 3) == "==";
      SinglePadded(s[0]);
    } else if |s| == 2 {
      var t := Encode(s);
      assert t == EncodePair(s[0], s[1]);
      assert Padding(|s| % 3) == "=";
      PairPadded(s[0], s[1]);
    } else {
      assert Encode(s) == "";
    }
  }

  lemma SinglePadded(b0: byte)
    ensures EndsInPadding(EncodeSingle(b0), "==")
  {
    var t := EncodeSingle(b0);
    assert t[..2] == [t[0], t[1]];
  }

  lemma PairPadded(b0: byte, b1: byte)
    ensures EndsInPadding(EncodePair(b0, b1), "=")
  {
    var t := EncodePair(b0, b1);
    assert t[..3] == [t[0], t[1], t[2]];
  }

  /**
   * The encoding ends in exactly the padding `Padding(|s| % 3)` and holds
   * no '=' before it.
   */
  lemma {:induction false} EncodePadding(s: seq<byte>)
    ensures EndsInPadding(Encode(s), Padding(|s| % 3))
    decreases |s|
  {
    if |s| < 3 {
      ShortPadding(s);
    } else {
      var rest := s[3..];
      EncodePadding(rest);
      EncodeGroups(s);
      TripleUnpadded(s[0], s[1], s[2]);
      PaddingStep(|s|);
      assert |rest| == |s| - 3;
      PaddedAfterGroup(EncodeTriple(s[0], s[1], s[2]), Encode(rest), Padding(|s| % 3));
    }
  }

  lemma PaddingStep(n: int)
    requires n >= 3
    ensures Padding(n % 3) == Padding((n - 3) % 3)
  {
  }

  lemma PaddedAfterGroup(q: string, rest: string, p: string)
    requires '=' !in q && EndsInPadding(rest, p)
    ensures EndsInPadding(q + rest, p)
  {
    var t := q + rest;
    assert t[|t| - |p|..] == rest[|rest| - |p|..];
    assert t[..|t| - |p|] == q + rest[..|rest| - |p|];
  }

  // ------------------------------------------------------------- test vector

  /** The bytes of "hello world" as Latin-1 text. */
  const HelloWorld: seq<byte> := [104, 101, 108, 108, 111, 32, 119, 111, 114, 108, 100]

  lemma EncodeGroups(s: seq<byte>)
    requires |s| >= 3
    ensures Encode(s) == EncodeTriple(s[0], s[1], s[2]) + Encode(s[3..])
  {
  }

  lemma HelloWorldGroups()
    ensures EncodeTriple(104, 101, 108) == "aGVs"
    ensures EncodeTriple(108, 111, 32) == "bG8g"
    ensures EncodeTriple(119, 111, 114) == "d29y"
    ensures EncodePair(108, 100) == "bGQ="
  {
  }

  /** "hello world" encodes to "aGVsbG8gd29ybGQ=": eleven bytes, sixteen characters, one '='. */
  lemma HelloWorldEncodes()
    ensures Encode(HelloWorld) == "aGVsbG8gd29ybGQ="
  {
    var s := HelloWorld;
    var s3: seq<byte> := [108, 111, 32, 119, 111, 114, 108, 100];
    var s6: seq<byte> := [119, 111, 114, 108, 100];
    var s9: seq<byte> := [108, 100];
    HelloWorldGroups();
    EncodeGroups(s);
    assert s[3..] == s3;
    EncodeGroups(s3);
    assert s3[3..] == s6;
    EncodeGroups(s6);
    assert s6[3..] == s9;
    assert Encode(s9) == EncodePair(108, 100);
  }

  /** "aGVsbG8gd29ybGQ=" decodes to "hello world". */
  lemma HelloWorldDecodes()
    ensures Decode("aGVsbG8gd29ybGQ=") == Some(HelloWorld)
  {
    HelloWorldEncodes();
    DecodeEncode(HelloWorld);
  }
}
