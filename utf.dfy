/**
 * The single-character codecs `ConvertUtf8ToUtf16` and `ConvertUtf16ToUtf8`.
 *
 * They follow the bit layout of section 3 of RFC 3629 for sequences of one to
 * three bytes (the Basic Multilingual Plane) and reject the surrogate range
 * D800-DFFF of section 2.1 of RFC 2781. They are not a full RFC 3629 validator:
 * the decoder accepts overlong forms, as the source does.
 *
 * Return codes of the decoder: 1..3 bytes used, 0 for a leading NUL,
 * -1 encoding error, -2 invalid multibyte sequence, -3 a four-byte lead
 * (a code point outside the BMP, i.e. a surrogate pair in UTF-16).
 * Return codes of the encoder: 1..3 bytes written, 0 for U+0000, -1 surrogate.
 *
 * Creating a Python string from bytes (`PyUnicode_FromStringAndSize`) applies
 * the strict syntax of section 4 of RFC 3629 instead: `DecodeStrict`.
 */
module Utf {
  import opened Python

  datatype Decoded = Decoded(rc: int, ch: bv16)

  /** The encoder's result: a byte count and a zero-padded four-byte buffer. */
  datatype Encoded = Encoded(rc: int, bytes: seq<bv8>)

  predicate IsContinuation(b: bv8)
  {
    0x80 <= b < 0xC0
  }

  predicate IsSurrogate(c: bv16)
  {
    0xD800 <= c < 0xE000
  }

  /** The code point of a two-byte sequence 110xxxxx 10yyyyyy, by subtracting the tag bits. */
  function Value2(b0: bv8, b1: bv8): bv16
  {
    (b0 as bv16 - 0xC0) * 0x40 + (b1 as bv16 - 0x80)
  }

  /** The code point of a three-byte sequence 1110xxxx 10yyyyyy 10zzzzzz, by subtracting the tag bits. */
  function Value3(b0: bv8, b1: bv8, b2: bv8): bv16
  {
    (b0 as bv16 - 0xE0) * 0x1000 + (b1 as bv16 - 0x80) * 0x40 + (b2 as bv16 - 0x80)
  }

  /** A well-formed three-byte sequence: lead 1110xxxx and two continuation bytes. */
  predicate Is3ByteForm(s: seq<bv8>)
  {
    |s| >= 3 && 0xE0 <= s[0] < 0xF0 && IsContinuation(s[1]) && IsContinuation(s[2])
  }

  /** A well-formed two-byte sequence: lead 110xxxxx and one continuation byte. */
  predicate Is2ByteForm(s: seq<bv8>)
  {
    |s| >= 2 && 0xC0 <= s[0] < 0xE0 && IsContinuation(s[1])
  }

  function C8ToC16(b: bv8): bv16
  {
    b as bv16
  }

  /**
   * `ConvertUtf8ToUtf16`: decode one code unit from the front of a UTF-8 byte
   * string. Each return code is characterised by the byte ranges it stands for.
   */
  function ConvertUtf8ToUtf16(s: seq<bv8>): (r: Decoded)
    ensures -3 <= r.rc <= 3
    ensures r.rc <= 0 ==> r.ch == 0
    ensures r.rc > 0 ==> r.rc <= |s|
    ensures r.rc == 0 <==> |s| > 0 && s[0] == 0
    ensures r.rc == 1 <==> |s| > 0 && 0 < s[0] < 0x80
    ensures r.rc == 1 ==> r.ch == s[0] as bv16
    ensures r.rc == 2 <==> Is2ByteForm(s)
    ensures r.rc == 2 ==> r.ch == Value2(s[0], s[1])
    ensures r.rc == 3 <==> Is3ByteForm(s) && !IsSurrogate(Value3(s[0], s[1], s[2]))
    ensures r.rc == 3 ==> r.ch == Value3(s[0], s[1], s[2])
    ensures r.rc == -3 <==> |s| > 0 && 0xF0 <= s[0] < 0xF8
    ensures r.rc == -2 <==>
      |s| == 0 ||
      (0xE0 <= s[0] < 0xF0 && !Is3ByteForm(s)) ||
      (0xC0 <= s[0] < 0xE0 && !Is2ByteForm(s))
    ensures r.rc == -1 <==>
      |s| > 0 &&
      ((0x80 <= s[0] < 0xC0) || 0xF8 <= s[0] ||
       (Is3ByteForm(s) && IsSurrogate(Value3(s[0], s[1], s[2]))))
  {
    if |s| == 0 then Decoded(-2, 0)
    else
      var c0 := s[0];
      if c0 == 0 then Decoded(0, 0)
      else if c0 & 0xF8 == 0xF0 then Decoded(-3, 0)
      else if c0 & 0xF0 == 0xE0 then
        if |s| < 3 then Decoded(-2, 0)
        else
          var c1 := s[1];
          var c2 := s[2];
          if c1 & 0xC0 != 0x80 || c2 & 0xC0 != 0x80 then Decoded(-2, 0)
          else
            var ch := (C8ToC16(c0 & 0xF) << 12) | (C8ToC16(c1 & 0x3F) << 6) | C8ToC16(c2 & 0x3F);
            if 0xD800 <= ch && ch < 0xE000 then Decoded(-1, 0)
            else Decoded(3, ch)
      else if c0 & 0xE0 == 0xC0 then
        if |s| < 2 then Decoded(-2, 0)
        else
          var c1 := s[1];
          if c1 & 0xC0 != 0x80 then Decoded(-2, 0)
          else Decoded(2, (C8ToC16(c0 & 0x1F) << 6) | C8ToC16(c1 & 0x3F))
      else if c0 & 0x80 == 0 then Decoded(1, C8ToC16(c0))
      else Decoded(-1, 0)
  }

  function C16ToC8(c: bv16): bv8
  {
    (c & 0xFF) as bv8
  }

  /**
   * `ConvertUtf16ToUtf8`: encode one UTF-16 code unit. The byte count is chosen
   * by the code unit's range and the unused bytes of the buffer are zero.
   */
  function ConvertUtf16ToUtf8(c: bv16): (r: Encoded)
    ensures |r.bytes| == 4
    ensures r.rc == 0 <==> c == 0
    ensures r.rc == 1 <==> 0 < c < 0x80
    ensures r.rc == 2 <==> 0x80 <= c < 0x800
    ensures r.rc == -1 <==> IsSurrogate(c)
    ensures r.rc == 3 <==> 0x800 <= c && !IsSurrogate(c)
    ensures forall i :: 0 <= i < 4 && i >= r.rc ==> r.bytes[i] == 0
    ensures r.rc == 1 ==> r.bytes[0] as bv16 == c
    ensures r.rc == 2 ==> Is2ByteForm(r.bytes) && Value2(r.bytes[0], r.bytes[1]) == c
    ensures r.rc == 3 ==> Is3ByteForm(r.bytes) && Value3(r.bytes[0], r.bytes[1], r.bytes[2]) == c
  {
    if c == 0 then Encoded(0, [0, 0, 0, 0])
    else if c < 0x80 then Encoded(1, [C16ToC8(c), 0, 0, 0])
    else if c < 0x800 then
      Encode2Bytes(c);
      Encoded(2, [C16ToC8(((c & 0x7C0) >> 6) | 0xC0), C16ToC8((c & 0x3F) | 0x80), 0, 0])
    else if 0xD800 <= c && c < 0xE000 then Encoded(-1, [0, 0, 0, 0])
    else
      Encode3Bytes(c);
      Encoded(3, [C16ToC8(((c & 0xF000) >> 12) | 0xE0),
                  C16ToC8(((c & 0xFC0) >> 6) | 0x80),
                  C16ToC8((c & 0x3F) | 0x80), 0])
  }

  /** The bytes the encoder writes for a code unit of two bytes' range form that sequence and carry its value. */
  lemma Encode2Bytes(c: bv16)
    requires 0x80 <= c < 0x800
    ensures var b0 := C16ToC8(((c & 0x7C0) >> 6) | 0xC0); var b1 := C16ToC8((c & 0x3F) | 0x80);
      0xC0 <= b0 < 0xE0 && IsContinuation(b1) && Value2(b0, b1) == c
  {
  }

  /** The bytes the encoder writes for a code unit of three bytes' range form that sequence and carry its value. */
  lemma Encode3Bytes(c: bv16)
    requires 0x800 <= c
    ensures var b0 := C16ToC8(((c & 0xF000) >> 12) | 0xE0);
      var b1 := C16ToC8(((c & 0xFC0) >> 6) | 0x80);
      var b2 := C16ToC8((c & 0x3F) | 0x80);
      0xE0 <= b0 < 0xF0 && IsContinuation(b1) && IsContinuation(b2) && Value3(b0, b1, b2) == c
  {
  }

  /** Distinct well-formed two-byte sequences have distinct values. */
  lemma Value2Injective(a0: bv8, a1: bv8, b0: bv8, b1: bv8)
    requires 0xC0 <= a0 < 0xE0 && IsContinuation(a1) && 0xC0 <= b0 < 0xE0 && IsContinuation(b1)
    requires Value2(a0, a1) == Value2(b0, b1)
    ensures a0 == b0 && a1 == b1
  {
  }

  /** Distinct well-formed three-byte sequences have distinct values. */
  lemma Value3Injective(a0: bv8, a1: bv8, a2: bv8, b0: bv8, b1: bv8, b2: bv8)
    requires 0xE0 <= a0 < 0xF0 && IsContinuation(a1) && IsContinuation(a2)
    requires 0xE0 <= b0 < 0xF0 && IsContinuation(b1) && IsContinuation(b2)
    requires Value3(a0, a1, a2) == Value3(b0, b1, b2)
    ensures a0 == b0 && a1 == b1 && a2 == b2
  {
  }

  /**
   * Round trip from UTF-16: a non-NUL code unit outside the surrogate range is
   * encoded in one, two or three bytes, and decoding exactly those bytes gives
   * the same byte count and the same code unit back.
   */
  lemma Utf16RoundTrip(c: bv16)
    requires c != 0 && !IsSurrogate(c)
    ensures var e := ConvertUtf16ToUtf8(c);
      1 <= e.rc <= 3 && ConvertUtf8ToUtf16(e.bytes[..e.rc]) == Decoded(e.rc, c)
  {
    var e := ConvertUtf16ToUtf8(c);
    var s := e.bytes[..e.rc];
    if e.rc == 3 {
      assert Is3ByteForm(s) && Value3(s[0], s[1], s[2]) == c;
    } else if e.rc == 2 {
      assert Is2ByteForm(s) && Value2(s[0], s[1]) == c;
    } else {
      assert s[0] as bv16 == c;
    }
  }

  /** The encoder reproduces a shortest two-byte sequence from its value. */
  lemma Reencode2(s: seq<bv8>)
    requires Is2ByteForm(s) && Value2(s[0], s[1]) >= 0x80
    ensures var e := ConvertUtf16ToUtf8(Value2(s[0], s[1])); e.rc == 2 && e.bytes[..2] == s[..2]
  {
    var e := ConvertUtf16ToUtf8(Value2(s[0], s[1]));
    Value2Injective(e.bytes[0], e.bytes[1], s[0], s[1]);
  }

  /** The encoder reproduces a shortest, non-surrogate three-byte sequence from its value. */
  lemma Reencode3(s: seq<bv8>)
    requires Is3ByteForm(s) && Value3(s[0], s[1], s[2]) >= 0x800 && !IsSurrogate(Value3(s[0], s[1], s[2]))
    ensures var e := ConvertUtf16ToUtf8(Value3(s[0], s[1], s[2])); e.rc == 3 && e.bytes[..3] == s[..3]
  {
    var e := ConvertUtf16ToUtf8(Value3(s[0], s[1], s[2]));
    Value3Injective(e.bytes[0], e.bytes[1], e.bytes[2], s[0], s[1], s[2]);
  }

  /**
   * Round trip from UTF-8: a sequence the decoder accepts in its shortest form
   * is exactly what the encoder produces for the decoded code unit.
   */
  lemma Utf8RoundTrip(s: seq<bv8>)
    requires var d := ConvertUtf8ToUtf16(s);
      d.rc > 0 && (d.rc == 2 ==> d.ch >= 0x80) && (d.rc == 3 ==> d.ch >= 0x800)
    ensures var d := ConvertUtf8ToUtf16(s); var e := ConvertUtf16ToUtf8(d.ch);
      e.rc == d.rc && e.bytes[..e.rc] == s[..d.rc]
  {
    var d := ConvertUtf8ToUtf16(s);
    if d.rc == 3 {
      Reencode3(s);
    } else if d.rc == 2 {
      Reencode2(s);
    } else {
      var e := ConvertUtf16ToUtf8(d.ch);
      assert e.bytes[..1] == s[..1];
    }
  }

  /** The decoder does not reject overlong forms: C0 80 decodes, in two bytes, to U+0000. */
  lemma DecoderAcceptsOverlong()
    ensures ConvertUtf8ToUtf16([0xC0, 0x80]) == Decoded(2, 0)
    ensures ConvertUtf8ToUtf16([0xE0, 0x80, 0x80]) == Decoded(3, 0)
  {
  }
  predicate InByteRange(b: bv8, lo: bv8, hi: bv8)
  {
    lo <= b <= hi
  }

  /**
   * The length of the well-formed UTF-8 sequence at the front of b, following
   * the UTF8-char rule of section 4 of RFC 3629 (shortest forms only, no
   * surrogates, nothing above U+10FFFF), or 0 when b does not start with one.
   */
  function SequenceLength(b: seq<bv8>): (n: nat)
    ensures n <= 4 && n <= |b|
    ensures |b| > 0 && b[0] < 0x80 ==> n == 1
    ensures n > 0 ==> (b[0] < 0x80 <==> n == 1)
  {
    if |b| == 0 then 0
    else if b[0] < 0x80 then 1
    else if |b| >= 2 && InByteRange(b[0], 0xC2, 0xDF) && IsContinuation(b[1]) then 2
    else if |b| >= 3 && IsContinuation(b[2]) &&
      ((b[0] == 0xE0 && InByteRange(b[1], 0xA0, 0xBF)) ||
       ((InByteRange(b[0], 0xE1, 0xEC) || InByteRange(b[0], 0xEE, 0xEF)) && IsContinuation(b[1])) ||
       (b[0] == 0xED && InByteRange(b[1], 0x80, 0x9F))) then 3
    else if |b| >= 4 && IsContinuation(b[2]) && IsContinuation(b[3]) &&
      ((b[0] == 0xF0 && InByteRange(b[1], 0x90, 0xBF)) ||
       (InByteRange(b[0], 0xF1, 0xF3) && IsContinuation(b[1])) ||
       (b[0] == 0xF4 && InByteRange(b[1], 0x80, 0x8F))) then 4
    else 0
  }

  /** The number of code points in b when b is well-formed UTF-8 throughout. */
  function DecodeStrict(b: seq<bv8>): (r: Option<nat>)
    ensures r.Some? ==> r.value <= |b|
    ensures |b| == 0 ==> r == Some(0)
    decreases |b|
  {
    if |b| == 0 then Some(0)
    else
      var n := SequenceLength(b);
      if n == 0 then NoValue
      else match DecodeStrict(b[n..])
        case NoValue => NoValue
        case Some(k) => Some(k + 1)
  }

  /** A two-byte sequence whose value needs two bytes has a lead byte of at least C2. */
  lemma Shortest2(b0: bv8, b1: bv8)
    requires 0xC0 <= b0 < 0xE0 && IsContinuation(b1) && Value2(b0, b1) >= 0x80
    ensures b0 >= 0xC2
  {
  }

  /** A three-byte sequence whose value needs three bytes and is no surrogate meets the E0 and ED rules. */
  lemma Shortest3(b0: bv8, b1: bv8, b2: bv8)
    requires 0xE0 <= b0 < 0xF0 && IsContinuation(b1) && IsContinuation(b2)
    requires Value3(b0, b1, b2) >= 0x800 && !IsSurrogate(Value3(b0, b1, b2))
    ensures b0 == 0xE0 ==> b1 >= 0xA0
    ensures b0 == 0xED ==> b1 <= 0x9F
  {
  }

  lemma OneCharacter(s: seq<bv8>)
    requires 0 < |s| && SequenceLength(s) == |s|
    ensures DecodeStrict(s) == Some(1)
  {
    assert s[|s|..] == [];
  }

  /**
   * Whatever the encoder writes for a code unit it accepts is one well-formed
   * UTF-8 character, so creating a Python string from it cannot fail.
   */
  lemma EncodedIsWellFormed(c: bv16)
    requires c != 0 && !IsSurrogate(c)
    ensures var e := ConvertUtf16ToUtf8(c); 1 <= e.rc <= 3 && DecodeStrict(e.bytes[..e.rc]) == Some(1)
  {
    var e := ConvertUtf16ToUtf8(c);
    var s := e.bytes[..e.rc];
    if e.rc == 2 {
      Shortest2(e.bytes[0], e.bytes[1]);
      assert SequenceLength(s) == 2;
    } else if e.rc == 3 {
      Shortest3(e.bytes[0], e.bytes[1], e.bytes[2]);
      assert SequenceLength(s) == 3;
    } else {
      assert SequenceLength(s) == 1;
    }
    OneCharacter(s);
  }
}
