/**
 UTF-8 decoding with replacement, twice: as the byte-at-a-time decoder of section
 8.1.1 of the WHATWG Encoding Standard, which a streaming reader feeds, and as a
 reference that looks at whole sequences of bytes and at the encoding of scalar
 values. The two agree on every sequence of bytes.
 */
module Utf8 {
  type Byte = b: nat | b < 256

  const REPLACEMENT: nat := 0xFFFD
  const BYTE_ORDER_MARK: nat := 0xFEFF

  predicate IsScalar(c: nat) {
    c < 0xD800 || 0xE000 <= c <= 0x10FFFF
  }

  function Encode(c: nat): seq<Byte>
    requires IsScalar(c)
  {
    if c < 0x80 then [c]
    else if c < 0x800 then [0xC0 + c / 64, 0x80 + c % 64]
    else if c < 0x1_0000 then [0xE0 + c / 64 / 64, 0x80 + c / 64 % 64, 0x80 + c % 64]
    else [0xF0 + c / 64 / 64 / 64, 0x80 + c / 64 / 64 % 64, 0x80 + c / 64 % 64, 0x80 + c % 64]
  }

  // ------------------------------------------------------------------- reference

  predicate Tail(b: Byte) {
    0x80 <= b <= 0xBF
  }

  /** How many bytes a sequence that begins with `b` has; zero if none begins with it. */
  function Length(b: Byte): nat {
    if b <= 0x7F then 1
    else if 0xC2 <= b <= 0xDF then 2
    else if 0xE0 <= b <= 0xEF then 3
    else if 0xF0 <= b <= 0xF4 then 4
    else 0
  }

  /** The second byte is narrower after some leads: no overlong form, no surrogate, nothing past U+10FFFF. */
  predicate Second(lead: Byte, b: Byte) {
    (if lead == 0xE0 then 0xA0 else if lead == 0xF0 then 0x90 else 0x80) <= b <=
    (if lead == 0xED then 0x9F else if lead == 0xF4 then 0x8F else 0xBF)
  }

  /** `s` is a sequence that encodes a scalar value, or begins one. */
  predicate Begins(s: seq<Byte>) {
    && 0 < |s| <= Length(s[0])
    && (|s| > 1 ==> Second(s[0], s[1]))
    && (|s| > 2 ==> Tail(s[2]))
    && (|s| > 3 ==> Tail(s[3]))
  }

  predicate WellFormed(s: seq<Byte>) {
    Begins(s) && |s| == Length(s[0])
  }

  /** A scalar value with six more bits. */
  function Shift(c: int, b: Byte): int {
    c * 64 + (b - 0x80)
  }

  /** The bits of a lead. */
  function Bits(lead: Byte): int {
    match Length(lead)
    case 2 => lead - 0xC0
    case 3 => lead - 0xE0
    case 4 => lead - 0xF0
    case _ => lead
  }

  function Scalar(s: seq<Byte>): (c: nat)
    requires WellFormed(s)
  {
    var c1 := Bits(s[0]);
    if |s| == 1 then c1
    else if |s| == 2 then Shift(c1, s[1])
    else if |s| == 3 then Shift(Shift(c1, s[1]), s[2])
    else Shift(Shift(Shift(c1, s[1]), s[2]), s[3])
  }

  lemma ShiftSplits(c: int, b: Byte)
    requires c >= 0 && Tail(b)
    ensures Shift(c, b) / 64 == c && 0x80 + Shift(c, b) % 64 == b
  {
  }

  /** The table of well-formed sequences is exactly the encodings of scalar values. */
  lemma WellFormedEncodes(s: seq<Byte>)
    requires WellFormed(s)
    ensures IsScalar(Scalar(s)) && Encode(Scalar(s)) == s
  {
    var c1 := Bits(s[0]);
    if |s| > 1 {
      ShiftSplits(c1, s[1]);
    }
    if |s| > 2 {
      ShiftSplits(Shift(c1, s[1]), s[2]);
    }
    if |s| > 3 {
      ShiftSplits(Shift(Shift(c1, s[1]), s[2]), s[3]);
    }
  }

  lemma EncodeWellFormed(c: nat)
    requires IsScalar(c)
    ensures WellFormed(Encode(c)) && Scalar(Encode(c)) == c
  {
  }

  /** The longest prefix of the bytes that begins a sequence: one byte at least, whatever it is. */
  function Subpart(s: seq<Byte>): (n: nat)
    requires s != []
    ensures 1 <= n <= |s| && n <= 4
  {
    if |s| < 2 || !Begins(s[..2]) then 1
    else if |s| < 3 || !Begins(s[..3]) then 2
    else if |s| < 4 || !Begins(s[..4]) then 3
    else 4
  }

  /**
   One-shot decoding: at each position the longest prefix that begins a sequence
   is taken; it gives its scalar value if it is whole and one replacement if not.
   */
  function Decode(s: seq<Byte>): seq<nat> {
    if s == [] then []
    else
      var n := Subpart(s);
      [if WellFormed(s[..n]) then Scalar(s[..n]) else REPLACEMENT] + Decode(s[n..])
  }

  function EncodeAll(text: seq<nat>): seq<Byte>
    requires forall c :: c in text ==> IsScalar(c)
  {
    if text == [] then [] else Encode(text[0]) + EncodeAll(text[1..])
  }

  /** Decoding is a left inverse of encoding. */
  lemma {:induction false} DecodeEncodes(text: seq<nat>)
    requires forall c :: c in text ==> IsScalar(c)
    ensures Decode(EncodeAll(text)) == text
  {
    if text != [] {
      EncodeWellFormed(text[0]);
      DecodeEncodes(text[1..]);
    }
  }

  /** A byte that no encoding begins with is one replacement, where one could begin. */
  lemma StrayReplaced(b: Byte, rest: seq<Byte>)
    requires 0x80 <= b <= 0xC1 || b >= 0xF5
    ensures Decode([b] + rest) == [0xFFFD] + Decode(rest)
  {
    var s := [b] + rest;
    assert Subpart(s) == 1 && s[..1] == [b] && s[1..] == rest;
  }

  /** A character cut short is one replacement, and costs nothing of the text after it. */
  lemma CutShort(c: nat, n: nat, text: seq<nat>)
    requires IsScalar(c) && 0 < n < |Encode(c)| && forall d :: d in text ==> IsScalar(d)
    ensures Decode(Encode(c)[..n] + EncodeAll(text)) == [0xFFFD] + text
  {
    EncodeWellFormed(c);
    DecodeEncodes(text);
    if text != [] {
      EncodeWellFormed(text[0]);
    }
    DecodeBroken(Encode(c)[..n], EncodeAll(text));
  }

  // --------------------------------------------------------------- the byte decoder

  datatype Decoder = Decoder(codePoint: nat, seen: nat, needed: nat, lower: nat, upper: nat)

  const CLEAN := Decoder(0, 0, 0, 0x80, 0xBF)

  /** A byte that is not a continuation. */
  function Lead(b: Byte): (Decoder, seq<nat>) {
    if b <= 0x7F then (CLEAN, [b])
    else if 0xC2 <= b <= 0xDF then (Decoder(b - 0xC0, 0, 1, 0x80, 0xBF), [])
    else if 0xE0 <= b <= 0xEF then
      (Decoder(b - 0xE0, 0, 2, if b == 0xE0 then 0xA0 else 0x80, if b == 0xED then 0x9F else 0xBF), [])
    else if 0xF0 <= b <= 0xF4 then
      (Decoder(b - 0xF0, 0, 3, if b == 0xF0 then 0x90 else 0x80, if b == 0xF4 then 0x8F else 0xBF), [])
    else (CLEAN, [REPLACEMENT])
  }

  /** One byte. A byte out of range ends the sequence with a replacement and is then read again as a lead. */
  function Feed(d: Decoder, b: Byte): (Decoder, seq<nat>) {
    if d.needed == 0 then Lead(b)
    else if !(d.lower <= b <= d.upper) then
      var (d', out) := Lead(b);
      (d', [REPLACEMENT] + out)
    else
      var codePoint := d.codePoint * 64 + (if b >= 0x80 then b - 0x80 else 0);
      if d.seen + 1 == d.needed then (CLEAN, [codePoint])
      else (Decoder(codePoint, d.seen + 1, d.needed, 0x80, 0xBF), [])
  }

  function Feeds(d: Decoder, s: seq<Byte>): (Decoder, seq<nat>)
    decreases |s|
  {
    if s == [] then (d, [])
    else
      var (d1, out1) := Feed(d, s[0]);
      var (d2, out2) := Feeds(d1, s[1..]);
      (d2, out1 + out2)
  }

  /** The end of the input in the middle of a sequence is one replacement. */
  function Flush(d: Decoder): seq<nat> {
    if d.needed != 0 then [REPLACEMENT] else []
  }

  /** Feeding bytes in two parts is feeding them at once. */
  lemma {:induction false} FeedsConcat(d: Decoder, a: seq<Byte>, b: seq<Byte>)
    ensures var (d1, out1) := Feeds(d, a);
      var (d2, out2) := Feeds(d1, b);
      Feeds(d, a + b) == (d2, out1 + out2)
    decreases |a|
  {
    if a == [] {
      assert a + b == b;
      assert [] + Feeds(d, b).1 == Feeds(d, b).1;
    } else {
      assert (a + b)[0] == a[0] && (a + b)[1..] == a[1..] + b;
      var (d1, out1) := Feed(d, a[0]);
      FeedsConcat(d1, a[1..], b);
      var (d2, out2) := Feeds(d1, a[1..]);
      assert out1 + (out2 + Feeds(d2, b).1) == out1 + out2 + Feeds(d2, b).1;
    }
  }

  function Drain(d: Decoder, s: seq<Byte>): seq<nat> {
    var (d', out) := Feeds(d, s);
    out + Flush(d')
  }

  /** The decoder in the middle of a sequence that began with `p`. */
  function After(p: seq<Byte>): Decoder
    requires Begins(p) && !WellFormed(p)
  {
    match |p|
    case 1 => Lead(p[0]).0
    case 2 => Decoder(Shift(Bits(p[0]), p[1]), 1, Length(p[0]) - 1, 0x80, 0xBF)
    case _ => Decoder(Shift(Shift(Bits(p[0]), p[1]), p[2]), 2, Length(p[0]) - 1, 0x80, 0xBF)
  }

  /** What one more byte does in the middle of a sequence. */
  lemma FeedAfter(p: seq<Byte>, b: Byte)
    requires Begins(p) && !WellFormed(p)
    ensures After(p).needed != 0
    ensures WellFormed(p + [b]) ==> Feed(After(p), b) == (CLEAN, [Scalar(p + [b])])
    ensures Begins(p + [b]) && !WellFormed(p + [b]) ==> Feed(After(p), b) == (After(p + [b]), [])
    ensures !Begins(p + [b]) ==> Feed(After(p), b) == (Lead(b).0, [REPLACEMENT] + Lead(b).1)
  {
  }

  /** A sequence broken off, by the end or by a byte that does not continue it, decodes to one replacement. */
  lemma DecodeBroken(p: seq<Byte>, rest: seq<Byte>)
    requires Begins(p) && !WellFormed(p)
    requires rest != [] ==> !Begins(p + [rest[0]])
    ensures Decode(p + rest) == [REPLACEMENT] + Decode(rest)
  {
  }

  /** The byte decoder agrees with the reference, from the start or from the middle of a sequence. */
  lemma {:induction false} DrainDecodes(s: seq<Byte>)
    ensures Drain(CLEAN, s) == Decode(s)
    decreases |s|, 0
  {
    if s != [] {
      var b, rest := s[0], s[1..];
      assert s == [b] + rest;
      if WellFormed([b]) {
        DrainDecodes(rest);
      } else if Begins([b]) {
        DrainContinues([b], rest);
      } else {
        assert Subpart(s) == 1 && s[..1] == [b];
        DrainDecodes(rest);
      }
    }
  }

  lemma {:induction false} DrainContinues(p: seq<Byte>, rest: seq<Byte>)
    requires Begins(p) && !WellFormed(p)
    ensures Drain(After(p), rest) == Decode(p + rest)
    decreases |rest|, 1
  {
    if rest == [] {
      EndsWithin(p);
      DecodeBroken(p, []);
    } else {
      var b, tail := rest[0], rest[1..];
      assert p + rest == p + [b] + tail;
      if WellFormed(p + [b]) {
        DrainDecodes(tail);
        WholeWith(p, rest);
      } else if Begins(p + [b]) {
        DrainContinues(p + [b], tail);
        LongerBy(p, rest);
      } else {
        DecodeBroken(p, rest);
        DrainDecodes(rest);
        RestartsWithLead(p, rest);
      }
    }
  }

  /** The input ends in the middle of a sequence. */
  lemma EndsWithin(p: seq<Byte>)
    requires Begins(p) && !WellFormed(p)
    ensures Drain(After(p), []) == [REPLACEMENT] && Decode([]) == []
  {
    FeedAfter(p, 0);
  }

  /** The next byte completes the sequence. */
  lemma WholeWith(p: seq<Byte>, rest: seq<Byte>)
    requires rest != [] && Begins(p) && !WellFormed(p) && WellFormed(p + [rest[0]])
    ensures Drain(After(p), rest) == [Scalar(p + [rest[0]])] + Drain(CLEAN, rest[1..])
    ensures Decode(p + [rest[0]] + rest[1..]) == [Scalar(p + [rest[0]])] + Decode(rest[1..])
  {
    FeedAfter(p, rest[0]);
    DecodeWhole(p + [rest[0]], rest[1..]);
  }

  lemma DecodeWhole(p: seq<Byte>, rest: seq<Byte>)
    requires WellFormed(p)
    ensures Decode(p + rest) == [Scalar(p)] + Decode(rest)
  {
    assert Subpart(p + rest) == |p| && (p + rest)[..|p|] == p && (p + rest)[|p|..] == rest;
  }

  /** The next byte goes on with the sequence. */
  lemma LongerBy(p: seq<Byte>, rest: seq<Byte>)
    requires rest != [] && Begins(p) && !WellFormed(p) && Begins(p + [rest[0]]) && !WellFormed(p + [rest[0]])
    ensures Drain(After(p), rest) == Drain(After(p + [rest[0]]), rest[1..])
  {
    FeedAfter(p, rest[0]);
  }

  lemma RestartsWithLead(p: seq<Byte>, rest: seq<Byte>)
    requires rest != [] && Begins(p) && !WellFormed(p) && !Begins(p + [rest[0]])
    ensures Drain(After(p), rest) == [REPLACEMENT] + Drain(CLEAN, rest)
  {
  }
}
