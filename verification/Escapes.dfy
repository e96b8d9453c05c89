/** What the escapes of a string mean, by code points: an account of the decoder that speaks of
    characters, UTF-16 units and UTF-8 in their own terms. */
module Escapes {
  import opened ByteStrings
  import opened Utf8
  import opened JsonStrings
  import opened JsonGrammar
  import opened JsonIndex
  import opened Splicing
  import opened Payload

  // ----- characters -------------------------------------------------------

  predicate IsScalar(c: int) { 0 <= c < 0xD800 || 0xE000 <= c <= 0x10FFFF }

  /** The code point of the character at the head of `x`, read off its bits. */
  function CodePoint(x: Bytes): (c: int)
    requires x != [] && RuneLen(x) != 0
  {
    match RuneLen(x)
    case 1 => x[0] as int
    case 2 => (x[0] as int % 32) * 64 + x[1] as int % 64
    case 3 => (x[0] as int % 16) * 4096 + (x[1] as int % 64) * 64 + x[2] as int % 64
    case _ => (x[0] as int % 8) * 262144 + (x[1] as int % 64) * 4096 + (x[2] as int % 64) * 64 + x[3] as int % 64
  }

  /** `x` is the UTF-8 of the character `c`: one whole well-formed sequence that reads as `c`. */
  predicate IsUtf8(x: Bytes, c: int) { x != [] && RuneLen(x) == |x| && CodePoint(x) == c }

  lemma Two(a: int, b: int, base: int)
    requires 0 <= b < base && (base == 64 || base == 16)
    ensures (a * base + b) / base == a && (a * base + b) % base == b
  {
  }

  lemma Three(a: int, b: int, c: int)
    requires 0 <= b < 64 && 0 <= c < 64
    ensures var v := a * 4096 + b * 64 + c; v / 4096 == a && v / 64 % 64 == b && v % 64 == c
  {
    Two(a * 64 + b, c, 64);
    Two(a, b, 64);
    assert a * 4096 + b * 64 + c == (a * 64 + b) * 64 + c;
  }

  lemma Four(a: int, b: int, c: int, d: int)
    requires 0 <= b < 64 && 0 <= c < 64 && 0 <= d < 64
    ensures var v := a * 262144 + b * 4096 + c * 64 + d; v / 262144 == a && v / 4096 % 64 == b && v / 64 % 64 == c && v % 64 == d
  {
    var v := a * 262144 + b * 4096 + c * 64 + d;
    Two(a * 4096 + b * 64 + c, d, 64);
    Three(a, b, c);
    assert v / 64 == a * 4096 + b * 64 + c;
    assert v / 64 / 64 == v / 4096 && v / 64 / 4096 == v / 262144;
  }

  /** Every six bits of a code point. */
  lemma Sixes(c: nat)
    ensures c / 64 * 64 + c % 64 == c
    ensures c / 4096 * 4096 + c / 64 % 64 * 64 + c % 64 == c
    ensures c / 262144 * 262144 + c / 4096 % 64 * 4096 + c / 64 % 64 * 64 + c % 64 == c
  {
    assert c / 64 / 64 == c / 4096 && c / 4096 / 64 == c / 262144;
  }

  lemma EncodedReads(c: nat)
    requires IsScalar(c)
    ensures IsUtf8(EncodeRune(c), c)
  {
    EncodedRuneIsRune(c);
    hide RuneLen, IsScalar;
    if c >= 0x10000 {
      ReadsFour(c);
    } else if c >= 0x800 {
      ReadsThree(c);
    } else if c >= 0x80 {
      ReadsTwo(c);
    }
  }

  lemma ReadsTwo(c: nat)
    requires 0x80 <= c < 0x800
    ensures var x := EncodeRune(c); |x| == 2 && (x[0] as int % 32) * 64 + x[1] as int % 64 == c
  {
    Sixes(c);
    var x := EncodeRune(c);
    assert x[0] as int % 32 == c / 64 && x[1] as int % 64 == c % 64;
  }

  lemma ReadsThree(c: nat)
    requires 0x800 <= c < 0x10000
    ensures var x := EncodeRune(c); |x| == 3 && (x[0] as int % 16) * 4096 + (x[1] as int % 64) * 64 + x[2] as int % 64 == c
  {
    Sixes(c);
    var x := EncodeRune(c);
    assert x[0] as int % 16 == c / 4096 && x[1] as int % 64 == c / 64 % 64 && x[2] as int % 64 == c % 64;
  }

  lemma ReadsFour(c: nat)
    requires 0x10000 <= c <= 0x10FFFF
    ensures var x := EncodeRune(c);
            |x| == 4
            && (x[0] as int % 8) * 262144 + (x[1] as int % 64) * 4096 + (x[2] as int % 64) * 64 + x[3] as int % 64 == c
  {
    Sixes(c);
    var x := EncodeRune(c);
    assert x[0] as int % 8 == c / 262144 && x[1] as int % 64 == c / 4096 % 64 && x[2] as int % 64 == c / 64 % 64
           && x[3] as int % 64 == c % 64;
  }

  /** Well-formed sequences are those of scalar values in their shortest form, each of one only. */
  lemma RunesAreScalars(x: Bytes)
    requires x != [] && RuneLen(x) != 0
    ensures IsScalar(CodePoint(x)) && EncodeRune(CodePoint(x)) == x[..RuneLen(x)]
  {
    match RuneLen(x)
    case 1 =>
    case 2 => RunesOfTwo(x);
    case 3 => RunesOfThree(x);
    case _ => RunesOfFour(x);
  }

  lemma RunesOfTwo(x: Bytes)
    requires x != [] && RuneLen(x) == 2
    ensures IsScalar(CodePoint(x)) && EncodeRune(CodePoint(x)) == x[..2]
  {
    Two(x[0] as int % 32, x[1] as int % 64, 64);
  }

  lemma RunesOfThree(x: Bytes)
    requires x != [] && RuneLen(x) == 3
    ensures IsScalar(CodePoint(x)) && EncodeRune(CodePoint(x)) == x[..3]
  {
    var a, b, c := x[0] as int % 16, x[1] as int % 64, x[2] as int % 64;
    Three(a, b, c);
    assert x[0] as int == 0xE0 + a && x[1] as int == 0x80 + b && x[2] as int == 0x80 + c;
    assert a == 0 ==> b >= 0x20;
    assert a == 13 ==> b < 0x20;
    hide RuneLen;
  }

  lemma RunesOfFour(x: Bytes)
    requires x != [] && RuneLen(x) == 4
    ensures IsScalar(CodePoint(x)) && EncodeRune(CodePoint(x)) == x[..4]
  {
    var a, b, c, d := x[0] as int % 8, x[1] as int % 64, x[2] as int % 64, x[3] as int % 64;
    Four(a, b, c, d);
    assert x[0] as int == 0xF0 + a && x[1] as int == 0x80 + b && x[2] as int == 0x80 + c && x[3] as int == 0x80 + d;
    assert a == 0 ==> b >= 0x10;
    assert a == 4 ==> b < 0x10;
    hide RuneLen;
  }

  lemma Utf8Unique(x: Bytes, y: Bytes, c: nat)
    requires IsUtf8(x, c) && IsUtf8(y, c)
    ensures x == y == EncodeRune(c)
  {
    RunesAreScalars(x);
    RunesAreScalars(y);
    assert x[..|x|] == x && y[..|y|] == y;
  }

  // ----- escapes ----------------------------------------------------------

  /** `c` is the hexadecimal digit of `v`, in either case. */
  predicate IsDigitOf(c: Byte, v: int) {
    (0 <= v < 10 && c as int == 0x30 + v) || (10 <= v < 16 && (c as int == 0x41 + v - 10 || c as int == 0x61 + v - 10))
  }

  /** `x` spells the UTF-16 unit `u`: a backslash, the letter u, four hexadecimal digits. */
  predicate Spells(x: Bytes, u: int) {
    |x| == 6 && x[0] == 0x5C && x[1] == 0x75
    && IsDigitOf(x[2], u / 4096) && IsDigitOf(x[3], u / 256 % 16) && IsDigitOf(x[4], u / 16 % 16) && IsDigitOf(x[5], u % 16)
  }

  predicate IsHigh(u: int) { 0xD800 <= u <= 0xDBFF }

  predicate IsLow(u: int) { 0xDC00 <= u <= 0xDFFF }

  lemma DigitValue(c: Byte, v: int)
    requires IsDigitOf(c, v)
    ensures IsHex(c) && HexValue(c) == v
  {
  }

  lemma SpelledUnit(x: Bytes, u: int, rest: Bytes)
    requires Spells(x, u) && 0 <= u < 0x10000
    ensures IsUnicodeEscape(x + rest) && CodeUnit(x + rest) == u && (x + rest)[6..] == rest && EscapeLen(x + rest) == 6
  {
    DigitValue(x[2], u / 4096);
    DigitValue(x[3], u / 256 % 16);
    DigitValue(x[4], u / 16 % 16);
    DigitValue(x[5], u % 16);
    Digits(u);
    assert forall i :: 0 <= i < 6 ==> (x + rest)[i] == x[i];
  }

  lemma Digits(u: int)
    requires 0 <= u < 0x10000
    ensures u / 4096 * 4096 + u / 256 % 16 * 256 + u / 16 % 16 * 16 + u % 16 == u
  {
    assert u / 16 / 16 == u / 256 && u / 256 / 16 == u / 4096;
  }

  /** The escape of a low surrogate is at the head of `x`. */
  ghost predicate LowFollows(x: Bytes) {
    |x| >= 6 && exists u :: IsLow(u) && Spells(x[..6], u)
  }

  lemma LowIsUnit(x: Bytes)
    ensures LowFollows(x) <==> IsUnicodeEscape(x) && IsLow(CodeUnit(x))
  {
    if LowFollows(x) {
      var u :| IsLow(u) && Spells(x[..6], u);
      SpelledUnit(x[..6], u, x[6..]);
      assert x[..6] + x[6..] == x;
    }
    if IsUnicodeEscape(x) && IsLow(CodeUnit(x)) {
      UnitSpelled(x);
    }
  }

  lemma DigitOf(c: Byte)
    requires IsHex(c)
    ensures IsDigitOf(c, HexValue(c))
  {
  }

  lemma Nibbles(a: int, b: int, c: int, d: int)
    requires 0 <= b < 16 && 0 <= c < 16 && 0 <= d < 16
    ensures var u := a * 4096 + b * 256 + c * 16 + d; u / 4096 == a && u / 256 % 16 == b && u / 16 % 16 == c && u % 16 == d
  {
    var u := a * 4096 + b * 256 + c * 16 + d;
    Two(a * 256 + b * 16 + c, d, 16);
    Two(a * 16 + b, c, 16);
    Two(a, b, 16);
    assert u / 16 == a * 256 + b * 16 + c && u / 16 / 16 == a * 16 + b;
    assert u / 16 / 16 == u / 256 && u / 256 / 16 == u / 4096;
  }

  lemma UnitSpelled(x: Bytes)
    requires IsUnicodeEscape(x)
    ensures Spells(x[..6], CodeUnit(x))
  {
    var a, b, c, d := HexValue(x[2]), HexValue(x[3]), HexValue(x[4]), HexValue(x[5]);
    Nibbles(a, b, c, d);
    DigitOf(x[2]);
    DigitOf(x[3]);
    DigitOf(x[4]);
    DigitOf(x[5]);
    hide IsDigitOf, HexValue, IsHex;
  }

  /** A character of the basic plane in one escape, whatever its case and whatever follows. */
  lemma DecodeBasic(c: nat, x: Bytes, rest: Bytes)
    requires IsScalar(c) && c < 0x10000 && Spells(x, c)
    ensures Decode(x + rest) == EncodeRune(c) + Decode(rest) && IsUtf8(EncodeRune(c), c)
  {
    SpelledUnit(x, c, rest);
    EncodedReads(c);
  }

  /** A character beyond it in two escapes, its surrogate pair. */
  lemma DecodePair(c: nat, x: Bytes, y: Bytes, rest: Bytes)
    requires 0x10000 <= c <= 0x10FFFF
    requires Spells(x, 0xD800 + (c - 0x10000) / 0x400) && Spells(y, 0xDC00 + (c - 0x10000) % 0x400)
    ensures Decode(x + y + rest) == EncodeRune(c) + Decode(rest) && IsUtf8(EncodeRune(c), c)
  {
    hide EncodeRune, Spells, Decode;
    var u, v := 0xD800 + (c - 0x10000) / 0x400, 0xDC00 + (c - 0x10000) % 0x400;
    assert x + y + rest == x + (y + rest);
    SpelledUnit(x, u, y + rest);
    SpelledUnit(y, v, rest);
    SixEach(x, u, y, v, rest);
    PairOf(x + (y + rest), u, v);
    EncodedReads(c);
  }

  lemma PairOf(z: Bytes, u: int, v: int)
    requires IsUnicodeEscape(z) && CodeUnit(z) == u && IsHigh(u) && IsUnicodeEscape(z[6..]) && CodeUnit(z[6..]) == v && IsLow(v)
    ensures |z| >= 12 && Decode(z) == EncodeRune(0x10000 + (u - 0xD800) * 0x400 + (v - 0xDC00)) + Decode(z[12..])
  {
    hide EncodeRune, CodeUnit;
  }

  lemma SixEach(x: Bytes, u: int, y: Bytes, v: int, rest: Bytes)
    requires Spells(x, u) && Spells(y, v)
    ensures (x + (y + rest))[6..] == y + rest && (x + (y + rest))[12..] == rest && (x + (y + rest))[0] == BACKSLASH
  {
  }

  /** A surrogate that is no half of a pair becomes U+FFFD. */
  lemma DecodeLone(u: nat, x: Bytes, rest: Bytes)
    requires (IsHigh(u) && !LowFollows(rest)) || IsLow(u)
    requires Spells(x, u)
    ensures Decode(x + rest) == [0xEF, 0xBF, 0xBD] + Decode(rest) && IsUtf8([0xEF, 0xBF, 0xBD], 0xFFFD)
  {
    SpelledUnit(x, u, rest);
    LowIsUnit(rest);
    hide LowFollows, Spells;
    assert EncodeRune(0xFFFD) == [0xEF, 0xBF, 0xBD];
  }

  /** The eight short escapes. */
  lemma DecodeShort(rest: Bytes)
    ensures Decode([0x5C, 0x22] + rest) == [0x22] + Decode(rest)
    ensures Decode([0x5C, 0x5C] + rest) == [0x5C] + Decode(rest)
    ensures Decode([0x5C, 0x2F] + rest) == [0x2F] + Decode(rest)
    ensures Decode([0x5C, 0x62] + rest) == [0x08] + Decode(rest)
    ensures Decode([0x5C, 0x66] + rest) == [0x0C] + Decode(rest)
    ensures Decode([0x5C, 0x6E] + rest) == [0x0A] + Decode(rest)
    ensures Decode([0x5C, 0x72] + rest) == [0x0D] + Decode(rest)
    ensures Decode([0x5C, 0x74] + rest) == [0x09] + Decode(rest)
  {
    ShortEscape(0x22, rest);
    ShortEscape(0x5C, rest);
    ShortEscape(0x2F, rest);
    ShortEscape(0x62, rest);
    ShortEscape(0x66, rest);
    ShortEscape(0x6E, rest);
    ShortEscape(0x72, rest);
    ShortEscape(0x74, rest);
    hide Decode;
  }

  lemma ShortEscape(c: Byte, rest: Bytes)
    requires IsSimpleEscape(c)
    ensures Decode([0x5C, c] + rest) == [Unescape(c)] + Decode(rest)
  {
    assert ([0x5C, c] + rest)[2..] == rest;
  }

  /** A character that stands for itself. */
  lemma DecodeRaw(x: Bytes, c: int, rest: Bytes)
    requires IsUtf8(x, c) && c != 0x5C
    ensures Decode(x + rest) == x + Decode(rest)
  {
    RuneLenPrefix(x, rest);
    assert (x + rest)[..|x|] == x && (x + rest)[|x|..] == rest;
    assert (x + rest)[0] == x[0];
  }

  lemma RuneBegins(x: Bytes)
    requires x != []
    ensures RuneLen(x) != 0 ==> exists c: nat :: IsScalar(c) && EncodeRune(c) <= x
  {
    if RuneLen(x) != 0 {
      RunesAreScalars(x);
      assert EncodeRune(CodePoint(x)) <= x;
    }
  }

  /** A byte at which no well-formed character begins becomes U+FFFD. */
  lemma DecodeBroken(b: Byte, rest: Bytes)
    requires forall c: nat :: IsScalar(c) ==> !(EncodeRune(c) <= [b] + rest)
    ensures Decode([b] + rest) == [0xEF, 0xBF, 0xBD] + Decode(rest)
  {
    var x := [b] + rest;
    RuneBegins(x);
    hide EncodeRune;
    assert RuneLen(x) == 0;
    assert x[1..] == rest;
  }

  /** What becomes of a text on its way into a JSON string: characters stay as they are, and each
      byte at which none begins becomes U+FFFD. */
  lemma SanitizeReads(x: Bytes, c: int, b: Byte, rest: Bytes)
    ensures Sanitize([]) == []
    ensures IsUtf8(x, c) ==> Sanitize(x + rest) == x + Sanitize(rest)
    ensures (forall c: nat :: IsScalar(c) ==> !(EncodeRune(c) <= [b] + rest)) ==>
              Sanitize([b] + rest) == [0xEF, 0xBF, 0xBD] + Sanitize(rest)
  {
    if IsUtf8(x, c) {
      RuneLenPrefix(x, rest);
      assert (x + rest)[..|x|] == x && (x + rest)[|x|..] == rest;
    }
    BrokenBegins(b, rest);
    assert ([b] + rest)[1..] == rest;
  }

  lemma BrokenBegins(b: Byte, rest: Bytes)
    ensures (forall c: nat :: IsScalar(c) ==> !(EncodeRune(c) <= [b] + rest)) ==> RuneLen([b] + rest) == 0
  {
    hide EncodeRune;
    RuneBegins([b] + rest);
  }

  // ----- the values of a scan ---------------------------------------------

  lemma Unquoted(b: Bytes, i: nat, j: nat, x: Bytes)
    requires At(b, i, j, Quoted(x))
    ensures i + 2 <= j <= |b| && b[i] == QUOTE && b[j - 1] == QUOTE && b[i + 1..j - 1] == x
  {
    var q := b[i..j];
    assert |q| == |x| + 2 && q[0] == b[i] && q[|q| - 1] == b[j - 1];
    assert forall k :: 0 <= k < |x| ==> b[i + 1..j - 1][k] == q[k + 1] == x[k];
  }

  /** The value of a string is what the bytes between its quotes decode to. */
  lemma ValueDecodes(d: Document, k: nat)
    requires d.Valid() && k < |d.strings|
    ensures var e := d.strings[k];
            e.start + 2 <= e.end <= |d.body| && d.body[e.start] == 0x22 && d.body[e.end - 1] == 0x22
            && e.value == Decode(d.body[e.start + 1..e.end - 1])
  {
    hide ParseText, ValueBytes, SpaceEnd, WellFormed, Decode, Leaves, StringCount, Fits, IndexText, Bodies;
    d.Indexed();
    var l := Leaves(d.Tree(), d.rootStart)[k];
    LeavesAt(d.body, d.rootStart, d.rootEnd, d.Tree());
    assert At(d.body, l.start, l.end, Quoted(l.body));
    Unquoted(d.body, l.start, l.end, l.body);
  }

  /** So a string whose body begins with an escaped character has a value that begins with the UTF-8
      of that character, and goes on as the rest of the body decodes. */
  lemma ValueOfEscape(d: Document, k: nat, c: nat, x: Bytes, y: Bytes, rest: Bytes)
    requires d.Valid() && k < |d.strings| && IsScalar(c)
    requires d.strings[k].start + 2 <= d.strings[k].end <= |d.body|
    requires d.body[d.strings[k].start + 1..d.strings[k].end - 1] == x + y + rest
    requires if c < 0x10000 then Spells(x, c) && y == []
             else Spells(x, 0xD800 + (c - 0x10000) / 0x400) && Spells(y, 0xDC00 + (c - 0x10000) % 0x400)
    ensures d.strings[k].value == EncodeRune(c) + Decode(rest) && IsUtf8(EncodeRune(c), c)
  {
    hide ParseText, SpaceEnd, Decode, Fits, IndexText, EncodeRune, Spells, IsUtf8;
    ValueDecodes(d, k);
    if c < 0x10000 {
      DecodeBasic(c, x, rest);
      assert x + [] + rest == x + rest;
    } else {
      DecodePair(c, x, y, rest);
    }
  }
}
