/** JSON strings (section 7 of RFC 8259): the grammar of a string body, the
    lexer's view of it, decoding, and the encoder used for replacements. */
module JsonStrings {
  import opened ByteStrings
  import opened Utf8

  /** The bytes that may follow a backslash on their own: " \ / b f n r t. */
  predicate IsSimpleEscape(c: Byte) {
    c == QUOTE || c == BACKSLASH || c == 0x2F || c == 0x62 || c == 0x66 || c == 0x6E || c == 0x72 || c == 0x74
  }

  /** `x` starts with a \uXXXX escape. */
  predicate IsUnicodeEscape(x: Bytes) {
    |x| >= 6 && x[0] == BACKSLASH && x[1] == LOWER_U && IsHex(x[2]) && IsHex(x[3]) && IsHex(x[4]) && IsHex(x[5])
  }

  /** Length of the escape at the head of `x`, which starts with a backslash; 0 if malformed. */
  function EscapeLen(x: Bytes): (n: nat)
    requires x != [] && x[0] == BACKSLASH
    ensures n <= |x|
    ensures n == 0 || n == 2 || n == 6
  {
    if |x| >= 2 && IsSimpleEscape(x[1]) then 2 else if IsUnicodeEscape(x) then 6 else 0
  }

  /** The `*char` production: what may stand between the quotes. */
  predicate IsChars(x: Bytes) {
    x == []
    || (if x[0] == BACKSLASH then EscapeLen(x) != 0 && IsChars(x[EscapeLen(x)..])
        else x[0] != QUOTE && x[0] >= 0x20 && IsChars(x[1..]))
  }

  /** Offset just past the closing quote of the string whose body starts at `i`. */
  function StringEnd(b: Bytes, i: nat): (e: Option<nat>)
    requires i <= |b|
    ensures e.Some? ==> i < e.value <= |b|
    decreases |b| - i
  {
    if i == |b| then None
    else if b[i] == QUOTE then Some(i + 1)
    else if b[i] == BACKSLASH then
      var n := EscapeLen(b[i..]);
      if n == 0 then None else StringEnd(b, i + n)
    else if b[i] < 0x20 then None
    else StringEnd(b, i + 1)
  }

  lemma {:induction false} StringEndSound(b: Bytes, i: nat)
    requires i <= |b| && StringEnd(b, i).Some?
    ensures var e := StringEnd(b, i).value; b[e - 1] == QUOTE && IsChars(b[i..e - 1])
    decreases |b| - i
  {
    hide EscapeLen;
    var e := StringEnd(b, i).value;
    if b[i] != QUOTE {
      var n := if b[i] == BACKSLASH then EscapeLen(b[i..]) else 1;
      StringEndSound(b, i + n);
      assert b[i..e - 1][n..] == b[i + n..e - 1];
      if b[i] == BACKSLASH {
        JoinedAt(b, i, e - 1);
        EscapeLenLocal(b[i..e - 1], b[e - 1..], n);
      }
    }
  }

  lemma JoinedAt(b: Bytes, i: nat, j: nat)
    requires i <= j <= |b|
    ensures b[i..j] + b[j..] == b[i..]
  {
  }

  /** An escape is recognised from its own bytes. */
  lemma EscapeLenLocal(x: Bytes, y: Bytes, n: nat)
    requires n <= |x| && x != [] && x[0] == BACKSLASH
    requires n != 0
    ensures EscapeLen(x) == n <==> EscapeLen(x + y) == n
  {
    assert forall k :: 0 <= k < |x| ==> (x + y)[k] == x[k];
  }

  lemma {:induction false} StringEndComplete(b: Bytes, i: nat, j: nat, x: Bytes)
    requires IsChars(x) && At(b, i, j, x) && j < |b| && b[j] == QUOTE
    ensures StringEnd(b, i) == Some(j + 1)
    decreases |x|
  {
    if x != [] {
      AtByte(b, i, j, x);
      var n := if x[0] == BACKSLASH then EscapeLen(x) else 1;
      assert x == x[..n] + x[n..];
      var m := AtSplit(b, i, j, x[..n], x[n..]);
      StringEndComplete(b, m, j, x[n..]);
      if x[0] == BACKSLASH {
        EscapeLenLocal(x, b[j..], n);
        assert b[i..] == b[i..j] + b[j..];
      }
    }
  }

  // ----- decoding ---------------------------------------------------------

  function HexValue(c: Byte): (v: nat)
    requires IsHex(c)
    ensures v < 16
  {
    if IsDigit(c) then (c - ZERO) as nat else if c >= 0x61 then (c - 0x61) as nat + 10 else (c - 0x41) as nat + 10
  }

  /** The code unit of the \uXXXX escape at the head of `x`. */
  function CodeUnit(x: Bytes): (u: nat)
    requires IsUnicodeEscape(x)
    ensures u < 0x10000
  {
    HexValue(x[2]) * 4096 + HexValue(x[3]) * 256 + HexValue(x[4]) * 16 + HexValue(x[5])
  }

  /** A high surrogate escape followed by a low surrogate escape. */
  predicate IsSurrogatePair(x: Bytes) {
    IsUnicodeEscape(x) && 0xD800 <= CodeUnit(x) < 0xDC00
    && IsUnicodeEscape(x[6..]) && 0xDC00 <= CodeUnit(x[6..]) < 0xE000
  }

  function Unescape(c: Byte): Byte {
    if c == 0x62 then 0x08 else if c == 0x66 then 0x0C else if c == 0x6E then 0x0A
    else if c == 0x72 then 0x0D else if c == 0x74 then 0x09 else c
  }

  /** encoding/json's value of a string body: escapes resolved, a lone surrogate
      escape or an invalid UTF-8 byte becoming U+FFFD. */
  function Decode(x: Bytes): Bytes {
    if x == [] then []
    else if x[0] == BACKSLASH then
      if EscapeLen(x) == 2 then [Unescape(x[1])] + Decode(x[2..])
      else if IsSurrogatePair(x) then
        EncodeRune(0x10000 + (CodeUnit(x) - 0xD800) * 1024 + (CodeUnit(x[6..]) - 0xDC00)) + Decode(x[12..])
      else if EscapeLen(x) == 6 then
        EncodeRune(if IsSurrogate(CodeUnit(x)) then 0xFFFD else CodeUnit(x)) + Decode(x[6..])
      else []
    else if RuneLen(x) == 0 then REPLACEMENT + Decode(x[1..])
    else x[..RuneLen(x)] + Decode(x[RuneLen(x)..])
  }

  /** A decoded string is always well-formed UTF-8. */
  lemma {:induction false} DecodeValid(x: Bytes)
    ensures ValidUtf8(Decode(x))
  {
    if x == [] {
    } else if x[0] == BACKSLASH {
      if EscapeLen(x) == 2 {
        DecodeValid(x[2..]);
        OneRuneValid([Unescape(x[1])]);
        ValidAppend([Unescape(x[1])], Decode(x[2..]));
      } else if IsSurrogatePair(x) {
        var c := 0x10000 + (CodeUnit(x) - 0xD800) * 1024 + (CodeUnit(x[6..]) - 0xDC00);
        RuneAppend(c, Decode(x[12..]));
        DecodeValid(x[12..]);
      } else if EscapeLen(x) == 6 {
        var c := if IsSurrogate(CodeUnit(x)) then 0xFFFD else CodeUnit(x);
        RuneAppend(c, Decode(x[6..]));
        DecodeValid(x[6..]);
      }
    } else if RuneLen(x) == 0 {
      DecodeValid(x[1..]);
      OneRuneValid(REPLACEMENT);
      ValidAppend(REPLACEMENT, Decode(x[1..]));
    } else {
      var n := RuneLen(x);
      DecodeValid(x[n..]);
      RuneLenHead(x);
      OneRuneValid(x[..n]);
      ValidAppend(x[..n], Decode(x[n..]));
    }
  }

  lemma RuneAppend(c: nat, y: Bytes)
    requires c <= 0x10FFFF && !IsSurrogate(c)
    ensures ValidUtf8(y) ==> ValidUtf8(EncodeRune(c) + y)
  {
    EncodedRuneIsRune(c);
    OneRuneValid(EncodeRune(c));
    if ValidUtf8(y) { ValidAppend(EncodeRune(c), y); }
  }

  /** The scanner's fast path: without escapes, a well-formed body is its own value. */
  lemma {:induction false} DecodePlain(x: Bytes)
    requires ValidUtf8(x) && forall i :: 0 <= i < |x| ==> x[i] != BACKSLASH
    ensures Decode(x) == x
  {
    if x != [] {
      DecodePlain(x[RuneLen(x)..]);
    }
  }

  // ----- encoding ---------------------------------------------------------

  function HexDigit(v: nat): (c: Byte)
    requires v < 16
    ensures IsHex(c) && HexValue(c) == v
  {
    if v < 10 then ZERO + v as Byte else 0x61 + (v - 10) as Byte
  }

  /** What the encoder emits for one ASCII byte. */
  function EscapeAscii(c: Byte): Bytes
    requires c < 0x80
  {
    if c == QUOTE || c == BACKSLASH then [BACKSLASH, c]
    else if c == 0x08 then [BACKSLASH, 0x62]
    else if c == 0x0C then [BACKSLASH, 0x66]
    else if c == 0x0A then [BACKSLASH, 0x6E]
    else if c == 0x0D then [BACKSLASH, 0x72]
    else if c == 0x09 then [BACKSLASH, 0x74]
    else if c < 0x20 then [BACKSLASH, LOWER_U, ZERO, ZERO, HexDigit(c as nat / 16), HexDigit(c as nat % 16)]
    else [c]
  }

  /** U+2028 or U+2029 at the head of `x`. */
  predicate IsLineSeparator(x: Bytes) {
    |x| >= 3 && x[0] == 0xE2 && x[1] == 0x80 && (x[2] == 0xA8 || x[2] == 0xA9)
  }

  /** Number of input bytes one encoder step consumes. */
  function UnitLen(x: Bytes): (n: nat)
    requires x != []
    ensures 0 < n <= |x|
  {
    if RuneLen(x) == 0 then 1 else RuneLen(x)
  }

  /** What one encoder step emits. */
  function EncodeUnit(x: Bytes): Bytes
    requires x != []
  {
    if x[0] < 0x80 then EscapeAscii(x[0])
    else if RuneLen(x) == 0 then REPLACEMENT
    else if IsLineSeparator(x) then
      [BACKSLASH, LOWER_U, 0x32, ZERO, 0x32, HexDigit((x[2] - 0xA0) as nat)]
    else x[..RuneLen(x)]
  }

  function EncodeBody(x: Bytes): Bytes {
    if x == [] then [] else EncodeUnit(x) + EncodeBody(x[UnitLen(x)..])
  }

  /** The complete JSON string, quotes included. */
  function Encode(x: Bytes): Bytes { [QUOTE] + EncodeBody(x) + [QUOTE] }

  /** Whatever is encoded, the encoding is well-formed UTF-8. */
  lemma EncodeValid(x: Bytes)
    ensures ValidUtf8(Encode(x))
  {
    EncodeBodyValid(x);
    AsciiValid([QUOTE]);
    ValidAppend([QUOTE], EncodeBody(x));
    ValidAppend([QUOTE] + EncodeBody(x), [QUOTE]);
  }

  lemma {:induction false} EncodeBodyValid(x: Bytes)
    ensures ValidUtf8(EncodeBody(x))
  {
    if x != [] {
      UnitValid(x);
      EncodeBodyValid(x[UnitLen(x)..]);
      ValidAppend(EncodeUnit(x), EncodeBody(x[UnitLen(x)..]));
    }
  }

  lemma UnitValid(x: Bytes)
    requires x != []
    ensures ValidUtf8(EncodeUnit(x))
  {
    var u := EncodeUnit(x);
    if x[0] < 0x80 || (RuneLen(x) != 0 && IsLineSeparator(x)) {
      AsciiValid(u);
    } else if RuneLen(x) == 0 {
      OneRuneValid(u);
    } else {
      RuneLenHead(x);
      OneRuneValid(u);
    }
  }

  /** Each step's output is lexed as whole characters and decodes to what the
      coercion makes of the consumed input. */
  lemma EncodeUnitChars(x: Bytes, rest: Bytes)
    requires x != [] && IsChars(rest)
    ensures IsChars(EncodeUnit(x) + rest)
  {
    var u := EncodeUnit(x);
    if u[0] == BACKSLASH {
      assert (u + rest)[|u|..] == rest;
      assert forall k :: 0 <= k < |u| ==> (u + rest)[k] == u[k];
      assert EscapeLen(u + rest) == |u|;
    } else {
      HighBytesChars(u, rest);
    }
  }

  lemma {:induction false} HighBytesChars(u: Bytes, rest: Bytes)
    requires IsChars(rest)
    requires forall k :: 0 <= k < |u| ==> u[k] >= 0x20 && u[k] != QUOTE && u[k] != BACKSLASH
    ensures IsChars(u + rest)
  {
    if u == [] {
      assert u + rest == rest;
    } else {
      HighBytesChars(u[1..], rest);
      assert (u + rest)[1..] == u[1..] + rest;
      assert (u + rest)[0] == u[0];
    }
  }

  /** What the coercion makes of the bytes one encoder step consumes. */
  function SanitizedUnit(x: Bytes): Bytes
    requires x != []
  {
    if RuneLen(x) == 0 then REPLACEMENT else x[..RuneLen(x)]
  }

  lemma EncodeUnitDecodes(x: Bytes, rest: Bytes)
    requires x != []
    ensures Decode(EncodeUnit(x) + rest) == SanitizedUnit(x) + Decode(rest)
  {
    if x[0] < 0x80 {
      AsciiUnitDecodes(x[0], rest);
      assert x[..1] == [x[0]];
    } else if RuneLen(x) == 0 {
      DecodeRune(REPLACEMENT, rest);
    } else if IsLineSeparator(x) {
      SeparatorUnitDecodes(x, rest);
    } else {
      RuneLenHead(x);
      DecodeRune(x[..RuneLen(x)], rest);
    }
  }

  lemma SeparatorUnitDecodes(x: Bytes, rest: Bytes)
    requires IsLineSeparator(x)
    ensures Decode(EncodeUnit(x) + rest) == x[..3] + Decode(rest)
  {
    hide Decode;
    SeparatorCode(x);
    hide EncodeUnit, CodeUnit, EncodeRune;
    DecodeUnicode(EncodeUnit(x), rest);
  }

  lemma SeparatorCode(x: Bytes)
    requires IsLineSeparator(x)
    ensures IsUnicodeEscape(EncodeUnit(x)) && EncodeRune(CodeUnit(EncodeUnit(x))) == x[..3]
  {
    var u := EncodeUnit(x);
    if x[2] == 0xA8 {
      assert CodeUnit(u) == 0x2028;
    } else {
      assert CodeUnit(u) == 0x2029;
    }
    assert x[..3] == [x[0], x[1], x[2]];
  }

  lemma AsciiUnitDecodes(c: Byte, rest: Bytes)
    requires c < 0x80
    ensures Decode(EscapeAscii(c) + rest) == [c] + Decode(rest)
  {
    var u := EscapeAscii(c);
    if u == [c] {
      DecodeRune(u, rest);
    } else if |u| == 2 {
      assert u + rest == [BACKSLASH, u[1]] + rest;
      DecodeSimple(u[1], rest);
    } else {
      DecodeUnicode(u, rest);
      assert EncodeRune(CodeUnit(u)) == [c];
    }
  }

  lemma DecodeRune(u: Bytes, rest: Bytes)
    requires u != [] && RuneLen(u) == |u| && u[0] != BACKSLASH
    ensures Decode(u + rest) == u + Decode(rest)
  {
    RuneLenPrefix(u, rest);
    assert (u + rest)[0] == u[0] && (u + rest)[|u|..] == rest && (u + rest)[..|u|] == u;
  }

  lemma DecodeSimple(c: Byte, rest: Bytes)
    requires IsSimpleEscape(c)
    ensures Decode([BACKSLASH, c] + rest) == [Unescape(c)] + Decode(rest)
  {
    assert ([BACKSLASH, c] + rest)[2..] == rest;
  }

  lemma DecodeUnicode(u: Bytes, rest: Bytes)
    requires |u| == 6 && IsUnicodeEscape(u) && !IsSurrogate(CodeUnit(u))
    ensures Decode(u + rest) == EncodeRune(CodeUnit(u)) + Decode(rest)
  {
    var x := u + rest;
    assert forall k :: 0 <= k < 6 ==> x[k] == u[k];
    assert x[6..] == rest && CodeUnit(x) == CodeUnit(u);
  }

  /** Encoder output is a grammatical string body that decodes to the coerced input. */
  lemma {:induction false} EncodeDecode(x: Bytes)
    ensures IsChars(EncodeBody(x))
    ensures Decode(EncodeBody(x)) == Sanitize(x)
  {
    if x != [] {
      var rest := EncodeBody(x[UnitLen(x)..]);
      EncodeDecode(x[UnitLen(x)..]);
      EncodeUnitChars(x, rest);
      EncodeUnitDecodes(x, rest);
    }
  }

  /** Scanning an encoded string consumes exactly the encoding and gives back the
      value, coerced to UTF-8: the value itself exactly when it was well formed. */
  lemma EncodeScanRoundTrip(b: Bytes, i: nat, j: nat, v: Bytes)
    requires At(b, i, j, Encode(v))
    ensures i + 1 < j && StringEnd(b, i + 1) == Some(j)
    ensures Decode(b[i + 1..j - 1]) == Sanitize(v)
    ensures Decode(b[i + 1..j - 1]) == v <==> ValidUtf8(v)
  {
    hide Decode, IsChars, StringEnd, EncodeBody, Sanitize, ValidUtf8;
    var body := EncodeBody(v);
    EncodeDecode(v);
    SanitizeFixes(v);
    StringAt(b, i, j, body);
    StringEndComplete(b, i + 1, j - 1, body);
  }

  lemma StringAt(b: Bytes, i: nat, j: nat, body: Bytes)
    requires At(b, i, j, [QUOTE] + body + [QUOTE])
    ensures i + 1 < j && b[i] == QUOTE && b[j - 1] == QUOTE && At(b, i + 1, j - 1, body)
  {
    var m := AtSplit(b, i, j, [QUOTE] + body, [QUOTE]);
    AtByte(b, m, j, [QUOTE]);
    var k := AtSplit(b, i, m, [QUOTE], body);
    AtByte(b, i, k, [QUOTE]);
  }

  /** The encoder's loop over the value. */
  method EncodeString(value: Bytes) returns (out: Bytes)
    ensures out == Encode(value)
  {
    hide EncodeBody, EncodeUnit, UnitLen;
    EncodeEnds(value);
    out := [QUOTE];
    var i := 0;
    while i < |value|
      invariant 0 <= i <= |value|
      invariant out + EncodeBody(value[i..]) == [QUOTE] + EncodeBody(value)
    {
      var c := value[i];
      var unit: Bytes;
      var size := 1;
      if c < 0x80 {
        unit := EscapeAscii(c);
      } else {
        var runeSize := RuneLen(value[i..]);
        if runeSize == 0 {
          unit := REPLACEMENT;
        } else {
          size := runeSize;
          if IsLineSeparator(value[i..]) {
            unit := [BACKSLASH, LOWER_U, 0x32, ZERO, 0x32, HexDigit((value[i + 2] - 0xA0) as nat)];
          } else {
            unit := value[i..i + size];
          }
        }
      }
      UnitCases(value[i..]);
      EncodeStep(value, i, unit, size, out);
      out := out + unit;
      i := i + size;
    }
    assert value[i..] == [] && out + [] == out;
    out := out + [QUOTE];
  }

  lemma EncodeEnds(value: Bytes)
    ensures EncodeBody([]) == [] && value[0..] == value
  {
  }

  lemma UnitCases(x: Bytes)
    requires x != []
    ensures x[0] < 0x80 ==> EncodeUnit(x) == EscapeAscii(x[0]) && UnitLen(x) == 1
    ensures x[0] >= 0x80 && RuneLen(x) == 0 ==> EncodeUnit(x) == REPLACEMENT && UnitLen(x) == 1
    ensures x[0] >= 0x80 && RuneLen(x) > 0 ==>
              UnitLen(x) == RuneLen(x) <= |x|
              && EncodeUnit(x) == if IsLineSeparator(x) then [BACKSLASH, LOWER_U, 0x32, ZERO, 0x32, HexDigit((x[2] - 0xA0) as nat)]
                                  else x[..RuneLen(x)]
  {
  }

  lemma EncodeStep(value: Bytes, i: nat, unit: Bytes, size: nat, out: Bytes)
    requires i < |value| && size == UnitLen(value[i..]) && unit == EncodeUnit(value[i..])
    ensures out + EncodeBody(value[i..]) == out + unit + EncodeBody(value[i + size..])
  {
    assert value[i..][size..] == value[i + size..];
    assert out + (unit + EncodeBody(value[i + size..])) == out + unit + EncodeBody(value[i + size..]);
  }
}
