/** UTF-8 as Go's unicode/utf8 reads it, and the coercion of arbitrary bytes to
    well-formed UTF-8 that both encoding/json and the plugin's encoder perform. */
module Utf8 {
  import opened ByteStrings

  /** EF BF BD, the encoding of U+FFFD. */
  const REPLACEMENT: Bytes := [0xEF, 0xBF, 0xBD]

  predicate IsContinuation(c: Byte) { 0x80 <= c <= 0xBF }

  /** The second byte of a multi-byte sequence that starts with `c`. */
  predicate IsSecond(c: Byte, d: Byte) {
    if c == 0xE0 then 0xA0 <= d <= 0xBF
    else if c == 0xED then 0x80 <= d <= 0x9F
    else if c == 0xF0 then 0x90 <= d <= 0xBF
    else if c == 0xF4 then 0x80 <= d <= 0x8F
    else IsContinuation(d)
  }

  /** Length of the well-formed character at the head of `x`; 0 when there is none
      (utf8.DecodeRune then answers RuneError with size 1). */
  function RuneLen(x: Bytes): (n: nat)
    requires x != []
    ensures n <= 4 && n <= |x|
    ensures n == 1 <==> x[0] < 0x80
  {
    if x[0] < 0x80 then 1
    else if 0xC2 <= x[0] <= 0xDF then
      if |x| >= 2 && IsContinuation(x[1]) then 2 else 0
    else if 0xE0 <= x[0] <= 0xEF then
      if |x| >= 3 && IsSecond(x[0], x[1]) && IsContinuation(x[2]) then 3 else 0
    else if 0xF0 <= x[0] <= 0xF4 then
      if |x| >= 4 && IsSecond(x[0], x[1]) && IsContinuation(x[2]) && IsContinuation(x[3]) then 4 else 0
    else 0
  }

  predicate ValidUtf8(x: Bytes) {
    x == [] || (RuneLen(x) != 0 && ValidUtf8(x[RuneLen(x)..]))
  }

  /** Each byte that starts no well-formed character becomes U+FFFD. */
  function Sanitize(x: Bytes): (r: Bytes) {
    if x == [] then []
    else if RuneLen(x) == 0 then REPLACEMENT + Sanitize(x[1..])
    else x[..RuneLen(x)] + Sanitize(x[RuneLen(x)..])
  }

  /** utf8.EncodeRune on a code point that is not a surrogate. */
  function EncodeRune(c: nat): (r: Bytes)
    requires c <= 0x10FFFF
    ensures 1 <= |r| <= 4
  {
    if c < 0x80 then [c as Byte]
    else if c < 0x800 then [(0xC0 + c / 64) as Byte, (0x80 + c % 64) as Byte]
    else if c < 0x10000 then
      [(0xE0 + c / 4096) as Byte, (0x80 + c / 64 % 64) as Byte, (0x80 + c % 64) as Byte]
    else
      [(0xF0 + c / 262144) as Byte, (0x80 + c / 4096 % 64) as Byte,
       (0x80 + c / 64 % 64) as Byte, (0x80 + c % 64) as Byte]
  }

  predicate IsSurrogate(c: nat) { 0xD800 <= c < 0xE000 }

  /** A character's length depends on its own bytes only. */
  lemma RuneLenPrefix(x: Bytes, y: Bytes)
    requires x != [] && RuneLen(x) == |x|
    ensures RuneLen(x + y) == |x|
  {
    assert forall i :: 0 <= i < |x| ==> (x + y)[i] == x[i];
  }

  lemma EncodedRuneIsRune(c: nat)
    requires c <= 0x10FFFF && !IsSurrogate(c)
    ensures RuneLen(EncodeRune(c)) == |EncodeRune(c)|
  {
    if 0x800 <= c < 0x10000 {
      assert c / 64 % 64 == c / 64 - 64 * (c / 4096);
    } else if 0x10000 <= c {
      assert c / 4096 % 64 == c / 4096 - 64 * (c / 262144);
    }
  }

  lemma {:induction false} ValidAppend(x: Bytes, y: Bytes)
    requires ValidUtf8(x) && ValidUtf8(y)
    ensures ValidUtf8(x + y)
  {
    if x == [] {
      assert x + y == y;
    } else {
      var n := RuneLen(x);
      ValidAppend(x[n..], y);
      RuneLenHead(x);
      RuneLenPrefix(x[..n], x[n..] + y);
      assert x[..n] + (x[n..] + y) == x + y;
      assert (x + y)[n..] == x[n..] + y;
    }
  }

  /** The head character alone is already well formed. */
  lemma RuneLenHead(x: Bytes)
    requires x != [] && RuneLen(x) != 0
    ensures RuneLen(x[..RuneLen(x)]) == RuneLen(x)
  {
  }

  lemma OneRuneValid(x: Bytes)
    requires x != [] && RuneLen(x) == |x|
    ensures ValidUtf8(x)
  {
    assert x[|x|..] == [];
  }

  /** ASCII is a boundary: what stands before it and after it is well formed on its own. */
  lemma {:induction false} ValidSplit(x: Bytes, c: Byte, y: Bytes)
    requires c < 0x80 && ValidUtf8(x + [c] + y)
    ensures ValidUtf8(x) && ValidUtf8(y)
  {
    var t := x + [c] + y;
    var n := RuneLen(t);
    if x == [] {
      assert t[n..] == y;
    } else {
      assert t[0] == x[0] && t[|x|] == c;
      assert n <= |x|;
      assert forall i :: 0 <= i < |x| ==> t[i] == x[i];
      assert RuneLen(x) == n;
      assert t[n..] == x[n..] + [c] + y;
      ValidSplit(x[n..], c, y);
    }
  }

  lemma {:induction false} AsciiValid(x: Bytes)
    requires forall i :: 0 <= i < |x| ==> x[i] < 0x80
    ensures ValidUtf8(x)
  {
    if x != [] {
      AsciiValid(x[1..]);
    }
  }

  /** The coercion always produces well-formed UTF-8. */
  lemma {:induction false} SanitizeValid(x: Bytes)
    ensures ValidUtf8(Sanitize(x))
  {
    if x == [] {
    } else if RuneLen(x) == 0 {
      SanitizeValid(x[1..]);
      OneRuneValid(REPLACEMENT);
      ValidAppend(REPLACEMENT, Sanitize(x[1..]));
    } else {
      var n := RuneLen(x);
      SanitizeValid(x[n..]);
      RuneLenHead(x);
      OneRuneValid(x[..n]);
      ValidAppend(x[..n], Sanitize(x[n..]));
    }
  }

  /** It changes a byte string exactly when that string was not well formed. */
  lemma {:induction false} SanitizeFixes(x: Bytes)
    ensures ValidUtf8(x) <==> Sanitize(x) == x
  {
    if ValidUtf8(x) { SanitizeIdentity(x); }
    SanitizeValid(x);
  }

  lemma {:induction false} SanitizeIdentity(x: Bytes)
    requires ValidUtf8(x)
    ensures Sanitize(x) == x
  {
    if x != [] {
      SanitizeIdentity(x[RuneLen(x)..]);
    }
  }
}
