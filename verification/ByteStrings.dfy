/** Byte strings, the two byte classes the lexer skips over, and the position
    predicate `At` that all parsing lemmas are stated with. */
module ByteStrings {

  newtype Byte = x: int | 0 <= x < 256

  type Bytes = seq<Byte>

  datatype Option<+T> = None | Some(value: T)

  const QUOTE: Byte := 0x22
  const BACKSLASH: Byte := 0x5C
  const COMMA: Byte := 0x2C
  const COLON: Byte := 0x3A
  const LBRACE: Byte := 0x7B
  const RBRACE: Byte := 0x7D
  const LBRACKET: Byte := 0x5B
  const RBRACKET: Byte := 0x5D
  const MINUS: Byte := 0x2D
  const PLUS: Byte := 0x2B
  const DOT: Byte := 0x2E
  const LOWER_E: Byte := 0x65
  const UPPER_E: Byte := 0x45
  const LOWER_U: Byte := 0x75
  const ZERO: Byte := 0x30
  const NINE: Byte := 0x39

  /** The bytes of an ASCII source literal; bytes above 0x7F never occur in one. */
  function Ascii(s: string): (r: Bytes)
    ensures |r| == |s|
  {
    if s == "" then [] else [if s[0] < '\U{0100}' then s[0] as Byte else 0] + Ascii(s[1..])
  }

  predicate IsAscii(s: string) {
    forall i :: 0 <= i < |s| ==> s[i] < '\U{0080}'
  }

  lemma {:induction false} AsciiInjective(s: string, t: string)
    requires IsAscii(s) && IsAscii(t)
    requires Ascii(s) == Ascii(t)
    ensures s == t
  {
    if s == "" || t == "" {
    } else {
      var h, k := Ascii(s)[0], Ascii(t)[0];
      assert Ascii(s)[1..] == Ascii(s[1..]) && Ascii(t)[1..] == Ascii(t[1..]);
      AsciiInjective(s[1..], t[1..]);
      assert s == [s[0]] + s[1..] && t == [t[0]] + t[1..];
    }
  }

  /** `x` is the slice `i..j` of `b`. */
  predicate At(b: Bytes, i: nat, j: nat, x: Bytes) {
    i <= j <= |b| && b[i..j] == x
  }

  lemma AtSplit(b: Bytes, i: nat, j: nat, x: Bytes, y: Bytes) returns (m: nat)
    requires At(b, i, j, x + y)
    ensures At(b, i, m, x) && At(b, m, j, y) && m == i + |x|
  {
    m := i + |x|;
    assert b[i..m] == (x + y)[..|x|];
    assert b[m..j] == (x + y)[|x|..];
  }

  lemma AtByte(b: Bytes, i: nat, j: nat, x: Bytes)
    requires At(b, i, j, x) && x != []
    ensures i < j && b[i] == x[0]
  {
  }

  lemma Cut(b: Bytes, i: nat, j: nat, k: nat)
    requires i <= j <= k <= |b|
    ensures b[i..j] + b[j..k] == b[i..k]
  {
  }

  predicate IsSpace(c: Byte) { c == 0x20 || c == 0x09 || c == 0x0A || c == 0x0D }

  predicate IsDigit(c: Byte) { ZERO <= c <= NINE }

  predicate IsHex(c: Byte) { IsDigit(c) || 0x61 <= c <= 0x66 || 0x41 <= c <= 0x46 }

  /** Insignificant whitespace of section 2 of RFC 8259. */
  predicate Blank(x: Bytes) { forall i :: 0 <= i < |x| ==> IsSpace(x[i]) }

  predicate Digits(x: Bytes) { forall i :: 0 <= i < |x| ==> IsDigit(x[i]) }

  /** End of the whitespace run that starts at `i`. */
  function SpaceEnd(b: Bytes, i: nat): (e: nat)
    requires i <= |b|
    ensures i <= e <= |b|
    decreases |b| - i
  {
    if i < |b| && IsSpace(b[i]) then SpaceEnd(b, i + 1) else i
  }

  /** End of the digit run that starts at `i`. */
  function DigitEnd(b: Bytes, i: nat): (e: nat)
    requires i <= |b|
    ensures i <= e <= |b|
    decreases |b| - i
  {
    if i < |b| && IsDigit(b[i]) then DigitEnd(b, i + 1) else i
  }

  lemma {:induction false} SpaceRun(b: Bytes, i: nat)
    requires i <= |b|
    ensures var e := SpaceEnd(b, i); Blank(b[i..e]) && (e < |b| ==> !IsSpace(b[e]))
    decreases |b| - i
  {
    if i < |b| && IsSpace(b[i]) {
      SpaceRun(b, i + 1);
      Cut(b, i, i + 1, SpaceEnd(b, i));
    }
  }

  lemma {:induction false} DigitRun(b: Bytes, i: nat)
    requires i <= |b|
    ensures var e := DigitEnd(b, i); Digits(b[i..e]) && (e < |b| ==> !IsDigit(b[e]))
    decreases |b| - i
  {
    if i < |b| && IsDigit(b[i]) {
      DigitRun(b, i + 1);
      Cut(b, i, i + 1, DigitEnd(b, i));
    }
  }

  lemma SpaceEndAt(b: Bytes, i: nat, j: nat, x: Bytes)
    requires At(b, i, j, x) && Blank(x) && (j < |b| ==> !IsSpace(b[j]))
    ensures SpaceEnd(b, i) == j
  {
    var e := SpaceEnd(b, i);
    SpaceRun(b, i);
    assert forall k :: i <= k < j ==> b[k] == x[k - i];
    assert forall k :: i <= k < e ==> b[k] == b[i..e][k - i];
  }

  lemma DigitEndAt(b: Bytes, i: nat, j: nat, x: Bytes)
    requires At(b, i, j, x) && Digits(x) && (j < |b| ==> !IsDigit(b[j]))
    ensures DigitEnd(b, i) == j
  {
    var e := DigitEnd(b, i);
    DigitRun(b, i);
    assert forall k :: i <= k < j ==> b[k] == x[k - i];
    assert forall k :: i <= k < e ==> b[k] == b[i..e][k - i];
  }
}
