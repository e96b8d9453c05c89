/** The grammar of RFC 8259, sections 2 to 7, as lossless syntax trees, and a
    deterministic parser that is proved sound and complete for it. */
module JsonGrammar {
  import opened ByteStrings
  import opened JsonStrings

  datatype Kind = InvalidKind | ObjectKind | ArrayKind | StringKind | NumberKind | BooleanKind | NullKind

  /** A syntax tree keeps every byte of its text, so that `ValueBytes` inverts parsing. */
  datatype Value =
    | Literal(word: Word)
    | Number(number: Numeral)
    | String(body: Bytes)
    | Container(isObject: bool, lead: Bytes, items: Items)

  datatype Word = True | False | Null

  datatype Numeral = Numeral(sign: Bytes, whole: Bytes, frac: Bytes, exp: Bytes)

  datatype Items =
    | Nil
    | Cons(tag: Label, value: Value, after: Bytes, sep: Bytes, rest: Items)

  /** Nothing for an array element; the member name and its colon for an object. */
  datatype Label = Element | Member(name: Bytes, beforeColon: Bytes, afterColon: Bytes)

  datatype Parsed<+T> = Parsed(tree: T, end: nat)

  const TRUE: Bytes := [0x74, 0x72, 0x75, 0x65]
  const FALSE: Bytes := [0x66, 0x61, 0x6C, 0x73, 0x65]
  const NULL: Bytes := [0x6E, 0x75, 0x6C, 0x6C]

  function OpenByte(isObject: bool): Byte { if isObject then LBRACE else LBRACKET }

  function CloseByte(isObject: bool): Byte { if isObject then RBRACE else RBRACKET }

  function KindOf(v: Value): Kind {
    match v
    case Literal(word) => if word.Null? then NullKind else BooleanKind
    case Number(_) => NumberKind
    case String(_) => StringKind
    case Container(isObject, _, _) => if isObject then ObjectKind else ArrayKind
  }

  // ----- text of a tree ---------------------------------------------------

  function ValueBytes(v: Value): Bytes {
    match v
    case Literal(word) => WordBytes(word)
    case Number(number) => NumeralBytes(number)
    case String(body) => [QUOTE] + body + [QUOTE]
    case Container(isObject, lead, items) => [OpenByte(isObject)] + lead + ItemsBytes(items, isObject)
  }

  function WordBytes(word: Word): Bytes {
    match word
    case True => TRUE
    case False => FALSE
    case Null => NULL
  }

  function NumeralBytes(n: Numeral): Bytes { n.sign + n.whole + n.frac + n.exp }

  function ItemsBytes(items: Items, isObject: bool): Bytes {
    match items
    case Nil => [CloseByte(isObject)]
    case Cons(tag, value, after, sep, rest) =>
      LabelBytes(tag) + ValueBytes(value) + after + SeparatorBytes(sep, rest) + ItemsBytes(rest, isObject)
  }

  function LabelBytes(tag: Label): Bytes {
    match tag
    case Element => []
    case Member(name, beforeColon, afterColon) =>
      [QUOTE] + name + [QUOTE] + beforeColon + [COLON] + afterColon
  }

  function SeparatorBytes(sep: Bytes, rest: Items): Bytes {
    if rest.Nil? then [] else [COMMA] + sep
  }

  // ----- well-formedness --------------------------------------------------

  predicate IsWhole(x: Bytes) {
    x != [] && Digits(x) && (x[0] == ZERO ==> |x| == 1)
  }

  predicate IsFraction(x: Bytes) {
    x == [] || (|x| >= 2 && x[0] == DOT && Digits(x[1..]))
  }

  function ExponentDigitsAt(x: Bytes): nat
    requires x != []
  {
    if |x| >= 2 && (x[1] == PLUS || x[1] == MINUS) then 2 else 1
  }

  predicate IsExponent(x: Bytes) {
    x == []
    || ((x[0] == LOWER_E || x[0] == UPPER_E)
        && ExponentDigitsAt(x) < |x| && Digits(x[ExponentDigitsAt(x)..]))
  }

  /** Section 6: [ minus ] int [ frac ] [ exp ]. */
  predicate IsNumeral(n: Numeral) {
    (n.sign == [] || n.sign == [MINUS]) && IsWhole(n.whole) && IsFraction(n.frac) && IsExponent(n.exp)
  }

  predicate WellFormed(v: Value) {
    match v
    case Literal(word) => true
    case Number(number) => IsNumeral(number)
    case String(body) => IsChars(body)
    case Container(isObject, lead, items) => Blank(lead) && WellFormedItems(items, isObject)
  }

  predicate WellFormedItems(items: Items, isObject: bool) {
    match items
    case Nil => true
    case Cons(tag, value, after, sep, rest) =>
      WellFormedLabel(tag, isObject) && WellFormed(value) && Blank(after) && Blank(sep)
      && (rest.Nil? ==> sep == []) && WellFormedItems(rest, isObject)
  }

  predicate WellFormedLabel(tag: Label, isObject: bool) {
    tag.Member? == isObject
    && (isObject ==> IsChars(tag.name) && Blank(tag.beforeColon) && Blank(tag.afterColon))
  }

  /** A JSON text: one value with optional whitespace around it. */
  ghost predicate IsJsonText(b: Bytes, before: Bytes, v: Value, after: Bytes) {
    Blank(before) && WellFormed(v) && Blank(after) && b == before + ValueBytes(v) + after
  }

  // ----- parsing ----------------------------------------------------------

  function FractionEnd(b: Bytes, i: nat): (e: Option<nat>)
    requires i <= |b|
    ensures e.Some? ==> i <= e.value <= |b|
  {
    if i < |b| && b[i] == DOT then
      if DigitEnd(b, i + 1) == i + 1 then None else Some(DigitEnd(b, i + 1))
    else Some(i)
  }

  function ExponentEnd(b: Bytes, i: nat): (e: Option<nat>)
    requires i <= |b|
    ensures e.Some? ==> i <= e.value <= |b|
  {
    if i < |b| && (b[i] == LOWER_E || b[i] == UPPER_E) then
      var d := if i + 1 < |b| && (b[i + 1] == PLUS || b[i + 1] == MINUS) then i + 2 else i + 1;
      if DigitEnd(b, d) == d then None else Some(DigitEnd(b, d))
    else Some(i)
  }

  function WholeEnd(b: Bytes, i: nat): (e: Option<nat>)
    requires i <= |b|
    ensures e.Some? ==> i < e.value <= |b|
  {
    if i == |b| || !IsDigit(b[i]) then None
    else if b[i] == ZERO then
      if i + 1 < |b| && IsDigit(b[i + 1]) then None else Some(i + 1)
    else
      assert DigitEnd(b, i) >= DigitEnd(b, i + 1);
      Some(DigitEnd(b, i))
  }

  function ParseNumber(b: Bytes, pos: nat): (r: Option<Parsed<Numeral>>)
    requires pos < |b|
    ensures r.Some? ==> pos < r.value.end <= |b|
  {
    var w := if b[pos] == MINUS then pos + 1 else pos;
    match WholeEnd(b, w)
    case None => None
    case Some(f) =>
      match FractionEnd(b, f)
      case None => None
      case Some(x) =>
        match ExponentEnd(b, x)
        case None => None
        case Some(e) => Some(Parsed(Numeral(b[pos..w], b[w..f], b[f..x], b[x..e]), e))
  }

  function ParseLiteral(b: Bytes, pos: nat, word: Word): (r: Option<Parsed<Value>>)
    requires pos < |b|
    ensures r.Some? ==> pos < r.value.end <= |b|
  {
    var e := pos + |WordBytes(word)|;
    if At(b, pos, e, WordBytes(word)) then Some(Parsed(Literal(word), e)) else None
  }

  function ParseValue(b: Bytes, pos: nat): (r: Option<Parsed<Value>>)
    requires pos <= |b|
    ensures r.Some? ==> pos < r.value.end <= |b|
    decreases |b| - pos, 1
  {
    if pos == |b| then None
    else if b[pos] == LBRACE || b[pos] == LBRACKET then
      var isObject := b[pos] == LBRACE;
      var p := SpaceEnd(b, pos + 1);
      if p < |b| && b[p] == CloseByte(isObject) then
        Some(Parsed(Container(isObject, b[pos + 1..p], Nil), p + 1))
      else
        (match ParseItems(b, p, isObject)
         case None => None
         case Some(items) => Some(Parsed(Container(isObject, b[pos + 1..p], items.tree), items.end)))
    else if b[pos] == QUOTE then
      (match StringEnd(b, pos + 1)
       case None => None
       case Some(e) => Some(Parsed(String(b[pos + 1..e - 1]), e)))
    else if b[pos] == TRUE[0] then ParseLiteral(b, pos, True)
    else if b[pos] == FALSE[0] then ParseLiteral(b, pos, False)
    else if b[pos] == NULL[0] then ParseLiteral(b, pos, Null)
    else if b[pos] == MINUS || IsDigit(b[pos]) then
      (match ParseNumber(b, pos)
       case None => None
       case Some(n) => Some(Parsed(Number(n.tree), n.end)))
    else None
  }

  /** The tag in front of an item; its `end` is where the item's value starts. */
  function ParseLabel(b: Bytes, pos: nat, isObject: bool): (r: Option<Parsed<Label>>)
    requires pos <= |b|
    ensures r.Some? ==> pos <= r.value.end <= |b|
  {
    if !isObject then Some(Parsed(Element, pos))
    else if pos == |b| || b[pos] != QUOTE then None
    else
      match StringEnd(b, pos + 1)
      case None => None
      case Some(k) =>
        var c := SpaceEnd(b, k);
        if c == |b| || b[c] != COLON then None
        else
          var q := SpaceEnd(b, c + 1);
          Some(Parsed(Member(b[pos + 1..k - 1], b[k..c], b[c + 1..q]), q))
  }

  /** At least one item, up to and including the closing bracket. */
  function ParseItems(b: Bytes, pos: nat, isObject: bool): (r: Option<Parsed<Items>>)
    requires pos <= |b|
    ensures r.Some? ==> pos < r.value.end <= |b| && r.value.tree.Cons?
    decreases |b| - pos, 2
  {
    match ParseLabel(b, pos, isObject)
    case None => None
    case Some(tag) =>
      match ParseValue(b, tag.end)
      case None => None
      case Some(v) =>
        var a := SpaceEnd(b, v.end);
        if a == |b| then None
        else if b[a] == CloseByte(isObject) then
          Some(Parsed(Cons(tag.tree, v.tree, b[v.end..a], [], Nil), a + 1))
        else if b[a] == COMMA then
          var s := SpaceEnd(b, a + 1);
          (match ParseItems(b, s, isObject)
           case None => None
           case Some(rest) =>
             Some(Parsed(Cons(tag.tree, v.tree, b[v.end..a], b[a + 1..s], rest.tree), rest.end)))
        else None
  }

  /** The whole body: whitespace, one value, whitespace. */
  function ParseText(b: Bytes): (r: Option<Parsed<Value>>)
    ensures r.Some? ==> SpaceEnd(b, 0) < r.value.end <= |b|
  {
    match ParseValue(b, SpaceEnd(b, 0))
    case None => None
    case Some(v) => if SpaceEnd(b, v.end) == |b| then Some(v) else None
  }

  // ----- soundness --------------------------------------------------------

  lemma NumberSound(b: Bytes, pos: nat)
    requires pos < |b| && ParseNumber(b, pos).Some?
    ensures var r := ParseNumber(b, pos).value;
            IsNumeral(r.tree) && b[pos..r.end] == NumeralBytes(r.tree)
  {
    var w := if b[pos] == MINUS then pos + 1 else pos;
    var f := WholeEnd(b, w).value;
    var x := FractionEnd(b, f).value;
    var e := ExponentEnd(b, x).value;
    WholeSound(b, w);
    FractionSound(b, f);
    ExponentSound(b, x);
    Cut(b, pos, w, f);
    Cut(b, pos, f, x);
    Cut(b, pos, x, e);
  }

  lemma WholeSound(b: Bytes, i: nat)
    requires i <= |b| && WholeEnd(b, i).Some?
    ensures IsWhole(b[i..WholeEnd(b, i).value])
  {
    DigitRun(b, i);
  }

  lemma FractionSound(b: Bytes, i: nat)
    requires i <= |b| && FractionEnd(b, i).Some?
    ensures IsFraction(b[i..FractionEnd(b, i).value])
  {
    var e := FractionEnd(b, i).value;
    if e != i {
      DigitRun(b, i + 1);
      assert b[i..e][1..] == b[i + 1..e];
    }
  }

  lemma ExponentSound(b: Bytes, i: nat)
    requires i <= |b| && ExponentEnd(b, i).Some?
    ensures IsExponent(b[i..ExponentEnd(b, i).value])
  {
    var e := ExponentEnd(b, i).value;
    if e != i {
      var x := b[i..e];
      var d := ExponentDigitsAt(x);
      DigitRun(b, i + d);
      assert x[d..] == b[i + d..e];
    }
  }

  lemma LabelSound(b: Bytes, pos: nat, isObject: bool)
    requires pos <= |b| && ParseLabel(b, pos, isObject).Some?
    ensures var r := ParseLabel(b, pos, isObject).value;
            WellFormedLabel(r.tree, isObject) && At(b, pos, r.end, LabelBytes(r.tree))
  {
    hide StringEnd, IsChars, SpaceEnd, Blank;
    if isObject {
      var k, c := LabelParts(b, pos);
      StringEndSound(b, pos + 1);
      SpaceRun(b, k);
      SpaceRun(b, c + 1);
      hide ParseLabel;
      MemberSlice(b, pos, k, c, SpaceEnd(b, c + 1));
    }
  }

  /** Where the parts of a parsed member name end. */
  lemma LabelParts(b: Bytes, pos: nat) returns (k: nat, c: nat)
    requires pos <= |b| && ParseLabel(b, pos, true).Some?
    ensures pos + 1 < k <= c < |b| && b[pos] == QUOTE && b[k - 1] == QUOTE && b[c] == COLON
    ensures StringEnd(b, pos + 1) == Some(k) && SpaceEnd(b, k) == c
    ensures var q := SpaceEnd(b, c + 1);
            c < q <= |b| && ParseLabel(b, pos, true) == Some(Parsed(Member(b[pos + 1..k - 1], b[k..c], b[c + 1..q]), q))
  {
    hide StringEnd, SpaceEnd;
    StringEndSound(b, pos + 1);
    k := StringEnd(b, pos + 1).value;
    c := SpaceEnd(b, k);
  }

  lemma MemberSlice(b: Bytes, pos: nat, k: nat, c: nat, q: nat)
    requires pos + 1 < k <= c < q <= |b| && b[pos] == QUOTE && b[k - 1] == QUOTE && b[c] == COLON
    ensures b[pos..q] == [QUOTE] + b[pos + 1..k - 1] + [QUOTE] + b[k..c] + [COLON] + b[c + 1..q]
  {
    QuotedSlice(b, pos, k);
    Cut(b, pos, k, c);
    Cut(b, pos, c, c + 1);
    Cut(b, pos, c + 1, q);
  }

  /** The text of the string that spans `i..k`. */
  lemma QuotedSlice(b: Bytes, i: nat, k: nat)
    requires i + 1 < k <= |b| && b[i] == QUOTE && b[k - 1] == QUOTE
    ensures b[i..k] == [QUOTE] + b[i + 1..k - 1] + [QUOTE]
  {
  }

  lemma {:induction false} ParseSound(b: Bytes, pos: nat)
    requires pos <= |b| && ParseValue(b, pos).Some?
    ensures var r := ParseValue(b, pos).value;
            WellFormed(r.tree) && At(b, pos, r.end, ValueBytes(r.tree))
    decreases |b| - pos, 1
  {
    hide ParseValue, SpaceEnd, Blank, ParseItems, WellFormedItems, ItemsBytes, IsChars, IsNumeral, NumeralBytes, WordBytes;
    if pos < |b| && (b[pos] == LBRACE || b[pos] == LBRACKET) {
      var isObject := b[pos] == LBRACE;
      var p, e, items := ContainerParts(b, pos, isObject);
      SpaceRun(b, pos + 1);
      NilItems(isObject);
      if items.Cons? {
        ParseItemsSound(b, p, isObject);
      } else {
        assert b[p..e] == [b[p]];
      }
      ContainerSlice(b, pos, p, e);
    } else {
      NotAtEnd(b, pos);
      ScalarSound(b, pos);
    }
  }

  lemma NotAtEnd(b: Bytes, pos: nat)
    requires pos <= |b| && ParseValue(b, pos).Some?
    ensures pos < |b|
  {
    hide ParseItems, StringEnd, ParseNumber, ParseLiteral, SpaceEnd;
  }

  /** The parts of a successfully parsed container. */
  lemma ContainerParts(b: Bytes, pos: nat, isObject: bool) returns (p: nat, e: nat, items: Items)
    requires pos < |b| && ParseValue(b, pos).Some? && b[pos] == OpenByte(isObject)
    ensures pos < p < e <= |b| && SpaceEnd(b, pos + 1) == p
    ensures ParseValue(b, pos) == Some(Parsed(Container(isObject, b[pos + 1..p], items), e))
    ensures items.Nil? ==> b[p] == CloseByte(isObject) && e == p + 1
    ensures items.Cons? ==> ParseItems(b, p, isObject) == Some(Parsed(items, e))
  {
    hide ParseItems, SpaceEnd, StringEnd, ParseNumber, ParseLiteral;
    p := SpaceEnd(b, pos + 1);
    var r := ParseValue(b, pos).value;
    e, items := r.end, r.tree.items;
  }

  lemma NilItems(isObject: bool)
    ensures WellFormedItems(Nil, isObject) && ItemsBytes(Nil, isObject) == [CloseByte(isObject)]
  {
  }

  lemma ScalarSound(b: Bytes, pos: nat)
    requires pos < |b| && ParseValue(b, pos).Some? && b[pos] != LBRACE && b[pos] != LBRACKET
    ensures var r := ParseValue(b, pos).value;
            WellFormed(r.tree) && At(b, pos, r.end, ValueBytes(r.tree))
  {
    hide StringEnd, IsChars, ParseNumber, NumeralBytes, IsNumeral, ParseItems, SpaceEnd, WellFormedItems, ItemsBytes;
    if b[pos] == QUOTE {
      StringEndSound(b, pos + 1);
      QuotedSlice(b, pos, StringEnd(b, pos + 1).value);
    } else if b[pos] == MINUS || IsDigit(b[pos]) {
      NumberSound(b, pos);
    }
  }

  lemma ContainerSlice(b: Bytes, pos: nat, p: nat, e: nat)
    requires pos < p < e <= |b|
    ensures b[pos..e] == [b[pos]] + b[pos + 1..p] + b[p..e]
  {
    Cut(b, pos, pos + 1, p);
    Cut(b, pos, p, e);
  }

  lemma {:induction false} ParseItemsSound(b: Bytes, pos: nat, isObject: bool)
    requires pos <= |b| && ParseItems(b, pos, isObject).Some?
    ensures var r := ParseItems(b, pos, isObject).value;
            WellFormedItems(r.tree, isObject) && At(b, pos, r.end, ItemsBytes(r.tree, isObject))
    decreases |b| - pos, 2
  {
    hide *;
    var items, end := ParseItems(b, pos, isObject).value.tree, ParseItems(b, pos, isObject).value.end;
    var q, e, a, s := ItemsUnfold(b, pos, isObject);
    LabelSound(b, pos, isObject);
    ParseSound(b, q);
    if items.rest.Cons? {
      ParseItemsSound(b, s, isObject);
    }
    ItemsJoin(b, pos, q, e, a, s, end, items, isObject);
  }

  /** The parts of a successful parse of items. */
  lemma ItemsUnfold(b: Bytes, pos: nat, isObject: bool) returns (q: nat, e: nat, a: nat, s: nat)
    requires pos <= |b| && ParseItems(b, pos, isObject).Some?
    ensures pos <= q < e <= a <= s <= |b| && a < |b|
    ensures SpaceEnd(b, e) == a
    ensures var items := ParseItems(b, pos, isObject).value.tree; var end := ParseItems(b, pos, isObject).value.end;
            ParseLabel(b, pos, isObject) == Some(Parsed(items.tag, q))
            && ParseValue(b, q) == Some(Parsed(items.value, e)) && At(b, e, a, items.after)
    ensures var items := ParseItems(b, pos, isObject).value.tree; var end := ParseItems(b, pos, isObject).value.end;
            (items.rest.Nil? ==> items.sep == [] && b[a] == CloseByte(isObject) && s == a && end == a + 1)
            && (items.rest.Cons? ==> b[a] == COMMA && SpaceEnd(b, a + 1) == s && a < s && At(b, a + 1, s, items.sep)
                                     && ParseItems(b, s, isObject) == Some(Parsed(items.rest, end)))
  {
    hide ParseLabel, ParseValue, SpaceEnd;
    q := ParseLabel(b, pos, isObject).value.end;
    e := ParseValue(b, q).value.end;
    a := SpaceEnd(b, e);
    s := if b[a] == CloseByte(isObject) then a else SpaceEnd(b, a + 1);
  }

  lemma ItemsJoin(b: Bytes, pos: nat, q: nat, e: nat, a: nat, s: nat, end: nat, items: Items, isObject: bool)
    requires items.Cons? && pos <= q < e <= a <= s <= |b| && a < |b| && SpaceEnd(b, e) == a
    requires WellFormedLabel(items.tag, isObject) && At(b, pos, q, LabelBytes(items.tag))
    requires WellFormed(items.value) && At(b, q, e, ValueBytes(items.value)) && At(b, e, a, items.after)
    requires items.rest.Nil? ==> items.sep == [] && b[a] == CloseByte(isObject) && s == a && end == a + 1
    requires items.rest.Cons? ==> b[a] == COMMA && SpaceEnd(b, a + 1) == s && a < s && At(b, a + 1, s, items.sep)
                                  && WellFormedItems(items.rest, isObject)
                                  && At(b, s, end, ItemsBytes(items.rest, isObject))
    ensures WellFormedItems(items, isObject)
    ensures At(b, pos, end, ItemsBytes(items, isObject))
  {
    hide SpaceEnd, WellFormed, ValueBytes, LabelBytes, WellFormedLabel, ItemsBytes, SeparatorBytes;
    SpaceRun(b, e);
    if items.rest.Cons? { SpaceRun(b, a + 1); }
    TailAt(b, a, s, end, items, isObject);
    ItemsConcat(b, pos, q, e, a, s, end, items, isObject);
  }

  lemma TailAt(b: Bytes, a: nat, s: nat, end: nat, items: Items, isObject: bool)
    requires items.Cons? && a <= s <= |b| && a < |b|
    requires items.rest.Nil? ==> b[a] == CloseByte(isObject) && s == a && end == a + 1
    requires items.rest.Cons? ==> b[a] == COMMA && a < s && At(b, a + 1, s, items.sep)
                                  && At(b, s, end, ItemsBytes(items.rest, isObject))
    ensures At(b, a, s, SeparatorBytes(items.sep, items.rest)) && At(b, s, end, ItemsBytes(items.rest, isObject))
  {
    hide ValueBytes, LabelBytes;
    if items.rest.Cons? {
      hide ItemsBytes;
      Cut(b, a, a + 1, s);
      assert b[a..a + 1] == [COMMA];
    } else {
      assert b[a..a + 1] == [b[a]];
      assert b[a..a] == [];
    }
  }

  lemma ItemsConcat(b: Bytes, pos: nat, q: nat, e: nat, a: nat, s: nat, end: nat, items: Items, isObject: bool)
    requires items.Cons? && pos <= q <= e <= a <= s <= end <= |b|
    requires At(b, pos, q, LabelBytes(items.tag)) && At(b, q, e, ValueBytes(items.value)) && At(b, e, a, items.after)
    requires At(b, a, s, SeparatorBytes(items.sep, items.rest)) && At(b, s, end, ItemsBytes(items.rest, isObject))
    ensures At(b, pos, end, ItemsBytes(items, isObject))
  {
    Cut(b, pos, q, e);
    Cut(b, pos, e, a);
    Cut(b, pos, a, s);
    Cut(b, pos, s, end);
  }

  // ----- completeness -----------------------------------------------------

  /** The bytes that can follow a value inside a JSON text. */
  predicate Follow(b: Bytes, e: nat) {
    e < |b| ==> IsSpace(b[e]) || b[e] == COMMA || b[e] == RBRACE || b[e] == RBRACKET
  }

  lemma FirstByte(v: Value)
    requires WellFormed(v)
    ensures ValueBytes(v) != []
    ensures var c := ValueBytes(v)[0]; !IsSpace(c) && c != COMMA && c != RBRACE && c != RBRACKET
  {
  }

  lemma ItemsFirstByte(items: Items, isObject: bool)
    requires WellFormedItems(items, isObject)
    ensures var x := ItemsBytes(items, isObject);
            x != [] && !IsSpace(x[0]) && (items.Cons? ==> x[0] != CloseByte(isObject))
  {
    if items.Cons? {
      FirstByte(items.value);
    }
  }

  lemma NumberComplete(b: Bytes, pos: nat, end: nat, n: Numeral)
    requires IsNumeral(n) && At(b, pos, end, NumeralBytes(n)) && Follow(b, end)
    ensures ParseNumber(b, pos) == Some(Parsed(n, end))
  {
    var w, f, x := NumberAt(b, pos, end, n);
    ExponentComplete(b, x, end, n.exp);
    FractionComplete(b, f, x, n.frac);
    WholeComplete(b, w, f, n.whole);
  }

  lemma NumberAt(b: Bytes, pos: nat, end: nat, n: Numeral) returns (w: nat, f: nat, x: nat)
    requires IsNumeral(n) && At(b, pos, end, NumeralBytes(n))
    ensures At(b, pos, w, n.sign) && At(b, w, f, n.whole) && At(b, f, x, n.frac) && At(b, x, end, n.exp)
    ensures pos < |b| && w == if b[pos] == MINUS then pos + 1 else pos
  {
    x := AtSplit(b, pos, end, n.sign + n.whole + n.frac, n.exp);
    f := AtSplit(b, pos, x, n.sign + n.whole, n.frac);
    w := AtSplit(b, pos, f, n.sign, n.whole);
    AtByte(b, w, f, n.whole);
    if n.sign != [] {
      AtByte(b, pos, w, n.sign);
    }
  }

  lemma ExponentComplete(b: Bytes, i: nat, j: nat, x: Bytes)
    requires At(b, i, j, x) && IsExponent(x) && Follow(b, j)
    ensures ExponentEnd(b, i) == Some(j)
    ensures i < |b| ==> b[i] != DOT && !IsDigit(b[i])
  {
    if x != [] {
      var d := ExponentDigitsAt(x);
      assert x == x[..d] + x[d..];
      var m := AtSplit(b, i, j, x[..d], x[d..]);
      DigitEndAt(b, m, j, x[d..]);
      assert forall k :: 0 <= k < |x| ==> b[i + k] == x[k];
    }
  }

  lemma FractionComplete(b: Bytes, i: nat, j: nat, x: Bytes)
    requires At(b, i, j, x) && IsFraction(x)
    requires j < |b| ==> b[j] != DOT && !IsDigit(b[j])
    ensures FractionEnd(b, i) == Some(j)
    ensures i < |b| ==> !IsDigit(b[i])
  {
    if x != [] {
      assert x == x[..1] + x[1..];
      var m := AtSplit(b, i, j, x[..1], x[1..]);
      DigitEndAt(b, m, j, x[1..]);
      AtByte(b, i, j, x);
    }
  }

  lemma WholeComplete(b: Bytes, i: nat, j: nat, x: Bytes)
    requires At(b, i, j, x) && IsWhole(x)
    requires j < |b| ==> !IsDigit(b[j])
    ensures WholeEnd(b, i) == Some(j)
  {
    DigitEndAt(b, i, j, x);
    AtByte(b, i, j, x);
  }

  lemma LabelComplete(b: Bytes, pos: nat, end: nat, tag: Label, isObject: bool)
    requires WellFormedLabel(tag, isObject) && At(b, pos, end, LabelBytes(tag))
    requires end < |b| && !IsSpace(b[end])
    ensures ParseLabel(b, pos, isObject) == Some(Parsed(tag, end))
  {
    if tag.Member? {
      var k, c := MemberAt(b, pos, end, tag);
      MemberEnds(b, pos, k, c, end, tag);
    }
  }

  lemma MemberEnds(b: Bytes, pos: nat, k: nat, c: nat, end: nat, tag: Label)
    requires tag.Member? && WellFormedLabel(tag, true) && end < |b| && !IsSpace(b[end])
    requires At(b, pos, k, [QUOTE] + tag.name + [QUOTE]) && At(b, k, c, tag.beforeColon)
    requires c < end && b[c] == COLON && At(b, c + 1, end, tag.afterColon)
    ensures ParseLabel(b, pos, true) == Some(Parsed(tag, end))
  {
    hide SpaceEnd, StringEnd, IsChars;
    StringAt(b, pos, k, tag.name);
    StringEndComplete(b, pos + 1, k - 1, tag.name);
    SpaceEndAt(b, k, c, tag.beforeColon);
    SpaceEndAt(b, c + 1, end, tag.afterColon);
  }

  lemma MemberAt(b: Bytes, pos: nat, end: nat, tag: Label) returns (k: nat, c: nat)
    requires tag.Member? && At(b, pos, end, LabelBytes(tag))
    ensures At(b, pos, k, [QUOTE] + tag.name + [QUOTE]) && At(b, k, c, tag.beforeColon)
    ensures c < end && b[c] == COLON && At(b, c + 1, end, tag.afterColon)
  {
    var name := [QUOTE] + tag.name + [QUOTE];
    var q := AtSplit(b, pos, end, name + tag.beforeColon + [COLON], tag.afterColon);
    c := AtSplit(b, pos, q, name + tag.beforeColon, [COLON]);
    AtByte(b, c, q, [COLON]);
    k := AtSplit(b, pos, c, name, tag.beforeColon);
  }

  lemma {:induction false} ParseComplete(b: Bytes, pos: nat, end: nat, v: Value)
    requires WellFormed(v) && At(b, pos, end, ValueBytes(v)) && Follow(b, end)
    ensures ParseValue(b, pos) == Some(Parsed(v, end))
    decreases v
  {
    hide ParseValue, ParseItems, IsChars, IsNumeral, NumeralBytes, WordBytes, ItemsBytes, WellFormedItems, Blank;
    match v
    case Literal(word) => LiteralComplete(b, pos, end, word);
    case Number(number) => NumberValueComplete(b, pos, end, number);
    case String(body) => StringValueComplete(b, pos, end, body);
    case Container(isObject, lead, items) =>
      var p := ContainerAt(b, pos, end, isObject, lead, items);
      if items.Cons? {
        ParseItemsComplete(b, p, end, items, isObject);
      }
      ContainerValue(b, pos, p, end, isObject, lead, items);
  }

  lemma NumberValueComplete(b: Bytes, pos: nat, end: nat, n: Numeral)
    requires IsNumeral(n) && At(b, pos, end, NumeralBytes(n)) && Follow(b, end)
    ensures ParseValue(b, pos) == Some(Parsed(Number(n), end))
  {
    hide ParseNumber, NumeralBytes, IsNumeral;
    NumberComplete(b, pos, end, n);
    NumeralFirst(b, pos, end, n);
  }

  lemma StringValueComplete(b: Bytes, pos: nat, end: nat, body: Bytes)
    requires IsChars(body) && At(b, pos, end, [QUOTE] + body + [QUOTE])
    ensures ParseValue(b, pos) == Some(Parsed(String(body), end))
  {
    hide StringEnd, IsChars;
    StringAt(b, pos, end, body);
    StringEndComplete(b, pos + 1, end - 1, body);
  }

  lemma ContainerValue(b: Bytes, pos: nat, p: nat, end: nat, isObject: bool, lead: Bytes, items: Items)
    requires pos < p < end <= |b| && b[pos] == OpenByte(isObject) && SpaceEnd(b, pos + 1) == p && At(b, pos + 1, p, lead)
    requires b[p] == CloseByte(isObject) <==> items.Nil?
    requires if items.Nil? then end == p + 1 else ParseItems(b, p, isObject) == Some(Parsed(items, end))
    ensures ParseValue(b, pos) == Some(Parsed(Container(isObject, lead, items), end))
  {
    hide ParseItems, SpaceEnd;
  }

  lemma LiteralComplete(b: Bytes, pos: nat, end: nat, word: Word)
    requires At(b, pos, end, WordBytes(word))
    ensures ParseValue(b, pos) == Some(Parsed(Literal(word), end))
  {
    AtByte(b, pos, end, WordBytes(word));
  }

  lemma NumeralFirst(b: Bytes, pos: nat, end: nat, n: Numeral)
    requires IsNumeral(n) && At(b, pos, end, NumeralBytes(n))
    ensures pos < |b| && (b[pos] == MINUS || IsDigit(b[pos]))
  {
    AtByte(b, pos, end, NumeralBytes(n));
  }

  lemma ContainerAt(b: Bytes, pos: nat, end: nat, isObject: bool, lead: Bytes, items: Items) returns (p: nat)
    requires Blank(lead) && WellFormedItems(items, isObject)
    requires At(b, pos, end, [OpenByte(isObject)] + lead + ItemsBytes(items, isObject))
    ensures pos < p < end && b[pos] == OpenByte(isObject)
    ensures At(b, p, end, ItemsBytes(items, isObject)) && At(b, pos + 1, p, lead)
    ensures SpaceEnd(b, pos + 1) == p && (b[p] == CloseByte(isObject) <==> items.Nil?)
    ensures items.Nil? ==> end == p + 1
  {
    var text := ItemsBytes(items, isObject);
    p := AtSplit(b, pos, end, [OpenByte(isObject)] + lead, text);
    var q := AtSplit(b, pos, p, [OpenByte(isObject)], lead);
    AtByte(b, pos, q, [OpenByte(isObject)]);
    ItemsFirstByte(items, isObject);
    AtByte(b, p, end, text);
    SpaceEndAt(b, pos + 1, p, lead);
  }

  lemma {:induction false} ParseItemsComplete(b: Bytes, pos: nat, end: nat, items: Items, isObject: bool)
    requires items.Cons? && WellFormedItems(items, isObject) && At(b, pos, end, ItemsBytes(items, isObject))
    ensures ParseItems(b, pos, isObject) == Some(Parsed(items, end))
    decreases items
  {
    hide ParseItems, ParseValue;
    var q, e, a, s := ItemsAt(b, pos, end, items, isObject);
    ItemsPunctuation(b, e, a, s, end, items, isObject);
    FirstByte(items.value);
    AtByte(b, q, e, ValueBytes(items.value));
    LabelComplete(b, pos, q, items.tag, isObject);
    ParseComplete(b, q, e, items.value);
    if items.rest.Cons? {
      ParseItemsComplete(b, s, end, items.rest, isObject);
    }
    ItemsAssemble(b, pos, q, e, a, s, end, items, isObject);
  }

  /** One unfolding of the item parser. */
  lemma ItemsAssemble(b: Bytes, pos: nat, q: nat, e: nat, a: nat, s: nat, end: nat, items: Items, isObject: bool)
    requires items.Cons? && pos <= q < e <= a <= s <= end <= |b|
    requires a < |b| && ParseLabel(b, pos, isObject) == Some(Parsed(items.tag, q))
    requires ParseValue(b, q) == Some(Parsed(items.value, e))
    requires SpaceEnd(b, e) == a && At(b, e, a, items.after)
    requires items.rest.Nil? ==> items.sep == [] && b[a] == CloseByte(isObject) && end == a + 1
    requires items.rest.Cons? ==> b[a] == COMMA && SpaceEnd(b, a + 1) == s && At(b, a + 1, s, items.sep)
                                  && ParseItems(b, s, isObject) == Some(Parsed(items.rest, end))
    ensures ParseItems(b, pos, isObject) == Some(Parsed(items, end))
  {
    hide ParseLabel, ParseValue, SpaceEnd;
  }

  /** What surrounds the separator of an item. */
  lemma ItemsPunctuation(b: Bytes, e: nat, a: nat, s: nat, end: nat, items: Items, isObject: bool)
    requires items.Cons? && WellFormedItems(items, isObject)
    requires At(b, e, a, items.after) && At(b, a, s, SeparatorBytes(items.sep, items.rest))
    requires At(b, s, end, ItemsBytes(items.rest, isObject))
    ensures Follow(b, e) && SpaceEnd(b, e) == a && a < end && s <= end
    ensures items.rest.Nil? ==> b[a] == CloseByte(isObject) && s == a && end == a + 1
    ensures items.rest.Cons? ==> a < s && b[a] == COMMA && SpaceEnd(b, a + 1) == s && At(b, a + 1, s, items.sep)
  {
    hide SpaceEnd, ValueBytes, LabelBytes, WellFormed, WellFormedLabel;
    var text := ItemsBytes(items.rest, isObject);
    ItemsFirstByte(items.rest, isObject);
    AtByte(b, s, end, text);
    if items.rest.Cons? {
      hide ItemsBytes;
      var m := AtSplit(b, a, s, [COMMA], items.sep);
      AtByte(b, a, m, [COMMA]);
      SpaceEndAt(b, a + 1, s, items.sep);
    }
    AfterValue(b, e, a, items.after);
    SpaceEndAt(b, e, a, items.after);
  }

  /** Where the parts of a nonempty item list sit. */
  lemma ItemsAt(b: Bytes, pos: nat, end: nat, items: Items, isObject: bool) returns (q: nat, e: nat, a: nat, s: nat)
    requires items.Cons? && At(b, pos, end, ItemsBytes(items, isObject))
    ensures At(b, pos, q, LabelBytes(items.tag)) && At(b, q, e, ValueBytes(items.value)) && At(b, e, a, items.after)
    ensures At(b, a, s, SeparatorBytes(items.sep, items.rest)) && At(b, s, end, ItemsBytes(items.rest, isObject))
  {
    var l, v, r := LabelBytes(items.tag), ValueBytes(items.value), ItemsBytes(items.rest, isObject);
    var c := SeparatorBytes(items.sep, items.rest);
    s := AtSplit(b, pos, end, l + v + items.after + c, r);
    a := AtSplit(b, pos, s, l + v + items.after, c);
    e := AtSplit(b, pos, a, l + v, items.after);
    q := AtSplit(b, pos, e, l, v);
  }

  lemma AfterValue(b: Bytes, e: nat, a: nat, after: Bytes)
    requires At(b, e, a, after) && Blank(after) && a < |b|
    requires b[a] == COMMA || b[a] == RBRACE || b[a] == RBRACKET
    ensures Follow(b, e)
  {
    if after != [] { AtByte(b, e, a, after); }
  }

  // ----- whole texts ------------------------------------------------------

  lemma TextComplete(b: Bytes, before: Bytes, v: Value, after: Bytes)
    requires IsJsonText(b, before, v, after)
    ensures SpaceEnd(b, 0) == |before| && before == b[..|before|]
    ensures ParseText(b) == Some(Parsed(v, |before| + |ValueBytes(v)|))
  {
    hide ParseValue, ValueBytes, WellFormed, SpaceEnd, Blank, Follow;
    var i, j := TextAt(b, before, v, after);
    ParseComplete(b, i, j, v);
    SpaceEndAt(b, j, |b|, after);
  }

  lemma TextAt(b: Bytes, before: Bytes, v: Value, after: Bytes) returns (i: nat, j: nat)
    requires IsJsonText(b, before, v, after)
    ensures i == |before| && j == |before| + |ValueBytes(v)|
    ensures before == b[..i] && SpaceEnd(b, 0) == i && At(b, i, j, ValueBytes(v))
    ensures At(b, j, |b|, after) && Follow(b, j)
  {
    assert b[0..|b|] == b;
    j := AtSplit(b, 0, |b|, before + ValueBytes(v), after);
    i := AtSplit(b, 0, j, before, ValueBytes(v));
    FirstByte(v);
    AtByte(b, i, j, ValueBytes(v));
    SpaceEndAt(b, 0, i, before);
    if after != [] { AtByte(b, j, |b|, after); }
  }

  lemma TextSound(b: Bytes)
    requires ParseText(b).Some?
    ensures var s := SpaceEnd(b, 0); var r := ParseText(b).value;
            IsJsonText(b, b[..s], r.tree, b[r.end..])
  {
    var s := SpaceEnd(b, 0);
    var e := ParseText(b).value.end;
    SpaceRun(b, 0);
    SpaceRun(b, e);
    ParseSound(b, s);
    Cut(b, 0, s, e);
    Cut(b, 0, e, |b|);
    assert b[0..|b|] == b && b[e..] == b[e..|b|] && b[..s] == b[0..s];
  }

  /** The parser accepts exactly the JSON texts of RFC 8259, and every text has one reading. */
  lemma ParseTextExact(b: Bytes)
    ensures ParseText(b).Some? <==> exists before, v, after :: IsJsonText(b, before, v, after)
    ensures forall before, v, after :: IsJsonText(b, before, v, after) ==>
              ParseText(b) == Some(Parsed(v, |before| + |ValueBytes(v)|)) && before == b[..SpaceEnd(b, 0)]
  {
    hide ParseText, IsJsonText, SpaceEnd, ValueBytes;
    if ParseText(b).Some? {
      TextSound(b);
    }
    forall before, v, after | IsJsonText(b, before, v, after)
      ensures ParseText(b) == Some(Parsed(v, |before| + |ValueBytes(v)|)) && before == b[..SpaceEnd(b, 0)]
    {
      TextComplete(b, before, v, after);
    }
  }
}
