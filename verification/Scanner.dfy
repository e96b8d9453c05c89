/** The validating scanner. Each method is proved against the parser of
    `JsonGrammar` and the index of `JsonIndex`. */
module Scanner {
  import opened ByteStrings
  import opened Utf8
  import opened JsonStrings
  import opened JsonGrammar
  import opened JsonIndex

  const CHECK_INTERVAL := 1024

  datatype Outcome = Ok | Fail(error: ScanError)

  /** Where a construct ends, its kind, and the scanner state after it. */
  datatype Found = Found(end: nat, kind: Kind, state: ScanState)

  function ScanValue(b: Bytes, pos: nat, depth: nat, parent: Kind, path: int, st: ScanState): (r: Option<Found>)
    requires pos <= |b|
    ensures r.Some? ==> pos < r.value.end <= |b|
  {
    match ParseValue(b, pos)
    case None => None
    case Some(v) => Some(Found(v.end, KindOf(v.tree), IndexValue(v.tree, pos, depth, parent, path, st)))
  }

  function ScanItems(b: Bytes, pos: nat, isObject: bool, i: nat, depth: nat, path: int, st: ScanState): (r: Option<Found>)
    requires pos <= |b|
    ensures r.Some? ==> pos < r.value.end <= |b| && r.value.kind == ContainerKind(isObject)
  {
    match ParseItems(b, pos, isObject)
    case None => None
    case Some(t) => Some(Found(t.end, ContainerKind(isObject), IndexItems(t.tree, isObject, i, pos, depth, path, st)))
  }

  /** A container whose opening bracket is at `pos`; `st` already counts its node. */
  function ScanContainer(b: Bytes, pos: nat, isObject: bool, depth: nat, path: int, st: ScanState): (r: Option<Found>)
    requires pos < |b|
    ensures r.Some? ==> pos < r.value.end <= |b| && r.value.kind == ContainerKind(isObject)
  {
    var p := SpaceEnd(b, pos + 1);
    if p < |b| && b[p] == CloseByte(isObject) then Some(Found(p + 1, ContainerKind(isObject), st))
    else ScanItems(b, p, isObject, 0, depth, path, st)
  }

  /** A failure is honest: either the construct is not in the grammar, or its complete
      index passes the limit that the error names. */
  predicate Explains(e: ScanError, r: Option<Found>, limits: Limits) {
    e.Canceled? || r.None? || Violates(e, r.value.state, limits)
  }

  lemma ViolatesGrown(e: ScanError, st: ScanState, st': ScanState, limits: Limits)
    requires Violates(e, st, limits) && Grown(st, st')
    ensures Violates(e, st', limits)
  {
  }

  lemma ContainerStep(b: Bytes, pos: nat, depth: nat, parent: Kind, path: int, st: ScanState)
    requires pos < |b| && (b[pos] == LBRACE || b[pos] == LBRACKET)
    ensures ScanValue(b, pos, depth, parent, path, st)
            == ScanContainer(b, pos, b[pos] == LBRACE, depth, path, AddNode(st, depth))
  {
    hide ParseItems, SpaceEnd;
    var isObject := b[pos] == LBRACE;
    var p := SpaceEnd(b, pos + 1);
    if p < |b| && b[p] == CloseByte(isObject) {
      assert ParseValue(b, pos) == Some(Parsed(Container(isObject, b[pos + 1..p], Nil), p + 1));
      assert IndexItems(Nil, isObject, 0, p, depth, path, AddNode(st, depth)) == AddNode(st, depth);
    } else if ParseItems(b, p, isObject).Some? {
      var t := ParseItems(b, p, isObject).value;
      assert ParseValue(b, pos) == Some(Parsed(Container(isObject, b[pos + 1..p], t.tree), t.end));
    } else {
      assert ParseValue(b, pos).None?;
    }
  }

  /** One item of a container, from the state and position in front of it. */
  lemma ItemStep(b: Bytes, pos: nat, isObject: bool, i: nat, depth: nat, path: int, st: ScanState)
    requires pos <= |b|
    ensures ParseLabel(b, pos, isObject).None? ==> ScanItems(b, pos, isObject, i, depth, path, st).None?
    ensures ParseLabel(b, pos, isObject).Some? ==>
              var l := ParseLabel(b, pos, isObject).value;
              var r := ScanValue(b, l.end, depth + 1, ContainerKind(isObject), |st.paths|, IndexLabel(l.tree, i, path, st));
              var whole := ScanItems(b, pos, isObject, i, depth, path, st);
              if r.None? then whole.None?
              else
                var a := SpaceEnd(b, r.value.end);
                if a == |b| then whole.None?
                else if b[a] == CloseByte(isObject) then
                  whole == Some(Found(a + 1, ContainerKind(isObject), r.value.state))
                else if b[a] == COMMA then
                  whole == ScanItems(b, SpaceEnd(b, a + 1), isObject, i + 1, depth, path, r.value.state)
                else whole.None?
  {
    hide ParseItems, ParseLabel, ParseValue, SpaceEnd, IndexItems, IndexLabel, IndexValue;
    if ParseItems(b, pos, isObject).Some? {
      ItemStepSome(b, pos, isObject, i, depth, path, st);
    }
    ItemStepNone(b, pos, isObject, i, depth, path, st);
  }

  /** The parse of items fails exactly when one of its parts does. */
  lemma ItemStepNone(b: Bytes, pos: nat, isObject: bool, i: nat, depth: nat, path: int, st: ScanState)
    requires pos <= |b|
    ensures ScanItems(b, pos, isObject, i, depth, path, st).None? <==> ParseItems(b, pos, isObject).None?
    ensures ParseItems(b, pos, isObject).Some? <==>
              ParseLabel(b, pos, isObject).Some?
              && var q := ParseLabel(b, pos, isObject).value.end;
              ScanValue(b, q, depth + 1, ContainerKind(isObject), |st.paths|, IndexLabel(ParseLabel(b, pos, isObject).value.tree, i, path, st)).Some?
              && var e := ParseValue(b, q).value.end; var a := SpaceEnd(b, e);
              a < |b| && (b[a] == CloseByte(isObject) || (b[a] == COMMA && ParseItems(b, SpaceEnd(b, a + 1), isObject).Some?))
  {
    hide ParseLabel, ParseValue, SpaceEnd, IndexItems, IndexValue, IndexLabel;
  }

  lemma ItemStepSome(b: Bytes, pos: nat, isObject: bool, i: nat, depth: nat, path: int, st: ScanState)
    requires pos <= |b| && ParseItems(b, pos, isObject).Some?
    ensures ParseLabel(b, pos, isObject).Some?
    ensures var l := ParseLabel(b, pos, isObject).value;
            var r := ScanValue(b, l.end, depth + 1, ContainerKind(isObject), |st.paths|, IndexLabel(l.tree, i, path, st));
            r.Some?
            && var a := SpaceEnd(b, r.value.end);
            a < |b|
            && (if b[a] == CloseByte(isObject)
                then ScanItems(b, pos, isObject, i, depth, path, st) == Some(Found(a + 1, ContainerKind(isObject), r.value.state))
                else b[a] == COMMA
                     && ScanItems(b, pos, isObject, i, depth, path, st)
                        == ScanItems(b, SpaceEnd(b, a + 1), isObject, i + 1, depth, path, r.value.state))
  {
    hide ParseItems, ParseLabel, ParseValue, SpaceEnd, IndexItems, IndexLabel, IndexValue, ValueBytes, LabelBytes, WellFormed,
         WellFormedLabel;
    var q, e, a, s := ItemsUnfold(b, pos, isObject);
    LabelSound(b, pos, isObject);
    ParseSound(b, q);
    ItemStepIndex(b, pos, q, e, a, s, ParseItems(b, pos, isObject).value, isObject, i, depth, path, st);
  }

  lemma ItemStepIndex(b: Bytes, pos: nat, q: nat, e: nat, a: nat, s: nat, t: Parsed<Items>,
                      isObject: bool, i: nat, depth: nat, path: int, st: ScanState)
    requires pos <= |b| && ParseItems(b, pos, isObject) == Some(t) && t.tree.Cons?
    requires pos <= q < e <= a <= s <= |b| && a < |b| && SpaceEnd(b, e) == a
    requires ParseLabel(b, pos, isObject) == Some(Parsed(t.tree.tag, q)) && At(b, pos, q, LabelBytes(t.tree.tag))
    requires ParseValue(b, q) == Some(Parsed(t.tree.value, e)) && At(b, q, e, ValueBytes(t.tree.value))
    requires At(b, e, a, t.tree.after)
    requires t.tree.rest.Nil? ==> b[a] == CloseByte(isObject) && s == a && t.end == a + 1
    requires t.tree.rest.Cons? ==> b[a] == COMMA && a < s && SpaceEnd(b, a + 1) == s && At(b, a + 1, s, t.tree.sep)
                                   && ParseItems(b, s, isObject) == Some(Parsed(t.tree.rest, t.end))
    ensures var st1 := IndexLabel(t.tree.tag, i, path, st);
            var r := ScanValue(b, q, depth + 1, ContainerKind(isObject), |st.paths|, st1);
            r.Some? && r.value.end == e
            && ScanItems(b, pos, isObject, i, depth, path, st)
               == if t.tree.rest.Nil? then Some(Found(a + 1, ContainerKind(isObject), r.value.state))
                  else ScanItems(b, s, isObject, i + 1, depth, path, r.value.state)
  {
    hide ParseItems, ParseValue, ParseLabel, SpaceEnd, LabelBytes, ValueBytes, IndexValue, IndexLabel;
    assert pos + |LabelBytes(t.tree.tag)| == q && |ValueBytes(t.tree.value)| == e - q && |t.tree.after| == a - e;
    assert |SeparatorBytes(t.tree.sep, t.tree.rest)| == s - a;
    var st2 := IndexValue(t.tree.value, q, depth + 1, ContainerKind(isObject), |st.paths|, IndexLabel(t.tree.tag, i, path, st));
    assert IndexItems(t.tree, isObject, i, pos, depth, path, st) == IndexItems(t.tree.rest, isObject, i + 1, s, depth, path, st2);
    if t.tree.rest.Nil? {
      assert IndexItems(t.tree.rest, isObject, i + 1, s, depth, path, st2) == st2;
    }
  }

  /** A label or value that passes a limit condemns the rest of its container. */
  lemma ItemBeyond(e: ScanError, b: Bytes, pos: nat, isObject: bool, i: nat, depth: nat, path: int, st: ScanState, limits: Limits)
    requires pos <= |b| && ParseLabel(b, pos, isObject).Some?
    requires var l := ParseLabel(b, pos, isObject).value; var st1 := IndexLabel(l.tree, i, path, st);
             Violates(e, st1, limits)
             || Explains(e, ScanValue(b, l.end, depth + 1, ContainerKind(isObject), |st.paths|, st1), limits)
    ensures Explains(e, ScanItems(b, pos, isObject, i, depth, path, st), limits)
  {
    hide ParseItems, ParseValue, ParseLabel, SpaceEnd, LabelBytes, ValueBytes, IndexValue, IndexLabel, IndexItems, Violates;
    var whole := ScanItems(b, pos, isObject, i, depth, path, st);
    if !e.Canceled? && whole.Some? {
      var l := ParseLabel(b, pos, isObject).value;
      var st1 := IndexLabel(l.tree, i, path, st);
      ItemStepSome(b, pos, isObject, i, depth, path, st);
      var v := ParseValue(b, l.end).value;
      IndexGrows(v.tree, l.end, depth + 1, ContainerKind(isObject), |st.paths|, st1);
      var st2 := IndexValue(v.tree, l.end, depth + 1, ContainerKind(isObject), |st.paths|, st1);
      if Violates(e, st1, limits) {
        ViolatesGrown(e, st1, st2, limits);
      }
      var a := SpaceEnd(b, v.end);
      if b[a] != CloseByte(isObject) {
        var t := ParseItems(b, SpaceEnd(b, a + 1), isObject).value;
        ItemsGrow(t.tree, isObject, i + 1, SpaceEnd(b, a + 1), depth, path, st2);
        ViolatesGrown(e, st2, whole.value.state, limits);
      }
    }
  }

  /** The position in the body and what has been retained so far: a path arena, a string index,
      and the charges for both. */
  class JsonScanner {
    const body: Bytes
    const limits: Limits
    /** A context that can be cancelled at any moment; false for context.Background(). */
    const cancellable: bool
    var pos: nat
    var nodes: nat
    var lastCheck: int
    var path: int
    var paths: seq<PathNode>
    var pathCapacity: nat
    var strings: seq<Entry>
    var stringCapacity: nat
    var structuralBytes: nat

    constructor (body: Bytes, limits: Limits, cancellable: bool)
      ensures this.body == body && this.limits == limits && this.cancellable == cancellable
      ensures pos == 0 && path == ROOT_PATH && Holds(EMPTY)
    {
      this.body, this.limits, this.cancellable := body, limits, cancellable;
      pos, nodes, lastCheck, path := 0, 0, 0, ROOT_PATH;
      paths, pathCapacity, strings, stringCapacity, structuralBytes := [], 0, [], 0, 0;
    }

    /** The fields hold the index state `st`, which is within the limits. */
    ghost predicate Holds(st: ScanState)
      reads this
    {
      pos <= |body| && Fits(st, limits)
      && st.paths == paths && st.strings == strings && st.nodes == nodes && st.bytes == structuralBytes
      && pathCapacity == Capacity(|paths|) && stringCapacity == Capacity(|strings|)
    }

    /** A step ended where the specification says, or failed for a reason it explains. */
    ghost predicate Reached(err: Outcome, r: Option<Found>)
      reads this
    {
      match err
      case Ok => r.Some? && pos == r.value.end && Holds(r.value.state)
      case Fail(e) => Explains(e, r, limits) && (e.Canceled? ==> cancellable)
    }

    method CheckNow() returns (err: Outcome)
      ensures err == Ok || (cancellable && err == Fail(Canceled))
    {
      var done: bool := *;
      err := if cancellable && done then Fail(Canceled) else Ok;
    }

    method CheckAt(at: nat) returns (err: Outcome)
      modifies this`lastCheck
      ensures err == Ok || (cancellable && err == Fail(Canceled))
    {
      if at - lastCheck < CHECK_INTERVAL {
        return Ok;
      }
      lastCheck := at;
      err := CheckNow();
    }

    method SkipWhitespace() returns (err: Outcome)
      requires pos <= |body|
      modifies this`pos, this`lastCheck
      ensures pos <= |body|
      ensures err == Ok ==> pos == SpaceEnd(body, old(pos))
      ensures err != Ok ==> cancellable && err == Fail(Canceled)
    {
      while pos < |body|
        invariant pos <= |body| && SpaceEnd(body, pos) == SpaceEnd(body, old(pos))
      {
        if !IsSpace(body[pos]) {
          return Ok;
        }
        pos := pos + 1;
        err := CheckAt(pos);
        if err != Ok { return; }
      }
      err := Ok;
    }

    method SkipDigits() returns (err: Outcome)
      requires pos <= |body|
      modifies this`pos, this`lastCheck
      ensures pos <= |body|
      ensures err == Ok ==> pos == DigitEnd(body, old(pos))
      ensures err != Ok ==> cancellable && err == Fail(Canceled)
    {
      while pos < |body| && IsDigit(body[pos])
        invariant pos <= |body| && DigitEnd(body, pos) == DigitEnd(body, old(pos))
      {
        pos := pos + 1;
        err := CheckAt(pos);
        if err != Ok { return; }
      }
      err := Ok;
    }

    method ReadLiteral(want: Word) returns (err: Outcome)
      requires pos < |body|
      modifies this`pos
      ensures pos <= |body|
      ensures err == Ok <==> ParseLiteral(body, old(pos), want).Some?
      ensures err == Ok ==> pos == ParseLiteral(body, old(pos), want).value.end
      ensures err != Ok ==> err == Fail(Invalid)
    {
      var text := WordBytes(want);
      if |body| - pos < |text| || body[pos..pos + |text|] != text {
        return Fail(Invalid);
      }
      pos := pos + |text|;
      err := Ok;
    }

    method ReadNumber() returns (err: Outcome)
      requires pos < |body| && (body[pos] == MINUS || IsDigit(body[pos]))
      modifies this`pos, this`lastCheck
      ensures pos <= |body|
      ensures err == Ok ==> ParseNumber(body, old(pos)).Some? && pos == ParseNumber(body, old(pos)).value.end
      ensures err == Fail(Invalid) ==> ParseNumber(body, old(pos)).None?
      ensures err != Ok && err != Fail(Invalid) ==> cancellable && err == Fail(Canceled)
    {
      hide WholeEnd, FractionEnd, ExponentEnd;
      if body[pos] == MINUS {
        pos := pos + 1;
      }
      err := ReadWhole();
      if err != Ok { return; }
      err := ReadFraction();
      if err != Ok { return; }
      err := ReadExponent();
    }

    method ReadWhole() returns (err: Outcome)
      requires pos <= |body|
      modifies this`pos, this`lastCheck
      ensures pos <= |body|
      ensures err == Ok ==> WholeEnd(body, old(pos)) == Some(pos)
      ensures err == Fail(Invalid) ==> WholeEnd(body, old(pos)).None?
      ensures err != Ok && err != Fail(Invalid) ==> cancellable && err == Fail(Canceled)
    {
      if pos >= |body| {
        return Fail(Invalid);
      }
      if body[pos] == ZERO {
        pos := pos + 1;
        if pos < |body| && IsDigit(body[pos]) {
          return Fail(Invalid);
        }
        err := Ok;
      } else if IsDigit(body[pos]) {
        err := SkipDigits();
      } else {
        err := Fail(Invalid);
      }
    }

    method ReadFraction() returns (err: Outcome)
      requires pos <= |body|
      modifies this`pos, this`lastCheck
      ensures pos <= |body|
      ensures err == Ok ==> FractionEnd(body, old(pos)) == Some(pos)
      ensures err == Fail(Invalid) ==> FractionEnd(body, old(pos)).None?
      ensures err != Ok && err != Fail(Invalid) ==> cancellable && err == Fail(Canceled)
    {
      err := Ok;
      if pos < |body| && body[pos] == DOT {
        pos := pos + 1;
        var fractionStart := pos;
        err := SkipDigits();
        if err != Ok { return; }
        if pos == fractionStart {
          return Fail(Invalid);
        }
      }
    }

    method ReadExponent() returns (err: Outcome)
      requires pos <= |body|
      modifies this`pos, this`lastCheck
      ensures pos <= |body|
      ensures err == Ok ==> ExponentEnd(body, old(pos)) == Some(pos)
      ensures err == Fail(Invalid) ==> ExponentEnd(body, old(pos)).None?
      ensures err != Ok && err != Fail(Invalid) ==> cancellable && err == Fail(Canceled)
    {
      err := Ok;
      if pos < |body| && (body[pos] == LOWER_E || body[pos] == UPPER_E) {
        pos := pos + 1;
        if pos < |body| && (body[pos] == PLUS || body[pos] == MINUS) {
          pos := pos + 1;
        }
        var exponentStart := pos;
        err := SkipDigits();
        if err != Ok { return; }
        if pos == exponentStart {
          return Fail(Invalid);
        }
      }
    }

    /** Reads and decodes the string at `pos`, a member name or a value. */
    method ReadString() returns (value: Bytes, err: Outcome)
      requires pos < |body| && body[pos] == QUOTE
      modifies this`pos, this`lastCheck
      ensures pos <= |body|
      ensures err == Ok || err == Fail(StringTooLarge) ==>
                StringEnd(body, old(pos) + 1).Some?
                && pos == StringEnd(body, old(pos) + 1).value
                && value == Decode(body[old(pos) + 1..pos - 1])
                && (err == Ok <==> |value| <= limits.stringBytes)
      ensures err == Fail(Invalid) ==> StringEnd(body, old(pos) + 1).None?
      ensures err == Ok || err == Fail(StringTooLarge) || err == Fail(Invalid) || (cancellable && err == Fail(Canceled))
    {
      hide Decode, ValidUtf8;
      value := [];
      var start := pos;
      var i := start + 1;
      var hasEscape := false;
      while i < |body|
        invariant start < i <= |body| && pos == start
        invariant StringEnd(body, i) == StringEnd(body, start + 1)
        invariant hasEscape || forall k :: start < k < i ==> body[k] != BACKSLASH
      {
        err := CheckAt(i);
        if err != Ok { return; }
        var c := body[i];
        if c == QUOTE {
          pos := i + 1;
          var inner := body[start + 1..i];
          if !hasEscape && ValidUtf8(inner) {
            value := inner;
            DecodePlain(inner);
          } else {
            value := Decode(inner);
          }
          if |value| > limits.stringBytes {
            return value, Fail(StringTooLarge);
          }
          err := CheckNow();
          return;
        } else if c == BACKSLASH {
          hasEscape := true;
          ghost var rest := body[i..];
          i := i + 1;
          if i >= |body| {
            return value, Fail(Invalid);
          }
          if IsSimpleEscape(body[i]) {
            assert EscapeLen(rest) == 2;
            i := i + 1;
          } else if body[i] == LOWER_U {
            if i + 4 >= |body| {
              return value, Fail(Invalid);
            }
            var j := i + 1;
            while j <= i + 4
              invariant i < j <= i + 5
              invariant forall k :: i < k < j ==> IsHex(body[k])
            {
              if !IsHex(body[j]) {
                assert rest[j - (i - 1)] == body[j];
                return value, Fail(Invalid);
              }
              j := j + 1;
            }
            assert EscapeLen(rest) == 6;
            i := i + 5;
          } else {
            return value, Fail(Invalid);
          }
        } else {
          if c < 0x20 {
            return value, Fail(Invalid);
          }
          i := i + 1;
        }
      }
      err := Fail(Invalid);
    }

    static method NextRetainedCapacity(current: nat, required: nat) returns (c: nat)
      ensures c == Doubled(if current == 0 then 16 else current, required)
    {
      c := if current == 0 then 16 else current;
      ghost var first := c;
      while c < required
        invariant c > 0 && Doubled(c, required) == Doubled(first, required)
      {
        c := c * 2;
      }
    }

    method Retain(bytes: int) returns (err: Outcome)
      modifies this`structuralBytes
      ensures err == Ok <==> 0 <= bytes <= limits.structuralBytes - old(structuralBytes)
      ensures err == Ok ==> structuralBytes == old(structuralBytes) + bytes
      ensures err != Ok ==> err == Fail(StructuralLimit) && structuralBytes == old(structuralBytes)
    {
      if bytes < 0 || bytes > limits.structuralBytes - structuralBytes {
        return Fail(StructuralLimit);
      }
      structuralBytes := structuralBytes + bytes;
      err := Ok;
    }

    method AppendPath(segment: PathSegment, keyBytes: nat, ghost st: ScanState) returns (ref: int, err: Outcome)
      requires Holds(st)
      modifies this`structuralBytes, this`paths, this`pathCapacity
      ensures err == Ok ==> ref == |old(paths)| && Holds(AddPath(st, PathNode(path, segment), keyBytes))
      ensures err != Ok ==> err == Fail(StructuralLimit)
                            && Violates(StructuralLimit, AddPath(st, PathNode(path, segment), keyBytes), limits)
    {
      hide Capacity, Doubled;
      CapacityStep(|paths|);
      ref := ROOT_PATH;
      var charge := keyBytes;
      if |paths| == pathCapacity {
        var newCap := NextRetainedCapacity(pathCapacity, |paths| + 1);
        charge := charge + (newCap - pathCapacity) * PATH_NODE_BYTES;
        err := Retain(charge);
        if err != Ok { return; }
        pathCapacity := newCap;
      } else {
        err := Retain(charge);
        if err != Ok { return; }
      }
      ref := |paths|;
      paths := paths + [PathNode(path, segment)];
    }

    method AppendString(token: Entry, ghost st: ScanState) returns (err: Outcome)
      requires Holds(st)
      modifies this`structuralBytes, this`strings, this`stringCapacity
      ensures err == Ok ==> Holds(AddString(st, token))
      ensures err != Ok ==> err == Fail(StructuralLimit) && Violates(StructuralLimit, AddString(st, token), limits)
    {
      hide Capacity, Doubled;
      CapacityStep(|strings|);
      var charge := |token.value|;
      if |strings| == stringCapacity {
        var newCap := NextRetainedCapacity(stringCapacity, |strings| + 1);
        charge := charge + (newCap - stringCapacity) * STRING_TOKEN_BYTES;
        err := Retain(charge);
        if err != Ok { return; }
        stringCapacity := newCap;
      } else {
        err := Retain(charge);
        if err != Ok { return; }
      }
      strings := strings + [token];
    }

    /** The value at `pos`, inside a container of kind `parent`. */
    method ReadValue(depth: nat, parent: Kind, ghost st: ScanState) returns (kind: Kind, err: Outcome)
      requires Holds(st)
      modifies this
      ensures pos <= |body| && path == old(path)
      ensures Reached(err, ScanValue(body, old(pos), depth, parent, old(path), st))
      ensures err == Ok ==> kind == ScanValue(body, old(pos), depth, parent, old(path), st).value.kind
      decreases |body| - pos, 1
    {
      hide ParseItems, ParseValue, ParseNumber, ParseLiteral, SpaceEnd, IndexItems, IndexValue, Capacity, Decode, ScanValue,
           ScanContainer;
      kind := InvalidKind;
      ghost var r := ScanValue(body, pos, depth, parent, path, st);
      ghost var counted := AddNode(st, depth);
      err := CheckNow();
      if err != Ok { return; }
      NodeBeyond(body, pos, depth, parent, path, st);
      if depth > limits.depth {
        err := Fail(DepthLimit);
        return;
      }
      nodes := nodes + 1;
      if nodes > limits.nodes {
        err := Fail(NodeLimit);
        return;
      }
      if pos >= |body| {
        err := Fail(Invalid);
        return;
      }
      var c := body[pos];
      if c == LBRACE {
        ContainerStep(body, pos, depth, parent, path, st);
        err := ReadObject(depth, counted);
        kind := if err == Ok then ObjectKind else InvalidKind;
      } else if c == LBRACKET {
        ContainerStep(body, pos, depth, parent, path, st);
        err := ReadArray(depth, counted);
        kind := if err == Ok then ArrayKind else InvalidKind;
      } else if c == QUOTE {
        err := ReadStringValue(depth, parent, st);
        kind := if err == Ok then StringKind else InvalidKind;
      } else if c == TRUE[0] {
        LiteralFound(body, pos, True, depth, parent, path, st);
        err := ReadLiteral(True);
        kind := if err == Ok then BooleanKind else InvalidKind;
      } else if c == FALSE[0] {
        LiteralFound(body, pos, False, depth, parent, path, st);
        err := ReadLiteral(False);
        kind := if err == Ok then BooleanKind else InvalidKind;
      } else if c == NULL[0] {
        LiteralFound(body, pos, Null, depth, parent, path, st);
        err := ReadLiteral(Null);
        kind := if err == Ok then NullKind else InvalidKind;
      } else {
        NumberFound(body, pos, depth, parent, path, st);
        if c == MINUS || IsDigit(c) {
          err := ReadNumber();
          kind := if err == Ok then NumberKind else InvalidKind;
        } else {
          err := Fail(Invalid);
        }
      }
    }

    /** The string arm of `ReadValue`; the node is already counted. */
    method ReadStringValue(depth: nat, parent: Kind, ghost st: ScanState) returns (err: Outcome)
      requires pos < |body| && body[pos] == QUOTE && Holds(AddNode(st, depth))
      modifies this
      ensures pos <= |body| && path == old(path)
      ensures Reached(err, ScanValue(body, old(pos), depth, parent, path, st))
      ensures err == Ok ==> ScanValue(body, old(pos), depth, parent, path, st).value.kind == StringKind
    {
      hide StringEnd, Decode, Capacity;
      var start := pos;
      var value;
      value, err := ReadString();
      assert StringEnd(body, start + 1).None? ==> ParseValue(body, start).None?;
      if StringEnd(body, start + 1).Some? {
        StringFound(body, start, depth, parent, path, st);
      }
      if err != Ok { return; }
      ghost var st1 := AddLength(AddNode(st, depth), |value|);
      err := AppendString(Entry(value, start, pos, parent, depth, path), st1);
    }

    method ReadObject(depth: nat, ghost st: ScanState) returns (err: Outcome)
      requires pos < |body| && body[pos] == LBRACE && Holds(st)
      modifies this
      ensures pos <= |body| && path == old(path)
      ensures Reached(err, ScanContainer(body, old(pos), true, depth, old(path), st))
      decreases |body| - pos, 0
    {
      hide ParseItems, ParseValue, ParseLabel, SpaceEnd, IndexItems, IndexValue, Capacity, Decode, ScanItems, ScanValue;
      ghost var start := pos;
      pos := pos + 1;
      err := SkipWhitespace();
      if err != Ok { return; }
      if pos < |body| && body[pos] == RBRACE {
        pos := pos + 1;
        return;
      }
      ghost var whole := ScanItems(body, pos, true, 0, depth, path, st);
      ghost var cur, i := st, 0;
      while true
        invariant start < pos <= |body| && path == old(path) && Holds(cur)
        invariant ScanItems(body, pos, true, i, depth, path, cur) == whole
        decreases |body| - pos
      {
        ghost var p := pos;
        ItemStep(body, p, true, i, depth, path, cur);
        ghost var found;
        found, err := ReadMember(i, depth, cur);
        if err != Ok { return; }
        err := SkipWhitespace();
        if err != Ok { return; }
        if pos >= |body| {
          err := Fail(Invalid);
          return;
        }
        if body[pos] == RBRACE {
          pos := pos + 1;
          return;
        } else if body[pos] == COMMA {
          pos := pos + 1;
          err := SkipWhitespace();
          if err != Ok { return; }
        } else {
          err := Fail(Invalid);
          return;
        }
        cur, i := found.state, i + 1;
      }
    }

    /** Item `i` of an object: its name, its path node and its value. */
    method ReadMember(ghost i: nat, depth: nat, ghost st: ScanState) returns (ghost found: Found, err: Outcome)
      requires Holds(st)
      modifies this
      ensures pos <= |body| && path == old(path)
      ensures err == Ok ==>
                ParseLabel(body, old(pos), true).Some?
                && var l := ParseLabel(body, old(pos), true).value;
                ScanValue(body, l.end, depth + 1, ObjectKind, |st.paths|, IndexLabel(l.tree, i, path, st)) == Some(found)
                && pos == found.end && old(pos) < pos && Holds(found.state)
      ensures err != Ok ==> Explains(err.error, ScanItems(body, old(pos), true, i, depth, path, st), limits)
      ensures err == Fail(Canceled) ==> cancellable
      decreases |body| - pos, 2
    {
      hide ParseItems, ParseValue, ParseLabel, SpaceEnd, IndexItems, IndexValue, Capacity, Decode, ScanItems, ScanValue;
      ghost var p := pos;
      var key;
      found := Found(0, InvalidKind, st);
      key, err := ReadKey(i, depth, st);
      if err != Ok { return; }
      var previousPath := path;
      var childPath;
      childPath, err := AppendPath(Key(key), |key|, AddLength(st, |key|));
      if err != Ok {
        ItemBeyond(StructuralLimit, body, p, true, i, depth, path, st, limits);
        return;
      }
      path := childPath;
      ghost var tagged := IndexLabel(ParseLabel(body, p, true).value.tree, i, previousPath, st);
      ghost var r := ScanValue(body, pos, depth + 1, ObjectKind, childPath, tagged);
      var kind;
      kind, err := ReadValue(depth + 1, ObjectKind, tagged);
      path := previousPath;
      if err != Ok {
        ItemBeyond(err.error, body, p, true, i, depth, path, st, limits);
        return;
      }
      found := r.value;
    }

    /** Item `index` of an array: its path node and its value. */
    method ReadElement(index: nat, depth: nat, ghost st: ScanState) returns (ghost found: Found, err: Outcome)
      requires Holds(st)
      modifies this
      ensures pos <= |body| && path == old(path)
      ensures err == Ok ==>
                ScanValue(body, old(pos), depth + 1, ArrayKind, |st.paths|, IndexLabel(Element, index, path, st)) == Some(found)
                && pos == found.end && old(pos) < pos && Holds(found.state)
      ensures err != Ok ==> Explains(err.error, ScanItems(body, old(pos), false, index, depth, path, st), limits)
      ensures err == Fail(Canceled) ==> cancellable
      decreases |body| - pos, 2
    {
      hide ParseItems, ParseValue, SpaceEnd, IndexItems, IndexValue, Capacity, Decode, ScanItems, ScanValue;
      ghost var p := pos;
      found := Found(0, InvalidKind, st);
      var previousPath := path;
      var childPath;
      childPath, err := AppendPath(Index(index), 0, st);
      if err != Ok {
        ItemBeyond(StructuralLimit, body, p, false, index, depth, path, st, limits);
        return;
      }
      path := childPath;
      ghost var tagged := IndexLabel(Element, index, previousPath, st);
      ghost var r := ScanValue(body, pos, depth + 1, ArrayKind, childPath, tagged);
      var kind;
      kind, err := ReadValue(depth + 1, ArrayKind, tagged);
      path := previousPath;
      if err != Ok {
        ItemBeyond(err.error, body, p, false, index, depth, path, st, limits);
        return;
      }
      found := r.value;
    }

    /** The member name in front of item `i`, its colon and the space around it. */
    method ReadKey(ghost i: nat, ghost depth: nat, ghost st: ScanState) returns (key: Bytes, err: Outcome)
      requires Holds(st)
      modifies this`pos, this`lastCheck
      ensures pos <= |body|
      ensures err == Ok ==>
                ParseLabel(body, old(pos), true).Some?
                && pos == ParseLabel(body, old(pos), true).value.end
                && ParseLabel(body, old(pos), true).value.tree.Member?
                && key == Decode(ParseLabel(body, old(pos), true).value.tree.name)
                && Holds(AddLength(st, |key|))
      ensures err != Ok ==> Explains(err.error, ScanItems(body, old(pos), true, i, depth, path, st), limits)
      ensures err == Fail(Canceled) ==> cancellable
    {
      hide StringEnd, Decode, SpaceEnd, Capacity, ParseItems, ParseValue;
      key := [];
      ghost var p := pos;
      ItemStepNone(body, p, true, i, depth, path, st);
      if pos >= |body| || body[pos] != QUOTE {
        return key, Fail(Invalid);
      }
      key, err := ReadString();
      if err != Ok {
        if ParseLabel(body, p, true).Some? {
          assert Violates(StringTooLarge, IndexLabel(ParseLabel(body, p, true).value.tree, i, path, st), limits) || err != Fail(StringTooLarge);
          if err == Fail(StringTooLarge) {
            ItemBeyond(StringTooLarge, body, p, true, i, depth, path, st, limits);
          }
        }
        return;
      }
      err := SkipWhitespace();
      if err != Ok { return; }
      if pos >= |body| || body[pos] != COLON {
        return key, Fail(Invalid);
      }
      pos := pos + 1;
      err := SkipWhitespace();
    }

    method ReadArray(depth: nat, ghost st: ScanState) returns (err: Outcome)
      requires pos < |body| && body[pos] == LBRACKET && Holds(st)
      modifies this
      ensures pos <= |body| && path == old(path)
      ensures Reached(err, ScanContainer(body, old(pos), false, depth, old(path), st))
      decreases |body| - pos, 0
    {
      hide ParseItems, ParseValue, SpaceEnd, IndexItems, IndexValue, Capacity, Decode, ScanItems, ScanValue;
      ghost var start := pos;
      pos := pos + 1;
      err := SkipWhitespace();
      if err != Ok { return; }
      if pos < |body| && body[pos] == RBRACKET {
        pos := pos + 1;
        return;
      }
      ghost var whole := ScanItems(body, pos, false, 0, depth, path, st);
      ghost var cur := st;
      var index := 0;
      while true
        invariant start < pos <= |body| && path == old(path) && Holds(cur)
        invariant ScanItems(body, pos, false, index, depth, path, cur) == whole
        decreases |body| - pos
      {
        ghost var p := pos;
        ItemStep(body, p, false, index, depth, path, cur);
        ghost var found;
        found, err := ReadElement(index, depth, cur);
        if err != Ok { return; }
        err := SkipWhitespace();
        if err != Ok { return; }
        if pos >= |body| {
          err := Fail(Invalid);
          return;
        }
        if body[pos] == RBRACKET {
          pos := pos + 1;
          return;
        } else if body[pos] == COMMA {
          pos := pos + 1;
          err := SkipWhitespace();
          if err != Ok { return; }
        } else {
          err := Fail(Invalid);
          return;
        }
        cur, index := found.state, index + 1;
      }
    }
  }

  /** A value that parses costs at least its own node and depth. */
  lemma NodeBeyond(b: Bytes, pos: nat, depth: nat, parent: Kind, path: int, st: ScanState)
    requires pos <= |b|
    ensures var r := ScanValue(b, pos, depth, parent, path, st);
            r.Some? ==> Grown(AddNode(st, depth), r.value.state)
    ensures pos == |b| ==> ScanValue(b, pos, depth, parent, path, st).None?
  {
    hide ParseItems, SpaceEnd, IndexItems, Capacity, Decode, ValueBytes;
    if ParseValue(b, pos).Some? {
      var v := ParseValue(b, pos).value.tree;
      if v.Container? {
        ItemsGrow(v.items, v.isObject, 0, pos + 1 + |v.lead|, depth, path, AddNode(st, depth));
      }
      CapacityStep(|st.strings|);
    }
  }

  lemma LiteralFound(b: Bytes, pos: nat, word: Word, depth: nat, parent: Kind, path: int, st: ScanState)
    requires pos < |b| && b[pos] == WordBytes(word)[0]
    ensures ScanValue(b, pos, depth, parent, path, st)
            == match ParseLiteral(b, pos, word)
               case None => None
               case Some(r) => Some(Found(r.end, if word.Null? then NullKind else BooleanKind, AddNode(st, depth)))
  {
    hide ParseItems, ParseNumber, SpaceEnd, StringEnd;
  }

  lemma NumberFound(b: Bytes, pos: nat, depth: nat, parent: Kind, path: int, st: ScanState)
    requires pos < |b| && b[pos] !in {LBRACE, LBRACKET, QUOTE, TRUE[0], FALSE[0], NULL[0]}
    ensures ScanValue(b, pos, depth, parent, path, st)
            == if b[pos] != MINUS && !IsDigit(b[pos]) then None
               else match ParseNumber(b, pos)
                    case None => None
                    case Some(r) => Some(Found(r.end, NumberKind, AddNode(st, depth)))
  {
    hide ParseItems, ParseNumber, SpaceEnd, StringEnd;
  }

  lemma StringFound(b: Bytes, pos: nat, depth: nat, parent: Kind, path: int, st: ScanState)
    requires pos < |b| && b[pos] == QUOTE && StringEnd(b, pos + 1).Some?
    ensures var e := StringEnd(b, pos + 1).value; var value := Decode(b[pos + 1..e - 1]);
            ScanValue(b, pos, depth, parent, path, st)
            == Some(Found(e, StringKind,
                 AddString(AddLength(AddNode(st, depth), |value|), Entry(value, pos, e, parent, depth, path))))
  {
    hide StringEnd, Decode, Capacity;
  }

  datatype ScanResult =
    | Scanned(kind: Kind, start: nat, end: nat, strings: seq<Entry>, paths: seq<PathNode>, bytes: nat, nodes: nat)
    | Rejected(error: ScanError)

  /** The scan of a whole body. Uncancelled, it succeeds exactly on the JSON texts whose
      index fits the limits, and it returns that index; a failure names its reason. */
  method ScanJson(body: Bytes, limits: Limits, cancellable: bool) returns (r: ScanResult)
    ensures r.Scanned? ==>
              ParseText(body).Some? && Fits(IndexText(body).value, limits)
              && r.start == SpaceEnd(body, 0) && r.end == ParseText(body).value.end
              && r.kind == KindOf(ParseText(body).value.tree)
              && var st := IndexText(body).value;
              r.strings == st.strings && r.paths == st.paths && r.bytes == st.bytes && r.nodes == st.nodes
    ensures r.Rejected? && r.error.Canceled? ==> cancellable
    ensures r.Rejected? && r.error.Invalid? ==> ParseText(body).None?
    ensures r.Rejected? && !r.error.Canceled? && !r.error.Invalid? && ParseText(body).Some? ==>
              Violates(r.error, IndexText(body).value, limits)
    ensures !cancellable ==> (r.Scanned? <==> ParseText(body).Some? && Fits(IndexText(body).value, limits))
  {
    hide ParseValue, IndexValue, SpaceEnd, Capacity;
    var s := new JsonScanner(body, limits, cancellable);
    var err := s.SkipWhitespace();
    if err != Ok {
      return Rejected(err.error);
    }
    NodeBeyond(body, s.pos, 1, InvalidKind, ROOT_PATH, EMPTY);
    if s.pos == |body| {
      return Rejected(Invalid);
    }
    var start := s.pos;
    var kind;
    kind, err := s.ReadValue(1, InvalidKind, EMPTY);
    if err != Ok {
      return Rejected(err.error);
    }
    var end := s.pos;
    err := s.SkipWhitespace();
    if err != Ok {
      return Rejected(err.error);
    }
    if s.pos != |body| {
      return Rejected(Invalid);
    }
    err := s.CheckNow();
    if err != Ok {
      return Rejected(err.error);
    }
    r := Scanned(kind, start, end, s.strings, s.paths, s.structuralBytes, s.nodes);
  }
}
