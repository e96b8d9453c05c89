/** Documents: scanning under limits, string tokens with their paths, and the
    transactional replacement of selected string values. */
module Payload {
  import opened ByteStrings
  import opened JsonStrings
  import opened JsonGrammar
  import opened JsonIndex
  import opened Splicing
  import opened Scanner

  const HARD_MAXIMA := Limits(33554432, 128, 250000, 134217728, 8388608, 100000, 33554432)

  const MAX_INT := 0x7FFF_FFFF_FFFF_FFFF

  const CHUNK_BYTES := 65536

  /** Limits as a caller configures them: zero selects the default, which is the hard maximum. */
  datatype LimitOptions = LimitOptions(
    bodyBytes: int, depth: int, nodes: int, structuralBytes: int, stringBytes: int,
    replacements: int, replacementBytes: int)

  predicate Configurable(option: int, most: nat) { 0 <= option <= most }

  predicate Effective(option: int, most: nat, limit: nat) { if option == 0 then limit == most else limit == option }

  /** Accepted exactly when no option is negative or above its maximum; each limit is its option,
      or the maximum where the option is zero. */
  function Normalized(o: LimitOptions): (r: Option<Limits>)
    ensures r.Some? ==> Bounded(r.value)
    ensures r.Some? <==>
              Configurable(o.bodyBytes, HARD_MAXIMA.bodyBytes) && Configurable(o.depth, HARD_MAXIMA.depth)
              && Configurable(o.nodes, HARD_MAXIMA.nodes) && Configurable(o.structuralBytes, HARD_MAXIMA.structuralBytes)
              && Configurable(o.stringBytes, HARD_MAXIMA.stringBytes) && Configurable(o.replacements, HARD_MAXIMA.replacements)
              && Configurable(o.replacementBytes, HARD_MAXIMA.replacementBytes)
    ensures r.Some? ==>
              Effective(o.bodyBytes, HARD_MAXIMA.bodyBytes, r.value.bodyBytes) && Effective(o.depth, HARD_MAXIMA.depth, r.value.depth)
              && Effective(o.nodes, HARD_MAXIMA.nodes, r.value.nodes)
              && Effective(o.structuralBytes, HARD_MAXIMA.structuralBytes, r.value.structuralBytes)
              && Effective(o.stringBytes, HARD_MAXIMA.stringBytes, r.value.stringBytes)
              && Effective(o.replacements, HARD_MAXIMA.replacements, r.value.replacements)
              && Effective(o.replacementBytes, HARD_MAXIMA.replacementBytes, r.value.replacementBytes)
  {
    if o.bodyBytes < 0 || o.depth < 0 || o.nodes < 0 || o.structuralBytes < 0 || o.stringBytes < 0
       || o.replacements < 0 || o.replacementBytes < 0 then None
    else
      var l := Limits(
        if o.bodyBytes == 0 then HARD_MAXIMA.bodyBytes else o.bodyBytes,
        if o.depth == 0 then HARD_MAXIMA.depth else o.depth,
        if o.nodes == 0 then HARD_MAXIMA.nodes else o.nodes,
        if o.structuralBytes == 0 then HARD_MAXIMA.structuralBytes else o.structuralBytes,
        if o.stringBytes == 0 then HARD_MAXIMA.stringBytes else o.stringBytes,
        if o.replacements == 0 then HARD_MAXIMA.replacements else o.replacements,
        if o.replacementBytes == 0 then HARD_MAXIMA.replacementBytes else o.replacementBytes);
      if l.bodyBytes > HARD_MAXIMA.bodyBytes || l.depth > HARD_MAXIMA.depth || l.nodes > HARD_MAXIMA.nodes
         || l.structuralBytes > HARD_MAXIMA.structuralBytes || l.stringBytes > HARD_MAXIMA.stringBytes
         || l.replacements > HARD_MAXIMA.replacements || l.replacementBytes > HARD_MAXIMA.replacementBytes then None
      else Some(l)
  }

  /** No limit is disabled and none is above the package maximum. */
  predicate Bounded(l: Limits) {
    0 < l.bodyBytes <= HARD_MAXIMA.bodyBytes && 0 < l.depth <= HARD_MAXIMA.depth
    && 0 < l.nodes <= HARD_MAXIMA.nodes && 0 < l.structuralBytes <= HARD_MAXIMA.structuralBytes
    && 0 < l.stringBytes <= HARD_MAXIMA.stringBytes && 0 < l.replacements <= HARD_MAXIMA.replacements
    && 0 < l.replacementBytes <= HARD_MAXIMA.replacementBytes
  }

  function AsOptions(l: Limits): LimitOptions {
    LimitOptions(l.bodyBytes, l.depth, l.nodes, l.structuralBytes, l.stringBytes, l.replacements, l.replacementBytes)
  }

  datatype Failure =
    | InvalidLimits
    | BodyTooLarge
    | RootNotObject
    | ScanFailed(error: ScanError)
    | ReplacementLimit
    | ReplacementTooLarge
    | OverlappingReplacements
    | InvalidToken
    | Interrupted

  // ----- paths ------------------------------------------------------------

  type Path = seq<PathSegment>

  /** Parents precede their children in the arena. */
  predicate Arena(paths: seq<PathNode>) {
    forall i :: 0 <= i < |paths| ==> -1 <= paths[i].parent < i
  }

  function PathOf(paths: seq<PathNode>, ref: int): Path
    requires Arena(paths) && -1 <= ref < |paths|
    decreases ref + 1
  {
    if ref < 0 then [] else PathOf(paths, paths[ref].parent) + [paths[ref].segment]
  }

  predicate Refs(paths: seq<PathNode>, strings: seq<Entry>) {
    forall k :: 0 <= k < |strings| ==> -1 <= strings[k].pathRef < |paths|
  }

  lemma {:induction false} IndexArena(v: Value, pos: nat, depth: nat, parent: Kind, path: int, st: ScanState)
    requires Arena(st.paths) && Refs(st.paths, st.strings) && -1 <= path < |st.paths|
    ensures var r := IndexValue(v, pos, depth, parent, path, st);
            Arena(r.paths) && Refs(r.paths, r.strings) && |st.paths| <= |r.paths|
    decreases v
  {
    hide ValueBytes, LabelBytes, SeparatorBytes, Capacity, Decode;
    if v.Container? {
      ItemsArena(v.items, v.isObject, 0, pos + 1 + |v.lead|, depth, path, AddNode(st, depth));
    }
  }

  lemma {:induction false} ItemsArena(items: Items, isObject: bool, i: nat, pos: nat, depth: nat, path: int, st: ScanState)
    requires Arena(st.paths) && Refs(st.paths, st.strings) && -1 <= path < |st.paths|
    ensures var r := IndexItems(items, isObject, i, pos, depth, path, st);
            Arena(r.paths) && Refs(r.paths, r.strings) && |st.paths| <= |r.paths|
    decreases items
  {
    hide ValueBytes, LabelBytes, SeparatorBytes, Capacity, Decode, IndexValue;
    if items.Cons? {
      var q := pos + |LabelBytes(items.tag)|;
      var s := q + |ValueBytes(items.value)| + |items.after| + |SeparatorBytes(items.sep, items.rest)|;
      var st1 := IndexLabel(items.tag, i, path, st);
      assert |st1.paths| == |st.paths| + 1 && st1.strings == st.strings;
      var st2 := IndexValue(items.value, q, depth + 1, ContainerKind(isObject), |st.paths|, st1);
      IndexArena(items.value, q, depth + 1, ContainerKind(isObject), |st.paths|, st1);
      ItemsArena(items.rest, isObject, i + 1, s, depth, path, st2);
    }
  }

  // ----- tokens and replacements ------------------------------------------

  /** A token as callers see it. `document` and `ordinal` are its private identity. */
  datatype StringToken = StringToken(
    value: Bytes, start: nat, end: nat, path: Path, parentKind: Kind, depth: nat,
    document: Document?, ordinal: int)

  datatype Replacement = Replacement(token: StringToken, value: Bytes)

  datatype Candidate = Candidate(ordinal: nat, entry: Entry, value: Bytes)

  datatype ReplaceResult = Replaced(out: Bytes, changed: bool) | Refused(error: Failure)

  /** Candidates for the string with ordinal `o`. */
  function Occurs(s: seq<Candidate>, o: nat): nat {
    if s == [] then 0 else (if s[0].ordinal == o then 1 else 0) + Occurs(s[1..], o)
  }

  predicate DistinctOrdinals(s: seq<Candidate>) {
    forall i, j :: 0 <= i < j < |s| ==> s[i].ordinal != s[j].ordinal
  }

  lemma {:induction false} OccursBelow(s: seq<Candidate>, o: nat)
    ensures Occurs(s, o) == 0 <==> forall i :: 0 <= i < |s| ==> s[i].ordinal != o
  {
    if s != [] {
      OccursBelow(s[1..], o);
      assert forall i :: 1 <= i < |s| ==> s[i] == s[1..][i - 1];
    }
  }

  lemma {:induction false} DistinctOccurs(s: seq<Candidate>, o: nat)
    requires DistinctOrdinals(s)
    ensures Occurs(s, o) <= 1
  {
    if s != [] {
      DistinctOccurs(s[1..], o);
      OccursBelow(s[1..], s[0].ordinal);
      assert forall i :: 0 <= i < |s[1..]| ==> s[1..][i] == s[i + 1];
    }
  }

  lemma {:induction false} OccursDistinct(s: seq<Candidate>, i: nat, j: nat)
    requires i < j < |s| && s[i].ordinal == s[j].ordinal
    ensures Occurs(s, s[i].ordinal) >= 2
  {
    var rest := s[1..];
    assert rest[j - 1] == s[j];
    if i == 0 {
      OccursBelow(rest, s[0].ordinal);
    } else {
      assert rest[i - 1] == s[i];
      OccursDistinct(rest, i - 1, j - 1);
    }
  }

  /** sort.Slice by span start, then end. */
  predicate Before(a: Candidate, b: Candidate) {
    a.entry.start < b.entry.start || (a.entry.start == b.entry.start && a.entry.end <= b.entry.end)
  }

  predicate SortedBySpan(s: seq<Candidate>) {
    forall i :: 0 <= i < |s| - 1 ==> Before(s[i], s[i + 1])
  }

  function Insert(c: Candidate, s: seq<Candidate>): (r: seq<Candidate>)
    requires SortedBySpan(s)
    ensures SortedBySpan(r) && |r| == |s| + 1
    ensures r[0] == c || (s != [] && r[0] == s[0])
  {
    if s == [] || Before(c, s[0]) then [c] + s
    else
      var t := Insert(c, s[1..]);
      assert SortedBySpan([s[0]] + t) by {
        assert forall i :: 0 <= i < |t| - 1 ==> ([s[0]] + t)[i + 1] == t[i];
      }
      [s[0]] + t
  }

  function SortBySpan(s: seq<Candidate>): (r: seq<Candidate>)
    ensures SortedBySpan(r) && |r| == |s|
  {
    if s == [] then [] else Insert(s[0], SortBySpan(s[1..]))
  }

  lemma {:induction false} InsertKeeps(c: Candidate, s: seq<Candidate>)
    requires SortedBySpan(s)
    ensures forall x :: x in Insert(c, s) <==> x == c || x in s
    ensures forall o: nat :: Occurs(Insert(c, s), o) == (if c.ordinal == o then 1 else 0) + Occurs(s, o)
  {
    if s == [] || Before(c, s[0]) {
      assert ([c] + s)[1..] == s;
    } else {
      InsertKeeps(c, s[1..]);
      assert ([s[0]] + Insert(c, s[1..]))[1..] == Insert(c, s[1..]);
      assert s == [s[0]] + s[1..];
    }
  }

  /** Sorting keeps the candidates and how often each string occurs. */
  lemma {:induction false} SortKeeps(s: seq<Candidate>)
    ensures forall x :: x in SortBySpan(s) <==> x in s
    ensures forall o: nat :: Occurs(SortBySpan(s), o) == Occurs(s, o)
  {
    if s != [] {
      SortKeeps(s[1..]);
      InsertKeeps(s[0], SortBySpan(s[1..]));
      assert s == [s[0]] + s[1..];
    }
  }

  // ----- splicing methods -------------------------------------------------

  function TextTotal(edits: seq<Edit>): nat {
    if edits == [] then 0 else |edits[0].text| + TextTotal(edits[1..])
  }

  predicate NonEmpty(edits: seq<Edit>) {
    forall i :: 0 <= i < |edits| ==> edits[i].start < edits[i].end
  }

  lemma {:induction false} TextTotalSnoc(edits: seq<Edit>, i: nat)
    requires i < |edits|
    ensures TextTotal(edits[..i + 1]) == TextTotal(edits[..i]) + |edits[i].text|
    ensures TextTotal(edits[..i + 1]) <= TextTotal(edits)
    decreases i
  {
    assert edits[..i + 1][1..] == edits[1..][..i];
    if i > 0 {
      assert edits[..i][1..] == edits[1..][..i - 1];
      TextTotalSnoc(edits[1..], i - 1);
    }
  }

  method ContextError(cancellable: bool) returns (canceled: bool)
    ensures canceled ==> cancellable
  {
    var done: bool := *;
    canceled := cancellable && done;
  }

  method AppendWithContext(dst: Bytes, src: Bytes, cancellable: bool) returns (out: Bytes, canceled: bool)
    ensures !canceled ==> out == dst + src
    ensures canceled ==> cancellable
  {
    out := dst;
    var rest := src;
    while |rest| > 0
      invariant out + rest == dst + src
    {
      canceled := ContextError(cancellable);
      if canceled { return; }
      var n := if |rest| > CHUNK_BYTES then CHUNK_BYTES else |rest|;
      assert out + rest[..n] + rest[n..] == out + rest;
      out := out + rest[..n];
      rest := rest[n..];
    }
    assert out + rest == out;
    canceled := false;
  }

  /** The first pass of the splice: checks the edits and computes the size of the output. */
  method MeasureEdits(body: Bytes, edits: seq<Edit>, cancellable: bool) returns (size: int, error: Option<Failure>)
    ensures error.None? ==>
              Ordered(0, |body|, edits) && NonEmpty(edits) && size == |Splice(body, 0, |body|, edits)|
    ensures error.Some? ==>
              (error.value == OverlappingReplacements && !(Ordered(0, |body|, edits) && NonEmpty(edits)))
              || (error.value == ReplacementLimit && |body| + TextTotal(edits) > MAX_INT)
              || (error.value == Interrupted && cancellable)
  {
    size := |body|;
    var previousEnd: nat := 0;
    assert Splice(body, 0, 0, []) == [] && edits[..0] == [];
    for i := 0 to |edits|
      invariant previousEnd <= |body| && Ordered(0, previousEnd, edits[..i]) && NonEmpty(edits[..i])
      invariant previousEnd == if i == 0 then 0 else edits[i - 1].end
      invariant size == |Splice(body, 0, previousEnd, edits[..i])| + |body| - previousEnd
      invariant size <= |body| + TextTotal(edits[..i])
    {
      var canceled := ContextError(cancellable);
      if canceled {
        return size, Some(Interrupted);
      }
      var edit := edits[i];
      if edit.start < previousEnd || edit.end <= edit.start || edit.end > |body| {
        if Ordered(0, |body|, edits) { OrderedSplit(0, |body|, edits, i); }
        return size, Some(OverlappingReplacements);
      }
      assert edits[..i + 1] == edits[..i] + [edit];
      SpliceSnoc(body, 0, previousEnd, edits[..i], edit);
      TextTotalSnoc(edits, i);
      var oldBytes := edit.end - edit.start;
      if |edit.text| > oldBytes {
        var growth := |edit.text| - oldBytes;
        if size > MAX_INT - growth {
          return size, Some(ReplacementLimit);
        }
        size := size + growth;
      } else {
        size := size - (oldBytes - |edit.text|);
      }
      previousEnd := edit.end;
    }
    assert edits[..|edits|] == edits && edits + [] == edits;
    SpliceJoin(body, 0, previousEnd, |body|, edits, []);
    error := None;
  }

  /** Checks and applies the edits: every byte outside them is copied in order, and the
      output has exactly the size computed beforehand. */
  method SpliceEdits(body: Bytes, edits: seq<Edit>, cancellable: bool) returns (r: ReplaceResult, size: int)
    ensures r.Replaced? ==>
              Ordered(0, |body|, edits) && NonEmpty(edits)
              && r.changed && r.out == Splice(body, 0, |body|, edits) && |r.out| == size
    ensures r.Refused? ==>
              (r.error == OverlappingReplacements && !(Ordered(0, |body|, edits) && NonEmpty(edits)))
              || (r.error == ReplacementLimit && |body| + TextTotal(edits) > MAX_INT)
              || (r.error == Interrupted && cancellable)
  {
    var error;
    size, error := MeasureEdits(body, edits, cancellable);
    if error.Some? {
      return Refused(error.value), size;
    }
    var out := [];
    var previousEnd: nat := 0;
    var canceled;
    assert Splice(body, 0, 0, []) == [] && edits[..0] == [];
    for i := 0 to |edits|
      invariant previousEnd <= |body| && Ordered(0, previousEnd, edits[..i])
      invariant previousEnd == if i == 0 then 0 else edits[i - 1].end
      invariant out == Splice(body, 0, previousEnd, edits[..i])
    {
      var edit := edits[i];
      OrderedSplit(0, |body|, edits, i);
      assert edits[..i + 1] == edits[..i] + [edit];
      SpliceSnoc(body, 0, previousEnd, edits[..i], edit);
      out, canceled := AppendWithContext(out, body[previousEnd..edit.start], cancellable);
      if canceled {
        return Refused(Interrupted), size;
      }
      out, canceled := AppendWithContext(out, edit.text, cancellable);
      if canceled {
        return Refused(Interrupted), size;
      }
      previousEnd := edit.end;
    }
    assert edits[..|edits|] == edits && edits + [] == edits;
    SpliceJoin(body, 0, previousEnd, |body|, edits, []);
    out, canceled := AppendWithContext(out, body[previousEnd..], cancellable);
    if canceled {
      return Refused(Interrupted), size;
    }
    r := Replaced(out, true);
  }

  // ----- documents --------------------------------------------------------

  /** A scanned text and its string index; immutable once built. */
  class Document {
    const body: Bytes
    const limits: Limits
    const rootKind: Kind
    const rootStart: nat
    const rootEnd: nat
    const strings: seq<Entry>
    const paths: seq<PathNode>
    const structuralBytes: nat
    const nodeCount: nat

    constructor (body: Bytes, limits: Limits, scan: ScanResult)
      requires scan.Scanned?
      ensures this.body == body && this.limits == limits
      ensures rootKind == scan.kind && rootStart == scan.start && rootEnd == scan.end
      ensures strings == scan.strings && paths == scan.paths
      ensures structuralBytes == scan.bytes && nodeCount == scan.nodes
    {
      this.body, this.limits := body, limits;
      rootKind, rootStart, rootEnd := scan.kind, scan.start, scan.end;
      strings, paths, structuralBytes, nodeCount := scan.strings, scan.paths, scan.bytes, scan.nodes;
    }

    /** The document is the index of its body, and the body fits the limits. */
    ghost predicate Valid() {
      Bounded(limits) && |body| <= limits.bodyBytes && ParseText(body).Some?
      && Fits(IndexText(body).value, limits)
      && rootStart == SpaceEnd(body, 0) && rootEnd == ParseText(body).value.end && rootKind == KindOf(Tree())
      && var st := IndexText(body).value;
      strings == st.strings && paths == st.paths && structuralBytes == st.bytes && nodeCount == st.nodes
      && Arena(paths) && Refs(paths, strings)
    }

    ghost function Tree(): Value
      requires ParseText(body).Some?
    {
      ParseText(body).value.tree
    }

    lemma Indexed()
      requires Valid()
      ensures |strings| == StringCount(Tree()) && Describes(strings, Leaves(Tree(), rootStart))
      ensures At(body, rootStart, rootEnd, ValueBytes(Tree())) && rootEnd <= |body|
    {
      IndexDescribes(Tree(), rootStart, 1, InvalidKind, ROOT_PATH, EMPTY);
      assert strings == strings[|EMPTY.strings|..];
      ParseSound(body, rootStart);
    }

    /** Validates one JSON text and indexes its string values. */
    static method Scan(body: Bytes, options: LimitOptions, cancellable: bool) returns (doc: Document?, error: Option<Failure>)
      ensures doc != null <==> error.None?
      ensures doc != null ==> doc.Valid() && doc.body == body && Normalized(options) == Some(doc.limits)
      ensures error == Some(InvalidLimits) <==> Normalized(options).None?
      ensures Normalized(options).Some? && !cancellable ==>
                (doc != null <==>
                   |body| <= Normalized(options).value.bodyBytes && ParseText(body).Some?
                   && Fits(IndexText(body).value, Normalized(options).value))
      ensures error == Some(ScanFailed(JsonIndex.Invalid)) ==> ParseText(body).None?
      ensures error != Some(RootNotObject)
    {
      hide ParseText, Fits, Violates, SpaceEnd, KindOf, IndexValue;
      doc := null;
      var limits := Normalized(options);
      if limits.None? {
        return null, Some(InvalidLimits);
      }
      if |body| > limits.value.bodyBytes {
        return null, Some(BodyTooLarge);
      }
      var canceled := ContextError(cancellable);
      if canceled {
        return null, Some(Interrupted);
      }
      var scan := ScanJson(body, limits.value, cancellable);
      if scan.Rejected? {
        return null, Some(ScanFailed(scan.error));
      }
      IndexArena(ParseText(body).value.tree, scan.start, 1, InvalidKind, ROOT_PATH, EMPTY);
      doc := new Document(body, limits.value, scan);
      error := None;
    }

    static method ScanObject(body: Bytes, options: LimitOptions, cancellable: bool) returns (doc: Document?, error: Option<Failure>)
      ensures doc != null <==> error.None?
      ensures doc != null ==> doc.Valid() && doc.body == body && Normalized(options) == Some(doc.limits)
      ensures doc != null ==> doc.Tree().Container? && doc.Tree().isObject
      ensures Normalized(options).Some? && !cancellable ==>
                (doc != null <==>
                   |body| <= Normalized(options).value.bodyBytes && ParseText(body).Some?
                   && Fits(IndexText(body).value, Normalized(options).value)
                   && ParseText(body).value.tree.Container? && ParseText(body).value.tree.isObject)
      ensures error == Some(RootNotObject) ==>
                ParseText(body).Some? && !(ParseText(body).value.tree.Container? && ParseText(body).value.tree.isObject)
    {
      hide ParseText, Fits, IndexValue, SpaceEnd, Bounded, Normalized;
      doc, error := Scan(body, options, cancellable);
      if doc != null && doc.rootKind != ObjectKind {
        return null, Some(RootNotObject);
      }
    }

    method MaterializePath(ref: int) returns (path: Path)
      requires Arena(paths) && -1 <= ref < |paths|
      ensures path == PathOf(paths, ref)
    {
      var depth := 0;
      var current := ref;
      while current >= 0
        invariant -1 <= current < |paths|
        invariant depth + |PathOf(paths, current)| == |PathOf(paths, ref)|
        decreases current
      {
        depth := depth + 1;
        current := paths[current].parent;
      }
      path := seq(depth, _ => Index(0));
      current := ref;
      var index := depth - 1;
      while current >= 0
        invariant -1 <= current < |paths| && |path| == depth == |PathOf(paths, ref)|
        invariant index + 1 == |PathOf(paths, current)|
        invariant index < depth && PathOf(paths, current) + path[index + 1..] == PathOf(paths, ref)
        decreases current
      {
        ghost var tail := path[index + 1..];
        ghost var here := PathOf(paths, current);
        path := path[index := paths[current].segment];
        assert path[index..] == [paths[current].segment] + tail;
        current, index := paths[current].parent, index - 1;
        assert here + tail == PathOf(paths, current) + path[index + 1..];
      }
      assert path[0..] == path && [] + path == path;
    }

    method PathEqual(ref: int, path: Path) returns (equal: bool)
      requires Arena(paths) && -1 <= ref < |paths|
      ensures equal <==> path == PathOf(paths, ref)
    {
      var index := |path| - 1;
      var current := ref;
      while current >= 0
        invariant -1 <= current < |paths| && -1 <= index < |path|
        invariant path == PathOf(paths, ref) <==> path[..index + 1] == PathOf(paths, current)
        decreases current
      {
        if index < 0 || paths[current].segment != path[index] {
          assert index >= 0 ==> path[..index + 1][index] == path[index];
          return false;
        }
        assert path[..index + 1] == path[..index] + [path[index]];
        assert path[..index + 1] == PathOf(paths, current) <==> path[..index] == PathOf(paths, paths[current].parent) by {
          AppendEqual(path[..index], PathOf(paths, paths[current].parent), path[index]);
        }
        index := index - 1;
        current := paths[current].parent;
      }
      equal := index == -1;
      assert path[..0] == [];
    }

    static lemma AppendEqual(x: Path, y: Path, s: PathSegment)
      ensures x + [s] == y + [s] <==> x == y
    {
      if x + [s] == y + [s] {
        assert x == (x + [s])[..|x|] && y == (y + [s])[..|y|];
      }
    }

    /** The token of this document with ordinal `i`, unchanged. */
    ghost predicate Owns(token: StringToken)
      requires Arena(paths) && Refs(paths, strings)
    {
      token.document == this && 0 <= token.ordinal < |strings|
      && var e := strings[token.ordinal];
      token.value == e.value && token.start == e.start && token.end == e.end
      && token.parentKind == e.parentKind && token.depth == e.depth && token.path == PathOf(paths, e.pathRef)
    }

    method StringTokenAt(index: int) returns (token: Option<StringToken>)
      requires Arena(paths) && Refs(paths, strings)
      ensures token.Some? <==> 0 <= index < |strings|
      ensures token.Some? ==> Owns(token.value) && token.value.ordinal == index
    {
      if index < 0 || index >= |strings| {
        return None;
      }
      var e := strings[index];
      var path := MaterializePath(e.pathRef);
      token := Some(StringToken(e.value, e.start, e.end, path, e.parentKind, e.depth, this, index));
    }

    method CanonicalToken(token: StringToken) returns (r: Option<Entry>)
      requires Arena(paths) && Refs(paths, strings)
      ensures r.Some? <==> Owns(token)
      ensures r.Some? ==> r.value == strings[token.ordinal]
    {
      if token.document != this || token.ordinal < 0 || token.ordinal >= |strings| {
        return None;
      }
      var canonical := strings[token.ordinal];
      var same := PathEqual(canonical.pathRef, token.path);
      if token.value != canonical.value || token.start != canonical.start || token.end != canonical.end
         || token.parentKind != canonical.parentKind || token.depth != canonical.depth || !same {
        return None;
      }
      r := Some(canonical);
    }

    // ----- what a replacement list means ------------------------------------

    ghost predicate AllOwned(list: seq<Replacement>)
      requires Arena(paths) && Refs(paths, strings)
    {
      forall i :: 0 <= i < |list| ==> Owns(list[i].token)
    }

    /** The strings whose decoded value the list really changes, with their new values. */
    ghost function ChangesOf(list: seq<Replacement>): (m: Changes)
      ensures forall k: nat :: k in m <==> Changed(list, k)
      ensures forall k: nat :: k in m ==> exists i :: Changing(list, k, i) && m[k] == list[i].value
    {
      map k: nat | k < |strings| && Changed(list, k) :: NewValue(list, k)
    }

    ghost predicate Changed(list: seq<Replacement>, k: nat) {
      exists i :: Changing(list, k, i)
    }

    ghost function NewValue(list: seq<Replacement>, k: nat): Bytes
      requires Changed(list, k)
    {
      var i :| Changing(list, k, i); list[i].value
    }

    /** Entry `i` of the list asks for a new value of string `k`. */
    predicate Changing(list: seq<Replacement>, k: nat, i: int) {
      k < |strings| && 0 <= i < |list| && list[i].token.ordinal == k && list[i].value != strings[k].value
    }

    /** Exactly the lists that `Replace` accepts. */
    ghost predicate Accepts(list: seq<Replacement>)
      requires Arena(paths) && Refs(paths, strings)
    {
      |list| <= limits.replacements && AllOwned(list)
      && (forall i :: 0 <= i < |list| ==> |list[i].value| <= limits.stringBytes)
      && DistinctTokens(list)
      && PickSize(strings, ChangesOf(list), 0) <= limits.replacementBytes
    }

    static predicate DistinctTokens(list: seq<Replacement>) {
      forall i, j :: 0 <= i < j < |list| ==> list[i].token.ordinal != list[j].token.ordinal
    }

    /** Strings are apart: their spans are nonempty, in order, and inside the body. */
    ghost predicate Apart() {
      (forall i :: 0 <= i < |strings| ==> strings[i].start < strings[i].end <= |body|)
      && forall i, j :: 0 <= i < j < |strings| ==> strings[i].end <= strings[j].start
    }

    lemma StringsApart()
      requires Valid()
      ensures Apart()
    {
      Indexed();
      var leaves := Leaves(Tree(), rootStart);
      SpliceValue(body, rootStart, rootEnd, Tree(), Bodies(Tree()));
      var edits := LeafEdits(leaves, Bodies(Tree()));
      LeavesAt(body, rootStart, rootEnd, Tree());
      OrderedBound(rootStart, rootEnd, edits);
      forall i | 0 <= i < |strings| ensures strings[i].start < strings[i].end <= |body| {
        assert edits[i].start == leaves[i].start;
        assert |Quoted(leaves[i].body)| >= 2;
      }
      forall i, j | 0 <= i < j < |strings| ensures strings[i].end <= strings[j].start {
        OrderedApart(rootStart, rootEnd, edits, i, j);
      }
    }

    predicate FromList(list: seq<Replacement>, c: seq<Candidate>) {
      |c| == |list|
      && forall i :: 0 <= i < |list| ==>
           0 <= list[i].token.ordinal < |strings|
           && c[i] == Candidate(list[i].token.ordinal, strings[list[i].token.ordinal], list[i].value)
    }

    predicate Canonical(s: seq<Candidate>) {
      forall i :: 0 <= i < |s| ==> s[i].ordinal < |strings| && s[i].entry == strings[s[i].ordinal]
    }

    /** `changes` is what the candidates ask for. */
    predicate Requests(s: seq<Candidate>, changes: Changes) {
      (forall i :: 0 <= i < |s| ==>
         (s[i].ordinal in changes <==> s[i].value != s[i].entry.value)
         && (s[i].ordinal in changes ==> changes[s[i].ordinal] == s[i].value))
      && forall k :: k in changes ==> exists i :: 0 <= i < |s| && s[i].ordinal == k
    }

    method Canonicalize(list: seq<Replacement>, cancellable: bool) returns (c: seq<Candidate>, error: Option<Failure>)
      requires Arena(paths) && Refs(paths, strings)
      ensures error.None? ==>
                AllOwned(list) && FromList(list, c)
                && forall i :: 0 <= i < |list| ==> |list[i].value| <= limits.stringBytes
      ensures error.Some? ==>
                (error.value == InvalidToken && !AllOwned(list))
                || (error.value == ReplacementTooLarge && exists i :: 0 <= i < |list| && |list[i].value| > limits.stringBytes)
                || (error.value == Interrupted && cancellable)
    {
      c := [];
      for i := 0 to |list|
        invariant FromList(list[..i], c)
        invariant forall j :: 0 <= j < i ==> Owns(list[j].token) && |list[j].value| <= limits.stringBytes
      {
        var canceled := ContextError(cancellable);
        if canceled {
          return c, Some(Interrupted);
        }
        var canonical := CanonicalToken(list[i].token);
        if canonical.None? {
          return c, Some(InvalidToken);
        }
        if |list[i].value| > limits.stringBytes {
          return c, Some(ReplacementTooLarge);
        }
        c := c + [Candidate(list[i].token.ordinal, canonical.value, list[i].value)];
      }
      assert list[..|list|] == list;
      error := None;
    }

    /** On candidates in span order: refuses exactly when some string was selected twice. */
    method CheckOverlap(s: seq<Candidate>, cancellable: bool) returns (error: Option<Failure>)
      requires Canonical(s) && SortedBySpan(s) && Apart()
      ensures error.None? ==> forall i :: 0 <= i < |s| - 1 ==> s[i].ordinal < s[i + 1].ordinal
      ensures error.Some? ==>
                (error.value == OverlappingReplacements && !DistinctOrdinals(s)) || (error.value == Interrupted && cancellable)
    {
      var previousEnd: int := -1;
      for i := 0 to |s|
        invariant previousEnd == if i == 0 then -1 else s[i - 1].entry.end
        invariant forall j :: 0 <= j < i - 1 ==> s[j].ordinal < s[j + 1].ordinal
      {
        var canceled := ContextError(cancellable);
        if canceled {
          return Some(Interrupted);
        }
        var e := s[i].entry;
        if e.end <= e.start || e.end > |body| {
          assert false;
          return Some(InvalidToken);
        }
        if e.start < previousEnd {
          assert Before(s[i - 1], s[i]);
          return Some(OverlappingReplacements);
        }
        previousEnd := e.end;
      }
      error := None;
    }

    method BuildEdits(s: seq<Candidate>, ghost changes: Changes, cancellable: bool) returns (edits: seq<Edit>, error: Option<Failure>)
      requires Canonical(s) && Requests(s, changes)
      requires forall i :: 0 <= i < |s| - 1 ==> s[i].ordinal < s[i + 1].ordinal
      ensures error.None? ==> edits == PickEdits(strings, changes, 0) && PickSize(strings, changes, 0) <= limits.replacementBytes
      ensures error.Some? ==>
                (error.value == ReplacementLimit && PickSize(strings, changes, 0) > limits.replacementBytes)
                || (error.value == Interrupted && cancellable)
    {
      hide Encode, PickEdits, PickSize, Requests;
      Increasing(s);
      PickLast(changes);
      edits := [];
      var encodedTotal := 0;
      ghost var next: nat := 0;
      for i := 0 to |s|
        invariant next == if i == 0 then 0 else s[i - 1].ordinal + 1
        invariant edits + PickEdits(strings, changes, next) == PickEdits(strings, changes, 0)
        invariant encodedTotal + PickSize(strings, changes, next) == PickSize(strings, changes, 0)
        invariant 0 <= encodedTotal <= limits.replacementBytes
      {
        var canceled := ContextError(cancellable);
        if canceled {
          return edits, Some(Interrupted);
        }
        var o := s[i].ordinal;
        SkipTo(s, changes, i);
        PickTake(changes, o);
        if s[i].value != s[i].entry.value {
          var encoded := EncodeString(s[i].value);
          if |encoded| > limits.replacementBytes - encodedTotal {
            return edits, Some(ReplacementLimit);
          }
          encodedTotal := encodedTotal + |encoded|;
          Snoc(edits, Edit(s[i].entry.start, s[i].entry.end, encoded), PickEdits(strings, changes, o + 1));
          edits := edits + [Edit(s[i].entry.start, s[i].entry.end, encoded)];
        }
        next := o + 1;
      }
      SkipTo(s, changes, |s|);
      assert edits + [] == edits;
      error := None;
    }

    lemma Snoc(edits: seq<Edit>, edit: Edit, rest: seq<Edit>)
      ensures edits + ([edit] + rest) == (edits + [edit]) + rest
    {
    }

    /** Between two candidates in order nothing changes. */
    lemma SkipTo(s: seq<Candidate>, changes: Changes, i: nat)
      requires Canonical(s) && Requests(s, changes) && i <= |s|
      requires forall i, j :: 0 <= i < j < |s| ==> s[i].ordinal < s[j].ordinal
      ensures var next := if i == 0 then 0 else s[i - 1].ordinal + 1; var o := if i < |s| then s[i].ordinal else |strings|;
              next <= o && PickEdits(strings, changes, next) == PickEdits(strings, changes, o)
              && PickSize(strings, changes, next) == PickSize(strings, changes, o)
      ensures i < |s| ==>
                (s[i].ordinal in changes <==> s[i].value != s[i].entry.value)
                && (s[i].ordinal in changes ==> changes[s[i].ordinal] == s[i].value)
    {
      hide PickEdits, PickSize;
      var next := if i == 0 then 0 else s[i - 1].ordinal + 1;
      var o := if i < |s| then s[i].ordinal else |strings|;
      forall m | 0 <= m < |s| ensures s[m].ordinal < next || o <= s[m].ordinal {
        assert m < i ==> m == i - 1 || s[m].ordinal < s[i - 1].ordinal;
        assert m > i ==> s[i].ordinal < s[m].ordinal;
      }
      assert forall k :: next <= k < o ==> k !in changes;
      PickSkip(strings, changes, next, o);
    }

    lemma PickTake(changes: Changes, o: nat)
      requires o < |strings|
      ensures o in changes ==>
                PickEdits(strings, changes, o)
                == [Edit(strings[o].start, strings[o].end, Encode(changes[o]))] + PickEdits(strings, changes, o + 1)
                && PickSize(strings, changes, o) == |Encode(changes[o])| + PickSize(strings, changes, o + 1)
      ensures o !in changes ==>
                PickEdits(strings, changes, o) == PickEdits(strings, changes, o + 1)
                && PickSize(strings, changes, o) == PickSize(strings, changes, o + 1)
    {
      hide Encode;
    }

    lemma PickLast(changes: Changes)
      ensures PickEdits(strings, changes, |strings|) == [] && PickSize(strings, changes, |strings|) == 0
    {
    }

    lemma RequestsOf(list: seq<Replacement>, c: seq<Candidate>, s: seq<Candidate>)
      requires FromList(list, c) && DistinctTokens(list) && (forall x :: x in s <==> x in c)
      ensures Canonical(s) && Requests(s, ChangesOf(list))
    {
      var changes := ChangesOf(list);
      forall i | 0 <= i < |s|
        ensures s[i].ordinal < |strings| && s[i].entry == strings[s[i].ordinal]
        ensures s[i].ordinal in changes <==> s[i].value != s[i].entry.value
        ensures s[i].ordinal in changes ==> changes[s[i].ordinal] == s[i].value
      {
        assert s[i] in s;
        var j :| 0 <= j < |c| && c[j] == s[i];
        assert s[i].value != s[i].entry.value ==> Changing(list, s[i].ordinal, j);
      }
      forall k | k in changes ensures exists i :: 0 <= i < |s| && s[i].ordinal == k {
        var j :| Changing(list, k, j);
        assert c[j] in c;
        var i :| 0 <= i < |s| && s[i] == c[j];
      }
    }

    /** What the text becomes: every byte outside the changed strings is copied. */
    ghost function Rewritten(list: seq<Replacement>): Bytes
      requires Valid()
    {
      Rewritable(ChangesOf(list));
      Splice(body, 0, |body|, PickEdits(strings, ChangesOf(list), 0))
    }

    lemma Rewritable(changes: Changes)
      requires Valid()
      ensures Ordered(0, |body|, PickEdits(strings, changes, 0))
      ensures Splice(body, 0, |body|, PickEdits(strings, changes, 0))
              == body[..rootStart]
                 + ValueBytes(Substitute(Tree(), NewBodies(Leaves(Tree(), rootStart), changes)))
                 + body[rootEnd..]
    {
      hide Splice, Ordered, ValueBytes, Leaves, ParseText, Substitute, SpaceEnd, PickEdits;
      Indexed();
      var leaves := Leaves(Tree(), rootStart);
      var bodies := NewBodies(leaves, changes);
      var full := LeafEdits(leaves, bodies);
      SpliceValue(body, rootStart, rootEnd, Tree(), bodies);
      SpliceWhole(full, rootStart, rootEnd);
      LeavesAt(body, rootStart, rootEnd, Tree());
      assert full[0..] == full;
      PickSplice(body, 0, |body|, strings, leaves, changes, 0);
    }

    lemma SpliceWhole(edits: seq<Edit>, i: nat, j: nat)
      requires Ordered(i, j, edits) && j <= |body|
      ensures i <= j && Ordered(0, |body|, edits)
      ensures Splice(body, 0, |body|, edits) == body[..i] + Splice(body, i, j, edits) + body[j..]
    {
      SpliceGap(body, 0, i, j, edits);
      SpliceJoin(body, 0, j, |body|, edits, []);
      assert edits + [] == edits && body[j..] == body[j..|body|] && body[..i] == body[0..i];
    }

    /** Replaces the selected values, or refuses and names a reason that holds. */
    method Replace(list: seq<Replacement>, cancellable: bool) returns (r: ReplaceResult)
      requires Valid()
      ensures r.Replaced? ==>
                Accepts(list) && r.out == Rewritten(list) && (r.changed <==> ChangesOf(list) != map[])
      ensures !cancellable ==> (r.Replaced? <==> Accepts(list))
      ensures r == Refused(InvalidToken) ==> !AllOwned(list)
      ensures r == Refused(OverlappingReplacements) ==> !DistinctTokens(list)
    {
      hide PickEdits, PickSize, Splice, Ordered, ParseText, IndexText, SortBySpan, Occurs, Fits, TextTotal, SpaceEnd;
      var canceled := ContextError(cancellable);
      if canceled {
        return Refused(Interrupted);
      }
      if |list| > limits.replacements {
        return Refused(ReplacementLimit);
      }
      if |list| == 0 {
        NothingAsked(list);
        NoChange(list);
        return Replaced(body, false);
      }
      var candidates, error := Canonicalize(list, cancellable);
      if error.Some? {
        return Refused(error.value);
      }
      var sorted := SortBySpan(candidates);
      SortKeeps(candidates);
      StringsApart();
      SortedCanonical(list, candidates, sorted);
      canceled := ContextError(cancellable);
      if canceled {
        return Refused(Interrupted);
      }
      DistinctBoth(list, candidates, sorted);
      r := ReplaceSorted(list, candidates, sorted, cancellable);
    }

    /** The rest of `Replace`, on candidates in span order. */
    method ReplaceSorted(list: seq<Replacement>, ghost candidates: seq<Candidate>, sorted: seq<Candidate>, cancellable: bool)
      returns (r: ReplaceResult)
      requires Valid() && Apart() && FromList(list, candidates) && Canonical(sorted) && SortedBySpan(sorted)
      requires (forall x :: x in sorted <==> x in candidates) && (DistinctOrdinals(sorted) <==> DistinctTokens(list))
      ensures r.Replaced? ==>
                DistinctTokens(list) && PickSize(strings, ChangesOf(list), 0) <= limits.replacementBytes
                && r.out == Rewritten(list) && (r.changed <==> ChangesOf(list) != map[])
      ensures r.Refused? ==>
                (r.error == OverlappingReplacements && !DistinctTokens(list))
                || (r.error == ReplacementLimit
                    && (!DistinctTokens(list) || PickSize(strings, ChangesOf(list), 0) > limits.replacementBytes))
                || (r.error == Interrupted && cancellable)
    {
      hide PickEdits, PickSize, Splice, Ordered, ParseText, IndexText, Fits, TextTotal, SpaceEnd;
      var error := CheckOverlap(sorted, cancellable);
      if error.Some? {
        return Refused(error.value);
      }
      Increasing(sorted);
      RequestsOf(list, candidates, sorted);
      var edits;
      edits, error := BuildEdits(sorted, ChangesOf(list), cancellable);
      if error.Some? {
        return Refused(error.value);
      }
      PickNone(strings, ChangesOf(list), 0);
      Rewritable(ChangesOf(list));
      if |edits| == 0 {
        NoChange(list);
        return Replaced(body, false);
      }
      PickFits(ChangesOf(list), 0);
      var size;
      r, size := SpliceEdits(body, edits, cancellable);
    }

    lemma NothingAsked(list: seq<Replacement>)
      requires list == []
      ensures ChangesOf(list) == map[] && PickEdits(strings, map[], 0) == [] && PickSize(strings, map[], 0) == 0
    {
      forall k: nat ensures k !in ChangesOf(list) {
        assert !Changed(list, k);
      }
      PickSkip(strings, map[], 0, |strings|);
    }

    lemma NoChange(list: seq<Replacement>)
      requires Valid() && PickEdits(strings, ChangesOf(list), 0) == []
      ensures Rewritten(list) == body
    {
      assert body[0..|body|] == body;
    }

    lemma SortedCanonical(list: seq<Replacement>, c: seq<Candidate>, s: seq<Candidate>)
      requires FromList(list, c) && (forall x :: x in s <==> x in c)
      ensures Canonical(s)
    {
      forall i | 0 <= i < |s| ensures s[i].ordinal < |strings| && s[i].entry == strings[s[i].ordinal] {
        assert s[i] in s;
      }
    }

    /** A list is free of repeated tokens exactly when its sorted candidates are. */
    lemma DistinctBoth(list: seq<Replacement>, c: seq<Candidate>, s: seq<Candidate>)
      requires FromList(list, c) && forall o: nat :: Occurs(s, o) == Occurs(c, o)
      ensures DistinctOrdinals(s) <==> DistinctTokens(list)
    {
      forall i, j | 0 <= i < j < |c| && c[i].ordinal == c[j].ordinal && DistinctOrdinals(s) ensures false {
        OccursDistinct(c, i, j);
        DistinctOccurs(s, c[i].ordinal);
      }
      forall i, j | 0 <= i < j < |s| && s[i].ordinal == s[j].ordinal && DistinctOrdinals(c) ensures false {
        OccursDistinct(s, i, j);
        DistinctOccurs(c, s[i].ordinal);
      }
      assert DistinctOrdinals(c) <==> DistinctTokens(list);
    }

    /** On a scanned document the edits never overlap and never overflow the output size. */
    lemma {:induction false} PickFits(changes: Changes, k: nat)
      requires Apart() && k <= |strings|
      ensures NonEmpty(PickEdits(strings, changes, k))
      ensures TextTotal(PickEdits(strings, changes, k)) == PickSize(strings, changes, k)
      decreases |strings| - k
    {
      if k < |strings| {
        PickFits(changes, k + 1);
        if k in changes {
          var e := Edit(strings[k].start, strings[k].end, Encode(changes[k]));
          assert PickEdits(strings, changes, k)[1..] == PickEdits(strings, changes, k + 1);
        }
      }
    }
  }

  lemma {:induction false} OrderedApart(from: nat, to: nat, edits: seq<Edit>, i: nat, j: nat)
    requires Ordered(from, to, edits) && i < j < |edits|
    ensures edits[i].end <= edits[j].start
    decreases i
  {
    if i == 0 {
      OrderedBound(edits[0].end, to, edits[1..]);
      assert edits[1..][j - 1] == edits[j];
    } else {
      OrderedApart(edits[0].end, to, edits[1..], i - 1, j - 1);
    }
  }

  lemma Increasing(s: seq<Candidate>)
    requires forall i :: 0 <= i < |s| - 1 ==> s[i].ordinal < s[i + 1].ordinal
    ensures forall i, j :: 0 <= i < j < |s| ==> s[i].ordinal < s[j].ordinal
  {
    forall i, j | 0 <= i < j < |s| ensures s[i].ordinal < s[j].ordinal {
      IncreasingTo(s, i, j);
    }
  }

  lemma {:induction false} IncreasingTo(s: seq<Candidate>, i: nat, j: nat)
    requires i < j < |s| && forall k :: 0 <= k < |s| - 1 ==> s[k].ordinal < s[k + 1].ordinal
    ensures s[i].ordinal < s[j].ordinal
    decreases j
  {
    assert s[j - 1].ordinal < s[j - 1 + 1].ordinal;
    if i < j - 1 { IncreasingTo(s, i, j - 1); }
  }

  lemma {:induction false} PickNone(strings: seq<Entry>, changes: Changes, k: nat)
    requires k <= |strings|
    ensures PickEdits(strings, changes, k) == [] <==> forall i :: k <= i < |strings| ==> i !in changes
    decreases |strings| - k
  {
    if k < |strings| { PickNone(strings, changes, k + 1); }
  }
}
