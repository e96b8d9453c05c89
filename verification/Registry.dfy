/** Walking one request: scan, tree, protocol walk, disposition sweep, result. */
module Registry {
  import opened ByteStrings
  import opened JsonGrammar
  import opened JsonIndex
  import opened Payload
  import opened KeyContext
  import opened ReplaceLaws
  import opened Names
  import opened Tree
  import opened Collecting
  import opened Selection
  import opened Shapes
  import opened OpenAI

  datatype Result = Result(
    document: Document, targets: seq<Target>, skipped: int, opaqueCount: nat, unsupportedCount: nat,
    unsupported: seq<UnsupportedShape>, jsonNodes: nat, structuralBytes: nat)

  /** What the decoder reads off a body: the tokens of its syntax tree. */
  function DecoderTokens(body: Bytes): seq<Token> {
    if ParseText(body).Some? then Tokens(ParseText(body).value.tree) else []
  }

  // ----- sorting the targets ----------------------------------------------

  function InsertTarget(t: Target, sorted: seq<Target>): seq<Target> {
    if sorted == [] || t.token.start <= sorted[0].token.start then [t] + sorted
    else [sorted[0]] + InsertTarget(t, sorted[1..])
  }

  function SortTargets(list: seq<Target>): seq<Target> {
    if list == [] then [] else InsertTarget(list[0], SortTargets(list[1..]))
  }

  predicate SortedByStart(list: seq<Target>) {
    forall i, j :: 0 <= i < j < |list| ==> list[i].token.start <= list[j].token.start
  }

  lemma {:induction false} InsertPermutes(t: Target, sorted: seq<Target>)
    ensures multiset(InsertTarget(t, sorted)) == multiset(sorted) + multiset{t}
  {
    if sorted != [] && t.token.start > sorted[0].token.start {
      InsertPermutes(t, sorted[1..]);
      assert sorted == [sorted[0]] + sorted[1..];
    }
  }

  lemma {:induction false} InsertSorted(t: Target, sorted: seq<Target>)
    requires SortedByStart(sorted)
    ensures SortedByStart(InsertTarget(t, sorted))
  {
    if sorted != [] && t.token.start > sorted[0].token.start {
      var rest := InsertTarget(t, sorted[1..]);
      InsertSorted(t, sorted[1..]);
      InsertPermutes(t, sorted[1..]);
      forall i | 0 <= i < |rest| ensures sorted[0].token.start <= rest[i].token.start {
        assert rest[i] in multiset(rest);
        assert rest[i] == t || rest[i] in sorted[1..];
      }
    }
  }

  /** Sorting only reorders. */
  lemma {:induction false} SortKeepsTargets(list: seq<Target>)
    ensures multiset(SortTargets(list)) == multiset(list) && SortedByStart(SortTargets(list))
  {
    if list != [] {
      SortKeepsTargets(list[1..]);
      InsertPermutes(list[0], SortTargets(list[1..]));
      InsertSorted(list[0], SortTargets(list[1..]));
      assert list == [list[0]] + list[1..];
    }
  }

  // ----- what a result promises -------------------------------------------

  /** Each target is a token of the document, in the context its keys, its scope and its kind
      give it, and no two are the same string. */
  ghost predicate GoodTargets(d: Document, list: seq<Target>)
    requires Arena(d.paths) && Refs(d.paths, d.strings)
  {
    (forall i :: 0 <= i < |list| ==> d.Owns(list[i].token) && Slots(list[i].context.fields) && InContext(list[i]))
    && forall i, j :: 0 <= i < j < |list| ==> list[i].token.ordinal != list[j].token.ordinal
  }

  lemma SortPicked(list: seq<Target>)
    ensures Picked(SortTargets(list)) == Picked(list)
  {
    var s := SortTargets(list);
    SortKeepsTargets(list);
    forall p | p in Picked(s) ensures p in Picked(list) {
      var i :| 0 <= i < |s| && PickOf(s[i]) == p;
      var k := Find(list, s, i);
      assert PickOf(list[k]) in Picked(list);
    }
    forall p | p in Picked(list) ensures p in Picked(s) {
      var i :| 0 <= i < |list| && PickOf(list[i]) == p;
      var k := Find(s, list, i);
      assert PickOf(s[k]) in Picked(s);
    }
  }

  lemma SortedGood(d: Document, list: seq<Target>)
    requires Arena(d.paths) && Refs(d.paths, d.strings) && GoodTargets(d, list)
    ensures GoodTargets(d, SortTargets(list)) && |SortTargets(list)| == |list| && Picked(SortTargets(list)) == Picked(list)
  {
    hide InContext;
    SortPicked(list);
    var s := SortTargets(list);
    SortKeepsTargets(list);
    assert |multiset(s)| == |multiset(list)|;
    forall i | 0 <= i < |s| ensures d.Owns(s[i].token) && Slots(s[i].context.fields) && InContext(s[i]) {
      var k := Find(list, s, i);
    }
    forall i, j | 0 <= i < j < |s| && s[i].token.ordinal == s[j].token.ordinal ensures false {
      if s[i] == s[j] {
        CountTwo(s, i, j);
        var a, b := TwoPlaces(list, s[i]);
      } else {
        var a := Find(list, s, i);
        var b := Find(list, s, j);
      }
    }
  }

  /** The strings of the document fall into three disjoint sets. */
  ghost predicate Partition(d: Document, targets: set<int>, opaques: set<int>, rejected: set<int>) {
    targets !! opaques && targets !! rejected && opaques !! rejected
    && targets + opaques + rejected == Starts(d.strings, 0)
    && |targets| + |opaques| + |rejected| == |d.strings|
  }

  /** The counts a caller sees. */
  ghost predicate Accounts(r: Result, targets: set<int>, opaques: set<int>, rejected: set<int>) {
    |r.targets| == |targets| && IdsOf(Picked(r.targets)) == targets && r.opaqueCount == |opaques|
    && r.skipped == |r.document.strings| - |r.targets|
    && r.unsupportedCount == |r.unsupported| && (r.unsupportedCount == 0 ==> rejected == {})
  }

  /** Without unsupported shapes every string was selected or protected on purpose. */
  lemma FullyDisposed(r: Result, targets: set<int>, opaques: set<int>, rejected: set<int>)
    requires Partition(r.document, targets, opaques, rejected) && Accounts(r, targets, opaques, rejected)
    requires r.unsupportedCount == 0
    ensures r.skipped == r.opaqueCount && |r.targets| + r.opaqueCount == |r.document.strings|
    ensures targets + opaques == Starts(r.document.strings, 0)
  {
    assert targets + opaques + {} == targets + opaques;
  }

  lemma Whole(d: Document, root: Node, targets: set<int>, opaques: set<int>, rejected: set<int>)
    requires Ids(root) == Starts(d.strings, 0) && |Ids(root)| == |d.strings|
    requires targets !! opaques && targets !! rejected && opaques !! rejected
    requires targets + opaques + rejected == Ids(root)
    ensures Partition(d, targets, opaques, rejected)
  {
    assert |targets + opaques| == |targets| + |opaques|;
    assert (targets + opaques) !! rejected;
    assert |targets + opaques + rejected| == |targets| + |opaques| + |rejected|;
  }

  // ----- the walk ---------------------------------------------------------

  method ValidateRootControls(c: Collector, root: Node) returns (error: Option<WalkError>)
    requires Ready(c, root) && root.ContainerNode? && root.isObject
    modifies c`opaques, c.budget
    ensures c.Valid() && c.Grew(Ids(root))
    ensures error.None? ==> c.Untouched(root, {KeyModel}) && c.opaques == old(c.opaques) + OwnIds(root, KeyModel)
    ensures error.Some? ==> c.Honest(error.value)
    ensures Judged(error, ModelShaped(root))
  {
    hide FieldShaped, Unambiguous, c.Valid, c.Suits, c.Untouched, Ids, KeyIds, FieldIds;
    ReadyObject(c, root);
    error := c.Unique(root, [KeyModel]);
    if error.Some? {
      return;
    }
    error := c.MarkOpaqueStringField(root, KeyModel, false, true, {});
    assert {} + {KeyModel} == {KeyModel};
  }

  /** Builds the result of a walk; any state the collector's own steps lead to will do. */
  method Finish(c: Collector) returns (r: Result)
    requires c.Valid() && c.document.Valid()
    ensures r.document == c.document && GoodTargets(c.document, r.targets) && SortedByStart(r.targets)
    ensures multiset(r.targets) == multiset(c.list) && Picked(r.targets) == c.picks
    ensures Accounts(r, c.targets, c.opaques, c.rejected)
    ensures r.jsonNodes == c.document.nodeCount && r.structuralBytes == c.budget.used <= c.budget.limit
  {
    hide InContext, IdsOf, ParseText, IndexText, Fits, SpaceEnd, Bounded, c.Paid;
    SortKeepsTargets(c.list);
    SortedGood(c.document, c.list);
    r := Result(c.document, SortTargets(c.list), |c.document.strings| - |c.list|, |c.opaques|, |c.unsupported|, c.unsupported,
                c.document.nodeCount, c.budget.used);
  }

  /** The sticky error wins over the one a step returned. */
  method Stick(c: Collector, error: WalkError) returns (e: WalkError)
    requires c.Valid() && c.Honest(error)
    ensures c.Honest(e) && (c.err.Some? ==> Some(e) == c.err && e == OutOfBudget) && (c.err.None? ==> e == error)
  {
    e := if c.err.Some? then c.err.value else error;
  }

  /** The sweep and the result after a protocol walk: every string of the document ends in
      exactly one of the three sets. */
  method Conclude(c: Collector, root: Node) returns (r: Option<Result>, error: Option<WalkError>)
    requires c.Valid() && c.Suits(root) && c.document.Valid() && root == RootNode(c.document)
    requires c.Disposed() <= Ids(root)
    modifies c, c.budget
    ensures c.Valid() && (r.Some? <==> error.None?)
    ensures c.targets == old(c.targets) && c.opaques == old(c.opaques) && c.picks == old(c.picks)
    ensures error.Some? ==> c.Honest(error.value)
    ensures Judged(error, true)
    ensures r.Some? ==>
              r.value.document == c.document && GoodTargets(c.document, r.value.targets) && SortedByStart(r.value.targets)
              && Partition(c.document, c.targets, c.opaques, c.rejected)
              && Accounts(r.value, c.targets, c.opaques, c.rejected) && Picked(r.value.targets) == c.picks
              && r.value.jsonNodes == c.document.nodeCount && r.value.structuralBytes <= c.budget.limit
  {
    hide Separate, Matches, Ids, Starts, SortedByStart, c.Paid, c.Lists, RootNode, Picked, IdsOf, GoodTargets, Accounts,
         InContext, ParseText, IndexText, Fits, SpaceEnd, Bounded, Partition;
    error := c.EnsureStringDisposition(root);
    if error.Some? {
      var e := Stick(c, error.value);
      return None, Some(e);
    }
    var canceled := ContextError(c.cancellable);
    if canceled {
      return None, Some(Cancelled);
    }
    RootFacts(c.document);
    Whole(c.document, root, c.targets, c.opaques, c.rejected);
    var result := Finish(c);
    r := Some(result);
  }

  /** A chat-completions request. A success partitions the strings of the body: the targets are
      exactly the request's model input, each with its scope, kind and mutability, the protected
      strings exactly its controls, and the rest is rejected; no failure is ever a mismatch
      between the two parses, the index, and the walk. */
  method Walk(sourceFormat: string, body: Bytes, options: LimitOptions, cancellable: bool)
    returns (r: Option<Result>, error: Option<WalkError>, ghost targets: set<int>, ghost opaques: set<int>, ghost rejected: set<int>)
    ensures r.Some? <==> error.None?
    ensures error.Some? ==> error.value != InternalMismatch && (error.value == Cancelled ==> cancellable)
    ensures r.Some? ==>
              var d := r.value.document;
              d.Valid() && d.body == body && Normalized(options) == Some(d.limits)
              && GoodTargets(d, r.value.targets) && SortedByStart(r.value.targets)
              && Partition(d, targets, opaques, rejected) && Accounts(r.value, targets, opaques, rejected)
              && Picked(r.value.targets) == RequestPicks(RootNode(d)) && opaques == RequestOpaques(RootNode(d))
              && targets == RequestTargets(RootNode(d))
              && r.value.jsonNodes == d.nodeCount && r.value.structuralBytes <= d.limits.structuralBytes
    ensures error == Some(UnknownFormat) <==> sourceFormat != "openai"
    ensures r.Some? ==> RequestShaped(BodyNode(body)) && Scannable(body, options)
    ensures error.Some? && (error.value.ShapeMismatch? || error.value.AmbiguousKey?) ==>
              ParseText(body).Some? && !RequestShaped(BodyNode(body))
    ensures error.Some? && error.value.NotScanned? && !cancellable ==> !Scannable(body, options)
    ensures !cancellable && sourceFormat == "openai" && Scannable(body, options) && RequestShaped(BodyNode(body)) ==>
              r.Some? || error == Some(OutOfBudget)
  {
    hide RequestShaped, IdsOf, Normalized, Separate, Matches, Ids, Starts, ParseText, IndexText, Fits, Tokens, TreeBytes,
         SortedByStart, Partition, Accounts, SpaceEnd, RequestPicks, RequestOpaques, RootNode;
    r, targets, opaques, rejected := None, {}, {}, {};
    if sourceFormat != "openai" {
      return None, Some(UnknownFormat), targets, opaques, rejected;
    }
    var document, failure := Document.ScanObject(body, options, cancellable);
    if failure.Some? {
      return None, Some(NotScanned(failure.value)), targets, opaques, rejected;
    }
    BodyRoot(document);
    r, error, targets, opaques, rejected := WalkDocument(document, cancellable);
    if r.Some? {
      TargetIds(r.value, targets, opaques, rejected);
    }
  }

  lemma TargetIds(r: Result, targets: set<int>, opaques: set<int>, rejected: set<int>)
    requires Accounts(r, targets, opaques, rejected)
    ensures IdsOf(Picked(r.targets)) == targets
  {
  }

  /** The tree of a body. */
  ghost function BodyNode(body: Bytes): Node
    requires ParseText(body).Some?
  {
    NodeOf(ParseText(body).value.tree, SpaceEnd(body, 0), 1, InvalidKind, ROOT_PATH, EMPTY)
  }

  lemma BodyRoot(d: Document)
    requires d.Valid()
    ensures ParseText(d.body).Some? && RootNode(d) == BodyNode(d.body)
  {
    hide NodeOf, IndexValue, Fits;
  }

  /** The body is an object in one JSON text, and it fits the limits. */
  ghost predicate Scannable(body: Bytes, options: LimitOptions) {
    var limits := Normalized(options);
    limits.Some? && |body| <= limits.value.bodyBytes && ParseText(body).Some? && Fits(IndexText(body).value, limits.value)
    && ParseText(body).value.tree.Container? && ParseText(body).value.tree.isObject
  }

  method WalkDocument(document: Document, cancellable: bool)
    returns (r: Option<Result>, error: Option<WalkError>, ghost targets: set<int>, ghost opaques: set<int>, ghost rejected: set<int>)
    requires document.Valid() && document.Tree().Container? && document.Tree().isObject
    ensures r.Some? <==> error.None?
    ensures error.Some? ==> error.value != InternalMismatch && (error.value == Cancelled ==> cancellable)
    ensures r.Some? ==>
              r.value.document == document && GoodTargets(document, r.value.targets) && SortedByStart(r.value.targets)
              && Partition(document, targets, opaques, rejected) && Accounts(r.value, targets, opaques, rejected)
              && Picked(r.value.targets) == RequestPicks(RootNode(document)) && opaques == RequestOpaques(RootNode(document))
              && r.value.jsonNodes == document.nodeCount && r.value.structuralBytes <= document.limits.structuralBytes
    ensures Judged(error, RequestShaped(RootNode(document)))
    ensures error.Some? ==> error.value.ShapeMismatch? || error.value.AmbiguousKey? || error.value.OutOfBudget? || error.value.Cancelled?
  {
    hide RequestShaped, Separate, Matches, Ids, Starts, ParseText, IndexText, Fits, Tokens, TreeBytes, SortedByStart,
         Partition, Accounts, SpaceEnd, GoodTargets, Bounded, RequestPicks, RequestOpaques, RootNode, Collector.Lists,
         Collector.Paid;
    r, targets, opaques, rejected := None, {}, {}, {};
    var root, arena, budget;
    DecodedTokens(document);
    root, arena, budget, error := ParseTree(document, DecoderTokens(document.body), cancellable);
    if error.Some? {
      return None, error, targets, opaques, rejected;
    }
    r, error, targets, opaques, rejected := WalkTree(document, root, arena, budget, cancellable);
  }

  /** The protocol walk over the tree, with what the scanner and the tree left of the budget. */
  method WalkTree(document: Document, root: Node, arena: seq<TreePathNode>, budget: TreeBudget, cancellable: bool)
    returns (r: Option<Result>, error: Option<WalkError>, ghost targets: set<int>, ghost opaques: set<int>, ghost rejected: set<int>)
    requires document.Valid() && document.Tree().Container? && document.Tree().isObject
    requires root == RootNode(document) && budget.Valid()
    modifies budget
    ensures r.Some? <==> error.None?
    ensures error.Some? ==>
              error.value.ShapeMismatch? || error.value.AmbiguousKey? || error.value.OutOfBudget? || (error.value.Cancelled? && cancellable)
    ensures r.Some? ==>
              r.value.document == document && GoodTargets(document, r.value.targets) && SortedByStart(r.value.targets)
              && Partition(document, targets, opaques, rejected) && Accounts(r.value, targets, opaques, rejected)
              && Picked(r.value.targets) == RequestPicks(RootNode(document)) && opaques == RequestOpaques(RootNode(document))
              && r.value.jsonNodes == document.nodeCount && r.value.structuralBytes <= budget.limit
    ensures Judged(error, RequestShaped(root))
    ensures error == Some(OutOfBudget) ==> budget.Valid() && budget.denied.Some?
  {
    hide RequestShaped, Separate, Matches, Ids, Starts, ParseText, IndexText, Fits, SortedByStart, Partition, Accounts,
         SpaceEnd, GoodTargets, Bounded, RequestPicks, RequestOpaques, RootNode, Picked, Collector.Lists, Collector.Paid;
    r, targets, opaques, rejected := None, {}, {}, {};
    RootFacts(document);
    var c := new Collector(document, arena, budget, cancellable);
    RootIsObject(document);
    error := WalkRoot(c, root);
    if error.Some? {
      var e := Stick(c, error.value);
      return None, Some(e), targets, opaques, rejected;
    }
    if c.err.Some? {
      return None, c.err, targets, opaques, rejected;
    }
    r, error := Conclude(c, root);
    targets, opaques, rejected := c.targets, c.opaques, c.rejected;
  }

  lemma DecodedTokens(d: Document)
    requires d.Valid()
    ensures DecoderTokens(d.body) == Tokens(d.Tree())
  {
  }

  method WalkRoot(c: Collector, root: Node) returns (error: Option<WalkError>)
    requires Ready(c, root) && NodeKind(root) == ObjectKind
    modifies c, c.budget
    ensures c.Valid() && c.Grew(Ids(root))
    ensures error.None? ==> c.picks == old(c.picks) + RequestPicks(root) && c.opaques == old(c.opaques) + RequestOpaques(root)
    ensures error.Some? ==> c.Honest(error.value)
    ensures Judged(error, RequestShaped(root))
  {
    hide ModelShaped, WalkShaped, c.Valid, c.Suits, c.Untouched, Ids, KeyIds, FieldIds, RequestPicks, RequestOpaques;
    ModelProtected(root);
    error := ValidateRootControls(c, root);
    if error.Some? {
      return;
    }
    error := WalkOpenAI(c, root);
  }

  lemma ModelProtected(root: Node)
    ensures OwnIds(root, KeyModel) <= RequestOpaques(root)
  {
    hide OwnIds, NamedIds, ListUnion, PredictionOpaques, DefinitionsOpaques;
  }

  lemma RootIsObject(d: Document)
    requires d.Valid() && d.Tree().Container? && d.Tree().isObject
    ensures NodeKind(RootNode(d)) == ObjectKind
  {
    hide ParseText, IndexText, SpaceEnd;
  }

  // ----- targets and replacement ------------------------------------------

  /** Replacements for some of the targets, in any order. */
  function Choice(targets: seq<Target>, picks: seq<nat>, values: seq<Bytes>): (list: seq<Replacement>)
    requires |picks| == |values| && forall i :: 0 <= i < |picks| ==> picks[i] < |targets|
    ensures |list| == |picks|
  {
    seq(|picks|, i requires 0 <= i < |picks| => Replacement(targets[picks[i]].token, values[i]))
  }

  /** Any choice of different targets, with any values, is made of the document's own tokens,
      each at most once, so `Replace` never refuses it as invalid or overlapping; a choice
      that repeats a target it always refuses. */
  lemma TargetsFit(d: Document, targets: seq<Target>, picks: seq<nat>, values: seq<Bytes>)
    requires d.Valid() && GoodTargets(d, targets)
    requires |picks| == |values| && forall i :: 0 <= i < |picks| ==> picks[i] < |targets|
    ensures d.AllOwned(Choice(targets, picks, values))
    ensures Document.DistinctTokens(Choice(targets, picks, values))
            <==> forall i, j :: 0 <= i < j < |picks| ==> picks[i] != picks[j]
    ensures !Document.DistinctTokens(Choice(targets, picks, values)) ==> !d.Accepts(Choice(targets, picks, values))
  {
    hide ParseText, IndexText, Fits, SpaceEnd, PathOf;
    var list := Choice(targets, picks, values);
    assert forall i :: 0 <= i < |list| ==> list[i].token == targets[picks[i]].token;
    forall i, j | 0 <= i < j < |picks|
      ensures list[i].token.ordinal == list[j].token.ordinal <==> picks[i] == picks[j]
    {
      var a, b := picks[i], picks[j];
      assert a < b ==> targets[a].token.ordinal != targets[b].token.ordinal;
      assert b < a ==> targets[b].token.ordinal != targets[a].token.ordinal;
    }
  }
}
