/** The second parse: a tree of the request built from the decoder's token stream, and the
    proof that it always agrees with the scanner's string index. */
module Tree {
  import opened ByteStrings
  import opened JsonStrings
  import opened JsonGrammar
  import opened JsonIndex
  import opened Splicing
  import opened Payload

  const TREE_NODE_BYTES := 128
  const TREE_PATH_BYTES := 64
  const TREE_MEMBER_BYTES := 64
  const TREE_ARRAY_BYTES := 16
  const TREE_STRING_BYTES := 64

  /** Array elements are items whose key is empty. `path` refers to the tree's path arena;
      `start` and `ordinal` identify a string in the payload index. */
  datatype Node =
    | StringNode(path: int, value: Bytes, start: nat, end: nat, ordinal: nat)
    | ContainerNode(path: int, isObject: bool, items: seq<Item>)
    | ScalarNode(path: int, scalar: Scalar)

  datatype Scalar = NumberScalar | BooleanScalar | NullScalar

  datatype Item = Item(key: Bytes, value: Node)

  function NodeKind(n: Node): Kind {
    match n
    case StringNode(_, _, _, _, _) => StringKind
    case ContainerNode(_, isObject, _) => ContainerKind(isObject)
    case ScalarNode(_, scalar) =>
      if scalar.NumberScalar? then NumberKind else if scalar.BooleanScalar? then BooleanKind else NullKind
  }

  // ----- the strings below a node -----------------------------------------

  /** Start offsets of the string values below the node. */
  function Ids(n: Node): set<int> {
    match n
    case StringNode(_, _, start, _, _) => {start as int}
    case ContainerNode(_, _, items) => set i, x | 0 <= i < |items| && x in Ids(items[i].value) :: x
    case ScalarNode(_, _) => {}
  }

  function PrefixIds(items: seq<Item>, n: nat): set<int>
    requires n <= |items|
  {
    set i, x | 0 <= i < n && x in Ids(items[i].value) :: x
  }

  lemma PrefixNext(items: seq<Item>, n: nat)
    requires n < |items|
    ensures PrefixIds(items, n + 1) == PrefixIds(items, n) + Ids(items[n].value)
  {
  }

  /** No string occurs twice below the node. */
  predicate Separate(n: Node) {
    n.ContainerNode? ==>
      (forall i :: 0 <= i < |n.items| ==> Separate(n.items[i].value))
      && forall i, j :: 0 <= i < j < |n.items| ==> Ids(n.items[i].value) !! Ids(n.items[j].value)
  }

  /** Every string node is the index entry with its ordinal. */
  predicate Matches(n: Node, strings: seq<Entry>) {
    match n
    case StringNode(path, value, start, end, ordinal) =>
      ordinal < |strings|
      && var e := strings[ordinal]; e.value == value && e.start == start && e.end == end && e.pathRef == path
    case ContainerNode(_, _, items) => forall i :: 0 <= i < |items| ==> Matches(items[i].value, strings)
    case ScalarNode(_, _) => true
  }

  // ----- the tree of a syntax tree ----------------------------------------

  /** The node built for `v`, when `st` is what the scanner had retained before it. */
  function NodeOf(v: Value, pos: nat, depth: nat, parent: Kind, path: int, st: ScanState): Node {
    match v
    case Literal(word) => ScalarNode(path, if word.Null? then NullScalar else BooleanScalar)
    case Number(_) => ScalarNode(path, NumberScalar)
    case String(body) => StringNode(path, Decode(body), pos, pos + |body| + 2, |st.strings|)
    case Container(isObject, lead, items) =>
      ContainerNode(path, isObject, ItemsOf(items, isObject, 0, pos + 1 + |lead|, depth, path, AddNode(st, depth)))
  }

  function ItemsOf(items: Items, isObject: bool, i: nat, pos: nat, depth: nat, path: int, st: ScanState): seq<Item> {
    match items
    case Nil => []
    case Cons(tag, value, after, sep, rest) =>
      var q := pos + |LabelBytes(tag)|;
      var s := q + |ValueBytes(value)| + |after| + |SeparatorBytes(sep, rest)|;
      var st1 := IndexLabel(tag, i, path, st);
      [Item(KeyBytes(tag), NodeOf(value, q, depth + 1, ContainerKind(isObject), |st.paths|, st1))]
      + ItemsOf(rest, isObject, i + 1, s, depth, path,
                IndexValue(value, q, depth + 1, ContainerKind(isObject), |st.paths|, st1))
  }

  function KeyBytes(tag: Label): Bytes {
    match tag
    case Element => []
    case Member(name, _, _) => Decode(name)
  }

  predicate Between(s: set<int>, from: int, to: int) {
    forall x :: x in s ==> from <= x < to
  }

  predicate Within(n: Node, from: int, to: int) { Between(Ids(n), from, to) }

  /** The starts of the entries `from..` of an index. */
  function Starts(strings: seq<Entry>, from: nat): set<int> {
    set k | from <= k < |strings| :: strings[k].start as int
  }

  lemma {:induction false} MatchesGrow(n: Node, strings: seq<Entry>, strings': seq<Entry>)
    requires Matches(n, strings) && strings <= strings'
    ensures Matches(n, strings')
  {
    if n.ContainerNode? {
      forall i | 0 <= i < |n.items| ensures Matches(n.items[i].value, strings') {
        MatchesGrow(n.items[i].value, strings, strings');
      }
    }
  }

  lemma StartsJoin(a: seq<Entry>, b: seq<Entry>, from: nat)
    requires a <= b && from <= |a|
    ensures Starts(b, from) == Starts(a, from) + Starts(b, |a|)
  {
  }

  predicate SeparateItems(items: seq<Item>) {
    (forall i :: 0 <= i < |items| ==> Separate(items[i].value))
    && forall i, j :: 0 <= i < j < |items| ==> Ids(items[i].value) !! Ids(items[j].value)
  }

  predicate MatchItems(items: seq<Item>, strings: seq<Entry>) {
    forall i :: 0 <= i < |items| ==> Matches(items[i].value, strings)
  }

  /** Ids of a list whose first item lies before `mid` and whose other items lie from `mid` on. */
  lemma ItemsCons(head: Item, rest: seq<Item>, from: int, mid: int, to: int)
    requires Within(head.value, from, mid) && from <= mid <= to && SeparateItems(rest) && Separate(head.value)
    requires Between(PrefixIds(rest, |rest|), mid, to)
    ensures SeparateItems([head] + rest)
    ensures PrefixIds([head] + rest, 1 + |rest|) == Ids(head.value) + PrefixIds(rest, |rest|)
    ensures Ids(head.value) !! PrefixIds(rest, |rest|)
    ensures Between(PrefixIds([head] + rest, 1 + |rest|), from, to)
  {
    hide Ids, Separate;
    var all := [head] + rest;
    assert forall i :: 1 <= i < |all| ==> all[i] == rest[i - 1];
    forall i, j | 0 <= i < j < |all| ensures Ids(all[i].value) !! Ids(all[j].value) {
      PrefixHolds(rest, j - 1);
    }
    forall x ensures x in PrefixIds(all, |all|) <==> x in Ids(head.value) || x in PrefixIds(rest, |rest|) {
      if x in Ids(head.value) {
        assert x in Ids(all[0].value);
      }
      if x in PrefixIds(rest, |rest|) {
        var i :| 0 <= i < |rest| && x in Ids(rest[i].value);
        assert x in Ids(all[i + 1].value);
      }
    }
  }

  lemma PrefixHolds(items: seq<Item>, i: nat)
    requires i < |items|
    ensures Ids(items[i].value) <= PrefixIds(items, |items|)
  {
  }

  lemma EmptyItems(strings: seq<Entry>)
    ensures SeparateItems([]) && MatchItems([], strings) && PrefixIds([], 0) == {} == Starts(strings, |strings|)
    ensures forall from: int, to: int :: Between({}, from, to)
  {
  }

  lemma MatchCons(head: Item, rest: seq<Item>, strings: seq<Entry>)
    requires Matches(head.value, strings) && MatchItems(rest, strings)
    ensures MatchItems([head] + rest, strings)
  {
  }

  /** The node's strings are exactly the entries the scanner indexed for `v`, each once. */
  lemma {:induction false} NodeFacts(v: Value, pos: nat, depth: nat, parent: Kind, path: int, st: ScanState)
    ensures var n := NodeOf(v, pos, depth, parent, path, st); var r := IndexValue(v, pos, depth, parent, path, st).strings;
            st.strings <= r && |r| == |st.strings| + StringCount(v)
            && Within(n, pos, pos + |ValueBytes(v)|) && Separate(n) && Matches(n, r)
            && Ids(n) == Starts(r, |st.strings|) && |Ids(n)| == StringCount(v)
    decreases v
  {
    hide LabelBytes, SeparatorBytes, Capacity, Decode, Ids, Separate, Matches, Within, Between, Starts, SeparateItems,
         MatchItems, PrefixIds;
    if v.Container? {
      var n := NodeOf(v, pos, depth, parent, path, st);
      ItemsFacts(v.items, v.isObject, 0, pos + 1 + |v.lead|, depth, path, AddNode(st, depth));
      ContainerFacts(n, IndexValue(v, pos, depth, parent, path, st).strings);
      BetweenWider(Ids(n), pos + 1 + |v.lead|, pos + |ValueBytes(v)|, pos, pos + |ValueBytes(v)|);
      WithinIds(n, pos, pos + |ValueBytes(v)|);
    } else {
      LeafFacts(v, pos, depth, parent, path, st);
    }
  }

  lemma WithinIds(n: Node, from: int, to: int)
    ensures Within(n, from, to) <==> Between(Ids(n), from, to)
  {
  }

  lemma ContainerFacts(n: Node, strings: seq<Entry>)
    requires n.ContainerNode?
    ensures Ids(n) == PrefixIds(n.items, |n.items|)
    ensures Separate(n) <==> SeparateItems(n.items)
    ensures Matches(n, strings) <==> MatchItems(n.items, strings)
  {
  }

  lemma LeafFacts(v: Value, pos: nat, depth: nat, parent: Kind, path: int, st: ScanState)
    requires !v.Container?
    ensures var n := NodeOf(v, pos, depth, parent, path, st); var r := IndexValue(v, pos, depth, parent, path, st).strings;
            st.strings <= r && |r| == |st.strings| + StringCount(v)
            && Within(n, pos, pos + |ValueBytes(v)|) && Separate(n) && Matches(n, r)
            && Ids(n) == Starts(r, |st.strings|) && |Ids(n)| == StringCount(v)
  {
    hide LabelBytes, SeparatorBytes, Capacity, Decode;
  }

  lemma {:induction false} ItemsFacts(items: Items, isObject: bool, i: nat, pos: nat, depth: nat, path: int, st: ScanState)
    ensures var its := ItemsOf(items, isObject, i, pos, depth, path, st);
            var r := IndexItems(items, isObject, i, pos, depth, path, st).strings;
            st.strings <= r && |r| == |st.strings| + ItemStrings(items)
            && SeparateItems(its) && MatchItems(its, r)
            && Between(PrefixIds(its, |its|), pos, pos + |ItemsBytes(items, isObject)|)
            && PrefixIds(its, |its|) == Starts(r, |st.strings|) && |PrefixIds(its, |its|)| == ItemStrings(items)
    decreases items
  {
    hide ValueBytes, LabelBytes, SeparatorBytes, Capacity, Decode, Ids, Separate, Matches, IndexValue, NodeOf, SeparateItems,
         MatchItems, PrefixIds, Starts, Between;
    EmptyItems(st.strings);
    var its := ItemsOf(items, isObject, i, pos, depth, path, st);
    if items.Cons? {
      var q := pos + |LabelBytes(items.tag)|;
      var s := q + |ValueBytes(items.value)| + |items.after| + |SeparatorBytes(items.sep, items.rest)|;
      var st1 := IndexLabel(items.tag, i, path, st);
      assert st1.strings == st.strings;
      var st2 := IndexValue(items.value, q, depth + 1, ContainerKind(isObject), |st.paths|, st1);
      var r := IndexItems(items.rest, isObject, i + 1, s, depth, path, st2).strings;
      NodeFacts(items.value, q, depth + 1, ContainerKind(isObject), |st.paths|, st1);
      ItemsFacts(items.rest, isObject, i + 1, s, depth, path, st2);
      var head, rest := its[0], ItemsOf(items.rest, isObject, i + 1, s, depth, path, st2);
      assert its == [head] + rest;
      BetweenWider(Ids(head.value), q, q + |ValueBytes(items.value)|, pos, s);
      ItemsCons(head, rest, pos, s, pos + |ItemsBytes(items, isObject)|);
      MatchesGrow(head.value, st2.strings, r);
      MatchCons(head, rest, r);
      StartsJoin(st2.strings, r, |st.strings|);
    }
  }

  lemma BetweenWider(s: set<int>, from: int, to: int, from': int, to': int)
    requires Between(s, from, to) && from' <= from && to <= to'
    ensures Between(s, from', to')
  {
  }

  // ----- the decoder's token stream ---------------------------------------

  datatype Token =
    | OpenToken(isObject: bool)
    | CloseToken(isObject: bool)
    | TextToken(value: Bytes)
    | NumberToken
    | BoolToken(holds: bool)
    | NullToken

  function Tokens(v: Value): (r: seq<Token>)
    ensures r != [] && !r[0].CloseToken?
  {
    match v
    case Literal(word) => if word.Null? then [NullToken] else [BoolToken(word.True?)]
    case Number(_) => [NumberToken]
    case String(body) => [TextToken(Decode(body))]
    case Container(isObject, _, items) => [OpenToken(isObject)] + ItemTokens(items, isObject)
  }

  /** The items' tokens, then the closing delimiter. */
  function ItemTokens(items: Items, isObject: bool): (r: seq<Token>)
    ensures r != [] && (r[0].CloseToken? <==> items.Nil?)
  {
    match items
    case Nil => [CloseToken(isObject)]
    case Cons(tag, value, _, _, rest) =>
      (if isObject then [TextToken(KeyBytes(tag))] else []) + Tokens(value) + ItemTokens(rest, isObject)
  }

  predicate Reads(tokens: seq<Token>, i: nat, j: nat, x: seq<Token>) {
    i <= j <= |tokens| && tokens[i..j] == x
  }

  lemma ReadsSplit(tokens: seq<Token>, i: nat, j: nat, x: seq<Token>, y: seq<Token>) returns (m: nat)
    requires Reads(tokens, i, j, x + y)
    ensures Reads(tokens, i, m, x) && Reads(tokens, m, j, y) && m == i + |x|
  {
    m := i + |x|;
    assert tokens[i..m] == (x + y)[..|x|];
    assert tokens[m..j] == (x + y)[|x|..];
  }

  lemma ReadsFirst(tokens: seq<Token>, i: nat, j: nat, x: seq<Token>)
    requires Reads(tokens, i, j, x) && x != []
    ensures i < j && tokens[i] == x[0] && Reads(tokens, i + 1, j, x[1..])
  {
  }

  // ----- what the tree costs ----------------------------------------------

  function Slot(n: nat): nat {
    CapacityStep(n);
    Capacity(n + 1) - Capacity(n)
  }

  function ItemBytes(isObject: bool): nat { if isObject then TREE_MEMBER_BYTES else TREE_ARRAY_BYTES }

  function PathCount(v: Value): nat { if v.Container? then ItemPathCount(v.items) else 0 }

  function ItemPathCount(items: Items): nat {
    match items
    case Nil => 0
    case Cons(_, value, _, _, rest) => 1 + PathCount(value) + ItemPathCount(rest)
  }

  /** Charges for the tree of `v` when the path arena holds `n` nodes. */
  function TreeBytes(v: Value, n: nat): nat {
    TREE_NODE_BYTES
    + match v
      case String(body) => TREE_STRING_BYTES + |Decode(body)|
      case Container(isObject, _, items) => ItemTreeBytes(items, isObject, 0, n)
      case _ => 0
  }

  /** An item's key, its path node and its slot in the container. */
  function SlotBytes(tag: Label, isObject: bool, i: nat, n: nat): nat {
    |KeyBytes(tag)| + Slot(n) * TREE_PATH_BYTES + Slot(i) * ItemBytes(isObject)
  }

  function ItemTreeBytes(items: Items, isObject: bool, i: nat, n: nat): nat {
    match items
    case Nil => 0
    case Cons(tag, value, _, _, rest) =>
      SlotBytes(tag, isObject, i, n) + TreeBytes(value, n + 1)
      + ItemTreeBytes(rest, isObject, i + 1, n + 1 + PathCount(value))
  }

  lemma {:induction false} IndexPaths(v: Value, pos: nat, depth: nat, parent: Kind, path: int, st: ScanState)
    ensures |IndexValue(v, pos, depth, parent, path, st).paths| == |st.paths| + PathCount(v)
    decreases v
  {
    hide ValueBytes, LabelBytes, SeparatorBytes, Capacity, Decode;
    if v.Container? {
      ItemPaths(v.items, v.isObject, 0, pos + 1 + |v.lead|, depth, path, AddNode(st, depth));
    }
  }

  lemma {:induction false} ItemPaths(items: Items, isObject: bool, i: nat, pos: nat, depth: nat, path: int, st: ScanState)
    ensures |IndexItems(items, isObject, i, pos, depth, path, st).paths| == |st.paths| + ItemPathCount(items)
    decreases items
  {
    hide ValueBytes, LabelBytes, SeparatorBytes, Capacity, Decode, IndexValue;
    if items.Cons? {
      var q := pos + |LabelBytes(items.tag)|;
      var s := q + |ValueBytes(items.value)| + |items.after| + |SeparatorBytes(items.sep, items.rest)|;
      var st1 := IndexLabel(items.tag, i, path, st);
      IndexPaths(items.value, q, depth + 1, ContainerKind(isObject), |st.paths|, st1);
      ItemPaths(items.rest, isObject, i + 1, s, depth, path,
                IndexValue(items.value, q, depth + 1, ContainerKind(isObject), |st.paths|, st1));
    }
  }

  // ----- errors and the structural budget ---------------------------------

  datatype WalkError =
    | ShapeMismatch
    | AmbiguousKey
    | OutOfBudget
    | Cancelled
    | InternalMismatch
    | UnknownFormat
    | NotScanned(failure: Failure)

  method NextTreeCapacity(current: nat, required: nat) returns (r: nat)
    ensures r == Doubled(if current == 0 then 16 else current, required)
  {
    r := if current == 0 then 16 else current;
    while r < required
      invariant r > 0 && Doubled(r, required) == Doubled(if current == 0 then 16 else current, required)
      decreases required - r
    {
      r := r * 2;
    }
  }

  class TreeBudget {
    const limit: nat
    var used: nat
    /** A charge that was refused because it did not fit, if there ever was one. */
    ghost var denied: Option<nat>

    ghost predicate Valid()
      reads this
    {
      used <= limit <= MAX_INT && (denied.Some? ==> used + denied.value > limit)
    }

    constructor (used: nat, limit: nat)
      ensures this.used == used && this.limit == limit && denied.None?
    {
      this.used, this.limit, denied := used, limit, None;
    }

    /** Charges before anything is allocated; a refused charge changes nothing. */
    method Retain(bytes: nat) returns (error: Option<WalkError>)
      requires Valid()
      modifies this
      ensures Valid() && (error.None? <==> old(used) + bytes <= limit)
      ensures error.None? ==> used == old(used) + bytes && denied == old(denied)
      ensures error.Some? ==> used == old(used) && error.value == OutOfBudget && denied == Some(bytes)
    {
      if bytes > limit - used {
        Deny(bytes);
        return Some(OutOfBudget);
      }
      used := used + bytes;
      error := None;
    }

    /** Notes a charge that does not fit. */
    ghost method Deny(bytes: nat)
      requires Valid() && used + bytes > limit
      modifies `denied
      ensures Valid() && denied == Some(bytes)
    {
      denied := Some(bytes);
    }
  }

  // ----- the arena --------------------------------------------------------

  datatype TreePathNode = TreePathNode(parent: int, segment: PathSegment, depth: nat)

  function DepthOf(arena: seq<TreePathNode>, ref: int): nat {
    if 0 <= ref < |arena| then arena[ref].depth else 0
  }

  /** The tree's arena is the scanner's, node by node, with depths. */
  predicate SamePaths(arena: seq<TreePathNode>, paths: seq<PathNode>) {
    |arena| == |paths|
    && forall i :: 0 <= i < |arena| ==>
         arena[i].parent == paths[i].parent && arena[i].segment == paths[i].segment
         && -1 <= arena[i].parent < i && arena[i].depth == DepthOf(arena, arena[i].parent) + 1
  }

  lemma SameLength(arena: seq<TreePathNode>, paths: seq<PathNode>)
    requires SamePaths(arena, paths)
    ensures |arena| == |paths|
  {
  }

  lemma SamePathsAdd(arena: seq<TreePathNode>, paths: seq<PathNode>, parent: int, segment: PathSegment)
    requires SamePaths(arena, paths) && -1 <= parent < |arena|
    ensures SamePaths(arena + [TreePathNode(parent, segment, DepthOf(arena, parent) + 1)], paths + [PathNode(parent, segment)])
  {
    var now := arena + [TreePathNode(parent, segment, DepthOf(arena, parent) + 1)];
    assert forall r :: -1 <= r < |arena| ==> DepthOf(now, r) == DepthOf(arena, r);
  }

  lemma {:induction false} DepthIsLength(arena: seq<TreePathNode>, paths: seq<PathNode>, ref: int)
    requires SamePaths(arena, paths) && Arena(paths) && -1 <= ref < |paths|
    ensures DepthOf(arena, ref) == |PathOf(paths, ref)|
    decreases ref + 1
  {
    if ref >= 0 {
      DepthIsLength(arena, paths, paths[ref].parent);
    }
  }

  /** Reads a path off the tree's arena; it is the path the scanner would materialise. */
  method Clone(arena: seq<TreePathNode>, ref: int, ghost paths: seq<PathNode>) returns (path: Path)
    requires SamePaths(arena, paths) && Arena(paths) && -1 <= ref < |paths|
    ensures path == PathOf(paths, ref)
  {
    DepthIsLength(arena, paths, ref);
    if ref < 0 {
      return [];
    }
    var depth := arena[ref].depth;
    path := seq(depth, _ => Index(0));
    var current := ref;
    var index: int := depth - 1;
    while current >= 0
      invariant -1 <= current < |paths| && |path| == depth == |PathOf(paths, ref)|
      invariant index + 1 == |PathOf(paths, current)| && index < depth
      invariant PathOf(paths, current) + path[index + 1..] == PathOf(paths, ref)
      decreases current
    {
      ghost var tail := path[index + 1..];
      ghost var here := PathOf(paths, current);
      path := path[index := arena[current].segment];
      assert path[index..] == [arena[current].segment] + tail;
      current, index := arena[current].parent, index - 1;
      assert here + tail == PathOf(paths, current) + path[index + 1..];
    }
    assert path[0..] == path && [] + path == path;
  }

  // ----- the parser -------------------------------------------------------

  class TreeParser {
    const document: Document
    const tokens: seq<Token>
    const budget: TreeBudget
    const cancellable: bool
    var pos: nat
    var stringPos: nat
    var arena: seq<TreePathNode>
    var arenaCap: nat

    constructor (document: Document, tokens: seq<Token>, budget: TreeBudget, cancellable: bool)
      ensures this.document == document && this.tokens == tokens && this.budget == budget && this.cancellable == cancellable
      ensures pos == 0 && stringPos == 0 && arena == [] && arenaCap == 0
    {
      this.document, this.tokens, this.budget, this.cancellable := document, tokens, budget, cancellable;
      pos, stringPos, arena, arenaCap := 0, 0, [], 0;
    }

    /** The parser stands where the scanner stood in state `st`. */
    ghost predicate InStep(st: ScanState)
      reads this, budget
    {
      budget.Valid() && pos <= |tokens| && arenaCap == Capacity(|arena|)
      && SamePaths(arena, st.paths) && stringPos == |st.strings|
    }

    ghost predicate DepthAt(path: int, depth: nat)
      reads this
    {
      -1 <= path < |arena| && depth == DepthOf(arena, path) + 1
    }

    predicate More()
      reads this
    {
      pos < |tokens| && !tokens[pos].CloseToken?
    }

    method NextToken() returns (token: Option<Token>)
      modifies `pos
      ensures old(pos) < |tokens| ==> token == Some(tokens[old(pos)]) && pos == old(pos) + 1
      ensures old(pos) >= |tokens| ==> token.None? && pos == old(pos)
    {
      if pos >= |tokens| {
        return None;
      }
      token := Some(tokens[pos]);
      pos := pos + 1;
    }

    /** Adds a path node, charging for the key and for the arena's growth first. */
    method AppendPath(parent: int, segment: PathSegment, keyBytes: nat, ghost paths: seq<PathNode>)
      returns (ref: int, error: Option<WalkError>)
      requires budget.Valid() && arenaCap == Capacity(|arena|) && SamePaths(arena, paths) && -1 <= parent < |arena|
      modifies `arena, `arenaCap, budget
      ensures budget.Valid() && arenaCap == Capacity(|arena|)
      ensures error.None? ==>
                ref == |old(arena)| && SamePaths(arena, paths + [PathNode(parent, segment)])
                && arena == old(arena) + [TreePathNode(parent, segment, DepthOf(old(arena), parent) + 1)]
                && budget.used == old(budget.used) + keyBytes + Slot(|old(arena)|) * TREE_PATH_BYTES
      ensures error.Some? ==>
                error.value == OutOfBudget && arena == old(arena)
                && old(budget.used) + keyBytes + Slot(|old(arena)|) * TREE_PATH_BYTES > budget.limit
    {
      hide SamePaths, Capacity, Slot;
      error := ReservePath(keyBytes);
      if error.Some? {
        return -1, error;
      }
      SamePathsAdd(arena, paths, parent, segment);
      var depth := DepthOf(arena, parent) + 1;
      ref := |arena|;
      arena := arena + [TreePathNode(parent, segment, depth)];
    }

    /** Charges for one more path node: its key, and the arena's growth when it is full. */
    method ReservePath(keyBytes: nat) returns (error: Option<WalkError>)
      requires budget.Valid() && arenaCap == Capacity(|arena|)
      modifies `arenaCap, budget
      ensures budget.Valid() && arenaCap == Capacity(if error.None? then |arena| + 1 else |arena|)
      ensures error.None? ==> budget.used == old(budget.used) + keyBytes + Slot(|arena|) * TREE_PATH_BYTES
      ensures error.Some? ==>
                error.value == OutOfBudget && old(budget.used) + keyBytes + Slot(|arena|) * TREE_PATH_BYTES > budget.limit
    {
      hide Capacity, Doubled;
      CapacityStep(|arena|);
      CapacityNone();
      var charge := keyBytes;
      var newCap := arenaCap;
      if |arena| == arenaCap {
        newCap := NextTreeCapacity(arenaCap, |arena| + 1);
        charge := charge + (newCap - arenaCap) * TREE_PATH_BYTES;
      }
      error := budget.Retain(charge);
      if error.None? {
        arenaCap := newCap;
      }
    }

    /** Reserves the slot of the next item of a container. */
    method ReserveItem(count: nat, cap: nat, isObject: bool) returns (newCap: nat, error: Option<WalkError>)
      requires budget.Valid() && cap == Capacity(count)
      modifies budget
      ensures budget.Valid()
      ensures error.None? ==>
                newCap == Capacity(count + 1) && budget.used == old(budget.used) + Slot(count) * ItemBytes(isObject)
      ensures error.Some? ==> error.value == OutOfBudget && old(budget.used) + Slot(count) * ItemBytes(isObject) > budget.limit
    {
      hide Capacity, Doubled;
      CapacityStep(count);
      CapacityNone();
      newCap, error := cap, None;
      if count == cap {
        newCap := NextTreeCapacity(cap, count + 1);
        error := budget.Retain((newCap - cap) * ItemBytes(isObject));
      }
    }

    /** Reads the tokens of one value. The node is the one the scanner's index describes, and
        the only errors are the structural limit and cancellation. */
    method Value(path: int, parentKind: Kind, ghost v: JsonGrammar.Value, ghost j: nat, ghost p: nat, ghost depth: nat,
                 ghost st: ScanState)
      returns (n: Node, error: Option<WalkError>)
      requires InStep(st) && DepthAt(path, depth) && Reads(tokens, pos, j, Tokens(v)) && WellFormed(v)
      requires IndexValue(v, p, depth, parentKind, path, st).strings <= document.strings
      modifies this, budget
      ensures budget.Valid() && old(arena) <= arena
      ensures error.None? ==>
                pos == j && n == NodeOf(v, p, depth, parentKind, path, st)
                && InStep(IndexValue(v, p, depth, parentKind, path, st))
                && budget.used == old(budget.used) + TreeBytes(v, |st.paths|)
      ensures error.Some? ==>
                (error.value == OutOfBudget && old(budget.used) + TreeBytes(v, |st.paths|) > budget.limit)
                || (error.value == Cancelled && cancellable)
      decreases v
    {
      hide Capacity, Decode, ValueBytes, ItemTokens, ItemTreeBytes, IndexItems, ItemsOf, SamePaths;
      n := ScalarNode(path, NullScalar);
      ReadsFirst(tokens, pos, j, Tokens(v));
      var canceled := ContextError(cancellable);
      if canceled {
        return n, Some(Cancelled);
      }
      var token := NextToken();
      if token.None? {
        return n, Some(InternalMismatch);
      }
      error := budget.Retain(TREE_NODE_BYTES);
      if error.Some? {
        return n, error;
      }
      match token.value
      case OpenToken(isObject) =>
        var items;
        items, error := ItemList(path, isObject, v.items, j, p + 1 + |v.lead|, depth, AddNode(st, depth));
        n := ContainerNode(path, isObject, items);
      case CloseToken(_) =>
        assert false;
      case TextToken(value) =>
        if stringPos >= |document.strings| {
          assert false;
        }
        var indexed := document.strings[stringPos];
        assert IndexValue(v, p, depth, parentKind, path, st).strings[stringPos] == indexed;
        var ordinal := stringPos;
        stringPos := stringPos + 1;
        var here := DepthOf(arena, path) + 1;
        if indexed.value != value || indexed.depth != here || indexed.parentKind != parentKind {
          assert false;
        }
        error := budget.Retain(TREE_STRING_BYTES + |value|);
        if error.Some? {
          return n, error;
        }
        n := StringNode(path, value, indexed.start, indexed.end, ordinal);
      case NumberToken =>
        n := ScalarNode(path, NumberScalar);
      case BoolToken(_) =>
        n := ScalarNode(path, BooleanScalar);
      case NullToken =>
        n := ScalarNode(path, NullScalar);
    }

    /** The start of an item: its key, if it has one, and its path. */
    method OpenItem(path: int, isObject: bool, index: nat, ghost rem: Items, ghost j: nat, ghost q: nat, ghost depth: nat,
                    ghost cur: ScanState)
      returns (key: Bytes, ref: int, error: Option<WalkError>)
      requires InStep(cur) && DepthAt(path, depth) && rem.Cons? && WellFormedItems(rem, isObject)
      requires Reads(tokens, pos, j, ItemTokens(rem, isObject))
      modifies this, budget
      ensures budget.Valid() && old(arena) <= arena
      ensures error.None? ==>
                key == KeyBytes(rem.tag) && pos == old(pos) + (if isObject then 1 else 0)
                && ref == |cur.paths| && InStep(IndexLabel(rem.tag, index, path, cur)) && DepthAt(ref, depth + 1)
                && budget.used == old(budget.used) + |KeyBytes(rem.tag)| + Slot(|cur.paths|) * TREE_PATH_BYTES
      ensures error.Some? ==>
                error.value == OutOfBudget
                && old(budget.used) + |KeyBytes(rem.tag)| + Slot(|cur.paths|) * TREE_PATH_BYTES > budget.limit
    {
      hide Capacity, Decode, ValueBytes, ItemTokens, Tokens, ItemTreeBytes, TreeBytes, IndexItems, IndexValue, ItemsOf,
           NodeOf, SamePaths, IndexLabel, LabelBytes, SeparatorBytes, WellFormed, WellFormedItems, PathCount, Slot, ItemBytes,
           Reads;
      SameLength(arena, cur.paths);
      ItemsEnd(tokens, pos, j, rem, isObject);
      ghost var a, b := TokenStep(tokens, pos, j, rem, isObject);
      ItemStep(rem, isObject, index, q, depth, path, cur);
      key := [];
      if isObject {
        var keyToken := NextToken();
        if keyToken.None? || !keyToken.value.TextToken? {
          assert false;
        }
        key := keyToken.value.value;
      }
      var segment := if isObject then Key(key) else Index(index);
      ref, error := AppendPath(path, segment, |key|, cur.paths);
    }

    /** One item: its key, its path, its value and its slot. */
    method ReadItem(path: int, isObject: bool, index: nat, cap: nat, ghost rem: Items, ghost j: nat, ghost q: nat, ghost depth: nat,
                    ghost cur: ScanState)
      returns (item: Item, newCap: nat, error: Option<WalkError>)
      requires InStep(cur) && DepthAt(path, depth) && rem.Cons? && WellFormedItems(rem, isObject) && cap == Capacity(index)
      requires Reads(tokens, pos, j, ItemTokens(rem, isObject))
      requires AfterItem(rem, isObject, index, q, depth, path, cur).strings <= document.strings
      modifies this, budget
      ensures budget.Valid() && old(arena) <= arena
      ensures error.None? ==>
                item == ItemAt(rem, isObject, index, q, depth, path, cur) && newCap == Capacity(index + 1)
                && InStep(AfterItem(rem, isObject, index, q, depth, path, cur))
                && Reads(tokens, pos, j, ItemTokens(rem.rest, isObject))
                && budget.used == old(budget.used) + ItemCost(rem, isObject, index, |cur.paths|)
      ensures error.Some? ==>
                (error.value == OutOfBudget && old(budget.used) + ItemCost(rem, isObject, index, |cur.paths|) > budget.limit)
                || (error.value == Cancelled && cancellable)
      decreases rem, 0
    {
      hide Capacity, Decode, ValueBytes, ItemTokens, Tokens, ItemTreeBytes, TreeBytes, IndexItems, IndexValue, ItemsOf,
           NodeOf, SamePaths, IndexLabel, Doubled, LabelBytes, SeparatorBytes, WellFormed, WellFormedItems, ItemPathCount,
           PathCount, Slot, ItemBytes, Reads, KeyBytes;
      newCap := cap;
      item := Item([], ScalarNode(path, NullScalar));
      ghost var a, b := TokenStep(tokens, pos, j, rem, isObject);
      ItemStep(rem, isObject, index, q, depth, path, cur);
      ghost var st1 := IndexLabel(rem.tag, index, path, cur);
      ghost var at := q + |LabelBytes(rem.tag)|;
      var key, ref;
      key, ref, error := OpenItem(path, isObject, index, rem, j, q, depth, cur);
      if error.Some? {
        return;
      }
      var child;
      child, error := Value(ref, ContainerKind(isObject), rem.value, b, at, depth + 1, st1);
      if error.Some? {
        return;
      }
      item := Item(key, child);
      newCap, error := ReserveItem(index, cap, isObject);
    }

    /** The items of a container up to and including the closing delimiter. */
    method ItemList(path: int, isObject: bool, ghost all: Items, ghost j: nat, ghost p: nat, ghost depth: nat, ghost st: ScanState)
      returns (nodes: seq<Item>, error: Option<WalkError>)
      requires InStep(st) && DepthAt(path, depth) && Reads(tokens, pos, j, ItemTokens(all, isObject))
      requires WellFormedItems(all, isObject)
      requires IndexItems(all, isObject, 0, p, depth, path, st).strings <= document.strings
      modifies this, budget
      ensures budget.Valid() && old(arena) <= arena
      ensures error.None? ==>
                pos == j && nodes == ItemsOf(all, isObject, 0, p, depth, path, st)
                && InStep(IndexItems(all, isObject, 0, p, depth, path, st))
                && budget.used == old(budget.used) + ItemTreeBytes(all, isObject, 0, |st.paths|)
      ensures error.Some? ==>
                (error.value == OutOfBudget && old(budget.used) + ItemTreeBytes(all, isObject, 0, |st.paths|) > budget.limit)
                || (error.value == Cancelled && cancellable)
      decreases all, 1
    {
      hide Capacity, Decode, ValueBytes, ItemTokens, Tokens, ItemTreeBytes, TreeBytes, IndexItems, IndexValue, ItemsOf,
           NodeOf, SamePaths, IndexLabel, Doubled, LabelBytes, SeparatorBytes, WellFormed, WellFormedItems, ItemPathCount,
           PathCount, Slot, ItemBytes, Reads, ItemAt, AfterItem, ItemCost;
      nodes, error := [], None;
      ghost var rem, cur := all, st;
      ghost var q: nat := p;
      var cap, index: nat := 0, 0;
      NothingBuilt(all, isObject, p, depth, path, st);
      while More()
        invariant index == |nodes|
        invariant InStep(cur) && DepthAt(path, depth) && Reads(tokens, pos, j, ItemTokens(rem, isObject))
        invariant old(arena) <= arena && WellFormedItems(rem, isObject) && cap == Capacity(index)
        invariant IndexItems(rem, isObject, index, q, depth, path, cur) == IndexItems(all, isObject, 0, p, depth, path, st)
        invariant nodes + ItemsOf(rem, isObject, index, q, depth, path, cur) == ItemsOf(all, isObject, 0, p, depth, path, st)
        invariant budget.used + ItemTreeBytes(rem, isObject, index, |cur.paths|)
                  == old(budget.used) + ItemTreeBytes(all, isObject, 0, |st.paths|)
        invariant error.None? && (rem == all || rem < all)
        decreases rem
      {
        var stop := ContextError(cancellable);
        if isObject && stop {
          return nodes, Some(Cancelled);
        }
        ItemsEnd(tokens, pos, j, rem, isObject);
        ItemStep(rem, isObject, index, q, depth, path, cur);
        CostStep(rem, isObject, index, |cur.paths|);
        ghost var st2 := AfterItem(rem, isObject, index, q, depth, path, cur);
        PrefixChain(st2.strings, IndexItems(all, isObject, 0, p, depth, path, st).strings, document.strings);
        var item;
        item, cap, error := ReadItem(path, isObject, index, cap, rem, j, q, depth, cur);
        if error.Some? {
          return;
        }
        ghost var tail := ItemsOf(rem.rest, isObject, index + 1, NextItem(rem, q), depth, path, st2);
        assert nodes + ([item] + tail) == (nodes + [item]) + tail;
        nodes := nodes + [item];
        index := index + 1;
        q := NextItem(rem, q);
        cur := st2;
        rem := rem.rest;
      }
      ItemsEnd(tokens, pos, j, rem, isObject);
      NothingLeft(rem, isObject, index, q, depth, path, cur);
      var end := NextToken();
      if end != Some(CloseToken(isObject)) {
        assert false;
      }
    }
  }

  /** The item read at `q`, and what the scanner had retained after it. */
  ghost function ItemAt(rem: Items, isObject: bool, n: nat, q: nat, depth: nat, path: int, cur: ScanState): Item
    requires rem.Cons?
  {
    Item(KeyBytes(rem.tag),
         NodeOf(rem.value, q + |LabelBytes(rem.tag)|, depth + 1, ContainerKind(isObject), |cur.paths|, IndexLabel(rem.tag, n, path, cur)))
  }

  ghost function AfterItem(rem: Items, isObject: bool, n: nat, q: nat, depth: nat, path: int, cur: ScanState): ScanState
    requires rem.Cons?
  {
    IndexValue(rem.value, q + |LabelBytes(rem.tag)|, depth + 1, ContainerKind(isObject), |cur.paths|, IndexLabel(rem.tag, n, path, cur))
  }

  ghost function ItemCost(rem: Items, isObject: bool, i: nat, n: nat): nat
    requires rem.Cons?
  {
    SlotBytes(rem.tag, isObject, i, n) + TreeBytes(rem.value, n + 1)
  }

  lemma PrefixChain<T>(a: seq<T>, b: seq<T>, c: seq<T>)
    requires a <= b <= c
    ensures a <= c
  {
  }

  ghost function NextItem(items: Items, q: nat): nat
    requires items.Cons?
  {
    q + |LabelBytes(items.tag)| + |ValueBytes(items.value)| + |items.after| + |SeparatorBytes(items.sep, items.rest)|
  }

  lemma NothingBuilt(all: Items, isObject: bool, p: nat, depth: nat, path: int, st: ScanState)
    ensures [] + ItemsOf(all, isObject, 0, p, depth, path, st) == ItemsOf(all, isObject, 0, p, depth, path, st)
    ensures Capacity(0) == 0
  {
  }

  lemma NothingLeft(rem: Items, isObject: bool, i: nat, q: nat, depth: nat, path: int, cur: ScanState)
    requires rem.Nil?
    ensures IndexItems(rem, isObject, i, q, depth, path, cur) == cur && ItemsOf(rem, isObject, i, q, depth, path, cur) == []
    ensures ItemTreeBytes(rem, isObject, i, |cur.paths|) == 0
    ensures forall x: seq<Item> {:trigger x + []} :: x + [] == x
  {
  }

  /** The stream shows whether items are left. */
  lemma ItemsEnd(tokens: seq<Token>, i: nat, j: nat, rem: Items, isObject: bool)
    requires Reads(tokens, i, j, ItemTokens(rem, isObject))
    ensures i < |tokens| && (tokens[i].CloseToken? <==> rem.Nil?)
    ensures rem.Nil? ==> i + 1 == j && tokens[i] == CloseToken(isObject)
  {
    ReadsFirst(tokens, i, j, ItemTokens(rem, isObject));
  }

  /** Where the tokens of the next item lie. */
  lemma TokenStep(tokens: seq<Token>, i: nat, j: nat, rem: Items, isObject: bool) returns (a: nat, b: nat)
    requires rem.Cons? && Reads(tokens, i, j, ItemTokens(rem, isObject))
    ensures a == i + (if isObject then 1 else 0)
    ensures Reads(tokens, a, b, Tokens(rem.value)) && Reads(tokens, b, j, ItemTokens(rem.rest, isObject))
    ensures isObject ==> i < |tokens| && tokens[i] == TextToken(KeyBytes(rem.tag))
  {
    hide Tokens;
    var head := if isObject then [TextToken(KeyBytes(rem.tag))] else [];
    assert ItemTokens(rem, isObject) == head + (Tokens(rem.value) + ItemTokens(rem.rest, isObject));
    a := ReadsSplit(tokens, i, j, head, Tokens(rem.value) + ItemTokens(rem.rest, isObject));
    b := ReadsSplit(tokens, a, j, Tokens(rem.value), ItemTokens(rem.rest, isObject));
    assert isObject ==> tokens[i..a][0] == head[0];
  }

  /** What the folds over the items do with the next one. */
  lemma ItemStep(rem: Items, isObject: bool, n: nat, q: nat, depth: nat, path: int, cur: ScanState)
    requires rem.Cons? && WellFormedItems(rem, isObject)
    ensures var st1 := IndexLabel(rem.tag, n, path, cur);
            var segment := if isObject then Key(KeyBytes(rem.tag)) else Index(n);
            var st2 := AfterItem(rem, isObject, n, q, depth, path, cur);
            st1.paths == cur.paths + [PathNode(path, segment)] && st1.strings == cur.strings
            && |st2.paths| == |cur.paths| + 1 + PathCount(rem.value)
            && IndexItems(rem, isObject, n, q, depth, path, cur)
               == IndexItems(rem.rest, isObject, n + 1, NextItem(rem, q), depth, path, st2)
            && st2.strings <= IndexItems(rem, isObject, n, q, depth, path, cur).strings
            && ItemsOf(rem, isObject, n, q, depth, path, cur)
               == [ItemAt(rem, isObject, n, q, depth, path, cur)]
                  + ItemsOf(rem.rest, isObject, n + 1, NextItem(rem, q), depth, path, st2)
    ensures !isObject ==> KeyBytes(rem.tag) == []
    ensures WellFormed(rem.value) && WellFormedItems(rem.rest, isObject) && rem.value < rem && rem.rest < rem
  {
    hide Capacity, Decode, IndexValue, NodeOf, LabelBytes, SeparatorBytes, ValueBytes, WellFormed;
    var st1 := IndexLabel(rem.tag, n, path, cur);
    var at := q + |LabelBytes(rem.tag)|;
    var st2 := IndexValue(rem.value, at, depth + 1, ContainerKind(isObject), |cur.paths|, st1);
    IndexPaths(rem.value, at, depth + 1, ContainerKind(isObject), |cur.paths|, st1);
    ItemsFacts(rem.rest, isObject, n + 1, NextItem(rem, q), depth, path, st2);
  }

  lemma CostStep(rem: Items, isObject: bool, i: nat, n: nat)
    requires rem.Cons?
    ensures ItemTreeBytes(rem, isObject, i, n)
            == ItemCost(rem, isObject, i, n) + ItemTreeBytes(rem.rest, isObject, i + 1, n + 1 + PathCount(rem.value))
  {
    hide TreeBytes, Slot, ItemBytes, PathCount, KeyBytes;
  }

  lemma CapacityNone()
    ensures forall n: nat :: Capacity(n) == 0 <==> n == 0
  {
  }

  /** The node of a document's root. */
  ghost function RootNode(d: Document): Node
    requires d.Valid()
  {
    NodeOf(d.Tree(), d.rootStart, 1, InvalidKind, ROOT_PATH, EMPTY)
  }

  lemma RootFacts(d: Document)
    requires d.Valid()
    ensures var root := RootNode(d);
            Separate(root) && Matches(root, d.strings)
            && Ids(root) == Starts(d.strings, 0) && |Ids(root)| == |d.strings|
    ensures WellFormed(d.Tree())
  {
    hide ParseText, IndexValue, NodeOf, Separate, Matches, Ids, Starts, SpaceEnd, WellFormed;
    NodeFacts(d.Tree(), d.rootStart, 1, InvalidKind, ROOT_PATH, EMPTY);
    TextSound(d.body);
  }

  /** Builds the tree of a scanned document. On the document's own tokens it consumes the
      whole string index and no mismatch is ever reported. */
  method ParseTree(document: Document, tokens: seq<Token>, cancellable: bool)
    returns (root: Node, arena: seq<TreePathNode>, budget: TreeBudget, error: Option<WalkError>)
    requires document.Valid() && tokens == Tokens(document.Tree())
    ensures fresh(budget) && budget.Valid() && budget.limit == document.limits.structuralBytes
    ensures error.None? ==>
              root == RootNode(document) && SamePaths(arena, document.paths)
              && budget.used == document.structuralBytes + TreeBytes(document.Tree(), 0)
    ensures error.Some? ==>
              (error.value == OutOfBudget && document.structuralBytes + TreeBytes(document.Tree(), 0) > budget.limit)
              || (error.value == Cancelled && cancellable)
    ensures !cancellable ==> (error.None? <==> document.structuralBytes + TreeBytes(document.Tree(), 0) <= budget.limit)
  {
    hide ParseText, IndexValue, NodeOf, Separate, Matches, Ids, Starts, SpaceEnd, WellFormed, Tokens, TreeBytes, Capacity;
    RootFacts(document);
    budget := new TreeBudget(document.structuralBytes, document.limits.structuralBytes);
    NothingBuilt(Nil, false, 0, 0, -1, EMPTY);
    var p := new TreeParser(document, tokens, budget, cancellable);
    root, error := p.Value(ROOT_PATH, InvalidKind, document.Tree(), |tokens|, document.rootStart, 1, EMPTY);
    arena := p.arena;
    if error.Some? {
      return;
    }
    if p.stringPos != |document.strings| {
      assert false;
    }
    var token := p.NextToken();
    if token.Some? {
      assert false;
    }
  }
}
