/** What the scanner retains while it reads a text: the parent-linked path arena,
    the string index with its spans, and the memory charges, as a function of the
    syntax tree. */
module JsonIndex {
  import opened ByteStrings
  import opened JsonStrings
  import opened JsonGrammar

  datatype Limits = Limits(
    bodyBytes: nat, depth: nat, nodes: nat, structuralBytes: nat, stringBytes: nat,
    replacements: nat, replacementBytes: nat)

  datatype PathSegment = Key(name: Bytes) | Index(index: nat)

  const ROOT_PATH := -1

  datatype PathNode = PathNode(parent: int, segment: PathSegment)

  datatype Entry = Entry(value: Bytes, start: nat, end: nat, parentKind: Kind, depth: nat, pathRef: int)

  /** `deepest` and `longest` are the largest depth and decoded string length seen. */
  datatype ScanState = ScanState(
    paths: seq<PathNode>, strings: seq<Entry>, nodes: nat, bytes: nat, deepest: nat, longest: nat)

  const EMPTY := ScanState([], [], 0, 0, 0, 0)

  const PATH_NODE_BYTES := 64
  const STRING_TOKEN_BYTES := 128

  // ----- slice capacities -------------------------------------------------

  /** First of `c`, 2c, 4c, ... that is at least `n`. */
  function Doubled(c: nat, n: nat): (r: nat)
    requires c > 0
    ensures r >= n && r >= c
    decreases n - c
  {
    if c >= n then c else Doubled(2 * c, n)
  }

  /** Capacity of a retained slice that was grown one element at a time to length `n`. */
  function Capacity(n: nat): (r: nat)
    ensures r >= n
  {
    if n == 0 then 0 else Doubled(16, n)
  }

  lemma {:induction false} DoubledLinear(c: nat, n: nat)
    requires c > 0
    ensures Doubled(c, n) == c || Doubled(c, n) < 2 * n
    decreases n - c
  {
    if c < n { DoubledLinear(2 * c, n); }
  }

  /** A capacity is 0, 16, or less than twice the length. */
  lemma CapacityLinear(n: nat)
    ensures Capacity(n) == 0 || Capacity(n) == 16 || Capacity(n) < 2 * n
  {
    DoubledLinear(16, n);
  }

  lemma {:induction false} DoubledAgain(c: nat, n: nat, m: nat)
    requires c > 0 && n <= m
    ensures Doubled(Doubled(c, n), m) == Doubled(c, m)
    decreases n - c
  {
    if c < n { DoubledAgain(2 * c, n, m); }
  }

  /** Growing a full slice by doubling its capacity reaches the next `Capacity`. */
  lemma CapacityStep(n: nat)
    ensures n == Capacity(n) ==> Capacity(n + 1) == Doubled(if n == 0 then 16 else n, n + 1)
    ensures n != Capacity(n) ==> Capacity(n + 1) == Capacity(n)
    ensures Capacity(n) <= Capacity(n + 1)
  {
    if n > 0 { DoubledAgain(16, n, n + 1); }
  }

  // ----- the index of a tree ----------------------------------------------

  function Max(a: nat, b: nat): nat { if a < b then b else a }

  function AddNode(st: ScanState, depth: nat): ScanState {
    st.(nodes := st.nodes + 1, deepest := Max(st.deepest, depth))
  }

  function AddLength(st: ScanState, n: nat): ScanState { st.(longest := Max(st.longest, n)) }

  function AddPath(st: ScanState, node: PathNode, keyBytes: nat): ScanState {
    var n := |st.paths|;
    CapacityStep(n);
    st.(paths := st.paths + [node],
        bytes := st.bytes + keyBytes + (Capacity(n + 1) - Capacity(n)) * PATH_NODE_BYTES)
  }

  function AddString(st: ScanState, entry: Entry): ScanState {
    var n := |st.strings|;
    CapacityStep(n);
    st.(strings := st.strings + [entry],
        bytes := st.bytes + |entry.value| + (Capacity(n + 1) - Capacity(n)) * STRING_TOKEN_BYTES)
  }

  /** State once the label of item `i` has been read and its path node added. */
  function IndexLabel(tag: Label, i: nat, path: int, st: ScanState): ScanState {
    match tag
    case Element => AddPath(st, PathNode(path, Index(i)), 0)
    case Member(name, _, _) =>
      AddPath(AddLength(st, |Decode(name)|), PathNode(path, Key(Decode(name))), |Decode(name)|)
  }

  function IndexValue(v: Value, pos: nat, depth: nat, parent: Kind, path: int, st: ScanState): ScanState {
    match v
    case Literal(_) => AddNode(st, depth)
    case Number(_) => AddNode(st, depth)
    case String(body) =>
      AddString(AddLength(AddNode(st, depth), |Decode(body)|),
                Entry(Decode(body), pos, pos + |body| + 2, parent, depth, path))
    case Container(isObject, lead, items) =>
      IndexItems(items, isObject, 0, pos + 1 + |lead|, depth, path, AddNode(st, depth))
  }

  function IndexItems(items: Items, isObject: bool, i: nat, pos: nat, depth: nat, path: int, st: ScanState): ScanState {
    match items
    case Nil => st
    case Cons(tag, value, after, sep, rest) =>
      var q := pos + |LabelBytes(tag)|;
      var s := q + |ValueBytes(value)| + |after| + |SeparatorBytes(sep, rest)|;
      IndexItems(rest, isObject, i + 1, s, depth, path,
        IndexValue(value, q, depth + 1, ContainerKind(isObject), |st.paths|, IndexLabel(tag, i, path, st)))
  }

  function ContainerKind(isObject: bool): Kind { if isObject then ObjectKind else ArrayKind }

  // ----- limits -----------------------------------------------------------

  datatype ScanError = Invalid | DepthLimit | NodeLimit | StructuralLimit | StringTooLarge | Canceled

  /** The state passes the limit that `e` reports. */
  predicate Violates(e: ScanError, st: ScanState, limits: Limits) {
    match e
    case DepthLimit => st.deepest > limits.depth
    case NodeLimit => st.nodes > limits.nodes
    case StructuralLimit => st.bytes > limits.structuralBytes
    case StringTooLarge => st.longest > limits.stringBytes
    case _ => false
  }

  predicate Fits(st: ScanState, limits: Limits) {
    st.deepest <= limits.depth && st.nodes <= limits.nodes
    && st.bytes <= limits.structuralBytes && st.longest <= limits.stringBytes
  }

  predicate Grown(st: ScanState, st': ScanState) {
    st.paths <= st'.paths && st.strings <= st'.strings && st.nodes <= st'.nodes && st.bytes <= st'.bytes
    && st.deepest <= st'.deepest && st.longest <= st'.longest
  }

  lemma {:induction false} IndexGrows(v: Value, pos: nat, depth: nat, parent: Kind, path: int, st: ScanState)
    ensures Grown(st, IndexValue(v, pos, depth, parent, path, st))
    decreases v
  {
    hide ValueBytes, LabelBytes, SeparatorBytes, Capacity, Decode;
    CapacityStep(|st.strings|);
    if v.Container? {
      ItemsGrow(v.items, v.isObject, 0, pos + 1 + |v.lead|, depth, path, AddNode(st, depth));
    }
  }

  lemma LabelGrows(tag: Label, i: nat, path: int, st: ScanState)
    ensures Grown(st, IndexLabel(tag, i, path, st))
  {
    CapacityStep(|st.paths|);
  }

  lemma {:induction false} ItemsGrow(items: Items, isObject: bool, i: nat, pos: nat, depth: nat, path: int, st: ScanState)
    ensures Grown(st, IndexItems(items, isObject, i, pos, depth, path, st))
    decreases items
  {
    hide ValueBytes, LabelBytes, SeparatorBytes, IndexValue, IndexLabel;
    if items.Cons? {
      var q := pos + |LabelBytes(items.tag)|;
      var s := q + |ValueBytes(items.value)| + |items.after| + |SeparatorBytes(items.sep, items.rest)|;
      var st1 := IndexLabel(items.tag, i, path, st);
      var st2 := IndexValue(items.value, q, depth + 1, ContainerKind(isObject), |st.paths|, st1);
      LabelGrows(items.tag, i, path, st);
      IndexGrows(items.value, q, depth + 1, ContainerKind(isObject), |st.paths|, st1);
      ItemsGrow(items.rest, isObject, i + 1, s, depth, path, st2);
    }
  }

  // ----- closed forms -----------------------------------------------------

  /** JSON values in the tree, containers included and keys not. */
  function NodeCount(v: Value): nat {
    match v
    case Container(_, _, items) => 1 + ItemNodes(items)
    case _ => 1
  }

  function ItemNodes(items: Items): nat {
    match items
    case Nil => 0
    case Cons(_, value, _, _, rest) => NodeCount(value) + ItemNodes(rest)
  }

  /** Levels of nesting; a scalar has depth 1. */
  function Depth(v: Value): nat {
    match v
    case Container(_, _, items) => 1 + ItemDepth(items)
    case _ => 1
  }

  function ItemDepth(items: Items): nat {
    match items
    case Nil => 0
    case Cons(_, value, _, _, rest) => Max(Depth(value), ItemDepth(rest))
  }

  /** Decoded bytes of all member names and string values. */
  function TextSize(v: Value): nat {
    match v
    case String(body) => |Decode(body)|
    case Container(_, _, items) => ItemTextSize(items)
    case _ => 0
  }

  function ItemTextSize(items: Items): nat {
    match items
    case Nil => 0
    case Cons(tag, value, _, _, rest) => LabelSize(tag) + TextSize(value) + ItemTextSize(rest)
  }

  function LabelSize(tag: Label): nat { if tag.Member? then |Decode(tag.name)| else 0 }

  /** String values in the tree. */
  function StringCount(v: Value): nat {
    match v
    case String(_) => 1
    case Container(_, _, items) => ItemStrings(items)
    case _ => 0
  }

  function ItemStrings(items: Items): nat {
    match items
    case Nil => 0
    case Cons(_, value, _, _, rest) => StringCount(value) + ItemStrings(rest)
  }

  /** The longest decoded name or value. */
  function LongestText(v: Value): nat {
    match v
    case String(body) => |Decode(body)|
    case Container(_, _, items) => ItemLongest(items)
    case _ => 0
  }

  function ItemLongest(items: Items): nat {
    match items
    case Nil => 0
    case Cons(tag, value, _, _, rest) => Max(LabelSize(tag), Max(LongestText(value), ItemLongest(rest)))
  }

  function Charged(st: ScanState): nat {
    Capacity(|st.paths|) * PATH_NODE_BYTES + Capacity(|st.strings|) * STRING_TOKEN_BYTES
  }

  /** What indexing adds: one path node per non-root value, one token per string, and
      exactly the text sizes plus the growth of the two capacities in charges. */
  predicate Accounts(st: ScanState, st': ScanState, paths: nat, strings: nat, nodes: nat, text: nat, deepest: nat, longest: nat) {
    |st'.paths| == |st.paths| + paths && |st'.strings| == |st.strings| + strings
    && st'.nodes == st.nodes + nodes
    && st'.bytes + Charged(st) == st.bytes + text + Charged(st')
    && st'.deepest == Max(st.deepest, deepest) && st'.longest == Max(st.longest, longest)
  }

  lemma {:induction false} IndexAccounts(v: Value, pos: nat, depth: nat, parent: Kind, path: int, st: ScanState)
    requires depth > 0
    ensures Accounts(st, IndexValue(v, pos, depth, parent, path, st),
                     NodeCount(v) - 1, StringCount(v), NodeCount(v), TextSize(v), depth + Depth(v) - 1, LongestText(v))
    decreases v
  {
    hide IndexValue, IndexItems, NodeCount, StringCount, TextSize, Depth, LongestText, ItemNodes, ItemStrings, ItemTextSize,
         ItemDepth, ItemLongest, Capacity, Decode, Accounts, AddNode;
    if v.Container? {
      ContainerIndex(v, pos, depth, parent, path, st);
      ItemsAccount(v.items, v.isObject, 0, pos + 1 + |v.lead|, depth, path, AddNode(st, depth));
      NodeAccounts(st, depth, IndexValue(v, pos, depth, parent, path, st), ItemNodes(v.items), ItemStrings(v.items),
                   ItemTextSize(v.items), ItemDepth(v.items), ItemLongest(v.items));
    } else if v.String? {
      StringAccounts(v, pos, depth, parent, path, st);
    } else {
      ScalarAccounts(v, pos, depth, parent, path, st);
    }
  }

  lemma ContainerIndex(v: Value, pos: nat, depth: nat, parent: Kind, path: int, st: ScanState)
    requires v.Container?
    ensures IndexValue(v, pos, depth, parent, path, st)
            == IndexItems(v.items, v.isObject, 0, pos + 1 + |v.lead|, depth, path, AddNode(st, depth))
    ensures NodeCount(v) == 1 + ItemNodes(v.items) && StringCount(v) == ItemStrings(v.items) && TextSize(v) == ItemTextSize(v.items)
    ensures Depth(v) == 1 + ItemDepth(v.items) && LongestText(v) == ItemLongest(v.items)
    ensures AddNode(st, depth).deepest >= depth
  {
    hide IndexItems, ItemNodes, ItemStrings, ItemTextSize, ItemDepth, ItemLongest, Decode;
  }

  /** Counting the container's own node before its items. */
  lemma NodeAccounts(st: ScanState, depth: nat, st': ScanState, nodes: nat, strings: nat, text: nat, deeper: nat, longest: nat)
    requires depth > 0 && Accounts(AddNode(st, depth), st', nodes, strings, nodes, text, depth + deeper, longest)
    ensures Accounts(st, st', nodes, strings, nodes + 1, text, depth + deeper, longest)
  {
    hide Capacity;
  }

  lemma StringAccounts(v: Value, pos: nat, depth: nat, parent: Kind, path: int, st: ScanState)
    requires depth > 0 && v.String?
    ensures Accounts(st, IndexValue(v, pos, depth, parent, path, st), 0, 1, 1, TextSize(v), depth, LongestText(v))
    ensures NodeCount(v) == 1 && StringCount(v) == 1 && Depth(v) == 1
  {
    hide Capacity, Decode;
  }

  lemma ScalarAccounts(v: Value, pos: nat, depth: nat, parent: Kind, path: int, st: ScanState)
    requires depth > 0 && !v.String? && !v.Container?
    ensures Accounts(st, IndexValue(v, pos, depth, parent, path, st), 0, 0, 1, 0, depth, 0)
    ensures NodeCount(v) == 1 && StringCount(v) == 0 && Depth(v) == 1 && TextSize(v) == 0 && LongestText(v) == 0
  {
    hide Capacity;
  }

  lemma LabelAccounts(tag: Label, i: nat, path: int, st: ScanState)
    ensures Accounts(st, IndexLabel(tag, i, path, st), 1, 0, 0, LabelSize(tag), st.deepest, LabelSize(tag))
  {
    hide Capacity, Decode;
  }

  lemma {:induction false} ItemsAccount(items: Items, isObject: bool, i: nat, pos: nat, depth: nat, path: int, st: ScanState)
    requires depth > 0 && st.deepest >= depth
    ensures Accounts(st, IndexItems(items, isObject, i, pos, depth, path, st),
                     ItemNodes(items), ItemStrings(items), ItemNodes(items), ItemTextSize(items),
                     depth + ItemDepth(items), ItemLongest(items))
    decreases items
  {
    hide ValueBytes, LabelBytes, SeparatorBytes, IndexValue, IndexLabel, LabelSize, Capacity, Decode, Charged;
    if items.Cons? {
      var q := pos + |LabelBytes(items.tag)|;
      var s := q + |ValueBytes(items.value)| + |items.after| + |SeparatorBytes(items.sep, items.rest)|;
      var st1 := IndexLabel(items.tag, i, path, st);
      var st2 := IndexValue(items.value, q, depth + 1, ContainerKind(isObject), |st.paths|, st1);
      LabelAccounts(items.tag, i, path, st);
      IndexAccounts(items.value, q, depth + 1, ContainerKind(isObject), |st.paths|, st1);
      ItemsAccount(items.rest, isObject, i + 1, s, depth, path, st2);
    }
  }

  function IndexText(b: Bytes): Option<ScanState> {
    match ParseText(b)
    case None => None
    case Some(r) => Some(IndexValue(r.tree, SpaceEnd(b, 0), 1, InvalidKind, ROOT_PATH, EMPTY))
  }

  /** Measures of a whole text: the structural charge is text bytes plus 64 per path
      slot plus 128 per token slot, and both capacities are linear in their lengths. */
  lemma TextMeasures(b: Bytes)
    requires ParseText(b).Some?
    ensures var v := ParseText(b).value.tree; var st := IndexText(b).value;
            st.nodes == NodeCount(v) && st.deepest == Depth(v) && st.longest == LongestText(v)
            && |st.strings| == StringCount(v) && |st.paths| == NodeCount(v) - 1
            && st.bytes == TextSize(v) + 64 * Capacity(NodeCount(v) - 1) + 128 * Capacity(StringCount(v))
  {
    var v := ParseText(b).value.tree;
    IndexAccounts(v, SpaceEnd(b, 0), 1, InvalidKind, ROOT_PATH, EMPTY);
  }
}
