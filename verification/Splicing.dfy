/** Replacing string values inside a JSON text: on the syntax tree, and as a splice
    of byte spans, with the proof that the two agree. */
module Splicing {
  import opened ByteStrings
  import opened JsonStrings
  import opened JsonGrammar
  import opened JsonIndex

  /** A string value of a text: its span, quotes included, and its raw body. */
  datatype Leaf = Leaf(start: nat, end: nat, body: Bytes)

  datatype Edit = Edit(start: nat, end: nat, text: Bytes)

  function Quoted(body: Bytes): Bytes { [QUOTE] + body + [QUOTE] }

  /** String values in document order; member names are not among them. */
  function Leaves(v: Value, pos: nat): (r: seq<Leaf>)
    ensures |r| == StringCount(v)
  {
    match v
    case String(body) => [Leaf(pos, pos + |body| + 2, body)]
    case Container(_, lead, items) => ItemLeaves(items, pos + 1 + |lead|)
    case _ => []
  }

  function ItemLeaves(items: Items, pos: nat): (r: seq<Leaf>)
    ensures |r| == ItemStrings(items)
  {
    match items
    case Nil => []
    case Cons(tag, value, after, sep, rest) =>
      var q := pos + |LabelBytes(tag)|;
      var s := q + |ValueBytes(value)| + |after| + |SeparatorBytes(sep, rest)|;
      Leaves(value, q) + ItemLeaves(rest, s)
  }

  /** The tree with its string bodies, and nothing else, replaced in document order. */
  function Substitute(v: Value, bodies: seq<Bytes>): Value
    requires |bodies| == StringCount(v)
  {
    match v
    case String(_) => String(bodies[0])
    case Container(isObject, lead, items) => Container(isObject, lead, SubstituteItems(items, bodies))
    case _ => v
  }

  function SubstituteItems(items: Items, bodies: seq<Bytes>): (r: Items)
    requires |bodies| == ItemStrings(items)
    ensures r.Nil? == items.Nil?
  {
    match items
    case Nil => Nil
    case Cons(tag, value, after, sep, rest) =>
      var n := StringCount(value);
      Cons(tag, Substitute(value, bodies[..n]), after, sep, SubstituteItems(rest, bodies[n..]))
  }

  function Bodies(v: Value): (r: seq<Bytes>)
    ensures |r| == StringCount(v)
  {
    match v
    case String(body) => [body]
    case Container(_, _, items) => ItemBodies(items)
    case _ => []
  }

  function ItemBodies(items: Items): (r: seq<Bytes>)
    ensures |r| == ItemStrings(items)
  {
    match items
    case Nil => []
    case Cons(_, value, _, _, rest) => Bodies(value) + ItemBodies(rest)
  }

  // ----- the substituted tree ---------------------------------------------

  /** Substitution reaches every string, and only strings: the new bodies are exactly
      the given ones, and substituting the old bodies back restores the tree. */
  lemma {:induction false} SubstituteExact(v: Value, bodies: seq<Bytes>)
    requires |bodies| == StringCount(v)
    ensures StringCount(Substitute(v, bodies)) == StringCount(v)
    ensures Bodies(Substitute(v, bodies)) == bodies
    ensures Substitute(Substitute(v, bodies), Bodies(v)) == v
    ensures KindOf(Substitute(v, bodies)) == KindOf(v)
    decreases v
  {
    if v.Container? { SubstituteItemsExact(v.items, bodies); }
  }

  lemma {:induction false} SubstituteItemsExact(items: Items, bodies: seq<Bytes>)
    requires |bodies| == ItemStrings(items)
    ensures ItemStrings(SubstituteItems(items, bodies)) == ItemStrings(items)
    ensures ItemBodies(SubstituteItems(items, bodies)) == bodies
    ensures SubstituteItems(SubstituteItems(items, bodies), ItemBodies(items)) == items
    decreases items
  {
    hide Substitute, Bodies, StringCount;
    if items.Cons? {
      var n := StringCount(items.value);
      SubstituteExact(items.value, bodies[..n]);
      SubstituteItemsExact(items.rest, bodies[n..]);
      assert bodies == bodies[..n] + bodies[n..];
      assert ItemBodies(items)[..n] == Bodies(items.value) && ItemBodies(items)[n..] == ItemBodies(items.rest);
    }
  }

  lemma {:induction false} SubstituteWellFormed(v: Value, bodies: seq<Bytes>)
    requires WellFormed(v) && |bodies| == StringCount(v)
    requires forall k :: 0 <= k < |bodies| ==> IsChars(bodies[k])
    ensures WellFormed(Substitute(v, bodies))
    decreases v
  {
    hide IsChars;
    if v.Container? { SubstituteItemsWellFormed(v.items, v.isObject, bodies); }
  }

  lemma {:induction false} SubstituteItemsWellFormed(items: Items, isObject: bool, bodies: seq<Bytes>)
    requires WellFormedItems(items, isObject) && |bodies| == ItemStrings(items)
    requires forall k :: 0 <= k < |bodies| ==> IsChars(bodies[k])
    ensures WellFormedItems(SubstituteItems(items, bodies), isObject)
    decreases items
  {
    hide IsChars, WellFormed, Substitute, StringCount, WellFormedLabel;
    if items.Cons? {
      var n := StringCount(items.value);
      SubstituteWellFormed(items.value, bodies[..n]);
      SubstituteItemsWellFormed(items.rest, isObject, bodies[n..]);
    }
  }

  lemma {:induction false} BodiesWellFormed(v: Value)
    requires WellFormed(v)
    ensures forall k :: 0 <= k < |Bodies(v)| ==> IsChars(Bodies(v)[k])
    decreases v
  {
    hide IsChars;
    if v.Container? { ItemBodiesWellFormed(v.items, v.isObject); }
  }

  lemma {:induction false} ItemBodiesWellFormed(items: Items, isObject: bool)
    requires WellFormedItems(items, isObject)
    ensures forall k :: 0 <= k < |ItemBodies(items)| ==> IsChars(ItemBodies(items)[k])
    decreases items
  {
    hide IsChars, WellFormed, Bodies, WellFormedLabel;
    if items.Cons? {
      BodiesWellFormed(items.value);
      ItemBodiesWellFormed(items.rest, isObject);
    }
  }

  // ----- splicing ---------------------------------------------------------

  /** The edits are in order, do not overlap, and lie in `from..to`. */
  predicate Ordered(from: nat, to: nat, edits: seq<Edit>)
    decreases |edits|
  {
    if edits == [] then from <= to
    else from <= edits[0].start <= edits[0].end && Ordered(edits[0].end, to, edits[1..])
  }

  lemma {:induction false} OrderedBound(from: nat, to: nat, edits: seq<Edit>)
    requires Ordered(from, to, edits)
    ensures from <= to
    ensures forall k :: 0 <= k < |edits| ==> from <= edits[k].start <= edits[k].end <= to
    decreases |edits|
  {
    if edits != [] {
      OrderedBound(edits[0].end, to, edits[1..]);
      assert forall k :: 1 <= k < |edits| ==> edits[k] == edits[1..][k - 1];
    }
  }

  /** `from..to` of `b` with each edited span replaced and every other byte copied. */
  function Splice(b: Bytes, from: nat, to: nat, edits: seq<Edit>): Bytes
    requires Ordered(from, to, edits) && to <= |b|
    decreases |edits|
  {
    if edits == [] then b[from..to]
    else
      OrderedBound(from, to, edits);
      b[from..edits[0].start] + edits[0].text + Splice(b, edits[0].end, to, edits[1..])
  }

  lemma {:induction false} SpliceJoin(b: Bytes, i: nat, j: nat, k: nat, left: seq<Edit>, right: seq<Edit>)
    requires Ordered(i, j, left) && Ordered(j, k, right) && k <= |b|
    ensures Ordered(i, k, left + right) && j <= k
    ensures Splice(b, i, k, left + right) == Splice(b, i, j, left) + Splice(b, j, k, right)
    decreases |left|
  {
    OrderedBound(i, j, left);
    OrderedBound(j, k, right);
    if left == [] {
      SpliceBefore(b, i, j, k, right);
      assert left + right == right;
    } else {
      OrderedCons(i, j, left);
      SpliceCons(b, i, j, left);
      hide Ordered, Splice;
      SpliceJoin(b, left[0].end, j, k, left[1..], right);
      var all := left + right;
      assert all[1..] == left[1..] + right && all[0] == left[0];
      OrderedCons(i, k, all);
      SpliceCons(b, i, k, all);
      JoinRight(b[i..all[0].start], all[0].text, Splice(b, left[0].end, j, left[1..]), Splice(b, j, k, right));
    }
  }

  lemma JoinRight(x: Bytes, y: Bytes, z: Bytes, w: Bytes)
    ensures x + y + (z + w) == (x + y + z) + w
  {
  }

  lemma JoinLeft(x: Bytes, y: Bytes, z: Bytes, w: Bytes)
    ensures (x + y) + z + w == x + (y + z + w)
  {
  }

  lemma OrderedCons(from: nat, to: nat, edits: seq<Edit>)
    requires edits != []
    ensures Ordered(from, to, edits) <==>
              from <= edits[0].start <= edits[0].end && Ordered(edits[0].end, to, edits[1..])
  {
  }

  lemma SpliceCons(b: Bytes, from: nat, to: nat, edits: seq<Edit>)
    requires Ordered(from, to, edits) && to <= |b| && edits != []
    ensures from <= edits[0].start <= |b| && Ordered(edits[0].end, to, edits[1..])
    ensures Splice(b, from, to, edits) == b[from..edits[0].start] + edits[0].text + Splice(b, edits[0].end, to, edits[1..])
  {
    OrderedBound(from, to, edits);
  }

  lemma SpliceBefore(b: Bytes, i: nat, j: nat, k: nat, edits: seq<Edit>)
    requires i <= j && Ordered(j, k, edits) && k <= |b|
    ensures j <= k && Ordered(i, k, edits) && Ordered(i, j, [])
    ensures Splice(b, i, k, edits) == Splice(b, i, j, []) + Splice(b, j, k, edits)
  {
    OrderedBound(j, k, edits);
    if edits == [] {
      Cut(b, i, j, k);
    } else {
      assert Splice(b, i, j, []) == b[i..j] && Ordered(i, j, []);
      hide Splice, Ordered;
      OrderedCons(j, k, edits);
      OrderedCons(i, k, edits);
      SpliceCons(b, j, k, edits);
      SpliceCons(b, i, k, edits);
      Cut(b, i, j, edits[0].start);
      JoinLeft(b[i..j], b[j..edits[0].start], edits[0].text, Splice(b, edits[0].end, k, edits[1..]));
    }
  }

  lemma SpliceSnoc(b: Bytes, from: nat, to: nat, edits: seq<Edit>, e: Edit)
    requires Ordered(from, to, edits) && to <= e.start <= e.end <= |b|
    ensures Ordered(from, e.end, edits + [e])
    ensures Splice(b, from, e.end, edits + [e]) == Splice(b, from, to, edits) + b[to..e.start] + e.text
  {
    assert [e][1..] == [] && b[e.end..e.end] == [];
    assert Splice(b, e.end, e.end, []) == [];
    SpliceJoin(b, from, to, e.end, edits, [e]);
  }

  lemma {:induction false} OrderedSplit(from: nat, to: nat, edits: seq<Edit>, i: nat)
    requires Ordered(from, to, edits) && i < |edits|
    ensures (if i == 0 then from else edits[i - 1].end) <= edits[i].start <= edits[i].end <= to
    decreases i
  {
    OrderedBound(from, to, edits);
    if i > 0 {
      OrderedSplit(edits[0].end, to, edits[1..], i - 1);
      assert edits[1..][i - 1] == edits[i];
      assert i > 1 ==> edits[1..][i - 2] == edits[i - 1];
    }
  }

  function LeafEdits(leaves: seq<Leaf>, bodies: seq<Bytes>): (r: seq<Edit>)
    requires |leaves| == |bodies|
    ensures |r| == |leaves|
  {
    seq(|leaves|, k requires 0 <= k < |leaves| => Edit(leaves[k].start, leaves[k].end, Quoted(bodies[k])))
  }

  lemma LeafEditsJoin(l: seq<Leaf>, m: seq<Leaf>, bodies: seq<Bytes>)
    requires |l| + |m| == |bodies|
    ensures LeafEdits(l + m, bodies) == LeafEdits(l, bodies[..|l|]) + LeafEdits(m, bodies[|l|..])
  {
  }

  /** Splicing new bodies over all string spans of a value gives the substituted tree's text. */
  lemma {:induction false} SpliceValue(b: Bytes, pos: nat, end: nat, v: Value, bodies: seq<Bytes>)
    requires At(b, pos, end, ValueBytes(v)) && |bodies| == StringCount(v)
    ensures var edits := LeafEdits(Leaves(v, pos), bodies);
            Ordered(pos, end, edits) && Splice(b, pos, end, edits) == ValueBytes(Substitute(v, bodies))
    decreases v
  {
    match v
    case String(body) =>
      var edits := LeafEdits(Leaves(v, pos), bodies);
      assert edits == [Edit(pos, end, Quoted(bodies[0]))];
      assert edits[1..] == [] && b[pos..pos] == [] && b[end..end] == [];
      assert Splice(b, end, end, edits[1..]) == [];
    case Container(isObject, lead, items) =>
      var p := AtSplit(b, pos, end, [OpenByte(isObject)] + lead, ItemsBytes(items, isObject));
      SpliceItems(b, p, end, items, isObject, bodies);
      SpliceJoin(b, pos, p, end, [], LeafEdits(ItemLeaves(items, p), bodies));
      assert [] + LeafEdits(ItemLeaves(items, p), bodies) == LeafEdits(ItemLeaves(items, p), bodies);
    case _ =>
      assert LeafEdits(Leaves(v, pos), bodies) == [];
  }

  lemma {:induction false} SpliceItems(b: Bytes, pos: nat, end: nat, items: Items, isObject: bool, bodies: seq<Bytes>)
    requires At(b, pos, end, ItemsBytes(items, isObject)) && |bodies| == ItemStrings(items)
    ensures var edits := LeafEdits(ItemLeaves(items, pos), bodies);
            Ordered(pos, end, edits) && Splice(b, pos, end, edits) == ItemsBytes(SubstituteItems(items, bodies), isObject)
    decreases items
  {
    hide ValueBytes, LabelBytes, SeparatorBytes, Leaves, Substitute;
    if items.Cons? {
      var n := StringCount(items.value);
      var q, e, a, s := ItemsAt(b, pos, end, items, isObject);
      assert q == pos + |LabelBytes(items.tag)| && s == q + |ValueBytes(items.value)| + |items.after| + |SeparatorBytes(items.sep, items.rest)|;
      SpliceValue(b, q, e, items.value, bodies[..n]);
      SpliceItems(b, s, end, items.rest, isObject, bodies[n..]);
      ItemSplice(b, pos, q, e, a, s, end, LeafEdits(Leaves(items.value, q), bodies[..n]),
                 LeafEdits(ItemLeaves(items.rest, s), bodies[n..]));
      LeafEditsJoin(Leaves(items.value, q), ItemLeaves(items.rest, s), bodies);
      SeparatorSame(items.sep, items.rest, SubstituteItems(items.rest, bodies[n..]));
    }
  }

  lemma SeparatorSame(sep: Bytes, rest: Items, rest': Items)
    requires rest.Nil? == rest'.Nil?
    ensures SeparatorBytes(sep, rest) == SeparatorBytes(sep, rest')
  {
  }

  lemma SpliceGap(b: Bytes, i: nat, j: nat, k: nat, edits: seq<Edit>)
    requires i <= j && Ordered(j, k, edits) && k <= |b|
    ensures j <= k && Ordered(i, k, edits) && Splice(b, i, k, edits) == b[i..j] + Splice(b, j, k, edits)
  {
    OrderedBound(j, k, edits);
    SpliceJoin(b, i, j, k, [], edits);
    assert [] + edits == edits;
  }

  lemma ItemSplice(b: Bytes, pos: nat, q: nat, e: nat, a: nat, s: nat, end: nat, left: seq<Edit>, right: seq<Edit>)
    requires pos <= q <= e <= a <= s <= end <= |b| && Ordered(q, e, left) && Ordered(s, end, right)
    ensures Ordered(pos, end, left + right)
    ensures Splice(b, pos, end, left + right)
            == b[pos..q] + Splice(b, q, e, left) + b[e..a] + b[a..s] + Splice(b, s, end, right)
  {
    hide Splice, Ordered;
    SpliceGap(b, pos, q, e, left);
    SpliceGap(b, e, s, end, right);
    SpliceJoin(b, pos, e, end, left, right);
    Cut(b, e, a, s);
  }

  // ----- the index and the tree -------------------------------------------

  /** Index entries and string leaves tell the same spans and values. */
  predicate Describes(entries: seq<Entry>, leaves: seq<Leaf>) {
    |entries| == |leaves|
    && forall k :: 0 <= k < |leaves| ==>
         entries[k].start == leaves[k].start && entries[k].end == leaves[k].end
         && entries[k].value == Decode(leaves[k].body)
  }

  lemma {:induction false} IndexDescribes(v: Value, pos: nat, depth: nat, parent: Kind, path: int, st: ScanState)
    ensures var r := IndexValue(v, pos, depth, parent, path, st).strings; var n := |st.strings|;
            st.strings <= r && Describes(r[n..], Leaves(v, pos))
    decreases v
  {
    hide ValueBytes, LabelBytes, SeparatorBytes, Capacity, Decode;
    if v.Container? {
      ItemsDescribe(v.items, v.isObject, 0, pos + 1 + |v.lead|, depth, path, AddNode(st, depth));
    }
  }

  lemma {:induction false} ItemsDescribe(items: Items, isObject: bool, i: nat, pos: nat, depth: nat, path: int, st: ScanState)
    ensures var r := IndexItems(items, isObject, i, pos, depth, path, st).strings; var n := |st.strings|;
            st.strings <= r && Describes(r[n..], ItemLeaves(items, pos))
    decreases items
  {
    hide ValueBytes, LabelBytes, SeparatorBytes, Capacity, Decode, IndexValue, Leaves;
    if items.Cons? {
      var q := pos + |LabelBytes(items.tag)|;
      var s := q + |ValueBytes(items.value)| + |items.after| + |SeparatorBytes(items.sep, items.rest)|;
      var st1 := IndexLabel(items.tag, i, path, st);
      var st2 := IndexValue(items.value, q, depth + 1, ContainerKind(isObject), |st.paths|, st1);
      IndexDescribes(items.value, q, depth + 1, ContainerKind(isObject), |st.paths|, st1);
      ItemsDescribe(items.rest, isObject, i + 1, s, depth, path, st2);
    }
  }

  /** Each leaf's span holds exactly its quoted body. */
  lemma {:induction false} LeavesAt(b: Bytes, pos: nat, end: nat, v: Value)
    requires At(b, pos, end, ValueBytes(v))
    ensures forall k {:trigger Leaves(v, pos)[k]} :: 0 <= k < |Leaves(v, pos)| ==>
              var l := Leaves(v, pos)[k]; At(b, l.start, l.end, Quoted(l.body)) && l.body == Bodies(v)[k]
    decreases v
  {
    if v.Container? {
      var p := AtSplit(b, pos, end, [OpenByte(v.isObject)] + v.lead, ItemsBytes(v.items, v.isObject));
      ItemLeavesAt(b, p, end, v.items, v.isObject);
    }
  }

  lemma {:induction false} ItemLeavesAt(b: Bytes, pos: nat, end: nat, items: Items, isObject: bool)
    requires At(b, pos, end, ItemsBytes(items, isObject))
    ensures forall k {:trigger ItemLeaves(items, pos)[k]} :: 0 <= k < |ItemLeaves(items, pos)| ==>
              var l := ItemLeaves(items, pos)[k]; At(b, l.start, l.end, Quoted(l.body)) && l.body == ItemBodies(items)[k]
    decreases items
  {
    hide ValueBytes, LabelBytes, SeparatorBytes, Leaves, Bodies;
    if items.Cons? {
      var q, e, a, s := ItemsAt(b, pos, end, items, isObject);
      assert q == pos + |LabelBytes(items.tag)| && s == q + |ValueBytes(items.value)| + |items.after| + |SeparatorBytes(items.sep, items.rest)|;
      LeavesAt(b, q, e, items.value);
      ItemLeavesAt(b, s, end, items.rest, isObject);
    }
  }

  // ----- changing some of the strings -------------------------------------

  /** `changes` maps string ordinals to new decoded values. */
  type Changes = map<nat, Bytes>

  function NewBodies(leaves: seq<Leaf>, changes: Changes): (r: seq<Bytes>)
    ensures |r| == |leaves|
  {
    seq(|leaves|, k requires 0 <= k < |leaves| => if k in changes then EncodeBody(changes[k]) else leaves[k].body)
  }

  /** The edits for the changed strings from ordinal `k` on. */
  function PickEdits(strings: seq<Entry>, changes: Changes, k: nat): seq<Edit>
    requires k <= |strings|
    decreases |strings| - k
  {
    if k == |strings| then []
    else if k in changes then
      [Edit(strings[k].start, strings[k].end, Encode(changes[k]))] + PickEdits(strings, changes, k + 1)
    else PickEdits(strings, changes, k + 1)
  }

  /** Encoded bytes of the changed strings from ordinal `k` on. */
  function PickSize(strings: seq<Entry>, changes: Changes, k: nat): nat
    requires k <= |strings|
    decreases |strings| - k
  {
    if k == |strings| then 0
    else (if k in changes then |Encode(changes[k])| else 0) + PickSize(strings, changes, k + 1)
  }

  lemma {:induction false} PickSkip(strings: seq<Entry>, changes: Changes, k: nat, j: nat)
    requires k <= j <= |strings| && forall i :: k <= i < j ==> i !in changes
    ensures PickEdits(strings, changes, k) == PickEdits(strings, changes, j)
    ensures PickSize(strings, changes, k) == PickSize(strings, changes, j)
    decreases j - k
  {
    if k < j { PickSkip(strings, changes, k + 1, j); }
  }

  /** Editing only the changed strings gives the same bytes as rewriting every string. */
  lemma {:induction false} PickSplice(b: Bytes, from: nat, to: nat, strings: seq<Entry>, leaves: seq<Leaf>, changes: Changes, k: nat)
    requires Describes(strings, leaves) && k <= |leaves| && to <= |b|
    requires forall i :: 0 <= i < |leaves| ==> At(b, leaves[i].start, leaves[i].end, Quoted(leaves[i].body))
    requires Ordered(from, to, LeafEdits(leaves, NewBodies(leaves, changes))[k..])
    ensures Ordered(from, to, PickEdits(strings, changes, k))
    ensures Splice(b, from, to, PickEdits(strings, changes, k))
            == Splice(b, from, to, LeafEdits(leaves, NewBodies(leaves, changes))[k..])
    decreases |leaves| - k
  {
    var full := LeafEdits(leaves, NewBodies(leaves, changes));
    if k < |leaves| {
      assert full[k..][1..] == full[k + 1..];
      var s, e := leaves[k].start, leaves[k].end;
      PickSplice(b, e, to, strings, leaves, changes, k + 1);
      OrderedBound(e, to, full[k + 1..]);
      if k in changes {
        assert PickEdits(strings, changes, k)[1..] == PickEdits(strings, changes, k + 1);
      } else {
        Cut(b, from, s, e);
        SpliceGap(b, from, e, to, PickEdits(strings, changes, k + 1));
      }
    }
  }
}
