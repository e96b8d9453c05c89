/** The disposition collector: three disjoint sets of strings that a protocol walk fills
    step by step under one structural budget, with a sticky error. */
module Collecting {
  import opened ByteStrings
  import opened JsonGrammar
  import opened JsonIndex
  import opened Payload
  import opened KeyContext
  import opened Names
  import opened Tree

  const TARGET_BYTES := 384
  const UNSUPPORTED_BYTES := 256
  const INDEX_ENTRY_BYTES := 128
  const FIELD_CONTEXT_BYTES := 320
  const PATH_SEGMENT_BYTES := 48

  datatype Scope = ScopeSystem | ScopeUser | ScopeAssistant | ScopeToolInput | ScopeToolOutput

  datatype TargetKind = NaturalText | EncodedJson | JsonValue | ToolText

  datatype Mutability = Direct | EncodedJsonText | JsonOrPlain

  datatype Target = Target(token: StringToken, scope: Scope, kind: TargetKind, mutable: Mutability, context: FieldContext)

  /** A selected string, by its start offset, and how it is to be treated. */
  datatype Pick = Pick(id: int, scope: Scope, kind: TargetKind, mutable: Mutability, encoded: bool)

  /** Tool text may always turn out to be encoded JSON. */
  function Retargeted(scope: Scope, mutable: Mutability): Mutability {
    if scope.ScopeToolInput? || scope.ScopeToolOutput? then if mutable.Direct? then JsonOrPlain else mutable else mutable
  }

  function PickFor(id: int, scope: Scope, kind: TargetKind, mutable: Mutability): Pick {
    Pick(id, scope, kind, Retargeted(scope, mutable), !mutable.Direct?)
  }

  function PicksOf(ids: set<int>, scope: Scope, kind: TargetKind, mutable: Mutability): set<Pick> {
    set x | x in ids :: PickFor(x, scope, kind, mutable)
  }

  lemma PicksJoin(a: set<int>, b: set<int>, scope: Scope, kind: TargetKind, mutable: Mutability)
    ensures PicksOf(a + b, scope, kind, mutable) == PicksOf(a, scope, kind, mutable) + PicksOf(b, scope, kind, mutable)
    ensures PicksOf({}, scope, kind, mutable) == {}
  {
  }

  lemma PicksOne(id: int, scope: Scope, kind: TargetKind, mutable: Mutability)
    ensures PicksOf({id}, scope, kind, mutable) == {PickFor(id, scope, kind, mutable)}
  {
  }

  function PickOf(t: Target): Pick { Pick(t.token.start, t.scope, t.kind, t.mutable, t.context.encoded) }

  /** What a list of targets selects, and as what. */
  function Picked(list: seq<Target>): set<Pick> { set i | 0 <= i < |list| :: PickOf(list[i]) }

  function IdsOf(picks: set<Pick>): set<int> { set p | p in picks :: p.id }

  lemma PickedSnoc(list: seq<Target>, t: Target)
    ensures Picked(list + [t]) == Picked(list) + {PickOf(t)}
    ensures IdsOf(Picked(list) + {PickOf(t)}) == IdsOf(Picked(list)) + {t.token.start as int}
  {
    assert forall i :: 0 <= i < |list| ==> (list + [t])[i] == list[i];
    assert (list + [t])[|list|] == t;
    assert forall i :: 0 <= i < |list| ==> PickOf(list[i]) in Picked(list + [t]);
    assert PickOf(t) in Picked(list + [t]);
  }

  lemma PickedIds(list: seq<Target>)
    ensures forall i :: 0 <= i < |list| ==> list[i].token.start in IdsOf(Picked(list))
  {
    forall i | 0 <= i < |list| ensures list[i].token.start in IdsOf(Picked(list)) {
      assert PickOf(list[i]) in Picked(list);
    }
  }

  /** The context of a target is that of its token's keys, its scope and its kind. */
  ghost predicate InContext(t: Target) {
    t.context == FieldContext(ContextOf(t.token.path), ToolScopeOf(t.scope), t.kind.JsonValue?, t.context.encoded)
  }

  function ToolScopeOf(scope: Scope): ToolScope {
    match scope
    case ScopeToolInput => ToolInput
    case ScopeToolOutput => ToolOutput
    case _ => NoTool
  }

  /** `untrusted` is quoted request text; `detail` is the walker's own wording. */
  datatype UnsupportedShape = UnsupportedShape(path: int, detail: string, untrusted: Bytes)

  // ----- members of an object ---------------------------------------------

  function FieldIds(n: Node, name: Name): set<int>
    requires n.ContainerNode?
  {
    set i, x | 0 <= i < |n.items| && NameOf(n.items[i].key) == name && x in Ids(n.items[i].value) :: x
  }

  function KeyIds(n: Node, names: set<Name>): set<int>
    requires n.ContainerNode?
  {
    set i, x | 0 <= i < |n.items| && NameOf(n.items[i].key) in names && x in Ids(n.items[i].value) :: x
  }

  /** Members with different names share no string. */
  lemma FieldApart(n: Node, name: Name, names: set<Name>)
    requires n.ContainerNode? && Separate(n)
    ensures name !in names ==> FieldIds(n, name) !! KeyIds(n, names)
    ensures KeyIds(n, names + {name}) == KeyIds(n, names) + FieldIds(n, name)
    ensures FieldIds(n, name) <= Ids(n) && KeyIds(n, {}) == {}
  {
    hide NameOf;
  }

  lemma OnlyField(n: Node, name: Name, k: nat)
    requires n.ContainerNode? && k < |n.items| && NameOf(n.items[k].key) == name
    requires forall i :: 0 <= i < |n.items| && NameOf(n.items[i].key) == name ==> i == k
    ensures FieldIds(n, name) == Ids(n.items[k].value)
  {
    hide NameOf, Ids;
    forall x ensures x in FieldIds(n, name) <==> x in Ids(n.items[k].value) {
      if x in FieldIds(n, name) {
        var i :| 0 <= i < |n.items| && NameOf(n.items[i].key) == name && x in Ids(n.items[i].value);
      }
    }
  }

  lemma NoField(n: Node, name: Name)
    requires n.ContainerNode? && forall i :: 0 <= i < |n.items| ==> NameOf(n.items[i].key) != name
    ensures FieldIds(n, name) == {}
  {
  }

  /** At most one member has this name. */
  predicate Sole(n: Node, name: Name)
    requires n.ContainerNode?
  {
    forall i, j :: 0 <= i < j < |n.items| && NameOf(n.items[i].key) == name ==> NameOf(n.items[j].key) != name
  }

  /** An object none of whose listed members is there twice. */
  predicate Unambiguous(n: Node, names: seq<Name>) {
    n.ContainerNode? && n.isObject && forall i :: 0 <= i < |names| ==> Sole(n, names[i])
  }

  predicate FieldSole(n: Node, name: Name) { n.ContainerNode? && n.isObject && Sole(n, name) }

  /** The one member with this name, if any, is of the kind a walk wants there. */
  predicate FieldShaped(n: Node, name: Name, kind: Kind, required: bool, nullable: bool) {
    FieldSole(n, name)
    && match FieldNode(n, name)
       case None => !required
       case Some(v) => NodeKind(v) == kind || (nullable && NodeKind(v) == NullKind)
  }

  /** Optional strings under all these names. */
  predicate OptionalStrings(n: Node, names: seq<Name>) {
    forall i :: 0 <= i < |names| ==> FieldShaped(n, names[i], StringKind, false, true)
  }

  predicate KeysDistinct(n: Node) {
    n.ContainerNode? && n.isObject && forall i, j :: 0 <= i < j < |n.items| ==> n.items[i].key != n.items[j].key
  }

  /** A walk succeeds only on what is `ok`, and objects to shape or ambiguity only in what is not. */
  predicate Judged(error: Option<WalkError>, ok: bool) {
    (error.None? ==> ok) && (error.Some? && (error.value.ShapeMismatch? || error.value.AmbiguousKey?) ==> !ok)
  }

  /** `found` are the strings of the one member with this name, apart from those already done. */
  predicate Selects(n: Node, name: Name, done: set<Name>, found: set<int>)
    requires n.ContainerNode?
  {
    found == FieldIds(n, name) && found <= Ids(n) && KeyIds(n, done + {name}) == KeyIds(n, done) + found
    && (name !in done ==> found !! KeyIds(n, done))
  }

  /** The first member with this name. */
  function FirstNamed(items: seq<Item>, name: Name): Option<Node> {
    if items == [] then None
    else if NameOf(items[0].key) == name then Some(items[0].value)
    else FirstNamed(items[1..], name)
  }

  lemma {:induction false} FirstNamedAt(items: seq<Item>, name: Name, k: nat)
    requires k <= |items| && (k < |items| ==> NameOf(items[k].key) == name)
    requires forall i :: 0 <= i < k ==> NameOf(items[i].key) != name
    ensures FirstNamed(items, name) == if k < |items| then Some(items[k].value) else None
    decreases k
  {
    hide NameOf;
    if k > 0 {
      assert forall i :: 1 <= i < |items| ==> items[i] == items[1..][i - 1];
      FirstNamedAt(items[1..], name, k - 1);
    }
  }

  function FieldNode(n: Node, name: Name): Option<Node> {
    if n.ContainerNode? then FirstNamed(n.items, name) else None
  }

  /** The string a member may be. */
  function StringPicks(v: Option<Node>, scope: Scope, kind: TargetKind, mutable: Mutability): set<Pick> {
    if v.Some? && v.value.StringNode? then PicksOf(Ids(v.value), scope, kind, mutable) else {}
  }

  /** All strings of the object a member may be. */
  function ObjectPicks(v: Option<Node>, scope: Scope, kind: TargetKind): set<Pick> {
    if v.Some? && NodeKind(v.value) == ObjectKind then PicksOf(Ids(v.value), scope, kind, Direct) else {}
  }

  // ----- the collector ----------------------------------------------------

  class Collector {
    const document: Document
    const arena: seq<TreePathNode>
    const budget: TreeBudget
    const cancellable: bool
    /** What the scanner and the tree had used up. */
    ghost const base: nat
    var targets: set<int>
    var opaques: set<int>
    var rejected: set<int>
    var err: Option<WalkError>
    var list: seq<Target>
    var listCap: nat
    var unsupported: seq<UnsupportedShape>
    var unsupportedCap: nat
    /** What the list of targets selects. */
    ghost var picks: set<Pick>

    constructor (document: Document, arena: seq<TreePathNode>, budget: TreeBudget, cancellable: bool)
      requires Arena(document.paths) && Refs(document.paths, document.strings) && budget.Valid()
      ensures Valid() && this.document == document && this.arena == arena && this.budget == budget
      ensures this.cancellable == cancellable && base == budget.used
      ensures Disposed() == {} && err.None? && list == [] && unsupported == [] && picks == {}
    {
      this.document, this.arena, this.budget, this.cancellable, base := document, arena, budget, cancellable, budget.used;
      targets, opaques, rejected, err := {}, {}, {}, None;
      list, listCap, unsupported, unsupportedCap, picks := [], 0, [], 0, {};
    }

    function Disposed(): set<int>
      reads this
    {
      targets + opaques + rejected
    }

    /** The strings that can no longer be marked opaque. */
    function Taken(): set<int>
      reads this
    {
      targets + rejected
    }

    /** Every index entry, list slot, and field context was charged. */
    ghost predicate Paid()
      reads this, budget
    {
      base + (|targets| + |opaques| + |rejected|) * INDEX_ENTRY_BYTES + |list| * FIELD_CONTEXT_BYTES
        + listCap * TARGET_BYTES + unsupportedCap * UNSUPPORTED_BYTES <= budget.used
    }

    ghost predicate Lists()
      reads this
    {
      Arena(document.paths) && Refs(document.paths, document.strings)
      && |list| == |targets| && |list| <= listCap && |unsupported| <= unsupportedCap
      && (rejected != {} ==> unsupported != [])
      && (forall i :: 0 <= i < |list| ==>
            document.Owns(list[i].token) && Slots(list[i].context.fields) && InContext(list[i]))
      && picks == Picked(list) && targets == IdsOf(picks)
      && forall i, j :: 0 <= i < j < |list| ==> list[i].token.ordinal != list[j].token.ordinal
    }

    ghost predicate Valid()
      reads this, budget
    {
      budget.Valid() && targets !! opaques && targets !! rejected && opaques !! rejected
      && Lists() && Paid() && (err.Some? ==> err.value == OutOfBudget && Honest(err.value))
    }

    /** Errors a request can cause: the budget only when a charge was refused because it did not
        fit. A mismatch of the walker with itself is none of them. */
    ghost predicate Honest(e: WalkError)
      reads budget
    {
      e.ShapeMismatch? || e.AmbiguousKey? || (e.OutOfBudget? && budget.denied.Some?) || (e.Cancelled? && cancellable)
    }

    ghost predicate Suits(n: Node) { Separate(n) && Matches(n, document.strings) }

    /** Below `n` only members in `done` have been disposed of. */
    ghost predicate Untouched(n: Node, done: set<Name>)
      requires n.ContainerNode?
      reads this
    {
      Disposed() * Ids(n) <= KeyIds(n, done)
    }

    /** Since the call began, dispositions were only added, and only to strings in `ids`. */
    twostate predicate Grew(ids: set<int>)
      reads this
    {
      old(targets) <= targets && old(opaques) <= opaques && old(rejected) <= rejected
      && Disposed() <= old(Disposed()) + ids && Taken() <= old(Taken()) + ids
      && (old(err).Some? ==> err == old(err))
    }

    /** The only member with this name; an ambiguity when there are several. */
    method Field(obj: Node, name: Name, ghost done: set<Name>) returns (value: Option<Node>, error: Option<WalkError>)
      requires Valid() && Suits(obj)
      ensures error.Some? ==> Honest(error.value) && value.None?
      ensures error == if err.Some? then err
                       else if !obj.ContainerNode? || !obj.isObject then Some(ShapeMismatch)
                       else if !Sole(obj, name) then Some(AmbiguousKey)
                       else None
      ensures Judged(error, FieldSole(obj, name))
      ensures error.None? ==>
                Selects(obj, name, done, if value.Some? then Ids(value.value) else {})
      ensures error.None? ==> value == FieldNode(obj, name)
      ensures value.Some? ==> Suits(value.value)
    {
      hide NameOf, Ids, Paid, Lists, Separate, Matches, Sole;
      if err.Some? {
        return None, err;
      }
      if !obj.ContainerNode? || !obj.isObject {
        return None, Some(ShapeMismatch);
      }
      var count, found;
      ghost var at;
      count, found, at := FindMember(obj, name);
      if count > 1 {
        return None, Some(AmbiguousKey);
      }
      value := found;
      FieldApart(obj, name, done);
      FieldIs(obj, name, value);
      if count == 1 {
        OnlyField(obj, name, at);
        ChildSuits(obj, at);
      } else {
        NoField(obj, name);
      }
      error := None;
    }

    /** Looks through all members, and keeps the last with this name. */
    method FindMember(obj: Node, name: Name) returns (count: nat, value: Option<Node>, ghost at: nat)
      requires obj.ContainerNode?
      ensures count == 0 ==> value.None? && forall k :: 0 <= k < |obj.items| ==> NameOf(obj.items[k].key) != name
      ensures count == 1 ==>
                at < |obj.items| && value == Some(obj.items[at].value) && NameOf(obj.items[at].key) == name
                && forall k :: 0 <= k < |obj.items| && NameOf(obj.items[k].key) == name ==> k == at
      ensures count > 1 <==> !Sole(obj, name)
    {
      hide NameOf, Sole;
      count, value, at := 0, None, 0;
      for i := 0 to |obj.items|
        invariant count == 0 ==> value.None? && forall k :: 0 <= k < i ==> NameOf(obj.items[k].key) != name
        invariant count == 1 ==>
                    at < i && value == Some(obj.items[at].value) && NameOf(obj.items[at].key) == name
                    && forall k :: 0 <= k < i && NameOf(obj.items[k].key) == name ==> k == at
        invariant count > 1 ==> at < i && NameOf(obj.items[at].key) == name && !Sole(obj, name)
      {
        if NameOf(obj.items[i].key) == name {
          count := count + 1;
          value := Some(obj.items[i].value);
          if count == 1 {
            at := i;
          } else {
            Twice(obj, name, at, i);
          }
        }
      }
      if count <= 1 {
        Once(obj, name, at);
      }
    }

    lemma Twice(obj: Node, name: Name, i: nat, j: nat)
      requires obj.ContainerNode? && i < j < |obj.items| && NameOf(obj.items[i].key) == name && NameOf(obj.items[j].key) == name
      ensures !Sole(obj, name)
    {
      hide NameOf;
    }

    lemma Once(obj: Node, name: Name, at: nat)
      requires obj.ContainerNode? && forall k :: 0 <= k < |obj.items| && NameOf(obj.items[k].key) == name ==> k == at
      ensures Sole(obj, name)
    {
      hide NameOf;
    }

    lemma FieldIs(obj: Node, name: Name, value: Option<Node>)
      requires obj.ContainerNode?
      requires value.Some? ==>
                 exists k :: 0 <= k < |obj.items| && value == Some(obj.items[k].value) && NameOf(obj.items[k].key) == name
                             && forall i :: 0 <= i < |obj.items| && NameOf(obj.items[i].key) == name ==> i == k
      requires value.None? ==> forall i :: 0 <= i < |obj.items| ==> NameOf(obj.items[i].key) != name
      ensures FieldNode(obj, name) == value
    {
      hide NameOf, FirstNamed;
      var k := |obj.items|;
      if value.Some? {
        k :| 0 <= k < |obj.items| && value == Some(obj.items[k].value) && NameOf(obj.items[k].key) == name
             && forall i :: 0 <= i < |obj.items| && NameOf(obj.items[i].key) == name ==> i == k;
      }
      FirstNamedAt(obj.items, name, k);
    }

    lemma ChildSuits(n: Node, i: nat)
      requires n.ContainerNode? && i < |n.items| && Suits(n)
      ensures Suits(n.items[i].value) && Ids(n.items[i].value) <= Ids(n)
    {
    }

    method Shape() returns (error: WalkError)
      requires Valid()
      ensures Honest(error) && error == if err.Some? then OutOfBudget else ShapeMismatch
    {
      error := if err.Some? then err.value else ShapeMismatch;
    }

    method Unique(obj: Node, names: seq<Name>) returns (error: Option<WalkError>)
      requires Valid() && Suits(obj)
      ensures error.Some? ==> Honest(error.value)
      ensures names != [] ==> Judged(error, Unambiguous(obj, names))
      ensures names == [] ==> error.None?
      ensures names != [] ==> (error.None? <==> err.None? && Unambiguous(obj, names))
      ensures error.Some? ==> error == if err.Some? then err else if obj.ContainerNode? && obj.isObject then Some(AmbiguousKey) else Some(ShapeMismatch)
    {
      hide Lists, Paid, Separate, Matches, NameOf, Sole, Selects;
      for i := 0 to |names|
        invariant i > 0 ==> err.None? && Unambiguous(obj, names[..i])
      {
        var value;
        value, error := Field(obj, names[i], {});
        if error.Some? {
          return;
        }
      }
      error := None;
    }

    /** No two members share a key; the index this takes is charged first. */
    method UniqueObjectKeys(obj: Node) returns (error: Option<WalkError>)
      requires Valid()
      modifies budget
      ensures Valid()
      ensures error.Some? ==> Honest(error.value)
      ensures Judged(error, KeysDistinct(obj))
      ensures budget.used
              == old(budget.used) + if obj.ContainerNode? && obj.isObject && |obj.items| > 1 && error != Some(OutOfBudget)
                                    then |obj.items| * INDEX_ENTRY_BYTES else 0
    {
      hide Lists;
      if !obj.ContainerNode? || !obj.isObject {
        var e := Shape();
        return Some(e);
      }
      if |obj.items| < 2 {
        return None;
      }
      error := budget.Retain(|obj.items| * INDEX_ENTRY_BYTES);
      if error.Some? {
        return;
      }
      if exists i, j :: 0 <= i < j < |obj.items| && obj.items[i].key == obj.items[j].key {
        return Some(AmbiguousKey);
      }
    }

    /** How many strings below the node have no disposition yet. */
    method CountUndisposedStrings(n: Node) returns (count: nat)
      requires Separate(n)
      ensures count == |Ids(n) - Disposed()|
      decreases n
    {
      match n
      case StringNode(_, _, start, _, _) =>
        var id: int := start;
        assert Ids(n) == {id};
        if id in targets || id in opaques || id in rejected {
          assert Ids(n) - Disposed() == {};
          return 0;
        }
        assert Ids(n) - Disposed() == {id};
        return 1;
      case ContainerNode(_, _, items) =>
        count := 0;
        assert PrefixIds(items, 0) - Disposed() == {};
        for i := 0 to |items|
          invariant count == |PrefixIds(items, i) - Disposed()|
        {
          var more := CountUndisposedStrings(items[i].value);
          NextCount(n, i, Disposed());
          count := count + more;
        }
        assert PrefixIds(items, |items|) == Ids(n);
      case ScalarNode(_, _) =>
        assert Ids(n) - Disposed() == {};
        return 0;
    }

    lemma NextCount(n: Node, i: nat, d: set<int>)
      requires n.ContainerNode? && Separate(n) && i < |n.items|
      ensures |PrefixIds(n.items, i + 1) - d| == |PrefixIds(n.items, i) - d| + |Ids(n.items[i].value) - d|
      ensures PrefixIds(n.items, i) !! Ids(n.items[i].value)
      ensures PrefixIds(n.items, i + 1) == PrefixIds(n.items, i) + Ids(n.items[i].value)
    {
      hide Ids;
      PrefixNext(n.items, i);
      assert PrefixIds(n.items, i + 1) - d == (PrefixIds(n.items, i) - d) + (Ids(n.items[i].value) - d);
      assert (PrefixIds(n.items, i) - d) !! (Ids(n.items[i].value) - d);
    }

    /** Rejects every string below the node that has no disposition yet. */
    method MarkUnsupportedStrings(n: Node)
      requires Separate(n)
      modifies this`rejected
      ensures rejected == Rejected(targets + opaques, old(rejected), Ids(n))
      decreases n
    {
      hide Ids, PrefixIds, Rejected;
      NodeIds(n);
      RejectedOne(targets + opaques, rejected, if n.StringNode? then n.start else 0);
      match n
      case StringNode(_, _, start, _, _) =>
        var id: int := start;
        if id in targets || id in opaques || id in rejected {
          return;
        }
        rejected := rejected + {id};
      case ContainerNode(_, _, items) =>
        for i := 0 to |items|
          invariant rejected == Rejected(targets + opaques, old(rejected), PrefixIds(items, i))
        {
          NextCount(n, i, {});
          RejectedNext(targets + opaques, old(rejected), PrefixIds(items, i), Ids(items[i].value));
          MarkUnsupportedStrings(items[i].value);
        }
      case ScalarNode(_, _) =>
    }

    /** The rejected strings after `ids` were marked, when `rest` has other dispositions. */
    static function Rejected(rest: set<int>, before: set<int>, ids: set<int>): set<int> {
      before + (ids - (rest + before))
    }

    static lemma RejectedOne(rest: set<int>, before: set<int>, id: int)
      ensures Rejected(rest, before, {}) == before
      ensures Rejected(rest, before, {id}) == if id in rest || id in before then before else before + {id}
    {
    }

    static lemma RejectedNext(rest: set<int>, before: set<int>, p: set<int>, x: set<int>)
      requires p !! x
      ensures Rejected(rest, Rejected(rest, before, p), x) == Rejected(rest, before, p + x)
    {
    }

    lemma NodeIds(n: Node)
      ensures n.StringNode? ==> Ids(n) == {n.start as int}
      ensures n.ScalarNode? ==> Ids(n) == {}
      ensures n.ContainerNode? ==> PrefixIds(n.items, 0) == {} && PrefixIds(n.items, |n.items|) == Ids(n)
    {
    }

    /** What recording one shape costs: its wording, its path, the strings it rejects, and the
        growth of the list when it is full. */
    function ShapeCharge(n: Node, detailBytes: nat, stringCount: nat): int
      reads this
    {
      detailBytes + DepthOf(arena, n.path) * PATH_SEGMENT_BYTES + stringCount * INDEX_ENTRY_BYTES
      + if |unsupported| == unsupportedCap then
          (Doubled(if unsupportedCap == 0 then 16 else unsupportedCap, |unsupported| + 1) - unsupportedCap) * UNSUPPORTED_BYTES
        else 0
    }

    /** The cost of a shape that rejects whatever is left below the node. */
    function ShapeCost(n: Node, detailBytes: nat): int
      reads this
    {
      ShapeCharge(n, detailBytes, |Ids(n) - Disposed()|)
    }

    /** Charges the diagnostic and every string about to be rejected, before anything is added. */
    method ReserveUnsupported(n: Node, detailBytes: nat, stringCount: nat) returns (ok: bool)
      requires Valid()
      modifies `err, `unsupportedCap, budget
      ensures Valid() && old(budget.used) <= budget.used
      ensures ok <==> err.None?
      ensures ok ==> unsupportedCap > |unsupported| && Charged(stringCount)
      ensures ok <==> old(err).None? && old(budget.used + ShapeCharge(n, detailBytes, stringCount)) <= budget.limit
      ensures budget.used == old(budget.used) + if ok then old(ShapeCharge(n, detailBytes, stringCount)) else 0
      ensures old(err).Some? ==> err == old(err)
    {
      if err.Some? {
        return false;
      }
      var pathBytes := DepthOf(arena, n.path) * PATH_SEGMENT_BYTES;
      var charge := detailBytes + pathBytes + stringCount * INDEX_ENTRY_BYTES;
      var newCap := unsupportedCap;
      if |unsupported| == unsupportedCap {
        newCap := NextTreeCapacity(unsupportedCap, |unsupported| + 1);
        DoubledGrows(if unsupportedCap == 0 then 16 else unsupportedCap, |unsupported| + 1);
        charge := charge + (newCap - unsupportedCap) * UNSUPPORTED_BYTES;
      }
      var refused := budget.Retain(charge);
      if refused.Some? {
        err := refused;
        return false;
      }
      unsupportedCap := newCap;
      ok := true;
    }

    /** The budget also covers `count` more index entries. */
    ghost predicate Charged(count: nat)
      reads this, budget
    {
      base + (|targets| + |opaques| + |rejected| + count) * INDEX_ENTRY_BYTES + |list| * FIELD_CONTEXT_BYTES
        + listCap * TARGET_BYTES + unsupportedCap * UNSUPPORTED_BYTES <= budget.used
    }

    lemma DoubledGrows(c: nat, n: nat)
      requires c > 0
      ensures Doubled(c, n) >= c && Doubled(c, n) >= n
    {
    }

    static lemma RejectedFacts(rest: set<int>, before: set<int>, ids: set<int>)
      requires rest !! before
      ensures var now := Rejected(rest, before, ids);
              |now| == |before| + |ids - (rest + before)| && rest !! now && rest + now == rest + before + ids
              && before <= now <= before + ids
    {
      assert before !! (ids - (rest + before));
    }

    /** Records a shape the walk does not guess at and rejects its remaining strings. */
    method Unsupported(n: Node, detail: string)
      requires Valid() && Suits(n)
      modifies `err, `rejected, `unsupported, `unsupportedCap, budget
      ensures Valid() && Grew(Ids(n)) && old(Disposed()) <= Disposed()
      ensures err.None? ==>
                rejected == Rejected(targets + opaques, old(rejected), Ids(n))
                && unsupported == old(unsupported) + [UnsupportedShape(n.path, detail, [])] && Ids(n) <= Disposed()
      ensures err.Some? ==> rejected == old(rejected) && unsupported == old(unsupported)
      ensures old(err).Some? ==> err == old(err)
      ensures err.None? <==> old(err).None? && old(budget.used + ShapeCost(n, |detail|)) <= budget.limit
      ensures err.None? ==> budget.used == old(budget.used + ShapeCost(n, |detail|))
    {
      hide Rejected, Ids, Separate, Matches, Suits, Lists, Paid, Charged, ShapeCost, Valid, Disposed;
      Record(n, UnsupportedShape(n.path, detail, []), |detail|);
    }

    /** Pays for a shape, then rejects and records it; a refusal sticks and records nothing. */
    method Record(n: Node, shape: UnsupportedShape, detailBytes: nat)
      requires Valid() && Suits(n)
      modifies `err, `rejected, `unsupported, `unsupportedCap, budget
      ensures Valid() && Grew(Ids(n)) && old(Disposed()) <= Disposed()
      ensures err.None? ==>
                rejected == Rejected(targets + opaques, old(rejected), Ids(n)) && unsupported == old(unsupported) + [shape]
                && Ids(n) <= Disposed()
      ensures err.Some? ==> rejected == old(rejected) && unsupported == old(unsupported)
      ensures old(err).Some? ==> err == old(err)
      ensures err.None? <==> old(err).None? && old(budget.used + ShapeCost(n, detailBytes)) <= budget.limit
      ensures err.None? ==> budget.used == old(budget.used + ShapeCost(n, detailBytes))
    {
      hide Rejected, Ids, Separate, Matches, Lists, Paid, Charged, ShapeCharge;
      var stringCount := CountUndisposedStrings(n);
      var ok := ReserveUnsupported(n, detailBytes, stringCount);
      if ok {
        Reject(n, shape, stringCount);
      }
    }

    /** As `Unsupported`, with a quoted request value; quoting takes at most four bytes per byte. */
    method UnsupportedValue(n: Node, prefix: string, untrusted: Bytes)
      requires Valid() && Suits(n)
      modifies `err, `rejected, `unsupported, `unsupportedCap, budget
      ensures Valid() && Grew(Ids(n)) && old(Disposed()) <= Disposed()
      ensures err.None? ==>
                rejected == Rejected(targets + opaques, old(rejected), Ids(n))
                && unsupported == old(unsupported) + [UnsupportedShape(n.path, prefix, untrusted)] && Ids(n) <= Disposed()
      ensures err.Some? ==> rejected == old(rejected) && unsupported == old(unsupported)
      ensures old(err).Some? ==> err == old(err)
      ensures err.None? ==>
                budget.used == old(budget.used + ShapeCost(n, |prefix| + 2 + 4 * |untrusted|))
    {
      hide Rejected, Ids, Separate, Matches, Suits, Lists, Paid, Charged, ShapeCost, Valid;
      if err.Some? {
        return;
      }
      if |prefix| > MAX_INT - 2 || |untrusted| > (MAX_INT - |prefix| - 2) / 4 {
        Overflow(|prefix| + 2 + 4 * |untrusted|);
        return;
      }
      Record(n, UnsupportedShape(n.path, prefix, untrusted), |prefix| + 2 + 4 * |untrusted|);
    }

    method Overflow(ghost bytes: nat)
      requires Valid() && err.None? && bytes > MAX_INT
      modifies `err, budget
      ensures Valid() && err == Some(OutOfBudget)
    {
      budget.Deny(bytes);
      err := Some(OutOfBudget);
    }

    method Reject(n: Node, shape: UnsupportedShape, stringCount: nat)
      requires Valid() && Suits(n) && err.None? && unsupportedCap > |unsupported|
      requires stringCount == |Ids(n) - Disposed()| && Charged(stringCount)
      modifies `rejected, `unsupported
      ensures Valid() && Grew(Ids(n)) && old(Disposed()) <= Disposed()
      ensures rejected == Rejected(targets + opaques, old(rejected), Ids(n)) && unsupported == old(unsupported) + [shape]
      ensures Ids(n) <= Disposed()
    {
      hide Rejected, Ids, Separate, Matches, Picked, IdsOf, InContext, Arena, Refs, Bounded, Document.Owns;
      RejectedFacts(targets + opaques, rejected, Ids(n));
      MarkUnsupportedStrings(n);
      unsupported := unsupported + [shape];
    }

    method RejectUndisposed(n: Node)
      requires Valid() && Suits(n) && err.None?
      modifies `err, `rejected, `unsupported, `unsupportedCap, budget
      ensures Valid() && Grew(Ids(n)) && old(Disposed()) <= Disposed() && (err.None? ==> Ids(n) <= Disposed())
    {
      hide Ids, Rejected, Separate, Matches, Lists, Paid;
      NoneLeft(Ids(n), Disposed());
      var count := CountUndisposedStrings(n);
      if count != 0 {
        RejectedFacts(targets + opaques, rejected, Ids(n));
        Unsupported(n, "string has no explicit protocol disposition");
      }
    }

    /** The final sweep: whatever has no disposition yet is rejected. */
    method EnsureStringDisposition(n: Node) returns (error: Option<WalkError>)
      requires Valid() && Suits(n)
      modifies `err, `rejected, `unsupported, `unsupportedCap, budget
      ensures Valid() && Grew(Ids(n)) && old(Disposed()) <= Disposed()
      ensures error.None? ==> err.None? && Ids(n) <= Disposed()
      ensures error.Some? ==> Honest(error.value)
      ensures Judged(error, true)
      decreases n
    {
      hide Ids, PrefixIds, Rejected, Separate, Matches, Lists, Paid, Suits;
      if err.Some? {
        return err;
      }
      var canceled := ContextError(cancellable);
      if canceled {
        return Some(Cancelled);
      }
      NodeIds(n);
      error := None;
      match n {
      case StringNode(_, _, _, _, _) =>
        RejectUndisposed(n);
      case ContainerNode(_, _, items) =>
        for i := 0 to |items|
          invariant Valid() && Grew(Ids(n)) && old(Disposed()) <= Disposed() && PrefixIds(items, i) <= Disposed()
        {
          PrefixNext(items, i);
          ChildSuits(n, i);
          error := EnsureStringDisposition(items[i].value);
          if error.Some? {
            return;
          }
        }
      case ScalarNode(_, _) =>
      }
      error := err;
    }

    lemma NoneLeft(ids: set<int>, d: set<int>)
      ensures |ids - d| == 0 <==> ids <= d
    {
      if |ids - d| == 0 {
        assert forall x :: x in ids && x !in d ==> x in ids - d;
      } else {
        assert ids - d != {};
      }
    }

    // ----- targets ----------------------------------------------------------

    /** The target selected for the string node `n`. */
    ghost predicate Describes(t: Target, n: Node, scope: Scope, kind: TargetKind, mutable: Mutability)
      requires Arena(document.paths) && Refs(document.paths, document.strings)
    {
      n.StringNode? && document.Owns(t.token) && t.token.ordinal == n.ordinal
      && t.scope == scope && t.kind == kind && t.mutable == Retargeted(scope, mutable)
      && t.context == FieldContext(ContextOf(t.token.path), ToolScopeOf(scope), kind.JsonValue?, !mutable.Direct?)
    }

    /** One more target has been paid for and has a slot. */
    ghost predicate Reserved()
      reads this, budget
    {
      listCap > |list|
      && base + (|targets| + 1 + |opaques| + |rejected|) * INDEX_ENTRY_BYTES + (|list| + 1) * FIELD_CONTEXT_BYTES
         + listCap * TARGET_BYTES + unsupportedCap * UNSUPPORTED_BYTES <= budget.used
    }

    /** Pays for one more target before it is selected. */
    method ReserveTarget(depth: nat) returns (error: Option<WalkError>)
      requires Valid()
      modifies `listCap, budget
      ensures Valid()
      ensures error.Some? ==> error.value == OutOfBudget && budget.denied.Some?
      ensures error.None? ==> Reserved()
    {
      hide Picked, IdsOf, InContext, Document.Owns, Doubled, Arena, Refs;
      error := budget.Retain(INDEX_ENTRY_BYTES);
      if error.Some? {
        return;
      }
      if |list| == listCap {
        var newCap := NextTreeCapacity(listCap, |list| + 1);
        DoubledGrows(if listCap == 0 then 16 else listCap, |list| + 1);
        error := budget.Retain((newCap - listCap) * TARGET_BYTES);
        if error.Some? {
          return;
        }
        listCap := newCap;
      }
      error := budget.Retain(depth * PATH_SEGMENT_BYTES);
      if error.Some? {
        return;
      }
      error := budget.Retain(depth * PATH_SEGMENT_BYTES);
      if error.Some? {
        return;
      }
      error := budget.Retain(FIELD_CONTEXT_BYTES);
    }

    method RefuseTarget(n: Node) returns (error: Option<WalkError>)
      requires Valid() && Suits(n)
      ensures error.None? ==> n.StringNode? && n.start !in Disposed()
      ensures Judged(error, n.StringNode?)
      ensures error.Some? ==> Honest(error.value) || (error.value == InternalMismatch && Disposed() * Ids(n) != {})
    {
      hide Paid, Lists, Suits, Separate, Matches;
      if err.Some? {
        return err;
      }
      var canceled := ContextError(cancellable);
      if canceled {
        return Some(Cancelled);
      }
      if !n.StringNode? {
        var e := Shape();
        return Some(e);
      }
      var start: int := n.start;
      if start in targets || start in opaques || start in rejected {
        assert start in Disposed() * Ids(n);
        return Some(InternalMismatch);
      }
      error := None;
    }

    /** Selects a string. It refuses one that already has a disposition; on a string without
        one the walker's own mismatch error cannot arise. */
    method Add(n: Node, scope: Scope, kind: TargetKind, mutable: Mutability) returns (error: Option<WalkError>)
      requires Valid() && Suits(n)
      modifies `targets, `list, `listCap, `picks, budget
      ensures Valid() && Grew(Ids(n))
      ensures error.None? ==>
                n.StringNode? && targets == old(targets) + {n.start as int} && n.start !in old(Disposed())
                && targets == old(targets) + Ids(n) && picks == old(picks) + PicksOf(Ids(n), scope, kind, mutable)
                && |list| == |old(list)| + 1 && list[..|old(list)|] == old(list)
                && Describes(list[|old(list)|], n, scope, kind, mutable)
      ensures Judged(error, n.StringNode?)
      ensures error.Some? ==> targets == old(targets) && list == old(list) && picks == old(picks)
      ensures error.Some? ==> Honest(error.value) || (error.value == InternalMismatch && old(Disposed()) * Ids(n) != {})
    {
      hide Paid, Lists, Suits, Describes, Reserved;
      error := RefuseTarget(n);
      if error.Some? {
        return;
      }
      NodeIds(n);
      error := ReserveTarget(DepthOf(arena, n.path));
      if error.Some? {
        return;
      }
      PicksOne(n.start, scope, kind, mutable);
      Choose(n, scope, kind, mutable);
    }

    method Choose(n: Node, scope: Scope, kind: TargetKind, mutable: Mutability)
      requires Valid() && Suits(n) && Reserved() && n.StringNode? && n.start !in Disposed()
      modifies `targets, `list, `picks
      ensures Valid() && targets == old(targets) + {n.start as int}
      ensures picks == old(picks) + {PickFor(n.start, scope, kind, mutable)}
      ensures |list| == |old(list)| + 1 && list[..|old(list)|] == old(list)
      ensures Describes(list[|old(list)|], n, scope, kind, mutable)
    {
      hide Paid, Lists, Suits, Separate, Matches, ContextOf, PathOf, Arena, Refs, Bounded, Reserved;
      DocumentShape();
      StringMatches(n);
      var token := document.StringTokenAt(n.ordinal);
      if token.None? || token.value.value != n.value || token.value.start != n.start || token.value.end != n.end {
        assert false;
      }
      var fields := StringKeyContextAt(document, n.ordinal);
      Select(Target(token.value, scope, kind, Retargeted(scope, mutable),
                    FieldContext(fields.value, ToolScopeOf(scope), kind.JsonValue?, !mutable.Direct?)));
    }

    lemma StringMatches(n: Node)
      requires n.StringNode? && Suits(n)
      ensures n.ordinal < |document.strings| && Ids(n) == {n.start as int}
      ensures var e := document.strings[n.ordinal]; e.value == n.value && e.start == n.start && e.end == n.end
    {
    }

    lemma DocumentShape()
      requires Valid()
      ensures Arena(document.paths) && Refs(document.paths, document.strings)
    {
    }

    lemma OwnedApart(a: StringToken, b: StringToken)
      requires Arena(document.paths) && Refs(document.paths, document.strings) && document.Owns(a) && document.Owns(b)
      ensures a.start != b.start ==> a.ordinal != b.ordinal
    {
      hide PathOf;
    }

    method Select(t: Target)
      requires Valid() && Reserved() && document.Owns(t.token) && t.token.start !in Disposed() && Slots(t.context.fields)
      requires InContext(t)
      modifies `targets, `list, `picks
      ensures Valid() && targets == old(targets) + {t.token.start as int} && list == old(list) + [t]
      ensures picks == old(picks) + {PickOf(t)}
    {
      hide Bounded, Picked, IdsOf, InContext, ContextOf, PathOf, Arena, Refs, Document.Owns;
      PickedSnoc(list, t);
      PickedIds(list);
      forall i | 0 <= i < |list| ensures list[i].token.ordinal != t.token.ordinal {
        OwnedApart(list[i].token, t.token);
      }
      targets := targets + {t.token.start as int};
      list := list + [t];
      picks := picks + {PickOf(t)};
    }

    /** Protects every string below the node. */
    method MarkOpaque(n: Node) returns (error: Option<WalkError>)
      requires Valid() && Suits(n)
      modifies `opaques, budget
      ensures Valid() && Grew(Ids(n)) && old(opaques) <= opaques <= old(opaques) + Ids(n)
      ensures error.None? ==> opaques == old(opaques) + Ids(n)
      ensures Judged(error, true)
      ensures error.Some? ==> Honest(error.value) || (error.value == InternalMismatch && Taken() * Ids(n) != {})
      decreases n
    {
      hide Ids, PrefixIds, Lists, Paid, Suits;
      error := None;
      if err.Some? {
        return err;
      }
      var canceled := ContextError(cancellable);
      if canceled {
        return Some(Cancelled);
      }
      NodeIds(n);
      match n {
      case StringNode(_, _, start, _, _) =>
        var id: int := start;
        if id in targets || id in rejected {
          assert id in Taken() * Ids(n);
          return Some(InternalMismatch);
        }
        if id !in opaques {
          error := Protect(id);
        }
      case ContainerNode(_, _, items) =>
        for i := 0 to |items|
          invariant Valid() && old(opaques) <= opaques <= old(opaques) + Ids(n) && PrefixIds(items, i) <= opaques
          invariant error.None?
        {
          PrefixNext(items, i);
          ChildSuits(n, i);
          error := MarkOpaque(items[i].value);
          if error.Some? {
            Meets(Taken(), Ids(items[i].value), Ids(n));
            return;
          }
        }
      case ScalarNode(_, _) =>
      }
    }

    static lemma Meets(a: set<int>, b: set<int>, c: set<int>)
      requires b <= c
      ensures a * b != {} ==> a * c != {}
    {
      assert a * b <= a * c;
    }

    method Protect(id: int) returns (error: Option<WalkError>)
      requires Valid() && id !in Disposed()
      modifies `opaques, budget
      ensures Valid() && (error.Some? ==> error.value == OutOfBudget && budget.denied.Some? && opaques == old(opaques))
      ensures error.None? ==> opaques == old(opaques) + {id}
    {
      hide Picked, IdsOf, InContext, Arena, Refs, Bounded, Document.Owns;
      error := budget.Retain(INDEX_ENTRY_BYTES);
      if error.None? {
        opaques := opaques + {id};
      }
    }

    // ----- fields -----------------------------------------------------------

    /** A field not yet done has no disposed string; doing it leaves the others as they were. */
    static lemma Advance(obj: Node, name: Name, done: set<Name>, found: set<int>, d: set<int>)
      requires obj.ContainerNode? && Selects(obj, name, done, found) && d * Ids(obj) <= KeyIds(obj, done)
      ensures name !in done ==> d !! found
      ensures found <= Ids(obj) && found == FieldIds(obj, name)
      ensures forall d': set<int> {:trigger d' * Ids(obj)} :: d' <= d + found ==> d' * Ids(obj) <= KeyIds(obj, done + {name})
    {
      hide Ids, KeyIds, FieldIds;
    }

    /** Whatever happens to strings of `found` only, `name` becomes done. */
    ghost predicate After(obj: Node, name: Name, done: set<Name>, found: set<int>, d: set<int>)
      requires obj.ContainerNode?
    {
      found <= Ids(obj) && forall d': set<int> {:trigger d' * Ids(obj)} :: d' <= d + found ==> d' * Ids(obj) <= KeyIds(obj, done + {name})
    }

    lemma Finish(obj: Node, name: Name, done: set<Name>, n: Node, d: set<int>)
      requires obj.ContainerNode? && After(obj, name, done, Ids(n), d) && Disposed() <= d + Ids(n)
      ensures Untouched(obj, done + {name})
    {
      hide Ids, KeyIds;
    }

    /** What is known about a member just looked up. */
    ghost predicate Found(obj: Node, name: Name, done: set<Name>, n: Node)
      requires obj.ContainerNode?
      reads this
    {
      Suits(n) && Ids(n) <= Ids(obj) && Ids(n) == FieldIds(obj, name) && FieldNode(obj, name) == Some(n)
      && (Untouched(obj, done) ==>
            (name !in done ==> Disposed() !! Ids(n)) && After(obj, name, done, Ids(n), Disposed()))
    }

    method AnyField(obj: Node, name: Name, ghost done: set<Name>) returns (value: Option<Node>, error: Option<WalkError>)
      requires Valid() && Suits(obj) && obj.ContainerNode?
      ensures error.Some? ==> Honest(error.value) && value.None?
      ensures error.None? ==> err.None? && value == FieldNode(obj, name)
      ensures Judged(error, FieldSole(obj, name))
      ensures error.None? && value.None? ==>
                FieldIds(obj, name) == {} && FieldNode(obj, name).None?
                && (Untouched(obj, done) ==> Untouched(obj, done + {name}))
      ensures value.Some? ==> Found(obj, name, done, value.value)
    {
      hide FieldSole, Suits, Valid, FieldNode, NameOf, Ids, KeyIds, FieldIds;
      value, error := Field(obj, name, done);
      if error.Some? {
        return;
      }
      if Disposed() * Ids(obj) <= KeyIds(obj, done) {
        Advance(obj, name, done, if value.Some? then Ids(value.value) else {}, Disposed());
      }
    }

    /** A field of one kind that may be absent or null; nothing is left to do when it is. */
    method NullableField(obj: Node, name: Name, kind: Kind, required: bool, nullable: bool, ghost done: set<Name>)
      returns (value: Option<Node>, error: Option<WalkError>)
      requires Valid() && Suits(obj) && obj.ContainerNode?
      ensures error.Some? ==> Honest(error.value) && value.None?
      ensures Judged(error, FieldShaped(obj, name, kind, required, nullable))
      ensures error.None? ==> err.None? && (required && !nullable ==> value.Some?)
      ensures error.None? && value.None? ==>
                FieldIds(obj, name) == {} && (Untouched(obj, done) ==> Untouched(obj, done + {name}))
                && (FieldNode(obj, name).None? || (nullable && NodeKind(FieldNode(obj, name).value) == NullKind))
      ensures value.Some? ==> Found(obj, name, done, value.value) && NodeKind(value.value) == kind
    {
      hide FieldShaped, NodeKind, FieldSole, Describes, After, Suits, Valid, FieldNode, NameOf, Ids, KeyIds, FieldIds,
           Untouched, Found;
      ShapedBy(obj, name, kind, required, nullable);
      value, error := AnyField(obj, name, done);
      if error.Some? {
        return;
      }
      if value.None? {
        if required {
          var e := Shape();
          error := Some(e);
        }
        return;
      }
      if NodeKind(value.value) == NullKind && nullable {
        NullIds(value.value);
        Nothing(obj, name, done, value.value);
        return None, None;
      }
      if NodeKind(value.value) != kind {
        var e := Shape();
        return None, Some(e);
      }
    }

    static lemma ShapedBy(obj: Node, name: Name, kind: Kind, required: bool, nullable: bool)
      ensures FieldShaped(obj, name, kind, required, nullable)
              <==> FieldSole(obj, name)
                   && (FieldNode(obj, name).None? ==> !required)
                   && (FieldNode(obj, name).Some? ==>
                         NodeKind(FieldNode(obj, name).value) == kind || (nullable && NodeKind(FieldNode(obj, name).value) == NullKind))
    {
      hide FieldSole, FieldNode;
    }

    lemma Nothing(obj: Node, name: Name, done: set<Name>, n: Node)
      requires obj.ContainerNode? && Found(obj, name, done, n) && Ids(n) == {}
      ensures FieldIds(obj, name) == {} && (Untouched(obj, done) ==> Untouched(obj, done + {name}))
      ensures FieldNode(obj, name) == Some(n)
    {
      hide FieldNode, Suits, Ids, KeyIds, FieldIds;
    }

    lemma NullIds(n: Node)
      ensures NodeKind(n) == NullKind ==> Ids(n) == {}
    {
    }

    method MarkOpaqueStringField(obj: Node, name: Name, required: bool, nullable: bool, ghost done: set<Name>)
      returns (error: Option<WalkError>)
      requires Valid() && Suits(obj) && obj.ContainerNode?
      requires (Untouched(obj, done) && name !in done) || Taken() !! Ids(obj)
      modifies `opaques, budget
      ensures Valid() && Grew(Ids(obj)) && Taken() == old(Taken())
      ensures error.None? ==> err.None? && opaques == old(opaques) + FieldIds(obj, name)
      ensures error.None? && old(Untouched(obj, done)) ==> Untouched(obj, done + {name})
      ensures error.Some? ==> Honest(error.value)
      ensures Judged(error, FieldShaped(obj, name, StringKind, required, nullable))
    {
      hide FieldShaped, Selects, Suits, Valid, FieldNode, NameOf, Ids, KeyIds, FieldIds, Untouched, After, Describes;
      ghost var d := Disposed();
      ghost var clean := Untouched(obj, done);
      var value;
      value, error := NullableField(obj, name, StringKind, required, nullable, done);
      if error.Some? || value.None? {
        return;
      }
      error := MarkOpaque(value.value);
      if clean {
        Finish(obj, name, done, value.value, d);
      }
    }

    method MarkOpaqueStringFields(obj: Node, names: seq<Name>, ghost done: set<Name>) returns (error: Option<WalkError>)
      requires Valid() && Suits(obj) && obj.ContainerNode? && Untouched(obj, done)
      requires (forall i :: 0 <= i < |names| ==> names[i] !in done) || Taken() !! Ids(obj)
      requires forall i, j :: 0 <= i < j < |names| ==> names[i] != names[j]
      modifies `opaques, budget
      ensures Valid() && Grew(Ids(obj)) && Taken() == old(Taken())
      ensures error.None? ==>
                Untouched(obj, done + Listed(names)) && opaques == old(opaques) + KeyIds(obj, Listed(names))
      ensures error.Some? ==> Honest(error.value)
      ensures Judged(error, OptionalStrings(obj, names))
    {
      hide FieldShaped, Suits, Valid, FieldNode, NameOf, Ids, KeyIds, FieldIds, Untouched;
      assert done + Listed(names[..0]) == done;
      NoneListed(obj, names);
      for i := 0 to |names|
        invariant Valid() && Grew(Ids(obj)) && Taken() == old(Taken()) && Untouched(obj, done + Listed(names[..i]))
        invariant forall k :: 0 <= k < i ==> FieldShaped(obj, names[k], StringKind, false, true)
        invariant opaques == old(opaques) + KeyIds(obj, Listed(names[..i]))
      {
        assert done + Listed(names[..i]) + {names[i]} == done + Listed(names[..i + 1]);
        OneMoreKey(obj, names, i);
        error := MarkOpaqueStringField(obj, names[i], false, true, done + Listed(names[..i]));
        if error.Some? {
          return;
        }
      }
      assert names[..|names|] == names;
      error := None;
    }

    static lemma NoneListed(obj: Node, names: seq<Name>)
      requires obj.ContainerNode?
      ensures KeyIds(obj, Listed(names[..0])) == {} && names[..|names|] == names
    {
    }

    static lemma OneMoreKey(obj: Node, names: seq<Name>, i: nat)
      requires obj.ContainerNode? && i < |names|
      ensures KeyIds(obj, Listed(names[..i + 1])) == KeyIds(obj, Listed(names[..i])) + FieldIds(obj, names[i])
    {
      hide NameOf, Ids;
      assert Listed(names[..i + 1]) == Listed(names[..i]) + {names[i]};
    }

    static function Listed(names: seq<Name>): set<Name> {
      set i | 0 <= i < |names| :: names[i]
    }

    /** Marks whole subtrees opaque. */
    method MarkFields(obj: Node, names: seq<Name>, ghost done: set<Name>) returns (error: Option<WalkError>)
      requires Valid() && Suits(obj) && obj.ContainerNode? && Untouched(obj, done)
      requires forall i :: 0 <= i < |names| ==> names[i] !in done
      requires forall i, j :: 0 <= i < j < |names| ==> names[i] != names[j]
      modifies `opaques, budget
      ensures Valid() && Grew(Ids(obj)) && Taken() == old(Taken())
      ensures error.None? ==>
                Untouched(obj, done + Listed(names)) && opaques == old(opaques) + KeyIds(obj, Listed(names))
      ensures error.Some? ==> Honest(error.value)
      ensures Judged(error, forall i :: 0 <= i < |names| ==> FieldSole(obj, names[i]))
    {
      hide Suits, Valid, FieldNode, NameOf, Ids, KeyIds, FieldIds, Selects;
      assert done + Listed(names[..0]) == done;
      NoneListed(obj, names);
      for i := 0 to |names|
        invariant Valid() && Grew(Ids(obj)) && Taken() == old(Taken()) && Untouched(obj, done + Listed(names[..i]))
        invariant forall k :: 0 <= k < i ==> FieldSole(obj, names[k])
        invariant opaques == old(opaques) + KeyIds(obj, Listed(names[..i]))
      {
        ghost var so := done + Listed(names[..i]);
        assert so + {names[i]} == done + Listed(names[..i + 1]);
        OneMoreKey(obj, names, i);
        var value;
        value, error := Field(obj, names[i], so);
        if error.Some? {
          return;
        }
        Advance(obj, names[i], so, if value.Some? then Ids(value.value) else {}, Disposed());
        if value.Some? {
          error := MarkOpaque(value.value);
          if error.Some? {
            return;
          }
        }
      }
      assert names[..|names|] == names;
      error := None;
    }

    method AddStringField(obj: Node, name: Name, required: bool, nullable: bool, scope: Scope, kind: TargetKind, ghost done: set<Name>)
      returns (error: Option<WalkError>)
      requires Valid() && Suits(obj) && obj.ContainerNode? && Untouched(obj, done) && name !in done
      modifies `targets, `list, `listCap, `picks, budget
      ensures Valid() && Grew(Ids(obj))
      ensures error.None? ==> Untouched(obj, done + {name}) && FieldIds(obj, name) <= targets
      ensures error.None? ==> picks == old(picks) + StringPicks(FieldNode(obj, name), scope, kind, Direct)
      ensures error.Some? ==> Honest(error.value)
      ensures Judged(error, FieldShaped(obj, name, StringKind, required, nullable))
    {
      hide FieldShaped, Selects, Suits, Valid, FieldNode, NameOf, Ids, KeyIds, FieldIds, Untouched, After, Describes, PicksOf;
      ghost var d := Disposed();
      var value;
      value, error := NullableField(obj, name, StringKind, required, nullable, done);
      if error.Some? || value.None? {
        return;
      }
      error := Add(value.value, scope, kind, Direct);
      Finish(obj, name, done, value.value, d);
    }

    /** Selects every string below the node. */
    method WalkStringValues(n: Node, scope: Scope, kind: TargetKind) returns (error: Option<WalkError>)
      requires Valid() && Suits(n) && Disposed() !! Ids(n)
      modifies `targets, `list, `listCap, `picks, budget
      ensures Valid() && Grew(Ids(n))
      ensures error.None? ==> targets == old(targets) + Ids(n) && picks == old(picks) + PicksOf(Ids(n), scope, kind, Direct)
      ensures error.Some? ==> Honest(error.value)
      ensures Judged(error, true)
      decreases n
    {
      hide PicksOf, Suits, Valid, Ids, PrefixIds, Describes;
      error := None;
      if err.Some? {
        error := Sticky();
        return;
      }
      var canceled := ContextError(cancellable);
      if canceled {
        return Some(Cancelled);
      }
      NodeIds(n);
      PicksJoin({}, {}, scope, kind, Direct);
      match n {
      case StringNode(_, _, _, _, _) =>
        error := Add(n, scope, kind, Direct);
      case ContainerNode(_, _, items) =>
        for i := 0 to |items|
          invariant Valid() && error.None? && Disposed() <= old(Disposed()) + PrefixIds(items, i)
          invariant Taken() <= old(Taken()) + PrefixIds(items, i)
          invariant targets == old(targets) + PrefixIds(items, i)
          invariant picks == old(picks) + PicksOf(PrefixIds(items, i), scope, kind, Direct)
        {
          PrefixNext(items, i);
          ChildSuits(n, i);
          ChildApart(n, i);
          PicksJoin(PrefixIds(items, i), Ids(items[i].value), scope, kind, Direct);
          error := WalkStringValues(items[i].value, scope, kind);
          if error.Some? {
            PrefixAll(n, i + 1);
            return;
          }
        }
      case ScalarNode(_, _) =>
      }
    }

    method Sticky() returns (error: Option<WalkError>)
      requires Valid() && err.Some?
      ensures error == Some(OutOfBudget) && Honest(error.value)
    {
      error := err;
    }

    lemma ChildApart(n: Node, i: nat)
      requires n.ContainerNode? && i < |n.items| && Suits(n)
      ensures PrefixIds(n.items, i) !! Ids(n.items[i].value)
    {
    }

    lemma PrefixAll(n: Node, i: nat)
      requires n.ContainerNode? && i <= |n.items|
      ensures PrefixIds(n.items, i) <= Ids(n)
    {
    }

    method WalkStringObjectField(obj: Node, name: Name, required: bool, nullable: bool, scope: Scope, ghost done: set<Name>)
      returns (error: Option<WalkError>)
      requires Valid() && Suits(obj) && obj.ContainerNode? && Untouched(obj, done) && name !in done
      modifies `targets, `list, `listCap, `picks, budget
      ensures Valid() && Grew(Ids(obj))
      ensures error.None? ==> Untouched(obj, done + {name}) && FieldIds(obj, name) <= targets
      ensures error.None? ==> picks == old(picks) + ObjectPicks(FieldNode(obj, name), scope, JsonValue)
      ensures error.Some? ==> Honest(error.value)
      ensures Judged(error, FieldShaped(obj, name, ObjectKind, required, nullable))
    {
      hide FieldShaped, Selects, Suits, Valid, FieldNode, NameOf, Ids, KeyIds, FieldIds, Untouched, After, Describes;
      ghost var d := Disposed();
      var value;
      value, error := NullableField(obj, name, ObjectKind, required, nullable, done);
      if error.Some? || value.None? {
        return;
      }
      error := WalkStringValues(value.value, scope, JsonValue);
      Finish(obj, name, done, value.value, d);
    }
  }
}
