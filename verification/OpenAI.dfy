/** The chat-completions walk over the collector: which strings of a request are selected,
    which are protected, and which shapes are refused. */
module OpenAI {
  import opened ByteStrings
  import opened JsonGrammar
  import opened Names
  import opened Tree
  import opened Collecting
  import opened Selection
  import opened Shapes

  /** What is disposed of but not selected is protected or refused. */
  lemma Refused(c: Collector, ids: set<int>)
    requires ids <= c.Disposed()
    ensures c.targets !! ids ==> ids <= c.opaques + c.rejected
    ensures c.targets !! ids && c.opaques !! ids ==> ids <= c.rejected
  {
  }

  /** No string below the node has a disposition yet. */
  ghost predicate Ready(c: Collector, n: Node)
    reads c, c.budget
  {
    c.Valid() && c.Suits(n) && c.Disposed() !! Ids(n)
  }

  lemma ReadyObject(c: Collector, n: Node)
    requires Ready(c, n) && n.ContainerNode?
    ensures c.Untouched(n, {}) && c.Taken() !! Ids(n)
  {
    hide NameOf;
  }

  lemma FoundReady(c: Collector, obj: Node, name: Name, done: set<Name>, n: Node)
    requires c.Valid() && obj.ContainerNode? && c.Found(obj, name, done, n) && c.Untouched(obj, done)
    ensures name !in done ==> Ready(c, n)
    ensures FieldNode(obj, name) == Some(n)
    ensures c.Suits(n) && Ids(n) <= Ids(obj) && Ids(n) == FieldIds(obj, name) && c.After(obj, name, done, Ids(n), c.Disposed())
  {
  }

  // ----- shared content pieces --------------------------------------------

  /** A string member that is protected and then read, such as a type or a role. */
  method MarkedField(c: Collector, obj: Node, name: Name, required: bool, ghost done: set<Name>)
    returns (value: Option<Node>, error: Option<WalkError>)
    requires c.Valid() && c.Suits(obj) && obj.ContainerNode?
    requires (c.Untouched(obj, done) && name !in done) || c.Taken() !! Ids(obj)
    modifies c`opaques, c.budget
    ensures c.Valid() && c.Grew(Ids(obj)) && c.Taken() == old(c.Taken())
    ensures error.None? ==> (required ==> value.Some?) && value == FieldNode(obj, name) && c.opaques == old(c.opaques) + FieldIds(obj, name)
    ensures value.Some? ==>
              value.value.StringNode? && c.Suits(value.value) && Ids(value.value) <= Ids(obj)
              && (error.None? ==> Ids(value.value) <= c.opaques)
              && c.Disposed() <= old(c.Disposed()) + Ids(value.value)
              && (old(c.Untouched(obj, done)) ==> c.After(obj, name, done, Ids(value.value), old(c.Disposed())))
    ensures error.None? && old(c.Untouched(obj, done)) ==> c.Untouched(obj, done + {name})
    ensures error.Some? ==> c.Honest(error.value)
    ensures Judged(error, FieldShaped(obj, name, StringKind, required, false))
  {
    hide FieldShaped, c.Valid, FieldNode, NameOf, c.Suits, c.Untouched, c.After, Ids, KeyIds, FieldIds, Collector.Rejected,
         Collector.ShapeCost;
    ghost var d := c.Disposed();
    ghost var clean := c.Untouched(obj, done);
    value, error := c.NullableField(obj, name, StringKind, required, false, done);
    if error.Some? || value.None? {
      return;
    }
    error := c.MarkOpaque(value.value);
    if clean {
      c.Finish(obj, name, done, value.value, d);
    }
  }

  /** Checks the members of an object and protects its type. */
  method ReadType(c: Collector, obj: Node, names: seq<Name>) returns (kind: Bytes, error: Option<WalkError>)
    requires Ready(c, obj) && obj.ContainerNode?
    modifies c`opaques, c.budget
    ensures c.Valid() && c.Grew(Ids(obj)) && c.Taken() == old(c.Taken()) && c.Taken() !! Ids(obj)
    ensures error.None? ==>
              TextOf(obj, KeyType) == Some(kind) && c.Untouched(obj, {KeyType}) && c.opaques == old(c.opaques) + FieldIds(obj, KeyType)
    ensures error.Some? ==> c.Honest(error.value)
    ensures Judged(error, TypeShaped(obj, names))
  {
    hide FieldShaped, Unambiguous, c.Valid, FieldNode, NameOf, c.Suits, c.Untouched, c.After, Ids, KeyIds, FieldIds,
         Collector.Rejected, Collector.ShapeCost;
    kind := [];
    ReadyObject(c, obj);
    error := c.Unique(obj, names);
    if error.Some? {
      return;
    }
    var typeNode;
    typeNode, error := MarkedField(c, obj, KeyType, true, {});
    if error.Some? {
      return;
    }
    kind := typeNode.value.value;
    assert {} + {KeyType} == {KeyType};
  }

  method WalkCommonCacheBreakpoint(c: Collector, block: Node, ghost done: set<Name>) returns (error: Option<WalkError>)
    requires c.Valid() && c.Suits(block) && block.ContainerNode? && c.Untouched(block, done) && KeyPromptCacheBreakpoint !in done
    modifies c`opaques, c.budget
    ensures c.Valid() && c.Grew(Ids(block)) && c.Taken() == old(c.Taken())
    ensures error.None? ==> c.Untouched(block, done + {KeyPromptCacheBreakpoint}) && c.opaques == old(c.opaques) + BreakpointIds(block)
    ensures error.Some? ==> c.Honest(error.value)
    ensures Judged(error, BreakpointShaped(block))
  {
    hide FieldShaped, Unambiguous, c.Valid, FieldNode, NameOf, Ids, Collector.Rejected, Collector.ShapeCost;
    var breakpoint;
    ghost var d := c.Disposed();
    breakpoint, error := c.NullableField(block, KeyPromptCacheBreakpoint, ObjectKind, false, true, done);
    if error.Some? || breakpoint.None? {
      return;
    }
    error := c.Unique(breakpoint.value, [KeyMode]);
    if error.Some? {
      return;
    }
    error := c.MarkOpaqueStringField(breakpoint.value, KeyMode, true, false, {});
    c.Finish(block, KeyPromptCacheBreakpoint, done, breakpoint.value, d);
  }

  /** The prompt-cache marker: its control tokens are protected, other strings in it are not. */
  method WalkAnthropicCacheControl(c: Collector, obj: Node, ghost done: set<Name>) returns (error: Option<WalkError>)
    requires c.Valid() && c.Suits(obj) && obj.ContainerNode? && c.Untouched(obj, done) && KeyCacheControl !in done
    modifies c`opaques, c.budget
    ensures c.Valid() && c.Grew(Ids(obj)) && c.Taken() == old(c.Taken())
    ensures error.None? ==> c.Untouched(obj, done + {KeyCacheControl}) && c.opaques == old(c.opaques) + CacheControlIds(obj)
    ensures error.Some? ==> c.Honest(error.value)
    ensures Judged(error, CacheControlShaped(obj))
  {
    hide FieldShaped, Unambiguous, c.Valid, FieldNode, NameOf, Ids, Collector.Rejected, Collector.ShapeCost;
    ghost var d := c.Disposed();
    var cacheControl;
    cacheControl, error := c.NullableField(obj, KeyCacheControl, ObjectKind, false, true, done);
    if error.Some? || cacheControl.None? {
      return;
    }
    error := c.Unique(cacheControl.value, [KeyType, KeyTtl]);
    if error.Some? {
      return;
    }
    error := c.MarkOpaqueStringField(cacheControl.value, KeyType, true, false, {});
    if error.Some? {
      return;
    }
    error := c.MarkOpaqueStringField(cacheControl.value, KeyTtl, false, true, {});
    c.Finish(obj, KeyCacheControl, done, cacheControl.value, d);
  }

  /** Media blocks: strings are protected, objects only in their known fields. */
  method WalkCommonOpaqueContentFields(c: Collector, block: Node, fields: seq<Name>) returns (error: Option<WalkError>)
    requires c.Valid() && c.Suits(block) && block.ContainerNode? && c.Taken() !! Ids(block)
    modifies c`opaques, c.budget
    ensures c.Valid() && c.Grew(Ids(block)) && c.Taken() == old(c.Taken())
    ensures error.None? ==> c.opaques == old(c.opaques) + MediaIds(block, fields, |fields|)
    ensures error.Some? ==> c.Honest(error.value)
    ensures Judged(error, MediaShaped(block, fields))
  {
    hide MediaFieldShaped, NestedShaped, FieldSole, c.Valid, FieldNode, NameOf, c.Untouched, c.After, c.Suits, Ids,
         OpaqueNestedFields, FieldIds, KeyIds, MediaIds, MediaFieldIds, NamedIds, Collector.Rejected, Collector.ShapeCost;
    error := None;
    NoMedia(block, fields);
    for i := 0 to |fields|
      invariant c.Valid() && c.Grew(Ids(block)) && c.Taken() == old(c.Taken()) && error.None?
      invariant forall k :: 0 <= k < i ==> MediaFieldShaped(block, fields[k])
      invariant c.opaques == old(c.opaques) + MediaIds(block, fields, i)
    {
      MediaCases(block, fields, i);
      MediaFieldCases(block, fields[i]);
      var value;
      value, error := c.AnyField(block, fields[i], {});
      if error.Some? {
        return;
      }
      if value.None? || NodeKind(value.value) == NullKind {
        continue;
      }
      if NodeKind(value.value) == StringKind {
        error := c.MarkOpaque(value.value);
        if error.Some? {
          return;
        }
        continue;
      }
      var nested := OpaqueNestedFields(fields[i]);
      if nested.None? || NodeKind(value.value) != ObjectKind {
        var e := c.Shape();
        return Some(e);
      }
      error := MarkNestedFields(c, block, value.value, nested.value);
      if error.Some? {
        return;
      }
    }
  }

  lemma NoMedia(block: Node, fields: seq<Name>)
    ensures MediaIds(block, fields, 0) == {}
  {
  }

  lemma MediaCases(block: Node, fields: seq<Name>, i: nat)
    requires i < |fields|
    ensures MediaIds(block, fields, i + 1) == MediaIds(block, fields, i) + MediaFieldIds(block, fields[i])
    ensures var v := FieldNode(block, fields[i]);
            (v.None? || NodeKind(v.value) == NullKind ==> MediaFieldIds(block, fields[i]) == {})
            && (v.Some? && NodeKind(v.value) == StringKind ==> MediaFieldIds(block, fields[i]) == Ids(v.value))
            && (v.Some? && NodeKind(v.value) == ObjectKind && OpaqueNestedFields(fields[i]).Some? ==>
                  MediaFieldIds(block, fields[i]) == NamedIds(v.value, OpaqueNestedFields(fields[i]).value))
  {
    hide NameOf, Ids, FieldNode, FieldIds, KeyIds, OpaqueNestedFields;
  }

  /** The known members of a media object. */
  method MarkNestedFields(c: Collector, block: Node, value: Node, names: seq<Name>) returns (error: Option<WalkError>)
    requires c.Valid() && c.Suits(value) && value.ContainerNode? && Ids(value) <= Ids(block) && c.Taken() !! Ids(block)
    modifies c`opaques, c.budget
    ensures c.Valid() && c.Grew(Ids(block)) && c.Taken() == old(c.Taken())
    ensures error.None? ==> c.opaques == old(c.opaques) + NamedIds(value, names)
    ensures error.Some? ==> c.Honest(error.value)
    ensures Judged(error, NestedShaped(value, names))
  {
    hide FieldShaped, Unambiguous, c.Valid, FieldNode, NameOf, c.Suits, c.Untouched, Ids, FieldIds, KeyIds,
         Collector.Rejected, Collector.ShapeCost, Collector.Listed;
    error := c.Unique(value, names);
    if error.Some? {
      return;
    }
    Collector.NoneListed(value, names);
    for k := 0 to |names|
      invariant c.Valid() && c.Grew(Ids(block)) && c.Taken() == old(c.Taken()) && error.None?
      invariant forall i :: 0 <= i < k ==> FieldShaped(value, names[i], StringKind, false, true)
      invariant c.opaques == old(c.opaques) + KeyIds(value, Collector.Listed(names[..k]))
    {
      Collector.OneMoreKey(value, names, k);
      error := c.MarkOpaqueStringField(value, names[k], false, true, {});
      if error.Some? {
        return;
      }
    }
  }

  const BLOCK_DONE := Collector.Listed(BLOCK_NAMES) + {KeyPromptCacheBreakpoint} + {KeyCacheControl}

  lemma BlockDone(name: Name)
    ensures name in BLOCK_DONE ==>
              name == KeyId || name == KeyName || name == KeyCallId || name == KeySignature
              || name == KeyPromptCacheBreakpoint || name == KeyCacheControl
    ensures name in Collector.Listed(BLOCK_NAMES) ==>
              name == KeyId || name == KeyName || name == KeyCallId || name == KeySignature
  {
  }

  /** The identifiers and cache markers of a content block. */
  method MarkBlockControls(c: Collector, block: Node) returns (error: Option<WalkError>)
    requires Ready(c, block) && block.ContainerNode? && block.isObject
    modifies c`opaques, c.budget
    ensures c.Valid() && c.Grew(Ids(block)) && c.Taken() == old(c.Taken())
    ensures error.None? ==>
              c.Untouched(block, BLOCK_DONE)
              && c.opaques == old(c.opaques) + (NamedIds(block, BLOCK_NAMES) + BreakpointIds(block) + CacheControlIds(block))
    ensures error.Some? ==> c.Honest(error.value)
    ensures Judged(error, BlockControlsShaped(block))
  {
    hide BreakpointShaped, CacheControlShaped, OptionalStrings, Unambiguous, c.Valid, FieldNode, NameOf, c.Suits, c.Untouched,
         Ids, FieldIds, Collector.Rejected, Collector.ShapeCost;
    ReadyObject(c, block);
    BlockDone(KeyPromptCacheBreakpoint);
    BlockDone(KeyCacheControl);
    error := c.Unique(block, BLOCK_MEMBERS);
    if error.Some? {
      return;
    }
    error := c.MarkOpaqueStringFields(block, BLOCK_NAMES, {});
    if error.Some? {
      return;
    }
    ghost var done := {} + Collector.Listed(BLOCK_NAMES);
    assert done == Collector.Listed(BLOCK_NAMES);
    error := WalkCommonCacheBreakpoint(c, block, done);
    if error.Some? {
      return;
    }
    error := WalkAnthropicCacheControl(c, block, done + {KeyPromptCacheBreakpoint});
  }

  method WalkTypedTextBlock(c: Collector, block: Node, scope: Scope) returns (error: Option<WalkError>)
    requires Ready(c, block)
    modifies c, c.budget
    ensures c.Valid() && c.Grew(Ids(block))
    ensures error.None? ==>
              c.picks == old(c.picks) + BlockPicks(block, scope)
              && c.opaques == old(c.opaques) + BlockOpaques(block)
    ensures error.None? && c.err.None? && BlockUnknown(block) ==> Ids(block) <= c.opaques + c.rejected
    ensures error.Some? ==> c.Honest(error.value)
    ensures Judged(error, BlockShaped(block))
  {
    hide BlockControlsShaped, BlockBodyShaped, c.Valid, FieldNode, NameOf, c.Suits, c.Untouched, Ids, KeyIds, FieldIds, Ascii,
         Collector.Rejected, Collector.ShapeCost, BlockUnknown, BlockPicks, BlockOpaques, BlockBodyIds, NamedIds,
         BreakpointIds, CacheControlIds, BLOCK_DONE;
    if NodeKind(block) != ObjectKind {
      c.Unsupported(block, "content array element is not an object");
      if c.err.None? {
        Refused(c, Ids(block));
      }
      NoBlock(block, scope);
      return None;
    }
    BlockWhole(block);
    error := MarkBlockControls(c, block);
    if error.Some? {
      return;
    }
    error := WalkBlockText(c, block, scope);
  }

  lemma NoBlock(block: Node, scope: Scope)
    ensures NodeKind(block) != ObjectKind ==> BlockPicks(block, scope) == {} && BlockOpaques(block) == {}
  {
  }

  lemma BlockWhole(block: Node)
    requires NodeKind(block) == ObjectKind
    ensures BlockOpaques(block)
            == NamedIds(block, BLOCK_NAMES) + BreakpointIds(block) + CacheControlIds(block) + BlockBodyIds(block)
  {
  }

  /** What a block selects, protects and is refused for depends on its type. */
  lemma BlockCases(block: Node, scope: Scope, t: Bytes)
    requires block.ContainerNode? && block.isObject
    ensures FieldNode(block, KeyType).None? ==> BlockPicks(block, scope) == {} && BlockBodyIds(block) == FieldIds(block, KeyType)
    ensures TextOf(block, KeyType) == Some(t) ==>
              if IsTextBlockType(t) then
                BlockPicks(block, scope) == StringPicks(FieldNode(block, KeyText), scope, NaturalText, Direct)
                && BlockBodyIds(block) == FieldIds(block, KeyType) && !BlockUnknown(block)
              else if t == Ascii("refusal") then
                BlockPicks(block, scope) == StringPicks(FieldNode(block, KeyRefusal), scope, NaturalText, Direct)
                && BlockBodyIds(block) == FieldIds(block, KeyType) && !BlockUnknown(block)
              else
                BlockPicks(block, scope) == {}
                && match OpaqueContentFields(t)
                   case None => BlockBodyIds(block) == FieldIds(block, KeyType)
                   case Some(fields) =>
                     BlockBodyIds(block) == FieldIds(block, KeyType) + MediaIds(block, fields, |fields|) && !BlockUnknown(block)
  {
    hide OpaqueContentFields, MediaIds, FieldNode, StringPicks, FieldIds, IsTextBlockType, Ascii;
  }

  method WalkBlockText(c: Collector, block: Node, scope: Scope) returns (error: Option<WalkError>)
    requires c.Valid() && c.Suits(block) && block.ContainerNode? && block.isObject
    requires c.Untouched(block, BLOCK_DONE) && c.Taken() !! Ids(block)
    modifies c, c.budget
    ensures c.Valid() && c.Grew(Ids(block))
    ensures error.None? ==>
              c.picks == old(c.picks) + BlockPicks(block, scope)
              && c.opaques == old(c.opaques) + BlockBodyIds(block)
    ensures error.None? && c.err.None? && BlockUnknown(block) ==> Ids(block) <= c.opaques + c.rejected
    ensures error.Some? ==> c.Honest(error.value)
    ensures Judged(error, BlockBodyShaped(block))
  {
    hide MediaShaped, FieldShaped, c.Valid, FieldNode, NameOf, c.Suits, c.Untouched, c.After, Ids, KeyIds, FieldIds,
         OpaqueContentFields, Ascii, IsTextBlockType, Collector.Rejected, Collector.ShapeCost, BlockUnknown, BlockPicks,
         BlockBodyIds, MediaIds, StringPicks, BLOCK_DONE;
    BlockDone(KeyType);
    BlockDone(KeyText);
    BlockDone(KeyRefusal);
    var typeNode;
    typeNode, error := MarkedField(c, block, KeyType, false, BLOCK_DONE);
    if error.Some? {
      return;
    }
    if typeNode.None? {
      BlockCases(block, scope, []);
      c.Unsupported(block, "content block has no type");
      if c.err.None? {
        Refused(c, Ids(block));
      }
      return None;
    }
    var blockType := typeNode.value.value;
    BlockCases(block, scope, blockType);
    if IsTextBlockType(blockType) {
      error := c.AddStringField(block, KeyText, true, false, scope, NaturalText, BLOCK_DONE + {KeyType});
    } else if blockType == Ascii("refusal") {
      error := c.AddStringField(block, KeyRefusal, true, false, scope, NaturalText, BLOCK_DONE + {KeyType});
    } else {
      var fields := OpaqueContentFields(blockType);
      if fields.Some? {
        error := WalkCommonOpaqueContentFields(c, block, fields.value);
      } else {
        c.UnsupportedValue(block, "unknown content block type ", blockType);
        if c.err.None? {
          Refused(c, Ids(block));
        }
        error := None;
      }
    }
  }

  /** The next item of a list is untouched when only earlier items were walked. */
  lemma NextReady(c: Collector, n: Node, i: nat, d: set<int>)
    requires c.Valid() && c.Suits(n) && n.ContainerNode? && i < |n.items| && d !! Ids(n)
    requires c.Disposed() <= d + PrefixIds(n.items, i)
    ensures Ready(c, n.items[i].value)
    ensures PrefixIds(n.items, i + 1) == PrefixIds(n.items, i) + Ids(n.items[i].value)
    ensures Ids(n.items[i].value) <= Ids(n) && PrefixIds(n.items, |n.items|) == Ids(n) && PrefixIds(n.items, 0) == {}
  {
    PrefixNext(n.items, i);
    c.ChildSuits(n, i);
    c.ChildApart(n, i);
    c.NodeIds(n);
  }

  lemma UnionNext<T>(items: seq<Item>, i: nat, select: Node -> set<T>)
    requires i < |items|
    ensures UnionOf(items, i + 1, select) == UnionOf(items, i, select) + select(items[i].value)
  {
  }

  lemma BlocksNext(items: seq<Item>, i: nat, scope: Scope)
    requires i < |items|
    ensures BlocksPicks(items, i + 1, scope) == BlocksPicks(items, i, scope) + BlockPicks(items[i].value, scope)
  {
  }

  lemma UnionNone<T>(items: seq<Item>, select: Node -> set<T>)
    ensures UnionOf(items, 0, select) == {}
  {
  }

  lemma ListCases<T>(v: Option<Node>, select: Node -> set<T>)
    ensures v.None? || NodeKind(v.value) == NullKind ==> ListUnion(v, select) == {}
    ensures v.Some? && NodeKind(v.value) == ArrayKind ==> ListUnion(v, select) == UnionOf(v.value.items, |v.value.items|, select)
  {
  }

  lemma NoneReady(c: Collector, n: Node)
    requires n.ContainerNode?
    ensures PrefixIds(n.items, 0) == {} && PrefixIds(n.items, |n.items|) == Ids(n)
  {
  }

  lemma ContentCases(content: Node, scope: Scope)
    ensures NodeKind(content) == StringKind ==>
              ContentPicks(Some(content), scope) == PicksOf(Ids(content), scope, NaturalText, Direct)
    ensures NodeKind(content) == NullKind ==> ContentPicks(Some(content), scope) == {}
    ensures NodeKind(content) == ArrayKind ==>
              ContentPicks(Some(content), scope) == BlocksPicks(content.items, |content.items|, scope)
              && BlocksPicks(content.items, 0, scope) == {}
              && ContentOpaques(Some(content)) == UnionOf(content.items, |content.items|, BlockOpaques)
              && UnionOf(content.items, 0, BlockOpaques) == {}
    ensures NodeKind(content) != ArrayKind ==> ContentOpaques(Some(content)) == {}
  {
  }

  method WalkTypedTextContent(c: Collector, content: Node, scope: Scope) returns (error: Option<WalkError>)
    requires Ready(c, content)
    modifies c, c.budget
    ensures c.Valid() && c.Grew(Ids(content))
    ensures error.None? && NodeKind(content) == StringKind ==> Ids(content) <= c.targets
    ensures error.None? ==>
              c.picks == old(c.picks) + ContentPicks(Some(content), scope)
              && c.opaques == old(c.opaques) + ContentOpaques(Some(content))
    ensures error.Some? ==> c.Honest(error.value)
    ensures Judged(error, ContentShaped(content))
  {
    hide BlockShaped, c.Valid, FieldNode, NameOf, c.Suits, Ids, PrefixIds, c.Describes, ContentPicks, ContentOpaques,
         BlockPicks, BlockOpaques, BlocksPicks, UnionOf, PicksOf, BlockUnknown, Collector.Rejected, Collector.ShapeCost,
         c.Untouched;
    ContentCases(content, scope);
    error := None;
    if NodeKind(content) == StringKind {
      error := c.Add(content, scope, NaturalText, Direct);
    } else if NodeKind(content) == NullKind {
      return None;
    } else if NodeKind(content) == ArrayKind {
      ghost var d := c.Disposed();
      ghost var picks, opaques := c.picks, c.opaques;
      NoneReady(c, content);
      for i := 0 to |content.items|
        invariant c.Valid() && c.Grew(Ids(content)) && c.Disposed() <= d + PrefixIds(content.items, i) && error.None?
        invariant AllOf(content.items, i, BlockShaped)
        invariant c.picks == picks + BlocksPicks(content.items, i, scope)
        invariant c.opaques == opaques + UnionOf(content.items, i, BlockOpaques)
      {
        BlocksNext(content.items, i, scope);
        UnionNext(content.items, i, BlockOpaques);
        NextReady(c, content, i, d);
        error := WalkTypedTextBlock(c, content.items[i].value, scope);
        if error.Some? {
          return;
        }
      }
    } else {
      var e := c.Shape();
      error := Some(e);
    }
  }

  // ----- reasoning replay -------------------------------------------------

  method WalkReasoningDetail(c: Collector, detail: Node) returns (error: Option<WalkError>)
    requires Ready(c, detail)
    modifies c, c.budget
    ensures c.Valid() && c.Grew(Ids(detail))
    ensures error.None? ==> c.picks == old(c.picks) && c.opaques == old(c.opaques) + DetailOpaques(detail)
    ensures error.Some? ==> c.Honest(error.value)
    ensures Judged(error, DetailShaped(detail))
  {
    hide OptionalStrings, ReasoningTextShaped, FieldShaped, FieldSole, KeysDistinct, c.Valid, FieldNode, NameOf, c.Suits,
         c.Untouched, c.After, Ids, KeyIds, FieldIds, Ascii, Collector.Rejected, Collector.ShapeCost;
    TwoOptional(detail, KeyId, KeyFormat);
    if NodeKind(detail) != ObjectKind {
      var e := c.Shape();
      return Some(e);
    }
    ReadyObject(c, detail);
    error := c.UniqueObjectKeys(detail);
    if error.Some? {
      return;
    }
    var typeNode;
    typeNode, error := MarkedField(c, detail, KeyType, true, {});
    if error.Some? {
      return;
    }
    error := c.MarkOpaqueStringField(detail, KeyId, false, true, {});
    if error.Some? {
      return;
    }
    error := c.MarkOpaqueStringField(detail, KeyFormat, false, true, {});
    if error.Some? {
      return;
    }
    var index;
    index, error := c.AnyField(detail, KeyIndex, {});
    if error.Some? {
      return;
    }
    if index.Some? && NodeKind(index.value) != NumberKind && NodeKind(index.value) != NullKind {
      var e := c.Shape();
      return Some(e);
    }
    error := WalkReasoningText(c, detail, typeNode.value.value);
  }

  method WalkReasoningText(c: Collector, detail: Node, kind: Bytes) returns (error: Option<WalkError>)
    requires c.Valid() && c.Suits(detail) && detail.ContainerNode? && c.Taken() !! Ids(detail)
    modifies c, c.budget
    ensures c.Valid() && c.Grew(Ids(detail))
    ensures error.None? ==> c.picks == old(c.picks) && c.opaques == old(c.opaques) + ReasoningTextIds(detail, kind)
    ensures error.Some? ==> c.Honest(error.value)
    ensures Judged(error, ReasoningTextShaped(detail, kind))
  {
    hide OptionalStrings, FieldShaped, c.Valid, FieldNode, NameOf, c.Suits, c.Untouched, Ids, KeyIds, FieldIds, Ascii,
         Collector.Rejected, Collector.ShapeCost;
    TwoOptional(detail, KeyText, KeySignature);
    if kind == Ascii("reasoning.text") {
      error := c.MarkOpaqueStringField(detail, KeyText, false, true, {});
      if error.Some? {
        return;
      }
      error := c.MarkOpaqueStringField(detail, KeySignature, false, true, {});
    } else if kind == Ascii("reasoning.summary") {
      error := c.MarkOpaqueStringField(detail, KeySummary, true, false, {});
    } else if kind == Ascii("reasoning.encrypted") {
      error := c.MarkOpaqueStringField(detail, KeyData, true, false, {});
    } else {
      c.UnsupportedValue(detail, "unknown reasoning_details type ", kind);
      error := None;
    }
  }

  /** Replayed reasoning belongs to an assistant: protected there, refused elsewhere. */
  method WalkReasoningString(c: Collector, message: Node, name: Name, assistant: bool, detail: string, ghost done: set<Name>)
    returns (error: Option<WalkError>)
    requires c.Valid() && c.Suits(message) && message.ContainerNode? && c.Untouched(message, done) && name !in done
    modifies c, c.budget
    ensures c.Valid() && c.Grew(Ids(message))
    ensures error.None? ==> c.Untouched(message, done + {name}) && c.picks == old(c.picks)
    ensures error.None? ==> c.opaques == old(c.opaques) + if assistant then FieldIds(message, name) else {}
    ensures error.None? && c.err.None? && !assistant ==> FieldIds(message, name) <= c.rejected
    ensures error.Some? ==> c.Honest(error.value)
    ensures Judged(error, FieldShaped(message, name, StringKind, false, true))
  {
    hide FieldShaped, c.Valid, FieldNode, NameOf, c.Suits, c.Untouched, c.After, c.Found, Ids, KeyIds, FieldIds,
         Collector.Rejected, Collector.ShapeCost;
    ghost var d := c.Disposed();
    var value;
    value, error := c.NullableField(message, name, StringKind, false, true, done);
    if error.Some? || value.None? {
      return;
    }
    FoundReady(c, message, name, done, value.value);
    error := PlaceReasoning(c, value.value, assistant, detail);
    if error.Some? {
      return;
    }
    c.Finish(message, name, done, value.value, d);
  }

  method PlaceReasoning(c: Collector, value: Node, assistant: bool, detail: string) returns (error: Option<WalkError>)
    requires Ready(c, value)
    modifies c, c.budget
    ensures c.Valid() && c.Grew(Ids(value))
    ensures error.None? ==> c.picks == old(c.picks) && c.opaques == old(c.opaques) + if assistant then Ids(value) else {}
    ensures error.None? && c.err.None? && !assistant ==> Ids(value) <= c.rejected
    ensures error.Some? ==> c.Honest(error.value)
    ensures Judged(error, true)
  {
    hide c.Valid, c.Suits, Ids, Collector.Rejected, Collector.ShapeCost;
    if assistant {
      error := c.MarkOpaque(value);
      return;
    }
    c.Unsupported(value, detail);
    if c.err.None? {
      Refused(c, Ids(value));
    }
    error := None;
  }

  method WalkReasoningReplay(c: Collector, message: Node, assistant: bool, ghost done: set<Name>) returns (error: Option<WalkError>)
    requires c.Valid() && c.Suits(message) && message.ContainerNode? && c.Untouched(message, done)
    requires KeyReasoning !in done && KeyReasoningContent !in done && KeyReasoningDetails !in done
    modifies c, c.budget
    ensures c.Valid() && c.Grew(Ids(message))
    ensures error.None? ==> c.Untouched(message, done + {KeyReasoning} + {KeyReasoningContent} + {KeyReasoningDetails})
    ensures error.None? ==> c.picks == old(c.picks) && c.opaques == old(c.opaques) + ReasoningOpaques(message, assistant)
    ensures error.None? && c.err.None? && !assistant ==>
              FieldIds(message, KeyReasoning) + FieldIds(message, KeyReasoningContent) + FieldIds(message, KeyReasoningDetails)
              <= c.rejected
    ensures error.Some? ==> c.Honest(error.value)
    ensures Judged(error, ReasoningShaped(message, assistant))
  {
    hide OptionalStrings, DetailsShaped, FieldShaped, c.Valid, FieldNode, NameOf, c.Suits, c.Untouched, c.After, Ids, KeyIds,
         FieldIds, PrefixIds, Collector.Rejected, Collector.ShapeCost;
    TwoOptional(message, KeyReasoning, KeyReasoningContent);
    error := WalkReasoningString(c, message, KeyReasoning, assistant, "reasoning outside an assistant message", done);
    if error.Some? {
      return;
    }
    error := WalkReasoningString(c, message, KeyReasoningContent, assistant, "reasoning_content outside an assistant message",
                                 done + {KeyReasoning});
    if error.Some? {
      return;
    }
    error := WalkReasoningDetails(c, message, assistant, done + {KeyReasoning} + {KeyReasoningContent});
  }

  method WalkReasoningDetails(c: Collector, message: Node, assistant: bool, ghost done: set<Name>) returns (error: Option<WalkError>)
    requires c.Valid() && c.Suits(message) && message.ContainerNode? && c.Untouched(message, done) && KeyReasoningDetails !in done
    modifies c, c.budget
    ensures c.Valid() && c.Grew(Ids(message))
    ensures error.None? ==> c.Untouched(message, done + {KeyReasoningDetails}) && c.picks == old(c.picks)
    ensures error.None? ==>
              c.opaques == old(c.opaques) + if assistant then ListUnion(FieldNode(message, KeyReasoningDetails), DetailOpaques) else {}
    ensures error.None? && c.err.None? && !assistant ==> FieldIds(message, KeyReasoningDetails) <= c.rejected
    ensures error.Some? ==> c.Honest(error.value)
    ensures Judged(error, DetailsShaped(message, assistant))
  {
    hide DetailShaped, FieldShaped, c.Valid, FieldNode, NameOf, c.Suits, c.Untouched, c.After, c.Found, Ids, KeyIds, FieldIds,
         DetailOpaques, UnionOf, ListUnion, Collector.Rejected, Collector.ShapeCost;
    ListCases(FieldNode(message, KeyReasoningDetails), DetailOpaques);
    ghost var d := c.Disposed();
    var details;
    details, error := c.NullableField(message, KeyReasoningDetails, ArrayKind, false, true, done);
    if error.Some? || details.None? {
      return;
    }
    FoundReady(c, message, KeyReasoningDetails, done, details.value);
    error := PlaceDetails(c, details.value, assistant);
    if error.Some? {
      return;
    }
    c.Finish(message, KeyReasoningDetails, done, details.value, d);
  }

  method PlaceDetails(c: Collector, details: Node, assistant: bool) returns (error: Option<WalkError>)
    requires Ready(c, details) && details.ContainerNode?
    modifies c, c.budget
    ensures c.Valid() && c.Grew(Ids(details))
    ensures error.None? ==> c.picks == old(c.picks)
    ensures error.None? ==>
              c.opaques == old(c.opaques) + if assistant then UnionOf(details.items, |details.items|, DetailOpaques) else {}
    ensures error.None? && c.err.None? && !assistant ==> Ids(details) <= c.rejected
    ensures error.Some? ==> c.Honest(error.value)
    ensures Judged(error, assistant ==> AllOf(details.items, |details.items|, DetailShaped))
  {
    hide ReasoningTextShaped, IndexShaped, DetailShaped, FieldShaped, OptionalStrings, KeysDistinct, c.Valid, c.Suits, Ids,
         DetailOpaques, UnionOf, Collector.Rejected, Collector.ShapeCost;
    if assistant {
      error := WalkDetails(c, details);
      return;
    }
    c.Unsupported(details, "reasoning_details outside an assistant message");
    if c.err.None? {
      Refused(c, Ids(details));
    }
    error := None;
  }

  method WalkDetails(c: Collector, details: Node) returns (error: Option<WalkError>)
    requires Ready(c, details) && details.ContainerNode?
    modifies c, c.budget
    ensures c.Valid() && c.Grew(Ids(details))
    ensures error.None? ==>
              c.picks == old(c.picks) && c.opaques == old(c.opaques) + UnionOf(details.items, |details.items|, DetailOpaques)
    ensures error.Some? ==> c.Honest(error.value)
    ensures Judged(error, AllOf(details.items, |details.items|, DetailShaped))
  {
    hide ReasoningTextShaped, IndexShaped, DetailShaped, FieldShaped, OptionalStrings, KeysDistinct, c.Valid, c.Suits, Ids,
         PrefixIds, DetailOpaques, UnionOf;
    error := None;
    ghost var d := c.Disposed();
    UnionNone(details.items, DetailOpaques);
    NoneReady(c, details);
    for i := 0 to |details.items|
      invariant c.Valid() && c.Grew(Ids(details)) && c.Disposed() <= d + PrefixIds(details.items, i) && error.None?
      invariant AllOf(details.items, i, DetailShaped)
      invariant c.picks == old(c.picks) && c.opaques == old(c.opaques) + UnionOf(details.items, i, DetailOpaques)
    {
      UnionNext(details.items, i, DetailOpaques);
      NextReady(c, details, i, d);
      error := WalkReasoningDetail(c, details.items[i].value);
      if error.Some? {
        return;
      }
    }
  }

  // ----- tool calls and definitions ---------------------------------------

  lemma NotListed(names: seq<Name>, name: Name)
    requires forall i :: 0 <= i < |names| ==> names[i] != name
    ensures name !in Collector.Listed(names)
  {
  }

  method MarkFunctionNames(c: Collector, function_: Node) returns (error: Option<WalkError>)
    requires Ready(c, function_) && function_.ContainerNode? && function_.isObject
    modifies c`opaques, c.budget
    ensures c.Valid() && c.Grew(Ids(function_))
    ensures error.None? ==>
              c.Untouched(function_, Collector.Listed(FUNCTION_NAMES))
              && c.opaques == old(c.opaques) + FunctionOpaques(function_)
    ensures error.Some? ==> c.Honest(error.value)
    ensures Judged(error, Unambiguous(function_, [KeyArguments, KeyName, KeyId, KeyCallId]) && OptionalStrings(function_, FUNCTION_NAMES))
  {
    hide OptionalStrings, Unambiguous, c.Valid, FieldNode, NameOf, c.Suits, c.Untouched, c.After, c.Found, Ids, KeyIds,
         FieldIds, Collector.Listed, Collector.Rejected, Collector.ShapeCost;
    ReadyObject(c, function_);
    error := c.Unique(function_, [KeyArguments, KeyName, KeyId, KeyCallId]);
    if error.Some? {
      return;
    }
    error := c.MarkOpaqueStringFields(function_, FUNCTION_NAMES, {});
    assert {} + Collector.Listed(FUNCTION_NAMES) == Collector.Listed(FUNCTION_NAMES);
  }

  /** A tool call: its encoded arguments are selected, its identifiers protected. */
  method WalkFunction(c: Collector, function_: Node) returns (error: Option<WalkError>)
    requires Ready(c, function_) && function_.ContainerNode? && function_.isObject
    modifies c, c.budget
    ensures c.Valid() && c.Grew(Ids(function_))
    ensures error.None? ==> FieldIds(function_, KeyArguments) <= c.targets
    ensures error.None? ==>
              c.picks == old(c.picks) + FunctionPicks(function_)
              && c.opaques == old(c.opaques) + FunctionOpaques(function_)
    ensures error.Some? ==> c.Honest(error.value)
    ensures Judged(error, FunctionShaped(function_))
  {
    hide FieldShaped, OptionalStrings, Unambiguous, c.Valid, FieldNode, NameOf, c.Suits, c.Untouched, c.After, c.Found, Ids,
         KeyIds, FieldIds, Collector.Listed, Collector.Rejected, Collector.ShapeCost;
    error := MarkFunctionNames(c, function_);
    if error.Some? {
      return;
    }
    NotListed(FUNCTION_NAMES, KeyArguments);
    error := SelectArguments(c, function_, Collector.Listed(FUNCTION_NAMES));
  }

  method SelectArguments(c: Collector, function_: Node, ghost done: set<Name>) returns (error: Option<WalkError>)
    requires c.Valid() && c.Suits(function_) && function_.ContainerNode? && c.Untouched(function_, done) && KeyArguments !in done
    modifies c`targets, c`list, c`listCap, c`picks, c.budget
    ensures c.Valid() && c.Grew(Ids(function_))
    ensures error.None? ==> FieldIds(function_, KeyArguments) <= c.targets
    ensures error.None? ==> c.picks == old(c.picks) + FunctionPicks(function_)
    ensures error.Some? ==> c.Honest(error.value)
    ensures Judged(error, FieldShaped(function_, KeyArguments, StringKind, false, false))
  {
    hide FieldShaped, c.Valid, FieldNode, NameOf, c.Suits, c.Untouched, c.After, c.Found, Ids, KeyIds, FieldIds, c.Describes,
         Collector.Rejected, Collector.ShapeCost;
    var arguments;
    arguments, error := c.NullableField(function_, KeyArguments, StringKind, false, false, done);
    if error.Some? || arguments.None? {
      return;
    }
    FoundReady(c, function_, KeyArguments, done, arguments.value);
    error := c.Add(arguments.value, ScopeToolInput, EncodedJson, EncodedJsonText);
  }

  method WalkToolCall(c: Collector, call: Node) returns (error: Option<WalkError>)
    requires Ready(c, call)
    modifies c, c.budget
    ensures c.Valid() && c.Grew(Ids(call))
    ensures error.None? ==> c.picks == old(c.picks) + CallPicks(call) && c.opaques == old(c.opaques) + CallOpaques(call)
    ensures error.Some? ==> c.Honest(error.value)
    ensures Judged(error, CallShaped(call))
  {
    hide CallControlsShaped, CalledShaped, FieldShaped, c.Valid, FieldNode, NameOf, c.Suits, c.Untouched, c.After, Ids,
         KeyIds, FieldIds, Ascii, Collector.Rejected, Collector.ShapeCost, FunctionPicks, FunctionOpaques, NamedIds,
         CacheControlIds, CALL_DONE;
    if NodeKind(call) != ObjectKind {
      var e := c.Shape();
      return Some(e);
    }
    error := MarkToolCallControls(c, call);
    if error.Some? {
      return;
    }
    CallDone(KeyType);
    CallDone(KeyFunction);
    var callType;
    callType, error := MarkedField(c, call, KeyType, false, CALL_DONE);
    if error.Some? {
      return;
    }
    error := WalkTypedCall(c, call, if callType.Some? then callType.value.value else Ascii("function"), CALL_DONE + {KeyType});
  }

  /** A call without a type is one of a function. */
  method WalkTypedCall(c: Collector, call: Node, kind: Bytes, ghost done: set<Name>) returns (error: Option<WalkError>)
    requires c.Valid() && c.Suits(call) && call.ContainerNode? && c.Untouched(call, done) && KeyFunction !in done
    modifies c, c.budget
    ensures c.Valid() && c.Grew(Ids(call))
    ensures error.None? && kind == Ascii("function") ==>
              var f := FieldNode(call, KeyFunction);
              f.Some? && c.picks == old(c.picks) + FunctionPicks(f.value) && c.opaques == old(c.opaques) + FunctionOpaques(f.value)
    ensures error.None? && kind != Ascii("function") ==> c.picks == old(c.picks) && c.opaques == old(c.opaques)
    ensures error.Some? ==> c.Honest(error.value)
    ensures Judged(error, CalledShaped(call, kind))
  {
    hide FunctionShaped, FieldShaped, c.Valid, FieldNode, NameOf, c.Suits, c.Untouched, c.After, Ids, KeyIds, FieldIds, Ascii,
         Collector.Rejected, Collector.ShapeCost, FunctionPicks, FunctionOpaques;
    if kind != Ascii("function") {
      c.UnsupportedValue(call, "unknown tool call type ", kind);
      return None;
    }
    var function_;
    function_, error := c.NullableField(call, KeyFunction, ObjectKind, true, false, done);
    if error.Some? {
      return;
    }
    error := WalkFunction(c, function_.value);
  }

  const CALL_DONE := Collector.Listed(CALL_NAMES) + {KeyExtraContent} + {KeyCacheControl}

  lemma CallDone(name: Name)
    ensures name in CALL_DONE ==>
              name == KeyId || name == KeyName || name == KeyCallId || name == KeyExtraContent || name == KeyCacheControl
    ensures name in Collector.Listed(CALL_NAMES) ==> name == KeyId || name == KeyName || name == KeyCallId
  {
  }

  method MarkToolCallControls(c: Collector, call: Node) returns (error: Option<WalkError>)
    requires Ready(c, call) && call.ContainerNode? && call.isObject
    modifies c`opaques, c.budget
    ensures c.Valid() && c.Grew(Ids(call)) && c.Taken() == old(c.Taken())
    ensures error.None? ==> 
              c.Untouched(call, CALL_DONE)
              && c.opaques == old(c.opaques) + (NamedIds(call, CALL_NAMES) + OwnIds(call, KeyExtraContent) + CacheControlIds(call))
    ensures error.Some? ==> c.Honest(error.value)
    ensures Judged(error, CallControlsShaped(call))
  {
    hide CacheControlShaped, OptionalStrings, Unambiguous, FieldSole, c.Valid, FieldNode, NameOf, c.Suits, c.Untouched,
         c.After, Ids, KeyIds, FieldIds, Collector.Rejected, Collector.ShapeCost;
    ReadyObject(c, call);
    CallDone(KeyExtraContent);
    CallDone(KeyCacheControl);
    error := c.Unique(call, [KeyType, KeyFunction, KeyId, KeyName, KeyCallId, KeyExtraContent, KeyCacheControl]);
    if error.Some? {
      return;
    }
    error := c.MarkOpaqueStringFields(call, CALL_NAMES, {});
    if error.Some? {
      return;
    }
    ghost var done := {} + Collector.Listed(CALL_NAMES);
    assert done == Collector.Listed(CALL_NAMES);
    error := MarkWhole(c, call, KeyExtraContent, done);
    if error.Some? {
      return;
    }
    error := WalkAnthropicCacheControl(c, call, done + {KeyExtraContent});
  }

  /** Protects a member whatever it holds. */
  method MarkWhole(c: Collector, obj: Node, name: Name, ghost done: set<Name>) returns (error: Option<WalkError>)
    requires c.Valid() && c.Suits(obj) && obj.ContainerNode? && c.Untouched(obj, done) && name !in done
    modifies c`opaques, c.budget
    ensures c.Valid() && c.Grew(Ids(obj)) && c.Taken() == old(c.Taken())
    ensures error.None? ==> c.Untouched(obj, done + {name}) && c.opaques == old(c.opaques) + FieldIds(obj, name)
    ensures error.Some? ==> c.Honest(error.value)
    ensures Judged(error, FieldSole(obj, name))
  {
    hide FieldSole, c.Valid, FieldNode, NameOf, c.Suits, c.Untouched, c.After, Ids, KeyIds, FieldIds, Collector.Rejected,
         Collector.ShapeCost;
    ghost var d := c.Disposed();
    var value;
    value, error := c.AnyField(obj, name, done);
    if error.Some? || value.None? {
      return;
    }
    error := c.MarkOpaque(value.value);
    c.Finish(obj, name, done, value.value, d);
  }

  method WalkFunctionDefinition(c: Collector, function_: Node) returns (error: Option<WalkError>)
    requires Ready(c, function_) && function_.ContainerNode? && function_.isObject
    modifies c, c.budget
    ensures c.Valid() && c.Grew(Ids(function_))
    ensures error.None? ==>
              FieldIds(function_, KeyDescription) + FieldIds(function_, KeyParameters) <= c.targets
    ensures error.None? ==>
              c.picks == old(c.picks) + DefinitionPicks(function_)
              && c.opaques == old(c.opaques) + OwnIds(function_, KeyName)
    ensures error.Some? ==> c.Honest(error.value)
    ensures Judged(error, DefinitionShaped(function_))
  {
    hide FieldShaped, Unambiguous, c.Valid, FieldNode, NameOf, c.Suits, c.Untouched, c.After, Ids, KeyIds, FieldIds,
         Collector.Rejected, Collector.ShapeCost;
    ReadyObject(c, function_);
    error := c.Unique(function_, [KeyName, KeyDescription, KeyParameters, KeyStrict]);
    if error.Some? {
      return;
    }
    error := c.MarkOpaqueStringField(function_, KeyName, true, false, {});
    if error.Some? {
      return;
    }
    error := c.AddStringField(function_, KeyDescription, false, true, ScopeSystem, NaturalText, {} + {KeyName});
    if error.Some? {
      return;
    }
    error := c.WalkStringObjectField(function_, KeyParameters, false, true, ScopeSystem, {} + {KeyName} + {KeyDescription});
  }

  lemma ToolCases(tool: Node)
    ensures NodeKind(tool) != ObjectKind ==> ToolPicks(tool) == {} && ToolOpaques(tool) == {}
    ensures NodeKind(tool) == ObjectKind && TextOf(tool, KeyType) != Some(Ascii("function")) ==>
              ToolPicks(tool) == {} && ToolOpaques(tool) == FieldIds(tool, KeyType)
    ensures NodeKind(tool) == ObjectKind && TextOf(tool, KeyType) == Some(Ascii("function")) && FieldNode(tool, KeyFunction).Some? ==>
              var f := FieldNode(tool, KeyFunction).value;
              ToolPicks(tool) == DefinitionPicks(f)
              && ToolOpaques(tool) == FieldIds(tool, KeyType) + (OwnIds(f, KeyName) + CacheControlIds(tool))
  {
    hide DefinitionPicks, CacheControlIds, FieldNode, FieldIds, Ascii;
  }

  method WalkTool(c: Collector, tool: Node) returns (error: Option<WalkError>)
    requires Ready(c, tool)
    modifies c, c.budget
    ensures c.Valid() && c.Grew(Ids(tool))
    ensures error.None? ==> c.picks == old(c.picks) + ToolPicks(tool) && c.opaques == old(c.opaques) + ToolOpaques(tool)
    ensures error.Some? ==> c.Honest(error.value)
    ensures Judged(error, ToolShaped(tool))
  {
    hide TypedToolShaped, TypeShaped, c.Valid, FieldNode, NameOf, c.Suits, c.Untouched, c.After, Ids, KeyIds, FieldIds, Ascii,
         Collector.Rejected, Collector.ShapeCost, ToolPicks, ToolOpaques, DefinitionPicks, OwnIds, CacheControlIds;
    ToolCases(tool);
    if NodeKind(tool) != ObjectKind {
      c.Unsupported(tool, "tool definition is not an object");
      return None;
    }
    var kind;
    kind, error := ReadType(c, tool, [KeyType, KeyFunction, KeyCacheControl]);
    if error.Some? {
      return;
    }
    error := WalkTypedTool(c, tool, kind);
  }

  method WalkTypedTool(c: Collector, tool: Node, kind: Bytes) returns (error: Option<WalkError>)
    requires c.Valid() && c.Suits(tool) && tool.ContainerNode? && c.Untouched(tool, {KeyType})
    modifies c, c.budget
    ensures c.Valid() && c.Grew(Ids(tool))
    ensures error.None? && kind == Ascii("function") ==>
              var f := FieldNode(tool, KeyFunction);
              f.Some? && c.picks == old(c.picks) + DefinitionPicks(f.value)
              && c.opaques == old(c.opaques) + (OwnIds(f.value, KeyName) + CacheControlIds(tool))
    ensures error.None? && kind != Ascii("function") ==> c.picks == old(c.picks) && c.opaques == old(c.opaques)
    ensures error.Some? ==> c.Honest(error.value)
    ensures Judged(error, TypedToolShaped(tool, kind))
  {
    hide CacheControlShaped, DefinitionShaped, FieldShaped, c.Valid, FieldNode, NameOf, c.Suits, c.Untouched, Ids, Ascii,
         Collector.Rejected, Collector.ShapeCost, DefinitionPicks, OwnIds, CacheControlIds;
    if kind != Ascii("function") {
      c.UnsupportedValue(tool, "unknown tool definition type ", kind);
      return None;
    }
    error := WalkToolFunction(c, tool, {KeyType});
  }

  method WalkToolFunction(c: Collector, tool: Node, ghost done: set<Name>) returns (error: Option<WalkError>)
    requires c.Valid() && c.Suits(tool) && tool.ContainerNode? && c.Untouched(tool, done)
    requires KeyFunction !in done && KeyCacheControl !in done
    modifies c, c.budget
    ensures c.Valid() && c.Grew(Ids(tool))
    ensures error.None? ==>
              var f := FieldNode(tool, KeyFunction);
              f.Some? && c.picks == old(c.picks) + DefinitionPicks(f.value)
              && c.opaques == old(c.opaques) + (OwnIds(f.value, KeyName) + CacheControlIds(tool))
    ensures error.Some? ==> c.Honest(error.value)
    ensures Judged(error, FieldShaped(tool, KeyFunction, ObjectKind, true, false) && ObjectShaped(FieldNode(tool, KeyFunction), DefinitionShaped)
                          && CacheControlShaped(tool))
  {
    hide CacheMark, CacheControlShaped, DefinitionShaped, FieldShaped, Unambiguous, c.Valid, FieldNode, NameOf, c.Suits,
         c.Untouched, c.After, Ids, KeyIds, FieldIds, Collector.Rejected, Collector.ShapeCost, DefinitionPicks, OwnIds,
         CacheControlIds;
    ghost var d := c.Disposed();
    var function_;
    function_, error := c.NullableField(tool, KeyFunction, ObjectKind, true, false, done);
    if error.Some? {
      return;
    }
    error := WalkFunctionDefinition(c, function_.value);
    if error.Some? {
      return;
    }
    c.Finish(tool, KeyFunction, done, function_.value, d);
    error := WalkAnthropicCacheControl(c, tool, done + {KeyFunction});
  }

  method WalkToolDefinitions(c: Collector, root: Node, ghost done: set<Name>) returns (error: Option<WalkError>)
    requires c.Valid() && c.Suits(root) && root.ContainerNode? && c.Untouched(root, done)
    requires KeyTools !in done && KeyFunctions !in done
    modifies c, c.budget
    ensures c.Valid() && c.Grew(Ids(root))
    ensures error.None? ==>
              c.picks == old(c.picks) + DefinitionsPicks(root)
              && c.opaques == old(c.opaques) + DefinitionsOpaques(root)
    ensures error.Some? ==> c.Honest(error.value)
    ensures Judged(error, DefinitionsShaped(root))
  {
    hide ToolShaped, LegaciesShaped, FieldShaped, c.Valid, FieldNode, NameOf, c.Suits, c.Untouched, c.After, Ids, KeyIds,
         FieldIds, PrefixIds, Collector.Rejected, Collector.ShapeCost, ToolPicks, ToolOpaques, UnionOf;
    ghost var d := c.Disposed();
    var tools;
    tools, error := c.NullableField(root, KeyTools, ArrayKind, false, false, done);
    if error.Some? {
      return;
    }
    if tools.Some? {
      ghost var picks, opaques := c.picks, c.opaques;
      UnionNone(tools.value.items, ToolPicks);
      UnionNone(tools.value.items, ToolOpaques);
      NoneReady(c, tools.value);
      for i := 0 to |tools.value.items|
        invariant c.Valid() && c.Grew(Ids(root)) && c.Disposed() <= d + PrefixIds(tools.value.items, i) && error.None?
        invariant AllOf(tools.value.items, i, ToolShaped)
        invariant c.picks == picks + UnionOf(tools.value.items, i, ToolPicks)
        invariant c.opaques == opaques + UnionOf(tools.value.items, i, ToolOpaques)
      {
        UnionNext(tools.value.items, i, ToolPicks);
        UnionNext(tools.value.items, i, ToolOpaques);
        NextReady(c, tools.value, i, d);
        error := WalkTool(c, tools.value.items[i].value);
        if error.Some? {
          return;
        }
      }
      c.Finish(root, KeyTools, done, tools.value, d);
    }
    error := WalkLegacyFunctions(c, root, done + {KeyTools});
  }

  method WalkLegacyFunctions(c: Collector, root: Node, ghost done: set<Name>) returns (error: Option<WalkError>)
    requires c.Valid() && c.Suits(root) && root.ContainerNode? && c.Untouched(root, done) && KeyFunctions !in done
    modifies c, c.budget
    ensures c.Valid() && c.Grew(Ids(root))
    ensures error.None? ==>
              c.picks == old(c.picks) + ListUnion(FieldNode(root, KeyFunctions), LegacyPicks)
              && c.opaques == old(c.opaques) + ListUnion(FieldNode(root, KeyFunctions), LegacyOpaques)
    ensures error.Some? ==> c.Honest(error.value)
    ensures Judged(error, LegaciesShaped(root))
  {
    hide LegacyShaped, FieldShaped, c.Valid, FieldNode, NameOf, c.Suits, c.Untouched, c.After, Ids, KeyIds, FieldIds,
         PrefixIds, Collector.Rejected, Collector.ShapeCost, LegacyPicks, LegacyOpaques, UnionOf;
    ghost var d := c.Disposed();
    var functions;
    functions, error := c.NullableField(root, KeyFunctions, ArrayKind, false, false, done);
    if error.Some? || functions.None? {
      return;
    }
    ghost var picks, opaques := c.picks, c.opaques;
    UnionNone(functions.value.items, LegacyPicks);
    UnionNone(functions.value.items, LegacyOpaques);
    NoneReady(c, functions.value);
    for i := 0 to |functions.value.items|
      invariant c.Valid() && c.Grew(Ids(root)) && c.Disposed() <= d + PrefixIds(functions.value.items, i) && error.None?
      invariant AllOf(functions.value.items, i, LegacyShaped)
      invariant c.picks == picks + UnionOf(functions.value.items, i, LegacyPicks)
      invariant c.opaques == opaques + UnionOf(functions.value.items, i, LegacyOpaques)
    {
      UnionNext(functions.value.items, i, LegacyPicks);
      UnionNext(functions.value.items, i, LegacyOpaques);
      NextReady(c, functions.value, i, d);
      error := WalkLegacyFunction(c, functions.value.items[i].value);
      if error.Some? {
        return;
      }
    }
  }

  method WalkLegacyFunction(c: Collector, function_: Node) returns (error: Option<WalkError>)
    requires Ready(c, function_)
    modifies c, c.budget
    ensures c.Valid() && c.Grew(Ids(function_))
    ensures error.None? ==>
              c.picks == old(c.picks) + LegacyPicks(function_)
              && c.opaques == old(c.opaques) + LegacyOpaques(function_)
    ensures error.Some? ==> c.Honest(error.value)
    ensures Judged(error, LegacyShaped(function_))
  {
    hide DefinitionShaped, ToolShaped, DefinitionsShaped, LegaciesShaped, FieldShaped, c.Valid, c.Suits, Ids, DefinitionPicks,
         OwnIds, Collector.Rejected, Collector.ShapeCost;
    if NodeKind(function_) != ObjectKind {
      c.Unsupported(function_, "legacy function definition is not an object");
      return None;
    }
    error := WalkFunctionDefinition(c, function_);
  }

  method WalkPrediction(c: Collector, prediction: Node) returns (error: Option<WalkError>)
    requires Ready(c, prediction)
    modifies c, c.budget
    ensures c.Valid() && c.Grew(Ids(prediction))
    ensures error.None? ==>
              c.picks == old(c.picks) + PredictionPicks(Some(prediction))
              && c.opaques == old(c.opaques) + PredictionOpaques(Some(prediction))
    ensures error.Some? ==> c.Honest(error.value)
    ensures Judged(error, PredictionNode(prediction))
  {
    hide TypeShaped, PredictionTyped, c.Valid, FieldNode, NameOf, c.Suits, c.Untouched, c.After, c.Found, Ids, KeyIds,
         FieldIds, Ascii, ContentPicks, ContentOpaques, Collector.Rejected, Collector.ShapeCost, PredictionPicks,
         PredictionOpaques;
    if NodeKind(prediction) != ObjectKind {
      var e := c.Shape();
      return Some(e);
    }
    PredictionCases(prediction);
    var kind;
    kind, error := ReadType(c, prediction, [KeyType, KeyContent]);
    if error.Some? {
      return;
    }
    error := WalkTypedPrediction(c, prediction, kind);
  }

  method WalkTypedPrediction(c: Collector, prediction: Node, kind: Bytes) returns (error: Option<WalkError>)
    requires c.Valid() && c.Suits(prediction) && prediction.ContainerNode? && c.Untouched(prediction, {KeyType})
    modifies c, c.budget
    ensures c.Valid() && c.Grew(Ids(prediction))
    ensures error.None? ==>
              var content := if kind == Ascii("content") then FieldNode(prediction, KeyContent) else None;
              c.picks == old(c.picks) + ContentPicks(content, ScopeAssistant) && c.opaques == old(c.opaques) + ContentOpaques(content)
    ensures error.Some? ==> c.Honest(error.value)
    ensures Judged(error, PredictionTyped(prediction, kind))
  {
    hide ContentShaped, FieldSole, c.Valid, FieldNode, NameOf, c.Suits, c.Untouched, Ids, Ascii, ContentPicks, ContentOpaques,
         Collector.Rejected, Collector.ShapeCost;
    NoContent();
    if kind != Ascii("content") {
      c.UnsupportedValue(prediction, "unknown prediction type ", kind);
      return None;
    }
    error := WalkPredictedContent(c, prediction, {KeyType});
  }

  lemma NoContent()
    ensures ContentPicks(None, ScopeAssistant) == {} && ContentOpaques(None) == {}
  {
  }

  lemma PredictionCases(prediction: Node)
    requires prediction.ContainerNode?
    ensures var content := PredictedContent(prediction);
            PredictionPicks(Some(prediction)) == ContentPicks(content, ScopeAssistant)
            && PredictionOpaques(Some(prediction)) == FieldIds(prediction, KeyType) + ContentOpaques(content)
  {
    hide ContentPicks, ContentOpaques, NameOf, Ids, FieldNode, FieldIds;
  }

  method WalkPredictedContent(c: Collector, prediction: Node, ghost done: set<Name>) returns (error: Option<WalkError>)
    requires c.Valid() && c.Suits(prediction) && prediction.ContainerNode? && c.Untouched(prediction, done) && KeyContent !in done
    modifies c, c.budget
    ensures c.Valid() && c.Grew(Ids(prediction))
    ensures error.None? ==>
              c.picks == old(c.picks) + ContentPicks(FieldNode(prediction, KeyContent), ScopeAssistant)
              && c.opaques == old(c.opaques) + ContentOpaques(FieldNode(prediction, KeyContent))
    ensures error.Some? ==> c.Honest(error.value)
    ensures Judged(error, FieldSole(prediction, KeyContent) && FieldNode(prediction, KeyContent).Some?
                          && ContentShaped(FieldNode(prediction, KeyContent).value))
  {
    hide BlockShaped, ContentShaped, FieldSole, c.Valid, FieldNode, NameOf, c.Suits, c.Untouched, c.After, c.Found, Ids,
         KeyIds, FieldIds, ContentPicks, ContentOpaques, Collector.Rejected, Collector.ShapeCost;
    var content;
    content, error := c.AnyField(prediction, KeyContent, done);
    if error.Some? {
      return;
    }
    if content.None? {
      var e := c.Shape();
      return Some(e);
    }
    FoundReady(c, prediction, KeyContent, done, content.value);
    error := WalkTypedTextContent(c, content.value, ScopeAssistant);
  }

  // ----- messages ---------------------------------------------------------

  /** The members a message has been rid of once its role is known. */
  const MESSAGE_DONE := Collector.Listed(MESSAGE_NAMES) + {KeyCacheControl} + {KeyAnnotations} + {KeyRole}

  lemma MessageDone(name: Name)
    ensures name in MESSAGE_DONE ==>
              name == KeyName || name == KeyId || name == KeyCallId || name == KeyToolCallId
              || name == KeyCacheControl || name == KeyAnnotations || name == KeyRole
    ensures name in Collector.Listed(MESSAGE_NAMES) ==>
              name == KeyName || name == KeyId || name == KeyCallId || name == KeyToolCallId
  {
  }

  /** Identifiers, cache marker, annotations and role of a message. An unknown role is
      recorded and the walk goes on without a scope. */
  method WalkMessageHead(c: Collector, message: Node) returns (scope: Option<Scope>, error: Option<WalkError>)
    requires Ready(c, message) && message.ContainerNode? && message.isObject
    modifies c, c.budget
    ensures c.Valid() && c.Grew(Ids(message))
    ensures error.None? ==>
              c.Untouched(message, MESSAGE_DONE) && c.opaques == old(c.opaques) + HeadOpaques(message)
    ensures error.None? ==> c.picks == old(c.picks) && scope == RoleOf(message)
    ensures error.Some? ==> c.Honest(error.value)
    ensures Judged(error, HeadShaped(message))
  {
    hide CacheControlShaped, FieldShaped, OptionalStrings, Unambiguous, FieldSole, c.Valid, FieldNode, NameOf, c.Suits,
         c.Untouched, c.After, Ids, KeyIds, FieldIds, Ascii, ScopeForRole, Collector.Rejected, Collector.ShapeCost;
    scope := None;
    ReadyObject(c, message);
    MessageDone(KeyCacheControl);
    MessageDone(KeyAnnotations);
    MessageDone(KeyRole);
    error := c.Unique(message, MESSAGE_MEMBERS);
    if error.Some? {
      return;
    }
    error := c.MarkOpaqueStringFields(message, MESSAGE_NAMES, {});
    if error.Some? {
      return;
    }
    ghost var done := {} + Collector.Listed(MESSAGE_NAMES);
    assert done == Collector.Listed(MESSAGE_NAMES);
    error := WalkAnthropicCacheControl(c, message, done);
    if error.Some? {
      return;
    }
    error := MarkWhole(c, message, KeyAnnotations, done + {KeyCacheControl});
    if error.Some? {
      return;
    }
    scope, error := WalkRole(c, message, done + {KeyCacheControl} + {KeyAnnotations});
  }

  method WalkRole(c: Collector, message: Node, ghost done: set<Name>) returns (scope: Option<Scope>, error: Option<WalkError>)
    requires c.Valid() && c.Suits(message) && message.ContainerNode? && c.Untouched(message, done) && KeyRole !in done
    modifies c, c.budget
    ensures c.Valid() && c.Grew(Ids(message))
    ensures error.None? ==> c.Untouched(message, done + {KeyRole}) && c.opaques == old(c.opaques) + OwnIds(message, KeyRole)
    ensures error.None? ==> c.picks == old(c.picks) && scope == RoleOf(message)
    ensures error.Some? ==> c.Honest(error.value)
    ensures Judged(error, FieldShaped(message, KeyRole, StringKind, true, false))
  {
    hide FieldShaped, c.Valid, FieldNode, NameOf, c.Suits, c.Untouched, c.After, Ids, KeyIds, FieldIds, Ascii, ScopeForRole,
         Collector.Rejected, Collector.ShapeCost;
    scope := None;
    ghost var d := c.Disposed();
    var roleNode;
    roleNode, error := MarkedField(c, message, KeyRole, true, done);
    if error.Some? {
      return;
    }
    scope := ScopeForRole(roleNode.value.value);
    if scope.None? {
      c.UnsupportedValue(roleNode.value, "unknown message role ", roleNode.value.value);
    }
    c.Finish(message, KeyRole, done, roleNode.value, d);
  }

  method WalkContent(c: Collector, message: Node, scope: Option<Scope>, ghost done: set<Name>) returns (error: Option<WalkError>)
    requires c.Valid() && c.Suits(message) && message.ContainerNode? && c.Untouched(message, done) && KeyContent !in done
    modifies c, c.budget
    ensures c.Valid() && c.Grew(Ids(message))
    ensures error.None? ==> c.Untouched(message, done + {KeyContent})
    ensures error.None? ==>
              c.picks == old(c.picks) + MessageContentPicks(FieldNode(message, KeyContent), scope)
              && c.opaques == old(c.opaques) + MessageContentOpaques(FieldNode(message, KeyContent), scope)
    ensures error.Some? ==> c.Honest(error.value)
    ensures Judged(error, MessageContentShaped(message, scope))
  {
    hide FieldSole, c.Valid, FieldNode, NameOf, c.Suits, c.Untouched, c.After, c.Found, Ids, KeyIds, FieldIds, c.Describes,
         Collector.Rejected, Collector.ShapeCost;
    ghost var d := c.Disposed();
    var content;
    content, error := c.AnyField(message, KeyContent, done);
    if error.Some? || content.None? {
      return;
    }
    FoundReady(c, message, KeyContent, done, content.value);
    if scope.Some? {
      if scope.value == ScopeToolOutput && NodeKind(content.value) == StringKind {
        error := c.Add(content.value, ScopeToolOutput, ToolText, JsonOrPlain);
      } else {
        error := WalkTypedTextContent(c, content.value, scope.value);
      }
      if error.Some? {
        return;
      }
    }
    c.Finish(message, KeyContent, done, content.value, d);
  }

  method WalkRefusal(c: Collector, message: Node, assistant: bool, ghost done: set<Name>) returns (error: Option<WalkError>)
    requires c.Valid() && c.Suits(message) && message.ContainerNode? && c.Untouched(message, done) && KeyRefusal !in done
    modifies c, c.budget
    ensures c.Valid() && c.Grew(Ids(message))
    ensures error.None? ==> c.Untouched(message, done + {KeyRefusal}) && (assistant ==> FieldIds(message, KeyRefusal) <= c.targets)
    ensures error.None? ==> c.picks == old(c.picks) + RefusalPicks(message, assistant) && c.opaques == old(c.opaques)
    ensures error.None? && c.err.None? && !assistant ==> FieldIds(message, KeyRefusal) <= c.rejected
    ensures error.Some? ==> c.Honest(error.value)
    ensures Judged(error, FieldShaped(message, KeyRefusal, StringKind, false, true))
  {
    hide FieldShaped, c.Valid, FieldNode, NameOf, c.Suits, c.Untouched, c.After, c.Found, Ids, KeyIds, FieldIds, c.Describes,
         Collector.Rejected, Collector.ShapeCost;
    ghost var d := c.Disposed();
    var refusal;
    refusal, error := c.NullableField(message, KeyRefusal, StringKind, false, true, done);
    if error.Some? || refusal.None? {
      return;
    }
    FoundReady(c, message, KeyRefusal, done, refusal.value);
    if assistant {
      error := c.Add(refusal.value, ScopeAssistant, NaturalText, Direct);
      if error.Some? {
        return;
      }
    } else {
      c.Unsupported(refusal.value, "refusal text outside an assistant message");
      if c.err.None? {
        Refused(c, Ids(refusal.value));
      }
    }
    c.Finish(message, KeyRefusal, done, refusal.value, d);
  }

  method WalkAudio(c: Collector, message: Node, ghost done: set<Name>) returns (error: Option<WalkError>)
    requires c.Valid() && c.Suits(message) && message.ContainerNode? && c.Untouched(message, done) && KeyAudio !in done
    modifies c`opaques, c.budget
    ensures c.Valid() && c.Grew(Ids(message)) && c.Taken() == old(c.Taken())
    ensures error.None? ==> c.Untouched(message, done + {KeyAudio}) && c.opaques == old(c.opaques) + MemberIds(FieldNode(message, KeyAudio), KeyId)
    ensures error.Some? ==> c.Honest(error.value)
    ensures Judged(error, AudioShaped(message))
  {
    hide FieldShaped, c.Valid, FieldNode, NameOf, Ids, Collector.Rejected, Collector.ShapeCost;
    ghost var d := c.Disposed();
    var audio;
    audio, error := c.NullableField(message, KeyAudio, ObjectKind, false, true, done);
    if error.Some? || audio.None? {
      return;
    }
    error := c.MarkOpaqueStringField(audio.value, KeyId, false, true, {});
    c.Finish(message, KeyAudio, done, audio.value, d);
  }

  method WalkToolCalls(c: Collector, message: Node, ghost done: set<Name>) returns (error: Option<WalkError>)
    requires c.Valid() && c.Suits(message) && message.ContainerNode? && c.Untouched(message, done) && KeyToolCalls !in done
    modifies c, c.budget
    ensures c.Valid() && c.Grew(Ids(message))
    ensures error.None? ==> c.Untouched(message, done + {KeyToolCalls})
    ensures error.None? ==>
              c.picks == old(c.picks) + ListUnion(FieldNode(message, KeyToolCalls), CallPicks)
              && c.opaques == old(c.opaques) + ListUnion(FieldNode(message, KeyToolCalls), CallOpaques)
    ensures error.Some? ==> c.Honest(error.value)
    ensures Judged(error, CallsShaped(message))
  {
    hide CallShaped, FieldShaped, c.Valid, FieldNode, NameOf, c.Suits, c.Untouched, c.After, Ids, KeyIds, FieldIds, PrefixIds,
         Collector.Rejected, Collector.ShapeCost, CallPicks, CallOpaques, UnionOf;
    ghost var d := c.Disposed();
    var toolCalls;
    toolCalls, error := c.NullableField(message, KeyToolCalls, ArrayKind, false, false, done);
    if error.Some? || toolCalls.None? {
      return;
    }
    ghost var picks, opaques := c.picks, c.opaques;
    UnionNone(toolCalls.value.items, CallPicks);
    UnionNone(toolCalls.value.items, CallOpaques);
    NoneReady(c, toolCalls.value);
    for i := 0 to |toolCalls.value.items|
      invariant c.Valid() && c.Grew(Ids(message)) && c.Disposed() <= d + PrefixIds(toolCalls.value.items, i) && error.None?
      invariant AllOf(toolCalls.value.items, i, CallShaped)
      invariant c.picks == picks + UnionOf(toolCalls.value.items, i, CallPicks)
      invariant c.opaques == opaques + UnionOf(toolCalls.value.items, i, CallOpaques)
    {
      UnionNext(toolCalls.value.items, i, CallPicks);
      UnionNext(toolCalls.value.items, i, CallOpaques);
      NextReady(c, toolCalls.value, i, d);
      error := WalkToolCall(c, toolCalls.value.items[i].value);
      if error.Some? {
        return;
      }
    }
    c.Finish(message, KeyToolCalls, done, toolCalls.value, d);
  }

  method WalkMessage(c: Collector, message: Node) returns (error: Option<WalkError>)
    requires Ready(c, message)
    modifies c, c.budget
    ensures c.Valid() && c.Grew(Ids(message))
    ensures error.None? ==>
              c.picks == old(c.picks) + MessagePicks(message)
              && c.opaques == old(c.opaques) + MessageOpaques(message)
    ensures error.Some? ==> c.Honest(error.value)
    ensures Judged(error, MessageShaped(message))
  {
    hide HeadShaped, BodyShaped, c.Valid, FieldNode, NameOf, c.Suits, c.Untouched, Ids, FieldIds, Collector.Rejected,
         Collector.ShapeCost;
    if NodeKind(message) != ObjectKind {
      var e := c.Shape();
      return Some(e);
    }
    var scope;
    scope, error := WalkMessageHead(c, message);
    if error.Some? {
      return;
    }
    error := WalkMessageBody(c, message, scope);
  }

  method WalkMessageBody(c: Collector, message: Node, scope: Option<Scope>) returns (error: Option<WalkError>)
    requires c.Valid() && c.Suits(message) && message.ContainerNode? && c.Untouched(message, MESSAGE_DONE)
    modifies c, c.budget
    ensures c.Valid() && c.Grew(Ids(message))
    ensures error.None? ==>
              c.picks == old(c.picks) + ScopedPicks(message, scope)
              && c.opaques == old(c.opaques) + ScopedOpaques(message, scope)
    ensures error.Some? ==> c.Honest(error.value)
    ensures Judged(error, BodyShaped(message, scope))
  {
    hide ReasoningShaped, MessageContentShaped, TailShaped, FieldShaped, c.Valid, FieldNode, NameOf, c.Suits, c.Untouched,
         Ids, FieldIds, Collector.Listed, Collector.Rejected, Collector.ShapeCost, MessageContentPicks, MessageContentOpaques,
         RefusalPicks, ReasoningOpaques, ToolTailPicks, ToolTailOpaques;
    var assistant := scope == Some(ScopeAssistant);
    MessageBodyDone();
    error := WalkReasoningReplay(c, message, assistant, MESSAGE_DONE);
    if error.Some? {
      return;
    }
    ghost var done := MESSAGE_DONE + {KeyReasoning} + {KeyReasoningContent} + {KeyReasoningDetails};
    error := WalkContent(c, message, scope, done);
    if error.Some? {
      return;
    }
    error := WalkRefusal(c, message, assistant, done + {KeyContent});
    if error.Some? {
      return;
    }
    error := WalkMessageTail(c, message, done + {KeyContent} + {KeyRefusal});
  }

  lemma MessageBodyDone()
    ensures {KeyReasoning, KeyReasoningContent, KeyReasoningDetails, KeyContent, KeyRefusal, KeyAudio, KeyToolCalls,
             KeyFunctionCall} !! MESSAGE_DONE
  {
    forall name | name in MESSAGE_DONE
      ensures name !in {KeyReasoning, KeyReasoningContent, KeyReasoningDetails, KeyContent, KeyRefusal, KeyAudio,
                        KeyToolCalls, KeyFunctionCall}
    {
      MessageDone(name);
    }
  }

  /** Audio, tool calls and the legacy function call. */
  method WalkMessageTail(c: Collector, message: Node, ghost done: set<Name>) returns (error: Option<WalkError>)
    requires c.Valid() && c.Suits(message) && message.ContainerNode? && c.Untouched(message, done)
    requires KeyAudio !in done && KeyToolCalls !in done && KeyFunctionCall !in done
    modifies c, c.budget
    ensures c.Valid() && c.Grew(Ids(message))
    ensures error.None? ==>
              c.picks == old(c.picks) + ToolTailPicks(message)
              && c.opaques == old(c.opaques) + ToolTailOpaques(message)
    ensures error.Some? ==> c.Honest(error.value)
    ensures Judged(error, TailShaped(message))
  {
    hide FunctionShaped, AudioShaped, CallsShaped, FieldShaped, c.Valid, FieldNode, NameOf, c.Suits, c.Untouched, c.After,
         c.Found, Ids, FieldIds, Collector.Rejected, Collector.ShapeCost;
    error := WalkAudio(c, message, done);
    if error.Some? {
      return;
    }
    error := WalkToolCalls(c, message, done + {KeyAudio});
    if error.Some? {
      return;
    }
    ghost var so := done + {KeyAudio} + {KeyToolCalls};
    var legacy;
    legacy, error := c.NullableField(message, KeyFunctionCall, ObjectKind, false, false, so);
    if error.Some? || legacy.None? {
      return;
    }
    FoundReady(c, message, KeyFunctionCall, so, legacy.value);
    error := WalkFunction(c, legacy.value);
  }

  // ----- the request ------------------------------------------------------

  /** Position of a control in the list, -1 for any other member. */
  function ControlRank(name: Name): int {
    match name
    case KeyAudio => 0
    case KeyFrequencyPenalty => 1
    case KeyFunctionCall => 2
    case KeyLogitBias => 3
    case KeyLogprobs => 4
    case KeyMaxCompletionTokens => 5
    case KeyMaxTokens => 6
    case KeyMetadata => 7
    case KeyModalities => 8
    case KeyModeration => 9
    case KeyChoices => 10
    case KeyParallelToolCalls => 11
    case KeyPresencePenalty => 12
    case KeyPromptCacheKey => 13
    case KeyPromptCacheOptions => 14
    case KeyPromptCacheRetention => 15
    case KeyReasoningEffort => 16
    case KeyResponseFormat => 17
    case KeySafetyIdentifier => 18
    case KeySeed => 19
    case KeyServiceTier => 20
    case KeyStop => 21
    case KeyStore => 22
    case KeyStream => 23
    case KeyStreamOptions => 24
    case KeyTemperature => 25
    case KeyToolChoice => 26
    case KeyTopLogprobs => 27
    case KeyTopP => 28
    case KeyUser => 29
    case KeyVerbosity => 30
    case KeyWebSearchOptions => 31
    case _ => -1
  }

  lemma RootControls()
    ensures forall i :: 0 <= i < |ROOT_CONTROLS| ==>
              ROOT_CONTROLS[i] !in {KeyModel, KeyMessages, KeyPrediction, KeyTools, KeyFunctions}
    ensures forall i, j :: 0 <= i < j < |ROOT_CONTROLS| ==> ROOT_CONTROLS[i] != ROOT_CONTROLS[j]
  {
    forall i | 0 <= i < |ROOT_CONTROLS| ensures ControlRank(ROOT_CONTROLS[i]) == i {
      RankAt(i);
    }
  }

  lemma RankAt(i: nat)
    requires i < |ROOT_CONTROLS|
    ensures ControlRank(ROOT_CONTROLS[i]) == i
  {
  }

  lemma RootDone(name: Name)
    requires name in {KeyMessages, KeyPrediction, KeyTools, KeyFunctions}
    ensures name !in {KeyModel} + Collector.Listed(ROOT_CONTROLS)
  {
    hide Collector.Listed;
    RootControls();
    NotListed(ROOT_CONTROLS, name);
  }

  method WalkMessages(c: Collector, root: Node, ghost done: set<Name>) returns (error: Option<WalkError>)
    requires c.Valid() && c.Suits(root) && root.ContainerNode? && c.Untouched(root, done) && KeyMessages !in done
    modifies c, c.budget
    ensures c.Valid() && c.Grew(Ids(root))
    ensures error.None? ==> c.Untouched(root, done + {KeyMessages})
    ensures error.None? ==>
              c.picks == old(c.picks) + ListUnion(FieldNode(root, KeyMessages), MessagePicks)
              && c.opaques == old(c.opaques) + ListUnion(FieldNode(root, KeyMessages), MessageOpaques)
    ensures error.Some? ==> c.Honest(error.value)
    ensures Judged(error, MessagesShaped(root))
  {
    hide MessageShaped, FieldShaped, c.Valid, FieldNode, NameOf, c.Suits, c.Untouched, c.After, Ids, KeyIds, FieldIds,
         PrefixIds, Collector.Rejected, Collector.ShapeCost, MessagePicks, MessageOpaques, UnionOf;
    ghost var d := c.Disposed();
    var messages;
    messages, error := c.NullableField(root, KeyMessages, ArrayKind, true, false, done);
    if error.Some? {
      return;
    }
    ghost var picks, opaques := c.picks, c.opaques;
    UnionNone(messages.value.items, MessagePicks);
    UnionNone(messages.value.items, MessageOpaques);
    NoneReady(c, messages.value);
    for i := 0 to |messages.value.items|
      invariant c.Valid() && c.Grew(Ids(root)) && c.Disposed() <= d + PrefixIds(messages.value.items, i) && error.None?
      invariant AllOf(messages.value.items, i, MessageShaped)
      invariant c.picks == picks + UnionOf(messages.value.items, i, MessagePicks)
      invariant c.opaques == opaques + UnionOf(messages.value.items, i, MessageOpaques)
    {
      UnionNext(messages.value.items, i, MessagePicks);
      UnionNext(messages.value.items, i, MessageOpaques);
      NextReady(c, messages.value, i, d);
      error := WalkMessage(c, messages.value.items[i].value);
      if error.Some? {
        return;
      }
    }
    c.Finish(root, KeyMessages, done, messages.value, d);
  }

  /** The whole request, once `model` has been protected: no string is ever given two
      dispositions, so the walker's own mismatch error is not among the outcomes. */
  method WalkOpenAI(c: Collector, root: Node) returns (error: Option<WalkError>)
    requires c.Valid() && c.Suits(root) && root.ContainerNode? && root.isObject && c.Untouched(root, {KeyModel})
    requires OwnIds(root, KeyModel) <= c.opaques
    modifies c, c.budget
    ensures c.Valid() && c.Grew(Ids(root))
    ensures error.None? ==> c.picks == old(c.picks) + RequestPicks(root)
    ensures error.None? ==> c.opaques == old(c.opaques) + RequestOpaques(root)
    ensures error.Some? ==> c.Honest(error.value)
    ensures Judged(error, WalkShaped(root))
  {
    hide DefinitionsShaped, PredictionShaped, MessagesShaped, Unambiguous, FieldSole, c.Valid, FieldNode, NameOf, c.Suits,
         c.Untouched, Ids, FieldIds, Collector.Listed, Collector.Rejected, Collector.ShapeCost, ListUnion, PredictionPicks,
         PredictionOpaques, DefinitionsPicks, DefinitionsOpaques;
    RootControls();
    RootDone(KeyMessages);
    RootDone(KeyPrediction);
    RootDone(KeyTools);
    RootDone(KeyFunctions);
    error := c.Unique(root, ROOT_MEMBERS);
    if error.Some? {
      return;
    }
    error := c.MarkFields(root, ROOT_CONTROLS, {KeyModel});
    if error.Some? {
      return;
    }
    ghost var done := {KeyModel} + Collector.Listed(ROOT_CONTROLS);
    error := WalkMessages(c, root, done);
    if error.Some? {
      return;
    }
    error := WalkPredictionField(c, root, done + {KeyMessages});
    if error.Some? {
      return;
    }
    error := WalkToolDefinitions(c, root, done + {KeyMessages} + {KeyPrediction});
  }

  method WalkPredictionField(c: Collector, root: Node, ghost done: set<Name>) returns (error: Option<WalkError>)
    requires c.Valid() && c.Suits(root) && root.ContainerNode? && c.Untouched(root, done) && KeyPrediction !in done
    modifies c, c.budget
    ensures c.Valid() && c.Grew(Ids(root))
    ensures error.None? ==> c.Untouched(root, done + {KeyPrediction})
    ensures error.None? ==>
              c.picks == old(c.picks) + PredictionPicks(FieldNode(root, KeyPrediction))
              && c.opaques == old(c.opaques) + PredictionOpaques(FieldNode(root, KeyPrediction))
    ensures error.Some? ==> c.Honest(error.value)
    ensures Judged(error, PredictionShaped(root))
  {
    hide PredictionNode, FieldSole, c.Valid, FieldNode, NameOf, c.Suits, c.Untouched, c.After, c.Found, Ids, KeyIds, FieldIds,
         Collector.Rejected, Collector.ShapeCost;
    ghost var d := c.Disposed();
    var prediction;
    prediction, error := c.AnyField(root, KeyPrediction, done);
    if error.Some? || prediction.None? {
      return;
    }
    FoundReady(c, root, KeyPrediction, done, prediction.value);
    error := WalkPrediction(c, prediction.value);
    c.Finish(root, KeyPrediction, done, prediction.value, d);
  }
}
