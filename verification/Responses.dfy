/** The message arm of the responses walk, where rejecting a block and selecting its text
    interleave. */
module Responses {
  import opened ByteStrings
  import opened JsonGrammar
  import opened Names
  import opened Tree
  import opened Collecting
  import opened Selection
  import opened OpenAI

  // ----- which strings of a message item are model input ------------------

  /** File annotations name a file; every other kind ties the text to positions in it. */
  predicate AnnotationSafe(annotation: Node) {
    var t := TextOf(annotation, KeyType);
    NodeKind(annotation) == ObjectKind && t.Some? && (t.value == Ascii("file_citation") || t.value == Ascii("file_path"))
  }

  predicate AnnotationsSafe(annotations: Option<Node>) {
    annotations.None? || NodeKind(annotations.value) != ArrayKind
    || forall i :: 0 <= i < |annotations.value.items| ==> AnnotationSafe(annotations.value.items[i].value)
  }

  predicate LogprobsSafe(logprobs: Option<Node>) {
    logprobs.None? || NodeKind(logprobs.value) != ArrayKind || logprobs.value.items == []
  }

  /** An output text is selected only when nothing depends on its positions. */
  function OutputPicks(block: Node): set<Pick> {
    if AnnotationsSafe(FieldNode(block, KeyAnnotations)) && LogprobsSafe(FieldNode(block, KeyLogprobs)) then
      StringPicks(FieldNode(block, KeyText), ScopeAssistant, NaturalText, Direct)
    else {}
  }

  predicate IsInputType(t: Bytes) { t == Ascii("input_text") || t == Ascii("input_image") || t == Ascii("input_file") }

  predicate IsOutputType(t: Bytes) { (t == Ascii("output_text") || t == Ascii("refusal")) && !IsInputType(t) }

  function InputPicks(block: Node, t: Bytes, scope: Scope): set<Pick> {
    if t == Ascii("input_text") then StringPicks(FieldNode(block, KeyText), scope, NaturalText, Direct) else {}
  }

  function AnswerPicks(block: Node, t: Bytes): set<Pick> {
    if t == Ascii("output_text") then OutputPicks(block)
    else StringPicks(FieldNode(block, KeyRefusal), ScopeAssistant, NaturalText, Direct)
  }

  function TextPicks(block: Node, scope: Scope): set<Pick> {
    StringPicks(FieldNode(block, KeyText), scope, if scope == ScopeToolOutput then ToolText else NaturalText, Direct)
  }

  function TypedPicks(block: Node, t: Bytes, scope: Scope): set<Pick> {
    if IsInputType(t) then InputPicks(block, t, scope)
    else if IsOutputType(t) then if scope == ScopeAssistant then AnswerPicks(block, t) else {}
    else if t == Ascii("text") then TextPicks(block, scope)
    else {}
  }

  function PartPicks(block: Node, scope: Scope): set<Pick> {
    var t := TextOf(block, KeyType);
    if NodeKind(block) == ObjectKind && t.Some? then TypedPicks(block, t.value, scope) else {}
  }

  function PartsPicks(items: seq<Item>, n: nat, scope: Scope): set<Pick>
    requires n <= |items|
  {
    if n == 0 then {} else PartsPicks(items, n - 1, scope) + PartPicks(items[n - 1].value, scope)
  }

  function ItemContentPicks(content: Option<Node>, scope: Scope): set<Pick> {
    if content.None? then {}
    else if NodeKind(content.value) == StringKind then
      if scope == ScopeToolOutput then PicksOf(Ids(content.value), scope, ToolText, JsonOrPlain)
      else PicksOf(Ids(content.value), scope, NaturalText, Direct)
    else if NodeKind(content.value) == ArrayKind then PartsPicks(content.value.items, |content.value.items|, scope)
    else {}
  }

  function ItemPicks(message: Node): set<Pick> {
    var scope := RoleOf(message);
    if scope.Some? then ItemContentPicks(FieldNode(message, KeyContent), scope.value) else {}
  }

  // ----- which of its strings are protected -------------------------------

  const IMAGE_NAMES := [KeyFileId, KeyImageUrl, KeyDetail]

  const FILE_NAMES := [KeyFileData, KeyFileId, KeyFileUrl, KeyFilename, KeyDetail]

  const MESSAGE_CONTROLS := [KeyId, KeyStatus, KeyPhase]

  function FileIds(annotation: Node, named: bool): set<int> {
    OwnIds(annotation, KeyFileId) + if named then OwnIds(annotation, KeyFilename) else {}
  }

  /** Of an annotation that is looked at, the type, and the names of a file. */
  function AnnotationOpaques(annotation: Node): set<int> {
    if NodeKind(annotation) != ObjectKind then {}
    else
      OwnIds(annotation, KeyType)
      + (match TextOf(annotation, KeyType)
         case None => {}
         case Some(t) => KindIds(annotation, t))
  }

  function KindIds(annotation: Node, kind: Bytes): set<int> {
    if kind == Ascii("file_citation") then FileIds(annotation, true)
    else if kind == Ascii("file_path") then FileIds(annotation, false)
    else {}
  }

  /** Annotations are looked at up to the first that ties the text to positions. */
  function AnnotationsOpaques(items: seq<Item>, n: nat): set<int>
    requires n <= |items|
    decreases |items| - n
  {
    if n == |items| then {}
    else
      AnnotationOpaques(items[n].value) + if AnnotationSafe(items[n].value) then AnnotationsOpaques(items, n + 1) else {}
  }

  function ListOpaques(annotations: Node): set<int> {
    if NodeKind(annotations) == ArrayKind then AnnotationsOpaques(annotations.items, 0) else {}
  }

  function OutputOpaques(block: Node): set<int> {
    var annotations := FieldNode(block, KeyAnnotations);
    if annotations.Some? then ListOpaques(annotations.value) else {}
  }

  function InputPartOpaques(block: Node, t: Bytes): set<int> {
    if t == Ascii("input_text") then {}
    else if t == Ascii("input_image") then NamedIds(block, IMAGE_NAMES)
    else NamedIds(block, FILE_NAMES)
  }

  function TypedOpaques(block: Node, t: Bytes, scope: Scope): set<int> {
    if IsInputType(t) then BreakpointIds(block) + InputPartOpaques(block, t)
    else if IsOutputType(t) then if scope == ScopeAssistant && t == Ascii("output_text") then OutputOpaques(block) else {}
    else if t == Ascii("text") then NamedIds(block, BLOCK_NAMES) + BreakpointIds(block)
    else {}
  }

  function PartOpaques(block: Node, scope: Scope): set<int> {
    if NodeKind(block) != ObjectKind then {}
    else
      OwnIds(block, KeyType)
      + (match TextOf(block, KeyType)
         case None => {}
         case Some(t) => TypedOpaques(block, t, scope))
  }

  function PartsOpaques(items: seq<Item>, n: nat, scope: Scope): set<int>
    requires n <= |items|
  {
    if n == 0 then {} else PartsOpaques(items, n - 1, scope) + PartOpaques(items[n - 1].value, scope)
  }

  function ItemContentOpaques(content: Option<Node>, scope: Scope): set<int> {
    if content.Some? && NodeKind(content.value) == ArrayKind then PartsOpaques(content.value.items, |content.value.items|, scope)
    else {}
  }

  function ItemOpaques(message: Node): set<int> {
    var scope := RoleOf(message);
    NamedIds(message, MESSAGE_CONTROLS) + OwnIds(message, KeyRole)
    + if scope.Some? then ItemContentOpaques(FieldNode(message, KeyContent), scope.value) else {}
  }

  /** An output block whose text something ties to positions. */
  predicate Coupled(block: Node) {
    !AnnotationsSafe(FieldNode(block, KeyAnnotations)) || !LogprobsSafe(FieldNode(block, KeyLogprobs))
  }

  // ----- the walk ---------------------------------------------------------

  method WalkCacheBreakpoint(c: Collector, obj: Node, ghost done: set<Name>) returns (error: Option<WalkError>)
    requires c.Valid() && c.Suits(obj) && obj.ContainerNode? && c.Untouched(obj, done) && KeyPromptCacheBreakpoint !in done
    modifies c`opaques, c.budget
    ensures c.Valid() && c.Grew(Ids(obj)) && c.Taken() == old(c.Taken())
    ensures error.None? ==> c.Untouched(obj, done + {KeyPromptCacheBreakpoint}) && c.opaques == old(c.opaques) + BreakpointIds(obj)
    ensures error.Some? ==> c.Honest(error.value)
  {
    hide c.Valid, FieldNode, NameOf, c.Untouched, c.After, Ids, KeyIds, FieldIds;
    ghost var d := c.Disposed();
    var breakpoint;
    breakpoint, error := c.NullableField(obj, KeyPromptCacheBreakpoint, ObjectKind, false, true, done);
    if error.Some? || breakpoint.None? {
      return;
    }
    error := c.Unique(breakpoint.value, [KeyMode]);
    if error.Some? {
      return;
    }
    ghost var clean := c.Untouched(obj, done);
    if clean && KeyPromptCacheBreakpoint !in done {
      InnerReady(c, breakpoint.value);
    }
    var mode;
    mode, error := MarkedField(c, breakpoint.value, KeyMode, true, {});
    c.Finish(obj, KeyPromptCacheBreakpoint, done, breakpoint.value, d);
  }

  lemma InnerReady(c: Collector, n: Node)
    requires n.ContainerNode? && c.Disposed() !! Ids(n)
    ensures c.Untouched(n, {}) && c.Taken() !! Ids(n)
  {
    hide NameOf;
  }

  /** One annotation of an output text; false when it ties the text to positions. */
  method WalkAnnotation(c: Collector, block: Node, annotation: Node) returns (safe: bool, error: Option<WalkError>)
    requires c.Valid() && c.Suits(block) && c.Suits(annotation) && Ids(annotation) <= Ids(block)
    requires c.Taken() !! Ids(block)
    modifies c, c.budget
    ensures c.Valid() && c.Grew(Ids(block))
    ensures error.None? && safe ==> c.Taken() == old(c.Taken()) && c.Disposed() <= old(c.Disposed()) + Ids(annotation)
    ensures c.picks == old(c.picks) && c.targets == old(c.targets) && (error.None? ==> (safe <==> AnnotationSafe(annotation)))
    ensures error.None? ==> c.opaques == old(c.opaques) + AnnotationOpaques(annotation)
    ensures error.None? && !safe && c.err.None? ==> Ids(block) <= c.opaques + c.rejected
    ensures error.Some? ==> c.Honest(error.value)
  {
    hide c.Valid, FieldNode, NameOf, c.Suits, c.Untouched, c.After, Ids, KeyIds, FieldIds, Ascii, Collector.Rejected,
         Collector.ShapeCost, AnnotationSafe, AnnotationOpaques, KindIds;
    AnnotationKinds(annotation);
    if NodeKind(annotation) != ObjectKind {
      c.Unsupported(block, "output-text annotation is not an object");
      if c.err.None? {
        Refused(c, Ids(block));
      }
      return false, None;
    }
    var annotationType;
    annotationType, error := MarkedField(c, annotation, KeyType, true, {});
    if error.Some? {
      return false, error;
    }
    safe, error := WalkTypedAnnotation(c, block, annotation, annotationType.value.value);
  }

  lemma AnnotationKinds(annotation: Node)
    ensures NodeKind(annotation) != ObjectKind ==> !AnnotationSafe(annotation) && AnnotationOpaques(annotation) == {}
    ensures NodeKind(annotation) == ObjectKind && TextOf(annotation, KeyType).Some? ==>
              var t := TextOf(annotation, KeyType).value;
              (AnnotationSafe(annotation) <==> t == Ascii("file_citation") || t == Ascii("file_path"))
              && AnnotationOpaques(annotation) == FieldIds(annotation, KeyType) + KindIds(annotation, t)
  {
    hide FieldNode, FieldIds, Ascii, FileIds;
  }

  method WalkTypedAnnotation(c: Collector, block: Node, annotation: Node, kind: Bytes) returns (safe: bool, error: Option<WalkError>)
    requires c.Valid() && c.Suits(block) && c.Suits(annotation) && annotation.ContainerNode? && Ids(annotation) <= Ids(block)
    requires c.Taken() !! Ids(block)
    modifies c, c.budget
    ensures c.Valid() && c.Grew(Ids(block))
    ensures error.None? && safe ==> c.Taken() == old(c.Taken()) && c.Disposed() <= old(c.Disposed()) + Ids(annotation)
    ensures c.picks == old(c.picks) && c.targets == old(c.targets)
    ensures error.None? ==> (safe <==> kind == Ascii("file_citation") || kind == Ascii("file_path"))
    ensures error.None? ==> c.opaques == old(c.opaques) + KindIds(annotation, kind)
    ensures error.None? && !safe && c.err.None? ==> Ids(block) <= c.opaques + c.rejected
    ensures error.Some? ==> c.Honest(error.value)
  {
    hide c.Valid, FieldNode, NameOf, c.Suits, c.Untouched, c.After, Ids, KeyIds, FieldIds, Ascii, Collector.Rejected,
         Collector.ShapeCost, FileIds;
    if kind == Ascii("file_citation") {
      error := c.Unique(annotation, [KeyType, KeyFileId, KeyFilename, KeyIndex]);
      if error.Some? {
        return false, error;
      }
      error := MarkFileFields(c, annotation, true);
      return true, error;
    }
    if kind == Ascii("file_path") {
      error := c.Unique(annotation, [KeyType, KeyFileId, KeyIndex]);
      if error.Some? {
        return false, error;
      }
      error := MarkFileFields(c, annotation, false);
      return true, error;
    }
    if kind == Ascii("url_citation") || kind == Ascii("container_file_citation") {
      c.Unsupported(block, "output text has position-coupled annotations");
      if c.err.None? {
        Refused(c, Ids(block));
      }
      return false, None;
    }
    c.UnsupportedValue(block, "unknown output-text annotation type ", kind);
    if c.err.None? {
      Refused(c, Ids(block));
    }
    return false, None;
  }

  method MarkFileFields(c: Collector, annotation: Node, named: bool) returns (error: Option<WalkError>)
    requires c.Valid() && c.Suits(annotation) && annotation.ContainerNode? && c.Taken() !! Ids(annotation)
    modifies c`opaques, c.budget
    ensures c.Valid() && c.Grew(Ids(annotation)) && c.Taken() == old(c.Taken())
    ensures error.None? ==> c.opaques == old(c.opaques) + FileIds(annotation, named)
    ensures error.Some? ==> c.Honest(error.value)
  {
    hide c.Valid, FieldNode, NameOf, c.Suits, c.Untouched, Ids, KeyIds, FieldIds;
    error := c.MarkOpaqueStringField(annotation, KeyFileId, true, false, {});
    if error.Some? {
      return;
    }
    if named {
      error := c.MarkOpaqueStringField(annotation, KeyFilename, true, false, {});
      if error.Some? {
        return;
      }
    }
    var index;
    index, error := c.NullableField(annotation, KeyIndex, NumberKind, true, false, {});
  }

  /** False when some annotation made the block unsupported. */
  method WalkOutputAnnotations(c: Collector, block: Node, ghost done: set<Name>) returns (safe: bool, error: Option<WalkError>)
    requires c.Valid() && c.Suits(block) && block.ContainerNode? && c.Taken() !! Ids(block)
    requires c.Untouched(block, done) && KeyAnnotations !in done
    modifies c, c.budget
    ensures c.Valid() && c.Grew(Ids(block))
    ensures error.None? && safe ==> c.Untouched(block, done + {KeyAnnotations}) && c.Taken() == old(c.Taken())
    ensures error.None? ==> c.opaques == old(c.opaques) + OutputOpaques(block)
    ensures error.None? && !safe && c.err.None? ==> Ids(block) <= c.opaques + c.rejected
    ensures c.picks == old(c.picks) && c.targets == old(c.targets)
    ensures error.None? ==> (safe <==> AnnotationsSafe(FieldNode(block, KeyAnnotations)))
    ensures error.Some? ==> c.Honest(error.value)
  {
    hide c.Valid, FieldNode, NameOf, c.Suits, c.Untouched, c.After, Ids, KeyIds, FieldIds, AnnotationSafe, AnnotationsOpaques,
         AnnotationsSafe, OutputOpaques;
    safe := true;
    ghost var d := c.Disposed();
    AnnotationCases(block);
    var annotations;
    annotations, error := c.NullableField(block, KeyAnnotations, ArrayKind, false, true, done);
    if error.Some? || annotations.None? {
      return;
    }
    safe, error := WalkAnnotations(c, block, annotations.value);
    if error.None? && safe {
      c.Finish(block, KeyAnnotations, done, annotations.value, d);
    }
  }

  lemma AnnotationCases(block: Node)
    ensures var annotations := FieldNode(block, KeyAnnotations);
            (annotations.None? || NodeKind(annotations.value) == NullKind ==> AnnotationsSafe(annotations) && OutputOpaques(block) == {})
            && (annotations.Some? && annotations.value.ContainerNode? && !annotations.value.isObject ==>
                  OutputOpaques(block) == AnnotationsOpaques(annotations.value.items, 0)
                  && (AnnotationsSafe(annotations)
                      <==> forall i :: 0 <= i < |annotations.value.items| ==> AnnotationSafe(annotations.value.items[i].value)))
  {
    hide AnnotationSafe, AnnotationsOpaques, FieldNode;
  }

  lemma AnnotationsNext(items: seq<Item>, i: nat)
    requires i < |items|
    ensures AnnotationsOpaques(items, i)
            == AnnotationOpaques(items[i].value) + if AnnotationSafe(items[i].value) then AnnotationsOpaques(items, i + 1) else {}
  {
    hide AnnotationSafe, AnnotationOpaques;
  }

  lemma AnnotationsEnd(items: seq<Item>)
    ensures AnnotationsOpaques(items, |items|) == {}
  {
  }

  /** The annotations in order, up to the first that ties the text to positions. */
  method WalkAnnotations(c: Collector, block: Node, annotations: Node) returns (safe: bool, error: Option<WalkError>)
    requires c.Valid() && c.Suits(block) && c.Suits(annotations) && Ids(annotations) <= Ids(block) && c.Taken() !! Ids(block)
    requires annotations.ContainerNode?
    modifies c, c.budget
    ensures c.Valid() && c.Grew(Ids(block))
    ensures error.None? && safe ==> c.Taken() == old(c.Taken()) && c.Disposed() <= old(c.Disposed()) + Ids(annotations)
    ensures error.None? ==> c.opaques == old(c.opaques) + AnnotationsOpaques(annotations.items, 0)
    ensures error.None? && !safe && c.err.None? ==> Ids(block) <= c.opaques + c.rejected
    ensures c.picks == old(c.picks) && c.targets == old(c.targets)
    ensures error.None? ==>
              (safe <==> forall i :: 0 <= i < |annotations.items| ==> AnnotationSafe(annotations.items[i].value))
    ensures error.Some? ==> c.Honest(error.value)
  {
    hide c.Valid, c.Suits, Ids, PrefixIds, AnnotationSafe, AnnotationOpaques, AnnotationsOpaques;
    safe, error := true, None;
    ghost var d := c.Disposed();
    NoneReady(c, annotations);
    AnnotationsEnd(annotations.items);
    for i := 0 to |annotations.items|
      invariant c.Valid() && c.Grew(Ids(block)) && c.Taken() == old(c.Taken()) && error.None? && safe
      invariant c.picks == old(c.picks) && c.targets == old(c.targets)
      invariant forall k :: 0 <= k < i ==> AnnotationSafe(annotations.items[k].value)
      invariant c.Disposed() <= d + PrefixIds(annotations.items, i)
      invariant c.opaques + AnnotationsOpaques(annotations.items, i) == old(c.opaques) + AnnotationsOpaques(annotations.items, 0)
    {
      PrefixNext(annotations.items, i);
      AnnotationsNext(annotations.items, i);
      c.ChildSuits(annotations, i);
      safe, error := WalkAnnotation(c, block, annotations.items[i].value);
      if error.Some? || !safe {
        return;
      }
    }
  }

  method WalkOutputContent(c: Collector, block: Node) returns (error: Option<WalkError>)
    requires c.Valid() && c.Suits(block) && block.ContainerNode? && c.Taken() !! Ids(block) && c.Untouched(block, {KeyType})
    modifies c, c.budget
    ensures c.Valid() && c.Grew(Ids(block))
    ensures error.None? && TextOf(block, KeyType).Some? && IsOutputType(TextOf(block, KeyType).value) ==>
              c.picks == old(c.picks) + AnswerPicks(block, TextOf(block, KeyType).value)
              && c.opaques == old(c.opaques) + OwnIds(block, KeyType)
                              + if TextOf(block, KeyType).value == Ascii("output_text") then OutputOpaques(block) else {}
    ensures error.Some? ==> c.Honest(error.value)
  {
    hide c.Valid, FieldNode, NameOf, c.Suits, c.Untouched, c.After, Ids, KeyIds, FieldIds, Ascii, Collector.Rejected,
         Collector.ShapeCost;
    error := c.Unique(block, [KeyType, KeyText, KeyRefusal, KeyAnnotations, KeyLogprobs]);
    if error.Some? {
      return;
    }
    var typeNode;
    typeNode, error := MarkedField(c, block, KeyType, true, {KeyType});
    if error.Some? {
      return;
    }
    assert {KeyType} + {KeyType} == {KeyType};
    if typeNode.value.value == Ascii("output_text") {
      error := WalkOutputText(c, block);
    } else if typeNode.value.value == Ascii("refusal") {
      error := c.AddStringField(block, KeyRefusal, true, false, ScopeAssistant, NaturalText, {KeyType});
    } else {
      c.UnsupportedValue(block, "unknown output content type ", typeNode.value.value);
      error := None;
    }
  }

  /** The text of an output block is selected only when nothing ties it to positions. */
  method WalkOutputText(c: Collector, block: Node) returns (error: Option<WalkError>)
    requires c.Valid() && c.Suits(block) && block.ContainerNode? && c.Taken() !! Ids(block) && c.Untouched(block, {KeyType})
    modifies c, c.budget
    ensures c.Valid() && c.Grew(Ids(block))
    ensures error.None? ==> c.picks == old(c.picks) + OutputPicks(block)
    ensures error.None? ==> c.opaques == old(c.opaques) + OutputOpaques(block)
    ensures error.None? && c.err.None? && Coupled(block) ==> Ids(block) <= c.opaques + c.rejected
    ensures error.Some? ==> c.Honest(error.value)
  {
    hide c.Valid, FieldNode, NameOf, c.Suits, c.Untouched, Ids, AnnotationsSafe, OutputPicks, OutputOpaques, Coupled,
         StringPicks;
    OutputCases(block);
    var annotationsSafe;
    annotationsSafe, error := WalkOutputAnnotations(c, block, {KeyType});
    if error.Some? || !annotationsSafe {
      return;
    }
    error := WalkPlainOutput(c, block, {KeyType} + {KeyAnnotations});
  }

  lemma OutputCases(block: Node)
    ensures var safe := AnnotationsSafe(FieldNode(block, KeyAnnotations)) && LogprobsSafe(FieldNode(block, KeyLogprobs));
            (Coupled(block) <==> !safe)
            && OutputPicks(block)
               == if safe then StringPicks(FieldNode(block, KeyText), ScopeAssistant, NaturalText, Direct) else {}
  {
    hide AnnotationsSafe, LogprobsSafe, StringPicks;
  }

  /** An output text without annotations that matter: log probabilities still may. */
  method WalkPlainOutput(c: Collector, block: Node, ghost done: set<Name>) returns (error: Option<WalkError>)
    requires c.Valid() && c.Suits(block) && block.ContainerNode? && c.Taken() !! Ids(block) && c.Untouched(block, done)
    requires KeyText !in done
    modifies c, c.budget
    ensures c.Valid() && c.Grew(Ids(block)) && c.opaques == old(c.opaques)
    ensures error.None? ==>
              c.picks == old(c.picks) + if LogprobsSafe(FieldNode(block, KeyLogprobs))
                                        then StringPicks(FieldNode(block, KeyText), ScopeAssistant, NaturalText, Direct) else {}
    ensures error.None? && c.err.None? && !LogprobsSafe(FieldNode(block, KeyLogprobs)) ==> Ids(block) <= c.opaques + c.rejected
    ensures error.Some? ==> c.Honest(error.value)
  {
    hide c.Valid, FieldNode, NameOf, c.Suits, c.Untouched, c.After, Ids, KeyIds, FieldIds, Collector.Rejected,
         Collector.ShapeCost, StringPicks;
    var logprobs;
    logprobs, error := c.AnyField(block, KeyLogprobs, done);
    if error.Some? {
      return;
    }
    if logprobs.Some? && NodeKind(logprobs.value) != NullKind {
      if NodeKind(logprobs.value) != ArrayKind {
        var e := c.Shape();
        return Some(e);
      }
      if |logprobs.value.items| != 0 {
        c.Unsupported(block, "output text has integrity-coupled logprobs");
        if c.err.None? {
          Refused(c, Ids(block));
        }
        return None;
      }
    }
    error := c.AddStringField(block, KeyText, true, false, ScopeAssistant, NaturalText, done);
  }

  method WalkInputContent(c: Collector, block: Node, scope: Scope) returns (error: Option<WalkError>)
    requires c.Valid() && c.Suits(block) && block.ContainerNode? && c.Taken() !! Ids(block) && c.Untouched(block, {KeyType})
    modifies c, c.budget
    ensures c.Valid() && c.Grew(Ids(block))
    ensures error.None? && TextOf(block, KeyType).Some? && IsInputType(TextOf(block, KeyType).value) ==>
              c.picks == old(c.picks) + InputPicks(block, TextOf(block, KeyType).value, scope)
              && c.opaques == old(c.opaques) + OwnIds(block, KeyType)
                              + (BreakpointIds(block) + InputPartOpaques(block, TextOf(block, KeyType).value))
    ensures error.Some? ==> c.Honest(error.value)
  {
    hide c.Valid, FieldNode, NameOf, c.Suits, c.Untouched, c.After, Ids, KeyIds, FieldIds, Ascii;
    error := c.Unique(block, [KeyType, KeyText, KeyFileId, KeyImageUrl, KeyDetail, KeyFileData, KeyFileUrl, KeyFilename,
                              KeyPromptCacheBreakpoint]);
    if error.Some? {
      return;
    }
    var typeNode;
    typeNode, error := MarkedField(c, block, KeyType, true, {KeyType});
    if error.Some? {
      return;
    }
    assert {KeyType} + {KeyType} == {KeyType};
    error := WalkCacheBreakpoint(c, block, {KeyType});
    if error.Some? {
      return;
    }
    error := WalkInputParts(c, block, scope, typeNode.value.value);
  }

  method WalkInputParts(c: Collector, block: Node, scope: Scope, blockType: Bytes) returns (error: Option<WalkError>)
    requires c.Valid() && c.Suits(block) && block.ContainerNode? && c.Taken() !! Ids(block)
    requires c.Untouched(block, {KeyType} + {KeyPromptCacheBreakpoint})
    modifies c, c.budget
    ensures c.Valid() && c.Grew(Ids(block))
    ensures error.None? && IsInputType(blockType) ==> 
              c.picks == old(c.picks) + InputPicks(block, blockType, scope) && c.opaques == old(c.opaques) + InputPartOpaques(block, blockType)
    ensures error.Some? ==> c.Honest(error.value)
  {
    hide c.Valid, FieldNode, NameOf, c.Suits, c.Untouched, Ids, KeyIds, FieldIds, Ascii;
    ghost var done := {KeyType} + {KeyPromptCacheBreakpoint};
    if blockType == Ascii("input_text") {
      error := c.AddStringField(block, KeyText, true, false, scope, NaturalText, done);
    } else if blockType == Ascii("input_image") {
      error := c.MarkOpaqueStringFields(block, IMAGE_NAMES, done);
    } else if blockType == Ascii("input_file") {
      error := c.MarkOpaqueStringFields(block, FILE_NAMES, done);
    } else {
      c.UnsupportedValue(block, "unknown input content type ", blockType);
      error := None;
    }
  }

  /** Identifiers and cache marker of a plain text block. */
  method MarkTextBlock(c: Collector, block: Node) returns (error: Option<WalkError>)
    requires c.Valid() && c.Suits(block) && block.ContainerNode? && c.Taken() !! Ids(block) && c.Untouched(block, {KeyType})
    modifies c`opaques, c.budget
    ensures c.Valid() && c.Grew(Ids(block)) && c.Taken() == old(c.Taken())
    ensures error.None? ==> c.Untouched(block, {KeyType} + Collector.Listed(BLOCK_NAMES) + {KeyPromptCacheBreakpoint})
    ensures error.None? ==> c.opaques == old(c.opaques) + (NamedIds(block, BLOCK_NAMES) + BreakpointIds(block))
    ensures error.Some? ==> c.Honest(error.value)
  {
    hide c.Valid, FieldNode, NameOf, c.Suits, c.Untouched, Ids, KeyIds, FieldIds, Collector.Listed;
    error := c.Unique(block, [KeyType, KeyText, KeyId, KeyName, KeyCallId, KeySignature, KeyPromptCacheBreakpoint]);
    if error.Some? {
      return;
    }
    error := MarkBlockNames(c, block);
    if error.Some? {
      return;
    }
    NotListed(BLOCK_NAMES, KeyPromptCacheBreakpoint);
    error := WalkCacheBreakpoint(c, block, {KeyType} + Collector.Listed(BLOCK_NAMES));
  }

  method MarkBlockNames(c: Collector, block: Node) returns (error: Option<WalkError>)
    requires c.Valid() && c.Suits(block) && block.ContainerNode? && c.Taken() !! Ids(block) && c.Untouched(block, {KeyType})
    modifies c`opaques, c.budget
    ensures c.Valid() && c.Grew(Ids(block)) && c.Taken() == old(c.Taken())
    ensures error.None? ==>
              c.Untouched(block, {KeyType} + Collector.Listed(BLOCK_NAMES))
              && c.opaques == old(c.opaques) + NamedIds(block, BLOCK_NAMES)
    ensures error.Some? ==> c.Honest(error.value)
  {
    hide c.Valid, FieldNode, NameOf, c.Suits, c.Untouched, Ids, KeyIds, FieldIds, Collector.Listed;
    error := c.MarkOpaqueStringFields(block, BLOCK_NAMES, {KeyType});
  }

  /** A plain text block of a message. */
  method WalkTextBlock(c: Collector, block: Node, scope: Scope) returns (error: Option<WalkError>)
    requires c.Valid() && c.Suits(block) && block.ContainerNode? && c.Taken() !! Ids(block) && c.Untouched(block, {KeyType})
    modifies c, c.budget
    ensures c.Valid() && c.Grew(Ids(block))
    ensures error.None? ==> FieldIds(block, KeyText) <= c.targets
    ensures error.None? ==> c.picks == old(c.picks) + TextPicks(block, scope)
    ensures error.None? ==> c.opaques == old(c.opaques) + (NamedIds(block, BLOCK_NAMES) + BreakpointIds(block))
    ensures error.Some? ==> c.Honest(error.value)
  {
    hide c.Valid, FieldNode, NameOf, c.Suits, c.Untouched, Ids, KeyIds, FieldIds, Collector.Listed;
    error := MarkTextBlock(c, block);
    if error.Some? {
      return;
    }
    NotListed(BLOCK_NAMES, KeyText);
    error := c.AddStringField(block, KeyText, true, false, scope, if scope == ScopeToolOutput then ToolText else NaturalText,
                              {KeyType} + Collector.Listed(BLOCK_NAMES) + {KeyPromptCacheBreakpoint});
  }

  method WalkMessageBlock(c: Collector, block: Node, scope: Scope) returns (error: Option<WalkError>)
    requires Ready(c, block)
    modifies c, c.budget
    ensures c.Valid() && c.Grew(Ids(block))
    ensures error.None? ==> c.picks == old(c.picks) + PartPicks(block, scope)
    ensures error.None? ==> c.opaques == old(c.opaques) + PartOpaques(block, scope)
    ensures error.Some? ==> c.Honest(error.value)
  {
    hide c.Valid, FieldNode, NameOf, c.Suits, c.Untouched, c.After, Ids, KeyIds, FieldIds, Collector.Rejected,
         Collector.ShapeCost, PartPicks, PartOpaques, TypedPicks, TypedOpaques;
    PartCases(block, scope);
    if NodeKind(block) != ObjectKind {
      c.Unsupported(block, "message content element is not an object");
      return None;
    }
    var kind;
    kind, error := ReadType(c, block, []);
    if error.Some? {
      return;
    }
    error := WalkTypedPart(c, block, scope, kind);
  }

  lemma PartCases(block: Node, scope: Scope)
    ensures NodeKind(block) != ObjectKind ==> PartPicks(block, scope) == {} && PartOpaques(block, scope) == {}
    ensures NodeKind(block) == ObjectKind && TextOf(block, KeyType).Some? ==>
              PartPicks(block, scope) == TypedPicks(block, TextOf(block, KeyType).value, scope)
              && PartOpaques(block, scope) == FieldIds(block, KeyType) + TypedOpaques(block, TextOf(block, KeyType).value, scope)
  {
    hide TypedPicks, TypedOpaques, FieldNode, FieldIds;
  }

  /** What an assistant put out; in any other message the block is refused. */
  method WalkAnswer(c: Collector, block: Node, scope: Scope, kind: Bytes) returns (error: Option<WalkError>)
    requires c.Valid() && c.Suits(block) && block.ContainerNode? && c.Taken() !! Ids(block) && c.Untouched(block, {KeyType})
    requires TextOf(block, KeyType) == Some(kind) && IsOutputType(kind) && FieldIds(block, KeyType) <= c.opaques
    modifies c, c.budget
    ensures c.Valid() && c.Grew(Ids(block))
    ensures error.None? ==> c.picks == old(c.picks) + if scope == ScopeAssistant then AnswerPicks(block, kind) else {}
    ensures error.None? ==>
              c.opaques
              == old(c.opaques) + if scope == ScopeAssistant && kind == Ascii("output_text") then OutputOpaques(block) else {}
    ensures error.None? && c.err.None? && scope != ScopeAssistant ==> Ids(block) <= c.opaques + c.rejected
    ensures error.Some? ==> c.Honest(error.value)
  {
    hide c.Valid, FieldNode, NameOf, c.Suits, c.Untouched, Ids, KeyIds, FieldIds, Ascii, Collector.Rejected,
         Collector.ShapeCost, AnswerPicks, OutputOpaques, IsOutputType, TextOf;
    if scope == ScopeAssistant {
      error := WalkOutputContent(c, block);
      return;
    }
    c.Unsupported(block, "output content outside assistant message");
    if c.err.None? {
      Refused(c, Ids(block));
    }
    error := None;
  }

  lemma TypedCases(block: Node, t: Bytes, scope: Scope)
    ensures IsInputType(t) ==>
              TypedPicks(block, t, scope) == InputPicks(block, t, scope)
              && TypedOpaques(block, t, scope) == BreakpointIds(block) + InputPartOpaques(block, t)
    ensures !IsInputType(t) && IsOutputType(t) ==>
              TypedPicks(block, t, scope) == (if scope == ScopeAssistant then AnswerPicks(block, t) else {})
              && TypedOpaques(block, t, scope)
                 == if scope == ScopeAssistant && t == Ascii("output_text") then OutputOpaques(block) else {}
    ensures !IsInputType(t) && !IsOutputType(t) && t == Ascii("text") ==>
              TypedPicks(block, t, scope) == TextPicks(block, scope)
              && TypedOpaques(block, t, scope) == NamedIds(block, BLOCK_NAMES) + BreakpointIds(block)
    ensures !IsInputType(t) && !IsOutputType(t) && t != Ascii("text") ==>
              TypedPicks(block, t, scope) == {} && TypedOpaques(block, t, scope) == {}
  {
    hide IsInputType, IsOutputType, Ascii, InputPicks, AnswerPicks, TextPicks, NamedIds, BreakpointIds, InputPartOpaques,
         OutputOpaques;
  }

  /** A block by its type, which has been protected already. */
  method WalkTypedPart(c: Collector, block: Node, scope: Scope, kind: Bytes) returns (error: Option<WalkError>)
    requires c.Valid() && c.Suits(block) && block.ContainerNode? && c.Taken() !! Ids(block) && c.Untouched(block, {KeyType})
    requires TextOf(block, KeyType) == Some(kind) && FieldIds(block, KeyType) <= c.opaques
    modifies c, c.budget
    ensures c.Valid() && c.Grew(Ids(block))
    ensures error.None? ==> c.picks == old(c.picks) + TypedPicks(block, kind, scope)
    ensures error.None? ==> c.opaques == old(c.opaques) + TypedOpaques(block, kind, scope)
    ensures error.Some? ==> c.Honest(error.value)
  {
    hide c.Valid, FieldNode, NameOf, c.Suits, c.Untouched, Ids, KeyIds, FieldIds, Ascii, Collector.Rejected,
         Collector.ShapeCost, InputPicks, AnswerPicks, TextPicks, InputPartOpaques, OutputOpaques, NamedIds, BreakpointIds,
         TextOf, IsInputType, IsOutputType, TypedPicks, TypedOpaques;
    error := None;
    TypedCases(block, kind, scope);
    if IsInputType(kind) {
      error := WalkInputContent(c, block, scope);
    } else if IsOutputType(kind) {
      error := WalkAnswer(c, block, scope, kind);
    } else if kind == Ascii("text") {
      error := WalkTextBlock(c, block, scope);
    } else {
      c.UnsupportedValue(block, "unknown message content type ", kind);
    }
  }

  /** A message item, whatever has been done with its other members before. */
  method WalkResponsesMessage(c: Collector, message: Node, ghost done: set<Name>) returns (error: Option<WalkError>)
    requires c.Valid() && c.Suits(message) && message.ContainerNode? && c.Untouched(message, done)
    requires done !! {KeyRole, KeyContent, KeyId, KeyStatus, KeyPhase}
    modifies c, c.budget
    ensures c.Valid() && c.Grew(Ids(message))
    ensures error.None? ==> c.picks == old(c.picks) + ItemPicks(message)
    ensures error.None? ==> c.opaques == old(c.opaques) + ItemOpaques(message)
    ensures error.Some? ==> c.Honest(error.value)
  {
    hide c.Valid, FieldNode, NameOf, c.Suits, c.Untouched, Ids, KeyIds, FieldIds, Collector.Listed;
    error := c.Unique(message, [KeyType, KeyRole, KeyContent, KeyId, KeyStatus, KeyPhase]);
    if error.Some? {
      return;
    }
    ControlsApart(done);
    ghost var so := done + Collector.Listed(MESSAGE_CONTROLS);
    error := MarkMessageControls(c, message, done);
    if error.Some? {
      return;
    }
    error := WalkRoleAndContent(c, message, so);
  }

  lemma ControlsApart(done: set<Name>)
    requires done !! {KeyRole, KeyContent, KeyId, KeyStatus, KeyPhase}
    ensures forall i :: 0 <= i < |MESSAGE_CONTROLS| ==> MESSAGE_CONTROLS[i] !in done
    ensures KeyRole !in done + Collector.Listed(MESSAGE_CONTROLS) && KeyContent !in done + Collector.Listed(MESSAGE_CONTROLS)
  {
  }

  method MarkMessageControls(c: Collector, message: Node, ghost done: set<Name>) returns (error: Option<WalkError>)
    requires c.Valid() && c.Suits(message) && message.ContainerNode? && c.Untouched(message, done)
    requires forall i :: 0 <= i < |MESSAGE_CONTROLS| ==> MESSAGE_CONTROLS[i] !in done
    modifies c`opaques, c.budget
    ensures c.Valid() && c.Grew(Ids(message))
    ensures error.None? ==>
              c.Untouched(message, done + Collector.Listed(MESSAGE_CONTROLS))
              && c.opaques == old(c.opaques) + NamedIds(message, MESSAGE_CONTROLS)
    ensures error.Some? ==> c.Honest(error.value)
  {
    hide c.Valid, FieldNode, NameOf, c.Suits, c.Untouched, Ids, KeyIds, FieldIds, Collector.Listed;
    error := c.MarkOpaqueStringFields(message, MESSAGE_CONTROLS, done);
  }

  method WalkRoleAndContent(c: Collector, message: Node, ghost done: set<Name>) returns (error: Option<WalkError>)
    requires c.Valid() && c.Suits(message) && message.ContainerNode? && c.Untouched(message, done)
    requires KeyRole !in done && KeyContent !in done && NamedIds(message, MESSAGE_CONTROLS) <= c.opaques
    modifies c, c.budget
    ensures c.Valid() && c.Grew(Ids(message))
    ensures error.None? ==> c.picks == old(c.picks) + ItemPicks(message)
    ensures error.None? ==> c.opaques == old(c.opaques) + ItemOpaques(message)
    ensures error.Some? ==> c.Honest(error.value)
  {
    hide c.Valid, FieldNode, NameOf, c.Suits, c.Untouched, c.After, Ids, KeyIds, FieldIds, Ascii, ScopeForRole,
         Collector.Rejected, Collector.ShapeCost;
    var roleNode;
    roleNode, error := MarkedField(c, message, KeyRole, true, done);
    if error.Some? {
      return;
    }
    var scope := ScopeForRole(roleNode.value.value);
    if scope.None? {
      c.UnsupportedValue(roleNode.value, "unknown message role ", roleNode.value.value);
      return None;
    }
    error := WalkResponsesContent(c, message, scope.value, done + {KeyRole});
  }

  lemma ItemContentCases(content: Node, scope: Scope)
    ensures NodeKind(content) == StringKind ==>
              ItemContentPicks(Some(content), scope)
              == (if scope == ScopeToolOutput then PicksOf(Ids(content), scope, ToolText, JsonOrPlain)
                  else PicksOf(Ids(content), scope, NaturalText, Direct))
              && ItemContentOpaques(Some(content), scope) == {}
    ensures NodeKind(content) == ArrayKind ==>
              ItemContentPicks(Some(content), scope) == PartsPicks(content.items, |content.items|, scope)
              && ItemContentOpaques(Some(content), scope) == PartsOpaques(content.items, |content.items|, scope)
              && PartsPicks(content.items, 0, scope) == {} && PartsOpaques(content.items, 0, scope) == {}
  {
  }

  lemma PartsNext(items: seq<Item>, i: nat, scope: Scope)
    requires i < |items|
    ensures PartsPicks(items, i + 1, scope) == PartsPicks(items, i, scope) + PartPicks(items[i].value, scope)
    ensures PartsOpaques(items, i + 1, scope) == PartsOpaques(items, i, scope) + PartOpaques(items[i].value, scope)
  {
  }

  method WalkResponsesContent(c: Collector, message: Node, scope: Scope, ghost done: set<Name>) returns (error: Option<WalkError>)
    requires c.Valid() && c.Suits(message) && message.ContainerNode? && c.Untouched(message, done) && KeyContent !in done
    modifies c, c.budget
    ensures c.Valid() && c.Grew(Ids(message))
    ensures error.None? ==> c.picks == old(c.picks) + ItemContentPicks(FieldNode(message, KeyContent), scope)
    ensures error.None? ==> c.opaques == old(c.opaques) + ItemContentOpaques(FieldNode(message, KeyContent), scope)
    ensures error.Some? ==> c.Honest(error.value)
  {
    hide c.Valid, FieldNode, NameOf, c.Suits, c.Untouched, c.After, c.Found, Ids, KeyIds, FieldIds, PrefixIds, c.Describes,
         ItemContentPicks, ItemContentOpaques, PicksOf;
    var content;
    content, error := c.AnyField(message, KeyContent, done);
    if error.Some? {
      return;
    }
    if content.None? {
      var e := c.Shape();
      return Some(e);
    }
    FoundReady(c, message, KeyContent, done, content.value);
    error := WalkItemContent(c, content.value, scope);
  }

  method WalkItemContent(c: Collector, content: Node, scope: Scope) returns (error: Option<WalkError>)
    requires Ready(c, content)
    modifies c, c.budget
    ensures c.Valid() && c.Grew(Ids(content))
    ensures error.None? ==> c.picks == old(c.picks) + ItemContentPicks(Some(content), scope)
    ensures error.None? ==> c.opaques == old(c.opaques) + ItemContentOpaques(Some(content), scope)
    ensures error.Some? ==> c.Honest(error.value)
  {
    hide c.Valid, c.Suits, Ids, PrefixIds, c.Describes, ItemContentPicks, ItemContentOpaques, PicksOf, PartsPicks,
         PartsOpaques;
    ItemContentCases(content, scope);
    if NodeKind(content) == StringKind {
      if scope == ScopeToolOutput {
        error := c.Add(content, scope, ToolText, JsonOrPlain);
      } else {
        error := c.Add(content, scope, NaturalText, Direct);
      }
      return;
    }
    if NodeKind(content) != ArrayKind {
      var e := c.Shape();
      return Some(e);
    }
    error := WalkParts(c, content, scope);
  }

  method WalkParts(c: Collector, content: Node, scope: Scope) returns (error: Option<WalkError>)
    requires Ready(c, content) && content.ContainerNode? && NodeKind(content) == ArrayKind
    modifies c, c.budget
    ensures c.Valid() && c.Grew(Ids(content))
    ensures error.None? ==> c.picks == old(c.picks) + PartsPicks(content.items, |content.items|, scope)
    ensures error.None? ==> c.opaques == old(c.opaques) + PartsOpaques(content.items, |content.items|, scope)
    ensures error.Some? ==> c.Honest(error.value)
  {
    hide c.Valid, c.Suits, Ids, PrefixIds, PartsPicks, PartPicks, PartsOpaques, PartOpaques;
    error := None;
    ghost var d := c.Disposed();
    ItemContentCases(content, scope);
    NoneReady(c, content);
    for i := 0 to |content.items|
      invariant c.Valid() && c.Grew(Ids(content)) && c.Disposed() <= d + PrefixIds(content.items, i) && error.None?
      invariant c.picks == old(c.picks) + PartsPicks(content.items, i, scope)
      invariant c.opaques == old(c.opaques) + PartsOpaques(content.items, i, scope)
    {
      PartsNext(content.items, i, scope);
      NextReady(c, content, i, d);
      error := WalkMessageBlock(c, content.items[i].value, scope);
      if error.Some? {
        return;
      }
    }
  }
}
