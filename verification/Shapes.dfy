/** Which chat-completions requests a walk takes without objecting to a shape or an ambiguous
    name: a definition by structure, which looks only where the walk looks. */
module Shapes {
  import opened ByteStrings
  import opened JsonGrammar
  import opened Names
  import opened Tree
  import opened Collecting
  import opened Selection

  predicate AllOf(items: seq<Item>, n: nat, shaped: Node -> bool)
    requires n <= |items|
  {
    forall i :: 0 <= i < n ==> shaped(items[i].value)
  }

  /** The elements of what may be a list. */
  predicate ListShaped(v: Option<Node>, shaped: Node -> bool) {
    v.Some? && NodeKind(v.value) == ArrayKind ==> AllOf(v.value.items, |v.value.items|, shaped)
  }

  predicate ObjectShaped(v: Option<Node>, shaped: Node -> bool) {
    v.Some? && NodeKind(v.value) == ObjectKind ==> shaped(v.value)
  }

  // ----- content ----------------------------------------------------------

  predicate BreakpointMark(marker: Node) {
    Unambiguous(marker, [KeyMode]) && FieldShaped(marker, KeyMode, StringKind, true, false)
  }

  predicate BreakpointShaped(n: Node) {
    FieldShaped(n, KeyPromptCacheBreakpoint, ObjectKind, false, true)
    && ObjectShaped(FieldNode(n, KeyPromptCacheBreakpoint), BreakpointMark)
  }

  predicate CacheMark(marker: Node) {
    Unambiguous(marker, [KeyType, KeyTtl]) && FieldShaped(marker, KeyType, StringKind, true, false)
    && FieldShaped(marker, KeyTtl, StringKind, false, true)
  }

  predicate CacheControlShaped(n: Node) {
    FieldShaped(n, KeyCacheControl, ObjectKind, false, true) && ObjectShaped(FieldNode(n, KeyCacheControl), CacheMark)
  }

  /** A media member is absent, null, a string, or an object with optional strings. */
  predicate MediaFieldShaped(block: Node, name: Name) {
    FieldSole(block, name)
    && match FieldNode(block, name)
       case None => true
       case Some(v) =>
         NodeKind(v) == NullKind || NodeKind(v) == StringKind
         || (NodeKind(v) == ObjectKind && OpaqueNestedFields(name).Some? && NestedShaped(v, OpaqueNestedFields(name).value))
  }

  lemma MediaFieldCases(block: Node, name: Name)
    ensures var v := FieldNode(block, name); var nested := OpaqueNestedFields(name);
            (!FieldSole(block, name) ==> !MediaFieldShaped(block, name))
            && (FieldSole(block, name) ==>
                  (v.None? || NodeKind(v.value) == NullKind || NodeKind(v.value) == StringKind ==> MediaFieldShaped(block, name))
                  && (v.Some? && NodeKind(v.value) != NullKind && NodeKind(v.value) != StringKind ==>
                        (MediaFieldShaped(block, name)
                         <==> NodeKind(v.value) == ObjectKind && nested.Some? && NestedShaped(v.value, nested.value))))
  {
    hide FieldNode, FieldSole, OpaqueNestedFields, NestedShaped;
  }

  predicate NestedShaped(value: Node, names: seq<Name>) {
    (names == [] || Unambiguous(value, names)) && OptionalStrings(value, names)
  }

  predicate MediaShaped(block: Node, fields: seq<Name>) {
    forall i :: 0 <= i < |fields| ==> MediaFieldShaped(block, fields[i])
  }

  predicate BlockControlsShaped(block: Node) {
    Unambiguous(block, BLOCK_MEMBERS) && OptionalStrings(block, BLOCK_NAMES) && BreakpointShaped(block) && CacheControlShaped(block)
  }

  predicate TypedBlockShaped(block: Node, t: Bytes) {
    if IsTextBlockType(t) then FieldShaped(block, KeyText, StringKind, true, false)
    else if t == Ascii("refusal") then FieldShaped(block, KeyRefusal, StringKind, true, false)
    else OpaqueContentFields(t).None? || MediaShaped(block, OpaqueContentFields(t).value)
  }

  predicate BlockBodyShaped(block: Node) {
    FieldShaped(block, KeyType, StringKind, false, false)
    && match TextOf(block, KeyType)
       case None => true
       case Some(t) => TypedBlockShaped(block, t)
  }

  /** An element that is no object is recorded, not objected to. */
  predicate BlockShaped(block: Node) {
    NodeKind(block) == ObjectKind ==> BlockControlsShaped(block) && BlockBodyShaped(block)
  }

  predicate ContentShaped(content: Node) {
    NodeKind(content) == StringKind || NodeKind(content) == NullKind
    || (NodeKind(content) == ArrayKind && AllOf(content.items, |content.items|, BlockShaped))
  }

  // ----- replayed reasoning -----------------------------------------------

  predicate ReasoningTextShaped(detail: Node, kind: Bytes) {
    if kind == Ascii("reasoning.text") then OptionalStrings(detail, [KeyText, KeySignature])
    else if kind == Ascii("reasoning.summary") then FieldShaped(detail, KeySummary, StringKind, true, false)
    else if kind == Ascii("reasoning.encrypted") then FieldShaped(detail, KeyData, StringKind, true, false)
    else true
  }

  lemma TwoOptional(n: Node, a: Name, b: Name)
    ensures OptionalStrings(n, [a, b]) <==> FieldShaped(n, a, StringKind, false, true) && FieldShaped(n, b, StringKind, false, true)
  {
    hide FieldShaped;
    assert [a, b][0] == a && [a, b][1] == b;
  }

  predicate IndexShaped(detail: Node) {
    FieldSole(detail, KeyIndex)
    && match FieldNode(detail, KeyIndex)
       case None => true
       case Some(v) => NodeKind(v) == NumberKind || NodeKind(v) == NullKind
  }

  predicate DetailShaped(detail: Node) {
    NodeKind(detail) == ObjectKind && KeysDistinct(detail) && FieldShaped(detail, KeyType, StringKind, true, false)
    && OptionalStrings(detail, [KeyId, KeyFormat]) && IndexShaped(detail)
    && match TextOf(detail, KeyType)
       case None => true
       case Some(kind) => ReasoningTextShaped(detail, kind)
  }

  predicate ReasoningShaped(message: Node, assistant: bool) {
    OptionalStrings(message, [KeyReasoning, KeyReasoningContent]) && DetailsShaped(message, assistant)
  }

  predicate DetailsShaped(message: Node, assistant: bool) {
    FieldShaped(message, KeyReasoningDetails, ArrayKind, false, true)
    && (assistant ==> ListShaped(FieldNode(message, KeyReasoningDetails), DetailShaped))
  }

  // ----- tools ------------------------------------------------------------

  predicate FunctionShaped(f: Node) {
    Unambiguous(f, [KeyArguments, KeyName, KeyId, KeyCallId]) && OptionalStrings(f, FUNCTION_NAMES)
    && FieldShaped(f, KeyArguments, StringKind, false, false)
  }

  predicate CallControlsShaped(call: Node) {
    Unambiguous(call, [KeyType, KeyFunction, KeyId, KeyName, KeyCallId, KeyExtraContent, KeyCacheControl])
    && OptionalStrings(call, CALL_NAMES) && FieldSole(call, KeyExtraContent) && CacheControlShaped(call)
  }

  /** A function is looked at only where the type says it is one. */
  predicate CalledShaped(call: Node, kind: Bytes) {
    kind == Ascii("function") ==>
      FieldShaped(call, KeyFunction, ObjectKind, true, false) && ObjectShaped(FieldNode(call, KeyFunction), FunctionShaped)
  }

  /** A call without a type is one of a function. */
  function CallKind(call: Node): Bytes {
    match TextOf(call, KeyType)
    case None => Ascii("function")
    case Some(t) => t
  }

  predicate CallShaped(call: Node) {
    NodeKind(call) == ObjectKind && CallControlsShaped(call) && FieldShaped(call, KeyType, StringKind, false, false)
    && CalledShaped(call, CallKind(call))
  }

  predicate DefinitionShaped(f: Node) {
    Unambiguous(f, [KeyName, KeyDescription, KeyParameters, KeyStrict]) && FieldShaped(f, KeyName, StringKind, true, false)
    && FieldShaped(f, KeyDescription, StringKind, false, true) && FieldShaped(f, KeyParameters, ObjectKind, false, true)
  }

  predicate TypedToolShaped(tool: Node, kind: Bytes) {
    kind == Ascii("function") ==>
      FieldShaped(tool, KeyFunction, ObjectKind, true, false) && ObjectShaped(FieldNode(tool, KeyFunction), DefinitionShaped)
      && CacheControlShaped(tool)
  }

  predicate TypeShaped(n: Node, names: seq<Name>) {
    (names == [] || Unambiguous(n, names)) && FieldShaped(n, KeyType, StringKind, true, false)
  }

  predicate ToolShaped(tool: Node) {
    NodeKind(tool) == ObjectKind ==>
      TypeShaped(tool, [KeyType, KeyFunction, KeyCacheControl])
      && match TextOf(tool, KeyType)
         case None => true
         case Some(kind) => TypedToolShaped(tool, kind)
  }

  predicate LegacyShaped(f: Node) { NodeKind(f) == ObjectKind ==> DefinitionShaped(f) }

  predicate DefinitionsShaped(root: Node) {
    FieldShaped(root, KeyTools, ArrayKind, false, false) && ListShaped(FieldNode(root, KeyTools), ToolShaped)
    && LegaciesShaped(root)
  }

  predicate LegaciesShaped(root: Node) {
    FieldShaped(root, KeyFunctions, ArrayKind, false, false) && ListShaped(FieldNode(root, KeyFunctions), LegacyShaped)
  }

  // ----- messages ---------------------------------------------------------

  predicate HeadShaped(message: Node) {
    Unambiguous(message, MESSAGE_MEMBERS) && OptionalStrings(message, MESSAGE_NAMES) && CacheControlShaped(message)
    && FieldSole(message, KeyAnnotations) && FieldShaped(message, KeyRole, StringKind, true, false)
  }

  /** Content is looked at only where the role is known. */
  predicate MessageContentShaped(message: Node, scope: Option<Scope>) {
    FieldSole(message, KeyContent)
    && (scope.Some? && FieldNode(message, KeyContent).Some? ==> ContentShaped(FieldNode(message, KeyContent).value))
  }

  predicate AudioId(audio: Node) { FieldShaped(audio, KeyId, StringKind, false, true) }

  predicate AudioShaped(message: Node) {
    FieldShaped(message, KeyAudio, ObjectKind, false, true) && ObjectShaped(FieldNode(message, KeyAudio), AudioId)
  }

  predicate CallsShaped(message: Node) {
    FieldShaped(message, KeyToolCalls, ArrayKind, false, false) && ListShaped(FieldNode(message, KeyToolCalls), CallShaped)
  }

  predicate TailShaped(message: Node) {
    AudioShaped(message) && CallsShaped(message)
    && FieldShaped(message, KeyFunctionCall, ObjectKind, false, false)
    && ObjectShaped(FieldNode(message, KeyFunctionCall), FunctionShaped)
  }

  predicate BodyShaped(message: Node, scope: Option<Scope>) {
    ReasoningShaped(message, scope == Some(ScopeAssistant)) && MessageContentShaped(message, scope)
    && FieldShaped(message, KeyRefusal, StringKind, false, true) && TailShaped(message)
  }

  predicate MessageShaped(message: Node) {
    NodeKind(message) == ObjectKind && HeadShaped(message) && BodyShaped(message, RoleOf(message))
  }

  // ----- the request ------------------------------------------------------

  predicate PredictionTyped(prediction: Node, kind: Bytes) {
    kind == Ascii("content") ==>
      FieldSole(prediction, KeyContent) && FieldNode(prediction, KeyContent).Some?
      && ContentShaped(FieldNode(prediction, KeyContent).value)
  }

  predicate PredictionNode(prediction: Node) {
    NodeKind(prediction) == ObjectKind && TypeShaped(prediction, [KeyType, KeyContent])
    && match TextOf(prediction, KeyType)
       case None => true
       case Some(kind) => PredictionTyped(prediction, kind)
  }

  predicate PredictionShaped(root: Node) {
    FieldSole(root, KeyPrediction)
    && (FieldNode(root, KeyPrediction).Some? ==> PredictionNode(FieldNode(root, KeyPrediction).value))
  }

  predicate MessagesShaped(root: Node) {
    FieldShaped(root, KeyMessages, ArrayKind, true, false) && ListShaped(FieldNode(root, KeyMessages), MessageShaped)
  }

  predicate ControlsSole(root: Node) {
    forall i :: 0 <= i < |ROOT_CONTROLS| ==> FieldSole(root, ROOT_CONTROLS[i])
  }

  predicate RequestShaped(root: Node) { ModelShaped(root) && WalkShaped(root) }

  predicate WalkShaped(root: Node) {
    Unambiguous(root, ROOT_MEMBERS) && ControlsSole(root) && MessagesShaped(root) && PredictionShaped(root)
    && DefinitionsShaped(root)
  }

  predicate ModelShaped(root: Node) {
    Unambiguous(root, [KeyModel]) && FieldShaped(root, KeyModel, StringKind, false, true)
  }
}
