/** What becomes of the strings of a chat-completions request: which are model input and how
    they are treated, and which are protected. Definitions by structure, independent of the
    order in which a walk visits the request; every other string is refused. */
module Selection {
  import opened ByteStrings
  import opened JsonGrammar
  import opened Names
  import opened Tree
  import opened Collecting

  function ScopeForRole(role: Bytes): Option<Scope> {
    if role == Ascii("system") || role == Ascii("developer") then Some(ScopeSystem)
    else if role == Ascii("user") then Some(ScopeUser)
    else if role == Ascii("assistant") || role == Ascii("model") then Some(ScopeAssistant)
    else if role == Ascii("tool") || role == Ascii("function") then Some(ScopeToolOutput)
    else None
  }

  predicate IsTextBlockType(blockType: Bytes) {
    blockType == Ascii("text") || blockType == Ascii("input_text") || blockType == Ascii("output_text")
    || blockType == Ascii("summary_text")
  }

  function OpaqueContentFields(blockType: Bytes): Option<seq<Name>> {
    if blockType == Ascii("image") then Some([KeyImageUrl, KeyUrl, KeyFileId, KeyDetail, KeyData, KeyMimeType, KeyMimeTypeCamel])
    else if blockType == Ascii("input_image") then Some([KeyImageUrl, KeyUrl, KeyFileId, KeyDetail])
    else if blockType == Ascii("output_image") then Some([KeyImageUrl, KeyUrl, KeyFileId, KeyData, KeyMimeType, KeyMimeTypeCamel])
    else if blockType == Ascii("image_url") then Some([KeyImageUrl, KeyUrl, KeyDetail])
    else if blockType == Ascii("input_audio") then Some([KeyInputAudio, KeyAudio, KeyData, KeyFormat])
    else if blockType == Ascii("output_audio") || blockType == Ascii("audio") then Some([KeyAudio, KeyData, KeyFormat, KeyId])
    else if blockType == Ascii("video") then Some([KeyVideo, KeyData, KeyUrl, KeyFileId, KeyMimeType, KeyMimeTypeCamel])
    else if blockType == Ascii("file") || blockType == Ascii("input_file") || blockType == Ascii("output_file") then
      Some([KeyFile, KeyFileId, KeyFileData, KeyFilename, KeyUrl])
    else None
  }

  function OpaqueNestedFields(name: Name): Option<seq<Name>> {
    match name
    case KeyImageUrl => Some([KeyUrl, KeyFileId, KeyDetail])
    case KeyInputAudio => Some([KeyData, KeyFormat])
    case KeyAudio => Some([KeyData, KeyFormat, KeyId, KeyUrl, KeyFileId])
    case KeyVideo => Some([KeyData, KeyUrl, KeyFileId, KeyMimeType, KeyMimeTypeCamel])
    case KeyFile => Some([KeyFileId, KeyFileData, KeyFilename, KeyUrl])
    case _ => None
  }

  const BLOCK_NAMES := [KeyId, KeyName, KeyCallId, KeySignature]

  const BLOCK_MEMBERS := [KeyType, KeyText, KeyRefusal, KeyId, KeyName, KeyCallId, KeySignature, KeyPromptCacheBreakpoint, KeyCacheControl]

  const MESSAGE_MEMBERS := [
    KeyRole, KeyContent, KeyToolCalls, KeyFunctionCall, KeyName, KeyId, KeyCallId, KeyToolCallId, KeyRefusal, KeyAudio, KeyReasoning,
    KeyReasoningContent, KeyReasoningDetails, KeyCacheControl, KeyAnnotations]

  const ROOT_MEMBERS := [KeyMessages, KeyPrediction, KeyTools, KeyFunctions]

  const FUNCTION_NAMES := [KeyName, KeyId, KeyCallId]

  const CALL_NAMES := [KeyId, KeyName, KeyCallId]

  const MESSAGE_NAMES := [KeyName, KeyId, KeyCallId, KeyToolCallId]

  const ROOT_CONTROLS := [
    KeyAudio, KeyFrequencyPenalty, KeyFunctionCall, KeyLogitBias, KeyLogprobs, KeyMaxCompletionTokens, KeyMaxTokens,
    KeyMetadata, KeyModalities, KeyModeration, KeyChoices, KeyParallelToolCalls, KeyPresencePenalty, KeyPromptCacheKey,
    KeyPromptCacheOptions, KeyPromptCacheRetention, KeyReasoningEffort, KeyResponseFormat, KeySafetyIdentifier, KeySeed,
    KeyServiceTier, KeyStop, KeyStore, KeyStream, KeyStreamOptions, KeyTemperature, KeyToolChoice, KeyTopLogprobs, KeyTopP,
    KeyUser, KeyVerbosity, KeyWebSearchOptions]

  /** The value of a string member. */
  function TextOf(n: Node, name: Name): Option<Bytes> {
    match FieldNode(n, name)
    case None => None
    case Some(v) => if v.StringNode? then Some(v.value) else None
  }

  /** The strings of a member of what may be an object. */
  function MemberIds(n: Option<Node>, name: Name): set<int> {
    if n.Some? && n.value.ContainerNode? then FieldIds(n.value, name) else {}
  }

  /** The strings of the listed members of what may be an object. */
  function NamedIds(n: Node, names: seq<Name>): set<int> {
    if n.ContainerNode? then KeyIds(n, Collector.Listed(names)) else {}
  }

  function OwnIds(n: Node, name: Name): set<int> { MemberIds(Some(n), name) }

  function UnionOf<T(==)>(items: seq<Item>, n: nat, select: Node -> set<T>): set<T>
    requires n <= |items|
  {
    if n == 0 then {} else UnionOf(items, n - 1, select) + select(items[n - 1].value)
  }

  function ListUnion<T(==)>(v: Option<Node>, select: Node -> set<T>): set<T> {
    if v.Some? && NodeKind(v.value) == ArrayKind then UnionOf(v.value.items, |v.value.items|, select) else {}
  }

  // ----- content ----------------------------------------------------------

  function BlockPicks(block: Node, scope: Scope): set<Pick> {
    if NodeKind(block) != ObjectKind then {}
    else
      match TextOf(block, KeyType)
      case None => {}
      case Some(t) =>
        if IsTextBlockType(t) then StringPicks(FieldNode(block, KeyText), scope, NaturalText, Direct)
        else if t == Ascii("refusal") then StringPicks(FieldNode(block, KeyRefusal), scope, NaturalText, Direct)
        else {}
  }

  function BlocksPicks(items: seq<Item>, n: nat, scope: Scope): set<Pick>
    requires n <= |items|
  {
    if n == 0 then {} else BlocksPicks(items, n - 1, scope) + BlockPicks(items[n - 1].value, scope)
  }

  function ContentPicks(content: Option<Node>, scope: Scope): set<Pick> {
    if content.None? then {}
    else if NodeKind(content.value) == ArrayKind then BlocksPicks(content.value.items, |content.value.items|, scope)
    else StringPicks(content, scope, NaturalText, Direct)
  }

  /** The cache markers a block or message may carry. */
  function BreakpointIds(n: Node): set<int> { MemberIds(FieldNode(n, KeyPromptCacheBreakpoint), KeyMode) }

  function CacheControlIds(n: Node): set<int> {
    var marker := FieldNode(n, KeyCacheControl);
    MemberIds(marker, KeyType) + MemberIds(marker, KeyTtl)
  }

  /** A media member: a string, or an object in its known members only. */
  function MediaFieldIds(block: Node, name: Name): set<int> {
    match FieldNode(block, name)
    case None => {}
    case Some(v) =>
      if v.StringNode? then Ids(v)
      else if v.ContainerNode? && OpaqueNestedFields(name).Some? then NamedIds(v, OpaqueNestedFields(name).value)
      else {}
  }

  function MediaIds(block: Node, fields: seq<Name>, n: nat): set<int>
    requires n <= |fields|
  {
    if n == 0 then {} else MediaIds(block, fields, n - 1) + MediaFieldIds(block, fields[n - 1])
  }

  function BlockBodyIds(block: Node): set<int> {
    OwnIds(block, KeyType)
    + (match TextOf(block, KeyType)
       case None => {}
       case Some(t) =>
         if IsTextBlockType(t) || t == Ascii("refusal") || OpaqueContentFields(t).None? then {}
         else MediaIds(block, OpaqueContentFields(t).value, |OpaqueContentFields(t).value|))
  }

  function BlockOpaques(block: Node): set<int> {
    if NodeKind(block) != ObjectKind then {}
    else NamedIds(block, BLOCK_NAMES) + BreakpointIds(block) + CacheControlIds(block) + BlockBodyIds(block)
  }

  function ContentOpaques(content: Option<Node>): set<int> { ListUnion(content, BlockOpaques) }

  /** A block nothing is known about. */
  predicate BlockUnknown(block: Node) {
    NodeKind(block) != ObjectKind || FieldNode(block, KeyType).None?
    || var t := TextOf(block, KeyType);
       t.Some? && !IsTextBlockType(t.value) && t.value != Ascii("refusal") && OpaqueContentFields(t.value).None?
  }

  // ----- replayed reasoning -----------------------------------------------

  function ReasoningTextIds(detail: Node, kind: Bytes): set<int> {
    if kind == Ascii("reasoning.text") then OwnIds(detail, KeyText) + OwnIds(detail, KeySignature)
    else if kind == Ascii("reasoning.summary") then OwnIds(detail, KeySummary)
    else if kind == Ascii("reasoning.encrypted") then OwnIds(detail, KeyData)
    else {}
  }

  function DetailOpaques(detail: Node): set<int> {
    OwnIds(detail, KeyType) + OwnIds(detail, KeyId) + OwnIds(detail, KeyFormat)
    + (match TextOf(detail, KeyType)
       case None => {}
       case Some(kind) => ReasoningTextIds(detail, kind))
  }

  /** Reasoning belongs to an assistant; anywhere else nothing of it is protected. */
  function ReasoningOpaques(message: Node, assistant: bool): set<int> {
    if assistant then
      OwnIds(message, KeyReasoning) + OwnIds(message, KeyReasoningContent)
      + ListUnion(FieldNode(message, KeyReasoningDetails), DetailOpaques)
    else {}
  }

  // ----- tools ------------------------------------------------------------

  function FunctionPicks(f: Node): set<Pick> {
    StringPicks(FieldNode(f, KeyArguments), ScopeToolInput, EncodedJson, EncodedJsonText)
  }

  function FunctionOpaques(f: Node): set<int> { NamedIds(f, FUNCTION_NAMES) }

  /** The function of a call, when the call is one of a function. */
  function CalledFunction(call: Node): Option<Node> {
    var t := TextOf(call, KeyType);
    if NodeKind(call) == ObjectKind && (t.None? || t.value == Ascii("function")) then FieldNode(call, KeyFunction) else None
  }

  function CallPicks(call: Node): set<Pick> {
    var f := CalledFunction(call);
    if f.Some? then FunctionPicks(f.value) else {}
  }

  function CallOpaques(call: Node): set<int> {
    var f := CalledFunction(call);
    NamedIds(call, CALL_NAMES) + OwnIds(call, KeyExtraContent) + CacheControlIds(call) + OwnIds(call, KeyType)
    + if f.Some? then FunctionOpaques(f.value) else {}
  }

  function DefinitionPicks(f: Node): set<Pick> {
    StringPicks(FieldNode(f, KeyDescription), ScopeSystem, NaturalText, Direct)
    + ObjectPicks(FieldNode(f, KeyParameters), ScopeSystem, JsonValue)
  }

  /** The definition in a tool, when the tool is a function. */
  function DefinedFunction(tool: Node): Option<Node> {
    if NodeKind(tool) == ObjectKind && TextOf(tool, KeyType) == Some(Ascii("function")) then FieldNode(tool, KeyFunction) else None
  }

  function ToolPicks(tool: Node): set<Pick> {
    var f := DefinedFunction(tool);
    if f.Some? then DefinitionPicks(f.value) else {}
  }

  function ToolOpaques(tool: Node): set<int> {
    var f := DefinedFunction(tool);
    if NodeKind(tool) != ObjectKind then {}
    else OwnIds(tool, KeyType) + if f.Some? then OwnIds(f.value, KeyName) + CacheControlIds(tool) else {}
  }

  function LegacyPicks(f: Node): set<Pick> {
    if NodeKind(f) == ObjectKind then DefinitionPicks(f) else {}
  }

  function LegacyOpaques(f: Node): set<int> {
    if NodeKind(f) == ObjectKind then OwnIds(f, KeyName) else {}
  }

  // ----- messages ---------------------------------------------------------

  function RoleOf(message: Node): Option<Scope> {
    var role := TextOf(message, KeyRole);
    if role.Some? then ScopeForRole(role.value) else None
  }

  /** A tool's answer may itself be JSON. */
  function MessageContentPicks(content: Option<Node>, scope: Option<Scope>): set<Pick> {
    if scope.None? then {}
    else if scope.value == ScopeToolOutput && content.Some? && NodeKind(content.value) == StringKind then
      StringPicks(content, ScopeToolOutput, ToolText, JsonOrPlain)
    else ContentPicks(content, scope.value)
  }

  function MessageContentOpaques(content: Option<Node>, scope: Option<Scope>): set<int> {
    if scope.None? then {} else ContentOpaques(content)
  }

  function RefusalPicks(message: Node, assistant: bool): set<Pick> {
    if assistant then StringPicks(FieldNode(message, KeyRefusal), ScopeAssistant, NaturalText, Direct) else {}
  }

  function ToolTailPicks(message: Node): set<Pick> {
    var legacy := FieldNode(message, KeyFunctionCall);
    ListUnion(FieldNode(message, KeyToolCalls), CallPicks) + if legacy.Some? then FunctionPicks(legacy.value) else {}
  }

  function ToolTailOpaques(message: Node): set<int> {
    var legacy := FieldNode(message, KeyFunctionCall);
    MemberIds(FieldNode(message, KeyAudio), KeyId) + ListUnion(FieldNode(message, KeyToolCalls), CallOpaques)
    + if legacy.Some? then FunctionOpaques(legacy.value) else {}
  }

  function ScopedPicks(message: Node, scope: Option<Scope>): set<Pick> {
    MessageContentPicks(FieldNode(message, KeyContent), scope) + RefusalPicks(message, scope == Some(ScopeAssistant))
    + ToolTailPicks(message)
  }

  function ScopedOpaques(message: Node, scope: Option<Scope>): set<int> {
    ReasoningOpaques(message, scope == Some(ScopeAssistant)) + MessageContentOpaques(FieldNode(message, KeyContent), scope)
    + ToolTailOpaques(message)
  }

  function HeadOpaques(message: Node): set<int> {
    NamedIds(message, MESSAGE_NAMES) + CacheControlIds(message) + OwnIds(message, KeyAnnotations) + OwnIds(message, KeyRole)
  }

  function MessagePicks(message: Node): set<Pick> {
    if NodeKind(message) == ObjectKind then ScopedPicks(message, RoleOf(message)) else {}
  }

  function MessageOpaques(message: Node): set<int> { HeadOpaques(message) + ScopedOpaques(message, RoleOf(message)) }

  // ----- the request ------------------------------------------------------

  function PredictedContent(prediction: Node): Option<Node> {
    if TextOf(prediction, KeyType) == Some(Ascii("content")) then FieldNode(prediction, KeyContent) else None
  }

  function PredictionPicks(prediction: Option<Node>): set<Pick> {
    if prediction.Some? then ContentPicks(PredictedContent(prediction.value), ScopeAssistant) else {}
  }

  function PredictionOpaques(prediction: Option<Node>): set<int> {
    if prediction.Some? then OwnIds(prediction.value, KeyType) + ContentOpaques(PredictedContent(prediction.value)) else {}
  }

  function DefinitionsPicks(root: Node): set<Pick> {
    ListUnion(FieldNode(root, KeyTools), ToolPicks) + ListUnion(FieldNode(root, KeyFunctions), LegacyPicks)
  }

  function DefinitionsOpaques(root: Node): set<int> {
    ListUnion(FieldNode(root, KeyTools), ToolOpaques) + ListUnion(FieldNode(root, KeyFunctions), LegacyOpaques)
  }

  /** Contents and refusals of messages, tool call arguments, the predicted content, and
      descriptions and parameters of tool definitions, each with its scope, kind and
      mutability. */
  function RequestPicks(root: Node): set<Pick> {
    ListUnion(FieldNode(root, KeyMessages), MessagePicks) + PredictionPicks(FieldNode(root, KeyPrediction))
    + DefinitionsPicks(root)
  }

  /** The strings of a request that are forwarded as they are. */
  function RequestOpaques(root: Node): set<int> {
    OwnIds(root, KeyModel) + NamedIds(root, ROOT_CONTROLS) + ListUnion(FieldNode(root, KeyMessages), MessageOpaques)
    + PredictionOpaques(FieldNode(root, KeyPrediction)) + DefinitionsOpaques(root)
  }

  /** The strings of a request that are inspected. */
  function RequestTargets(root: Node): set<int> { IdsOf(RequestPicks(root)) }
}
