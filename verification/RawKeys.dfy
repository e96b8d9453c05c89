/** The walk's choice of strings in terms of the keys as they are spelled. */
module RawKeys {
  import opened ByteStrings
  import opened JsonGrammar
  import opened Names
  import opened Spellings
  import opened Tree
  import opened Collecting
  import opened Selection
  import opened Registry

  // ----- members by their spelling ----------------------------------------

  function RawNamed(items: seq<Item>, key: Bytes): Option<Node> {
    if items == [] then None else if items[0].key == key then Some(items[0].value) else RawNamed(items[1..], key)
  }

  /** The first member whose key has exactly these bytes. */
  function Raw(n: Node, key: string): Option<Node> {
    if n.ContainerNode? then RawNamed(n.items, Ascii(key)) else None
  }

  /** The strings below all members whose key has exactly these bytes. */
  function RawIds(n: Node, key: string): set<int> {
    if n.ContainerNode? then set i, x | 0 <= i < |n.items| && n.items[i].key == Ascii(key) && x in Ids(n.items[i].value) :: x else {}
  }

  predicate Reads(n: Node, name: Name, key: string) {
    FieldNode(n, name) == Raw(n, key) && OwnIds(n, name) == RawIds(n, key)
  }

  lemma {:induction false} NamedRaw(items: seq<Item>, name: Name, key: Bytes)
    requires forall k: Bytes :: NameOf(k) == name <==> k == key
    ensures FirstNamed(items, name) == RawNamed(items, key)
  {
    hide NameOf;
    if items != [] {
      NamedRaw(items[1..], name, key);
    }
  }

  lemma FieldRaw(n: Node, name: Name, key: string)
    requires forall k: Bytes :: NameOf(k) == name <==> k == Ascii(key)
    ensures Reads(n, name, key)
  {
    hide NameOf, Ascii, Ids;
    if n.ContainerNode? {
      NamedRaw(n.items, name, Ascii(key));
    }
  }

  lemma RequestFields(n: Node)
    ensures Reads(n, KeyModel, "model")
    ensures Reads(n, KeyMessages, "messages")
    ensures Reads(n, KeyPrediction, "prediction")
    ensures Reads(n, KeyTools, "tools")
    ensures Reads(n, KeyFunctions, "functions")
    ensures Reads(n, KeyFunctionCall, "function_call")
    ensures Reads(n, KeyToolChoice, "tool_choice")
    ensures Reads(n, KeyParallelToolCalls, "parallel_tool_calls")
  {
    hide NameOf, Ascii, Reads;
    forall k
      ensures NameOf(k) == KeyModel <==> k == Ascii("model")
      ensures NameOf(k) == KeyMessages <==> k == Ascii("messages")
      ensures NameOf(k) == KeyPrediction <==> k == Ascii("prediction")
      ensures NameOf(k) == KeyTools <==> k == Ascii("tools")
      ensures NameOf(k) == KeyFunctions <==> k == Ascii("functions")
      ensures NameOf(k) == KeyFunctionCall <==> k == Ascii("function_call")
      ensures NameOf(k) == KeyToolChoice <==> k == Ascii("tool_choice")
      ensures NameOf(k) == KeyParallelToolCalls <==> k == Ascii("parallel_tool_calls")
    {
      SpelledRequest(k);
    }
    FieldRaw(n, KeyModel, "model");
    FieldRaw(n, KeyMessages, "messages");
    FieldRaw(n, KeyPrediction, "prediction");
    FieldRaw(n, KeyTools, "tools");
    FieldRaw(n, KeyFunctions, "functions");
    FieldRaw(n, KeyFunctionCall, "function_call");
    FieldRaw(n, KeyToolChoice, "tool_choice");
    FieldRaw(n, KeyParallelToolCalls, "parallel_tool_calls");
  }

  lemma SamplingFields(n: Node)
    ensures Reads(n, KeyFrequencyPenalty, "frequency_penalty")
    ensures Reads(n, KeyLogitBias, "logit_bias")
    ensures Reads(n, KeyLogprobs, "logprobs")
    ensures Reads(n, KeyMaxCompletionTokens, "max_completion_tokens")
    ensures Reads(n, KeyMaxTokens, "max_tokens")
    ensures Reads(n, KeyPresencePenalty, "presence_penalty")
    ensures Reads(n, KeyTemperature, "temperature")
    ensures Reads(n, KeyTopLogprobs, "top_logprobs")
    ensures Reads(n, KeyTopP, "top_p")
  {
    hide NameOf, Ascii, Reads;
    forall k
      ensures NameOf(k) == KeyFrequencyPenalty <==> k == Ascii("frequency_penalty")
      ensures NameOf(k) == KeyLogitBias <==> k == Ascii("logit_bias")
      ensures NameOf(k) == KeyLogprobs <==> k == Ascii("logprobs")
      ensures NameOf(k) == KeyMaxCompletionTokens <==> k == Ascii("max_completion_tokens")
      ensures NameOf(k) == KeyMaxTokens <==> k == Ascii("max_tokens")
      ensures NameOf(k) == KeyPresencePenalty <==> k == Ascii("presence_penalty")
      ensures NameOf(k) == KeyTemperature <==> k == Ascii("temperature")
      ensures NameOf(k) == KeyTopLogprobs <==> k == Ascii("top_logprobs")
      ensures NameOf(k) == KeyTopP <==> k == Ascii("top_p")
    {
      SpelledSampling(k);
    }
    FieldRaw(n, KeyFrequencyPenalty, "frequency_penalty");
    FieldRaw(n, KeyLogitBias, "logit_bias");
    FieldRaw(n, KeyLogprobs, "logprobs");
    FieldRaw(n, KeyMaxCompletionTokens, "max_completion_tokens");
    FieldRaw(n, KeyMaxTokens, "max_tokens");
    FieldRaw(n, KeyPresencePenalty, "presence_penalty");
    FieldRaw(n, KeyTemperature, "temperature");
    FieldRaw(n, KeyTopLogprobs, "top_logprobs");
    FieldRaw(n, KeyTopP, "top_p");
  }

  lemma OutputFields(n: Node)
    ensures Reads(n, KeyModalities, "modalities")
    ensures Reads(n, KeyChoices, "n")
    ensures Reads(n, KeyReasoningEffort, "reasoning_effort")
    ensures Reads(n, KeyResponseFormat, "response_format")
    ensures Reads(n, KeySeed, "seed")
    ensures Reads(n, KeyStop, "stop")
    ensures Reads(n, KeyStream, "stream")
    ensures Reads(n, KeyStreamOptions, "stream_options")
    ensures Reads(n, KeyVerbosity, "verbosity")
  {
    hide NameOf, Ascii, Reads;
    forall k
      ensures NameOf(k) == KeyModalities <==> k == Ascii("modalities")
      ensures NameOf(k) == KeyChoices <==> k == Ascii("n")
      ensures NameOf(k) == KeyReasoningEffort <==> k == Ascii("reasoning_effort")
      ensures NameOf(k) == KeyResponseFormat <==> k == Ascii("response_format")
      ensures NameOf(k) == KeySeed <==> k == Ascii("seed")
      ensures NameOf(k) == KeyStop <==> k == Ascii("stop")
      ensures NameOf(k) == KeyStream <==> k == Ascii("stream")
      ensures NameOf(k) == KeyStreamOptions <==> k == Ascii("stream_options")
      ensures NameOf(k) == KeyVerbosity <==> k == Ascii("verbosity")
    {
      SpelledOutput(k);
    }
    FieldRaw(n, KeyModalities, "modalities");
    FieldRaw(n, KeyChoices, "n");
    FieldRaw(n, KeyReasoningEffort, "reasoning_effort");
    FieldRaw(n, KeyResponseFormat, "response_format");
    FieldRaw(n, KeySeed, "seed");
    FieldRaw(n, KeyStop, "stop");
    FieldRaw(n, KeyStream, "stream");
    FieldRaw(n, KeyStreamOptions, "stream_options");
    FieldRaw(n, KeyVerbosity, "verbosity");
  }

  lemma AccountFields(n: Node)
    ensures Reads(n, KeyMetadata, "metadata")
    ensures Reads(n, KeyModeration, "moderation")
    ensures Reads(n, KeySafetyIdentifier, "safety_identifier")
    ensures Reads(n, KeyServiceTier, "service_tier")
    ensures Reads(n, KeyStore, "store")
    ensures Reads(n, KeyUser, "user")
    ensures Reads(n, KeyWebSearchOptions, "web_search_options")
  {
    hide NameOf, Ascii, Reads;
    forall k
      ensures NameOf(k) == KeyMetadata <==> k == Ascii("metadata")
      ensures NameOf(k) == KeyModeration <==> k == Ascii("moderation")
      ensures NameOf(k) == KeySafetyIdentifier <==> k == Ascii("safety_identifier")
      ensures NameOf(k) == KeyServiceTier <==> k == Ascii("service_tier")
      ensures NameOf(k) == KeyStore <==> k == Ascii("store")
      ensures NameOf(k) == KeyUser <==> k == Ascii("user")
      ensures NameOf(k) == KeyWebSearchOptions <==> k == Ascii("web_search_options")
    {
      SpelledAccount(k);
    }
    FieldRaw(n, KeyMetadata, "metadata");
    FieldRaw(n, KeyModeration, "moderation");
    FieldRaw(n, KeySafetyIdentifier, "safety_identifier");
    FieldRaw(n, KeyServiceTier, "service_tier");
    FieldRaw(n, KeyStore, "store");
    FieldRaw(n, KeyUser, "user");
    FieldRaw(n, KeyWebSearchOptions, "web_search_options");
  }

  lemma CacheFields(n: Node)
    ensures Reads(n, KeyPromptCacheKey, "prompt_cache_key")
    ensures Reads(n, KeyPromptCacheOptions, "prompt_cache_options")
    ensures Reads(n, KeyPromptCacheRetention, "prompt_cache_retention")
    ensures Reads(n, KeyCacheControl, "cache_control")
    ensures Reads(n, KeyPromptCacheBreakpoint, "prompt_cache_breakpoint")
    ensures Reads(n, KeyMode, "mode")
    ensures Reads(n, KeyTtl, "ttl")
  {
    hide NameOf, Ascii, Reads;
    forall k
      ensures NameOf(k) == KeyPromptCacheKey <==> k == Ascii("prompt_cache_key")
      ensures NameOf(k) == KeyPromptCacheOptions <==> k == Ascii("prompt_cache_options")
      ensures NameOf(k) == KeyPromptCacheRetention <==> k == Ascii("prompt_cache_retention")
      ensures NameOf(k) == KeyCacheControl <==> k == Ascii("cache_control")
      ensures NameOf(k) == KeyPromptCacheBreakpoint <==> k == Ascii("prompt_cache_breakpoint")
      ensures NameOf(k) == KeyMode <==> k == Ascii("mode")
      ensures NameOf(k) == KeyTtl <==> k == Ascii("ttl")
    {
      SpelledCache(k);
    }
    FieldRaw(n, KeyPromptCacheKey, "prompt_cache_key");
    FieldRaw(n, KeyPromptCacheOptions, "prompt_cache_options");
    FieldRaw(n, KeyPromptCacheRetention, "prompt_cache_retention");
    FieldRaw(n, KeyCacheControl, "cache_control");
    FieldRaw(n, KeyPromptCacheBreakpoint, "prompt_cache_breakpoint");
    FieldRaw(n, KeyMode, "mode");
    FieldRaw(n, KeyTtl, "ttl");
  }

  lemma MessageFields(n: Node)
    ensures Reads(n, KeyRole, "role")
    ensures Reads(n, KeyContent, "content")
    ensures Reads(n, KeyRefusal, "refusal")
    ensures Reads(n, KeyToolCalls, "tool_calls")
    ensures Reads(n, KeyToolCallId, "tool_call_id")
    ensures Reads(n, KeyAnnotations, "annotations")
    ensures Reads(n, KeyReasoning, "reasoning")
    ensures Reads(n, KeyReasoningContent, "reasoning_content")
    ensures Reads(n, KeyReasoningDetails, "reasoning_details")
  {
    hide NameOf, Ascii, Reads;
    forall k
      ensures NameOf(k) == KeyRole <==> k == Ascii("role")
      ensures NameOf(k) == KeyContent <==> k == Ascii("content")
      ensures NameOf(k) == KeyRefusal <==> k == Ascii("refusal")
      ensures NameOf(k) == KeyToolCalls <==> k == Ascii("tool_calls")
      ensures NameOf(k) == KeyToolCallId <==> k == Ascii("tool_call_id")
      ensures NameOf(k) == KeyAnnotations <==> k == Ascii("annotations")
      ensures NameOf(k) == KeyReasoning <==> k == Ascii("reasoning")
      ensures NameOf(k) == KeyReasoningContent <==> k == Ascii("reasoning_content")
      ensures NameOf(k) == KeyReasoningDetails <==> k == Ascii("reasoning_details")
    {
      SpelledMessage(k);
    }
    FieldRaw(n, KeyRole, "role");
    FieldRaw(n, KeyContent, "content");
    FieldRaw(n, KeyRefusal, "refusal");
    FieldRaw(n, KeyToolCalls, "tool_calls");
    FieldRaw(n, KeyToolCallId, "tool_call_id");
    FieldRaw(n, KeyAnnotations, "annotations");
    FieldRaw(n, KeyReasoning, "reasoning");
    FieldRaw(n, KeyReasoningContent, "reasoning_content");
    FieldRaw(n, KeyReasoningDetails, "reasoning_details");
  }

  lemma CommonFields(n: Node)
    ensures Reads(n, KeyType, "type")
    ensures Reads(n, KeyId, "id")
    ensures Reads(n, KeyName, "name")
    ensures Reads(n, KeyCallId, "call_id")
    ensures Reads(n, KeyIndex, "index")
    ensures Reads(n, KeyStatus, "status")
    ensures Reads(n, KeyPhase, "phase")
    ensures Reads(n, KeyExtraContent, "extra_content")
    ensures Reads(n, KeyFormat, "format")
  {
    hide NameOf, Ascii, Reads;
    forall k
      ensures NameOf(k) == KeyType <==> k == Ascii("type")
      ensures NameOf(k) == KeyId <==> k == Ascii("id")
      ensures NameOf(k) == KeyName <==> k == Ascii("name")
      ensures NameOf(k) == KeyCallId <==> k == Ascii("call_id")
      ensures NameOf(k) == KeyIndex <==> k == Ascii("index")
      ensures NameOf(k) == KeyStatus <==> k == Ascii("status")
      ensures NameOf(k) == KeyPhase <==> k == Ascii("phase")
      ensures NameOf(k) == KeyExtraContent <==> k == Ascii("extra_content")
      ensures NameOf(k) == KeyFormat <==> k == Ascii("format")
    {
      SpelledCommon(k);
    }
    FieldRaw(n, KeyType, "type");
    FieldRaw(n, KeyId, "id");
    FieldRaw(n, KeyName, "name");
    FieldRaw(n, KeyCallId, "call_id");
    FieldRaw(n, KeyIndex, "index");
    FieldRaw(n, KeyStatus, "status");
    FieldRaw(n, KeyPhase, "phase");
    FieldRaw(n, KeyExtraContent, "extra_content");
    FieldRaw(n, KeyFormat, "format");
  }

  lemma ToolFields(n: Node)
    ensures Reads(n, KeyFunction, "function")
    ensures Reads(n, KeyDescription, "description")
    ensures Reads(n, KeyParameters, "parameters")
    ensures Reads(n, KeyStrict, "strict")
    ensures Reads(n, KeyArguments, "arguments")
    ensures Reads(n, KeyText, "text")
    ensures Reads(n, KeySummary, "summary")
    ensures Reads(n, KeySignature, "signature")
    ensures Reads(n, KeyData, "data")
  {
    hide NameOf, Ascii, Reads;
    forall k
      ensures NameOf(k) == KeyFunction <==> k == Ascii("function")
      ensures NameOf(k) == KeyDescription <==> k == Ascii("description")
      ensures NameOf(k) == KeyParameters <==> k == Ascii("parameters")
      ensures NameOf(k) == KeyStrict <==> k == Ascii("strict")
      ensures NameOf(k) == KeyArguments <==> k == Ascii("arguments")
      ensures NameOf(k) == KeyText <==> k == Ascii("text")
      ensures NameOf(k) == KeySummary <==> k == Ascii("summary")
      ensures NameOf(k) == KeySignature <==> k == Ascii("signature")
      ensures NameOf(k) == KeyData <==> k == Ascii("data")
    {
      SpelledTool(k);
    }
    FieldRaw(n, KeyFunction, "function");
    FieldRaw(n, KeyDescription, "description");
    FieldRaw(n, KeyParameters, "parameters");
    FieldRaw(n, KeyStrict, "strict");
    FieldRaw(n, KeyArguments, "arguments");
    FieldRaw(n, KeyText, "text");
    FieldRaw(n, KeySummary, "summary");
    FieldRaw(n, KeySignature, "signature");
    FieldRaw(n, KeyData, "data");
  }

  lemma MediaFields(n: Node)
    ensures Reads(n, KeyDetail, "detail")
    ensures Reads(n, KeyUrl, "url")
    ensures Reads(n, KeyImageUrl, "image_url")
    ensures Reads(n, KeyAudio, "audio")
    ensures Reads(n, KeyInputAudio, "input_audio")
    ensures Reads(n, KeyVideo, "video")
  {
    hide NameOf, Ascii, Reads;
    forall k
      ensures NameOf(k) == KeyDetail <==> k == Ascii("detail")
      ensures NameOf(k) == KeyUrl <==> k == Ascii("url")
      ensures NameOf(k) == KeyImageUrl <==> k == Ascii("image_url")
      ensures NameOf(k) == KeyAudio <==> k == Ascii("audio")
      ensures NameOf(k) == KeyInputAudio <==> k == Ascii("input_audio")
      ensures NameOf(k) == KeyVideo <==> k == Ascii("video")
    {
      SpelledMedia(k);
    }
    FieldRaw(n, KeyDetail, "detail");
    FieldRaw(n, KeyUrl, "url");
    FieldRaw(n, KeyImageUrl, "image_url");
    FieldRaw(n, KeyAudio, "audio");
    FieldRaw(n, KeyInputAudio, "input_audio");
    FieldRaw(n, KeyVideo, "video");
  }

  lemma FileFields(n: Node)
    ensures Reads(n, KeyFile, "file")
    ensures Reads(n, KeyFileId, "file_id")
    ensures Reads(n, KeyFileData, "file_data")
    ensures Reads(n, KeyFilename, "filename")
    ensures Reads(n, KeyFileUrl, "file_url")
    ensures Reads(n, KeyMimeType, "mime_type")
    ensures Reads(n, KeyMimeTypeCamel, "mimeType")
  {
    hide NameOf, Ascii, Reads;
    forall k
      ensures NameOf(k) == KeyFile <==> k == Ascii("file")
      ensures NameOf(k) == KeyFileId <==> k == Ascii("file_id")
      ensures NameOf(k) == KeyFileData <==> k == Ascii("file_data")
      ensures NameOf(k) == KeyFilename <==> k == Ascii("filename")
      ensures NameOf(k) == KeyFileUrl <==> k == Ascii("file_url")
      ensures NameOf(k) == KeyMimeType <==> k == Ascii("mime_type")
      ensures NameOf(k) == KeyMimeTypeCamel <==> k == Ascii("mimeType")
    {
      SpelledFile(k);
    }
    FieldRaw(n, KeyFile, "file");
    FieldRaw(n, KeyFileId, "file_id");
    FieldRaw(n, KeyFileData, "file_data");
    FieldRaw(n, KeyFilename, "filename");
    FieldRaw(n, KeyFileUrl, "file_url");
    FieldRaw(n, KeyMimeType, "mime_type");
    FieldRaw(n, KeyMimeTypeCamel, "mimeType");
  }

  /** Looking a member up by its name is looking it up by the bytes of its key, for every name and
      every object. */
  lemma FieldsAreRaw(n: Node)
    ensures FieldNode(n, KeyModel) == Raw(n, "model") && OwnIds(n, KeyModel) == RawIds(n, "model")
    ensures FieldNode(n, KeyMessages) == Raw(n, "messages") && OwnIds(n, KeyMessages) == RawIds(n, "messages")
    ensures FieldNode(n, KeyPrediction) == Raw(n, "prediction") && OwnIds(n, KeyPrediction) == RawIds(n, "prediction")
    ensures FieldNode(n, KeyTools) == Raw(n, "tools") && OwnIds(n, KeyTools) == RawIds(n, "tools")
    ensures FieldNode(n, KeyFunctions) == Raw(n, "functions") && OwnIds(n, KeyFunctions) == RawIds(n, "functions")
    ensures FieldNode(n, KeyFunctionCall) == Raw(n, "function_call") && OwnIds(n, KeyFunctionCall) == RawIds(n, "function_call")
    ensures FieldNode(n, KeyToolChoice) == Raw(n, "tool_choice") && OwnIds(n, KeyToolChoice) == RawIds(n, "tool_choice")
    ensures FieldNode(n, KeyParallelToolCalls) == Raw(n, "parallel_tool_calls") && OwnIds(n, KeyParallelToolCalls) == RawIds(n, "parallel_tool_calls")
    ensures FieldNode(n, KeyFrequencyPenalty) == Raw(n, "frequency_penalty") && OwnIds(n, KeyFrequencyPenalty) == RawIds(n, "frequency_penalty")
    ensures FieldNode(n, KeyLogitBias) == Raw(n, "logit_bias") && OwnIds(n, KeyLogitBias) == RawIds(n, "logit_bias")
    ensures FieldNode(n, KeyLogprobs) == Raw(n, "logprobs") && OwnIds(n, KeyLogprobs) == RawIds(n, "logprobs")
    ensures FieldNode(n, KeyMaxCompletionTokens) == Raw(n, "max_completion_tokens") && OwnIds(n, KeyMaxCompletionTokens) == RawIds(n, "max_completion_tokens")
    ensures FieldNode(n, KeyMaxTokens) == Raw(n, "max_tokens") && OwnIds(n, KeyMaxTokens) == RawIds(n, "max_tokens")
    ensures FieldNode(n, KeyPresencePenalty) == Raw(n, "presence_penalty") && OwnIds(n, KeyPresencePenalty) == RawIds(n, "presence_penalty")
    ensures FieldNode(n, KeyTemperature) == Raw(n, "temperature") && OwnIds(n, KeyTemperature) == RawIds(n, "temperature")
    ensures FieldNode(n, KeyTopLogprobs) == Raw(n, "top_logprobs") && OwnIds(n, KeyTopLogprobs) == RawIds(n, "top_logprobs")
    ensures FieldNode(n, KeyTopP) == Raw(n, "top_p") && OwnIds(n, KeyTopP) == RawIds(n, "top_p")
    ensures FieldNode(n, KeyModalities) == Raw(n, "modalities") && OwnIds(n, KeyModalities) == RawIds(n, "modalities")
    ensures FieldNode(n, KeyChoices) == Raw(n, "n") && OwnIds(n, KeyChoices) == RawIds(n, "n")
    ensures FieldNode(n, KeyReasoningEffort) == Raw(n, "reasoning_effort") && OwnIds(n, KeyReasoningEffort) == RawIds(n, "reasoning_effort")
    ensures FieldNode(n, KeyResponseFormat) == Raw(n, "response_format") && OwnIds(n, KeyResponseFormat) == RawIds(n, "response_format")
    ensures FieldNode(n, KeySeed) == Raw(n, "seed") && OwnIds(n, KeySeed) == RawIds(n, "seed")
    ensures FieldNode(n, KeyStop) == Raw(n, "stop") && OwnIds(n, KeyStop) == RawIds(n, "stop")
    ensures FieldNode(n, KeyStream) == Raw(n, "stream") && OwnIds(n, KeyStream) == RawIds(n, "stream")
    ensures FieldNode(n, KeyStreamOptions) == Raw(n, "stream_options") && OwnIds(n, KeyStreamOptions) == RawIds(n, "stream_options")
    ensures FieldNode(n, KeyVerbosity) == Raw(n, "verbosity") && OwnIds(n, KeyVerbosity) == RawIds(n, "verbosity")
    ensures FieldNode(n, KeyMetadata) == Raw(n, "metadata") && OwnIds(n, KeyMetadata) == RawIds(n, "metadata")
    ensures FieldNode(n, KeyModeration) == Raw(n, "moderation") && OwnIds(n, KeyModeration) == RawIds(n, "moderation")
    ensures FieldNode(n, KeySafetyIdentifier) == Raw(n, "safety_identifier") && OwnIds(n, KeySafetyIdentifier) == RawIds(n, "safety_identifier")
    ensures FieldNode(n, KeyServiceTier) == Raw(n, "service_tier") && OwnIds(n, KeyServiceTier) == RawIds(n, "service_tier")
    ensures FieldNode(n, KeyStore) == Raw(n, "store") && OwnIds(n, KeyStore) == RawIds(n, "store")
    ensures FieldNode(n, KeyUser) == Raw(n, "user") && OwnIds(n, KeyUser) == RawIds(n, "user")
    ensures FieldNode(n, KeyWebSearchOptions) == Raw(n, "web_search_options") && OwnIds(n, KeyWebSearchOptions) == RawIds(n, "web_search_options")
    ensures FieldNode(n, KeyPromptCacheKey) == Raw(n, "prompt_cache_key") && OwnIds(n, KeyPromptCacheKey) == RawIds(n, "prompt_cache_key")
    ensures FieldNode(n, KeyPromptCacheOptions) == Raw(n, "prompt_cache_options") && OwnIds(n, KeyPromptCacheOptions) == RawIds(n, "prompt_cache_options")
    ensures FieldNode(n, KeyPromptCacheRetention) == Raw(n, "prompt_cache_retention") && OwnIds(n, KeyPromptCacheRetention) == RawIds(n, "prompt_cache_retention")
    ensures FieldNode(n, KeyCacheControl) == Raw(n, "cache_control") && OwnIds(n, KeyCacheControl) == RawIds(n, "cache_control")
    ensures FieldNode(n, KeyPromptCacheBreakpoint) == Raw(n, "prompt_cache_breakpoint") && OwnIds(n, KeyPromptCacheBreakpoint) == RawIds(n, "prompt_cache_breakpoint")
    ensures FieldNode(n, KeyMode) == Raw(n, "mode") && OwnIds(n, KeyMode) == RawIds(n, "mode")
    ensures FieldNode(n, KeyTtl) == Raw(n, "ttl") && OwnIds(n, KeyTtl) == RawIds(n, "ttl")
    ensures FieldNode(n, KeyRole) == Raw(n, "role") && OwnIds(n, KeyRole) == RawIds(n, "role")
    ensures FieldNode(n, KeyContent) == Raw(n, "content") && OwnIds(n, KeyContent) == RawIds(n, "content")
    ensures FieldNode(n, KeyRefusal) == Raw(n, "refusal") && OwnIds(n, KeyRefusal) == RawIds(n, "refusal")
    ensures FieldNode(n, KeyToolCalls) == Raw(n, "tool_calls") && OwnIds(n, KeyToolCalls) == RawIds(n, "tool_calls")
    ensures FieldNode(n, KeyToolCallId) == Raw(n, "tool_call_id") && OwnIds(n, KeyToolCallId) == RawIds(n, "tool_call_id")
    ensures FieldNode(n, KeyAnnotations) == Raw(n, "annotations") && OwnIds(n, KeyAnnotations) == RawIds(n, "annotations")
    ensures FieldNode(n, KeyReasoning) == Raw(n, "reasoning") && OwnIds(n, KeyReasoning) == RawIds(n, "reasoning")
    ensures FieldNode(n, KeyReasoningContent) == Raw(n, "reasoning_content") && OwnIds(n, KeyReasoningContent) == RawIds(n, "reasoning_content")
    ensures FieldNode(n, KeyReasoningDetails) == Raw(n, "reasoning_details") && OwnIds(n, KeyReasoningDetails) == RawIds(n, "reasoning_details")
    ensures FieldNode(n, KeyType) == Raw(n, "type") && OwnIds(n, KeyType) == RawIds(n, "type")
    ensures FieldNode(n, KeyId) == Raw(n, "id") && OwnIds(n, KeyId) == RawIds(n, "id")
    ensures FieldNode(n, KeyName) == Raw(n, "name") && OwnIds(n, KeyName) == RawIds(n, "name")
    ensures FieldNode(n, KeyCallId) == Raw(n, "call_id") && OwnIds(n, KeyCallId) == RawIds(n, "call_id")
    ensures FieldNode(n, KeyIndex) == Raw(n, "index") && OwnIds(n, KeyIndex) == RawIds(n, "index")
    ensures FieldNode(n, KeyStatus) == Raw(n, "status") && OwnIds(n, KeyStatus) == RawIds(n, "status")
    ensures FieldNode(n, KeyPhase) == Raw(n, "phase") && OwnIds(n, KeyPhase) == RawIds(n, "phase")
    ensures FieldNode(n, KeyExtraContent) == Raw(n, "extra_content") && OwnIds(n, KeyExtraContent) == RawIds(n, "extra_content")
    ensures FieldNode(n, KeyFormat) == Raw(n, "format") && OwnIds(n, KeyFormat) == RawIds(n, "format")
    ensures FieldNode(n, KeyFunction) == Raw(n, "function") && OwnIds(n, KeyFunction) == RawIds(n, "function")
    ensures FieldNode(n, KeyDescription) == Raw(n, "description") && OwnIds(n, KeyDescription) == RawIds(n, "description")
    ensures FieldNode(n, KeyParameters) == Raw(n, "parameters") && OwnIds(n, KeyParameters) == RawIds(n, "parameters")
    ensures FieldNode(n, KeyStrict) == Raw(n, "strict") && OwnIds(n, KeyStrict) == RawIds(n, "strict")
    ensures FieldNode(n, KeyArguments) == Raw(n, "arguments") && OwnIds(n, KeyArguments) == RawIds(n, "arguments")
    ensures FieldNode(n, KeyText) == Raw(n, "text") && OwnIds(n, KeyText) == RawIds(n, "text")
    ensures FieldNode(n, KeySummary) == Raw(n, "summary") && OwnIds(n, KeySummary) == RawIds(n, "summary")
    ensures FieldNode(n, KeySignature) == Raw(n, "signature") && OwnIds(n, KeySignature) == RawIds(n, "signature")
    ensures FieldNode(n, KeyData) == Raw(n, "data") && OwnIds(n, KeyData) == RawIds(n, "data")
    ensures FieldNode(n, KeyDetail) == Raw(n, "detail") && OwnIds(n, KeyDetail) == RawIds(n, "detail")
    ensures FieldNode(n, KeyUrl) == Raw(n, "url") && OwnIds(n, KeyUrl) == RawIds(n, "url")
    ensures FieldNode(n, KeyImageUrl) == Raw(n, "image_url") && OwnIds(n, KeyImageUrl) == RawIds(n, "image_url")
    ensures FieldNode(n, KeyAudio) == Raw(n, "audio") && OwnIds(n, KeyAudio) == RawIds(n, "audio")
    ensures FieldNode(n, KeyInputAudio) == Raw(n, "input_audio") && OwnIds(n, KeyInputAudio) == RawIds(n, "input_audio")
    ensures FieldNode(n, KeyVideo) == Raw(n, "video") && OwnIds(n, KeyVideo) == RawIds(n, "video")
    ensures FieldNode(n, KeyFile) == Raw(n, "file") && OwnIds(n, KeyFile) == RawIds(n, "file")
    ensures FieldNode(n, KeyFileId) == Raw(n, "file_id") && OwnIds(n, KeyFileId) == RawIds(n, "file_id")
    ensures FieldNode(n, KeyFileData) == Raw(n, "file_data") && OwnIds(n, KeyFileData) == RawIds(n, "file_data")
    ensures FieldNode(n, KeyFilename) == Raw(n, "filename") && OwnIds(n, KeyFilename) == RawIds(n, "filename")
    ensures FieldNode(n, KeyFileUrl) == Raw(n, "file_url") && OwnIds(n, KeyFileUrl) == RawIds(n, "file_url")
    ensures FieldNode(n, KeyMimeType) == Raw(n, "mime_type") && OwnIds(n, KeyMimeType) == RawIds(n, "mime_type")
    ensures FieldNode(n, KeyMimeTypeCamel) == Raw(n, "mimeType") && OwnIds(n, KeyMimeTypeCamel) == RawIds(n, "mimeType")
  {
    hide NameOf, Ascii, Raw, RawIds, FieldNode, OwnIds;
    RequestFields(n);
    SamplingFields(n);
    OutputFields(n);
    AccountFields(n);
    CacheFields(n);
    MessageFields(n);
    CommonFields(n);
    ToolFields(n);
    MediaFields(n);
    FileFields(n);
  }

  // ----- which strings a walk selects, by raw keys ------------------------

  predicate IsObject(n: Node) { n.ContainerNode? && n.isObject }

  predicate IsList(v: Option<Node>) { v.Some? && v.value.ContainerNode? && !v.value.isObject }

  predicate IsText(v: Option<Node>) { v.Some? && v.value.StringNode? }

  predicate Says(v: Option<Node>, text: string) { IsText(v) && v.value.value == Ascii(text) }

  lemma {:induction false} UnionHas<T>(items: seq<Item>, n: nat, select: Node -> set<T>, i: nat)
    requires i < n <= |items|
    ensures select(items[i].value) <= UnionOf(items, n, select)
    decreases n
  {
    if i < n - 1 {
      UnionHas(items, n - 1, select, i);
    }
  }

  lemma {:induction false} BlocksHave(items: seq<Item>, n: nat, scope: Scope, i: nat)
    requires i < n <= |items|
    ensures BlockPicks(items[i].value, scope) <= BlocksPicks(items, n, scope)
    decreases n
  {
    hide BlockPicks;
    if i < n - 1 {
      BlocksHave(items, n - 1, scope, i);
    }
  }

  lemma TextPick(v: Option<Node>, scope: Scope, kind: TargetKind, mutable: Mutability)
    requires IsText(v)
    ensures PickFor(v.value.start, scope, kind, mutable) in StringPicks(v, scope, kind, mutable)
  {
  }

  /** `element` stands at `i` in the list under a raw key. */
  predicate InList(n: Node, key: string, i: nat, element: Node) {
    IsList(Raw(n, key)) && i < |Raw(n, key).value.items| && element == Raw(n, key).value.items[i].value
  }

  /** A function tool: its description and parameters are system text, type and name are protected. */
  lemma ToolStrings(root: Node, i: nat, tool: Node, f: Node)
    requires InList(root, "tools", i, tool) && IsObject(tool)
    requires Says(Raw(tool, "type"), "function") && Raw(tool, "function") == Some(f)
    ensures IsText(Raw(f, "description")) ==>
              Pick(Raw(f, "description").value.start, ScopeSystem, NaturalText, Direct, false) in RequestPicks(root)
    ensures Raw(f, "parameters").Some? && IsObject(Raw(f, "parameters").value) ==>
              PicksOf(Ids(Raw(f, "parameters").value), ScopeSystem, JsonValue, Direct) <= RequestPicks(root)
    ensures RawIds(tool, "type") + RawIds(f, "name") <= RequestOpaques(root)
  {
    hide Raw, RawIds, Ascii, FieldNode, OwnIds, MemberIds, NamedIds, UnionOf, ToolPicks, ToolOpaques, LegacyPicks,
         LegacyOpaques, MessagePicks, MessageOpaques, PredictionPicks, PredictionOpaques, Ids, PicksOf;
    var tools := Raw(root, "tools").value.items;
    FieldsAreRaw(root);
    UnionHas(tools, |tools|, ToolPicks, i);
    UnionHas(tools, |tools|, ToolOpaques, i);
    ToolParts(tool);
    DefinitionStrings(f);
  }

  lemma ToolParts(tool: Node)
    requires IsObject(tool) && Says(Raw(tool, "type"), "function") && Raw(tool, "function").Some?
    ensures ToolPicks(tool) == DefinitionPicks(Raw(tool, "function").value)
    ensures RawIds(tool, "type") + RawIds(Raw(tool, "function").value, "name") <= ToolOpaques(tool)
  {
    hide Raw, RawIds, Ascii, FieldNode, OwnIds, DefinitionPicks;
    FieldsAreRaw(tool);
    FieldsAreRaw(Raw(tool, "function").value);
  }

  lemma DefinitionStrings(f: Node)
    ensures IsText(Raw(f, "description")) ==>
              Pick(Raw(f, "description").value.start, ScopeSystem, NaturalText, Direct, false) in DefinitionPicks(f)
    ensures Raw(f, "parameters").Some? && IsObject(Raw(f, "parameters").value) ==>
              PicksOf(Ids(Raw(f, "parameters").value), ScopeSystem, JsonValue, Direct) <= DefinitionPicks(f)
  {
    hide Raw, FieldNode, Ascii;
    FieldsAreRaw(f);
  }

  /** What a role makes of a message's text. */
  predicate RoleGives(role: string, scope: Scope) {
    (role == "user" && scope == ScopeUser)
    || ((role == "system" || role == "developer") && scope == ScopeSystem)
    || ((role == "assistant" || role == "model") && scope == ScopeAssistant)
    || ((role == "tool" || role == "function") && scope == ScopeToolOutput)
  }

  predicate IsTextType(v: Option<Node>) {
    Says(v, "text") || Says(v, "input_text") || Says(v, "output_text") || Says(v, "summary_text")
  }

  lemma RoleIs(message: Node, role: string, scope: Scope)
    requires Says(Raw(message, "role"), role) && RoleGives(role, scope)
    ensures RoleOf(message) == Some(scope)
  {
    hide Raw, FieldNode, OwnIds, RawIds;
    CommonFields(message);
    MessageFields(message);
    RolesApart();
    hide Ascii;
  }

  /** The roles are spelled differently. */
  lemma RolesApart()
    ensures Ascii("user") != Ascii("system") && Ascii("user") != Ascii("developer")
    ensures Ascii("assistant") !in {Ascii("system"), Ascii("developer"), Ascii("user")}
    ensures Ascii("model") !in {Ascii("system"), Ascii("developer"), Ascii("user")}
    ensures Ascii("tool") !in {Ascii("system"), Ascii("developer"), Ascii("user"), Ascii("assistant"), Ascii("model")}
    ensures Ascii("function") !in {Ascii("system"), Ascii("developer"), Ascii("user"), Ascii("assistant"), Ascii("model")}
  {
    hide Ascii, Code;
    CodeOf("user");
    CodeOf("system");
    CodeOf("developer");
    CodeOf("assistant");
    CodeOf("model");
    CodeOf("tool");
    CodeOf("function");
  }

  /** A message of a known role: its text has the role's scope, a tool's answer may be JSON; its
      role and identifiers are protected. */
  lemma MessageStrings(root: Node, i: nat, message: Node, role: string, scope: Scope)
    requires InList(root, "messages", i, message) && IsObject(message)
    requires Says(Raw(message, "role"), role) && RoleGives(role, scope)
    ensures IsText(Raw(message, "content")) ==>
              (if scope == ScopeToolOutput then Pick(Raw(message, "content").value.start, ScopeToolOutput, ToolText, JsonOrPlain, true)
               else Pick(Raw(message, "content").value.start, scope, NaturalText, Direct, false)) in RequestPicks(root)
    ensures scope == ScopeAssistant && IsText(Raw(message, "refusal")) ==>
              Pick(Raw(message, "refusal").value.start, ScopeAssistant, NaturalText, Direct, false) in RequestPicks(root)
    ensures RawIds(message, "role") + RawIds(message, "annotations") <= RequestOpaques(root)
  {
    hide Raw, RawIds, Ascii, FieldNode, OwnIds, UnionOf, MessagePicks, MessageOpaques, ScopedPicks, HeadOpaques;
    var messages := Raw(root, "messages").value.items;
    InMessages(root, i, message);
    RoleIs(message, role, scope);
    MessageParts(message, scope);
  }

  lemma InMessages(root: Node, i: nat, message: Node)
    requires InList(root, "messages", i, message)
    ensures MessagePicks(message) <= RequestPicks(root) && MessageOpaques(message) <= RequestOpaques(root)
  {
    hide Raw, RawIds, Ascii, FieldNode, OwnIds, NamedIds, UnionOf, MessagePicks, MessageOpaques, PredictionPicks,
         PredictionOpaques, DefinitionsPicks, DefinitionsOpaques;
    var messages := Raw(root, "messages").value.items;
    FieldsAreRaw(root);
    UnionHas(messages, |messages|, MessagePicks, i);
    UnionHas(messages, |messages|, MessageOpaques, i);
  }

  lemma MessageParts(message: Node, scope: Scope)
    requires IsObject(message) && RoleOf(message) == Some(scope) && scope != ScopeToolInput
    ensures IsText(Raw(message, "content")) ==>
              (if scope == ScopeToolOutput then Pick(Raw(message, "content").value.start, ScopeToolOutput, ToolText, JsonOrPlain, true)
               else Pick(Raw(message, "content").value.start, scope, NaturalText, Direct, false)) in MessagePicks(message)
    ensures scope == ScopeAssistant && IsText(Raw(message, "refusal")) ==>
              Pick(Raw(message, "refusal").value.start, ScopeAssistant, NaturalText, Direct, false) in MessagePicks(message)
    ensures RawIds(message, "role") + RawIds(message, "annotations") <= MessageOpaques(message)
    ensures ContentPicks(Raw(message, "content"), scope) <= MessagePicks(message) || IsText(Raw(message, "content"))
    ensures ToolTailPicks(message) <= MessagePicks(message) && ToolTailOpaques(message) <= MessageOpaques(message)
  {
    hide Raw, RawIds, Ascii, FieldNode, OwnIds, NamedIds, CacheControlIds, RoleOf, ToolTailPicks, ToolTailOpaques,
         ReasoningOpaques, BlocksPicks, ContentOpaques;
    FieldsAreRaw(message);
    if IsText(Raw(message, "content")) {
      TextPick(Raw(message, "content"), scope, if scope == ScopeToolOutput then ToolText else NaturalText,
               if scope == ScopeToolOutput then JsonOrPlain else Direct);
    }
  }

  /** A text block in the content of a message of a known role. */
  lemma BlockStrings(root: Node, i: nat, message: Node, role: string, scope: Scope, j: nat, block: Node)
    requires InList(root, "messages", i, message) && IsObject(message)
    requires Says(Raw(message, "role"), role) && RoleGives(role, scope)
    requires InList(message, "content", j, block) && IsObject(block) && IsTextType(Raw(block, "type"))
    ensures IsText(Raw(block, "text")) ==>
              Pick(Raw(block, "text").value.start, scope, NaturalText, if scope == ScopeToolOutput then JsonOrPlain else Direct, false)
              in RequestPicks(root)
  {
    hide Raw, RawIds, Ascii, FieldNode, OwnIds, MessagePicks, MessageOpaques, BlocksPicks, BlockPicks;
    var blocks := Raw(message, "content").value.items;
    InMessages(root, i, message);
    RoleIs(message, role, scope);
    MessageParts(message, scope);
    BlocksHave(blocks, |blocks|, scope, j);
    BlockText(block, scope);
  }

  lemma BlockText(block: Node, scope: Scope)
    requires IsObject(block) && IsTextType(Raw(block, "type")) && scope != ScopeToolInput
    ensures IsText(Raw(block, "text")) ==>
              Pick(Raw(block, "text").value.start, scope, NaturalText, if scope == ScopeToolOutput then JsonOrPlain else Direct, false)
              in BlockPicks(block, scope)
  {
    hide Raw, FieldNode, Ascii;
    FieldsAreRaw(block);
    if IsText(Raw(block, "text")) {
      TextPick(Raw(block, "text"), scope, NaturalText, Direct);
    }
  }

  /** A tool call without a type is one of a function. */
  predicate IsFunctionCall(message: Node, j: nat, call: Node, f: Node) {
    InList(message, "tool_calls", j, call) && IsObject(call) && Raw(call, "function") == Some(f) && f.ContainerNode?
    && (Raw(call, "type").None? || Says(Raw(call, "type"), "function"))
  }

  /** A function call in a message: its encoded arguments are tool input, its name is protected. */
  lemma CallStrings(root: Node, i: nat, message: Node, role: string, scope: Scope, j: nat, call: Node, f: Node)
    requires InList(root, "messages", i, message) && IsObject(message)
    requires Says(Raw(message, "role"), role) && RoleGives(role, scope)
    requires IsFunctionCall(message, j, call, f)
    ensures IsText(Raw(f, "arguments")) ==>
              Pick(Raw(f, "arguments").value.start, ScopeToolInput, EncodedJson, EncodedJsonText, true) in RequestPicks(root)
    ensures RawIds(f, "name") <= RequestOpaques(root)
  {
    hide Raw, RawIds, Ascii, FieldNode, OwnIds, MessagePicks, MessageOpaques, ToolTailPicks, ToolTailOpaques, CallPicks,
         CallOpaques;
    InMessages(root, i, message);
    RoleIs(message, role, scope);
    MessageParts(message, scope);
    InCalls(message, j, call);
    CallParts(call, f);
  }

  lemma InCalls(message: Node, j: nat, call: Node)
    requires InList(message, "tool_calls", j, call)
    ensures CallPicks(call) <= ToolTailPicks(message) && CallOpaques(call) <= ToolTailOpaques(message)
  {
    hide Raw, RawIds, Ascii, FieldNode, OwnIds, MemberIds, UnionOf, CallPicks, CallOpaques, FunctionPicks, FunctionOpaques;
    var calls := Raw(message, "tool_calls").value.items;
    FieldsAreRaw(message);
    UnionHas(calls, |calls|, CallPicks, j);
    UnionHas(calls, |calls|, CallOpaques, j);
  }

  lemma CallParts(call: Node, f: Node)
    requires IsObject(call) && Raw(call, "function") == Some(f) && f.ContainerNode?
    requires Raw(call, "type").None? || Says(Raw(call, "type"), "function")
    ensures IsText(Raw(f, "arguments")) ==>
              Pick(Raw(f, "arguments").value.start, ScopeToolInput, EncodedJson, EncodedJsonText, true) in CallPicks(call)
    ensures RawIds(f, "name") <= CallOpaques(call)
  {
    hide Raw, RawIds, Ascii, FieldNode, NamedIds, CacheControlIds;
    FieldsAreRaw(call);
    FieldsAreRaw(f);
    NamedHas(f, FUNCTION_NAMES, 0);
  }

  lemma NamedHas(n: Node, names: seq<Name>, i: nat)
    requires n.ContainerNode? && i < |names|
    ensures OwnIds(n, names[i]) <= NamedIds(n, names)
  {
    hide NameOf, Ids;
    assert names[i] in Collector.Listed(names);
  }

  // ----- the result of a walk ---------------------------------------------

  /** Every pick of the request is a returned target. */
  lemma PickReturned(r: Result, p: Pick)
    requires p in Picked(r.targets)
    ensures exists t :: t in r.targets && t.token.start == p.id && t.scope == p.scope && t.kind == p.kind && t.mutable == p.mutable
  {
    var k :| 0 <= k < |r.targets| && PickOf(r.targets[k]) == p;
    assert r.targets[k] in r.targets;
  }

  /** In a successful walk of a request with a function tool: the string under the raw key
      "description" is a target, as system text, and the one under "name" is protected. */
  lemma WalkedTool(r: Result, opaques: set<int>, i: nat, tool: Node, f: Node)
    requires r.document.Valid()
    requires Picked(r.targets) == RequestPicks(RootNode(r.document)) && opaques == RequestOpaques(RootNode(r.document))
    requires InList(RootNode(r.document), "tools", i, tool) && IsObject(tool)
    requires Says(Raw(tool, "type"), "function") && Raw(tool, "function") == Some(f)
    ensures IsText(Raw(f, "description")) ==>
              exists t :: t in r.targets && t.token.start == Raw(f, "description").value.start && t.scope == ScopeSystem
                          && t.kind == NaturalText && t.mutable == Direct
    ensures IsText(Raw(f, "name")) ==> Raw(f, "name").value.start in opaques
  {
    hide Raw, RawIds, Ascii, Picked, RequestPicks, RequestOpaques, RootNode;
    ToolStrings(RootNode(r.document), i, tool, f);
    RawStart(f, "name");
    if IsText(Raw(f, "description")) {
      PickReturned(r, Pick(Raw(f, "description").value.start, ScopeSystem, NaturalText, Direct, false));
    }
  }

  lemma RawStart(n: Node, key: string)
    ensures IsText(Raw(n, key)) ==> Raw(n, key).value.start in RawIds(n, key)
  {
    hide Ascii;
    if IsText(Raw(n, key)) {
      NamedIsItem(n.items, Ascii(key));
      var i :| 0 <= i < |n.items| && n.items[i].key == Ascii(key) && n.items[i].value == Raw(n, key).value;
      assert n.items[i].value.start in Ids(n.items[i].value);
    }
  }

  lemma {:induction false} NamedIsItem(items: seq<Item>, key: Bytes)
    ensures RawNamed(items, key).Some? ==>
              exists i :: 0 <= i < |items| && items[i].key == key && items[i].value == RawNamed(items, key).value
  {
    if items != [] && items[0].key != key {
      NamedIsItem(items[1..], key);
      if RawNamed(items[1..], key).Some? {
        var i :| 0 <= i < |items[1..]| && items[1..][i].key == key && items[1..][i].value == RawNamed(items[1..], key).value;
        assert items[i + 1] == items[1..][i];
      }
    }
  }

  /** In a successful walk of a request with a message of a known role: its content is a target,
      as text of the role's scope or as a tool's answer that may be JSON, and its role is
      protected; a function call's arguments are one, as tool input that is encoded JSON. */
  lemma WalkedMessage(r: Result, opaques: set<int>, i: nat, message: Node, role: string, scope: Scope)
    requires r.document.Valid()
    requires Picked(r.targets) == RequestPicks(RootNode(r.document)) && opaques == RequestOpaques(RootNode(r.document))
    requires InList(RootNode(r.document), "messages", i, message) && IsObject(message)
    requires Says(Raw(message, "role"), role) && RoleGives(role, scope)
    ensures IsText(Raw(message, "content")) ==>
              exists t :: t in r.targets && t.token.start == Raw(message, "content").value.start && t.scope == scope
                          && if scope == ScopeToolOutput then t.kind == ToolText && t.mutable == JsonOrPlain
                             else t.kind == NaturalText && t.mutable == Direct
    ensures Raw(message, "role").value.start in opaques
    ensures forall j, call, f :: IsFunctionCall(message, j, call, f) && IsText(Raw(f, "arguments")) ==>
              exists t :: t in r.targets && t.token.start == Raw(f, "arguments").value.start && t.scope == ScopeToolInput
                          && t.kind == EncodedJson && t.mutable == EncodedJsonText
  {
    hide Raw, RawIds, Ascii, Picked, RequestPicks, RequestOpaques, RootNode;
    var root := RootNode(r.document);
    MessageStrings(root, i, message, role, scope);
    RawStart(message, "role");
    if IsText(Raw(message, "content")) {
      var at := Raw(message, "content").value.start;
      PickReturned(r, if scope == ScopeToolOutput then Pick(at, ScopeToolOutput, ToolText, JsonOrPlain, true)
                      else Pick(at, scope, NaturalText, Direct, false));
    }
    forall j, call, f | IsFunctionCall(message, j, call, f) && IsText(Raw(f, "arguments"))
      ensures exists t :: t in r.targets && t.token.start == Raw(f, "arguments").value.start && t.scope == ScopeToolInput
                          && t.kind == EncodedJson && t.mutable == EncodedJsonText
    {
      CallStrings(root, i, message, role, scope, j, call, f);
      PickReturned(r, Pick(Raw(f, "arguments").value.start, ScopeToolInput, EncodedJson, EncodedJsonText, true));
    }
  }
}
