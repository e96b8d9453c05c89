/** The member names the protocol walks look for; a key that is none of them keeps its
    bytes. Walks compare names, which stands for comparing keys byte by byte. */
module Names {
  import opened ByteStrings

  datatype Name =
    | Other(text: Bytes)
    | KeyModel | KeyMessages | KeyPrediction | KeyTools | KeyFunctions | KeyAudio | KeyFrequencyPenalty
    | KeyFunctionCall | KeyLogitBias | KeyLogprobs | KeyMaxCompletionTokens | KeyMaxTokens
    | KeyMetadata | KeyModalities | KeyModeration | KeyChoices | KeyParallelToolCalls
    | KeyPresencePenalty | KeyPromptCacheKey | KeyPromptCacheOptions | KeyPromptCacheRetention
    | KeyReasoningEffort | KeyResponseFormat | KeySafetyIdentifier | KeySeed | KeyServiceTier
    | KeyStop | KeyStore | KeyStream | KeyStreamOptions | KeyTemperature | KeyToolChoice
    | KeyTopLogprobs | KeyTopP | KeyUser | KeyVerbosity | KeyWebSearchOptions | KeyType
    | KeyFunction | KeyCacheControl | KeyName | KeyDescription | KeyParameters | KeyStrict
    | KeyContent | KeyRole | KeyToolCalls | KeyId | KeyCallId | KeyToolCallId | KeyRefusal
    | KeyReasoning | KeyReasoningContent | KeyReasoningDetails | KeyAnnotations | KeyFormat
    | KeyIndex | KeyText | KeySignature | KeySummary | KeyData | KeyExtraContent | KeyArguments
    | KeyPromptCacheBreakpoint | KeyMode | KeyTtl | KeyImageUrl | KeyUrl | KeyFileId
    | KeyDetail | KeyMimeType | KeyMimeTypeCamel | KeyInputAudio | KeyVideo | KeyFile
    | KeyFileData | KeyFilename | KeyFileUrl | KeyStatus | KeyPhase

  function RequestName(key: Bytes): Option<Name> {
    if key == Ascii("model") then Some(KeyModel)
    else if key == Ascii("messages") then Some(KeyMessages)
    else if key == Ascii("prediction") then Some(KeyPrediction)
    else if key == Ascii("tools") then Some(KeyTools)
    else if key == Ascii("functions") then Some(KeyFunctions)
    else if key == Ascii("function_call") then Some(KeyFunctionCall)
    else if key == Ascii("tool_choice") then Some(KeyToolChoice)
    else if key == Ascii("parallel_tool_calls") then Some(KeyParallelToolCalls)
    else None
  }

  function SamplingName(key: Bytes): Option<Name> {
    if key == Ascii("frequency_penalty") then Some(KeyFrequencyPenalty)
    else if key == Ascii("logit_bias") then Some(KeyLogitBias)
    else if key == Ascii("logprobs") then Some(KeyLogprobs)
    else if key == Ascii("max_completion_tokens") then Some(KeyMaxCompletionTokens)
    else if key == Ascii("max_tokens") then Some(KeyMaxTokens)
    else if key == Ascii("presence_penalty") then Some(KeyPresencePenalty)
    else if key == Ascii("temperature") then Some(KeyTemperature)
    else if key == Ascii("top_logprobs") then Some(KeyTopLogprobs)
    else if key == Ascii("top_p") then Some(KeyTopP)
    else None
  }

  function OutputName(key: Bytes): Option<Name> {
    if key == Ascii("modalities") then Some(KeyModalities)
    else if key == Ascii("n") then Some(KeyChoices)
    else if key == Ascii("reasoning_effort") then Some(KeyReasoningEffort)
    else if key == Ascii("response_format") then Some(KeyResponseFormat)
    else if key == Ascii("seed") then Some(KeySeed)
    else if key == Ascii("stop") then Some(KeyStop)
    else if key == Ascii("stream") then Some(KeyStream)
    else if key == Ascii("stream_options") then Some(KeyStreamOptions)
    else if key == Ascii("verbosity") then Some(KeyVerbosity)
    else None
  }

  function AccountName(key: Bytes): Option<Name> {
    if key == Ascii("metadata") then Some(KeyMetadata)
    else if key == Ascii("moderation") then Some(KeyModeration)
    else if key == Ascii("safety_identifier") then Some(KeySafetyIdentifier)
    else if key == Ascii("service_tier") then Some(KeyServiceTier)
    else if key == Ascii("store") then Some(KeyStore)
    else if key == Ascii("user") then Some(KeyUser)
    else if key == Ascii("web_search_options") then Some(KeyWebSearchOptions)
    else None
  }

  function CacheName(key: Bytes): Option<Name> {
    if key == Ascii("prompt_cache_key") then Some(KeyPromptCacheKey)
    else if key == Ascii("prompt_cache_options") then Some(KeyPromptCacheOptions)
    else if key == Ascii("prompt_cache_retention") then Some(KeyPromptCacheRetention)
    else if key == Ascii("cache_control") then Some(KeyCacheControl)
    else if key == Ascii("prompt_cache_breakpoint") then Some(KeyPromptCacheBreakpoint)
    else if key == Ascii("mode") then Some(KeyMode)
    else if key == Ascii("ttl") then Some(KeyTtl)
    else None
  }

  function MessageName(key: Bytes): Option<Name> {
    if key == Ascii("role") then Some(KeyRole)
    else if key == Ascii("content") then Some(KeyContent)
    else if key == Ascii("refusal") then Some(KeyRefusal)
    else if key == Ascii("tool_calls") then Some(KeyToolCalls)
    else if key == Ascii("tool_call_id") then Some(KeyToolCallId)
    else if key == Ascii("annotations") then Some(KeyAnnotations)
    else if key == Ascii("reasoning") then Some(KeyReasoning)
    else if key == Ascii("reasoning_content") then Some(KeyReasoningContent)
    else if key == Ascii("reasoning_details") then Some(KeyReasoningDetails)
    else None
  }

  function CommonName(key: Bytes): Option<Name> {
    if key == Ascii("type") then Some(KeyType)
    else if key == Ascii("id") then Some(KeyId)
    else if key == Ascii("name") then Some(KeyName)
    else if key == Ascii("call_id") then Some(KeyCallId)
    else if key == Ascii("index") then Some(KeyIndex)
    else if key == Ascii("status") then Some(KeyStatus)
    else if key == Ascii("phase") then Some(KeyPhase)
    else if key == Ascii("extra_content") then Some(KeyExtraContent)
    else if key == Ascii("format") then Some(KeyFormat)
    else None
  }

  function ToolName(key: Bytes): Option<Name> {
    if key == Ascii("function") then Some(KeyFunction)
    else if key == Ascii("description") then Some(KeyDescription)
    else if key == Ascii("parameters") then Some(KeyParameters)
    else if key == Ascii("strict") then Some(KeyStrict)
    else if key == Ascii("arguments") then Some(KeyArguments)
    else if key == Ascii("text") then Some(KeyText)
    else if key == Ascii("summary") then Some(KeySummary)
    else if key == Ascii("signature") then Some(KeySignature)
    else if key == Ascii("data") then Some(KeyData)
    else None
  }

  function MediaName(key: Bytes): Option<Name> {
    if key == Ascii("detail") then Some(KeyDetail)
    else if key == Ascii("url") then Some(KeyUrl)
    else if key == Ascii("image_url") then Some(KeyImageUrl)
    else if key == Ascii("audio") then Some(KeyAudio)
    else if key == Ascii("input_audio") then Some(KeyInputAudio)
    else if key == Ascii("video") then Some(KeyVideo)
    else None
  }

  function FileName(key: Bytes): Option<Name> {
    if key == Ascii("file") then Some(KeyFile)
    else if key == Ascii("file_id") then Some(KeyFileId)
    else if key == Ascii("file_data") then Some(KeyFileData)
    else if key == Ascii("filename") then Some(KeyFilename)
    else if key == Ascii("file_url") then Some(KeyFileUrl)
    else if key == Ascii("mime_type") then Some(KeyMimeType)
    else if key == Ascii("mimeType") then Some(KeyMimeTypeCamel)
    else None
  }

  /** The name a key stands for. */
  function NameOf(key: Bytes): Name {
    if RequestName(key).Some? then RequestName(key).value
    else if SamplingName(key).Some? then SamplingName(key).value
    else if OutputName(key).Some? then OutputName(key).value
    else if AccountName(key).Some? then AccountName(key).value
    else if CacheName(key).Some? then CacheName(key).value
    else PartName(key)
  }

  function PartName(key: Bytes): Name {
    if MessageName(key).Some? then MessageName(key).value
    else if CommonName(key).Some? then CommonName(key).value
    else if ToolName(key).Some? then ToolName(key).value
    else if MediaName(key).Some? then MediaName(key).value
    else if FileName(key).Some? then FileName(key).value
    else Other(key)
  }
}
