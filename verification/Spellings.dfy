/** Which bytes each name stands for. */
module Spellings {
  import opened ByteStrings
  import opened Names

  /** Length, first byte and last byte but one: enough to tell the names apart. */
  function Code(key: Bytes): int {
    if key == [] then 0
    else |key| * 65536 + key[0] as int * 256 + (if |key| == 1 then key[0] else key[|key| - 2]) as int
  }

  lemma {:induction false} AsciiAt(s: string, i: nat)
    requires i < |s| && s[i] < '\U{0080}'
    ensures Ascii(s)[i] as int == s[i] as int
  {
    if i > 0 {
      AsciiAt(s[1..], i - 1);
    }
  }

  lemma CodeOf(s: string)
    requires s != "" && IsAscii(s)
    ensures Code(Ascii(s)) == |s| * 65536 + s[0] as int * 256 + s[if |s| == 1 then 0 else |s| - 2] as int
  {
    AsciiAt(s, 0);
    AsciiAt(s, if |s| == 1 then 0 else |s| - 2);
  }

  predicate InRequest(code: int) {
    code == 355685 || code == 552293 || code == 684143 || code == 357484 || code == 616046 || code == 878188
    || code == 750691 || code == 1273964
  }

  predicate InSampling(code: int) {
    code == 1140340 || code == 683105 || code == 552034 || code == 1404270 || code == 683374 || code == 1077364
    || code == 750706 || code == 816226 || code == 357471
  }

  predicate InOutput(code: int) {
    code == 683365 || code == 93806 || code == 1077874 || code == 1012321 || code == 291685 || code == 291695
    || code == 422753 || code == 947054 || code == 620148
  }

  predicate InAccount(code: int) {
    code == 552308 || code == 683375 || code == 1143653 || code == 815973 || code == 357234 || code == 292197
    || code == 1210222
  }

  predicate InCache(code: int) {
    code == 1077349 || code == 1339502 || code == 1470575 || code == 877423 || code == 1536110 || code == 290148
    || code == 226420
  }

  predicate InMessage(code: int) {
    code == 291436 || code == 484206 || code == 488033 || code == 685164 || code == 816233 || code == 745838
    || code == 619118 || code == 1143406 || code == 1143404
  }

  predicate InCommon(code: int) {
    code == 291952 || code == 158057 || code == 290413 || code == 484201 || code == 354661 || code == 422773
    || code == 356467 || code == 877934 || code == 419425
  }

  predicate InTool(code: int) {
    code == 550511 || code == 746607 || code == 684146 || code == 422755 || code == 614772 || code == 291960
    || code == 488306 || code == 619378 || code == 287860
  }

  predicate InMedia(code: int) {
    code == 418921 || code == 226674 || code == 616818 || code == 352617 || code == 747881 || code == 357989
  }

  predicate InFile(code: int) {
    code == 288364 || code == 484969 || code == 616052 || code == 550509 || code == 550514 || code == 617840
    || code == 552304
  }

  /** Which table a key is in, by its code. */
  function Table(code: int): int {
    if InRequest(code) then 0
    else if InSampling(code) then 1
    else if InOutput(code) then 2
    else if InAccount(code) then 3
    else if InCache(code) then 4
    else if InMessage(code) then 5
    else if InCommon(code) then 6
    else if InTool(code) then 7
    else if InMedia(code) then 8
    else if InFile(code) then 9
    else -1
  }

  /** Which table a name is in. */
  function TableOf(name: Name): int {
    match name
    case KeyModel | KeyMessages | KeyPrediction | KeyTools | KeyFunctions | KeyFunctionCall | KeyToolChoice
       | KeyParallelToolCalls => 0
    case KeyFrequencyPenalty | KeyLogitBias | KeyLogprobs | KeyMaxCompletionTokens | KeyMaxTokens
       | KeyPresencePenalty | KeyTemperature | KeyTopLogprobs | KeyTopP => 1
    case KeyModalities | KeyChoices | KeyReasoningEffort | KeyResponseFormat | KeySeed | KeyStop | KeyStream
       | KeyStreamOptions | KeyVerbosity => 2
    case KeyMetadata | KeyModeration | KeySafetyIdentifier | KeyServiceTier | KeyStore | KeyUser
       | KeyWebSearchOptions => 3
    case KeyPromptCacheKey | KeyPromptCacheOptions | KeyPromptCacheRetention | KeyCacheControl
       | KeyPromptCacheBreakpoint | KeyMode | KeyTtl => 4
    case KeyRole | KeyContent | KeyRefusal | KeyToolCalls | KeyToolCallId | KeyAnnotations | KeyReasoning
       | KeyReasoningContent | KeyReasoningDetails => 5
    case KeyType | KeyId | KeyName | KeyCallId | KeyIndex | KeyStatus | KeyPhase | KeyExtraContent | KeyFormat => 6
    case KeyFunction | KeyDescription | KeyParameters | KeyStrict | KeyArguments | KeyText | KeySummary
       | KeySignature | KeyData => 7
    case KeyDetail | KeyUrl | KeyImageUrl | KeyAudio | KeyInputAudio | KeyVideo => 8
    case KeyFile | KeyFileId | KeyFileData | KeyFilename | KeyFileUrl | KeyMimeType | KeyMimeTypeCamel => 9
    case Other(_) => -1
  }

  lemma RequestCodes()
    ensures Code(Ascii("model")) == 355685
    ensures Code(Ascii("messages")) == 552293
    ensures Code(Ascii("prediction")) == 684143
    ensures Code(Ascii("tools")) == 357484
    ensures Code(Ascii("functions")) == 616046
    ensures Code(Ascii("function_call")) == 878188
    ensures Code(Ascii("tool_choice")) == 750691
    ensures Code(Ascii("parallel_tool_calls")) == 1273964
  {
    hide Code, Ascii;
    CodeOf("model");
    CodeOf("messages");
    CodeOf("prediction");
    CodeOf("tools");
    CodeOf("functions");
    CodeOf("function_call");
    CodeOf("tool_choice");
    CodeOf("parallel_tool_calls");
  }

  lemma RequestKind(name: Name)
    requires name.KeyModel? || name.KeyMessages? || name.KeyPrediction? || name.KeyTools? || name.KeyFunctions?
             || name.KeyFunctionCall? || name.KeyToolChoice? || name.KeyParallelToolCalls?
    ensures TableOf(name) == 0
  {
  }

  lemma RequestApart(code: int)
    requires InRequest(code)
    ensures Table(code) == 0
  {
  }

  lemma RequestSpelled(key: Bytes)
    ensures RequestName(key) == Some(KeyModel) <==> key == Ascii("model")
    ensures RequestName(key) == Some(KeyMessages) <==> key == Ascii("messages")
    ensures RequestName(key) == Some(KeyPrediction) <==> key == Ascii("prediction")
    ensures RequestName(key) == Some(KeyTools) <==> key == Ascii("tools")
    ensures RequestName(key) == Some(KeyFunctions) <==> key == Ascii("functions")
    ensures RequestName(key) == Some(KeyFunctionCall) <==> key == Ascii("function_call")
    ensures RequestName(key) == Some(KeyToolChoice) <==> key == Ascii("tool_choice")
    ensures RequestName(key) == Some(KeyParallelToolCalls) <==> key == Ascii("parallel_tool_calls")
    ensures RequestName(key).Some? ==> Table(Code(key)) == 0 && TableOf(RequestName(key).value) == 0
  {
    hide Code, Ascii, Table, TableOf;
    RequestCodes();
    if RequestName(key).Some? {
      RequestKind(RequestName(key).value);
      RequestApart(Code(key));
    }
  }

  lemma SamplingCodes()
    ensures Code(Ascii("frequency_penalty")) == 1140340
    ensures Code(Ascii("logit_bias")) == 683105
    ensures Code(Ascii("logprobs")) == 552034
    ensures Code(Ascii("max_completion_tokens")) == 1404270
    ensures Code(Ascii("max_tokens")) == 683374
    ensures Code(Ascii("presence_penalty")) == 1077364
    ensures Code(Ascii("temperature")) == 750706
    ensures Code(Ascii("top_logprobs")) == 816226
    ensures Code(Ascii("top_p")) == 357471
  {
    hide Code, Ascii;
    CodeOf("frequency_penalty");
    CodeOf("logit_bias");
    CodeOf("logprobs");
    CodeOf("max_completion_tokens");
    CodeOf("max_tokens");
    CodeOf("presence_penalty");
    CodeOf("temperature");
    CodeOf("top_logprobs");
    CodeOf("top_p");
  }

  lemma SamplingKind(name: Name)
    requires name.KeyFrequencyPenalty? || name.KeyLogitBias? || name.KeyLogprobs? || name.KeyMaxCompletionTokens? || name.KeyMaxTokens?
             || name.KeyPresencePenalty? || name.KeyTemperature? || name.KeyTopLogprobs? || name.KeyTopP?
    ensures TableOf(name) == 1
  {
  }

  lemma SamplingApart(code: int)
    requires InSampling(code)
    ensures Table(code) == 1
  {
  }

  lemma SamplingSpelled(key: Bytes)
    ensures SamplingName(key) == Some(KeyFrequencyPenalty) <==> key == Ascii("frequency_penalty")
    ensures SamplingName(key) == Some(KeyLogitBias) <==> key == Ascii("logit_bias")
    ensures SamplingName(key) == Some(KeyLogprobs) <==> key == Ascii("logprobs")
    ensures SamplingName(key) == Some(KeyMaxCompletionTokens) <==> key == Ascii("max_completion_tokens")
    ensures SamplingName(key) == Some(KeyMaxTokens) <==> key == Ascii("max_tokens")
    ensures SamplingName(key) == Some(KeyPresencePenalty) <==> key == Ascii("presence_penalty")
    ensures SamplingName(key) == Some(KeyTemperature) <==> key == Ascii("temperature")
    ensures SamplingName(key) == Some(KeyTopLogprobs) <==> key == Ascii("top_logprobs")
    ensures SamplingName(key) == Some(KeyTopP) <==> key == Ascii("top_p")
    ensures SamplingName(key).Some? ==> Table(Code(key)) == 1 && TableOf(SamplingName(key).value) == 1
  {
    hide Code, Ascii, Table, TableOf;
    SamplingCodes();
    if SamplingName(key).Some? {
      SamplingKind(SamplingName(key).value);
      SamplingApart(Code(key));
    }
  }

  lemma OutputCodes()
    ensures Code(Ascii("modalities")) == 683365
    ensures Code(Ascii("n")) == 93806
    ensures Code(Ascii("reasoning_effort")) == 1077874
    ensures Code(Ascii("response_format")) == 1012321
    ensures Code(Ascii("seed")) == 291685
    ensures Code(Ascii("stop")) == 291695
    ensures Code(Ascii("stream")) == 422753
    ensures Code(Ascii("stream_options")) == 947054
    ensures Code(Ascii("verbosity")) == 620148
  {
    hide Code, Ascii;
    CodeOf("modalities");
    CodeOf("n");
    CodeOf("reasoning_effort");
    CodeOf("response_format");
    CodeOf("seed");
    CodeOf("stop");
    CodeOf("stream");
    CodeOf("stream_options");
    CodeOf("verbosity");
  }

  lemma OutputKind(name: Name)
    requires name.KeyModalities? || name.KeyChoices? || name.KeyReasoningEffort? || name.KeyResponseFormat? || name.KeySeed?
             || name.KeyStop? || name.KeyStream? || name.KeyStreamOptions? || name.KeyVerbosity?
    ensures TableOf(name) == 2
  {
  }

  lemma OutputApart(code: int)
    requires InOutput(code)
    ensures Table(code) == 2
  {
  }

  lemma OutputSpelled(key: Bytes)
    ensures OutputName(key) == Some(KeyModalities) <==> key == Ascii("modalities")
    ensures OutputName(key) == Some(KeyChoices) <==> key == Ascii("n")
    ensures OutputName(key) == Some(KeyReasoningEffort) <==> key == Ascii("reasoning_effort")
    ensures OutputName(key) == Some(KeyResponseFormat) <==> key == Ascii("response_format")
    ensures OutputName(key) == Some(KeySeed) <==> key == Ascii("seed")
    ensures OutputName(key) == Some(KeyStop) <==> key == Ascii("stop")
    ensures OutputName(key) == Some(KeyStream) <==> key == Ascii("stream")
    ensures OutputName(key) == Some(KeyStreamOptions) <==> key == Ascii("stream_options")
    ensures OutputName(key) == Some(KeyVerbosity) <==> key == Ascii("verbosity")
    ensures OutputName(key).Some? ==> Table(Code(key)) == 2 && TableOf(OutputName(key).value) == 2
  {
    hide Code, Ascii, Table, TableOf;
    OutputCodes();
    if OutputName(key).Some? {
      OutputKind(OutputName(key).value);
      OutputApart(Code(key));
    }
  }

  lemma AccountCodes()
    ensures Code(Ascii("metadata")) == 552308
    ensures Code(Ascii("moderation")) == 683375
    ensures Code(Ascii("safety_identifier")) == 1143653
    ensures Code(Ascii("service_tier")) == 815973
    ensures Code(Ascii("store")) == 357234
    ensures Code(Ascii("user")) == 292197
    ensures Code(Ascii("web_search_options")) == 1210222
  {
    hide Code, Ascii;
    CodeOf("metadata");
    CodeOf("moderation");
    CodeOf("safety_identifier");
    CodeOf("service_tier");
    CodeOf("store");
    CodeOf("user");
    CodeOf("web_search_options");
  }

  lemma AccountKind(name: Name)
    requires name.KeyMetadata? || name.KeyModeration? || name.KeySafetyIdentifier? || name.KeyServiceTier? || name.KeyStore?
             || name.KeyUser? || name.KeyWebSearchOptions?
    ensures TableOf(name) == 3
  {
  }

  lemma AccountApart(code: int)
    requires InAccount(code)
    ensures Table(code) == 3
  {
  }

  lemma AccountSpelled(key: Bytes)
    ensures AccountName(key) == Some(KeyMetadata) <==> key == Ascii("metadata")
    ensures AccountName(key) == Some(KeyModeration) <==> key == Ascii("moderation")
    ensures AccountName(key) == Some(KeySafetyIdentifier) <==> key == Ascii("safety_identifier")
    ensures AccountName(key) == Some(KeyServiceTier) <==> key == Ascii("service_tier")
    ensures AccountName(key) == Some(KeyStore) <==> key == Ascii("store")
    ensures AccountName(key) == Some(KeyUser) <==> key == Ascii("user")
    ensures AccountName(key) == Some(KeyWebSearchOptions) <==> key == Ascii("web_search_options")
    ensures AccountName(key).Some? ==> Table(Code(key)) == 3 && TableOf(AccountName(key).value) == 3
  {
    hide Code, Ascii, Table, TableOf;
    AccountCodes();
    if AccountName(key).Some? {
      AccountKind(AccountName(key).value);
      AccountApart(Code(key));
    }
  }

  lemma CacheCodes()
    ensures Code(Ascii("prompt_cache_key")) == 1077349
    ensures Code(Ascii("prompt_cache_options")) == 1339502
    ensures Code(Ascii("prompt_cache_retention")) == 1470575
    ensures Code(Ascii("cache_control")) == 877423
    ensures Code(Ascii("prompt_cache_breakpoint")) == 1536110
    ensures Code(Ascii("mode")) == 290148
    ensures Code(Ascii("ttl")) == 226420
  {
    hide Code, Ascii;
    CodeOf("prompt_cache_key");
    CodeOf("prompt_cache_options");
    CodeOf("prompt_cache_retention");
    CodeOf("cache_control");
    CodeOf("prompt_cache_breakpoint");
    CodeOf("mode");
    CodeOf("ttl");
  }

  lemma CacheKind(name: Name)
    requires name.KeyPromptCacheKey? || name.KeyPromptCacheOptions? || name.KeyPromptCacheRetention? || name.KeyCacheControl? || name.KeyPromptCacheBreakpoint?
             || name.KeyMode? || name.KeyTtl?
    ensures TableOf(name) == 4
  {
  }

  lemma CacheApart(code: int)
    requires InCache(code)
    ensures Table(code) == 4
  {
  }

  lemma CacheSpelled(key: Bytes)
    ensures CacheName(key) == Some(KeyPromptCacheKey) <==> key == Ascii("prompt_cache_key")
    ensures CacheName(key) == Some(KeyPromptCacheOptions) <==> key == Ascii("prompt_cache_options")
    ensures CacheName(key) == Some(KeyPromptCacheRetention) <==> key == Ascii("prompt_cache_retention")
    ensures CacheName(key) == Some(KeyCacheControl) <==> key == Ascii("cache_control")
    ensures CacheName(key) == Some(KeyPromptCacheBreakpoint) <==> key == Ascii("prompt_cache_breakpoint")
    ensures CacheName(key) == Some(KeyMode) <==> key == Ascii("mode")
    ensures CacheName(key) == Some(KeyTtl) <==> key == Ascii("ttl")
    ensures CacheName(key).Some? ==> Table(Code(key)) == 4 && TableOf(CacheName(key).value) == 4
  {
    hide Code, Ascii, Table, TableOf;
    CacheCodes();
    if CacheName(key).Some? {
      CacheKind(CacheName(key).value);
      CacheApart(Code(key));
    }
  }

  lemma MessageCodes()
    ensures Code(Ascii("role")) == 291436
    ensures Code(Ascii("content")) == 484206
    ensures Code(Ascii("refusal")) == 488033
    ensures Code(Ascii("tool_calls")) == 685164
    ensures Code(Ascii("tool_call_id")) == 816233
    ensures Code(Ascii("annotations")) == 745838
    ensures Code(Ascii("reasoning")) == 619118
    ensures Code(Ascii("reasoning_content")) == 1143406
    ensures Code(Ascii("reasoning_details")) == 1143404
  {
    hide Code, Ascii;
    CodeOf("role");
    CodeOf("content");
    CodeOf("refusal");
    CodeOf("tool_calls");
    CodeOf("tool_call_id");
    CodeOf("annotations");
    CodeOf("reasoning");
    CodeOf("reasoning_content");
    CodeOf("reasoning_details");
  }

  lemma MessageKind(name: Name)
    requires name.KeyRole? || name.KeyContent? || name.KeyRefusal? || name.KeyToolCalls? || name.KeyToolCallId?
             || name.KeyAnnotations? || name.KeyReasoning? || name.KeyReasoningContent? || name.KeyReasoningDetails?
    ensures TableOf(name) == 5
  {
  }

  lemma MessageApart(code: int)
    requires InMessage(code)
    ensures Table(code) == 5
  {
  }

  lemma MessageSpelled(key: Bytes)
    ensures MessageName(key) == Some(KeyRole) <==> key == Ascii("role")
    ensures MessageName(key) == Some(KeyContent) <==> key == Ascii("content")
    ensures MessageName(key) == Some(KeyRefusal) <==> key == Ascii("refusal")
    ensures MessageName(key) == Some(KeyToolCalls) <==> key == Ascii("tool_calls")
    ensures MessageName(key) == Some(KeyToolCallId) <==> key == Ascii("tool_call_id")
    ensures MessageName(key) == Some(KeyAnnotations) <==> key == Ascii("annotations")
    ensures MessageName(key) == Some(KeyReasoning) <==> key == Ascii("reasoning")
    ensures MessageName(key) == Some(KeyReasoningContent) <==> key == Ascii("reasoning_content")
    ensures MessageName(key) == Some(KeyReasoningDetails) <==> key == Ascii("reasoning_details")
    ensures MessageName(key).Some? ==> Table(Code(key)) == 5 && TableOf(MessageName(key).value) == 5
  {
    hide Code, Ascii, Table, TableOf;
    MessageCodes();
    if MessageName(key).Some? {
      MessageKind(MessageName(key).value);
      MessageApart(Code(key));
    }
  }

  lemma CommonCodes()
    ensures Code(Ascii("type")) == 291952
    ensures Code(Ascii("id")) == 158057
    ensures Code(Ascii("name")) == 290413
    ensures Code(Ascii("call_id")) == 484201
    ensures Code(Ascii("index")) == 354661
    ensures Code(Ascii("status")) == 422773
    ensures Code(Ascii("phase")) == 356467
    ensures Code(Ascii("extra_content")) == 877934
    ensures Code(Ascii("format")) == 419425
  {
    hide Code, Ascii;
    CodeOf("type");
    CodeOf("id");
    CodeOf("name");
    CodeOf("call_id");
    CodeOf("index");
    CodeOf("status");
    CodeOf("phase");
    CodeOf("extra_content");
    CodeOf("format");
  }

  lemma CommonKind(name: Name)
    requires name.KeyType? || name.KeyId? || name.KeyName? || name.KeyCallId? || name.KeyIndex?
             || name.KeyStatus? || name.KeyPhase? || name.KeyExtraContent? || name.KeyFormat?
    ensures TableOf(name) == 6
  {
  }

  lemma CommonApart(code: int)
    requires InCommon(code)
    ensures Table(code) == 6
  {
  }

  lemma CommonSpelled(key: Bytes)
    ensures CommonName(key) == Some(KeyType) <==> key == Ascii("type")
    ensures CommonName(key) == Some(KeyId) <==> key == Ascii("id")
    ensures CommonName(key) == Some(KeyName) <==> key == Ascii("name")
    ensures CommonName(key) == Some(KeyCallId) <==> key == Ascii("call_id")
    ensures CommonName(key) == Some(KeyIndex) <==> key == Ascii("index")
    ensures CommonName(key) == Some(KeyStatus) <==> key == Ascii("status")
    ensures CommonName(key) == Some(KeyPhase) <==> key == Ascii("phase")
    ensures CommonName(key) == Some(KeyExtraContent) <==> key == Ascii("extra_content")
    ensures CommonName(key) == Some(KeyFormat) <==> key == Ascii("format")
    ensures CommonName(key).Some? ==> Table(Code(key)) == 6 && TableOf(CommonName(key).value) == 6
  {
    hide Code, Ascii, Table, TableOf;
    CommonCodes();
    if CommonName(key).Some? {
      CommonKind(CommonName(key).value);
      CommonApart(Code(key));
    }
  }

  lemma ToolCodes()
    ensures Code(Ascii("function")) == 550511
    ensures Code(Ascii("description")) == 746607
    ensures Code(Ascii("parameters")) == 684146
    ensures Code(Ascii("strict")) == 422755
    ensures Code(Ascii("arguments")) == 614772
    ensures Code(Ascii("text")) == 291960
    ensures Code(Ascii("summary")) == 488306
    ensures Code(Ascii("signature")) == 619378
    ensures Code(Ascii("data")) == 287860
  {
    hide Code, Ascii;
    CodeOf("function");
    CodeOf("description");
    CodeOf("parameters");
    CodeOf("strict");
    CodeOf("arguments");
    CodeOf("text");
    CodeOf("summary");
    CodeOf("signature");
    CodeOf("data");
  }

  lemma ToolKind(name: Name)
    requires name.KeyFunction? || name.KeyDescription? || name.KeyParameters? || name.KeyStrict? || name.KeyArguments?
             || name.KeyText? || name.KeySummary? || name.KeySignature? || name.KeyData?
    ensures TableOf(name) == 7
  {
  }

  lemma ToolApart(code: int)
    requires InTool(code)
    ensures Table(code) == 7
  {
  }

  lemma ToolSpelled(key: Bytes)
    ensures ToolName(key) == Some(KeyFunction) <==> key == Ascii("function")
    ensures ToolName(key) == Some(KeyDescription) <==> key == Ascii("description")
    ensures ToolName(key) == Some(KeyParameters) <==> key == Ascii("parameters")
    ensures ToolName(key) == Some(KeyStrict) <==> key == Ascii("strict")
    ensures ToolName(key) == Some(KeyArguments) <==> key == Ascii("arguments")
    ensures ToolName(key) == Some(KeyText) <==> key == Ascii("text")
    ensures ToolName(key) == Some(KeySummary) <==> key == Ascii("summary")
    ensures ToolName(key) == Some(KeySignature) <==> key == Ascii("signature")
    ensures ToolName(key) == Some(KeyData) <==> key == Ascii("data")
    ensures ToolName(key).Some? ==> Table(Code(key)) == 7 && TableOf(ToolName(key).value) == 7
  {
    hide Code, Ascii, Table, TableOf;
    ToolCodes();
    if ToolName(key).Some? {
      ToolKind(ToolName(key).value);
      ToolApart(Code(key));
    }
  }

  lemma MediaCodes()
    ensures Code(Ascii("detail")) == 418921
    ensures Code(Ascii("url")) == 226674
    ensures Code(Ascii("image_url")) == 616818
    ensures Code(Ascii("audio")) == 352617
    ensures Code(Ascii("input_audio")) == 747881
    ensures Code(Ascii("video")) == 357989
  {
    hide Code, Ascii;
    CodeOf("detail");
    CodeOf("url");
    CodeOf("image_url");
    CodeOf("audio");
    CodeOf("input_audio");
    CodeOf("video");
  }

  lemma MediaKind(name: Name)
    requires name.KeyDetail? || name.KeyUrl? || name.KeyImageUrl? || name.KeyAudio? || name.KeyInputAudio?
             || name.KeyVideo?
    ensures TableOf(name) == 8
  {
  }

  lemma MediaApart(code: int)
    requires InMedia(code)
    ensures Table(code) == 8
  {
  }

  lemma MediaSpelled(key: Bytes)
    ensures MediaName(key) == Some(KeyDetail) <==> key == Ascii("detail")
    ensures MediaName(key) == Some(KeyUrl) <==> key == Ascii("url")
    ensures MediaName(key) == Some(KeyImageUrl) <==> key == Ascii("image_url")
    ensures MediaName(key) == Some(KeyAudio) <==> key == Ascii("audio")
    ensures MediaName(key) == Some(KeyInputAudio) <==> key == Ascii("input_audio")
    ensures MediaName(key) == Some(KeyVideo) <==> key == Ascii("video")
    ensures MediaName(key).Some? ==> Table(Code(key)) == 8 && TableOf(MediaName(key).value) == 8
  {
    hide Code, Ascii, Table, TableOf;
    MediaCodes();
    if MediaName(key).Some? {
      MediaKind(MediaName(key).value);
      MediaApart(Code(key));
    }
  }

  lemma FileCodes()
    ensures Code(Ascii("file")) == 288364
    ensures Code(Ascii("file_id")) == 484969
    ensures Code(Ascii("file_data")) == 616052
    ensures Code(Ascii("filename")) == 550509
    ensures Code(Ascii("file_url")) == 550514
    ensures Code(Ascii("mime_type")) == 617840
    ensures Code(Ascii("mimeType")) == 552304
  {
    hide Code, Ascii;
    CodeOf("file");
    CodeOf("file_id");
    CodeOf("file_data");
    CodeOf("filename");
    CodeOf("file_url");
    CodeOf("mime_type");
    CodeOf("mimeType");
  }

  lemma FileKind(name: Name)
    requires name.KeyFile? || name.KeyFileId? || name.KeyFileData? || name.KeyFilename? || name.KeyFileUrl?
             || name.KeyMimeType? || name.KeyMimeTypeCamel?
    ensures TableOf(name) == 9
  {
  }

  lemma FileApart(code: int)
    requires InFile(code)
    ensures Table(code) == 9
  {
  }

  lemma FileSpelled(key: Bytes)
    ensures FileName(key) == Some(KeyFile) <==> key == Ascii("file")
    ensures FileName(key) == Some(KeyFileId) <==> key == Ascii("file_id")
    ensures FileName(key) == Some(KeyFileData) <==> key == Ascii("file_data")
    ensures FileName(key) == Some(KeyFilename) <==> key == Ascii("filename")
    ensures FileName(key) == Some(KeyFileUrl) <==> key == Ascii("file_url")
    ensures FileName(key) == Some(KeyMimeType) <==> key == Ascii("mime_type")
    ensures FileName(key) == Some(KeyMimeTypeCamel) <==> key == Ascii("mimeType")
    ensures FileName(key).Some? ==> Table(Code(key)) == 9 && TableOf(FileName(key).value) == 9
  {
    hide Code, Ascii, Table, TableOf;
    FileCodes();
    if FileName(key).Some? {
      FileKind(FileName(key).value);
      FileApart(Code(key));
    }
  }

  lemma OtherTable(key: Bytes)
    ensures TableOf(Other(key)) == -1
  {
  }

  /** At most one table has the key. */
  lemma OneTable(key: Bytes)
    ensures RequestName(key).Some? ==> RequestName(key) == Some(NameOf(key))
    ensures SamplingName(key).Some? ==> SamplingName(key) == Some(NameOf(key))
    ensures OutputName(key).Some? ==> OutputName(key) == Some(NameOf(key))
    ensures AccountName(key).Some? ==> AccountName(key) == Some(NameOf(key))
    ensures CacheName(key).Some? ==> CacheName(key) == Some(NameOf(key))
    ensures MessageName(key).Some? ==> MessageName(key) == Some(NameOf(key))
    ensures CommonName(key).Some? ==> CommonName(key) == Some(NameOf(key))
    ensures ToolName(key).Some? ==> ToolName(key) == Some(NameOf(key))
    ensures MediaName(key).Some? ==> MediaName(key) == Some(NameOf(key))
    ensures FileName(key).Some? ==> FileName(key) == Some(NameOf(key))
    ensures TableOf(NameOf(key)) == 0 ==> RequestName(key).Some?
    ensures TableOf(NameOf(key)) == 1 ==> SamplingName(key).Some?
    ensures TableOf(NameOf(key)) == 2 ==> OutputName(key).Some?
    ensures TableOf(NameOf(key)) == 3 ==> AccountName(key).Some?
    ensures TableOf(NameOf(key)) == 4 ==> CacheName(key).Some?
    ensures TableOf(NameOf(key)) == 5 ==> MessageName(key).Some?
    ensures TableOf(NameOf(key)) == 6 ==> CommonName(key).Some?
    ensures TableOf(NameOf(key)) == 7 ==> ToolName(key).Some?
    ensures TableOf(NameOf(key)) == 8 ==> MediaName(key).Some?
    ensures TableOf(NameOf(key)) == 9 ==> FileName(key).Some?
  {
    hide Code, Ascii, Table, TableOf, RequestName, SamplingName, OutputName, AccountName, CacheName, MessageName, CommonName,
         ToolName, MediaName, FileName;
    OtherTable(key);
    RequestSpelled(key);
    SamplingSpelled(key);
    OutputSpelled(key);
    AccountSpelled(key);
    CacheSpelled(key);
    MessageSpelled(key);
    CommonSpelled(key);
    ToolSpelled(key);
    MediaSpelled(key);
    FileSpelled(key);
  }

  lemma SpelledRequest(key: Bytes)
    ensures NameOf(key) == KeyModel <==> key == Ascii("model")
    ensures NameOf(key) == KeyMessages <==> key == Ascii("messages")
    ensures NameOf(key) == KeyPrediction <==> key == Ascii("prediction")
    ensures NameOf(key) == KeyTools <==> key == Ascii("tools")
    ensures NameOf(key) == KeyFunctions <==> key == Ascii("functions")
    ensures NameOf(key) == KeyFunctionCall <==> key == Ascii("function_call")
    ensures NameOf(key) == KeyToolChoice <==> key == Ascii("tool_choice")
    ensures NameOf(key) == KeyParallelToolCalls <==> key == Ascii("parallel_tool_calls")
  {
    hide Code, Ascii, Table, TableOf, NameOf, RequestName, SamplingName, OutputName, AccountName, CacheName, MessageName,
         CommonName, ToolName, MediaName, FileName;
    OneTable(key);
    RequestKind(KeyModel);
    RequestKind(KeyMessages);
    RequestKind(KeyPrediction);
    RequestKind(KeyTools);
    RequestKind(KeyFunctions);
    RequestKind(KeyFunctionCall);
    RequestKind(KeyToolChoice);
    RequestKind(KeyParallelToolCalls);
    RequestSpelled(key);
  }

  lemma SpelledSampling(key: Bytes)
    ensures NameOf(key) == KeyFrequencyPenalty <==> key == Ascii("frequency_penalty")
    ensures NameOf(key) == KeyLogitBias <==> key == Ascii("logit_bias")
    ensures NameOf(key) == KeyLogprobs <==> key == Ascii("logprobs")
    ensures NameOf(key) == KeyMaxCompletionTokens <==> key == Ascii("max_completion_tokens")
    ensures NameOf(key) == KeyMaxTokens <==> key == Ascii("max_tokens")
    ensures NameOf(key) == KeyPresencePenalty <==> key == Ascii("presence_penalty")
    ensures NameOf(key) == KeyTemperature <==> key == Ascii("temperature")
    ensures NameOf(key) == KeyTopLogprobs <==> key == Ascii("top_logprobs")
    ensures NameOf(key) == KeyTopP <==> key == Ascii("top_p")
  {
    hide Code, Ascii, Table, TableOf, NameOf, RequestName, SamplingName, OutputName, AccountName, CacheName, MessageName,
         CommonName, ToolName, MediaName, FileName;
    OneTable(key);
    SamplingKind(KeyFrequencyPenalty);
    SamplingKind(KeyLogitBias);
    SamplingKind(KeyLogprobs);
    SamplingKind(KeyMaxCompletionTokens);
    SamplingKind(KeyMaxTokens);
    SamplingKind(KeyPresencePenalty);
    SamplingKind(KeyTemperature);
    SamplingKind(KeyTopLogprobs);
    SamplingKind(KeyTopP);
    SamplingSpelled(key);
  }

  lemma SpelledOutput(key: Bytes)
    ensures NameOf(key) == KeyModalities <==> key == Ascii("modalities")
    ensures NameOf(key) == KeyChoices <==> key == Ascii("n")
    ensures NameOf(key) == KeyReasoningEffort <==> key == Ascii("reasoning_effort")
    ensures NameOf(key) == KeyResponseFormat <==> key == Ascii("response_format")
    ensures NameOf(key) == KeySeed <==> key == Ascii("seed")
    ensures NameOf(key) == KeyStop <==> key == Ascii("stop")
    ensures NameOf(key) == KeyStream <==> key == Ascii("stream")
    ensures NameOf(key) == KeyStreamOptions <==> key == Ascii("stream_options")
    ensures NameOf(key) == KeyVerbosity <==> key == Ascii("verbosity")
  {
    hide Code, Ascii, Table, TableOf, NameOf, RequestName, SamplingName, OutputName, AccountName, CacheName, MessageName,
         CommonName, ToolName, MediaName, FileName;
    OneTable(key);
    OutputKind(KeyModalities);
    OutputKind(KeyChoices);
    OutputKind(KeyReasoningEffort);
    OutputKind(KeyResponseFormat);
    OutputKind(KeySeed);
    OutputKind(KeyStop);
    OutputKind(KeyStream);
    OutputKind(KeyStreamOptions);
    OutputKind(KeyVerbosity);
    OutputSpelled(key);
  }

  lemma SpelledAccount(key: Bytes)
    ensures NameOf(key) == KeyMetadata <==> key == Ascii("metadata")
    ensures NameOf(key) == KeyModeration <==> key == Ascii("moderation")
    ensures NameOf(key) == KeySafetyIdentifier <==> key == Ascii("safety_identifier")
    ensures NameOf(key) == KeyServiceTier <==> key == Ascii("service_tier")
    ensures NameOf(key) == KeyStore <==> key == Ascii("store")
    ensures NameOf(key) == KeyUser <==> key == Ascii("user")
    ensures NameOf(key) == KeyWebSearchOptions <==> key == Ascii("web_search_options")
  {
    hide Code, Ascii, Table, TableOf, NameOf, RequestName, SamplingName, OutputName, AccountName, CacheName, MessageName,
         CommonName, ToolName, MediaName, FileName;
    OneTable(key);
    AccountKind(KeyMetadata);
    AccountKind(KeyModeration);
    AccountKind(KeySafetyIdentifier);
    AccountKind(KeyServiceTier);
    AccountKind(KeyStore);
    AccountKind(KeyUser);
    AccountKind(KeyWebSearchOptions);
    AccountSpelled(key);
  }

  lemma SpelledCache(key: Bytes)
    ensures NameOf(key) == KeyPromptCacheKey <==> key == Ascii("prompt_cache_key")
    ensures NameOf(key) == KeyPromptCacheOptions <==> key == Ascii("prompt_cache_options")
    ensures NameOf(key) == KeyPromptCacheRetention <==> key == Ascii("prompt_cache_retention")
    ensures NameOf(key) == KeyCacheControl <==> key == Ascii("cache_control")
    ensures NameOf(key) == KeyPromptCacheBreakpoint <==> key == Ascii("prompt_cache_breakpoint")
    ensures NameOf(key) == KeyMode <==> key == Ascii("mode")
    ensures NameOf(key) == KeyTtl <==> key == Ascii("ttl")
  {
    hide Code, Ascii, Table, TableOf, NameOf, RequestName, SamplingName, OutputName, AccountName, CacheName, MessageName,
         CommonName, ToolName, MediaName, FileName;
    OneTable(key);
    CacheKind(KeyPromptCacheKey);
    CacheKind(KeyPromptCacheOptions);
    CacheKind(KeyPromptCacheRetention);
    CacheKind(KeyCacheControl);
    CacheKind(KeyPromptCacheBreakpoint);
    CacheKind(KeyMode);
    CacheKind(KeyTtl);
    CacheSpelled(key);
  }

  lemma SpelledMessage(key: Bytes)
    ensures NameOf(key) == KeyRole <==> key == Ascii("role")
    ensures NameOf(key) == KeyContent <==> key == Ascii("content")
    ensures NameOf(key) == KeyRefusal <==> key == Ascii("refusal")
    ensures NameOf(key) == KeyToolCalls <==> key == Ascii("tool_calls")
    ensures NameOf(key) == KeyToolCallId <==> key == Ascii("tool_call_id")
    ensures NameOf(key) == KeyAnnotations <==> key == Ascii("annotations")
    ensures NameOf(key) == KeyReasoning <==> key == Ascii("reasoning")
    ensures NameOf(key) == KeyReasoningContent <==> key == Ascii("reasoning_content")
    ensures NameOf(key) == KeyReasoningDetails <==> key == Ascii("reasoning_details")
  {
    hide Code, Ascii, Table, TableOf, NameOf, RequestName, SamplingName, OutputName, AccountName, CacheName, MessageName,
         CommonName, ToolName, MediaName, FileName;
    OneTable(key);
    MessageKind(KeyRole);
    MessageKind(KeyContent);
    MessageKind(KeyRefusal);
    MessageKind(KeyToolCalls);
    MessageKind(KeyToolCallId);
    MessageKind(KeyAnnotations);
    MessageKind(KeyReasoning);
    MessageKind(KeyReasoningContent);
    MessageKind(KeyReasoningDetails);
    MessageSpelled(key);
  }

  lemma SpelledCommon(key: Bytes)
    ensures NameOf(key) == KeyType <==> key == Ascii("type")
    ensures NameOf(key) == KeyId <==> key == Ascii("id")
    ensures NameOf(key) == KeyName <==> key == Ascii("name")
    ensures NameOf(key) == KeyCallId <==> key == Ascii("call_id")
    ensures NameOf(key) == KeyIndex <==> key == Ascii("index")
    ensures NameOf(key) == KeyStatus <==> key == Ascii("status")
    ensures NameOf(key) == KeyPhase <==> key == Ascii("phase")
    ensures NameOf(key) == KeyExtraContent <==> key == Ascii("extra_content")
    ensures NameOf(key) == KeyFormat <==> key == Ascii("format")
  {
    hide Code, Ascii, Table, TableOf, NameOf, RequestName, SamplingName, OutputName, AccountName, CacheName, MessageName,
         CommonName, ToolName, MediaName, FileName;
    OneTable(key);
    CommonKind(KeyType);
    CommonKind(KeyId);
    CommonKind(KeyName);
    CommonKind(KeyCallId);
    CommonKind(KeyIndex);
    CommonKind(KeyStatus);
    CommonKind(KeyPhase);
    CommonKind(KeyExtraContent);
    CommonKind(KeyFormat);
    CommonSpelled(key);
  }

  lemma SpelledTool(key: Bytes)
    ensures NameOf(key) == KeyFunction <==> key == Ascii("function")
    ensures NameOf(key) == KeyDescription <==> key == Ascii("description")
    ensures NameOf(key) == KeyParameters <==> key == Ascii("parameters")
    ensures NameOf(key) == KeyStrict <==> key == Ascii("strict")
    ensures NameOf(key) == KeyArguments <==> key == Ascii("arguments")
    ensures NameOf(key) == KeyText <==> key == Ascii("text")
    ensures NameOf(key) == KeySummary <==> key == Ascii("summary")
    ensures NameOf(key) == KeySignature <==> key == Ascii("signature")
    ensures NameOf(key) == KeyData <==> key == Ascii("data")
  {
    hide Code, Ascii, Table, TableOf, NameOf, RequestName, SamplingName, OutputName, AccountName, CacheName, MessageName,
         CommonName, ToolName, MediaName, FileName;
    OneTable(key);
    ToolKind(KeyFunction);
    ToolKind(KeyDescription);
    ToolKind(KeyParameters);
    ToolKind(KeyStrict);
    ToolKind(KeyArguments);
    ToolKind(KeyText);
    ToolKind(KeySummary);
    ToolKind(KeySignature);
    ToolKind(KeyData);
    ToolSpelled(key);
  }

  lemma SpelledMedia(key: Bytes)
    ensures NameOf(key) == KeyDetail <==> key == Ascii("detail")
    ensures NameOf(key) == KeyUrl <==> key == Ascii("url")
    ensures NameOf(key) == KeyImageUrl <==> key == Ascii("image_url")
    ensures NameOf(key) == KeyAudio <==> key == Ascii("audio")
    ensures NameOf(key) == KeyInputAudio <==> key == Ascii("input_audio")
    ensures NameOf(key) == KeyVideo <==> key == Ascii("video")
  {
    hide Code, Ascii, Table, TableOf, NameOf, RequestName, SamplingName, OutputName, AccountName, CacheName, MessageName,
         CommonName, ToolName, MediaName, FileName;
    OneTable(key);
    MediaKind(KeyDetail);
    MediaKind(KeyUrl);
    MediaKind(KeyImageUrl);
    MediaKind(KeyAudio);
    MediaKind(KeyInputAudio);
    MediaKind(KeyVideo);
    MediaSpelled(key);
  }

  lemma SpelledFile(key: Bytes)
    ensures NameOf(key) == KeyFile <==> key == Ascii("file")
    ensures NameOf(key) == KeyFileId <==> key == Ascii("file_id")
    ensures NameOf(key) == KeyFileData <==> key == Ascii("file_data")
    ensures NameOf(key) == KeyFilename <==> key == Ascii("filename")
    ensures NameOf(key) == KeyFileUrl <==> key == Ascii("file_url")
    ensures NameOf(key) == KeyMimeType <==> key == Ascii("mime_type")
    ensures NameOf(key) == KeyMimeTypeCamel <==> key == Ascii("mimeType")
  {
    hide Code, Ascii, Table, TableOf, NameOf, RequestName, SamplingName, OutputName, AccountName, CacheName, MessageName,
         CommonName, ToolName, MediaName, FileName;
    OneTable(key);
    FileKind(KeyFile);
    FileKind(KeyFileId);
    FileKind(KeyFileData);
    FileKind(KeyFilename);
    FileKind(KeyFileUrl);
    FileKind(KeyMimeType);
    FileKind(KeyMimeTypeCamel);
    FileSpelled(key);
  }

  /** A key has a name exactly when it is spelled so, byte by byte. */
  lemma Spelled(key: Bytes)
    ensures NameOf(key) == KeyModel <==> key == Ascii("model")
    ensures NameOf(key) == KeyMessages <==> key == Ascii("messages")
    ensures NameOf(key) == KeyPrediction <==> key == Ascii("prediction")
    ensures NameOf(key) == KeyTools <==> key == Ascii("tools")
    ensures NameOf(key) == KeyFunctions <==> key == Ascii("functions")
    ensures NameOf(key) == KeyFunctionCall <==> key == Ascii("function_call")
    ensures NameOf(key) == KeyToolChoice <==> key == Ascii("tool_choice")
    ensures NameOf(key) == KeyParallelToolCalls <==> key == Ascii("parallel_tool_calls")
    ensures NameOf(key) == KeyFrequencyPenalty <==> key == Ascii("frequency_penalty")
    ensures NameOf(key) == KeyLogitBias <==> key == Ascii("logit_bias")
    ensures NameOf(key) == KeyLogprobs <==> key == Ascii("logprobs")
    ensures NameOf(key) == KeyMaxCompletionTokens <==> key == Ascii("max_completion_tokens")
    ensures NameOf(key) == KeyMaxTokens <==> key == Ascii("max_tokens")
    ensures NameOf(key) == KeyPresencePenalty <==> key == Ascii("presence_penalty")
    ensures NameOf(key) == KeyTemperature <==> key == Ascii("temperature")
    ensures NameOf(key) == KeyTopLogprobs <==> key == Ascii("top_logprobs")
    ensures NameOf(key) == KeyTopP <==> key == Ascii("top_p")
    ensures NameOf(key) == KeyModalities <==> key == Ascii("modalities")
    ensures NameOf(key) == KeyChoices <==> key == Ascii("n")
    ensures NameOf(key) == KeyReasoningEffort <==> key == Ascii("reasoning_effort")
    ensures NameOf(key) == KeyResponseFormat <==> key == Ascii("response_format")
    ensures NameOf(key) == KeySeed <==> key == Ascii("seed")
    ensures NameOf(key) == KeyStop <==> key == Ascii("stop")
    ensures NameOf(key) == KeyStream <==> key == Ascii("stream")
    ensures NameOf(key) == KeyStreamOptions <==> key == Ascii("stream_options")
    ensures NameOf(key) == KeyVerbosity <==> key == Ascii("verbosity")
    ensures NameOf(key) == KeyMetadata <==> key == Ascii("metadata")
    ensures NameOf(key) == KeyModeration <==> key == Ascii("moderation")
    ensures NameOf(key) == KeySafetyIdentifier <==> key == Ascii("safety_identifier")
    ensures NameOf(key) == KeyServiceTier <==> key == Ascii("service_tier")
    ensures NameOf(key) == KeyStore <==> key == Ascii("store")
    ensures NameOf(key) == KeyUser <==> key == Ascii("user")
    ensures NameOf(key) == KeyWebSearchOptions <==> key == Ascii("web_search_options")
    ensures NameOf(key) == KeyPromptCacheKey <==> key == Ascii("prompt_cache_key")
    ensures NameOf(key) == KeyPromptCacheOptions <==> key == Ascii("prompt_cache_options")
    ensures NameOf(key) == KeyPromptCacheRetention <==> key == Ascii("prompt_cache_retention")
    ensures NameOf(key) == KeyCacheControl <==> key == Ascii("cache_control")
    ensures NameOf(key) == KeyPromptCacheBreakpoint <==> key == Ascii("prompt_cache_breakpoint")
    ensures NameOf(key) == KeyMode <==> key == Ascii("mode")
    ensures NameOf(key) == KeyTtl <==> key == Ascii("ttl")
    ensures NameOf(key) == KeyRole <==> key == Ascii("role")
    ensures NameOf(key) == KeyContent <==> key == Ascii("content")
    ensures NameOf(key) == KeyRefusal <==> key == Ascii("refusal")
    ensures NameOf(key) == KeyToolCalls <==> key == Ascii("tool_calls")
    ensures NameOf(key) == KeyToolCallId <==> key == Ascii("tool_call_id")
    ensures NameOf(key) == KeyAnnotations <==> key == Ascii("annotations")
    ensures NameOf(key) == KeyReasoning <==> key == Ascii("reasoning")
    ensures NameOf(key) == KeyReasoningContent <==> key == Ascii("reasoning_content")
    ensures NameOf(key) == KeyReasoningDetails <==> key == Ascii("reasoning_details")
    ensures NameOf(key) == KeyType <==> key == Ascii("type")
    ensures NameOf(key) == KeyId <==> key == Ascii("id")
    ensures NameOf(key) == KeyName <==> key == Ascii("name")
    ensures NameOf(key) == KeyCallId <==> key == Ascii("call_id")
    ensures NameOf(key) == KeyIndex <==> key == Ascii("index")
    ensures NameOf(key) == KeyStatus <==> key == Ascii("status")
    ensures NameOf(key) == KeyPhase <==> key == Ascii("phase")
    ensures NameOf(key) == KeyExtraContent <==> key == Ascii("extra_content")
    ensures NameOf(key) == KeyFormat <==> key == Ascii("format")
    ensures NameOf(key) == KeyFunction <==> key == Ascii("function")
    ensures NameOf(key) == KeyDescription <==> key == Ascii("description")
    ensures NameOf(key) == KeyParameters <==> key == Ascii("parameters")
    ensures NameOf(key) == KeyStrict <==> key == Ascii("strict")
    ensures NameOf(key) == KeyArguments <==> key == Ascii("arguments")
    ensures NameOf(key) == KeyText <==> key == Ascii("text")
    ensures NameOf(key) == KeySummary <==> key == Ascii("summary")
    ensures NameOf(key) == KeySignature <==> key == Ascii("signature")
    ensures NameOf(key) == KeyData <==> key == Ascii("data")
    ensures NameOf(key) == KeyDetail <==> key == Ascii("detail")
    ensures NameOf(key) == KeyUrl <==> key == Ascii("url")
    ensures NameOf(key) == KeyImageUrl <==> key == Ascii("image_url")
    ensures NameOf(key) == KeyAudio <==> key == Ascii("audio")
    ensures NameOf(key) == KeyInputAudio <==> key == Ascii("input_audio")
    ensures NameOf(key) == KeyVideo <==> key == Ascii("video")
    ensures NameOf(key) == KeyFile <==> key == Ascii("file")
    ensures NameOf(key) == KeyFileId <==> key == Ascii("file_id")
    ensures NameOf(key) == KeyFileData <==> key == Ascii("file_data")
    ensures NameOf(key) == KeyFilename <==> key == Ascii("filename")
    ensures NameOf(key) == KeyFileUrl <==> key == Ascii("file_url")
    ensures NameOf(key) == KeyMimeType <==> key == Ascii("mime_type")
    ensures NameOf(key) == KeyMimeTypeCamel <==> key == Ascii("mimeType")
  {
    hide Code, Ascii, NameOf;
    SpelledRequest(key);
    SpelledSampling(key);
    SpelledOutput(key);
    SpelledAccount(key);
    SpelledCache(key);
    SpelledMessage(key);
    SpelledCommon(key);
    SpelledTool(key);
    SpelledMedia(key);
    SpelledFile(key);
  }
}
