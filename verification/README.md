# A verified model of the privacy filter's request pipeline

The plugin inspects the body of a model request before it leaves the machine: it scans the
JSON, decides for every string whether it is model input, redacts secrets in the selected
strings, and splices the results back so that nothing else changes. This project models that
pipeline and proves what it promises.

- **Scanner and splicer** (`ByteStrings`, `Utf8`, `JsonStrings`, `JsonGrammar`, `JsonIndex`,
  `Scanner`, `Splicing`, `Payload`, `ReplaceLaws`, `Escapes`). The byte-level lexer is a class
  that moves through the body and retains a path arena and a string index under structural
  limits. It is proved against a grammar of RFC 8259 with lossless syntax trees; the encoder
  inverts the decoder, and `Escapes` says by code points what the decoder reads; `Replace` is
  proved to exchange exactly the selected strings of the tree.
- **Tree and dispositions** (`Names`, `Spellings`, `Tree`, `Collector`, `Selection`, `Shapes`,
  `OpenAI`, `Responses`, `Registry`, `RawKeys`). The second parse is shown to run in step with
  the first. The collector keeps three disjoint sets of strings under one budget; `Selection`
  says by structure which strings of a request are model input and how they are treated, and
  which are protected, and `Shapes` which requests are well-shaped; the walks are proved to
  select and protect exactly those, and to object to no others. `Spellings` and `RawKeys` state
  what they select by the literal bytes of the keys.
- **Detection and redaction** (`Spans`, `PrivacyEngine`, `Placeholders`, `KeyContext`). The
  span collector computes the hulls of overlapping candidates in any order of arrival and
  never hides a blocking rule; redaction copies no byte of an accepted span.
- **Requests** (`Redactor`, `Masking`, `Credentials`, `Sanitizer`). Encoded JSON inside strings
  is sanitised recursively under one shared budget, and the whole request is put together. A
  trace says how each string came by its result; from it follows what the new body says and
  what it hides, and that no tool value below a credential name is left at any depth.
- **Cache and lifecycle** (`RequestCache`, `Interceptor`, `Lifecycle`). The scan cache follows
  an abstract recency list; runs of interleaved requests only skip what was scanned before;
  quiesce and shutdown are safe in every interleaving of steps.

Cancellation is a nondeterministic abort: a `cancellable` parameter allows it, and contracts
say what holds without it. Detectors are functions from a text to proposed spans. Hashes used
as fingerprints are read as the bytes they were taken of.

Two promises hold under a condition only, and the condition is part of the results. Nothing is
in flight when a quiesce returns but calls that a register or init let in meanwhile
(`Lifecycle.QuiesceOutlived`, `Lifecycle.QuiesceIsSafe`, `Lifecycle.QuiesceOvertaken`). A
skipped body is the output of the latest successful scan of its request exactly as long as that
scan was recorded into the state the call acquired, or left the same in another; two runs show
how it may not have been (`Interceptor.RequestInterceptor.Ask`, `Interceptor.LateSuccess`, `Interceptor.AskedLate`).

## Model

| member | source | states |
|---|---|---|
| `JsonGrammar.ParseTextExact` | payload/jsonscan.go:42-66 | the parser accepts exactly the JSON texts of RFC 8259 (sections 2 to 7), and every such text has exactly one reading as a lossless syntax tree |
| `JsonGrammar.ParseSound` | payload/jsonscan.go:68-134 | whatever is parsed as a value is a well-formed tree whose bytes are the bytes read |
| `JsonGrammar.ParseItemsSound` | payload/jsonscan.go:136-238 | the same for members and elements, with their separators and closing bracket |
| `JsonGrammar.NumberSound` | payload/jsonscan.go:362-419 | an accepted number has the parts of section 6 of RFC 8259 |
| `JsonGrammar.ParseComplete` | payload/jsonscan.go:68-134 | every well-formed value followed by a legal byte is parsed to its end, back into the same tree |
| `JsonGrammar.ParseItemsComplete` | payload/jsonscan.go:136-238 | every well-formed nonempty item list is parsed, back into the same items |
| `JsonGrammar.NumberComplete` | payload/jsonscan.go:362-419 | every number of the grammar is read in full |
| `JsonGrammar.LabelComplete` | payload/jsonscan.go:150-176 | every member name with its colon is read in full |
| `JsonGrammar.TextSound` | payload/jsonscan.go:42-66 | an accepted body is whitespace, one value, whitespace |
| `JsonGrammar.TextComplete` | payload/jsonscan.go:42-66 | every body of that form is accepted, with that tree |
| `JsonIndex.CapacityLinear` | payload/jsonscan.go:285-293 | a retained slice has capacity 0, 16, or less than twice its length |
| `JsonIndex.CapacityStep` | payload/jsonscan.go:285-293 | growing one element at a time reaches the same capacities as the doubling rule |
| `JsonIndex.IndexAccounts` | payload/jsonscan.go:240-293 | retained paths, strings, nodes, depth and bytes of a value have closed forms: key and value bytes plus 64 per path slot and 128 per token slot |
| `JsonIndex.TextMeasures` | payload/jsonscan.go:42-66 | the same for a whole text: node count, depth, longest string, structural bytes |
| `Scanner.JsonScanner.ReadValue` | payload/jsonscan.go:68-134 | one value: reaches exactly the index of its tree, or reports bad syntax where the grammar has no value, or, where it has one, a limit that its index really passes |
| `Scanner.JsonScanner.ReadObject` | payload/jsonscan.go:136-195 | the members of an object, in the same exact sense |
| `Scanner.JsonScanner.ReadArray` | payload/jsonscan.go:197-238 | the elements of an array, in the same exact sense |
| `Scanner.JsonScanner.ReadString` | payload/jsonscan.go:297-352 | a string ends where the grammar says and its value is the decoded body |
| `Scanner.JsonScanner.ReadNumber` | payload/jsonscan.go:362-419 | a number is accepted exactly when the grammar has one here |
| `Scanner.JsonScanner.ReadLiteral` | payload/jsonscan.go:354-360 | a literal is accepted exactly when its bytes stand here |
| `Scanner.JsonScanner.SkipWhitespace` | payload/jsonscan.go:421-434 | stops at the first byte that is no insignificant whitespace |
| `Scanner.JsonScanner.AppendPath` | payload/jsonscan.go:240-257 | adds one arena node, charging key bytes and growth first; refused exactly past the limit |
| `Scanner.JsonScanner.AppendString` | payload/jsonscan.go:259-275 | adds one index entry, charging value bytes and growth first |
| `Scanner.JsonScanner.Retain` | payload/jsonscan.go:277-283 | charges exactly, or refuses and changes nothing |
| `Scanner.ScanJson` | payload/jsonscan.go:42-66 | without cancellation succeeds exactly on JSON texts that fit every limit, with the index of the tree; on a JSON text a limit error names a limit that is really exceeded; what the values are is `Escapes.ValueDecodes` and the laws before it |
| `Utf8.SanitizeValid` | payload/jsonscan.go:631-690 | replacing invalid UTF-8 bytes gives valid UTF-8 |
| `Utf8.SanitizeFixes` | payload/jsonscan.go:631-690 | the replacement changes a text exactly when it is not valid UTF-8 |
| `Escapes.SanitizeReads` | payload/jsonscan.go:631-690 | the replacement leaves every character and puts EF BF BD for each byte at which none begins |
| `JsonStrings.StringEndSound` | payload/jsonscan.go:297-352 | the closing quote found really ends a string of the grammar |
| `JsonStrings.StringEndComplete` | payload/jsonscan.go:297-352 | every string of the grammar is found whole |
| `JsonStrings.DecodeValid` | payload/jsonscan.go:306-318 | decoding yields valid UTF-8 whatever escapes and raw bytes the string holds |
| `Escapes.DecodeBasic` | payload/jsonscan.go:306-318 | an escape that spells one UTF-16 unit of a character, in hex digits of either case, decodes to the UTF-8 of that character, whatever follows |
| `Escapes.DecodePair` | payload/jsonscan.go:306-318 | two escapes that spell the high and the low unit of a character decode to its UTF-8 |
| `Escapes.DecodeLone` | payload/jsonscan.go:306-318 | a surrogate without its partner decodes to EF BF BD and takes nothing else with it |
| `Escapes.DecodeShort` | payload/jsonscan.go:306-318 | each of the eight short escapes decodes to its one character |
| `Escapes.DecodeRaw` | payload/jsonscan.go:306-318 | a well-formed character that is no backslash stands for itself |
| `Escapes.DecodeBroken` | payload/jsonscan.go:306-318 | a byte at which no character begins decodes to EF BF BD |
| `Escapes.EncodedReads` | payload/jsonscan.go:306-318 | the UTF-8 of a character is one well-formed sequence whose bits read as its code point |
| `Escapes.RunesAreScalars` | payload/jsonscan.go:306-318 | well-formed sequences are those of scalar values in their shortest form, surrogates excluded |
| `Escapes.Utf8Unique` | payload/jsonscan.go:306-318 | a character has one well-formed sequence |
| `Escapes.ValueDecodes` | payload/jsonscan.go:306-318 | the value of every scanned string is what the bytes between its quotes decode to |
| `Escapes.ValueOfEscape` | payload/jsonscan.go:306-318 | a scanned string that begins with an escaped character has a value that begins with the UTF-8 of that character |
| `JsonStrings.EncodeDecode` | payload/jsonscan.go:631-690 | an encoded value decodes to the value with invalid UTF-8 replaced |
| `JsonStrings.EncodeValid` | payload/jsonscan.go:631-690 | whatever is encoded, the encoding is well-formed UTF-8 |
| `JsonStrings.EncodeScanRoundTrip` | payload/jsonscan.go:626-690 | scanning an encoded value consumes exactly the encoding and gives the value back, exactly when it was valid UTF-8 |
| `JsonStrings.EncodeString` | payload/jsonscan.go:631-690 | the loop over runes computes that encoding |
| `Splicing.SubstituteExact` | payload/jsonscan.go:473-557 | exchanging string bodies in a tree changes those bodies only, and can be undone |
| `Splicing.SubstituteWellFormed` | payload/jsonscan.go:473-557 | the tree stays well formed when the new bodies are strings of the grammar |
| `Splicing.SpliceJoin` | payload/jsonscan.go:562-605 | splicing is local: two adjacent stretches are spliced independently |
| `Splicing.SpliceValue` | payload/jsonscan.go:562-605 | splicing the string spans of a text gives the text of the tree with those bodies exchanged |
| `Splicing.IndexDescribes` | payload/jsonscan.go:259-275 | the index lists the string values of the tree in order with their spans |
| `Splicing.PickSplice` | payload/jsonscan.go:527-556 | splicing only the changed strings equals splicing all of them |
| `Payload.Normalized` | payload/payload.go:255-294 | accepted exactly when no limit is negative or above its maximum; zero selects the default, anything else stays |
| `Payload.Document.Scan` | payload/payload.go:380-414 | a document is the exact index of its body under its effective limits; accepted exactly when text, size and limits allow |
| `Payload.Document.ScanObject` | payload/payload.go:417-426 | accepted exactly when, besides, the root is an object |
| `Payload.Document.MaterializePath` | payload/payload.go:602-612 | the arena reference is read back as the path from the root |
| `Payload.Document.PathEqual` | payload/payload.go:614-623 | compares a path with an arena reference without materialising it |
| `Payload.Document.StringTokenAt` | payload/payload.go:528-533 | the token of an ordinal carries exactly the index entry and its path |
| `Payload.Document.CanonicalToken` | payload/payload.go:625-636 | accepts exactly the unaltered tokens of this document |
| `Payload.SpliceEdits` | payload/jsonscan.go:562-605 | computes the splice with the size announced beforehand, or names the overlap or overflow |
| `Payload.Document.CheckOverlap` | payload/jsonscan.go:506-526 | refuses exactly when one string was selected twice |
| `Payload.Document.BuildEdits` | payload/jsonscan.go:527-548 | keeps only replacements that change a value and totals their encodings exactly |
| `Payload.Document.Replace` | payload/jsonscan.go:473-557 | accepts exactly the described lists; the output copies every byte outside the changed strings; changed exactly when some value differs |
| `ReplaceLaws.ReplaceGivesText` | payload/jsonscan.go:473-557 | the output is again one JSON text with the same surrounding whitespace, reading back as the tree with exchanged bodies |
| `ReplaceLaws.ReplaceKeepsShape` | payload/jsonscan.go:473-557 | only string bodies were exchanged; putting the old ones back gives the old tree |
| `ReplaceLaws.ReplaceKeepsMeaning` | payload/jsonscan.go:473-557 | scanned again, each selected string has the requested value coerced to UTF-8 and every other string its old value |
| `ReplaceLaws.ListMeaning` | payload/jsonscan.go:473-557 | the same by the list: every string in it has its requested value coerced to UTF-8, every other its old value |
| `ReplaceLaws.ChangedExactly` | payload/jsonscan.go:527-541 | the text changes exactly when some requested value differs from its token |
| `ReplaceLaws.ReplaceOrderIrrelevant` | payload/jsonscan.go:490-527 | permuting the list changes neither acceptance nor bytes; repeating a token is always refused |
| `Tree.NodeFacts` | walker/tree.go:151-254 | the tree of a value holds exactly the strings the scanner indexed for it, each once, each matching its entry |
| `Tree.TreeParser.Value` | walker/tree.go:151-254 | reading the tokens of a value stays in step with the scanner: same node, same arena, same index position, exact charge; refused only when that charge passes the limit; a mismatch is unreachable |
| `Tree.TreeParser.ItemList` | walker/tree.go:165-224 | the same for members and elements up to the closing delimiter |
| `Tree.TreeParser.ReadItem` | walker/tree.go:165-224 | one member or element with its path and slot, charged exactly |
| `Tree.TreeParser.AppendPath` | walker/tree.go:256-277 | adds one path node with its depth, charging growth and key bytes first; refused exactly past the limit |
| `Tree.TreeParser.ReserveItem` | walker/tree.go:279-305 | charges the growth of a member or element slice before it happens; refused exactly past the limit |
| `Tree.NextTreeCapacity` | walker/tree.go:307-315 | capacities start at 16 and double until they suffice |
| `Tree.TreeBudget.Retain` | walker/tree.go:108-114 | charges exactly within the limit, or refuses and changes nothing |
| `Tree.Clone` | walker/tree.go:66-76 | a path read off the tree arena is the path the scanner materialises for the same string |
| `Tree.DepthIsLength` | walker/tree.go:256-277 | stored depths are path lengths |
| `Tree.ParseTree` | walker/tree.go:125-149 | on a scanned document the second parse uses up the whole index and reports no mismatch; without cancellation it succeeds exactly when scanner and tree together fit the structural limit |
| `Spellings.Spelled` | walker/common.go:56-80 | for each of the names the walks look for: a key has it exactly when its bytes are that literal spelling |
| `RawKeys.FieldsAreRaw` | walker/common.go:56-80 | for every object and each of those names: the member found is the first whose key bytes are the literal spelling, and the strings counted are those of all members with those bytes |
| `Collecting.FieldApart` | walker/common.go:56-80 | members with different names share no string |
| `Collecting.Collector.Field` | walker/common.go:56-80 | the only member with a name; an ambiguity exactly when an object has several |
| `Collecting.Collector.Unique` | walker/common.go:106-113 | succeeds exactly when no checked name is there twice |
| `Collecting.Collector.UniqueObjectKeys` | walker/common.go:115-149 | succeeds only when no two members share a key and objects only when two do or it is no object; the index is charged first, exactly |
| `Collecting.Collector.CountUndisposedStrings` | walker/common.go:253-288 | the exact number of strings below a node that no set holds |
| `Collecting.Collector.MarkUnsupportedStrings` | walker/common.go:290-322 | rejects exactly the strings without a disposition |
| `Collecting.Collector.ReserveUnsupported` | walker/common.go:211-239 | charges diagnostic, path, strings and slot before anything is added, exactly, or refuses; a refusal sticks |
| `Collecting.Collector.Unsupported` | walker/common.go:183-190 | rejects exactly the remaining strings below a node and records one shape for exactly its charge, or only sets the sticky error |
| `Collecting.Collector.UnsupportedValue` | walker/common.go:192-209 | the same with quoted request text, charged at two bytes and four per byte quoted |
| `Collecting.Collector.Add` | walker/common.go:355-433 | selects a string without disposition, with its token, context and mutability; a mismatch error only if it had one already, a budget error only after a charge that did not fit |
| `Collecting.Collector.MarkOpaque` | walker/common.go:435-482 | protects every string below a node; a mismatch error only if one was selected or rejected before, a budget error only after a charge that did not fit |
| `Collecting.Collector.MarkFields` | walker/common.go:484-497 | protects exactly the members listed |
| `Collecting.Collector.MarkOpaqueStringField` | walker/common.go:499-521 | protects exactly a string member, or reports its shape |
| `Collecting.Collector.AddStringField` | walker/common.go:523-545 | selects exactly the string of a member, with scope and kind |
| `Collecting.Collector.WalkStringObjectField` | walker/common.go:547-569 | selects exactly the strings of an object member, with their scope |
| `Collecting.Collector.WalkStringValues` | walker/common.go:603-630 | selects exactly the strings below a node, with scope and kind |
| `Collecting.Collector.NullableField` | walker/common.go:632-681 | a member of one kind, required, optional or nullable; a shape or ambiguity error exactly where the object has it |
| `Collecting.Collector.EnsureStringDisposition` | walker/common.go:324-353 | after the sweep every string below the node has a disposition |
| `Collecting.Collector.constructor` | walker/common.go:23-40 | starts with empty, hence disjoint, sets and a paid-up budget |
| `OpenAI.WalkTypedTextBlock` | walker/common.go:745-801 | selects exactly the text or refusal of a content block, protects exactly its controls and media, rejects a block of unknown type, and never meets a mismatch |
| `OpenAI.WalkTypedTextContent` | walker/common.go:727-743 | selects and protects exactly what a string or block list holds |
| `OpenAI.WalkCommonOpaqueContentFields` | walker/common.go:803-832 | protects exactly the media members: strings, and of objects only the known members |
| `OpenAI.WalkCommonCacheBreakpoint` | walker/common.go:834-846 | protects exactly the mode of the cache marker |
| `OpenAI.WalkAnthropicCacheControl` | walker/common.go:853-868 | protects exactly type and ttl of the cache marker |
| `OpenAI.WalkReasoningDetail` | walker/openai.go:302-348 | protects exactly what its reasoning type keeps; selects nothing |
| `OpenAI.WalkReasoningReplay` | walker/openai.go:262-300 | for an assistant exactly the reasoning members are protected; elsewhere every string of them is rejected; selects nothing |
| `OpenAI.WalkFunction` | walker/openai.go:396-413 | selects exactly the encoded arguments and protects exactly the identifiers |
| `OpenAI.WalkToolCall` | walker/openai.go:350-394 | selects the arguments of function calls only; protects exactly identifiers, extra content and cache marker, and the identifiers of the function |
| `OpenAI.WalkFunctionDefinition` | walker/openai.go:101-112 | selects exactly description and parameter strings, protects exactly the name |
| `OpenAI.WalkTool` | walker/openai.go:51-82 | selects and protects the definition of function tools only, besides the type |
| `OpenAI.WalkToolDefinitions` | walker/openai.go:42-99 | both tool lists together |
| `OpenAI.WalkPrediction` | walker/openai.go:114-140 | selects and protects the predicted content of content predictions only, besides the type |
| `OpenAI.WalkMessageHead` | walker/openai.go:142-186 | identifiers, cache marker, annotations and role are protected, exactly; the role decides the scope |
| `OpenAI.WalkContent` | walker/openai.go:188-203 | selects the content when the role is known; a tool answer as possible JSON |
| `OpenAI.WalkRefusal` | walker/openai.go:205-220 | a refusal is selected for an assistant and rejected elsewhere |
| `OpenAI.WalkMessage` | walker/openai.go:142-260 | selects exactly the model input of a message, with scope, kind and mutability, protects exactly its controls, whatever keys repeat elsewhere, and objects exactly to ill-shaped ones |
| `OpenAI.WalkOpenAI` | walker/openai.go:14-40 | on every tree: selects exactly the model input of the request, with scope, kind and mutability, protects exactly its controls, keeps the three sets disjoint; succeeds only on well-shaped requests, objects to shape or ambiguity only in others, and fails otherwise only after a charge that did not fit, or when cancelled |
| `RawKeys.ToolStrings` | walker/openai.go:51-112 | by literal keys: of a function tool the string under "description" is selected as system text, those under "parameters" as JSON of the system, and type and name are protected |
| `RawKeys.MessageStrings` | walker/openai.go:142-220 | by literal keys: of a message with a literal role, the string under "content" is selected in the scope of the role, a tool answer as possible JSON, and an assistant refusal; role and annotations are protected |
| `RawKeys.BlockStrings` | walker/common.go:745-801 | by literal keys: the "text" of a text block in such a message is selected in the same scope |
| `RawKeys.CallStrings` | walker/openai.go:350-413 | by literal keys: the "arguments" of a function call are selected as encoded JSON of tool input, and its name is protected |
| `RawKeys.RoleIs` | walker/common.go:683-696 | a literal role decides the scope of a message |
| `Responses.WalkOutputAnnotations` | walker/responses.go:1098-1151 | true exactly when every annotation names a file; otherwise nothing of the block is selected and all of it is protected or rejected; protects exactly the file names looked at |
| `Responses.WalkOutputText` | walker/responses.go:1060-1086 | selects the text exactly when no annotation and no log probability depends on its positions; otherwise the block is rejected |
| `Responses.WalkOutputContent` | walker/responses.go:1049-1096 | selects exactly the text or refusal the block type allows, protects exactly type and file annotations |
| `Responses.WalkInputContent` | walker/responses.go:994-1029 | selects exactly input text, protects exactly image or file members and the cache marker |
| `Responses.WalkCacheBreakpoint` | walker/responses.go:1031-1047 | protects exactly the mode of the cache marker |
| `Responses.WalkTextBlock` | walker/responses.go:957-983 | selects the text of a plain block, protects exactly its identifiers and cache marker |
| `Responses.WalkAnswer` | walker/responses.go:956-963 | output in an assistant message; in any other message the whole block is rejected |
| `Responses.WalkMessageBlock` | walker/responses.go:935-990 | selects and protects exactly what its type and the message scope allow; rejecting and selecting never collide |
| `Responses.WalkResponsesMessage` | walker/responses.go:904-992 | a message item selects exactly its model input and protects exactly its controls, whatever was done with its other members before |
| `Registry.SortKeepsTargets` | walker/common.go:42-54 | sorting the targets only reorders them |
| `Registry.Finish` | walker/common.go:42-54 | the returned targets select what the walk selected, in order of position; the counts are those of the three sets |
| `Registry.ValidateRootControls` | walker/common.go:870-875 | protects the model name |
| `Registry.FullyDisposed` | walker/common.go:42-54 | without unsupported shapes the skipped strings are the protected ones, and selected plus protected are all |
| `Registry.Conclude` | walker/registry.go:127-142 | after any walk made of collector steps, success returns the targets that were selected and partitions the strings of the document into selected, protected and rejected |
| `Registry.Walk` | walker/registry.go:91-143 | the returned targets are exactly the model input of the request, each with its scope, kind, mutability and key context; the protected strings are exactly its controls, the rest is rejected; a well-shaped request that scans is refused only for its budget, a shape or ambiguity error means it is ill-shaped; no mismatch between scanner, tree, index and walk is ever reported |
| `RawKeys.WalkedTool` | walker/openai.go:101-112 | after a successful walk the string under "description" of a function tool is a returned target, system text, replaced directly; the one under "name" is protected |
| `RawKeys.WalkedMessage` | walker/openai.go:142-260 | after a successful walk the string under "content" of a message is a returned target in the scope of its role, the role is protected, and so are function call arguments targets as encoded JSON of tool input |
| `Registry.TargetsFit` | payload/payload.go:625-636 | any choice of different targets, with any values, is made of valid, non-overlapping tokens; a repeated target is always refused |
| `Spans.HullsAreComponents` | internal/privacyengine/engine.go:283-321 | two accepted spans lie in one collected span exactly when a chain of overlaps links them |
| `Spans.HullsUnique` | internal/privacyengine/engine.go:283-321 | the collected extents depend on the accepted spans alone |
| `Spans.OrderIrrelevant` | internal/privacyengine/engine.go:283-321 | two orders of acceptance give the same extents |
| `Spans.AddedHulls` | internal/privacyengine/engine.go:283-321 | adding a candidate keeps the spans the hulls of everything accepted |
| `Spans.AddedLabelled` | internal/privacyengine/engine.go:287-305 | adding keeps metadata that of an accepted span inside, and a preferred span covered by preferred metadata |
| `Spans.AddedLabel` | internal/privacyengine/engine.go:290-305 | whose metadata a merge carries: the candidate's if preferred or alone, otherwise the first preferred overlapped span's, otherwise the leftmost overlapped span's |
| `PrivacyEngine.SpanCollector.Search` | internal/privacyengine/engine.go:287 | the binary search finds the first span that ends after an offset |
| `PrivacyEngine.SpanCollector.Add` | internal/privacyengine/engine.go:283-321 | in place insertion equals that addition, refused exactly when the cap would be passed; the span that holds the candidate then carries the candidate's metadata if it is preferred or met no span, otherwise those of the first preferred span it met, otherwise those of the leftmost; invalid candidates change nothing |
| `PrivacyEngine.CollectCanonical` | internal/privacyengine/engine.go:283-337 | after any candidates that stay under the cap the spans are the labelled hulls of the valid ones |
| `PrivacyEngine.CollectOrderIrrelevant` | internal/privacyengine/engine.go:283-337 | proposing candidates in another order finds the same extents |
| `PrivacyEngine.BlockingVisible` | redactor.go:505-521 | some finding carries a blocking rule exactly when some accepted candidate does |
| `PrivacyEngine.NormalizeLimits` | internal/privacyengine/budget.go:32-47 | refused exactly when negative; zero becomes the default, so limits are positive |
| `PrivacyEngine.Budget.TakeNode` | internal/privacyengine/budget.go:109-128 | counts one node and its bytes exactly when both fit |
| `PrivacyEngine.Budget.TakeFindings` | internal/privacyengine/budget.go:137-149 | counts findings exactly when they fit |
| `PrivacyEngine.Engine.Detect` | internal/privacyengine/engine.go:165-205 | finds exactly what the detectors propose under the remaining budget; charging the findings cannot fail |
| `PrivacyEngine.Engine.Redact` | internal/privacyengine/engine.go:209-256 | the output is the text with each finding replaced by its remembered placeholder; any failure returns the text untouched |
| `PrivacyEngine.RedactionHides` | internal/privacyengine/engine.go:246-255 | changing bytes inside accepted spans does not change the output |
| `PrivacyEngine.FindingsCovered` | internal/privacyengine/engine.go:246-255 | a finding covers no byte outside the accepted spans |
| `KeyContext.NormalizeIdempotent` | payload/payload.go:492-524 | normalising twice changes nothing more |
| `KeyContext.NormalizeAlike` | payload/payload.go:492-524 | two names have one normal form exactly when they agree byte by byte up to letter case and hyphen for underscore; a lower-case name without hyphens is its own |
| `KeyContext.NormalizeContextKey` | payload/payload.go:492-524 | computes the normal form |
| `KeyContext.NormalizeCredentialFieldKey` | internal/privacyengine/secrets.go:241-273 | the engine's normaliser computes the same normal form |
| `KeyContext.StringKeyContextAt` | payload/payload.go:464-490 | the immediate key and the four nearest named ancestors, normalised |
| `KeyContext.MarkedPath` | payload/payload.go:464-490 | on the raw keys of a path: the bounded view is marked exactly when a propagating credential name is the last key or stands above it with fewer than four named keys in between |
| `KeyContext.CredentialNormalized` | internal/privacyengine/secrets.go:204-227 | normalising a key does not change whether it is a credential name |
| `KeyContext.PropagatingNames` | internal/privacyengine/secrets.go:204-227 | of the credential names, however spelled, exactly ak and sk do not mark what is below them |
| `KeyContext.CredentialFieldApplies` | internal/privacyengine/secrets.go:177-195 | whole-value redaction exactly for structured tool data below a credential name |
| `KeyContext.MergeStringKeyContexts` | redactor.go:427-469 | appends the outer keys to the inner context within four slots |
| `KeyContext.MergeKeepsCredentials` | redactor.go:427-469 | the merged context has a propagating credential name exactly when one of the two had |
| `KeyContext.ChainKeepsCredentials` | redactor.go:427-469 | the same for any chain of nested documents |
| `Placeholders.ItoaInjective` | redactor.go:177-190 | different numbers have different numerals |
| `Placeholders.ItoaReads` | redactor.go:177-190 | the numeral is the decimal one, without leading zeros |
| `Placeholders.NumberedInjective` | redactor.go:177-190 | different numbers give different placeholders of a nonempty base |
| `Placeholders.NumberedForm` | redactor.go:177-190 | the first placeholder of a kind is the base; later numbers stand behind a # inside a closing ] or > |
| `Placeholders.KeyInjective` | redactor.go:148-149 | kind, zero byte and text determine kind and text |
| `Placeholders.RequestRenderer.Render` | redactor.go:145-164 | a known text keeps its placeholder; the n-th different text of a kind gets number n |
| `Placeholders.RequestRenderer.ProducedPlaceholder` | redactor.go:166-175 | true exactly for placeholders this renderer gave out |
| `Placeholders.RequestRenderer.Faithful` | redactor.go:145-164 | texts of one kind share a placeholder exactly when they are equal |
| `Redactor.ContainersAreSeen` | redactor.go:471-474 | among JSON texts exactly objects and arrays look like containers |
| `Redactor.SpacesAreWhite` | redactor.go:471-474 | what is trimmed are exactly the characters with the property White_Space, by code point |
| `Redactor.InspectionBudget.New` | redactor.go:68-96 | charges the request's own document or refuses |
| `Redactor.InspectionBudget.ScanEncodedJson` | redactor.go:98-120 | a nested scan runs under what is left, never under a zero limit; the counters stay exact sums within the request limits |
| `Redactor.Plugin.SanitizeText` | redactor.go:493-533 | a blocked error means a blocking candidate was accepted, and in redact mode a blocking text gets that error unless it is a placeholder given out before, a budget is used up, a placeholder is missing or the call is cancelled; each engine error names its cause; a success keeps such placeholders and replaces every other accepted candidate |
| `Redactor.Plugin.BlockingRule` | redactor.go:505-521 | finds a blocking rule exactly when some finding has one |
| `Redactor.Plugin.SanitizeJsonText` | redactor.go:331-425 | the result is explained string by string at every level: nested JSON is the old document with exactly the results of the changed strings put in; containers nested too deep are refused; recursion ends |
| `Redactor.Plugin.DepthIsBounded` | redactor.go:366-368 | nothing is opened more than four levels inside the document of a target, and only JSON texts are |
| `Redactor.Plugin.SanitizeStrings` | redactor.go:371-417 | each string is sanitised under its own keys merged with those around its document, in order, and the replacements are exactly those of the changed ones |
| `Redactor.Plugin.ChosenFacts` | redactor.go:371-417 | the replacements are exactly the changed strings with their results; an audit has none |
| `Redactor.Plugin.ChosenFit` | redactor.go:371-417 | they are tokens of the document, each at most once |
| `Redactor.Plugin.ExplainedClean` | redactor.go:505-521 | when redaction succeeds no string at any nesting level carried a blocking candidate |
| `Masking.MaskedIsBlind` | internal/privacyengine/engine.go:246-255 | a redacted text is the same whatever bytes the accepted candidates had |
| `Masking.RewrittenValues` | redactor.go:417-425 | the rewritten nested document, read again, holds the result of every string |
| `ReplaceLaws.RewrittenValid` | payload/jsonscan.go:473-605 | a text in well-formed UTF-8 stays so, whatever is put into it |
| `Masking.NestedValid` | redactor.go:371-425 | the result of a nested JSON text is well-formed UTF-8, so the level above holds it as it is |
| `Masking.NothingSurvives` | redactor.go:331-425 | read again at every nesting level, no byte of any accepted candidate is left |
| `Credentials.InnerApplies` | redactor.go:376-384 | a string of a nested document is redacted whole exactly when the outer scope is a tool's and its last key is a credential name, or a propagating one stands near enough on its own path, or marks the outer context; the next document inside is marked if either of the last two holds |
| `Credentials.WholeReplaced` | internal/privacyengine/secrets.go:165-195 | after a successful redaction such a value, unless it is empty, accepted as a placeholder or one given out before, is exactly the secret placeholder of the whole text, whatever else was found in it |
| `Credentials.CredentialsReplaced` | redactor.go:331-425 | so after SanitizeJsonText, at every nesting level, read off the raw keys of the documents: no value below a credential name of tool data is left, and the rewritten document, read again, holds the results |
| `Redactor.Plugin.CleanGrows` | redactor.go:371-417 | what was clean stays clean as the renderer learns more placeholders |
| `Sanitizer.SanitizeTarget` | redactor.go:272-298 | each mutability is inspected in its own way, and the result is explained that way |
| `Sanitizer.SanitizeTargets` | redactor.go:236-253 | every target is sanitised in turn, and the replacements are exactly those of the changed targets with their results |
| `Sanitizer.StepFacts` | redactor.go:272-298 | a sanitised target is unchanged when it says so, and in redact mode clean and blind to its candidates |
| `Sanitizer.SanitizeRequest` | redactor.go:196-270 | on success every target was sanitised in turn and the body is the old one with exactly the results of the changed targets put in, every other string being protected; on failure nothing changes, and each error names its cause: the walk's, an unsupported shape, invalid engine limits, a target's, a list past the limits, or cancellation |
| `Sanitizer.RequestMeaning` | redactor.go:236-270 | the new body, read again: every target holds the result of its step, every other string its old value |
| `Sanitizer.RequestHides` | redactor.go:236-270 | no inspected string carries a blocking candidate, and no byte of an accepted candidate is left at any nesting level |
| `Sanitizer.RequestShields` | redactor.go:236-298 | after SanitizeRequest no tool value below a credential name is left, in structured tool data or in any document nested in tool text, by the raw keys on the paths |
| `RequestCache.DropIsExact` | request_cache.go:395-411 | with accesses in order, dropping the expired suffix drops exactly the expired entries |
| `RequestCache.DropByAge` | request_cache.go:391-411 | what is dropped is at least as old as the ttl, the last of what stays is younger |
| `RequestCache.ReuseByAge` | request_cache.go:264-279 | a state is reused exactly when an entry of the request and context is younger than the ttl, and it is that entry's, whatever the order of accesses |
| `RequestCache.AcquiredByAge` | request_cache.go:258-298 | with accesses in order, no entry as old as the ttl outlasts an acquire |
| `RequestCache.AcquiredShape` | request_cache.go:264-298 | the acquired request stands at the front and only the least recent entry can be pushed out |
| `RequestCache.AcquiredOrder` | request_cache.go:264-298 | while clock readings do not go back, accesses stay in order and none is later than the reading |
| `RequestCache.RequestScanCache.Acquire` | request_cache.go:247-301 | map and list follow one abstract recency list and counters are conserved; a state that is not fresh is that of an entry of the request with now - lastAccess < ttl (or no ttl), and every such entry of the same context is returned; in any run whose clock readings do not go back exactly the expired entries are dropped and no entry as old as the ttl stays |
| `RequestCache.RequestScanCache.Complete` | request_cache.go:305-318 | forgets exactly that request |
| `RequestCache.RequestScanCache.Prune` | request_cache.go:322-335 | removes only entries with now - lastAccess >= ttl, from the back; in any run whose clock readings do not go back exactly the entries with now - lastAccess < ttl stay, in order |
| `RequestCache.RequestScanCache.Clear` | request_cache.go:339-349 | forgets everything and keeps the counters |
| `RequestCache.RequestScanCache.PruneExpired` | request_cache.go:398-411 | the loop from the back computes that suffix |
| `RequestCache.RequestScanCache.Remove` | request_cache.go:413-419 | removal keeps map and list in agreement |
| `RequestCache.ScanState.Record` | request_cache.go:137-156 | keeps the output's fingerprint, the input's when nothing changed |
| `Interceptor.RequestInterceptor.Enter` | interceptor.go:69-77 | the first step acquires a state of the request under its revision, format and model: that of the entry of that context younger than the ttl, or a fresh one |
| `Interceptor.RequestInterceptor.Ask` | interceptor.go:78-80 | a body is skipped exactly when it is what the latest scan recorded into the acquired state left; and then it is what the latest successful scan of the request under its context left, if and only if that scan went into the same state or left the same in another; while the cache holds the state it is what the latest retained scan left, and the latest of all is another only if no longer retained |
| `Interceptor.SeenPromise` | request_cache.go:112-156 | that account of a skipped body follows from what every step keeps |
| `Interceptor.RequestInterceptor.Finish` | interceptor.go:85-93 | a successful scan, however late, records only what its own request and context produced; the log says which state it went into and whether the cache still held that state |
| `Interceptor.RequestInterceptor.Complete` | request_cache.go:305-318 | a completion drops the state of exactly that request; no call of it under way has its state in the cache any more |
| `Interceptor.RequestInterceptor.Overtaken` | interceptor.go:69-93 | both ways occur, this is the first: whenever a call under way has lost its state, the run may go on so that a body is skipped by a call whose state the cache holds, although the latest successful scan left another |
| `Interceptor.LateSuccess` | interceptor.go:69-93 | the shortest such run: completed while scanned, scanned again, and then the first scan succeeds |
| `Interceptor.AskedLate` | interceptor.go:69-93 | the second way: completed between the two steps of a call and scanned afresh; the call is skipped on the state it still has, no scan was late, and the latest scan and the latest retained one both left something else |
| `Lifecycle.StepKeeps` | abi.go:199-456 | every step, registration in its two locked sections included, keeps the counters exact and every finished wait true |
| `Lifecycle.ClosedDoor` | abi.go:458-482 | while the door is closed no in-flight counter grows |
| `Lifecycle.ClosedRun` | abi.go:458-482 | the same over any run without register or init |
| `Lifecycle.SlotsBounded` | abi.go:266-299 | in every interleaving at most four slots are held, each by a counted native call |
| `Lifecycle.QuiesceOutlived` | abi.go:309-330 | in every interleaving, when a quiesce returns or a shutdown clears the cache, every call in flight was let in after a register or init had opened the door again |
| `Lifecycle.QuiesceIsSafe` | abi.go:309-330 | in every interleaving, when a quiesce returns or a shutdown clears the cache, no call is in flight unless register or init came in between |
| `Lifecycle.QuiesceOvertaken` | abi.go:449-456 | that exception is real: a register during the wait lets a quiesce return with a call in flight |

## Left out

- Machine integers: sizes are mathematical integers, apart from the overflow guards of the splice and of quoted diagnostics; the hard maxima keep the rest in range.
- Capacities of Go slices beyond the doubling rule, and copying of backing arrays: slices are sequences.
- `json.Unmarshal` of one string and `json.Decoder` are library code: the first is modelled as the decoder of section 7 of RFC 8259 with U+FFFD for invalid UTF-8 and lone surrogates, the second as the token sequence of the syntax tree.
- Regular expressions, PII heuristics, entropy thresholds and rule files: detectors are arbitrary functions that propose spans.
- The machine-learning second opinion is an arbitrary answer; only that it runs on clean text and may replace it whole is modelled.
- The remaining walks (Claude, Gemini, Interactions, and the other arms of the responses walk) are further instances of the same collector steps; the registry therefore resolves one format only.
- Object members and array elements of the tree share one item type with an empty key for elements; member names are compared through an enumeration of the names the walks use, which `Spellings.Spelled` ties to their bytes.
- Wording of shape and ambiguity errors, and paths in diagnostics: errors keep their class, unsupported shapes keep arena reference and detail.
- Collecting.Collector.Paid: bounds the charges of the three sets and two lists from below by what they hold, because failed reservations and diagnostics leave further charges behind.
- Scanner.ScanJson: on a text outside the grammar it is not stated which limit an error may name; the same holds of the readers it calls.
- Registry.Walk: what a walk charges has no closed form here, so when the budget refuses a request is stated by the refused charge, not by a condition on the request.
- The zero value of the engine budget, the substitution log, failure classification and HTTP answers, configuration parsing, and the C interface.
- Locks, goroutine scheduling and real clocks: steps are atomic and clock readings are integers; exact pruning is stated for readings that do not go back.
- The list nodes of the cache are the entries themselves; aliasing between the map's entry and the list's is expressed as equality.
- The renderer slot of a scan state: the request pipeline takes its renderer as a parameter.
