/** Sanitising one string: plain text through the engine, encoded JSON through a nested
    scan that shares one cumulative budget with the whole request. */
module Redactor {
  import opened ByteStrings
  import opened Utf8
  import Escapes
  import opened JsonGrammar
  import opened JsonIndex
  import opened Payload
  import opened KeyContext
  import opened Placeholders
  import opened PrivacyEngine
  import opened Spans
  import opened Splicing

  const MAX_ENCODED_JSON_NESTING := 4

  // ----- what looks like an encoded container -----------------------------

  /** Length of the Unicode white space at `i`, or 0. */
  function SpaceRune(b: Bytes, i: nat): (n: nat)
    requires i < |b|
    ensures i + n <= |b|
  {
    var c := b[i];
    if c == 0x20 || 0x09 <= c <= 0x0D then 1
    else if i + 1 < |b| && c == 0xC2 && (b[i + 1] == 0x85 || b[i + 1] == 0xA0) then 2
    else if i + 2 >= |b| then 0
    else if c == 0xE1 && b[i + 1] == 0x9A && b[i + 2] == 0x80 then 3
    else if c == 0xE2 && b[i + 1] == 0x80
            && (0x80 <= b[i + 2] <= 0x8A || b[i + 2] == 0xA8 || b[i + 2] == 0xA9 || b[i + 2] == 0xAF) then 3
    else if c == 0xE2 && b[i + 1] == 0x81 && b[i + 2] == 0x9F then 3
    else if c == 0xE3 && b[i + 1] == 0x80 && b[i + 2] == 0x80 then 3
    else 0
  }

  /** The characters with the property White_Space. */
  predicate IsWhiteSpace(c: int) {
    0x09 <= c <= 0x0D || c == 0x20 || c == 0x85 || c == 0xA0 || c == 0x1680 || 0x2000 <= c <= 0x200A || c == 0x2028 || c == 0x2029
    || c == 0x202F || c == 0x205F || c == 0x3000
  }

  /** White space by code point: a character counts exactly when it has the property. */
  lemma SpacesAreWhite(b: Bytes, i: nat)
    requires i < |b|
    ensures RuneLen(b[i..]) == 0 ==> SpaceRune(b, i) == 0
    ensures RuneLen(b[i..]) != 0 ==> SpaceRune(b, i) == if IsWhiteSpace(Escapes.CodePoint(b[i..])) then RuneLen(b[i..]) else 0
  {
    var x := b[i..];
    assert x[0] == b[i] && (|x| > 1 ==> x[1] == b[i + 1]) && (|x| > 2 ==> x[2] == b[i + 2]);
    if RuneLen(x) == 3 {
      WhiteOfThree(b, i);
    }
  }

  lemma WhiteOfThree(b: Bytes, i: nat)
    requires i < |b| && RuneLen(b[i..]) == 3
    ensures SpaceRune(b, i) == if IsWhiteSpace(Escapes.CodePoint(b[i..])) then 3 else 0
  {
    var x := b[i..];
    assert x[0] == b[i] && x[1] == b[i + 1] && x[2] == b[i + 2];
    var l, m, n := x[0] as int % 16, x[1] as int % 64, x[2] as int % 64;
    assert x[0] as int == 0xE0 + l && x[1] as int == 0x80 + m && x[2] as int == 0x80 + n;
    assert Escapes.CodePoint(x) == l * 4096 + m * 64 + n;
    hide RuneLen;
  }

  /** First byte from `i` on that starts no white space. */
  function Trimmed(b: Bytes, i: nat): (j: nat)
    requires i <= |b|
    ensures i <= j <= |b|
    decreases |b| - i
  {
    if i == |b| || SpaceRune(b, i) == 0 then i else Trimmed(b, i + SpaceRune(b, i))
  }

  predicate LooksLikeEncodedJsonContainer(text: Bytes) {
    var i := Trimmed(text, 0);
    i < |text| && (text[i] == LBRACE || text[i] == LBRACKET)
  }

  lemma {:induction false} TrimmedSpaces(b: Bytes, i: nat)
    requires i <= |b|
    ensures SpaceEnd(b, i) < |b| && b[SpaceEnd(b, i)] < 0x80 && b[SpaceEnd(b, i)] > 0x20 ==> Trimmed(b, i) == SpaceEnd(b, i)
    decreases |b| - i
  {
    if i < |b| && IsSpace(b[i]) {
      TrimmedSpaces(b, i + 1);
    }
  }

  /** Among JSON texts exactly the objects and arrays look like containers, so a container
      is never inspected as plain text. */
  lemma ContainersAreSeen(text: Bytes)
    requires ParseText(text).Some?
    ensures LooksLikeEncodedJsonContainer(text) <==> ParseText(text).value.tree.Container?
  {
    var start := SpaceEnd(text, 0);
    var tree := ParseText(text).value.tree;
    TextSound(text);
    ParseSound(text, start);
    OpensContainer(tree);
    AtByte(text, start, ParseText(text).value.end, ValueBytes(tree));
    TrimmedSpaces(text, 0);
  }

  lemma OpensContainer(v: Value)
    requires WellFormed(v)
    ensures ValueBytes(v) != [] && 0x20 < ValueBytes(v)[0] < 0x80
    ensures v.Container? <==> ValueBytes(v)[0] == LBRACE || ValueBytes(v)[0] == LBRACKET
  {
  }

  // ----- the shared inspection budget -------------------------------------

  datatype SanitizeError =
    | EngineFailure(engine: EngineError)
    | Blocked(rule: string)
    | PayloadFailure(failure: Failure)
    | UnsupportedShape(failure: Failure)
    | InternalError

  function NodeSum(scanned: seq<Document>): nat {
    if scanned == [] then 0 else NodeSum(scanned[..|scanned| - 1]) + scanned[|scanned| - 1].nodeCount
  }

  function ByteSum(scanned: seq<Document>): nat {
    if scanned == [] then 0 else ByteSum(scanned[..|scanned| - 1]) + scanned[|scanned| - 1].structuralBytes
  }

  class InspectionBudget {
    const engine: Budget
    const limits: Limits
    const initialNodes: nat
    const initialBytes: nat
    var jsonNodes: nat
    var structuralBytes: nat
    var mlFlagged: nat
    /** Every nested document scanned on this request's account. */
    ghost var scanned: seq<Document>

    /** The two counters are exact sums over the scanned documents and within the limits. */
    ghost predicate Valid()
      reads this, engine
    {
      engine.Valid() && Bounded(limits)
      && jsonNodes == initialNodes + NodeSum(scanned) && jsonNodes <= limits.nodes
      && structuralBytes == initialBytes + ByteSum(scanned) && structuralBytes <= limits.structuralBytes
      && forall i :: 0 <= i < |scanned| ==> scanned[i].Valid()
    }

    constructor (engine: Budget, limits: Limits, initialNodes: nat, initialBytes: nat)
      requires engine.Valid() && Bounded(limits)
      requires initialNodes <= limits.nodes && initialBytes <= limits.structuralBytes
      ensures Valid() && scanned == [] && this.engine == engine && this.limits == limits && mlFlagged == 0
      ensures jsonNodes == initialNodes && structuralBytes == initialBytes
    {
      this.engine, this.limits, this.initialNodes, this.initialBytes := engine, limits, initialNodes, initialBytes;
      jsonNodes, structuralBytes, mlFlagged, scanned := initialNodes, initialBytes, 0, [];
    }

    /** Charges the counts of the request's own document, or refuses. */
    static method New(engine: Budget, options: LimitOptions, initialNodes: int, initialBytes: int)
      returns (b: InspectionBudget?, error: Option<SanitizeError>)
      requires engine.Valid()
      ensures b != null <==> error.None?
      ensures b != null ==> fresh(b) && b.Valid() && b.engine == engine && Normalized(options) == Some(b.limits) && b.scanned == []
      ensures b != null <==>
                Normalized(options).Some? && 0 <= initialNodes <= Normalized(options).value.nodes
                && 0 <= initialBytes <= Normalized(options).value.structuralBytes
    {
      var normalized := Normalized(options);
      if normalized.None? {
        return null, Some(PayloadFailure(InvalidLimits));
      }
      if initialNodes < 0 || initialBytes < 0 {
        return null, Some(InternalError);
      }
      if initialNodes > normalized.value.nodes {
        return null, Some(PayloadFailure(ScanFailed(NodeLimit)));
      }
      if initialBytes > normalized.value.structuralBytes {
        return null, Some(PayloadFailure(ScanFailed(StructuralLimit)));
      }
      b := new InspectionBudget(engine, normalized.value, initialNodes, initialBytes);
      error := None;
    }

    /** The limits a nested scan gets: what the request has left. */
    function Remaining(): Limits
      reads this
      requires jsonNodes <= limits.nodes && structuralBytes <= limits.structuralBytes
    {
      limits.(nodes := limits.nodes - jsonNodes, structuralBytes := limits.structuralBytes - structuralBytes)
    }

    /** Scans a nested text; a used-up budget is refused here and never read as "default". */
    method ScanEncodedJson(text: Bytes, cancellable: bool) returns (doc: Document?, error: Option<Failure>)
      requires Valid()
      modifies this
      ensures Valid() && mlFlagged == old(mlFlagged)
      ensures doc != null <==> error.None?
      ensures doc != null ==>
                doc.Valid() && doc.body == text && doc.limits == old(Remaining()) && scanned == old(scanned) + [doc]
      ensures doc == null ==> scanned == old(scanned)
      ensures !cancellable ==>
                (doc != null <==>
                   Bounded(old(Remaining())) && |text| <= limits.bodyBytes && ParseText(text).Some?
                   && Fits(IndexText(text).value, old(Remaining())))
      ensures error == Some(ScanFailed(JsonIndex.Invalid)) ==> ParseText(text).None?
    {
      hide ParseText, Fits, IndexText, NodeSum, ByteSum, SpaceEnd, Arena, Refs, Document.Valid;
      var remainingNodes := limits.nodes - jsonNodes;
      if remainingNodes <= 0 {
        return null, Some(ScanFailed(NodeLimit));
      }
      var remainingStructural := limits.structuralBytes - structuralBytes;
      if remainingStructural <= 0 {
        return null, Some(ScanFailed(StructuralLimit));
      }
      var scanLimits := limits.(nodes := remainingNodes, structuralBytes := remainingStructural);
      assert Normalized(AsOptions(scanLimits)) == Some(scanLimits);
      doc, error := Document.Scan(text, AsOptions(scanLimits), cancellable);
      if error.Some? {
        return null, error;
      }
      ScannedFits(doc);
      SumMore(scanned, doc);
      jsonNodes := jsonNodes + doc.nodeCount;
      structuralBytes := structuralBytes + doc.structuralBytes;
      scanned := scanned + [doc];
    }
  }

  lemma SumMore(scanned: seq<Document>, doc: Document)
    ensures NodeSum(scanned + [doc]) == NodeSum(scanned) + doc.nodeCount
    ensures ByteSum(scanned + [doc]) == ByteSum(scanned) + doc.structuralBytes
  {
    assert (scanned + [doc])[..|scanned|] == scanned;
  }

  lemma ScannedFits(doc: Document)
    requires doc.Valid()
    ensures doc.nodeCount <= doc.limits.nodes && doc.structuralBytes <= doc.limits.structuralBytes
  {
  }

  // ----- one string -------------------------------------------------------

  datatype Mode = Redacting | Audit

  datatype Sanitized = Sanitized(out: Bytes, findings: nat, changed: bool, error: Option<SanitizeError>)

  type Seen = map<Bytes, Bytes>

  /** How one string was sanitised: its result, and the placeholders remembered before and
      after. A nested document was sanitised string by string, in order. */
  datatype Trace =
    | Plain(out: Bytes, changed: bool, before: Seen, after: Seen, spans: seq<Span>)
    | Json(out: Bytes, changed: bool, before: Seen, after: Seen, doc: Document, steps: seq<Trace>)

  /** The trace belongs to this result. */
  ghost predicate Reports(tr: Trace, r: Sanitized, before: Seen, after: Seen) {
    tr.out == r.out && tr.changed == r.changed && tr.before == before && tr.after == after
  }

  /** Each step starts with the placeholders its predecessor left. */
  ghost predicate Consecutive(before: Seen, steps: seq<Trace>, after: Seen) {
    if steps == [] then before == after
    else
      var n := |steps| - 1;
      steps[n].after == after && Consecutive(before, steps[..n], steps[n].before)
  }

  lemma ChainSnoc(before: Seen, steps: seq<Trace>, tr: Trace)
    requires Consecutive(before, steps, tr.before)
    ensures Consecutive(before, steps + [tr], tr.after)
  {
    assert (steps + [tr])[..|steps|] == steps;
  }

  ghost function TokenOf(d: Document, k: nat): StringToken
    requires Arena(d.paths) && Refs(d.paths, d.strings) && k < |d.strings|
  {
    var e := d.strings[k];
    StringToken(e.value, e.start, e.end, PathOf(d.paths, e.pathRef), e.parentKind, e.depth, d, k)
  }

  ghost function AllTokens(d: Document): seq<StringToken>
    requires Arena(d.paths) && Refs(d.paths, d.strings)
  {
    seq(|d.strings|, k requires 0 <= k < |d.strings| => TokenOf(d, k))
  }

  /** Tokens of the document, no two of the same string. */
  ghost predicate TokensOf(d: Document, tokens: seq<StringToken>)
    requires Arena(d.paths) && Refs(d.paths, d.strings)
  {
    (forall i :: 0 <= i < |tokens| ==> d.Owns(tokens[i]))
    && forall i, j :: 0 <= i < j < |tokens| ==> tokens[i].ordinal != tokens[j].ordinal
  }

  lemma AllTokensFit(d: Document)
    requires Arena(d.paths) && Refs(d.paths, d.strings)
    ensures TokensOf(d, AllTokens(d))
  {
    hide PathOf;
  }

  /** `r` puts in the result of step `k`, which changed its string. */
  ghost predicate Change(tokens: seq<StringToken>, steps: seq<Trace>, k: int, r: Replacement) {
    0 <= k < |steps| <= |tokens| && steps[k].changed && r == Replacement(tokens[k], steps[k].out)
  }

  /** `out` is `text` with the hulls of the candidates replaced by remembered placeholders. */
  ghost predicate Masked(text: Bytes, candidates: seq<Span>, spans: seq<Span>, seen: Seen, out: Bytes) {
    Hulls(candidates, spans) && Renderable(text, spans, seen)
    && Ordered(0, |text|, RenderedEdits(text, spans, seen))
    && out == Splice(text, 0, |text|, RenderedEdits(text, spans, seen))
  }

  /** Not one of the errors that mean the replacement list did not fit its document. */
  predicate Honest(e: SanitizeError) {
    e != InternalError && e != PayloadFailure(InvalidToken) && e != PayloadFailure(OverlappingReplacements)
  }

  predicate Produced(seen: Seen, text: Bytes) {
    exists key :: key in seen && seen[key] == text
  }

  class Plugin {
    const engine: Engine
    const mode: Mode
    const blockRules: set<string>
    const mlEnabled: bool
    const mlEnforce: bool
    const limits: LimitOptions

    constructor (engine: Engine, mode: Mode, blockRules: set<string>, mlEnabled: bool, mlEnforce: bool, limits: LimitOptions)
      ensures this.engine == engine && this.mode == mode && this.blockRules == blockRules && this.limits == limits
      ensures this.mlEnabled == mlEnabled && this.mlEnforce == mlEnforce
    {
      this.engine, this.mode, this.blockRules, this.limits := engine, mode, blockRules, limits;
      this.mlEnabled, this.mlEnforce := mlEnabled, mlEnforce;
    }

    /** The detector spans the collector accepts for this text. */
    function Candidates(text: Bytes, fields: FieldContext): seq<Span>
      requires Slots(fields.fields)
    {
      Proper(engine.Proposed(text, fields), |text|)
    }

    predicate Blocking(text: Bytes, fields: FieldContext)
      requires Slots(fields.fields)
    {
      exists k :: 0 <= k < |Candidates(text, fields)| && Candidates(text, fields)[k].rule in blockRules
    }

    /** The spans are what the collector makes of the proposals under some cap. */
    ghost predicate Collected(text: Bytes, fields: FieldContext, spans: seq<Span>)
      requires Slots(fields.fields)
    {
      exists cap: nat :: engine.Found(text, fields, cap, blockRules) == Some(spans)
    }

    lemma CollectedUnder(text: Bytes, fields: FieldContext, cap: nat, spans: seq<Span>)
      requires Slots(fields.fields) && engine.Found(text, fields, cap, blockRules) == Some(spans)
      ensures Collected(text, fields, spans)
    {
    }

    /** One inspected text: a placeholder of this request is kept, and so is a text nothing was
        found in, unless the second opinion replaces it whole; otherwise every candidate goes. */
    ghost predicate PlainStep(tr: Trace, text: Bytes, fields: FieldContext)
      requires Slots(fields.fields)
    {
      tr.Plain? && Grows(tr.before, tr.after) && (mode == Redacting ==> Quiet(text, fields, tr.before))
      && if Produced(tr.before, text) then !tr.changed && tr.out == text
         else if Candidates(text, fields) != [] then
           tr.changed && Masked(text, Candidates(text, fields), tr.spans, tr.after, tr.out) && Collected(text, fields, tr.spans)
         else if tr.changed then
           mlEnabled && mlEnforce && mode == Redacting && KeyOf(Secret, text) in tr.after && tr.out == tr.after[KeyOf(Secret, text)]
         else tr.out == text
    }

    /** The first blocking rule among the findings. */
    method BlockingRule(findings: seq<Span>) returns (rule: Option<string>)
      ensures rule.None? <==> forall k :: 0 <= k < |findings| ==> findings[k].rule !in blockRules
      ensures rule.Some? ==> rule.value in blockRules && exists k :: 0 <= k < |findings| && findings[k].rule == rule.value
    {
      for i := 0 to |findings|
        invariant forall k :: 0 <= k < i ==> findings[k].rule !in blockRules
      {
        if findings[i].rule in blockRules {
          return Some(findings[i].rule);
        }
      }
      rule := None;
    }

    /** Redacts one plain string; a blocking rule anywhere in it refuses the request. */
    method SanitizeText(text: Bytes, b: InspectionBudget, renderer: RequestRenderer, fields: FieldContext, cancellable: bool)
      returns (r: Sanitized, ghost tr: Trace)
      requires b.Valid() && renderer.Valid() && Slots(fields.fields)
      modifies b`mlFlagged, b.engine, renderer
      ensures b.Valid() && renderer.Valid()
      ensures Grows(old(renderer.seen), renderer.seen)
      ensures r.error.Some? || !r.changed ==> r.out == text
      ensures r.error.Some? ==> !r.changed && (r.error.value.EngineFailure? || r.error.value.Blocked?)
      ensures r.error.Some? && r.error.value.Blocked? ==>
                mode == Redacting && r.error.value.rule in blockRules && Blocking(text, fields)
                && !Produced(old(renderer.seen), text)
      ensures r.error.None? ==> Reports(tr, r, old(renderer.seen), renderer.seen) && PlainStep(tr, text, fields)
      ensures r.error.None? && Candidates(text, fields) == [] && !mlEnabled ==> !r.changed
      ensures r.error.None? && tr.Plain? && tr.spans != [] ==> r.findings == |tr.spans|
      ensures !cancellable && mode == Redacting && Blocking(text, fields) && !Produced(old(renderer.seen), text)
              && old(b.engine.NodeFits(|text|))
              && engine.Found(text, fields, old(b.engine.RemainingFindings()), blockRules).Some?
              && (forall k: Spans.Kind :: k in renderer.base) ==>
                r.error.Some? && r.error.value.Blocked?
      ensures r.error.Some? && r.error.value.EngineFailure? ==>
                (r.error.value.engine == EngineError.Interrupted && cancellable)
                || (r.error.value.engine.LimitError? && !old(b.engine.NodeFits(|text|)))
                || (r.error.value.engine == LimitError(FindingsResource) && !Produced(old(renderer.seen), text)
                    && engine.Found(text, fields, old(b.engine.RemainingFindings()), blockRules).None?)
                || (r.error.value.engine == RendererFailed && !forall k: Spans.Kind :: k in renderer.base)
    {
      hide Hulls, Labelled, Applies, Splice, Ordered, Table, KeyOf, Collect, Proper, ParseText, IndexText, Fits, Bounded,
           NodeSum, ByteSum, SpaceEnd, KindOf, Renderable, Arena, Refs, Collected, Counted, engine.Proposed;
      ghost var before := renderer.seen;
      var preserve := renderer.ProducedPlaceholder(text);
      var result, error := engine.Redact(text, fields, blockRules, preserve, b.engine, renderer, cancellable);
      ghost var spans := result.findings;
      tr := Plain(result.redacted, spans != [], before, renderer.seen, spans);
      if error.Some? {
        return Sanitized(text, 0, false, Some(EngineFailure(error.value))), tr;
      }
      ghost var accepted := if preserve then [] else Candidates(text, fields);
      engine.FoundCanonical(text, fields, old(b.engine.RemainingFindings()), blockRules, preserve, spans, accepted);
      if !preserve {
        CollectedUnder(text, fields, old(b.engine.RemainingFindings()), spans);
      }
      BlockingVisible(accepted, spans, blockRules);
      FoundSome(accepted, spans);
      NothingRendered(text, renderer.seen);
      if mode != Audit {
        var rule := BlockingRule(result.findings);
        if rule.Some? {
          return Sanitized(text, |result.findings|, false, Some(Blocked(rule.value))), tr;
        }
      }
      if |result.findings| == 0 && !preserve && mlEnabled {
        var flagged: bool := *;
        if flagged {
          var replacement := Some([]);
          if mlEnforce && mode != Audit {
            replacement := renderer.Render(Secret, text);
          }
          tr := Plain(text, false, before, renderer.seen, spans);
          if replacement.Some? {
            b.mlFlagged := b.mlFlagged + 1;
            if replacement.value != [] {
              return Sanitized(replacement.value, 1, true, None), Plain(replacement.value, true, before, renderer.seen, spans);
            }
          }
        }
      }
      r := Sanitized(result.redacted, |result.findings|, |result.findings| != 0, None);
    }

    // ----- what a sanitised string guarantees -------------------------------

    /** A placeholder of this request, or free of blocking candidates. */
    predicate Quiet(text: Bytes, fields: FieldContext, seen: Seen)
      requires Slots(fields.fields)
    {
      Produced(seen, text) || !Blocking(text, fields)
    }

    function PlainContext(outer: FieldContext): FieldContext {
      if outer.structured then outer else outer.(structured := false, encoded := false)
    }

    /** The context of string `k` of a nested document. */
    function InnerContext(paths: seq<PathNode>, entry: Entry, outer: FieldContext): (c: FieldContext)
      requires Slots(outer.fields) && Arena(paths) && -1 <= entry.pathRef < |paths|
      ensures Slots(c.fields)
    {
      outer.(fields := Merged(ContextOf(PathOf(paths, entry.pathRef)), outer.fields), structured := true, encoded := true)
    }

    /** No string in `text`, at any nesting level, carries a blocking candidate in the
        context its keys give it there. */
    ghost predicate Clean(text: Bytes, outer: FieldContext, allowPlain: bool, nesting: nat, seen: Seen)
      requires Slots(outer.fields)
      decreases MAX_ENCODED_JSON_NESTING + 1 - nesting, 1
    {
      if Applies(outer) then Quiet(text, outer, seen)
      else if (allowPlain && !LooksLikeEncodedJsonContainer(text)) || ParseText(text).None? then
        allowPlain && Quiet(text, PlainContext(outer), seen)
      else
        nesting <= MAX_ENCODED_JSON_NESTING
        && var st := IndexText(text).value;
        Arena(st.paths) && Refs(st.paths, st.strings)
        && forall k :: 0 <= k < |st.strings| ==> CleanString(st.paths, st.strings[k], outer, nesting, seen)
    }

    ghost predicate CleanString(paths: seq<PathNode>, entry: Entry, outer: FieldContext, nesting: nat, seen: Seen)
      requires Slots(outer.fields) && Arena(paths) && -1 <= entry.pathRef < |paths| && nesting <= MAX_ENCODED_JSON_NESTING
      decreases MAX_ENCODED_JSON_NESTING + 1 - nesting, 0
    {
      var inner := InnerContext(paths, entry, outer);
      if LooksLikeEncodedJsonContainer(entry.value) then Clean(entry.value, inner, true, nesting + 1, seen)
      else Quiet(entry.value, inner, seen)
    }

    ghost predicate Grows(seen: Seen, seen': Seen) {
      forall key :: key in seen ==> key in seen' && seen'[key] == seen[key]
    }

    lemma GrowsSelf(seen: Seen)
      ensures Grows(seen, seen)
    {
    }

    lemma QuietGrows(text: Bytes, fields: FieldContext, seen: Seen, seen': Seen)
      requires Slots(fields.fields) && Grows(seen, seen') && Quiet(text, fields, seen)
      ensures Quiet(text, fields, seen')
    {
      hide Blocking;
      if Produced(seen, text) {
        var key :| key in seen && seen[key] == text;
        assert key in seen' && seen'[key] == text;
      }
    }

    lemma {:induction false} CleanGrows(text: Bytes, outer: FieldContext, allowPlain: bool, nesting: nat,
                                        seen: Seen, seen': Seen)
      requires Slots(outer.fields) && Grows(seen, seen') && Clean(text, outer, allowPlain, nesting, seen)
      ensures Clean(text, outer, allowPlain, nesting, seen')
      decreases MAX_ENCODED_JSON_NESTING + 1 - nesting, 1
    {
      hide Quiet, Applies, ParseText, LooksLikeEncodedJsonContainer, Grows, CleanString;
      if Applies(outer) {
        QuietGrows(text, outer, seen, seen');
      } else if (allowPlain && !LooksLikeEncodedJsonContainer(text)) || ParseText(text).None? {
        QuietGrows(text, PlainContext(outer), seen, seen');
      } else {
        var st := IndexText(text).value;
        forall k | 0 <= k < |st.strings| ensures CleanString(st.paths, st.strings[k], outer, nesting, seen') {
          CleanStringGrows(st.paths, st.strings[k], outer, nesting, seen, seen');
        }
      }
    }

    lemma {:induction false} CleanStringGrows(paths: seq<PathNode>, entry: Entry, outer: FieldContext, nesting: nat,
                                              seen: Seen, seen': Seen)
      requires Slots(outer.fields) && Arena(paths) && -1 <= entry.pathRef < |paths| && nesting <= MAX_ENCODED_JSON_NESTING
      requires Grows(seen, seen') && CleanString(paths, entry, outer, nesting, seen)
      ensures CleanString(paths, entry, outer, nesting, seen')
      decreases MAX_ENCODED_JSON_NESTING + 1 - nesting, 0
    {
      hide Quiet, Clean, Grows, LooksLikeEncodedJsonContainer;
      var inner := InnerContext(paths, entry, outer);
      if LooksLikeEncodedJsonContainer(entry.value) {
        CleanGrows(entry.value, inner, true, nesting + 1, seen, seen');
      } else {
        QuietGrows(entry.value, inner, seen, seen');
      }
    }

    // ----- what becomes of a string ------------------------------------------

    /** `tr` is how `text` is sanitised: as one text, or as the JSON text it holds. */
    ghost predicate Explains(tr: Trace, text: Bytes, outer: FieldContext, allowPlain: bool, nesting: nat)
      requires Slots(outer.fields)
      decreases tr, 1
    {
      if Applies(outer) then PlainStep(tr, text, outer)
      else if (allowPlain && !LooksLikeEncodedJsonContainer(text)) || ParseText(text).None? then
        allowPlain && PlainStep(tr, text, PlainContext(outer))
      else JsonStep(tr, text, outer, nesting)
    }

    /** The document with every changed string put in; a nesting deeper than the limit is never
        explained. An audit changes nothing. */
    ghost predicate JsonStep(tr: Trace, text: Bytes, outer: FieldContext, nesting: nat)
      requires Slots(outer.fields)
      decreases tr, 0
    {
      tr.Json? && nesting <= MAX_ENCODED_JSON_NESTING && tr.doc.Valid() && tr.doc.body == text
      && |tr.steps| == |tr.doc.strings| && Consecutive(tr.before, tr.steps, tr.after)
      && (forall k :: 0 <= k < |tr.steps| ==> StringStep(tr.steps[k], tr.doc.paths, tr.doc.strings[k], outer, nesting))
      && tr.out == tr.doc.Rewritten(Chosen(AllTokens(tr.doc), tr.steps))
      && (tr.changed <==> tr.doc.ChangesOf(Chosen(AllTokens(tr.doc), tr.steps)) != map[])
    }

    /** No container is opened more than four levels inside the document of a target. */
    lemma DepthIsBounded(tr: Trace, text: Bytes, outer: FieldContext, allowPlain: bool, nesting: nat)
      requires Slots(outer.fields) && Explains(tr, text, outer, allowPlain, nesting)
      ensures tr.Json? ==> nesting <= 4 && ParseText(text).Some?
    {
      hide Applies, ParseText, IndexText, LooksLikeEncodedJsonContainer, Masked, Quiet, Grows, Consecutive, StringStep,
           Chosen;
    }

    /** One string of a nested document, under its own keys merged with those around it. */
    ghost predicate StringStep(tr: Trace, paths: seq<PathNode>, entry: Entry, outer: FieldContext, nesting: nat)
      requires Slots(outer.fields) && Arena(paths) && -1 <= entry.pathRef < |paths|
      decreases tr, 2
    {
      var inner := InnerContext(paths, entry, outer);
      if LooksLikeEncodedJsonContainer(entry.value) then Explains(tr, entry.value, inner, true, nesting + 1)
      else PlainStep(tr, entry.value, inner)
    }

    /** The replacements of the strings that changed, in order; an audit replaces nothing. */
    ghost function Chosen(tokens: seq<StringToken>, steps: seq<Trace>): (list: seq<Replacement>)
      requires |steps| <= |tokens|
    {
      if mode == Audit || steps == [] then []
      else
        var n := |steps| - 1;
        Chosen(tokens, steps[..n]) + if steps[n].changed then [Replacement(tokens[n], steps[n].out)] else []
    }

    /** Exactly the strings that changed are replaced, each by the result of its step. */
    lemma {:induction false} ChosenFacts(tokens: seq<StringToken>, steps: seq<Trace>)
      requires |steps| <= |tokens|
      ensures mode == Audit ==> Chosen(tokens, steps) == []
      ensures forall r :: r in Chosen(tokens, steps) ==> exists k :: Change(tokens, steps, k, r)
      ensures mode == Redacting ==> forall k, r :: Change(tokens, steps, k, r) ==> r in Chosen(tokens, steps)
    {
      if mode != Audit && steps != [] {
        var n := |steps| - 1;
        ChosenFacts(tokens, steps[..n]);
        forall r | r in Chosen(tokens, steps) ensures exists k :: Change(tokens, steps, k, r) {
          if r in Chosen(tokens, steps[..n]) {
            var k :| Change(tokens, steps[..n], k, r);
            assert Change(tokens, steps, k, r);
          } else {
            assert Change(tokens, steps, n, r);
          }
        }
        forall k, r | Change(tokens, steps, k, r) ensures r in Chosen(tokens, steps) {
          assert k < n ==> Change(tokens, steps[..n], k, r);
        }
      }
    }

    /** And they are tokens of the document, each at most once. */
    lemma {:induction false} ChosenFit(d: Document, tokens: seq<StringToken>, steps: seq<Trace>)
      requires Arena(d.paths) && Refs(d.paths, d.strings) && TokensOf(d, tokens) && |steps| <= |tokens|
      ensures d.AllOwned(Chosen(tokens, steps)) && Document.DistinctTokens(Chosen(tokens, steps))
    {
      hide PathOf, Document.Owns;
      if mode != Audit && steps != [] {
        var n := |steps| - 1;
        var shorter := Chosen(tokens, steps[..n]);
        ChosenFit(d, tokens, steps[..n]);
        ChosenFacts(tokens, steps[..n]);
        forall i | 0 <= i < |shorter| ensures shorter[i].token.ordinal != tokens[n].ordinal {
          assert shorter[i] in shorter;
          var k :| Change(tokens, steps[..n], k, shorter[i]);
        }
      }
    }

    lemma ChosenSnoc(tokens: seq<StringToken>, steps: seq<Trace>, tr: Trace)
      requires |steps| < |tokens|
      ensures Chosen(tokens, steps + [tr])
              == Chosen(tokens, steps) + if mode != Audit && tr.changed then [Replacement(tokens[|steps|], tr.out)] else []
    {
      assert (steps + [tr])[..|steps|] == steps;
      assert mode == Audit ==> Chosen(tokens, steps) == [];
    }

    lemma ChosenNone(tokens: seq<StringToken>)
      ensures Chosen(tokens, []) == []
    {
    }

    /** Sanitises a string that holds encoded JSON, or plain text when that is allowed.
        Containers nested deeper than the limit are always refused. */
    method SanitizeJsonText(text: Bytes, b: InspectionBudget, renderer: RequestRenderer, outer: FieldContext,
                            allowPlain: bool, nesting: nat, cancellable: bool)
      returns (r: Sanitized, ghost tr: Trace)
      requires b.Valid() && renderer.Valid() && Slots(outer.fields)
      modifies b, b.engine, renderer
      ensures b.Valid() && renderer.Valid()
      ensures old(b.scanned) <= b.scanned
      ensures r.error.Some? || !r.changed ==> r.out == text
      ensures r.error.Some? ==> !r.changed && Honest(r.error.value)
      ensures Grows(old(renderer.seen), renderer.seen)
      ensures r.error.None? ==>
                Reports(tr, r, old(renderer.seen), renderer.seen) && Explains(tr, text, outer, allowPlain, nesting)
      decreases MAX_ENCODED_JSON_NESTING + 1 - nesting, 2
    {
      hide b.Valid, renderer.Valid, Applies, ParseText, IndexText, Fits, Bounded, NodeSum, ByteSum, SpaceEnd, KindOf, Table,
           Hulls, Labelled, Renderable, Ordered, Splice, LooksLikeEncodedJsonContainer, ContextOf, PathOf, PlainStep,
           StringStep, JsonStep, Quiet, Grows, Produced, Blocking, Chosen, Consecutive;
      ghost var before := renderer.seen;
      GrowsSelf(renderer.seen);
      tr := Plain(text, false, before, before, []);
      var whole := CredentialFieldApplies(outer);
      if whole {
        r, tr := SanitizeText(text, b, renderer, outer, cancellable);
        return;
      }
      var plainContext := outer;
      if !outer.structured {
        plainContext := outer.(structured := false, encoded := false);
      }
      if allowPlain && !LooksLikeEncodedJsonContainer(text) {
        r, tr := SanitizeText(text, b, renderer, plainContext, cancellable);
        return;
      }
      var document, failure := b.ScanEncodedJson(text, cancellable);
      if failure.Some? {
        if allowPlain && failure.value == ScanFailed(JsonIndex.Invalid) {
          r, tr := SanitizeText(text, b, renderer, plainContext, cancellable);
          return;
        }
        return Sanitized(text, 0, false, Some(UnsupportedShape(failure.value))), tr;
      }
      if nesting > MAX_ENCODED_JSON_NESTING {
        return Sanitized(text, 0, false, Some(UnsupportedShape(ScanFailed(DepthLimit)))), tr;
      }
      ghost var steps;
      var replacements, findingCount, error;
      replacements, findingCount, error, steps := SanitizeStrings(document, b, renderer, outer, nesting, cancellable);
      if error.Some? {
        return Sanitized(text, 0, false, error), tr;
      }
      var changed;
      r, changed := PutBack(document, replacements, findingCount, cancellable);
      tr := Json(r.out, changed, before, renderer.seen, document, steps);
      Assembled(tr, text, outer, nesting);
    }

    lemma Assembled(tr: Trace, text: Bytes, outer: FieldContext, nesting: nat)
      requires Slots(outer.fields) && tr.Json? && nesting <= MAX_ENCODED_JSON_NESTING
      requires tr.doc.Valid() && tr.doc.body == text && |tr.steps| == |tr.doc.strings|
      requires Consecutive(tr.before, tr.steps, tr.after)
      requires forall k :: 0 <= k < |tr.steps| ==> StringStep(tr.steps[k], tr.doc.paths, tr.doc.strings[k], outer, nesting)
      ensures tr.out == tr.doc.Rewritten(Chosen(AllTokens(tr.doc), tr.steps))
              && (tr.changed <==> tr.doc.ChangesOf(Chosen(AllTokens(tr.doc), tr.steps)) != map[])
              ==> JsonStep(tr, text, outer, nesting)
      ensures ParseText(text).Some?
    {
      hide StringStep, Chosen, Consecutive, ParseText, IndexText, Fits, SpaceEnd;
    }

    /** Puts the replacements into their document. */
    method PutBack(document: Document, list: seq<Replacement>, findingCount: nat, cancellable: bool)
      returns (r: Sanitized, changed: bool)
      requires document.Valid() && document.AllOwned(list) && Document.DistinctTokens(list) && (mode == Audit ==> list == [])
      ensures r.error.Some? || !r.changed ==> r.out == document.body
      ensures r.error.Some? ==> !r.changed && Honest(r.error.value)
      ensures r.error.None? ==>
                r.out == document.Rewritten(list) && r.changed == changed && (changed <==> document.ChangesOf(list) != map[])
    {
      hide ParseText, IndexText, Fits, Bounded, SpaceEnd, KindOf;
      changed := false;
      if mode == Audit || |list| == 0 {
        Unchanged(document);
        assert list == [];
        return Sanitized(document.body, findingCount, false, None), changed;
      }
      var replaced := document.Replace(list, cancellable);
      if replaced.Refused? {
        return Sanitized(document.body, 0, false, Some(PayloadFailure(replaced.error))), changed;
      }
      NothingChanged(document, list);
      changed := replaced.changed;
      r := Sanitized(replaced.out, findingCount, changed, None);
    }

    /** The token loop: every string of the document in order, each under its own context
        merged with that of the string the document came from. */
    method SanitizeStrings(document: Document, b: InspectionBudget, renderer: RequestRenderer, outer: FieldContext,
                           nesting: nat, cancellable: bool)
      returns (replacements: seq<Replacement>, findingCount: nat, error: Option<SanitizeError>, ghost steps: seq<Trace>)
      requires b.Valid() && renderer.Valid() && document.Valid() && Slots(outer.fields)
      requires nesting <= MAX_ENCODED_JSON_NESTING
      modifies b, b.engine, renderer
      ensures b.Valid() && renderer.Valid() && old(b.scanned) <= b.scanned
      ensures Grows(old(renderer.seen), renderer.seen)
      ensures error.None? ==>
                |steps| == |document.strings| && Consecutive(old(renderer.seen), steps, renderer.seen)
                && (forall k :: 0 <= k < |steps| ==> StringStep(steps[k], document.paths, document.strings[k], outer, nesting))
                && replacements == Chosen(AllTokens(document), steps)
      ensures document.AllOwned(replacements) && Document.DistinctTokens(replacements) && (mode == Audit ==> replacements == [])
      ensures error.Some? ==> Honest(error.value)
      decreases MAX_ENCODED_JSON_NESTING + 1 - nesting, 1
    {
      hide b.Valid, renderer.Valid, Applies, ParseText, IndexText, Fits, Bounded, NodeSum, ByteSum, SpaceEnd, KindOf, Table,
           Hulls, Labelled, Renderable, Ordered, Splice, LooksLikeEncodedJsonContainer, ContextOf, PathOf, Merged, InText,
           StringStep, Explains, PlainStep, Grows, Produced, Blocking, Chosen, Consecutive, TokenOf, TokensOf;
      steps := [];
      ghost var first := renderer.seen;
      GrowsSelf(first);
      ChainNone(first);
      ghost var tokens := AllTokens(document);
      AllTokensFit(document);
      ChosenNone(tokens);
      replacements, findingCount := [], 0;
      for index := 0 to |document.strings|
        invariant b.Valid() && renderer.Valid() && old(b.scanned) <= b.scanned && |steps| == index
        invariant replacements == Chosen(AllTokens(document), steps)
        invariant Grows(first, renderer.seen) && Consecutive(first, steps, renderer.seen)
        invariant forall k :: 0 <= k < index ==> StringStep(steps[k], document.paths, document.strings[k], outer, nesting)
      {
        ghost var tr;
        ghost var seen := renderer.seen;
        var token := document.StringTokenAt(index);
        TokenIs(document, token.value, index);
        ChosenFit(document, tokens, steps);
        ChosenFacts(tokens, steps);
        var inner: Sanitized;
        inner, tr := SanitizeString(document, index, token.value.value, b, renderer, outer, nesting, cancellable);
        GrowsChain(first, seen, renderer.seen);
        if inner.error.Some? {
          return replacements, 0, inner.error, steps;
        }
        ChainSnoc(first, steps, tr);
        ChosenSnoc(tokens, steps, tr);
        findingCount := findingCount + inner.findings;
        if inner.changed && mode != Audit {
          replacements := replacements + [Replacement(token.value, inner.out)];
        }
        steps := steps + [tr];
      }
      ChosenFit(document, tokens, steps);
      ChosenFacts(tokens, steps);
      error := None;
    }

    /** One string of the token loop. */
    method SanitizeString(document: Document, index: nat, value: Bytes, b: InspectionBudget, renderer: RequestRenderer,
                          outer: FieldContext, nesting: nat, cancellable: bool)
      returns (inner: Sanitized, ghost tr: Trace)
      requires b.Valid() && renderer.Valid() && document.Valid() && Slots(outer.fields)
      requires nesting <= MAX_ENCODED_JSON_NESTING && index < |document.strings| && value == document.strings[index].value
      modifies b, b.engine, renderer
      ensures b.Valid() && renderer.Valid() && old(b.scanned) <= b.scanned
      ensures Grows(old(renderer.seen), renderer.seen)
      ensures inner.error.None? ==>
                Reports(tr, inner, old(renderer.seen), renderer.seen)
                && StringStep(tr, document.paths, document.strings[index], outer, nesting)
      ensures inner.error.Some? ==> Honest(inner.error.value)
      decreases MAX_ENCODED_JSON_NESTING + 1 - nesting, 0
    {
      hide b.Valid, renderer.Valid, Applies, ParseText, IndexText, Fits, Bounded, SpaceEnd, KindOf,
           LooksLikeEncodedJsonContainer, ContextOf, PathOf, Merged, Explains, PlainStep, Grows, Produced, Blocking;
      var fields := StringKeyContextAt(document, index);
      var merged := MergeStringKeyContexts(fields.value, outer.fields);
      var innerContext := outer.(fields := merged, structured := true, encoded := true);
      if LooksLikeEncodedJsonContainer(value) {
        inner, tr := SanitizeJsonText(value, b, renderer, innerContext, true, nesting + 1, cancellable);
      } else {
        inner, tr := SanitizeText(value, b, renderer, innerContext, cancellable);
      }
    }

    lemma ChainNone(seen: Seen)
      ensures Consecutive(seen, [], seen)
    {
    }

    lemma TokenIs(d: Document, token: StringToken, k: nat)
      requires Arena(d.paths) && Refs(d.paths, d.strings) && d.Owns(token) && token.ordinal == k
      ensures token == TokenOf(d, k) && token.value == d.strings[k].value
    {
    }

    lemma GrowsChain(first: Seen, seen: Seen, seen': Seen)
      requires Grows(first, seen) && Grows(seen, seen')
      ensures Grows(first, seen')
    {
    }

    // ----- what an explained string guarantees -------------------------------

    /** Along a chain of steps nothing remembered is forgotten. */
    lemma {:induction false} ChainGrows(before: Seen, steps: seq<Trace>, after: Seen)
      requires Consecutive(before, steps, after) && forall k :: 0 <= k < |steps| ==> Grows(steps[k].before, steps[k].after)
      ensures Grows(before, after) && forall k :: 0 <= k < |steps| ==> Grows(before, steps[k].before) && Grows(steps[k].after, after)
    {
      hide Grows;
      if steps == [] {
        GrowsSelf(before);
      } else {
        var n := |steps| - 1;
        ChainGrows(before, steps[..n], steps[n].before);
        GrowsChain(before, steps[n].before, after);
        GrowsSelf(after);
        forall k | 0 <= k < n ensures Grows(steps[k].after, after) && Grows(before, steps[k].before) {
          assert steps[..n][k] == steps[k];
          GrowsChain(steps[k].after, steps[n].before, after);
        }
      }
    }

    lemma {:induction false} ExplainedGrows(tr: Trace, text: Bytes, outer: FieldContext, allowPlain: bool, nesting: nat)
      requires Slots(outer.fields) && Explains(tr, text, outer, allowPlain, nesting)
      ensures Grows(tr.before, tr.after)
      decreases tr, 1
    {
      hide Grows, StringStep, Consecutive, Applies, ParseText, LooksLikeEncodedJsonContainer, Quiet, Produced, Masked, Chosen;
      if tr.Json? {
        forall k | 0 <= k < |tr.steps| ensures Grows(tr.steps[k].before, tr.steps[k].after) {
          StepGrows(tr.steps[k], tr.doc.paths, tr.doc.strings[k], outer, nesting);
        }
        ChainGrows(tr.before, tr.steps, tr.after);
      }
    }

    lemma {:induction false} StepGrows(tr: Trace, paths: seq<PathNode>, entry: Entry, outer: FieldContext, nesting: nat)
      requires Slots(outer.fields) && Arena(paths) && -1 <= entry.pathRef < |paths| && StringStep(tr, paths, entry, outer, nesting)
      ensures Grows(tr.before, tr.after)
      decreases tr, 2
    {
      hide Grows, Explains, LooksLikeEncodedJsonContainer, Quiet, Produced, Masked;
      if LooksLikeEncodedJsonContainer(entry.value) {
        ExplainedGrows(tr, entry.value, InnerContext(paths, entry, outer), true, nesting + 1);
      }
    }

    /** When redaction succeeds, nothing blocking was let through at any nesting level. */
    lemma {:induction false} ExplainedClean(tr: Trace, text: Bytes, outer: FieldContext, allowPlain: bool, nesting: nat)
      requires Slots(outer.fields) && Explains(tr, text, outer, allowPlain, nesting) && mode == Redacting
      ensures Clean(text, outer, allowPlain, nesting, tr.after)
      decreases tr, 1
    {
      hide Grows, StringStep, CleanString, Consecutive, Applies, ParseText, LooksLikeEncodedJsonContainer, Quiet, Produced,
           Masked, Chosen;
      if Applies(outer) {
        QuietGrows(text, outer, tr.before, tr.after);
      } else if (allowPlain && !LooksLikeEncodedJsonContainer(text)) || ParseText(text).None? {
        QuietGrows(text, PlainContext(outer), tr.before, tr.after);
      } else {
        var d := tr.doc;
        forall k | 0 <= k < |tr.steps| ensures Grows(tr.steps[k].before, tr.steps[k].after) {
          StepGrows(tr.steps[k], d.paths, d.strings[k], outer, nesting);
        }
        ChainGrows(tr.before, tr.steps, tr.after);
        forall k | 0 <= k < |d.strings| ensures CleanString(d.paths, d.strings[k], outer, nesting, tr.after) {
          StepClean(tr.steps[k], d.paths, d.strings[k], outer, nesting);
          CleanStringGrows(d.paths, d.strings[k], outer, nesting, tr.steps[k].after, tr.after);
        }
      }
    }

    lemma {:induction false} StepClean(tr: Trace, paths: seq<PathNode>, entry: Entry, outer: FieldContext, nesting: nat)
      requires Slots(outer.fields) && Arena(paths) && -1 <= entry.pathRef < |paths| && StringStep(tr, paths, entry, outer, nesting)
      requires mode == Redacting && nesting <= MAX_ENCODED_JSON_NESTING
      ensures CleanString(paths, entry, outer, nesting, tr.after)
      decreases tr, 2
    {
      hide Grows, Explains, Clean, LooksLikeEncodedJsonContainer, Quiet, Produced, Masked;
      var inner := InnerContext(paths, entry, outer);
      if LooksLikeEncodedJsonContainer(entry.value) {
        ExplainedClean(tr, entry.value, inner, true, nesting + 1);
      } else {
        QuietGrows(entry.value, inner, tr.before, tr.after);
      }
    }

    lemma Unchanged(d: Document)
      requires d.Valid()
      ensures d.ChangesOf([]) == map[] && d.Rewritten([]) == d.body
    {
      d.NothingAsked([]);
      d.NoChange([]);
    }

    lemma NothingChanged(d: Document, list: seq<Replacement>)
      requires d.Valid()
      ensures d.ChangesOf(list) == map[] ==> d.Rewritten(list) == d.body
    {
      hide SpaceEnd, ParseText, IndexText, Fits;
      if d.ChangesOf(list) == map[] {
        d.NothingAsked([]);
        d.NoChange(list);
      }
    }

    lemma FoundSome(accepted: seq<Span>, findings: seq<Span>)
      requires Hulls(accepted, findings)
      ensures findings == [] <==> accepted == []
    {
      hide Held, IsHull;
      if accepted != [] {
        assert Held(accepted[0], findings);
        var i := Holder(accepted[0], findings);
      }
      if findings != [] {
        HullsAt(accepted, findings, 0);
        var i, j := HullParts(accepted, findings[0]);
      }
    }

    lemma NothingRendered(text: Bytes, seen: Seen)
      ensures Renderable(text, [], seen) && RenderedEdits(text, [], seen) == []
      ensures Ordered(0, |text|, []) && Splice(text, 0, |text|, []) == text
    {
    }
  }
}
