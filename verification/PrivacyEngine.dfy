/** The detection engine: the span collector over its sorted slice, the cumulative
    budget of one request, detection, and redaction in one pass. */
module PrivacyEngine {
  import opened ByteStrings
  import opened KeyContext
  import opened Placeholders
  import opened Spans
  import opened Splicing

  // ----- the span collector -----------------------------------------------

  class SpanCollector {
    const textLen: nat
    const max: nat
    const preferred: set<string>
    var spans: seq<Span>
    /** Every candidate taken so far, in order. */
    ghost var accepted: seq<Span>

    ghost predicate Valid()
      reads this
    {
      Hulls(accepted, spans) && Labelled(accepted, spans, preferred) && |spans| <= max
      && forall i :: 0 <= i < |accepted| ==> InText(accepted[i], textLen)
    }

    constructor (textLen: nat, maxFindings: int, preferred: set<string>)
      ensures Valid() && spans == [] && accepted == [] && this.textLen == textLen && this.preferred == preferred
      ensures max == if maxFindings < 0 then 0 else maxFindings
    {
      this.textLen, this.preferred := textLen, preferred;
      max := if maxFindings < 0 then 0 else maxFindings;
      spans, accepted := [], [];
    }

    /** Binary search for the first span that ends after `start`. */
    method Search(start: int) returns (i: nat)
      requires Disjoint(spans)
      ensures i == FirstAfter(spans, start)
    {
      i := 0;
      var j := |spans|;
      while i < j
        invariant 0 <= i <= j <= |spans|
        invariant i > 0 ==> spans[i - 1].end <= start
        invariant j < |spans| ==> spans[j].end > start
      {
        var h := (i + j) / 2;
        if spans[h].end > start {
          j := h;
        } else {
          i := h + 1;
        }
      }
    }

    /** Takes a candidate in, merging it with every span it shares a byte with. */
    method Add(candidate: Span) returns (ok: bool)
      requires Valid()
      modifies this
      ensures Valid()
      ensures ok <==> (!InText(candidate, textLen) || |Added(old(spans), candidate, preferred)| <= max)
      ensures ok && InText(candidate, textLen) ==>
                spans == Added(old(spans), candidate, preferred) && accepted == old(accepted) + [candidate]
      ensures ok && InText(candidate, textLen) ==>
                Held(candidate, spans)
                && forall k :: 0 <= k < |spans| && Inside(candidate, spans[k]) ==> RightLabel(old(spans), candidate, preferred, spans[k])
      ensures !ok || !InText(candidate, textLen) ==> spans == old(spans) && accepted == old(accepted)
    {
      hide Labelled, Hulls, FirstAfter, Held, Inside, RightLabel;
      if !InText(candidate, textLen) {
        return true;
      }
      HullsDisjoint(accepted, spans);
      hide Disjoint;
      var i := Search(candidate.start);
      var j := i;
      var merged := candidate;
      var metadataPreferred := merged.rule in preferred;
      while j < |spans| && spans[j].start < merged.end
        invariant i <= j <= |spans|
        invariant MergeOf(spans, candidate, preferred) == Absorb(spans, i, j, merged, metadataPreferred, preferred)
      {
        var existing := spans[j];
        var existingPreferred := existing.rule in preferred;
        if (j == i && !metadataPreferred) || (!metadataPreferred && existingPreferred) {
          merged := merged.(kind := existing.kind, rule := existing.rule);
          metadataPreferred := existingPreferred;
        }
        if existing.start < merged.start {
          merged := merged.(start := existing.start);
        }
        if existing.end > merged.end {
          merged := merged.(end := existing.end);
        }
        j := j + 1;
      }
      var newCount := |spans| + 1 - (j - i);
      if newCount > max {
        return false;
      }
      AddedHulls(accepted, spans, candidate, preferred);
      AddedLabelled(accepted, spans, candidate, preferred);
      AddedLabel(spans, candidate, preferred);
      AddedHolds(accepted, candidate, Added(spans, candidate, preferred));
      if j == i {
        spans := spans[..i] + [merged] + spans[i..];
      } else {
        spans := spans[..i] + [merged] + spans[j..];
      }
      accepted := accepted + [candidate];
      ok := true;
    }
  }

  lemma AddedHolds(accepted: seq<Span>, c: Span, spans: seq<Span>)
    requires Hulls(accepted + [c], spans)
    ensures Held(c, spans)
  {
    hide Held, IsHull;
    assert (accepted + [c])[|accepted|] == c;
  }

  // ----- all proposals of one text ----------------------------------------

  /** The candidates the collector takes in, in order. */
  function Proper(candidates: seq<Span>, textLen: nat): seq<Span> {
    if candidates == [] then []
    else (if InText(candidates[0], textLen) then [candidates[0]] else []) + Proper(candidates[1..], textLen)
  }

  /** The spans after all candidates, or none when the cap was hit on the way. */
  function Collect(spans: seq<Span>, candidates: seq<Span>, textLen: nat, max: nat, preferred: set<string>): Option<seq<Span>>
    decreases |candidates|
  {
    if candidates == [] then Some(spans)
    else if !InText(candidates[0], textLen) then Collect(spans, candidates[1..], textLen, max, preferred)
    else
      var now := Added(spans, candidates[0], preferred);
      if |now| > max then None else Collect(now, candidates[1..], textLen, max, preferred)
  }

  /** What is collected are the hulls of the components of all proper candidates, with
      metadata of a candidate inside each, and no preferred candidate loses its mark. */
  lemma {:induction false} CollectCanonical(accepted: seq<Span>, spans: seq<Span>, candidates: seq<Span>, textLen: nat, max: nat,
                                            preferred: set<string>)
    requires Hulls(accepted, spans) && Labelled(accepted, spans, preferred) && |spans| <= max
    requires Collect(spans, candidates, textLen, max, preferred).Some?
    ensures var found := Collect(spans, candidates, textLen, max, preferred).value;
            var all := accepted + Proper(candidates, textLen);
            Hulls(all, found) && Labelled(all, found, preferred) && |found| <= max
    decreases |candidates|
  {
    hide Hulls, Labelled, Added;
    if candidates == [] {
      assert accepted + Proper(candidates, textLen) == accepted;
    } else {
      var c, rest := candidates[0], candidates[1..];
      if InText(c, textLen) {
        AddedHulls(accepted, spans, c, preferred);
        AddedLabelled(accepted, spans, c, preferred);
        CollectCanonical(accepted + [c], Added(spans, c, preferred), rest, textLen, max, preferred);
        assert (accepted + [c]) + Proper(rest, textLen) == accepted + Proper(candidates, textLen);
      } else {
        assert [] + Proper(rest, textLen) == Proper(rest, textLen);
        CollectCanonical(accepted, spans, rest, textLen, max, preferred);
      }
    }
  }

  lemma {:induction false} CollectJoin(spans: seq<Span>, left: seq<Span>, right: seq<Span>, textLen: nat, max: nat,
                                       preferred: set<string>)
    ensures Collect(spans, left + right, textLen, max, preferred) ==
            match Collect(spans, left, textLen, max, preferred)
            case None => None
            case Some(s) => Collect(s, right, textLen, max, preferred)
    decreases |left|
  {
    hide Added;
    if left == [] {
      assert left + right == right;
    } else {
      assert (left + right)[0] == left[0] && (left + right)[1..] == left[1..] + right;
      CollectJoin(spans, left[1..], right, textLen, max, preferred);
      CollectJoin(Added(spans, left[0], preferred), left[1..], right, textLen, max, preferred);
    }
  }

  lemma {:induction false} ProperIn(candidates: seq<Span>, textLen: nat)
    ensures forall a :: a in Proper(candidates, textLen) <==> a in candidates && InText(a, textLen)
  {
    if candidates != [] {
      ProperIn(candidates[1..], textLen);
      assert forall a :: a in candidates <==> a == candidates[0] || a in candidates[1..];
    }
  }

  /** The extents found do not depend on the order in which candidates are proposed. */
  lemma CollectOrderIrrelevant(candidates: seq<Span>, shuffled: seq<Span>, textLen: nat, max: nat, preferred: set<string>)
    requires forall a :: a in candidates <==> a in shuffled
    requires Collect([], candidates, textLen, max, preferred).Some? && Collect([], shuffled, textLen, max, preferred).Some?
    ensures var s := Collect([], candidates, textLen, max, preferred).value;
            var t := Collect([], shuffled, textLen, max, preferred).value;
            |s| == |t| && forall i :: 0 <= i < |s| ==> SameExtent(s[i], t[i])
  {
    hide Collect, Proper;
    CollectCanonical([], [], candidates, textLen, max, preferred);
    CollectCanonical([], [], shuffled, textLen, max, preferred);
    ProperIn(candidates, textLen);
    ProperIn(shuffled, textLen);
    var a, b := Proper(candidates, textLen), Proper(shuffled, textLen);
    assert [] + a == a && [] + b == b;
    OrderIrrelevant(a, b, Collect([], candidates, textLen, max, preferred).value, Collect([], shuffled, textLen, max, preferred).value);
  }

  /** A blocking rule is never masked: it shows in the findings exactly when some
      accepted candidate carries one. */
  lemma BlockingVisible(accepted: seq<Span>, findings: seq<Span>, blocking: set<string>)
    requires Hulls(accepted, findings) && Labelled(accepted, findings, blocking)
    ensures (exists i :: 0 <= i < |findings| && findings[i].rule in blocking)
            <==> exists k :: 0 <= k < |accepted| && accepted[k].rule in blocking
  {
    hide IsHull, Held, Unmasked, HasSource;
    if exists i :: 0 <= i < |findings| && findings[i].rule in blocking {
      var i :| 0 <= i < |findings| && findings[i].rule in blocking;
      var k := Source(accepted, findings[i]);
      assert accepted[k].rule in blocking;
    }
    if exists k :: 0 <= k < |accepted| && accepted[k].rule in blocking {
      var k :| 0 <= k < |accepted| && accepted[k].rule in blocking;
      var i := Holder(accepted[k], findings);
      UnmaskedHolder(accepted[k], findings, i, blocking);
      assert findings[i].rule in blocking;
    }
  }

  // ----- the request budget -----------------------------------------------

  datatype EngineLimits = EngineLimits(maxBytes: int, maxFindings: int, maxNodes: int)

  const DEFAULT_LIMITS := EngineLimits(0x10_0000, 256, 1024)

  /** Zero selects the default; a negative limit is refused. */
  function NormalizeLimits(limits: EngineLimits): (r: Option<EngineLimits>)
    ensures r.None? <==> limits.maxBytes < 0 || limits.maxFindings < 0 || limits.maxNodes < 0
    ensures r.Some? ==> r.value.maxBytes > 0 && r.value.maxFindings > 0 && r.value.maxNodes > 0
  {
    if limits.maxBytes < 0 || limits.maxFindings < 0 || limits.maxNodes < 0 then None
    else Some(EngineLimits(if limits.maxBytes == 0 then DEFAULT_LIMITS.maxBytes else limits.maxBytes,
                           if limits.maxFindings == 0 then DEFAULT_LIMITS.maxFindings else limits.maxFindings,
                           if limits.maxNodes == 0 then DEFAULT_LIMITS.maxNodes else limits.maxNodes))
  }

  datatype Usage = Usage(bytes: nat, findings: nat, nodes: nat)

  datatype Resource = BytesResource | FindingsResource | NodesResource

  datatype EngineError = LimitError(resource: Resource) | Interrupted | RendererFailed | InternalFailure

  class Budget {
    const limits: EngineLimits
    var usage: Usage

    predicate Valid()
      reads this
    {
      usage.bytes <= limits.maxBytes && usage.findings <= limits.maxFindings && usage.nodes <= limits.maxNodes
    }

    constructor (limits: EngineLimits)
      requires NormalizeLimits(limits).Some?
      ensures Valid() && usage == Usage(0, 0, 0) && this.limits == NormalizeLimits(limits).value
    {
      this.limits := NormalizeLimits(limits).value;
      usage := Usage(0, 0, 0);
    }

    predicate NodeFits(byteCount: nat)
      reads this
    {
      usage.nodes < limits.maxNodes && usage.bytes + byteCount <= limits.maxBytes
    }

    method TakeNode(byteCount: nat) returns (error: Option<EngineError>)
      requires Valid()
      modifies this
      ensures Valid() && (error.None? <==> old(NodeFits(byteCount)))
      ensures error.None? ==> usage == old(usage).(nodes := old(usage).nodes + 1, bytes := old(usage).bytes + byteCount)
      ensures error.Some? ==> usage == old(usage) && error.value.LimitError?
    {
      if usage.nodes >= limits.maxNodes {
        return Some(LimitError(NodesResource));
      }
      if byteCount > limits.maxBytes - usage.bytes {
        return Some(LimitError(BytesResource));
      }
      usage := usage.(nodes := usage.nodes + 1, bytes := usage.bytes + byteCount);
      error := None;
    }

    function RemainingFindings(): int
      reads this
    {
      limits.maxFindings - usage.findings
    }

    method TakeFindings(count: nat) returns (error: Option<EngineError>)
      requires Valid()
      modifies this
      ensures Valid() && (error.None? <==> count <= old(RemainingFindings()))
      ensures error.None? ==> usage == old(usage).(findings := old(usage).findings + count)
      ensures error.Some? ==> usage == old(usage) && error.value.LimitError?
    {
      if count > limits.maxFindings - usage.findings {
        return Some(LimitError(FindingsResource));
      }
      usage := usage.(findings := usage.findings + count);
      error := None;
    }
  }

  // ----- redaction --------------------------------------------------------

  /** The edit of each finding, with the placeholder the renderer remembers for its text. */
  function RenderedEdits(text: Bytes, findings: seq<Span>, seen: map<Bytes, Bytes>): (r: seq<Edit>)
    requires Renderable(text, findings, seen)
    ensures |r| == |findings|
  {
    seq(|findings|, i requires 0 <= i < |findings| =>
      Edit(findings[i].start, findings[i].end, seen[KeyOf(findings[i].kind, text[findings[i].start..findings[i].end])]))
  }

  predicate Renderable(text: Bytes, findings: seq<Span>, seen: map<Bytes, Bytes>) {
    forall i :: 0 <= i < |findings| ==>
                  InText(findings[i], |text|) && KeyOf(findings[i].kind, text[findings[i].start..findings[i].end]) in seen
  }

  /** The edits replace exactly these spans. */
  predicate Aligned(findings: seq<Span>, edits: seq<Edit>) {
    |findings| == |edits|
    && forall i :: 0 <= i < |edits| ==> edits[i].start == findings[i].start && edits[i].end == findings[i].end
  }

  lemma {:induction false} FindingsOrdered(textLen: nat, from: nat, findings: seq<Span>, edits: seq<Edit>)
    requires Disjoint(findings) && Aligned(findings, edits) && from <= textLen
    requires forall i :: 0 <= i < |findings| ==> from <= findings[i].start && findings[i].end <= textLen
    ensures Ordered(from, textLen, edits)
    decreases |edits|
  {
    if edits != [] {
      FindingsOrdered(textLen, edits[0].end, findings[1..], edits[1..]);
    }
  }

  /** Byte `p` lies in some accepted span. */
  ghost predicate Covered(accepted: seq<Span>, p: int) {
    exists i :: 0 <= i < |accepted| && accepted[i].start <= p < accepted[i].end
  }

  lemma {:induction false} SpliceIgnores(text: Bytes, text': Bytes, from: nat, edits: seq<Edit>)
    requires |text| == |text'| && Ordered(from, |text|, edits)
    requires forall p :: from <= p < |text| && text[p] != text'[p] ==>
                           exists i :: 0 <= i < |edits| && edits[i].start <= p < edits[i].end
    ensures Splice(text, from, |text|, edits) == Splice(text', from, |text|, edits)
    decreases |edits|
  {
    OrderedBound(from, |text|, edits);
    if edits == [] {
      assert text[from..] == text'[from..];
    } else {
      var e, rest := edits[0], edits[1..];
      OrderedBound(e.end, |text|, rest);
      assert forall i :: 1 <= i < |edits| ==> edits[i] == rest[i - 1];
      forall p | e.end <= p < |text| && text[p] != text'[p]
        ensures exists i :: 0 <= i < |rest| && rest[i].start <= p < rest[i].end
      {
        var i :| 0 <= i < |edits| && edits[i].start <= p < edits[i].end;
        assert i > 0 && rest[i - 1] == edits[i];
      }
      assert text[from..e.start] == text'[from..e.start];
      SpliceIgnores(text, text', e.end, rest);
    }
  }

  /** No byte of any accepted span reaches the output: change those bytes at will and the
      same placeholders still give the same output. */
  lemma RedactionHides(text: Bytes, text': Bytes, accepted: seq<Span>, findings: seq<Span>, edits: seq<Edit>)
    requires |text| == |text'| && Hulls(accepted, findings) && Aligned(findings, edits)
    requires forall i :: 0 <= i < |accepted| ==> InText(accepted[i], |text|)
    requires forall p :: 0 <= p < |text| && text[p] != text'[p] ==> Covered(accepted, p)
    ensures Ordered(0, |text|, edits)
    ensures Splice(text, 0, |text|, edits) == Splice(text', 0, |text|, edits)
  {
    hide IsHull, Held;
    FindingsInText(accepted, findings, |text|);
    FindingsOrdered(|text|, 0, findings, edits);
    forall p | 0 <= p < |text| && text[p] != text'[p]
      ensures exists i :: 0 <= i < |edits| && edits[i].start <= p < edits[i].end
    {
      var k :| 0 <= k < |accepted| && accepted[k].start <= p < accepted[k].end;
      assert Held(accepted[k], findings);
      var i := Holder(accepted[k], findings);
      assert edits[i].start <= p < edits[i].end;
    }
    SpliceIgnores(text, text', 0, edits);
  }

  lemma FindingsInText(accepted: seq<Span>, findings: seq<Span>, textLen: nat)
    requires Hulls(accepted, findings) && forall i :: 0 <= i < |accepted| ==> InText(accepted[i], textLen)
    ensures forall i :: 0 <= i < |findings| ==> InText(findings[i], textLen)
  {
    hide IsHull, Held;
    forall i | 0 <= i < |findings| ensures InText(findings[i], textLen) {
      HullsAt(accepted, findings, i);
      var a, b := HullParts(accepted, findings[i]);
      assert InText(accepted[a], textLen) && InText(accepted[b], textLen);
    }
  }

  /** Nothing else is replaced: a finding covers no byte outside the accepted spans. */
  lemma FindingsCovered(accepted: seq<Span>, findings: seq<Span>, i: nat, p: int)
    requires Hulls(accepted, findings) && i < |findings| && findings[i].start <= p < findings[i].end
    ensures Covered(accepted, p)
  {
    hide Held, IsHull;
    HullsAt(accepted, findings, i);
    var a, b := HullParts(accepted, findings[i]);
    HullsApart(accepted, findings, i, i);
    if p == findings[i].start {
      assert accepted[a].start <= p < accepted[a].end;
    } else {
      var k := Crossing(accepted, p);
      assert accepted[k].start <= p < accepted[k].end;
    }
  }

  datatype Redaction = Redaction(redacted: Bytes, findings: seq<Span>)

  /** Writes `text` with each finding replaced. */
  method Rebuild(text: Bytes, findings: seq<Span>, replacements: seq<Bytes>, ghost edits: seq<Edit>) returns (out: Bytes)
    requires Ordered(0, |text|, edits) && Aligned(findings, edits) && |replacements| == |findings|
    requires forall i :: 0 <= i < |edits| ==> edits[i].text == replacements[i]
    ensures out == Splice(text, 0, |text|, edits)
  {
    hide Ordered, Splice;
    out := [];
    var previous: nat := 0;
    SpliceNothing(text, 0);
    for i := 0 to |findings|
      invariant previous <= |text| && Ordered(0, previous, edits[..i])
      invariant previous == if i == 0 then 0 else edits[i - 1].end
      invariant out == Splice(text, 0, previous, edits[..i])
    {
      var finding := findings[i];
      OrderedSplit(0, |text|, edits, i);
      assert edits[..i + 1] == edits[..i] + [edits[i]];
      SpliceSnoc(text, 0, previous, edits[..i], edits[i]);
      out := out + text[previous..finding.start] + replacements[i];
      previous := finding.end;
    }
    assert edits[..|findings|] == edits && edits + [] == edits;
    SpliceNothing(text, previous);
    SpliceJoin(text, 0, previous, |text|, edits, []);
    out := out + text[previous..];
  }

  lemma SpliceNothing(text: Bytes, from: nat)
    requires from <= |text|
    ensures Ordered(from, |text|, []) && Splice(text, from, |text|, []) == text[from..]
    ensures Ordered(from, from, []) && Splice(text, from, from, []) == []
  {
  }

  class Engine {
    /** The detectors, as functions of the text alone. */
    const isPlaceholder: Bytes -> bool
    const pii: Bytes -> seq<Span>
    const secrets: Bytes -> seq<Span>

    constructor (isPlaceholder: Bytes -> bool, pii: Bytes -> seq<Span>, secrets: Bytes -> seq<Span>)
      ensures this.isPlaceholder == isPlaceholder && this.pii == pii && this.secrets == secrets
    {
      this.isPlaceholder, this.pii, this.secrets := isPlaceholder, pii, secrets;
    }

    function FieldSpans(text: Bytes, fields: FieldContext): seq<Span>
      requires Slots(fields.fields)
    {
      if Applies(fields) && !isPlaceholder(text) then [Span(0, |text|, Secret, "builtin.credential-field")] else []
    }

    /** Everything the detectors propose, in the order the collector sees it. */
    function Proposed(text: Bytes, fields: FieldContext): seq<Span>
      requires Slots(fields.fields)
    {
      FieldSpans(text, fields) + pii(text) + secrets(text)
    }

    /** What a request with this much of its finding budget left finds in the text. */
    function Found(text: Bytes, fields: FieldContext, remaining: nat, preferred: set<string>): Option<seq<Span>>
      requires Slots(fields.fields)
    {
      Collect([], Proposed(text, fields), |text|, remaining, preferred)
    }

    /** One detector: proposes its candidates one by one. */
    method Propose(collector: SpanCollector, candidates: seq<Span>, cancellable: bool) returns (error: Option<EngineError>)
      requires collector.Valid()
      modifies collector
      ensures collector.Valid()
      ensures error.None? ==>
                Collect(old(collector.spans), candidates, collector.textLen, collector.max, collector.preferred)
                == Some(collector.spans)
      ensures error == Some(LimitError(FindingsResource)) ==>
                Collect(old(collector.spans), candidates, collector.textLen, collector.max, collector.preferred).None?
      ensures error.Some? ==> error.value == LimitError(FindingsResource) || (error.value == Interrupted && cancellable)
    {
      hide Added;
      for i := 0 to |candidates|
        invariant collector.Valid()
        invariant Collect(old(collector.spans), candidates, collector.textLen, collector.max, collector.preferred)
                  == Collect(collector.spans, candidates[i..], collector.textLen, collector.max, collector.preferred)
      {
        var stop: bool := *;
        if cancellable && stop {
          return Some(Interrupted);
        }
        assert candidates[i..][1..] == candidates[i + 1..] && candidates[i..][0] == candidates[i];
        var ok := collector.Add(candidates[i]);
        if !ok {
          return Some(LimitError(FindingsResource));
        }
      }
      error := None;
    }

    method Detect(text: Bytes, fields: FieldContext, preferred: set<string>, preserve: bool, budget: Budget, cancellable: bool)
      returns (findings: seq<Span>, error: Option<EngineError>)
      requires Slots(fields.fields) && budget.Valid()
      modifies budget
      ensures budget.Valid()
      ensures error.None? ==>
                old(budget.NodeFits(|text|))
                && Some(findings) == (if preserve then Some([])
                                      else Found(text, fields, old(budget.RemainingFindings()), preferred))
                && budget.usage == Usage(old(budget.usage).bytes + |text|, old(budget.usage).findings + |findings|,
                                         old(budget.usage).nodes + 1)
      ensures error.Some? ==>
                findings == []
                && ((error.value == Interrupted && cancellable)
                    || (error.value.LimitError? && !old(budget.NodeFits(|text|)))
                    || (error.value == LimitError(FindingsResource) && !preserve
                        && Found(text, fields, old(budget.RemainingFindings()), preferred).None?))
    {
      hide Hulls, Labelled, Added, Collect, Applies;
      var stop: bool := *;
      if cancellable && stop {
        return [], Some(Interrupted);
      }
      error := budget.TakeNode(|text|);
      if error.Some? {
        return [], error;
      }
      if preserve {
        return [], None;
      }
      var collector := new SpanCollector(|text|, budget.RemainingFindings(), preferred);
      ghost var max := collector.max;
      var applies := CredentialFieldApplies(fields);
      ghost var first := FieldSpans(text, fields);
      CollectJoin([], first + pii(text), secrets(text), |text|, max, preferred);
      CollectJoin([], first, pii(text), |text|, max, preferred);
      CollectNothing([], |text|, max, preferred);
      if applies && !isPlaceholder(text) {
        error := Propose(collector, [Span(0, |text|, Secret, "builtin.credential-field")], false);
        if error.Some? {
          return [], error;
        }
      }
      error := Propose(collector, pii(text), cancellable);
      if error.Some? {
        return [], error;
      }
      error := Propose(collector, secrets(text), cancellable);
      if error.Some? {
        return [], error;
      }
      findings := collector.spans;
      error := budget.TakeFindings(|findings|);
    }

    /** Detects and replaces in one pass; a failure returns the text untouched. */
    method Redact(text: Bytes, fields: FieldContext, preferred: set<string>, preserve: bool,
                  budget: Budget, renderer: RequestRenderer, cancellable: bool)
      returns (result: Redaction, error: Option<EngineError>)
      requires Slots(fields.fields) && budget.Valid() && renderer.Valid()
      modifies budget, renderer
      ensures budget.Valid() && renderer.Valid()
      ensures forall key :: key in old(renderer.seen) ==> key in renderer.seen && renderer.seen[key] == old(renderer.seen)[key]
      ensures error.Some? ==> result.redacted == text
      ensures error.None? ==>
                old(budget.NodeFits(|text|))
                && Some(result.findings) == (if preserve then Some([])
                                             else Found(text, fields, old(budget.RemainingFindings()), preferred))
      ensures error.None? ==>
                Renderable(text, result.findings, renderer.seen)
                && Ordered(0, |text|, RenderedEdits(text, result.findings, renderer.seen))
                && result.redacted == Splice(text, 0, |text|, RenderedEdits(text, result.findings, renderer.seen))
      ensures error.Some? ==>
                (error.value == Interrupted && cancellable)
                || (error.value.LimitError? && !old(budget.NodeFits(|text|)))
                || (error.value == LimitError(FindingsResource) && !preserve
                    && Found(text, fields, old(budget.RemainingFindings()), preferred).None?)
                || (error.value == RendererFailed
                    && exists i :: 0 <= i < |result.findings| && result.findings[i].kind !in renderer.base)
    {
      hide Hulls, Labelled, Collect, Applies, Splice, Ordered, Table, KeyOf, Proper, Proposed;
      var findings;
      findings, error := Detect(text, fields, preferred, preserve, budget, cancellable);
      if error.Some? {
        return Redaction(text, []), error;
      }
      ghost var accepted := if preserve then [] else Proper(Proposed(text, fields), |text|);
      FoundCanonical(text, fields, old(budget.RemainingFindings()), preferred, preserve, findings, accepted);
      FindingsInText(accepted, findings, |text|);
      if findings == [] {
        SpliceNothing(text, 0);
        assert RenderedEdits(text, findings, renderer.seen) == [];
        return Redaction(text, findings), None;
      }
      var replacements := [];
      for i := 0 to |findings|
        invariant budget.Valid() && renderer.Valid() && |replacements| == i
        invariant forall key :: key in old(renderer.seen) ==> key in renderer.seen && renderer.seen[key] == old(renderer.seen)[key]
        invariant Renderable(text, findings[..i], renderer.seen)
        invariant forall k :: 0 <= k < i ==>
                    replacements[k] == renderer.seen[KeyOf(findings[k].kind, text[findings[k].start..findings[k].end])]
      {
        var stop: bool := *;
        if cancellable && stop {
          return Redaction(text, findings), Some(Interrupted);
        }
        var finding := findings[i];
        if finding.start < 0 || finding.start >= finding.end || finding.end > |text| {
          assert false;
        }
        var replacement := renderer.Render(finding.kind, text[finding.start..finding.end]);
        if replacement.None? {
          return Redaction(text, findings), Some(RendererFailed);
        }
        replacements := replacements + [replacement.value];
      }
      assert findings[..|findings|] == findings;
      ghost var edits := RenderedEdits(text, findings, renderer.seen);
      HullsDisjoint(accepted, findings);
      FindingsOrdered(|text|, 0, findings, edits);
      var out := Rebuild(text, findings, replacements, edits);
      result := Redaction(out, findings);
    }

    lemma FoundCanonical(text: Bytes, fields: FieldContext, remaining: nat, preferred: set<string>, preserve: bool,
                         findings: seq<Span>, accepted: seq<Span>)
      requires Slots(fields.fields)
      requires Some(findings) == (if preserve then Some([]) else Found(text, fields, remaining, preferred))
      requires accepted == if preserve then [] else Proper(Proposed(text, fields), |text|)
      ensures Hulls(accepted, findings) && Labelled(accepted, findings, preferred)
      ensures forall i :: 0 <= i < |accepted| ==> InText(accepted[i], |text|)
    {
      hide Collect, Applies, Proper, Proposed, Hulls, Labelled;
      NothingCanonical(preferred);
      if !preserve {
        CollectCanonical([], [], Proposed(text, fields), |text|, remaining, preferred);
        assert [] + Proper(Proposed(text, fields), |text|) == accepted;
        ProperIn(Proposed(text, fields), |text|);
        assert forall i :: 0 <= i < |accepted| ==> accepted[i] in accepted;
      }
    }
  }

  lemma NothingCanonical(preferred: set<string>)
    ensures Hulls([], []) && Labelled([], [], preferred)
  {
  }

  lemma CollectNothing(spans: seq<Span>, textLen: nat, max: nat, preferred: set<string>)
    ensures Collect(spans, [], textLen, max, preferred) == Some(spans)
  {
  }
}
