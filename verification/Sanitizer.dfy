/** A whole request: walk it, sanitise every target, splice the results back in. */
module Sanitizer {
  import opened ByteStrings
  import opened JsonGrammar
  import opened JsonIndex
  import opened Payload
  import opened ReplaceLaws
  import opened Utf8
  import opened KeyContext
  import opened Placeholders
  import opened PrivacyEngine
  import opened Redactor
  import opened Masking
  import opened Credentials
  import opened Tree
  import opened Collecting
  import opened Selection
  import opened Shapes
  import opened Registry

  datatype RequestError =
    | WalkFailed(walk: WalkError)
    | UnsupportedRequest(count: nat)
    | BudgetRefused
    | TargetFailed(target: SanitizeError)
    | ReplaceFailed(failure: Failure)
    | RequestInterrupted

  datatype Sanitised = Sanitised(body: Bytes, changed: bool, error: Option<RequestError>)

  /** How a target is sanitised depends on its mutability. */
  ghost predicate TargetStep(p: Plugin, t: Target, tr: Trace)
    requires Slots(t.context.fields)
  {
    match t.mutable
    case Direct => p.PlainStep(tr, t.token.value, t.context)
    case EncodedJsonText => p.Explains(tr, t.token.value, t.context, false, 0)
    case JsonOrPlain => p.Explains(tr, t.token.value, t.context, true, 0)
  }

  /** The target's string was inspected in its own context and holds nothing blocking. */
  ghost predicate TargetClean(p: Plugin, t: Target, seen: Seen)
    requires Slots(t.context.fields)
  {
    match t.mutable
    case Direct => p.Quiet(t.token.value, t.context, seen)
    case EncodedJsonText => p.Clean(t.token.value, t.context, false, 0, seen)
    case JsonOrPlain => p.Clean(t.token.value, t.context, true, 0, seen)
  }

  /** Nothing accepted in the target's string is left in its result. */
  ghost predicate TargetHidden(p: Plugin, t: Target, tr: Trace)
    requires Slots(t.context.fields)
  {
    match t.mutable
    case Direct => HiddenText(p, tr, t.token.value, t.context)
    case EncodedJsonText => Hidden(p, tr, t.token.value, t.context, false, 0)
    case JsonOrPlain => Hidden(p, tr, t.token.value, t.context, true, 0)
  }

  lemma TargetCleanGrows(p: Plugin, t: Target, seen: Seen, seen': Seen)
    requires Slots(t.context.fields) && p.Grows(seen, seen') && TargetClean(p, t, seen)
    ensures TargetClean(p, t, seen')
  {
    hide p.Clean, p.Quiet, p.Grows;
    match t.mutable
    case Direct => p.QuietGrows(t.token.value, t.context, seen, seen');
    case EncodedJsonText => p.CleanGrows(t.token.value, t.context, false, 0, seen, seen');
    case JsonOrPlain => p.CleanGrows(t.token.value, t.context, true, 0, seen, seen');
  }

  /** A sanitised target keeps what is remembered, is unchanged when it says so, is clean and
      lets nothing through. */
  lemma StepFacts(p: Plugin, t: Target, tr: Trace)
    requires Slots(t.context.fields) && TargetStep(p, t, tr)
    ensures p.Grows(tr.before, tr.after) && (!tr.changed ==> tr.out == t.token.value)
    ensures p.mode == Redacting ==> TargetClean(p, t, tr.after) && TargetHidden(p, t, tr)
  {
    hide p.Explains, p.Clean, p.Quiet, p.Grows, Hidden, HiddenText, Masked, Produced;
    var text, context := t.token.value, t.context;
    if t.mutable.Direct? {
      PlainHides(p, tr, text, context);
      if p.mode == Redacting {
        p.QuietGrows(text, context, tr.before, tr.after);
      }
    } else {
      var allowPlain := t.mutable.JsonOrPlain?;
      p.ExplainedGrows(tr, text, context, allowPlain, 0);
      UnchangedOut(p, tr, text, context, allowPlain, 0);
      if p.mode == Redacting {
        p.ExplainedClean(tr, text, context, allowPlain, 0);
        NothingSurvives(p, tr, text, context, allowPlain, 0);
      }
    }
  }

  method SanitizeTarget(p: Plugin, t: Target, b: InspectionBudget, renderer: RequestRenderer, cancellable: bool)
    returns (r: Sanitized, ghost tr: Trace)
    requires b.Valid() && renderer.Valid() && Slots(t.context.fields)
    modifies b, b.engine, renderer
    ensures b.Valid() && renderer.Valid() && p.Grows(old(renderer.seen), renderer.seen)
    ensures r.error.Some? || !r.changed ==> r.out == t.token.value
    ensures r.error.Some? ==> !r.changed && Honest(r.error.value)
    ensures r.error.None? ==> Reports(tr, r, old(renderer.seen), renderer.seen) && TargetStep(p, t, tr)
  {
    hide p.PlainStep, p.Explains, p.Grows, b.Valid, renderer.Valid, Ascii, p.Blocking, p.Candidates, Produced;
    match t.mutable
    case Direct =>
      r, tr := p.SanitizeText(t.token.value, b, renderer, t.context, cancellable);
    case EncodedJsonText =>
      r, tr := p.SanitizeJsonText(t.token.value, b, renderer, t.context, false, 0, cancellable);
    case JsonOrPlain =>
      r, tr := p.SanitizeJsonText(t.token.value, b, renderer, t.context, true, 0, cancellable);
  }

  ghost function TargetTokens(targets: seq<Target>): (tokens: seq<StringToken>)
    ensures |tokens| == |targets|
  {
    seq(|targets|, i requires 0 <= i < |targets| => targets[i].token)
  }

  lemma TargetTokensFit(d: Document, targets: seq<Target>)
    requires Arena(d.paths) && Refs(d.paths, d.strings) && GoodTargets(d, targets)
    ensures TokensOf(d, TargetTokens(targets))
  {
    hide InContext, PathOf;
  }

  /** Every target was sanitised in turn, each with the placeholders its predecessors left. */
  ghost predicate Stepwise(p: Plugin, targets: seq<Target>, steps: seq<Trace>, before: Seen, after: Seen) {
    |steps| <= |targets| && Consecutive(before, steps, after)
    && forall k :: 0 <= k < |steps| ==> Slots(targets[k].context.fields) && TargetStep(p, targets[k], steps[k])
  }

  lemma StepwiseSnoc(p: Plugin, targets: seq<Target>, steps: seq<Trace>, before: Seen, tr: Trace)
    requires Stepwise(p, targets, steps, before, tr.before) && |steps| < |targets|
    requires Slots(targets[|steps|].context.fields) && TargetStep(p, targets[|steps|], tr)
    ensures Stepwise(p, targets, steps + [tr], before, tr.after)
  {
    hide TargetStep, Consecutive;
    ChainSnoc(before, steps, tr);
  }

  lemma StepwiseNone(p: Plugin, targets: seq<Target>, seen: Seen)
    ensures Stepwise(p, targets, [], seen, seen)
  {
  }

  /** Sanitises the targets in order and collects the replacements of those that changed. */
  method SanitizeTargets(p: Plugin, d: Document, targets: seq<Target>, b: InspectionBudget, renderer: RequestRenderer, cancellable: bool)
    returns (list: seq<Replacement>, error: Option<RequestError>, ghost steps: seq<Trace>)
    requires b.Valid() && renderer.Valid() && Arena(d.paths) && Refs(d.paths, d.strings) && GoodTargets(d, targets)
    modifies b, b.engine, renderer
    ensures b.Valid() && renderer.Valid() && p.Grows(old(renderer.seen), renderer.seen)
    ensures |steps| <= |targets| && list == p.Chosen(TargetTokens(targets), steps)
    ensures error.Some? ==> (error.value.RequestInterrupted? && cancellable) || (error.value.TargetFailed? && Honest(error.value.target))
    ensures error.None? ==> |steps| == |targets| && Stepwise(p, targets, steps, old(renderer.seen), renderer.seen)
  {
    hide TargetStep, p.Grows, b.Valid, renderer.Valid, PathOf, Stepwise, p.Chosen, InContext;
    list, steps := [], [];
    p.GrowsSelf(renderer.seen);
    StepwiseNone(p, targets, renderer.seen);
    ghost var tokens := TargetTokens(targets);
    p.ChosenNone(tokens);
    for i := 0 to |targets|
      invariant b.Valid() && renderer.Valid() && p.Grows(old(renderer.seen), renderer.seen)
      invariant |steps| == i && list == p.Chosen(TargetTokens(targets), steps)
      invariant Stepwise(p, targets, steps, old(renderer.seen), renderer.seen)
    {
      var stop: bool := *;
      if cancellable && stop {
        return list, Some(RequestInterrupted), steps;
      }
      ghost var seen := renderer.seen;
      ghost var tr;
      var r;
      r, tr := SanitizeTarget(p, targets[i], b, renderer, cancellable);
      p.GrowsChain(old(renderer.seen), seen, renderer.seen);
      if r.error.Some? {
        return list, Some(TargetFailed(r.error.value)), steps;
      }
      p.ChosenSnoc(tokens, steps, tr);
      StepwiseSnoc(p, targets, steps, old(renderer.seen), tr);
      steps := steps + [tr];
      if r.changed && p.mode != Audit {
        list := list + [Replacement(targets[i].token, r.out)];
      }
    }
    error := None;
  }

  /** The request's strings are the inspected targets, which are its model input, and the
      protected ones, which are its controls; nothing else. */
  ghost predicate FullyWalked(r: Result, targets: set<int>, opaques: set<int>) {
    r.document.Valid() && GoodTargets(r.document, r.targets)
    && Picked(r.targets) == RequestPicks(RootNode(r.document)) && targets == IdsOf(Picked(r.targets))
    && opaques == RequestOpaques(RootNode(r.document))
    && Partition(r.document, targets, opaques, {}) && |r.targets| == |targets|
  }

  /** Sanitises a chat-completions body. On success every target was sanitised in turn, and the
      new body is the old one with the results of those that changed put in. On failure nothing
      changes. */
  method SanitizeRequest(p: Plugin, sourceFormat: string, body: Bytes, engineLimits: EngineLimits, renderer: RequestRenderer, cancellable: bool)
    returns (r: Sanitised, ghost walked: Option<Result>, ghost steps: seq<Trace>, ghost targets: set<int>, ghost opaques: set<int>)
    requires renderer.Valid()
    modifies renderer
    ensures renderer.Valid() && p.Grows(old(renderer.seen), renderer.seen)
    ensures r.error.Some? || !r.changed ==> r.body == body
    ensures r.error.Some? ==> !r.changed
    ensures r.error.Some? && r.error.value.TargetFailed? ==> Honest(r.error.value.target)
    ensures r.error.Some? && r.error.value.WalkFailed? ==> r.error.value.walk != InternalMismatch
    ensures !cancellable && sourceFormat == "openai" && Scannable(body, p.limits) && RequestShaped(BodyNode(body)) ==>
              r.error.None? || !r.error.value.WalkFailed? || r.error.value.walk == OutOfBudget
    ensures r.error.Some? && r.error.value.UnsupportedRequest? ==> walked.Some? && walked.value.unsupported != []
    ensures r.error.Some? && r.error.value.BudgetRefused? ==> NormalizeLimits(engineLimits).None?
    ensures r.error.Some? && r.error.value.RequestInterrupted? ==> cancellable
    ensures r.error.Some? && r.error.value.ReplaceFailed? && !cancellable ==>
              walked.Some? && walked.value.document.Valid() && |steps| == |walked.value.targets|
              && !walked.value.document.Accepts(p.Chosen(TargetTokens(walked.value.targets), steps))
    ensures r.error.None? ==> Scannable(body, p.limits) && RequestShaped(BodyNode(body))
    ensures r.error.Some? && r.error.value.ReplaceFailed? ==>
              r.error.value.failure != InvalidToken && r.error.value.failure != OverlappingReplacements
    ensures r.error.None? ==>
              walked.Some? && FullyWalked(walked.value, targets, opaques) && walked.value.document.body == body
              && |steps| == |walked.value.targets|
              && Stepwise(p, walked.value.targets, steps, old(renderer.seen), renderer.seen)
              && var list := p.Chosen(TargetTokens(walked.value.targets), steps);
                 r.body == walked.value.document.Rewritten(list)
                 && (r.changed <==> walked.value.document.ChangesOf(list) != map[])
  {
    hide RequestShaped, Scannable, renderer.Valid, p.Grows, Stepwise, p.Chosen, RequestPicks, RequestOpaques, Picked, IdsOf,
         RootNode, Partition, Registry.Accounts, GoodTargets, SortedByStart, ParseText, IndexText, Fits, SpaceEnd;
    p.GrowsSelf(renderer.seen);
    walked, steps, targets, opaques := None, [], {}, {};
    ghost var rejected;
    var result, failure;
    result, failure, targets, opaques, rejected := Walk(sourceFormat, body, p.limits, cancellable);
    walked := result;
    if failure.Some? {
      return Sanitised(body, false, Some(WalkFailed(failure.value))), walked, steps, targets, opaques;
    }
    var d := result.value.document;
    ShapesCounted(result.value, targets, opaques, rejected);
    if result.value.unsupportedCount > 0 {
      return Sanitised(body, false, Some(UnsupportedRequest(result.value.unsupportedCount))), walked, steps, targets, opaques;
    }
    WithinLimits(result.value.document);
    NothingRejected(result.value, targets, opaques, rejected);
    if NormalizeLimits(engineLimits).None? {
      return Sanitised(body, false, Some(BudgetRefused)), walked, steps, targets, opaques;
    }
    var engine := new Budget(engineLimits);
    var b, refused := InspectionBudget.New(engine, p.limits, result.value.jsonNodes, result.value.structuralBytes);
    if refused.Some? {
      return Sanitised(body, false, Some(BudgetRefused)), walked, steps, targets, opaques;
    }
    var replacements, error;
    replacements, error, steps := SanitizeTargets(p, d, result.value.targets, b, renderer, cancellable);
    if error.Some? {
      return Sanitised(body, false, error), walked, steps, targets, opaques;
    }
    TargetTokensFit(d, result.value.targets);
    p.ChosenFit(d, TargetTokens(result.value.targets), steps);
    p.ChosenFacts(TargetTokens(result.value.targets), steps);
    r := PutTargets(p, d, replacements, cancellable);
  }

  /** Puts the results into the body. */
  method PutTargets(p: Plugin, d: Document, list: seq<Replacement>, cancellable: bool) returns (r: Sanitised)
    requires d.Valid() && d.AllOwned(list) && Document.DistinctTokens(list) && (p.mode == Audit ==> list == [])
    ensures r.error.Some? || !r.changed ==> r.body == d.body
    ensures r.error.Some? ==>
              !r.changed && r.error.value.ReplaceFailed?
              && r.error.value.failure != InvalidToken && r.error.value.failure != OverlappingReplacements
              && (!cancellable ==> !d.Accepts(list))
    ensures r.error.None? ==> r.body == d.Rewritten(list) && (r.changed <==> d.ChangesOf(list) != map[])
  {
    hide ParseText, IndexText, Fits, SpaceEnd;
    if p.mode == Audit || |list| == 0 {
      p.Unchanged(d);
      assert |list| == 0 ==> list == [];
      return Sanitised(d.body, false, None);
    }
    var replaced := d.Replace(list, cancellable);
    if replaced.Refused? {
      return Sanitised(d.body, false, Some(ReplaceFailed(replaced.error)));
    }
    p.NothingChanged(d, list);
    if replaced.changed {
      r := Sanitised(replaced.out, true, None);
    } else {
      r := Sanitised(d.body, false, None);
    }
  }

  /** What a sanitised request says. Read again, the new body has the strings of the old one:
      each target holds the result of its step, every other string its old value. */
  lemma RequestMeaning(p: Plugin, w: Result, targets: set<int>, opaques: set<int>, steps: seq<Trace>, before: Seen, after: Seen)
    requires FullyWalked(w, targets, opaques) && |steps| == |w.targets| && Stepwise(p, w.targets, steps, before, after)
    requires p.mode == Redacting
    ensures var d := w.document; var out := d.Rewritten(p.Chosen(TargetTokens(w.targets), steps));
            IndexText(out).Some?
            && var now := IndexText(out).value.strings;
            |now| == |d.strings|
            && (forall k :: 0 <= k < |steps| ==> now[w.targets[k].token.ordinal].value == Sanitize(steps[k].out))
            && forall i :: 0 <= i < |now| && d.strings[i].start !in targets ==> now[i].value == d.strings[i].value
  {
    hide ParseText, IndexText, Fits, SpaceEnd, Sanitize, p.Chosen, TargetStep, Consecutive, RequestPicks, RequestOpaques,
         RootNode, Partition, Picked, IdsOf, InContext;
    var d, list := w.document, p.Chosen(TargetTokens(w.targets), steps);
    var tokens := TargetTokens(w.targets);
    TargetTokensFit(d, w.targets);
    p.ChosenFit(d, tokens, steps);
    p.ChosenFacts(tokens, steps);
    ListMeaning(d, list);
    PickedIds(w.targets);
    var now := IndexText(d.Rewritten(list)).value.strings;
    forall k | 0 <= k < |steps| ensures now[w.targets[k].token.ordinal].value == Sanitize(steps[k].out) {
      var t := w.targets[k];
      StepFacts(p, t, steps[k]);
      ValuesValid(d, t.token.ordinal);
      if steps[k].changed {
        assert Change(tokens, steps, k, Replacement(t.token, steps[k].out));
        var i :| 0 <= i < |list| && list[i] == Replacement(t.token, steps[k].out);
      } else {
        forall i | 0 <= i < |list| ensures list[i].token.ordinal != t.token.ordinal {
          assert list[i] in list;
          var m :| Change(tokens, steps, m, list[i]);
          assert m != k;
        }
      }
    }
    forall i | 0 <= i < |now| && d.strings[i].start !in targets ensures now[i].value == d.strings[i].value {
      forall j | 0 <= j < |list| ensures list[j].token.ordinal != i {
        assert list[j] in list;
        var m :| Change(tokens, steps, m, list[j]);
        assert d.Owns(w.targets[m].token);
      }
    }
  }

  /** And what it does not say: no inspected string carries a blocking candidate, and no byte of
      an accepted candidate is left, at any nesting level. */
  lemma RequestHides(p: Plugin, targets: seq<Target>, steps: seq<Trace>, before: Seen, after: Seen)
    requires |steps| == |targets| && Stepwise(p, targets, steps, before, after) && p.mode == Redacting
    ensures forall k :: 0 <= k < |targets| ==>
              Slots(targets[k].context.fields) && TargetClean(p, targets[k], after) && TargetHidden(p, targets[k], steps[k])
  {
    hide TargetStep, TargetClean, TargetHidden, Consecutive, p.Grows;
    forall k | 0 <= k < |steps|
      ensures p.Grows(steps[k].before, steps[k].after) && TargetClean(p, targets[k], steps[k].after)
      ensures TargetHidden(p, targets[k], steps[k])
    {
      StepFacts(p, targets[k], steps[k]);
    }
    p.ChainGrows(before, steps, after);
    forall k | 0 <= k < |targets| ensures TargetClean(p, targets[k], after) {
      TargetCleanGrows(p, targets[k], steps[k].after, after);
    }
  }

  /** A target's own rule, by the keys of its path in the request. */
  ghost predicate TargetShielded(p: Plugin, t: Target, tr: Trace) {
    var tool := t.scope.ScopeToolInput? || t.scope.ScopeToolOutput?;
    var marked := BelowCredential(t.token.path);
    var whole := tool && t.kind.JsonValue? && (EndsInCredential(t.token.path) || marked);
    if t.mutable.Direct? then whole ==> ReplacedWhole(p, tr, t.token.value)
    else Shielded(p, tr, t.token.value, tool, marked, whole, t.mutable.EncodedJsonText?)
  }

  /** No tool value below a credential name is left: in structured tool data, and in every document
      nested in tool text, such a value stands replaced whole. */
  lemma RequestShields(p: Plugin, w: Result, targets: set<int>, opaques: set<int>, steps: seq<Trace>, before: Seen, after: Seen)
    requires FullyWalked(w, targets, opaques) && |steps| == |w.targets| && Stepwise(p, w.targets, steps, before, after)
    requires p.mode == Redacting
    ensures forall k :: 0 <= k < |steps| ==> TargetShielded(p, w.targets[k], steps[k])
  {
    hide TargetStep, Consecutive, TargetShielded, Picked, IdsOf, RequestPicks, RequestOpaques, RootNode, Partition, InContext;
    forall k | 0 <= k < |steps| ensures TargetShielded(p, w.targets[k], steps[k]) {
      StepShields(p, w.targets[k], steps[k]);
    }
  }

  lemma StepShields(p: Plugin, t: Target, tr: Trace)
    requires Slots(t.context.fields) && InContext(t) && TargetStep(p, t, tr) && p.mode == Redacting
    ensures TargetShielded(p, t, tr)
  {
    hide p.Explains, p.PlainStep, Shielded, ReplacedWhole, ContextOf, Marked, IsCredentialFieldKey, BelowCredential,
         EndsInCredential;
    MarkedPath(t.token.path);
    assert Marked(t.context.fields) <==> BelowCredential(t.token.path);
    match t.mutable
    case Direct =>
      if Applies(t.context) {
        WholeReplaced(p, tr, t.token.value, t.context);
      }
    case EncodedJsonText => CredentialsReplaced(p, tr, t.token.value, t.context, false, 0);
    case JsonOrPlain => CredentialsReplaced(p, tr, t.token.value, t.context, true, 0);
  }

  lemma ShapesCounted(r: Result, targets: set<int>, opaques: set<int>, rejected: set<int>)
    requires Registry.Accounts(r, targets, opaques, rejected)
    ensures r.unsupportedCount == |r.unsupported|
  {
  }

  lemma WithinLimits(d: Document)
    requires d.Valid()
    ensures d.nodeCount <= d.limits.nodes
  {
    hide ParseText, IndexText, SpaceEnd, Arena, Refs;
  }

  lemma NothingRejected(r: Result, targets: set<int>, opaques: set<int>, rejected: set<int>)
    requires r.document.Valid() && GoodTargets(r.document, r.targets)
    requires Picked(r.targets) == RequestPicks(RootNode(r.document)) && opaques == RequestOpaques(RootNode(r.document))
    requires Partition(r.document, targets, opaques, rejected) && Registry.Accounts(r, targets, opaques, rejected) && r.unsupportedCount == 0
    ensures FullyWalked(r, targets, opaques)
  {
    hide GoodTargets, ParseText, IndexText, Fits, SpaceEnd, RequestPicks, RequestOpaques, RootNode, Picked, IdsOf;
  }
}
