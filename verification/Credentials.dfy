/** Whole-value redaction: which strings lie below a credential name, by the keys on their paths,
    and that nothing of them is left. */
module Credentials {
  import opened ByteStrings
  import opened Utf8
  import opened JsonGrammar
  import opened JsonIndex
  import opened Splicing
  import opened Payload
  import opened KeyContext
  import opened Placeholders
  import opened Spans
  import opened PrivacyEngine
  import opened Redactor
  import opened Masking

  /** For a string of a nested document the rule depends on its own path and on whether the
      context outside is a tool's and marked; the document inside is marked if either is. */
  lemma InnerApplies(p: Plugin, paths: seq<PathNode>, entry: Entry, outer: FieldContext)
    requires Slots(outer.fields) && Arena(paths) && -1 <= entry.pathRef < |paths|
    ensures var inner := p.InnerContext(paths, entry, outer); var path := PathOf(paths, entry.pathRef);
            (Applies(inner) <==>
               outer.toolScope != NoTool && (EndsInCredential(path) || BelowCredential(path) || Marked(outer.fields)))
            && (Marked(inner.fields) <==> BelowCredential(path) || Marked(outer.fields))
            && inner.toolScope == outer.toolScope && inner.structured
  {
    hide Marked, Merged, ContextOf, IsCredentialFieldKey, EndsInCredential, BelowCredential, PathOf;
    var path := PathOf(paths, entry.pathRef);
    MarkedPath(path);
    MergeKeepsCredentials(ContextOf(path), outer.fields);
  }

  // ----- one replaced value -----------------------------------------------

  function Whole(text: Bytes): Span { Span(0, |text|, Secret, "builtin.credential-field") }

  lemma WholeAbsorbs(w: Span, c: Span, preferred: set<string>)
    requires 0 == w.start <= c.start < c.end <= w.end && c.rule !in preferred
    ensures Added([w], c, preferred) == [w]
  {
    var m := MergeOf([w], c, preferred);
    assert Swallow(c, w, true) == w;
    assert FirstAfter([w], c.start) == 0 && m == Absorb([w], 0, 1, w, w.rule in preferred, preferred) == Merge(1, w);
    assert [w][..0] + [m.merged] + [w][m.next..] == [w];
  }

  /** A span over the whole text, once accepted, is all that is found. */
  lemma {:induction false} WholeStays(w: Span, candidates: seq<Span>, textLen: nat, max: nat, preferred: set<string>)
    requires w.start == 0 && w.end == textLen && NonePreferred(Proper(candidates, textLen), preferred)
    ensures var r := Collect([w], candidates, textLen, max, preferred); r.Some? ==> r.value == [w]
    decreases |candidates|
  {
    hide Added, NonePreferred;
    if candidates != [] {
      ProperRest(candidates, textLen, preferred);
      if InText(candidates[0], textLen) {
        WholeAbsorbs(w, candidates[0], preferred);
      }
      WholeStays(w, candidates[1..], textLen, max, preferred);
    }
  }

  predicate NonePreferred(spans: seq<Span>, preferred: set<string>) {
    forall i :: 0 <= i < |spans| ==> spans[i].rule !in preferred
  }

  lemma ProperRest(candidates: seq<Span>, textLen: nat, preferred: set<string>)
    requires candidates != [] && NonePreferred(Proper(candidates, textLen), preferred)
    ensures InText(candidates[0], textLen) ==> candidates[0].rule !in preferred
    ensures NonePreferred(Proper(candidates[1..], textLen), preferred)
  {
    hide NonePreferred;
    var all, rest := Proper(candidates, textLen), Proper(candidates[1..], textLen);
    if InText(candidates[0], textLen) {
      assert all == [candidates[0]] + rest;
      PreferredTail(candidates[0], rest, preferred);
    } else {
      assert all == rest;
    }
  }

  lemma PreferredTail(c: Span, rest: seq<Span>, preferred: set<string>)
    requires NonePreferred([c] + rest, preferred)
    ensures c.rule !in preferred && NonePreferred(rest, preferred)
  {
    assert ([c] + rest)[0] == c && forall i :: 0 <= i < |rest| ==> rest[i] == ([c] + rest)[i + 1];
  }

  /** The value is left without a byte: the secret placeholder of the whole text stands there. */
  ghost predicate ReplacedWhole(p: Plugin, tr: Trace, text: Bytes) {
    text == [] || p.engine.isPlaceholder(text) || Produced(tr.before, text)
    || (tr.changed && KeyOf(Secret, text) in tr.after && tr.out == tr.after[KeyOf(Secret, text)])
  }

  lemma WholeFound(p: Plugin, text: Bytes, fields: FieldContext, spans: seq<Span>)
    requires Slots(fields.fields) && Applies(fields) && text != [] && !p.engine.isPlaceholder(text)
    requires !p.Blocking(text, fields) && p.Collected(text, fields, spans)
    ensures p.Candidates(text, fields) != [] && spans == [Whole(text)]
  {
    hide Applies, Added;
    var w := Whole(text);
    var rest := p.engine.pii(text) + p.engine.secrets(text);
    var all := p.engine.Proposed(text, fields);
    assert all == [w] + rest && all[1..] == rest;
    assert p.Candidates(text, fields) == [w] + Proper(rest, |text|);
    assert forall i :: 0 <= i < |Proper(rest, |text|)| ==> Proper(rest, |text|)[i] == p.Candidates(text, fields)[i + 1];
    var cap: nat :| p.engine.Found(text, fields, cap, p.blockRules) == Some(spans);
    FirstAdded(w, p.blockRules);
    WholeStays(w, rest, |text|, cap, p.blockRules);
  }

  lemma FirstAdded(w: Span, preferred: set<string>)
    ensures Added([], w, preferred) == [w]
  {
  }

  lemma SpliceAll(text: Bytes, edits: seq<Edit>)
    requires |edits| == 1 && edits[0].start == 0 && edits[0].end == |text| && Ordered(0, |text|, edits)
    ensures Splice(text, 0, |text|, edits) == edits[0].text
  {
    SpliceNothing(text, |text|);
    assert edits[1..] == [];
    hide Ordered;
  }

  lemma WholeSplice(text: Bytes, seen: Seen)
    requires text != [] && Renderable(text, [Whole(text)], seen) && Ordered(0, |text|, RenderedEdits(text, [Whole(text)], seen))
    ensures KeyOf(Secret, text) in seen
    ensures Splice(text, 0, |text|, RenderedEdits(text, [Whole(text)], seen)) == seen[KeyOf(Secret, text)]
  {
    hide KeyOf, Splice, Ordered;
    assert text[0..|text|] == text;
    SpliceAll(text, RenderedEdits(text, [Whole(text)], seen));
  }

  /** A text under a credential name, unless it is a placeholder, is replaced whole. */
  lemma WholeReplaced(p: Plugin, tr: Trace, text: Bytes, fields: FieldContext)
    requires Slots(fields.fields) && p.PlainStep(tr, text, fields) && p.mode == Redacting && Applies(fields)
    ensures ReplacedWhole(p, tr, text)
  {
    hide Applies, Produced, Renderable, Hulls, Splice, Ordered, KeyOf, p.Collected, p.Candidates, p.Blocking, p.Grows;
    if text != [] && !p.engine.isPlaceholder(text) && !Produced(tr.before, text) {
      SomeCandidate(p, text, fields);
      WholeFound(p, text, fields, tr.spans);
      WholeSplice(text, tr.after);
    }
  }

  lemma SomeCandidate(p: Plugin, text: Bytes, fields: FieldContext)
    requires Slots(fields.fields) && Applies(fields) && text != [] && !p.engine.isPlaceholder(text)
    ensures p.Candidates(text, fields) != []
  {
    hide Applies;
    assert p.engine.Proposed(text, fields)[0] == Whole(text);
  }

  // ----- at every nesting level -------------------------------------------

  /** The text holds a JSON text that is opened: any, when `strict`; a container otherwise. */
  predicate Opened(text: Bytes, strict: bool) {
    ParseText(text).Some? && (strict || ParseText(text).value.tree.Container?)
  }

  /** No value below a credential name is left, at any nesting level. `tool` says that the whole is
      tool data, `marked` that a propagating name stands around this text, `whole` that this text
      is itself such a value. Read again, a nested document has as many strings, and each holds
      the result of the old one, coerced to UTF-8. */
  ghost predicate Shielded(p: Plugin, tr: Trace, text: Bytes, tool: bool, marked: bool, whole: bool, strict: bool)
    decreases tr, 0
  {
    if whole then ReplacedWhole(p, tr, text)
    else Opened(text, strict) ==>
      tr.Json? && IndexText(text).Some? && IndexText(tr.out).Some?
      && var was := IndexText(text).value; var now := IndexText(tr.out).value.strings;
      Arena(was.paths) && Refs(was.paths, was.strings) && |now| == |was.strings| == |tr.steps|
      && forall k :: 0 <= k < |tr.steps| ==>
           now[k].value == Sanitize(tr.steps[k].out)
           && ShieldedString(p, tr.steps[k], was.paths, was.strings[k], tool, marked)
  }

  ghost predicate ShieldedString(p: Plugin, tr: Trace, paths: seq<PathNode>, entry: Entry, tool: bool, marked: bool)
    requires Arena(paths) && -1 <= entry.pathRef < |paths|
    decreases tr, 1
  {
    var path := PathOf(paths, entry.pathRef);
    Shielded(p, tr, entry.value, tool, marked || BelowCredential(path),
             tool && (EndsInCredential(path) || BelowCredential(path) || marked), false)
  }

  /** After a successful redaction no value below a credential name is left. */
  lemma {:induction false} CredentialsReplaced(p: Plugin, tr: Trace, text: Bytes, outer: FieldContext, allowPlain: bool, nesting: nat)
    requires Slots(outer.fields) && p.Explains(tr, text, outer, allowPlain, nesting) && p.mode == Redacting
    ensures Shielded(p, tr, text, outer.toolScope != NoTool, Marked(outer.fields), Applies(outer), !allowPlain)
    decreases tr, 1
  {
    hide Applies, Marked, ParseText, IndexText, LooksLikeEncodedJsonContainer, p.StringStep, p.Chosen, p.PlainStep,
         Consecutive, PathOf, Sanitize, SpaceEnd, Fits, ReplacedWhole, ShieldedString;
    if Applies(outer) {
      WholeReplaced(p, tr, text, outer);
    } else if ParseText(text).Some? {
      ContainersAreSeen(text);
      if Opened(text, !allowPlain) {
        forall k | 0 <= k < |tr.steps|
          ensures !tr.steps[k].changed ==> tr.steps[k].out == tr.doc.strings[k].value
          ensures ShieldedString(p, tr.steps[k], tr.doc.paths, tr.doc.strings[k], outer.toolScope != NoTool, Marked(outer.fields))
        {
          UnchangedString(p, tr.steps[k], tr.doc.paths, tr.doc.strings[k], outer, nesting);
          StringReplaced(p, tr.steps[k], tr.doc.paths, tr.doc.strings[k], outer, nesting);
        }
        RewrittenValues(p, tr.doc, tr.steps);
        Masking.IndexOf(tr.doc);
      }
    }
  }

  lemma {:induction false} StringReplaced(p: Plugin, tr: Trace, paths: seq<PathNode>, entry: Entry, outer: FieldContext, nesting: nat)
    requires Slots(outer.fields) && Arena(paths) && -1 <= entry.pathRef < |paths|
    requires p.StringStep(tr, paths, entry, outer, nesting) && p.mode == Redacting
    ensures ShieldedString(p, tr, paths, entry, outer.toolScope != NoTool, Marked(outer.fields))
    decreases tr, 2
  {
    hide p.Explains, p.PlainStep, p.InnerContext, Applies, Marked, Shielded, ReplacedWhole, ParseText,
         LooksLikeEncodedJsonContainer, PathOf, BelowCredential, EndsInCredential;
    var inner := p.InnerContext(paths, entry, outer);
    InnerApplies(p, paths, entry, outer);
    if LooksLikeEncodedJsonContainer(entry.value) {
      CredentialsReplaced(p, tr, entry.value, inner, true, nesting + 1);
    } else {
      NotOpened(entry.value);
      PlainShielded(p, tr, entry.value, inner);
    }
  }

  lemma NotOpened(text: Bytes)
    requires !LooksLikeEncodedJsonContainer(text)
    ensures !Opened(text, false)
  {
    hide ParseText, LooksLikeEncodedJsonContainer;
    if ParseText(text).Some? {
      ContainersAreSeen(text);
    }
  }

  lemma PlainShielded(p: Plugin, tr: Trace, text: Bytes, fields: FieldContext)
    requires Slots(fields.fields) && p.PlainStep(tr, text, fields) && p.mode == Redacting && !Opened(text, false)
    ensures Shielded(p, tr, text, fields.toolScope != NoTool, Marked(fields.fields), Applies(fields), false)
  {
    hide Applies, Marked, p.PlainStep, ReplacedWhole, Opened;
    if Applies(fields) {
      WholeReplaced(p, tr, text, fields);
    }
  }
}
