/** What the outside sees of a sanitised string: nothing of any accepted candidate, at any
    nesting level. */
module Masking {
  import opened ByteStrings
  import opened Utf8
  import opened JsonGrammar
  import opened JsonIndex
  import opened Splicing
  import opened Payload
  import opened ReplaceLaws
  import opened KeyContext
  import opened Spans
  import opened PrivacyEngine
  import opened Redactor

  /** The texts differ in bytes of the candidates only. */
  ghost predicate SameOutside(text: Bytes, other: Bytes, candidates: seq<Span>) {
    |text| == |other| && forall p :: 0 <= p < |text| && text[p] != other[p] ==> Covered(candidates, p)
  }

  /** Whatever the bytes of the candidates had been, the same placeholders give the same output. */
  ghost predicate Blind(text: Bytes, candidates: seq<Span>, spans: seq<Span>, seen: Seen, out: Bytes)
    requires Renderable(text, spans, seen)
  {
    forall other {:trigger SameOutside(text, other, candidates)} :: SameOutside(text, other, candidates) ==>
      Ordered(0, |other|, RenderedEdits(text, spans, seen))
      && out == Splice(other, 0, |other|, RenderedEdits(text, spans, seen))
  }

  lemma MaskedIsBlind(text: Bytes, candidates: seq<Span>, spans: seq<Span>, seen: Seen, out: Bytes)
    requires Masked(text, candidates, spans, seen, out)
    requires forall i :: 0 <= i < |candidates| ==> InText(candidates[i], |text|)
    ensures Renderable(text, spans, seen) && Blind(text, candidates, spans, seen, out)
  {
    hide Hulls, Ordered, Splice, Renderable, Covered, InText;
    var edits := RenderedEdits(text, spans, seen);
    forall other | SameOutside(text, other, candidates)
      ensures Ordered(0, |other|, edits) && out == Splice(other, 0, |other|, edits)
    {
      RedactionHides(text, other, candidates, spans, edits);
    }
  }

  /** A text that was inspected: a placeholder, nothing found, or nothing left of what was found. */
  ghost predicate HiddenText(p: Plugin, tr: Trace, text: Bytes, fields: FieldContext)
    requires Slots(fields.fields)
  {
    Produced(tr.before, text) || p.Candidates(text, fields) == []
    || (tr.Plain? && Renderable(text, tr.spans, tr.after) && Blind(text, p.Candidates(text, fields), tr.spans, tr.after, tr.out))
  }

  lemma PlainHides(p: Plugin, tr: Trace, text: Bytes, fields: FieldContext)
    requires Slots(fields.fields) && p.PlainStep(tr, text, fields)
    ensures HiddenText(p, tr, text, fields)
  {
    hide Masked, Blind, Renderable, p.Quiet, p.Grows, p.Candidates;
    if !Produced(tr.before, text) && p.Candidates(text, fields) != [] {
      CandidatesInText(p, text, fields);
      MaskedIsBlind(text, p.Candidates(text, fields), tr.spans, tr.after, tr.out);
    }
  }

  lemma CandidatesInText(p: Plugin, text: Bytes, fields: FieldContext)
    requires Slots(fields.fields)
    ensures forall i :: 0 <= i < |p.Candidates(text, fields)| ==> InText(p.Candidates(text, fields)[i], |text|)
  {
    hide Proper;
    ProperIn(p.engine.Proposed(text, fields), |text|);
    forall i | 0 <= i < |p.Candidates(text, fields)| ensures InText(p.Candidates(text, fields)[i], |text|) {
      assert p.Candidates(text, fields)[i] in p.Candidates(text, fields);
    }
  }

  /** As `Explains`, but about the output alone: read again, it is a JSON text with as many
      strings, and each of them holds the result of sanitising the old one, coerced to UTF-8;
      where that result is itself a JSON text, it is held as it is. */
  ghost predicate Hidden(p: Plugin, tr: Trace, text: Bytes, outer: FieldContext, allowPlain: bool, nesting: nat)
    requires Slots(outer.fields)
    decreases tr, 1
  {
    if Applies(outer) then HiddenText(p, tr, text, outer)
    else if (allowPlain && !LooksLikeEncodedJsonContainer(text)) || ParseText(text).None? then
      allowPlain && HiddenText(p, tr, text, p.PlainContext(outer))
    else
      tr.Json? && nesting <= MAX_ENCODED_JSON_NESTING
      && IndexText(text).Some? && IndexText(tr.out).Some?
      && var was := IndexText(text).value; var now := IndexText(tr.out).value.strings;
      Arena(was.paths) && Refs(was.paths, was.strings) && |now| == |was.strings| == |tr.steps|
      && forall k :: 0 <= k < |tr.steps| ==>
           now[k].value == Sanitize(tr.steps[k].out) && (tr.steps[k].Json? ==> now[k].value == tr.steps[k].out)
           && HiddenString(p, tr.steps[k], was.paths, was.strings[k], outer, nesting)
  }

  ghost predicate HiddenString(p: Plugin, tr: Trace, paths: seq<PathNode>, entry: Entry, outer: FieldContext, nesting: nat)
    requires Slots(outer.fields) && Arena(paths) && -1 <= entry.pathRef < |paths|
    decreases tr, 2
  {
    var inner := p.InnerContext(paths, entry, outer);
    if LooksLikeEncodedJsonContainer(entry.value) then Hidden(p, tr, entry.value, inner, true, nesting + 1)
    else HiddenText(p, tr, entry.value, inner)
  }

  /** An unchanged string came out as it went in. */
  lemma UnchangedOut(p: Plugin, tr: Trace, text: Bytes, outer: FieldContext, allowPlain: bool, nesting: nat)
    requires Slots(outer.fields) && p.Explains(tr, text, outer, allowPlain, nesting)
    ensures !tr.changed ==> tr.out == text
  {
    hide Applies, ParseText, IndexText, LooksLikeEncodedJsonContainer, Masked, p.Quiet, p.Grows, Consecutive, p.StringStep,
         p.Chosen, SpaceEnd, Fits;
    if tr.Json? && !tr.changed {
      p.NothingChanged(tr.doc, p.Chosen(AllTokens(tr.doc), tr.steps));
    }
  }

  lemma UnchangedString(p: Plugin, tr: Trace, paths: seq<PathNode>, entry: Entry, outer: FieldContext, nesting: nat)
    requires Slots(outer.fields) && Arena(paths) && -1 <= entry.pathRef < |paths| && p.StringStep(tr, paths, entry, outer, nesting)
    ensures !tr.changed ==> tr.out == entry.value
  {
    hide Applies, LooksLikeEncodedJsonContainer, Masked, p.Quiet, p.Grows, p.Explains;
    if LooksLikeEncodedJsonContainer(entry.value) {
      UnchangedOut(p, tr, entry.value, p.InnerContext(paths, entry, outer), true, nesting + 1);
    }
  }

  lemma TokenAt(d: Document, k: nat)
    requires Arena(d.paths) && Refs(d.paths, d.strings) && k < |d.strings|
    ensures TokenOf(d, k).ordinal == k
  {
    hide PathOf;
  }

  /** The document with the chosen strings put in holds the result of every step. */
  lemma RewrittenValues(p: Plugin, d: Document, steps: seq<Trace>)
    requires d.Valid() && |steps| == |d.strings| && p.mode == Redacting
    requires forall k :: 0 <= k < |steps| && !steps[k].changed ==> steps[k].out == d.strings[k].value
    ensures IndexText(d.Rewritten(p.Chosen(AllTokens(d), steps))).Some?
    ensures var now := IndexText(d.Rewritten(p.Chosen(AllTokens(d), steps))).value.strings;
            |now| == |steps| && forall k :: 0 <= k < |steps| ==> now[k].value == Sanitize(steps[k].out)
  {
    hide ParseText, IndexText, Sanitize, SpaceEnd, Fits, p.Chosen, TokenOf, Document.Rewritten;
    var list := p.Chosen(AllTokens(d), steps);
    AllTokensFit(d);
    p.ChosenFit(d, AllTokens(d), steps);
    p.ChosenFacts(AllTokens(d), steps);
    ListMeaning(d, list);
    var now := IndexText(d.Rewritten(list)).value.strings;
    forall k | 0 <= k < |steps| ensures now[k].value == Sanitize(steps[k].out) {
      ValuesValid(d, k);
      if steps[k].changed {
        assert Change(AllTokens(d), steps, k, Replacement(TokenOf(d, k), steps[k].out));
        var i :| 0 <= i < |list| && list[i] == Replacement(TokenOf(d, k), steps[k].out);
        TokenAt(d, k);
      } else {
        forall i | 0 <= i < |list| ensures list[i].token.ordinal != k {
          assert list[i] in list;
          var m :| Change(AllTokens(d), steps, m, list[i]);
          TokenAt(d, m);
        }
      }
    }
  }

  /** The result of a nested JSON text is well-formed UTF-8, as the text was. */
  lemma NestedValid(p: Plugin, d: Document, tr: Trace, k: nat, outer: FieldContext, nesting: nat)
    requires Slots(outer.fields) && d.Valid() && k < |d.strings| && p.StringStep(tr, d.paths, d.strings[k], outer, nesting)
    ensures tr.Json? ==> ValidUtf8(tr.out) && Sanitize(tr.out) == tr.out
  {
    hide Applies, ParseText, IndexText, LooksLikeEncodedJsonContainer, Masked, p.Quiet, p.Grows, Consecutive, p.Chosen,
         Sanitize, ValidUtf8, SpaceEnd, Fits, Bounded, Document.Rewritten;
    ValuesValid(d, k);
    if tr.Json? {
      assert p.Explains(tr, d.strings[k].value, p.InnerContext(d.paths, d.strings[k], outer), true, nesting + 1);
      assert p.JsonStep(tr, d.strings[k].value, p.InnerContext(d.paths, d.strings[k], outer), nesting + 1);
      RewrittenValid(tr.doc, p.Chosen(AllTokens(tr.doc), tr.steps));
      SanitizeFixes(tr.out);
    }
  }

  /** Sanitising leaves no byte of any accepted candidate behind, however deep it was nested. */
  lemma {:induction false} NothingSurvives(p: Plugin, tr: Trace, text: Bytes, outer: FieldContext, allowPlain: bool, nesting: nat)
    requires Slots(outer.fields) && p.Explains(tr, text, outer, allowPlain, nesting) && p.mode == Redacting
    ensures Hidden(p, tr, text, outer, allowPlain, nesting)
    decreases tr, 1
  {
    hide Applies, ParseText, IndexText, LooksLikeEncodedJsonContainer, Masked, p.Quiet, p.Grows, Consecutive, p.StringStep,
         p.Chosen, p.PlainStep, HiddenText, HiddenString, Sanitize, SpaceEnd, Fits;
    if Applies(outer) {
      PlainHides(p, tr, text, outer);
    } else if (allowPlain && !LooksLikeEncodedJsonContainer(text)) || ParseText(text).None? {
      PlainHides(p, tr, text, p.PlainContext(outer));
    } else {
      forall k | 0 <= k < |tr.steps|
        ensures !tr.steps[k].changed ==> tr.steps[k].out == tr.doc.strings[k].value
        ensures HiddenString(p, tr.steps[k], tr.doc.paths, tr.doc.strings[k], outer, nesting)
        ensures tr.steps[k].Json? ==> Sanitize(tr.steps[k].out) == tr.steps[k].out
      {
        NestedValid(p, tr.doc, tr.steps[k], k, outer, nesting);
        UnchangedString(p, tr.steps[k], tr.doc.paths, tr.doc.strings[k], outer, nesting);
        StringSurvives(p, tr.steps[k], tr.doc.paths, tr.doc.strings[k], outer, nesting);
      }
      RewrittenValues(p, tr.doc, tr.steps);
      IndexOf(tr.doc);
    }
  }

  lemma IndexOf(d: Document)
    requires d.Valid()
    ensures IndexText(d.body).Some? && IndexText(d.body).value.strings == d.strings && IndexText(d.body).value.paths == d.paths
  {
    hide ParseText, SpaceEnd, Fits, IndexValue;
  }

  lemma {:induction false} StringSurvives(p: Plugin, tr: Trace, paths: seq<PathNode>, entry: Entry, outer: FieldContext, nesting: nat)
    requires Slots(outer.fields) && Arena(paths) && -1 <= entry.pathRef < |paths|
    requires p.StringStep(tr, paths, entry, outer, nesting) && p.mode == Redacting
    ensures HiddenString(p, tr, paths, entry, outer, nesting)
    decreases tr, 2
  {
    hide p.Explains, p.PlainStep, Hidden, HiddenText, LooksLikeEncodedJsonContainer;
    var inner := p.InnerContext(paths, entry, outer);
    if LooksLikeEncodedJsonContainer(entry.value) {
      NothingSurvives(p, tr, entry.value, inner, true, nesting + 1);
    } else {
      PlainHides(p, tr, entry.value, inner);
    }
  }
}
