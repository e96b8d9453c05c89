/** What `Document.Replace` means for the text it rewrites. */
module ReplaceLaws {
  import opened ByteStrings
  import opened Utf8
  import opened JsonStrings
  import opened JsonGrammar
  import opened JsonIndex
  import opened Splicing
  import opened Payload

  /** The tree of the rewritten text. */
  ghost function NewTree(d: Document, list: seq<Replacement>): Value
    requires d.Valid()
  {
    d.Indexed();
    Substitute(d.Tree(), NewBodies(Leaves(d.Tree(), d.rootStart), d.ChangesOf(list)))
  }

  /** Whatever the replacements, the rewritten text is again a JSON text with the same
      surrounding whitespace, and it reads back as the tree with exchanged string bodies. */
  lemma ReplaceGivesText(d: Document, list: seq<Replacement>)
    requires d.Valid()
    ensures IsJsonText(d.Rewritten(list), d.body[..d.rootStart], NewTree(d, list), d.body[d.rootEnd..])
    ensures ParseText(d.Rewritten(list)) == Some(Parsed(NewTree(d, list), d.rootStart + |ValueBytes(NewTree(d, list))|))
  {
    hide ParseText, ValueBytes, SpaceEnd, WellFormed, Decode, IsChars, Splice, Ordered, Leaves, Bodies, Substitute,
         StringCount, IndexValue, PickEdits, NewBodies, Blank, Fits, IndexText, Arena, Refs, d.ChangesOf, Bounded;
    var changes := d.ChangesOf(list);
    d.Indexed();
    d.Rewritable(changes);
    TextSound(d.body);
    NewBodiesOk(d, changes);
    SubstituteWellFormed(d.Tree(), NewBodies(Leaves(d.Tree(), d.rootStart), changes));
    TextComplete(d.Rewritten(list), d.body[..d.rootStart], NewTree(d, list), d.body[d.rootEnd..]);
  }

  /** Only string bodies were exchanged: putting the old ones back restores the old tree. */
  lemma ReplaceKeepsShape(d: Document, list: seq<Replacement>)
    requires d.Valid()
    ensures StringCount(NewTree(d, list)) == StringCount(d.Tree())
    ensures Bodies(NewTree(d, list)) == NewBodies(Leaves(d.Tree(), d.rootStart), d.ChangesOf(list))
    ensures Substitute(NewTree(d, list), Bodies(d.Tree())) == d.Tree()
  {
    d.Indexed();
    SubstituteExact(d.Tree(), NewBodies(Leaves(d.Tree(), d.rootStart), d.ChangesOf(list)));
  }

  /** The strings of the rewritten text, scanned again: each changed one decodes to the
      requested value coerced to UTF-8, every other one decodes as before. */
  lemma ReplaceKeepsMeaning(d: Document, list: seq<Replacement>)
    requires d.Valid()
    ensures IndexText(d.Rewritten(list)).Some?
    ensures var now := IndexText(d.Rewritten(list)).value.strings; var changes := d.ChangesOf(list);
            |now| == |d.strings|
            && forall k :: 0 <= k < |now| ==>
                 now[k].value == if k in changes then Sanitize(changes[k]) else d.strings[k].value
  {
    hide ValueBytes, SpaceEnd, Decode, IsChars, Splice, Ordered, Leaves, Bodies, Substitute, StringCount, IndexValue,
         ParseValue, ParseText;
    d.Indexed();
    ReplaceGivesText(d, list);
    ReplaceKeepsShape(d, list);
    NewValues(d, d.Rewritten(list), d.ChangesOf(list), NewTree(d, list));
  }

  /** The values of a scanned document are valid UTF-8. */
  lemma ValuesValid(d: Document, k: nat)
    requires d.Valid() && k < |d.strings|
    ensures ValidUtf8(d.strings[k].value) && Sanitize(d.strings[k].value) == d.strings[k].value
  {
    hide ParseText, ValueBytes, SpaceEnd, WellFormed, Decode, Sanitize, ValidUtf8, Leaves, StringCount, Fits, IndexText;
    d.Indexed();
    DecodeValid(Leaves(d.Tree(), d.rootStart)[k].body);
    SanitizeFixes(d.strings[k].value);
  }

  /** Each string value stands in its text between two quotes. */
  ghost predicate QuotesAt(body: Bytes, e: Entry) {
    e.start + 2 <= e.end <= |body| && body[e.start] == QUOTE && body[e.end - 1] == QUOTE
  }

  lemma StringsQuoted(d: Document)
    requires d.Valid()
    ensures forall k :: 0 <= k < |d.strings| ==> QuotesAt(d.body, d.strings[k])
  {
    hide ParseText, ValueBytes, SpaceEnd, WellFormed, Decode, Leaves, StringCount, Fits, IndexText, Bodies;
    d.Indexed();
    var leaves := Leaves(d.Tree(), d.rootStart);
    LeavesAt(d.body, d.rootStart, d.rootEnd, d.Tree());
    forall k | 0 <= k < |d.strings| ensures QuotesAt(d.body, d.strings[k]) {
      var l := leaves[k];
      assert At(d.body, l.start, l.end, Quoted(l.body));
      var q := d.body[l.start..l.end];
      assert q[0] == QUOTE && q[|q| - 1] == QUOTE && |q| >= 2;
    }
  }

  lemma CutAt(text: Bytes, from: nat, at: nat)
    requires from <= at < |text| && text[at] == QUOTE && ValidUtf8(text[from..])
    ensures ValidUtf8(text[from..at]) && ValidUtf8(text[at + 1..])
  {
    assert text[from..] == text[from..at] + [QUOTE] + text[at + 1..];
    ValidSplit(text[from..at], QUOTE, text[at + 1..]);
  }

  lemma {:induction false} SplicedValid(text: Bytes, from: nat, strings: seq<Entry>, changes: Changes, k: nat)
    requires k <= |strings| && from <= |text| && Ordered(from, |text|, PickEdits(strings, changes, k)) && ValidUtf8(text[from..])
    requires forall i :: k <= i < |strings| ==> QuotesAt(text, strings[i])
    ensures ValidUtf8(Splice(text, from, |text|, PickEdits(strings, changes, k)))
    decreases |strings| - k
  {
    hide ValidUtf8, Encode;
    if k == |strings| {
      assert text[from..|text|] == text[from..];
    } else if k !in changes {
      SplicedValid(text, from, strings, changes, k + 1);
    } else {
      var e, rest := strings[k], PickEdits(strings, changes, k + 1);
      assert PickEdits(strings, changes, k)[1..] == rest;
      CutAt(text, from, e.start);
      CutAt(text, e.start + 1, e.end - 1);
      SplicedValid(text, e.end, strings, changes, k + 1);
      EncodeValid(changes[k]);
      ValidAppend(text[from..e.start], Encode(changes[k]));
      ValidAppend(text[from..e.start] + Encode(changes[k]), Splice(text, e.end, |text|, rest));
    }
  }

  /** A text in well-formed UTF-8 stays so, whatever is put into it. */
  lemma RewrittenValid(d: Document, list: seq<Replacement>)
    requires d.Valid() && ValidUtf8(d.body)
    ensures ValidUtf8(d.Rewritten(list))
  {
    hide ParseText, SpaceEnd, Fits, IndexText, ValidUtf8, PickEdits, Splice, Ordered, Bounded, d.ChangesOf;
    d.Rewritable(d.ChangesOf(list));
    StringsQuoted(d);
    assert d.body[0..] == d.body;
    SplicedValid(d.body, 0, d.strings, d.ChangesOf(list), 0);
  }

  /** What becomes of each string: those in the list get their requested values, coerced to
      UTF-8, all others keep theirs. */
  lemma ListMeaning(d: Document, list: seq<Replacement>)
    requires d.Valid() && d.AllOwned(list) && Document.DistinctTokens(list)
    ensures IndexText(d.Rewritten(list)).Some? && |IndexText(d.Rewritten(list)).value.strings| == |d.strings|
    ensures var now := IndexText(d.Rewritten(list)).value.strings;
            (forall i :: 0 <= i < |list| ==> now[list[i].token.ordinal].value == Sanitize(list[i].value))
            && forall k :: 0 <= k < |now| && (forall i :: 0 <= i < |list| ==> list[i].token.ordinal != k) ==>
                 now[k].value == d.strings[k].value
  {
    hide ParseText, IndexText, Sanitize, SpaceEnd, Fits, Splice, PickEdits, PathOf;
    ReplaceKeepsMeaning(d, list);
    var now, changes := IndexText(d.Rewritten(list)).value.strings, d.ChangesOf(list);
    forall i | 0 <= i < |list| ensures now[list[i].token.ordinal].value == Sanitize(list[i].value) {
      var k := list[i].token.ordinal;
      ValuesValid(d, k);
      if k in changes {
        var j :| d.Changing(list, k, j) && changes[k] == list[j].value;
        assert j == i;
      } else {
        assert !d.Changing(list, k, i);
      }
    }
    forall k | 0 <= k < |now| && forall i :: 0 <= i < |list| ==> list[i].token.ordinal != k
      ensures now[k].value == d.strings[k].value
    {
      assert k !in changes;
    }
  }

  lemma NewBodiesOk(d: Document, changes: Changes)
    requires d.Valid()
    ensures var leaves := Leaves(d.Tree(), d.rootStart);
            forall k :: 0 <= k < |leaves| ==> IsChars(NewBodies(leaves, changes)[k])
    ensures var leaves := Leaves(d.Tree(), d.rootStart);
            forall k :: 0 <= k < |leaves| ==>
              Decode(NewBodies(leaves, changes)[k])
              == if k in changes then Sanitize(changes[k]) else Decode(leaves[k].body)
  {
    hide ParseText, ValueBytes, SpaceEnd, WellFormed, Decode, EncodeBody, Sanitize, IsChars, Leaves, Bodies, StringCount;
    d.Indexed();
    TextSound(d.body);
    BodiesWellFormed(d.Tree());
    LeavesAt(d.body, d.rootStart, d.rootEnd, d.Tree());
    forall k: nat | k in changes
      ensures IsChars(EncodeBody(changes[k])) && Decode(EncodeBody(changes[k])) == Sanitize(changes[k])
    {
      EncodeDecode(changes[k]);
    }
  }

  lemma NewValues(d: Document, out: Bytes, changes: Changes, v: Value)
    requires d.Valid() && ParseText(out).Some? && ParseText(out).value.tree == v
    requires StringCount(v) == |d.strings|
    requires Bodies(v) == NewBodies(Leaves(d.Tree(), d.rootStart), changes)
    ensures |IndexText(out).value.strings| == |d.strings|
    ensures forall k {:trigger IndexText(out).value.strings[k]} :: 0 <= k < |d.strings| ==>
              IndexText(out).value.strings[k].value
              == if k in changes then Sanitize(changes[k]) else d.strings[k].value
  {
    hide ValueBytes, SpaceEnd, WellFormed, Decode, EncodeBody, Sanitize, IsChars, Leaves, Bodies, StringCount, IndexValue,
         ParseValue;
    var pos := SpaceEnd(out, 0);
    d.Indexed();
    NewBodiesOk(d, changes);
    ParseSound(out, pos);
    LeavesAt(out, pos, ParseText(out).value.end, v);
    IndexDescribes(v, pos, 1, InvalidKind, ROOT_PATH, EMPTY);
    var r := IndexText(out).value.strings;
    assert r == r[|EMPTY.strings|..];
    forall k | 0 <= k < |d.strings|
      ensures r[k].value == if k in changes then Sanitize(changes[k]) else d.strings[k].value
    {
      var l := Leaves(v, pos)[k];
      assert l.body == Bodies(v)[k];
    }
  }

  /** A change is reported exactly when some requested value differs from the decoded one. */
  lemma ChangedExactly(d: Document, list: seq<Replacement>)
    requires d.Valid() && d.AllOwned(list)
    ensures d.ChangesOf(list) != map[] <==> exists i :: 0 <= i < |list| && list[i].value != list[i].token.value
  {
    if exists i :: 0 <= i < |list| && list[i].value != list[i].token.value {
      var i :| 0 <= i < |list| && list[i].value != list[i].token.value;
      assert d.Owns(list[i].token);
      assert d.Changing(list, list[i].token.ordinal, i);
      assert list[i].token.ordinal in d.ChangesOf(list);
    }
    if d.ChangesOf(list) != map[] {
      var k :| k in d.ChangesOf(list);
      var i :| d.Changing(list, k, i);
      assert d.Owns(list[i].token);
    }
  }

  // ----- order of the list ------------------------------------------------

  lemma CountTwo<T>(s: seq<T>, i: nat, j: nat)
    requires i < j < |s| && s[i] == s[j]
    ensures multiset(s)[s[i]] >= 2
  {
    assert s == s[..j] + s[j..];
    assert s[i] == s[..j][i] && s[j] == s[j..][0];
    assert multiset(s[..j])[s[i]] >= 1 && multiset(s[j..])[s[j]] >= 1;
  }

  lemma TwoPlaces<T>(s: seq<T>, x: T) returns (i: nat, j: nat)
    requires multiset(s)[x] >= 2
    ensures i < j < |s| && s[i] == x && s[j] == x
  {
    assert x in s;
    var k :| 0 <= k < |s| && s[k] == x;
    assert s == s[..k] + [x] + s[k + 1..];
    assert multiset(s) == multiset(s[..k]) + multiset{x} + multiset(s[k + 1..]);
    if x in s[..k] {
      i :| 0 <= i < k && s[..k][i] == x;
      j := k;
    } else {
      i := k;
      var m :| 0 <= m < |s[k + 1..]| && s[k + 1..][m] == x;
      j := k + 1 + m;
    }
  }

  lemma DistinctPermutes(list: seq<Replacement>, list': seq<Replacement>)
    requires multiset(list) == multiset(list') && Document.DistinctTokens(list)
    ensures Document.DistinctTokens(list')
  {
    forall i, j | 0 <= i < j < |list'| && list'[i].token.ordinal == list'[j].token.ordinal ensures false {
      if list'[i] == list'[j] {
        CountTwo(list', i, j);
        var a, b := TwoPlaces(list, list'[i]);
      } else {
        var a := Find(list, list', i);
        var b := Find(list, list', j);
      }
    }
  }

  lemma Find<T>(s: seq<T>, t: seq<T>, i: nat) returns (j: nat)
    requires multiset(s) == multiset(t) && i < |t|
    ensures j < |s| && s[j] == t[i]
  {
    assert t[i] in multiset(t);
    assert t[i] in s;
    j :| 0 <= j < |s| && s[j] == t[i];
  }

  lemma AcceptsPermutes(d: Document, list: seq<Replacement>, list': seq<Replacement>)
    requires d.Valid() && multiset(list) == multiset(list') && d.Accepts(list)
    ensures d.Accepts(list') && d.ChangesOf(list') == d.ChangesOf(list)
  {
    DistinctPermutes(list, list');
    assert |list| == |multiset(list)| == |multiset(list')| == |list'|;
    forall i | 0 <= i < |list'| ensures d.Owns(list'[i].token) && |list'[i].value| <= d.limits.stringBytes {
      var j := Find(list, list', i);
    }
    var m, m' := d.ChangesOf(list), d.ChangesOf(list');
    forall k: nat ensures k in m <==> k in m' {
      if k in m {
        var i :| d.Changing(list, k, i);
        var j := Find(list', list, i);
        assert d.Changing(list', k, j);
      }
      if k in m' {
        var i :| d.Changing(list', k, i);
        var j := Find(list, list', i);
        assert d.Changing(list, k, j);
      }
    }
    forall k | k in m ensures m[k] == m'[k] {
      var i :| d.Changing(list, k, i) && m[k] == list[i].value;
      var i' :| d.Changing(list', k, i') && m'[k] == list'[i'].value;
      var j := Find(list, list', i');
      assert list[j].token.ordinal == list[i].token.ordinal;
    }
  }

  /** Replacement order is irrelevant: both orders are accepted with the same bytes, or
      both are refused; selecting one string twice is always refused. */
  lemma ReplaceOrderIrrelevant(d: Document, list: seq<Replacement>, list': seq<Replacement>)
    requires d.Valid() && multiset(list) == multiset(list')
    ensures d.Accepts(list) <==> d.Accepts(list')
    ensures d.Accepts(list) ==> d.Rewritten(list) == d.Rewritten(list')
    ensures (exists i, j :: 0 <= i < j < |list| && list[i].token.ordinal == list[j].token.ordinal) ==> !d.Accepts(list)
  {
    if d.Accepts(list) { AcceptsPermutes(d, list, list'); }
    if d.Accepts(list') { AcceptsPermutes(d, list', list); }
  }
}
