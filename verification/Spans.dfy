/** The span collector: incremental union of overlapping detector spans in a sorted
    slice, with the metadata rule that keeps blocking rules visible. */
module Spans {

  datatype Kind = Email | Phone | IdCard | BankCard | Ip | Secret

  datatype Span = Span(start: int, end: int, kind: Kind, rule: string)

  predicate InText(s: Span, textLen: nat) { 0 <= s.start < s.end <= textLen }

  /** The two spans share a byte. */
  predicate Overlap(a: Span, b: Span) { a.start < b.end && b.start < a.end }

  predicate Inside(a: Span, s: Span) { s.start <= a.start && a.end <= s.end }

  predicate Disjoint(spans: seq<Span>) {
    (forall i :: 0 <= i < |spans| ==> spans[i].start < spans[i].end)
    && forall i, j :: 0 <= i < j < |spans| ==> spans[i].end <= spans[j].start
  }

  // ----- the hulls of the connected components ----------------------------

  /** Some accepted span has bytes on both sides of offset `p`. */
  ghost predicate Crossed(accepted: seq<Span>, p: int) {
    exists i :: 0 <= i < |accepted| && accepted[i].start < p < accepted[i].end
  }

  ghost predicate Held(a: Span, spans: seq<Span>) {
    exists i :: 0 <= i < |spans| && Inside(a, spans[i])
  }

  /** `s` starts and ends where accepted spans do, and nothing splits it. */
  ghost predicate IsHull(accepted: seq<Span>, s: Span) {
    (exists i :: 0 <= i < |accepted| && accepted[i].start == s.start && accepted[i].end <= s.end)
    && (exists i :: 0 <= i < |accepted| && accepted[i].end == s.end && s.start <= accepted[i].start)
    && forall p :: s.start < p < s.end ==> Crossed(accepted, p)
  }

  ghost predicate Hulls(accepted: seq<Span>, spans: seq<Span>) {
    Disjoint(spans)
    && (forall i :: 0 <= i < |accepted| ==> accepted[i].start < accepted[i].end && Held(accepted[i], spans))
    && forall i :: 0 <= i < |spans| ==> IsHull(accepted, spans[i])
  }

  lemma Holder(a: Span, spans: seq<Span>) returns (i: nat)
    requires Held(a, spans)
    ensures i < |spans| && Inside(a, spans[i])
  {
    i :| 0 <= i < |spans| && Inside(a, spans[i]);
  }

  lemma HeldAt(a: Span, spans: seq<Span>, i: nat)
    requires i < |spans| && Inside(a, spans[i])
    ensures Held(a, spans)
  {
  }

  lemma Crossing(accepted: seq<Span>, p: int) returns (i: nat)
    requires Crossed(accepted, p)
    ensures i < |accepted| && accepted[i].start < p < accepted[i].end
  {
    i :| 0 <= i < |accepted| && accepted[i].start < p < accepted[i].end;
  }

  lemma CrossedAt(accepted: seq<Span>, p: int, i: nat)
    requires i < |accepted| && accepted[i].start < p < accepted[i].end
    ensures Crossed(accepted, p)
  {
  }

  lemma HullParts(accepted: seq<Span>, s: Span) returns (i: nat, j: nat)
    requires IsHull(accepted, s)
    ensures i < |accepted| && accepted[i].start == s.start && accepted[i].end <= s.end
    ensures j < |accepted| && accepted[j].end == s.end && s.start <= accepted[j].start
    ensures forall p :: s.start < p < s.end ==> Crossed(accepted, p)
  {
    i :| 0 <= i < |accepted| && accepted[i].start == s.start && accepted[i].end <= s.end;
    j :| 0 <= j < |accepted| && accepted[j].end == s.end && s.start <= accepted[j].start;
  }

  lemma HullFrom(accepted: seq<Span>, s: Span, i: nat, j: nat)
    requires i < |accepted| && accepted[i].start == s.start && accepted[i].end <= s.end
    requires j < |accepted| && accepted[j].end == s.end && s.start <= accepted[j].start
    requires forall p :: s.start < p < s.end ==> Crossed(accepted, p)
    ensures IsHull(accepted, s)
  {
  }

  // ----- components -------------------------------------------------------

  /** Consecutive spans of the chain share bytes, and all of them were accepted. */
  ghost predicate Chain(accepted: seq<Span>, c: seq<Span>) {
    (forall i :: 0 <= i < |c| ==> c[i] in accepted)
    && forall i, j :: 0 <= i < j < |c| && j == i + 1 ==> Overlap(c[i], c[j])
  }

  ghost predicate Links(accepted: seq<Span>, c: seq<Span>, a: Span, b: Span) {
    |c| > 0 && c[0] == a && c[|c| - 1] == b && Chain(accepted, c)
  }

  ghost predicate Connected(accepted: seq<Span>, a: Span, b: Span) {
    exists c: seq<Span> :: Links(accepted, c, a, b)
  }

  /** Two accepted spans end up in one span exactly when a chain of overlaps links them. */
  lemma HullsAreComponents(accepted: seq<Span>, spans: seq<Span>, a: Span, b: Span)
    requires Hulls(accepted, spans) && a in accepted && b in accepted
    ensures Connected(accepted, a, b) <==> exists i :: 0 <= i < |spans| && Inside(a, spans[i]) && Inside(b, spans[i])
  {
    hide IsHull, Held, Crossed, Chain;
    if Connected(accepted, a, b) {
      var c: seq<Span> :| Links(accepted, c, a, b);
      var i := Holder(a, spans);
      ChainStays(accepted, spans, c, i, |c| - 1);
    }
    if exists i :: 0 <= i < |spans| && Inside(a, spans[i]) && Inside(b, spans[i]) {
      var i :| 0 <= i < |spans| && Inside(a, spans[i]) && Inside(b, spans[i]);
      if a.start <= b.start {
        var c := FindChain(accepted, spans[i], a, b);
      } else {
        var c := FindChain(accepted, spans[i], b, a);
        ReverseChain(accepted, c);
        assert Links(accepted, Reversed(c), a, b);
      }
    }
  }

  lemma {:induction false} ChainStays(accepted: seq<Span>, spans: seq<Span>, c: seq<Span>, i: nat, k: nat)
    requires Hulls(accepted, spans) && k < |c| && Chain(accepted, c) && i < |spans| && Inside(c[0], spans[i])
    ensures Inside(c[k], spans[i])
  {
    hide IsHull, Held, Crossed;
    if k > 0 {
      ChainStays(accepted, spans, c, i, k - 1);
      assert Overlap(c[k - 1], c[k]) && c[k - 1] in accepted && c[k] in accepted;
      var j := Holder(c[k], spans);
      Apart(spans, i, j);
      Apart(spans, j, i);
    }
  }

  /** Walks right from `a`, always stepping to a span that crosses the end reached. */
  lemma {:induction false} FindChain(accepted: seq<Span>, s: Span, a: Span, b: Span) returns (c: seq<Span>)
    requires IsHull(accepted, s) && a in accepted && b in accepted
    requires s.start < a.end && a.start < b.end <= s.end
    requires forall i :: 0 <= i < |accepted| ==> accepted[i].start < accepted[i].end
    ensures Links(accepted, c, a, b)
    decreases b.start - a.end
  {
    hide IsHull, Crossed;
    if b.start < a.end {
      c := [a, b];
    } else {
      var _, _ := HullParts(accepted, s);
      var i := Crossing(accepted, a.end);
      var rest := FindChain(accepted, s, accepted[i], b);
      c := [a] + rest;
      assert Overlap(a, rest[0]);
    }
  }

  function Reversed(c: seq<Span>): (r: seq<Span>)
    ensures |r| == |c| && forall i :: 0 <= i < |c| ==> r[i] == c[|c| - 1 - i]
  {
    seq(|c|, i requires 0 <= i < |c| => c[|c| - 1 - i])
  }

  lemma ReverseChain(accepted: seq<Span>, c: seq<Span>)
    requires Chain(accepted, c)
    ensures Chain(accepted, Reversed(c))
  {
  }

  // ----- one answer per set of accepted spans -----------------------------

  lemma HullInside(accepted: seq<Span>, s: seq<Span>, t: seq<Span>, i: nat) returns (j: nat)
    requires Hulls(accepted, s) && Hulls(accepted, t) && i < |s|
    ensures j < |t| && Inside(s[i], t[j])
  {
    hide IsHull, Held, Crossed;
    var k, _ := HullParts(accepted, s[i]);
    j := Holder(accepted[k], t);
    if s[i].end > t[j].end {
      var m := Crossing(accepted, t[j].end);
      var u := Holder(accepted[m], t);
      Apart(t, u, j);
      Apart(t, j, u);
    }
  }

  lemma Apart(spans: seq<Span>, i: nat, j: nat)
    requires Disjoint(spans) && i < |spans| && j < |spans|
    ensures i < j ==> spans[i].end <= spans[j].start
    ensures spans[i].start < spans[i].end
  {
  }

  predicate SameExtent(a: Span, b: Span) { a.start == b.start && a.end == b.end }

  lemma HullShared(accepted: seq<Span>, s: seq<Span>, t: seq<Span>, i: nat) returns (j: nat)
    requires Hulls(accepted, s) && Hulls(accepted, t) && i < |s|
    ensures j < |t| && SameExtent(s[i], t[j])
  {
    hide IsHull, Held, Crossed;
    j := HullInside(accepted, s, t, i);
    var k := HullInside(accepted, t, s, j);
    Apart(s, i, k);
    Apart(s, k, i);
  }

  /** The spans depend on the accepted spans alone, not on the order they came in. */
  lemma HullsUnique(accepted: seq<Span>, s: seq<Span>, t: seq<Span>)
    requires Hulls(accepted, s) && Hulls(accepted, t)
    ensures |s| == |t| && forall i :: 0 <= i < |s| ==> SameExtent(s[i], t[i])
  {
    hide IsHull, Held, Crossed;
    HullsPrefix(accepted, s, t, |s|);
    HullsPrefix(accepted, t, s, |t|);
  }

  lemma {:induction false} HullsPrefix(accepted: seq<Span>, s: seq<Span>, t: seq<Span>, n: nat)
    requires Hulls(accepted, s) && Hulls(accepted, t) && n <= |s|
    ensures n <= |t| && forall i :: 0 <= i < n ==> SameExtent(s[i], t[i])
  {
    hide IsHull, Held, Crossed;
    if n > 0 {
      HullsPrefix(accepted, s, t, n - 1);
      var j := HullShared(accepted, s, t, n - 1);
      LaterHull(s, t, n - 1, j);
      var m := HullShared(accepted, t, s, n - 1);
      LaterHull(t, s, n - 1, m);
      Apart(t, n - 1, j);
      Apart(s, n - 1, m);
      Apart(s, n - 1, n - 1);
      Apart(t, n - 1, n - 1);
    }
  }

  lemma LaterHull(s: seq<Span>, t: seq<Span>, n: nat, j: nat)
    requires Disjoint(s) && Disjoint(t) && n < |s| && j < |t| && SameExtent(s[n], t[j])
    requires forall i :: 0 <= i < n && i < |t| ==> SameExtent(s[i], t[i])
    ensures j >= n
  {
    if j < n {
      Apart(s, j, n);
      Apart(s, n, n);
    }
  }

  lemma HullsPermute(accepted: seq<Span>, accepted': seq<Span>, spans: seq<Span>)
    requires Hulls(accepted, spans) && forall x :: x in accepted <==> x in accepted'
    ensures Hulls(accepted', spans)
  {
    hide IsHull, Held, Crossed;
    forall i | 0 <= i < |accepted'| ensures accepted'[i].start < accepted'[i].end && Held(accepted'[i], spans) {
      assert accepted'[i] in accepted;
    }
    forall i | 0 <= i < |spans| ensures IsHull(accepted', spans[i]) {
      var k, l := HullParts(accepted, spans[i]);
      var k' := IndexOf(accepted', accepted[k]);
      var l' := IndexOf(accepted', accepted[l]);
      forall p | spans[i].start < p < spans[i].end ensures Crossed(accepted', p) {
        var c := Crossing(accepted, p);
        var c' := IndexOf(accepted', accepted[c]);
        CrossedAt(accepted', p, c');
      }
      HullFrom(accepted', spans[i], k', l');
    }
  }

  lemma IndexOf(s: seq<Span>, x: Span) returns (i: nat)
    requires x in s
    ensures i < |s| && s[i] == x
  {
    i :| 0 <= i < |s| && s[i] == x;
  }

  /** Two orders of acceptance give the same spans. */
  lemma OrderIrrelevant(accepted: seq<Span>, accepted': seq<Span>, s: seq<Span>, t: seq<Span>)
    requires Hulls(accepted, s) && Hulls(accepted', t) && forall x :: x in accepted <==> x in accepted'
    ensures |s| == |t| && forall i :: 0 <= i < |s| ==> SameExtent(s[i], t[i])
  {
    HullsPermute(accepted', accepted, t);
    HullsUnique(accepted, s, t);
  }

  // ----- adding one span --------------------------------------------------

  datatype Merge = Merge(next: nat, merged: Span)

  /** One turn of the merge loop: `merged` swallows `e`. */
  function Swallow(merged: Span, e: Span, take: bool): Span {
    Span(if e.start < merged.start then e.start else merged.start,
         if e.end > merged.end then e.end else merged.end,
         if take then e.kind else merged.kind, if take then e.rule else merged.rule)
  }

  /** Whether the swallowed span's metadata wins: it is the first one and the candidate is
      not preferred, or it is preferred and the metadata so far is not. */
  predicate Takes(first: bool, pref: bool, ePref: bool) { (first && !pref) || (!pref && ePref) }

  /** The merge loop from span `j` on, with `pref` telling whether `merged` is preferred. */
  function Absorb(spans: seq<Span>, i: nat, j: nat, merged: Span, pref: bool, preferred: set<string>): (r: Merge)
    requires j <= |spans|
    ensures j <= r.next <= |spans|
    decreases |spans| - j
  {
    if j < |spans| && spans[j].start < merged.end then
      var ePref := spans[j].rule in preferred;
      var take := Takes(j == i, pref, ePref);
      Absorb(spans, i, j + 1, Swallow(merged, spans[j], take), if take then ePref else pref, preferred)
    else Merge(j, merged)
  }

  /** Index of the first span that ends after `start`. */
  function FirstAfter(spans: seq<Span>, start: int): (i: nat)
    ensures i <= |spans|
    ensures forall k :: 0 <= k < i ==> spans[k].end <= start
    ensures i < |spans| ==> spans[i].end > start
  {
    if spans == [] || spans[0].end > start then 0
    else
      assert forall k :: 1 <= k < |spans| ==> spans[k] == spans[1..][k - 1];
      1 + FirstAfter(spans[1..], start)
  }

  function MergeOf(spans: seq<Span>, candidate: Span, preferred: set<string>): (r: Merge)
    ensures FirstAfter(spans, candidate.start) <= r.next <= |spans|
  {
    var i := FirstAfter(spans, candidate.start);
    Absorb(spans, i, i, candidate, candidate.rule in preferred, preferred)
  }

  /** The spans after adding a valid candidate. */
  function Added(spans: seq<Span>, candidate: Span, preferred: set<string>): seq<Span> {
    var m := MergeOf(spans, candidate, preferred);
    spans[..FirstAfter(spans, candidate.start)] + [m.merged] + spans[m.next..]
  }

  /** `merged` is the hull of the candidate and the spans `i..j` it has absorbed. */
  predicate MergedExtent(spans: seq<Span>, i: nat, j: nat, c: Span, merged: Span)
    requires i <= j <= |spans|
  {
    merged.start == (if i < j && spans[i].start < c.start then spans[i].start else c.start)
    && merged.end == (if i < j && spans[j - 1].end > c.end then spans[j - 1].end else c.end)
    && forall k :: i <= k < j ==> spans[k].start < c.end
  }

  lemma {:induction false} AbsorbExtent(spans: seq<Span>, i: nat, j: nat, c: Span, merged: Span, pref: bool, preferred: set<string>)
    requires Disjoint(spans) && i <= j <= |spans| && c.start < c.end
    requires i < |spans| ==> spans[i].end > c.start
    requires MergedExtent(spans, i, j, c, merged)
    ensures var r := Absorb(spans, i, j, merged, pref, preferred);
            MergedExtent(spans, i, r.next, c, r.merged) && (r.next < |spans| ==> r.merged.end <= spans[r.next].start)
    decreases |spans| - j
  {
    if j < |spans| && spans[j].start < merged.end {
      var ePref := spans[j].rule in preferred;
      var take := Takes(j == i, pref, ePref);
      AbsorbStep(spans, i, j, c, merged, take);
      AbsorbExtent(spans, i, j + 1, c, Swallow(merged, spans[j], take), if take then ePref else pref, preferred);
    }
  }

  lemma AbsorbStep(spans: seq<Span>, i: nat, j: nat, c: Span, merged: Span, take: bool)
    requires Disjoint(spans) && i <= j < |spans| && c.start < c.end && spans[i].end > c.start
    requires MergedExtent(spans, i, j, c, merged) && spans[j].start < merged.end
    ensures MergedExtent(spans, i, j + 1, c, Swallow(merged, spans[j], take))
  {
    Apart(spans, i, j);
    Apart(spans, j, j);
    if i < j { Apart(spans, j - 1, j); }
  }

  /** Adding a candidate keeps the spans the hulls of everything accepted. */
  lemma AddedHulls(accepted: seq<Span>, spans: seq<Span>, c: Span, preferred: set<string>)
    requires Hulls(accepted, spans) && c.start < c.end
    ensures Hulls(accepted + [c], Added(spans, c, preferred))
  {
    hide IsHull, Held, Crossed, Absorb;
    var i := FirstAfter(spans, c.start);
    var m := MergeOf(spans, c, preferred);
    AbsorbExtent(spans, i, i, c, c, c.rule in preferred, preferred);
    MergedHulls(accepted, spans, c, i, m.next, m.merged);
  }

  lemma MergedHulls(accepted: seq<Span>, spans: seq<Span>, c: Span, i: nat, j: nat, merged: Span)
    requires Hulls(accepted, spans) && i <= j <= |spans| && c.start < c.end
    requires forall k :: 0 <= k < i ==> spans[k].end <= c.start
    requires i < |spans| ==> spans[i].end > c.start
    requires MergedExtent(spans, i, j, c, merged) && (j < |spans| ==> merged.end <= spans[j].start)
    ensures Hulls(accepted + [c], spans[..i] + [merged] + spans[j..])
  {
    hide IsHull, Held, Crossed;
    var now, acc := spans[..i] + [merged] + spans[j..], accepted + [c];
    MergedDisjoint(spans, c, i, j, merged);
    forall k | 0 <= k < |acc| ensures acc[k].start < acc[k].end && Held(acc[k], now) {
      if k == |accepted| {
        SelfInside(spans, c, i, j, merged);
        HeldAt(acc[k], now, i);
      } else {
        var h := Holder(accepted[k], spans);
        NewHolder(spans, c, i, j, merged, accepted[k], h);
        HeldAt(acc[k], now, NewIndex(h, i, j));
      }
    }
    forall k | 0 <= k < |now| ensures IsHull(acc, now[k]) {
      if k == i {
        MergedIsHull(accepted, spans, c, i, j, merged);
      } else {
        assert now[k] == spans[if k < i then k else k - i - 1 + j];
        HullMonotone(accepted, c, now[k]);
      }
    }
  }

  /** Where the old span `h` sits after the merge of `i..j`. */
  function NewIndex(h: nat, i: nat, j: nat): nat
    requires i <= j
  {
    if h < i then h else if h < j then i else h - j + i + 1
  }

  lemma MergedDisjoint(spans: seq<Span>, c: Span, i: nat, j: nat, merged: Span)
    requires Disjoint(spans) && i <= j <= |spans| && c.start < c.end
    requires forall k :: 0 <= k < i ==> spans[k].end <= c.start
    requires MergedExtent(spans, i, j, c, merged) && (j < |spans| ==> merged.end <= spans[j].start)
    ensures Disjoint(spans[..i] + [merged] + spans[j..])
  {
    var now := spans[..i] + [merged] + spans[j..];
    forall x, y | 0 <= x < y < |now| ensures now[x].end <= now[y].start {
      if y < i { Apart(spans, x, y); }
      else if y == i { if i < j { Apart(spans, x, i); } }
      else if x == i { Apart(spans, j, y - i - 1 + j); }
      else { Apart(spans, if x < i then x else x - i - 1 + j, y - i - 1 + j); }
    }
    forall x | 0 <= x < |now| ensures now[x].start < now[x].end {
      if x != i { Apart(spans, if x < i then x else x - i - 1 + j, 0); }
    }
  }

  lemma SelfInside(spans: seq<Span>, c: Span, i: nat, j: nat, merged: Span)
    requires i <= j <= |spans| && MergedExtent(spans, i, j, c, merged)
    ensures Inside(c, merged)
  {
  }

  lemma NewHolder(spans: seq<Span>, c: Span, i: nat, j: nat, merged: Span, a: Span, h: nat)
    requires Disjoint(spans) && i <= j <= |spans| && MergedExtent(spans, i, j, c, merged)
    requires h < |spans| && Inside(a, spans[h])
    ensures Inside(a, (spans[..i] + [merged] + spans[j..])[NewIndex(h, i, j)])
  {
    if i <= h < j {
      Apart(spans, i, h);
      Apart(spans, h, j - 1);
      Apart(spans, j - 1, j - 1);
      Apart(spans, i, i);
    }
  }

  lemma HullMonotone(accepted: seq<Span>, c: Span, s: Span)
    requires IsHull(accepted, s)
    ensures IsHull(accepted + [c], s)
  {
    hide IsHull, Crossed;
    var acc := accepted + [c];
    var k, l := HullParts(accepted, s);
    forall p | s.start < p < s.end ensures Crossed(acc, p) {
      var x := Crossing(accepted, p);
      CrossedAt(acc, p, x);
    }
    HullFrom(acc, s, k, l);
  }

  lemma MergedIsHull(accepted: seq<Span>, spans: seq<Span>, c: Span, i: nat, j: nat, merged: Span)
    requires Hulls(accepted, spans) && i <= j <= |spans| && c.start < c.end
    requires i < |spans| ==> spans[i].end > c.start
    requires MergedExtent(spans, i, j, c, merged)
    ensures IsHull(accepted + [c], merged)
  {
    hide IsHull, Crossed, Held, Hulls;
    var acc := accepted + [c];
    var x, y := |accepted|, |accepted|;
    if i < j {
      HullsAt(accepted, spans, i);
      HullsAt(accepted, spans, j - 1);
      HullMonotone(accepted, c, spans[i]);
      HullMonotone(accepted, c, spans[j - 1]);
      var a, _ := HullParts(acc, spans[i]);
      var _, b := HullParts(acc, spans[j - 1]);
      HullsApart(accepted, spans, i, j - 1);
      if spans[i].start < c.start { x := a; }
      if spans[j - 1].end > c.end { y := b; }
    }
    forall p | merged.start < p < merged.end ensures Crossed(acc, p) {
      if c.start < p < c.end {
        CrossedAt(acc, p, |accepted|);
      } else if p <= c.start {
        assert spans[i].start < p < spans[i].end;
      } else {
        assert spans[j - 1].start < p < spans[j - 1].end;
      }
    }
    HullFrom(acc, merged, x, y);
  }

  lemma HullsAt(accepted: seq<Span>, spans: seq<Span>, i: nat)
    requires Hulls(accepted, spans) && i < |spans|
    ensures IsHull(accepted, spans[i])
  {
    hide IsHull, Held;
  }

  lemma HullsApart(accepted: seq<Span>, spans: seq<Span>, i: nat, j: nat)
    requires Hulls(accepted, spans) && i <= j < |spans|
    ensures spans[i].end <= spans[j].end && spans[i].start <= spans[j].start && spans[j].start < spans[j].end
  {
    hide IsHull, Held;
    Apart(spans, i, j);
    Apart(spans, j, j);
    Apart(spans, i, i);
  }

  // ----- metadata ---------------------------------------------------------

  /** The span's metadata is that of an accepted span inside it. */
  ghost predicate HasSource(accepted: seq<Span>, s: Span) {
    exists k :: 0 <= k < |accepted| && Inside(accepted[k], s) && accepted[k].rule == s.rule && accepted[k].kind == s.kind
  }

  /** An accepted span with a preferred rule is only covered by spans that carry one too. */
  predicate Unmasked(a: Span, spans: seq<Span>, preferred: set<string>) {
    a.rule in preferred ==> forall i :: 0 <= i < |spans| && Inside(a, spans[i]) ==> spans[i].rule in preferred
  }

  ghost predicate Labelled(accepted: seq<Span>, spans: seq<Span>, preferred: set<string>) {
    (forall i :: 0 <= i < |spans| ==> HasSource(accepted, spans[i]))
    && forall k :: 0 <= k < |accepted| ==> Unmasked(accepted[k], spans, preferred)
  }

  lemma SourceAt(accepted: seq<Span>, s: Span, k: nat)
    requires k < |accepted| && Inside(accepted[k], s) && accepted[k].rule == s.rule && accepted[k].kind == s.kind
    ensures HasSource(accepted, s)
  {
  }

  lemma Source(accepted: seq<Span>, s: Span) returns (k: nat)
    requires HasSource(accepted, s)
    ensures k < |accepted| && Inside(accepted[k], s) && accepted[k].rule == s.rule && accepted[k].kind == s.kind
  {
    k :| 0 <= k < |accepted| && Inside(accepted[k], s) && accepted[k].rule == s.rule && accepted[k].kind == s.kind;
  }

  predicate SameLabel(a: Span, b: Span) { a.rule == b.rule && a.kind == b.kind }

  /** Metadata of the merge: the candidate's or an absorbed span's, and preferred exactly
      when the candidate or an absorbed span is. */
  predicate MergedLabel(spans: seq<Span>, i: nat, j: nat, c: Span, merged: Span, preferred: set<string>)
    requires i <= j <= |spans|
  {
    (SameLabel(merged, c) || exists k :: i <= k < j && SameLabel(merged, spans[k]))
    && (merged.rule in preferred <==> c.rule in preferred || exists k :: i <= k < j && spans[k].rule in preferred)
  }

  lemma {:induction false} AbsorbLabel(spans: seq<Span>, i: nat, j: nat, c: Span, merged: Span, pref: bool, preferred: set<string>)
    requires i <= j <= |spans| && (pref <==> merged.rule in preferred)
    requires MergedLabel(spans, i, j, c, merged, preferred)
    ensures var r := Absorb(spans, i, j, merged, pref, preferred); MergedLabel(spans, i, r.next, c, r.merged, preferred)
    decreases |spans| - j
  {
    if j < |spans| && spans[j].start < merged.end {
      var ePref := spans[j].rule in preferred;
      var take := Takes(j == i, pref, ePref);
      assert take ==> SameLabel(Swallow(merged, spans[j], take), spans[j]);
      assert !take ==> SameLabel(Swallow(merged, spans[j], take), merged);
      AbsorbLabel(spans, i, j + 1, c, Swallow(merged, spans[j], take), if take then ePref else pref, preferred);
    }
  }

  /** Whose metadata the span gets that `c` is merged into: the candidate's when it is preferred or
      meets no span; otherwise that of the first preferred span it meets; otherwise that of the
      leftmost span it meets. */
  predicate RightLabel(spans: seq<Span>, c: Span, preferred: set<string>, merged: Span) {
    (c.rule in preferred || (forall k :: 0 <= k < |spans| ==> !Overlap(spans[k], c)) ==> SameLabel(merged, c))
    && (c.rule !in preferred ==>
          forall k :: 0 <= k < |spans| && Overlap(spans[k], c) && spans[k].rule in preferred
                      && (forall j :: 0 <= j < k && Overlap(spans[j], c) ==> spans[j].rule !in preferred) ==>
            SameLabel(merged, spans[k]))
    && (c.rule !in preferred && (forall k :: 0 <= k < |spans| && Overlap(spans[k], c) ==> spans[k].rule !in preferred) ==>
          forall k :: 0 <= k < |spans| && Overlap(spans[k], c) && (forall j :: 0 <= j < k ==> !Overlap(spans[j], c)) ==>
            SameLabel(merged, spans[k]))
  }

  /** The first preferred span from `i` on, before `j`; `j` when there is none. */
  function FirstPreferred(spans: seq<Span>, i: nat, j: nat, preferred: set<string>): (k: nat)
    requires i <= j <= |spans|
    ensures i <= k <= j && (k < j ==> spans[k].rule in preferred) && forall m :: i <= m < k ==> spans[m].rule !in preferred
    decreases j - i
  {
    if i == j || spans[i].rule in preferred then i else FirstPreferred(spans, i + 1, j, preferred)
  }

  /** The metadata after the spans from `i` to `j` have been absorbed. */
  predicate LabelSoFar(spans: seq<Span>, i: nat, j: nat, c: Span, merged: Span, pref: bool, preferred: set<string>)
    requires i <= j <= |spans|
  {
    var k := FirstPreferred(spans, i, j, preferred);
    (pref <==> c.rule in preferred || k < j)
    && SameLabel(merged, if c.rule in preferred || i == j then c else if k < j then spans[k] else spans[i])
  }

  lemma {:induction false} FirstPreferredNext(spans: seq<Span>, i: nat, j: nat, preferred: set<string>)
    requires i <= j < |spans|
    ensures var k := FirstPreferred(spans, i, j, preferred);
            FirstPreferred(spans, i, j + 1, preferred) == if k < j || spans[j].rule in preferred then k else j + 1
    decreases j - i
  {
    if i < j && spans[i].rule !in preferred {
      FirstPreferredNext(spans, i + 1, j, preferred);
    }
  }

  lemma {:induction false} AbsorbSoFar(spans: seq<Span>, i: nat, j: nat, c: Span, merged: Span, pref: bool, preferred: set<string>)
    returns (pref': bool)
    requires i <= j <= |spans| && LabelSoFar(spans, i, j, c, merged, pref, preferred)
    ensures var r := Absorb(spans, i, j, merged, pref, preferred); LabelSoFar(spans, i, r.next, c, r.merged, pref', preferred)
    decreases |spans| - j
  {
    if j < |spans| && spans[j].start < merged.end {
      var ePref := spans[j].rule in preferred;
      var take := Takes(j == i, pref, ePref);
      NextLabel(spans, i, j, c, merged, pref, preferred);
      hide LabelSoFar;
      pref' := AbsorbSoFar(spans, i, j + 1, c, Swallow(merged, spans[j], take), if take then ePref else pref, preferred);
    } else {
      pref' := pref;
    }
  }

  lemma NextLabel(spans: seq<Span>, i: nat, j: nat, c: Span, merged: Span, pref: bool, preferred: set<string>)
    requires i <= j < |spans| && LabelSoFar(spans, i, j, c, merged, pref, preferred)
    ensures var ePref := spans[j].rule in preferred; var take := Takes(j == i, pref, ePref);
            LabelSoFar(spans, i, j + 1, c, Swallow(merged, spans[j], take), if take then ePref else pref, preferred)
  {
    FirstPreferredNext(spans, i, j, preferred);
    hide FirstPreferred;
  }

  /** The merge gives exactly that metadata to the span that holds the candidate. */
  lemma AddedLabel(spans: seq<Span>, c: Span, preferred: set<string>)
    requires Disjoint(spans) && c.start < c.end
    ensures forall n :: 0 <= n < |Added(spans, c, preferred)| && Inside(c, Added(spans, c, preferred)[n]) ==>
              RightLabel(spans, c, preferred, Added(spans, c, preferred)[n])
  {
    hide Absorb, RightLabel, LabelSoFar;
    var i := FirstAfter(spans, c.start);
    var m := MergeOf(spans, c, preferred);
    AbsorbExtent(spans, i, i, c, c, c.rule in preferred, preferred);
    NothingSoFar(spans, i, c, preferred);
    var pref := AbsorbSoFar(spans, i, i, c, c, c.rule in preferred, preferred);
    MergedRight(spans, i, m.next, c, m.merged, pref, preferred);
    MergedDisjoint(spans, c, i, m.next, m.merged);
    SelfInside(spans, c, i, m.next, m.merged);
    OnlyHolder(spans[..i] + [m.merged] + spans[m.next..], c, i);
  }

  lemma NothingSoFar(spans: seq<Span>, i: nat, c: Span, preferred: set<string>)
    requires i <= |spans|
    ensures LabelSoFar(spans, i, i, c, c, c.rule in preferred, preferred)
  {
  }

  lemma OnlyHolder(spans: seq<Span>, c: Span, i: nat)
    requires Disjoint(spans) && c.start < c.end && i < |spans| && Inside(c, spans[i])
    ensures forall n :: 0 <= n < |spans| && Inside(c, spans[n]) ==> n == i
  {
  }

  lemma MergedRight(spans: seq<Span>, i: nat, j: nat, c: Span, merged: Span, pref: bool, preferred: set<string>)
    requires Disjoint(spans) && c.start < c.end && i <= j <= |spans|
    requires forall k :: 0 <= k < i ==> spans[k].end <= c.start
    requires i < |spans| ==> spans[i].end > c.start
    requires MergedExtent(spans, i, j, c, merged) && (j < |spans| ==> merged.end <= spans[j].start)
    requires LabelSoFar(spans, i, j, c, merged, pref, preferred)
    ensures RightLabel(spans, c, preferred, merged)
  {
    forall k | 0 <= k < |spans| ensures Overlap(spans[k], c) <==> i <= k < j {
      if i < k { Apart(spans, i, k); }
      if j < k { Apart(spans, j, k); }
    }
    hide Disjoint, MergedExtent, Overlap, FirstPreferred;
  }

  lemma AddedLabelled(accepted: seq<Span>, spans: seq<Span>, c: Span, preferred: set<string>)
    requires Hulls(accepted, spans) && Labelled(accepted, spans, preferred) && c.start < c.end
    ensures Labelled(accepted + [c], Added(spans, c, preferred), preferred)
  {
    hide IsHull, Held, Crossed, Absorb, HasSource, Unmasked, Labelled, Hulls, MergedLabel;
    HullsDisjoint(accepted, spans);
    var i := FirstAfter(spans, c.start);
    var m := MergeOf(spans, c, preferred);
    AbsorbExtent(spans, i, i, c, c, c.rule in preferred, preferred);
    SelfLabel(spans, i, c, preferred);
    AbsorbLabel(spans, i, i, c, c, c.rule in preferred, preferred);
    MergedLabelled(accepted, spans, c, i, m.next, m.merged, preferred);
  }

  lemma SelfLabel(spans: seq<Span>, i: nat, c: Span, preferred: set<string>)
    requires i <= |spans|
    ensures MergedLabel(spans, i, i, c, c, preferred)
  {
  }

  lemma HullsDisjoint(accepted: seq<Span>, spans: seq<Span>)
    requires Hulls(accepted, spans)
    ensures Disjoint(spans)
  {
    hide IsHull, Held;
  }

  lemma MergedLabelled(accepted: seq<Span>, spans: seq<Span>, c: Span, i: nat, j: nat, merged: Span, preferred: set<string>)
    requires Hulls(accepted, spans) && Labelled(accepted, spans, preferred) && i <= j <= |spans| && c.start < c.end
    requires forall k :: 0 <= k < i ==> spans[k].end <= c.start
    requires i < |spans| ==> spans[i].end > c.start
    requires MergedExtent(spans, i, j, c, merged) && (j < |spans| ==> merged.end <= spans[j].start)
    requires MergedLabel(spans, i, j, c, merged, preferred)
    ensures Labelled(accepted + [c], spans[..i] + [merged] + spans[j..], preferred)
  {
    hide IsHull, Held, Crossed, HasSource, Unmasked, MergedLabel;
    var now, acc := spans[..i] + [merged] + spans[j..], accepted + [c];
    forall n | 0 <= n < |now| ensures HasSource(acc, now[n]) {
      if n == i {
        MergedSource(accepted, spans, c, i, j, merged, preferred);
      } else {
        var k := Source(accepted, now[n]);
        SourceAt(acc, now[n], k);
      }
    }
    MergedDisjoint(spans, c, i, j, merged);
    SelfInside(spans, c, i, j, merged);
    forall k | 0 <= k < |acc| ensures Unmasked(acc[k], now, preferred) {
      if k == |accepted| {
        MergedPreferred(spans, c, i, j, c, i, merged, preferred);
        UnmaskedAt(acc[k], now, i, preferred);
      } else {
        var h := Holder(accepted[k], spans);
        NewHolder(spans, c, i, j, merged, accepted[k], h);
        UnmaskedHolder(accepted[k], spans, h, preferred);
        MergedPreferred(spans, c, i, j, accepted[k], h, merged, preferred);
        UnmaskedAt(acc[k], now, NewIndex(h, i, j), preferred);
      }
    }
  }

  lemma UnmaskedHolder(a: Span, spans: seq<Span>, h: nat, preferred: set<string>)
    requires Unmasked(a, spans, preferred) && h < |spans| && Inside(a, spans[h])
    ensures a.rule in preferred ==> spans[h].rule in preferred
  {
  }

  /** A preferred candidate or absorbed span makes the merge preferred. */
  lemma MergedPreferred(spans: seq<Span>, c: Span, i: nat, j: nat, a: Span, h: nat, merged: Span, preferred: set<string>)
    requires i <= j <= |spans| && MergedLabel(spans, i, j, c, merged, preferred)
    requires a == c || (h < |spans| && (a.rule in preferred ==> spans[h].rule in preferred))
    ensures a == c && a.rule in preferred ==> merged.rule in preferred
    ensures h < |spans| && i <= h < j && spans[h].rule in preferred ==> merged.rule in preferred
  {
  }

  /** In disjoint spans a single holder decides. */
  lemma UnmaskedAt(a: Span, spans: seq<Span>, h: nat, preferred: set<string>)
    requires Disjoint(spans) && a.start < a.end && h < |spans| && Inside(a, spans[h])
    requires a.rule in preferred ==> spans[h].rule in preferred
    ensures Unmasked(a, spans, preferred)
  {
  }

  lemma MergedSource(accepted: seq<Span>, spans: seq<Span>, c: Span, i: nat, j: nat, merged: Span, preferred: set<string>)
    requires Hulls(accepted, spans) && Labelled(accepted, spans, preferred) && i <= j <= |spans| && c.start < c.end
    requires MergedExtent(spans, i, j, c, merged) && MergedLabel(spans, i, j, c, merged, preferred)
    ensures HasSource(accepted + [c], merged)
  {
    hide IsHull, Held, Crossed, HasSource, Unmasked;
    if SameLabel(merged, c) {
      SelfInside(spans, c, i, j, merged);
      SourceAt(accepted + [c], merged, |accepted|);
    } else {
      var k :| i <= k < j && SameLabel(merged, spans[k]);
      var x := Source(accepted, spans[k]);
      NewHolder(spans, c, i, j, merged, accepted[x], k);
      assert (spans[..i] + [merged] + spans[j..])[i] == merged;
      SourceAt(accepted + [c], merged, x);
    }
  }
}
