/** Field-name context of a string: normalised keys, the bounded view of the keys
    around a value, merging for nested JSON, and which names mark credentials. */
module KeyContext {
  import opened ByteStrings
  import opened JsonGrammar
  import opened JsonIndex
  import opened Payload

  const MAX_ANCESTORS := 4
  const MAX_KEY_BYTES := 64

  predicate IsUpper(c: Byte) { 0x41 <= c <= 0x5A }

  predicate IsPlain(c: Byte) { 0x61 <= c <= 0x7A || IsDigit(c) || c == 0x5F }

  /** Bytes a field name may consist of. */
  predicate IsNameByte(c: Byte) { IsUpper(c) || c == MINUS || IsPlain(c) }

  function LowerByte(c: Byte): Byte {
    if IsUpper(c) then c + 0x20 else if c == MINUS then 0x5F else c
  }

  function Lowered(key: Bytes): (r: Bytes)
    ensures |r| == |key|
  {
    seq(|key|, i requires 0 <= i < |key| => LowerByte(key[i]))
  }

  predicate IsName(key: Bytes) {
    0 < |key| <= MAX_KEY_BYTES && forall i :: 0 <= i < |key| ==> IsNameByte(key[i])
  }

  /** Lower-case ASCII with '-' read as '_'; empty for anything that is not a short name. */
  function Normalize(key: Bytes): Bytes {
    if IsName(key) then Lowered(key) else []
  }

  lemma NormalizeIdempotent(key: Bytes)
    ensures Normalize(Normalize(key)) == Normalize(key)
  {
    var n := Normalize(key);
    if IsName(key) {
      assert forall i :: 0 <= i < |n| ==> n[i] == LowerByte(key[i]) && IsPlain(n[i]);
      assert IsName(n);
      assert Lowered(n) == n;
    }
  }

  /** The payload package's normaliser. */
  method NormalizeContextKey(key: Bytes) returns (r: Bytes)
    ensures r == Normalize(key)
  {
    if |key| == 0 || |key| > MAX_KEY_BYTES {
      return [];
    }
    var changed := false;
    for index := 0 to |key|
      invariant forall i :: 0 <= i < index ==> IsNameByte(key[i])
      invariant changed || forall i :: 0 <= i < index ==> IsPlain(key[i])
    {
      var c := key[index];
      if IsUpper(c) || c == MINUS {
        changed := true;
      } else if !IsPlain(c) {
        return [];
      }
    }
    if !changed {
      assert Lowered(key) == key;
      return key;
    }
    r := [];
    for index := 0 to |key|
      invariant r == Lowered(key)[..index]
    {
      var c := key[index];
      if IsUpper(c) {
        r := r + [c + 0x20];
      } else if c == MINUS {
        r := r + [0x5F];
      } else {
        r := r + [c];
      }
    }
    assert Lowered(key)[..|key|] == Lowered(key);
  }

  /** The privacy engine's own copy of the normaliser. */
  method NormalizeCredentialFieldKey(key: Bytes) returns (normalized: Bytes)
    ensures normalized == Normalize(key)
  {
    if key == [] || |key| > 64 {
      return [];
    }
    var changed := false;
    for index := 0 to |key|
      invariant forall i :: 0 <= i < index ==> IsNameByte(key[i])
      invariant changed || forall i :: 0 <= i < index ==> IsPlain(key[i])
    {
      var c := key[index];
      if IsUpper(c) || c == MINUS {
        changed := true;
      } else if !IsPlain(c) {
        return [];
      }
    }
    if !changed {
      assert Lowered(key) == key;
      return key;
    }
    normalized := [];
    for index := 0 to |key|
      invariant normalized == Lowered(key)[..index]
    {
      normalized := normalized + [LowerByte(key[index])];
    }
    assert Lowered(key)[..|key|] == Lowered(key);
  }

  // ----- the context of one string ----------------------------------------

  /** `ancestors` has four slots, nearest first, of which `count` are in use. */
  datatype StringKeyContext = StringKeyContext(immediateKey: Bytes, ancestors: seq<Bytes>, count: nat)

  const NO_CONTEXT := StringKeyContext([], [[], [], [], []], 0)

  predicate Slots(c: StringKeyContext) { |c.ancestors| == MAX_ANCESTORS }

  function Used(c: StringKeyContext): nat { if c.count > MAX_ANCESTORS then MAX_ANCESTORS else c.count }

  function Retained(c: StringKeyContext): seq<Bytes>
    requires Slots(c)
  {
    c.ancestors[..Used(c)]
  }

  /** Up to `room` normalised non-empty keys on the path, nearest first; indexes never count. */
  function NearestKeys(path: Path, room: nat): (r: seq<Bytes>)
    ensures |r| <= room
    decreases |path|
  {
    if path == [] || room == 0 then []
    else
      var last, up := path[|path| - 1], path[..|path| - 1];
      if last.Key? && Normalize(last.name) != [] then [Normalize(last.name)] + NearestKeys(up, room - 1)
      else NearestKeys(up, room)
  }

  /** Keys in the four slots, the rest empty. */
  function Padded(keys: seq<Bytes>): (r: seq<Bytes>)
    ensures |keys| <= MAX_ANCESTORS ==> |r| == MAX_ANCESTORS
  {
    keys + seq(if |keys| <= MAX_ANCESTORS then MAX_ANCESTORS - |keys| else 0, _ => [])
  }

  /** The bounded view of the keys above a string. */
  function ContextOf(path: Path): (c: StringKeyContext)
    ensures Slots(c) && c.count <= MAX_ANCESTORS
  {
    if path == [] then NO_CONTEXT
    else
      var last, keys := path[|path| - 1], NearestKeys(path[..|path| - 1], MAX_ANCESTORS);
      StringKeyContext(if last.Key? then Normalize(last.name) else [], Padded(keys), |keys|)
  }

  lemma PaddedNext(keys: seq<Bytes>, key: Bytes)
    requires |keys| < MAX_ANCESTORS
    ensures Padded(keys)[|keys| := key] == Padded(keys + [key])
  {
  }

  method StringKeyContextAt(d: Document, index: int) returns (r: Option<StringKeyContext>)
    requires Arena(d.paths) && Refs(d.paths, d.strings)
    ensures r.Some? <==> 0 <= index < |d.strings|
    ensures r.Some? ==> r.value == ContextOf(PathOf(d.paths, d.strings[index].pathRef))
  {
    hide Normalize, Padded, NearestKeys, PathOf;
    if index < 0 || index >= |d.strings| {
      return None;
    }
    var result := NO_CONTEXT;
    var current := d.strings[index].pathRef;
    PathSplit(d.paths, current);
    if current < 0 {
      return Some(result);
    }
    var segment := d.paths[current].segment;
    if segment.Key? {
      var key := NormalizeContextKey(segment.name);
      result := result.(immediateKey := key);
    }
    current := d.paths[current].parent;
    ghost var above := PathOf(d.paths, current);
    ghost var all := NearestKeys(above, MAX_ANCESTORS);
    ghost var keys: seq<Bytes> := [];
    PaddedNone();
    assert keys + all == all;
    while current >= 0 && result.count < MAX_ANCESTORS
      invariant -1 <= current < |d.paths| && |keys| == result.count <= MAX_ANCESTORS
      invariant result == StringKeyContext(if segment.Key? then Normalize(segment.name) else [], Padded(keys), |keys|)
      invariant keys + NearestKeys(PathOf(d.paths, current), MAX_ANCESTORS - |keys|) == all
      decreases current
    {
      var node := d.paths[current];
      ghost var up := PathOf(d.paths, node.parent);
      NearestStep(d.paths, current, MAX_ANCESTORS - |keys|);
      if node.segment.Key? {
        var normalized := NormalizeContextKey(node.segment.name);
        if normalized != [] {
          PaddedNext(keys, normalized);
          result := result.(ancestors := result.ancestors[result.count := normalized], count := result.count + 1);
          OneMore(keys, normalized, NearestKeys(up, MAX_ANCESTORS - |keys| - 1));
          keys := keys + [normalized];
        }
      }
      current := node.parent;
    }
    NearestNone(PathOf(d.paths, current), MAX_ANCESTORS - |keys|);
    PathSplit(d.paths, current);
    assert keys + [] == keys;
    r := Some(result);
  }

  lemma OneMore(keys: seq<Bytes>, key: Bytes, rest: seq<Bytes>)
    ensures keys + ([key] + rest) == (keys + [key]) + rest
  {
  }

  lemma PathSplit(paths: seq<PathNode>, ref: int)
    requires Arena(paths) && -1 <= ref < |paths|
    ensures ref < 0 ==> PathOf(paths, ref) == []
    ensures ref >= 0 ==>
              var path := PathOf(paths, ref);
              path != [] && path[|path| - 1] == paths[ref].segment && path[..|path| - 1] == PathOf(paths, paths[ref].parent)
  {
  }

  lemma NearestStep(paths: seq<PathNode>, ref: int, room: nat)
    requires Arena(paths) && 0 <= ref < |paths| && room > 0
    ensures var up := PathOf(paths, paths[ref].parent); var s := paths[ref].segment;
            NearestKeys(PathOf(paths, ref), room)
            == if s.Key? && Normalize(s.name) != [] then [Normalize(s.name)] + NearestKeys(up, room - 1) else NearestKeys(up, room)
  {
    PathSplit(paths, ref);
  }

  lemma NearestNone(path: Path, room: nat)
    ensures path == [] || room == 0 ==> NearestKeys(path, room) == []
  {
  }

  lemma PaddedNone()
    ensures Padded([]) == NO_CONTEXT.ancestors
  {
  }

  // ----- credential names -------------------------------------------------

  const CREDENTIAL_NAMES: seq<string> := [
    "ak", "sk", "api_key", "apikey", "api_secret", "apisecret", "api_secret_key", "apisecretkey",
    "access_key", "accesskey", "access_key_id", "accesskeyid", "secret_key", "secretkey",
    "secret_access_key", "secretaccesskey", "aws_access_key_id", "awsaccesskeyid", "aws_secret_access_key",
    "awssecretaccesskey", "client_secret", "clientsecret", "private_key", "privatekey", "token",
    "access_token", "accesstoken", "api_token", "apitoken", "auth_token", "authtoken", "refresh_token",
    "refreshtoken", "session_token", "sessiontoken", "id_token", "idtoken", "client_token",
    "clienttoken", "secret_token", "secrettoken", "bearer_token", "bearertoken", "oauth_token",
    "oauthtoken", "password", "passwd", "pwd", "credential", "secret", "secrets", "authorization"]

  predicate IsCredentialName(n: Bytes) {
    n != [] && exists i :: 0 <= i < |CREDENTIAL_NAMES| && n == Ascii(CREDENTIAL_NAMES[i])
  }

  predicate IsCredentialFieldKey(key: Bytes) { IsCredentialName(Normalize(key)) }

  /** Names that mark everything below them; the abbreviations "ak" and "sk" do not. */
  predicate IsCredentialAncestorFieldKey(key: Bytes) {
    var n := Normalize(key);
    n != Ascii("ak") && n != Ascii("sk") && IsCredentialFieldKey(n)
  }

  lemma EmptyIsNoCredential()
    ensures !IsCredentialAncestorFieldKey([]) && !IsCredentialFieldKey([])
  {
    assert Normalize([]) == [];
  }

  /** Normalising a key first never changes whether it is a credential name. */
  lemma CredentialNormalized(key: Bytes)
    ensures IsCredentialFieldKey(Normalize(key)) <==> IsCredentialFieldKey(key)
    ensures IsCredentialAncestorFieldKey(Normalize(key)) <==> IsCredentialAncestorFieldKey(key)
  {
    hide IsCredentialName;
    NormalizeIdempotent(key);
  }

  lemma AncestorNameIsFieldName(key: Bytes)
    ensures IsCredentialAncestorFieldKey(key) ==> IsCredentialFieldKey(key)
  {
    hide IsCredentialName;
    CredentialNormalized(key);
  }

  /** Of the names, in any spelling that has the same normal form, all but "ak" and "sk" mark what
      is below them. */
  lemma PropagatingNames(key: Bytes)
    ensures IsCredentialAncestorFieldKey(key) <==>
              IsCredentialFieldKey(key) && Normalize(key) != [0x61, 0x6B] && Normalize(key) != [0x73, 0x6B]
  {
    hide IsCredentialName;
    NormalizeIdempotent(key);
    assert Ascii("ak") == [0x61, 0x6B] && Ascii("sk") == [0x73, 0x6B];
  }

  datatype ToolScope = NoTool | ToolInput | ToolOutput

  datatype FieldContext = FieldContext(fields: StringKeyContext, toolScope: ToolScope, structured: bool, encoded: bool)

  /** A propagating credential name among the retained keys, as immediate key or ancestor. */
  predicate Marked(c: StringKeyContext)
    requires Slots(c)
  {
    IsCredentialAncestorFieldKey(c.immediateKey)
    || exists i :: 0 <= i < Used(c) && IsCredentialAncestorFieldKey(c.ancestors[i])
  }

  /** Whole-value redaction: structured tool data below a credential name. */
  predicate Applies(c: FieldContext)
    requires Slots(c.fields)
  {
    c.structured && c.toolScope != NoTool && (IsCredentialFieldKey(c.fields.immediateKey) || Marked(c.fields))
  }

  method CredentialFieldApplies(c: FieldContext) returns (applies: bool)
    requires Slots(c.fields)
    ensures applies <==> Applies(c)
  {
    hide IsCredentialName, IsCredentialFieldKey, IsCredentialAncestorFieldKey;
    if !c.structured || (c.toolScope != ToolInput && c.toolScope != ToolOutput) {
      return false;
    }
    if IsCredentialFieldKey(c.fields.immediateKey) {
      return true;
    }
    AncestorNameIsFieldName(c.fields.immediateKey);
    var count := c.fields.count;
    if count > |c.fields.ancestors| {
      count := |c.fields.ancestors|;
    }
    for i := 0 to count
      invariant forall k :: 0 <= k < i ==> !IsCredentialAncestorFieldKey(c.fields.ancestors[k])
    {
      if IsCredentialAncestorFieldKey(c.fields.ancestors[i]) {
        return true;
      }
    }
    applies := false;
  }

  // ----- the same in terms of the keys on the path -------------------------

  /** A key that counts as an ancestor at all. */
  predicate Named(s: PathSegment) { s.Key? && Normalize(s.name) != [] }

  /** A key that marks everything below it. */
  predicate Propagates(s: PathSegment) { s.Key? && IsCredentialAncestorFieldKey(s.name) }

  function NamedKeys(path: Path): nat {
    if path == [] then 0 else NamedKeys(path[..|path| - 1]) + if Named(path[|path| - 1]) then 1 else 0
  }

  /** The last key of the path is a credential name. */
  predicate EndsInCredential(path: Path) {
    path != [] && path[|path| - 1].Key? && IsCredentialFieldKey(path[|path| - 1].name)
  }

  /** A propagating credential name is the last key of the path, or stands above it with fewer
      than four named keys in between. */
  predicate BelowCredential(path: Path) {
    exists j :: 0 <= j < |path| && Propagates(path[j]) && Near(path, j)
  }

  predicate Near(path: Path, j: nat)
    requires j < |path|
  {
    j == |path| - 1 || NamedKeys(path[j + 1..|path| - 1]) < 4
  }

  lemma PropagatingIsNamed(s: PathSegment)
    ensures Propagates(s) ==> Named(s)
  {
    hide IsCredentialAncestorFieldKey;
    if Propagates(s) {
      CredentialNormalized(s.name);
      EmptyIsNoCredential();
    }
  }

  predicate Retains(keys: seq<Bytes>) { exists i :: 0 <= i < |keys| && IsCredentialAncestorFieldKey(keys[i]) }

  lemma RetainsMore(key: Bytes, keys: seq<Bytes>)
    ensures Retains([key] + keys) <==> IsCredentialAncestorFieldKey(key) || Retains(keys)
  {
    hide IsCredentialAncestorFieldKey;
    var all := [key] + keys;
    assert all[0] == key && forall i :: 0 <= i < |keys| ==> all[i + 1] == keys[i];
  }

  function NamedAfter(path: Path, j: nat): nat
    requires j < |path|
  {
    NamedKeys(path[j + 1..])
  }

  /** A propagating name with fewer than `room` named keys after it. */
  predicate Within(path: Path, room: nat) {
    exists j :: 0 <= j < |path| && Propagates(path[j]) && NamedAfter(path, j) < room
  }

  lemma WithinUp(path: Path, room: nat)
    requires path != []
    ensures var last, up := path[|path| - 1], path[..|path| - 1];
            Within(path, room) <==>
              room > 0 && (Propagates(last) || Within(up, if Named(last) then room - 1 else room))
  {
    hide Named, Propagates, NamedAfter;
    var n := |path| - 1;
    var last, up := path[n], path[..n];
    var room' := if Named(last) then room - 1 else room;
    forall j | 0 <= j < n ensures up[j] == path[j] && (NamedAfter(path, j) < room <==> NamedAfter(up, j) < room') {
      NamedAfterUp(path, j);
    }
    NamedAfterLast(path);
    forall j | 0 <= j < n && Propagates(path[j]) && NamedAfter(path, j) < room ensures room' > 0 && Within(up, room') {
      assert Propagates(up[j]) && NamedAfter(up, j) < room';
    }
    forall j | 0 <= j < n && Propagates(up[j]) && NamedAfter(up, j) < room' ensures Within(path, room) {
      assert Propagates(path[j]) && NamedAfter(path, j) < room;
    }
  }

  lemma NamedAfterUp(path: Path, j: nat)
    requires j < |path| - 1
    ensures var n := |path| - 1; NamedAfter(path, j) == NamedAfter(path[..n], j) + if Named(path[n]) then 1 else 0
  {
    hide Named;
    var n := |path| - 1;
    assert path[j + 1..][..n - j - 1] == path[..n][j + 1..];
  }

  lemma NamedAfterLast(path: Path)
    requires path != []
    ensures NamedAfter(path, |path| - 1) == 0
  {
  }

  /** The retained keys hold a propagating name exactly when one stands that near. */
  lemma {:induction false} NearestWithin(path: Path, room: nat)
    ensures Retains(NearestKeys(path, room)) <==> Within(path, room)
    decreases |path|
  {
    hide IsCredentialAncestorFieldKey, Normalize;
    if path != [] {
      var last, up := path[|path| - 1], path[..|path| - 1];
      WithinUp(path, room);
      if room > 0 {
        NearestWithin(up, room);
        NearestWithin(up, room - 1);
        hide Within;
        PropagatingIsNamed(last);
        if Named(last) {
          CredentialNormalized(last.name);
          RetainsMore(Normalize(last.name), NearestKeys(up, room - 1));
        }
      }
    }
  }

  /** Which strings the bounded view puts below a credential name, on the keys as they are. */
  lemma MarkedPath(path: Path)
    ensures Marked(ContextOf(path)) <==> BelowCredential(path)
    ensures IsCredentialFieldKey(ContextOf(path).immediateKey) <==> EndsInCredential(path)
  {
    hide IsCredentialAncestorFieldKey, IsCredentialFieldKey, Normalize, NearestKeys;
    EmptyIsNoCredential();
    if path != [] {
      var n := |path| - 1;
      var last, up := path[n], path[..n];
      if last.Key? {
        CredentialNormalized(last.name);
      }
      NearestWithin(up, MAX_ANCESTORS);
      MarkedSlots(ContextOf(path).immediateKey, NearestKeys(up, MAX_ANCESTORS));
      NearLast(path);
    }
  }

  lemma MarkedSlots(key: Bytes, keys: seq<Bytes>)
    requires |keys| <= MAX_ANCESTORS
    ensures Marked(StringKeyContext(key, Padded(keys), |keys|)) <==> IsCredentialAncestorFieldKey(key) || Retains(keys)
  {
    hide IsCredentialAncestorFieldKey;
    assert forall i :: 0 <= i < |keys| ==> Padded(keys)[i] == keys[i];
  }

  lemma NearLast(path: Path)
    requires path != []
    ensures BelowCredential(path) <==> Propagates(path[|path| - 1]) || Within(path[..|path| - 1], MAX_ANCESTORS)
  {
    hide Propagates, NamedKeys;
    var n := |path| - 1;
    assert forall j :: 0 <= j < n ==> path[..n][j] == path[j] && path[..n][j + 1..] == path[j + 1..n];
    if Propagates(path[n]) {
      assert Near(path, n);
    }
  }

  /** Two bytes of a name that are read alike: the same, a letter in both cases, or '-' and '_'. */
  predicate Alike(x: Byte, y: Byte) {
    x == y
    || (0x41 <= x <= 0x5A && y as int == x as int + 32) || (0x41 <= y <= 0x5A && x as int == y as int + 32)
    || (x == 0x2D && y == 0x5F) || (x == 0x5F && y == 0x2D)
  }

  lemma AlikeBytes(x: Byte, y: Byte)
    ensures IsNameByte(x) && IsNameByte(y) ==> (LowerByte(x) == LowerByte(y) <==> Alike(x, y))
  {
  }

  /** Names have one normal form exactly when they are spelled alike, and a name in lower case
      without '-' is its own. */
  lemma NormalizeAlike(x: Bytes, y: Bytes)
    requires IsName(x) && IsName(y)
    ensures Normalize(x) == Normalize(y) <==> |x| == |y| && forall i :: 0 <= i < |x| ==> Alike(x[i], y[i])
    ensures (forall i :: 0 <= i < |x| ==> !(0x41 <= x[i] <= 0x5A) && x[i] != 0x2D) ==> Normalize(x) == x
  {
    hide Alike, LowerByte, IsNameByte;
    forall i, j | 0 <= i < |x| && 0 <= j < |y| ensures LowerByte(x[i]) == LowerByte(y[j]) <==> Alike(x[i], y[j]) {
      AlikeBytes(x[i], y[j]);
    }
    assert |x| == |y| ==> forall i :: 0 <= i < |x| ==> (Lowered(x)[i] == Lowered(y)[i] <==> Alike(x[i], y[i]));
    PlainName(x);
  }

  /** A field name is one to 64 letters, digits, hyphens and underscores; nothing else has a normal form. */
  lemma NormalizeNames(x: Bytes)
    ensures Normalize(x) != [] <==>
              1 <= |x| <= 64
              && forall i :: 0 <= i < |x| ==>
                   0x41 <= x[i] <= 0x5A || 0x61 <= x[i] <= 0x7A || 0x30 <= x[i] <= 0x39 || x[i] == 0x2D || x[i] == 0x5F
  {
  }

  lemma PlainName(x: Bytes)
    ensures (forall i :: 0 <= i < |x| ==> !(0x41 <= x[i] <= 0x5A) && x[i] != 0x2D) ==> Lowered(x) == x
  {
  }

  // ----- merging contexts of nested documents -----------------------------

  /** Appends a key; when the slots are full only an otherwise lost credential name gets in. */
  function AppendAncestor(merged: StringKeyContext, key: Bytes): (r: StringKeyContext)
    requires Slots(merged) && merged.count <= MAX_ANCESTORS
    ensures Slots(r) && merged.count <= r.count <= MAX_ANCESTORS && r.immediateKey == merged.immediateKey
  {
    if key == [] then merged
    else if merged.count >= MAX_ANCESTORS then
      if IsCredentialAncestorFieldKey(key) && !Marked(merged) then
        merged.(ancestors := merged.ancestors[MAX_ANCESTORS - 1 := key])
      else merged
    else merged.(ancestors := merged.ancestors[merged.count := key], count := merged.count + 1)
  }

  function AppendAll(merged: StringKeyContext, keys: seq<Bytes>): (r: StringKeyContext)
    requires Slots(merged) && merged.count <= MAX_ANCESTORS
    ensures Slots(r) && r.count <= MAX_ANCESTORS && r.immediateKey == merged.immediateKey
    decreases |keys|
  {
    if keys == [] then merged else AppendAll(AppendAncestor(merged, keys[0]), keys[1..])
  }

  /** The keys of the inner context, then those of the string the inner document came from. */
  function MergeKeys(inner: StringKeyContext, outer: StringKeyContext): (keys: seq<Bytes>)
    requires Slots(inner) && Slots(outer)
    ensures |keys| == Used(inner) + 1 + Used(outer)
    ensures forall i :: 0 <= i < Used(inner) ==> keys[i] == inner.ancestors[i]
    ensures keys[Used(inner)] == outer.immediateKey
    ensures forall i :: 0 <= i < Used(outer) ==> keys[Used(inner) + 1 + i] == outer.ancestors[i]
  {
    Retained(inner) + [outer.immediateKey] + Retained(outer)
  }

  function Merged(inner: StringKeyContext, outer: StringKeyContext): (r: StringKeyContext)
    requires Slots(inner) && Slots(outer)
    ensures Slots(r) && r.count <= MAX_ANCESTORS && r.immediateKey == inner.immediateKey
  {
    AppendAll(NO_CONTEXT.(immediateKey := inner.immediateKey), MergeKeys(inner, outer))
  }

  method MergeStringKeyContexts(inner: StringKeyContext, outer: StringKeyContext) returns (merged: StringKeyContext)
    requires Slots(inner) && Slots(outer)
    ensures merged == Merged(inner, outer)
  {
    hide AppendAncestor, AppendAll, MergeKeys, Retained, Marked;
    merged := NO_CONTEXT.(immediateKey := inner.immediateKey);
    ghost var start := merged;
    ghost var keys := MergeKeys(inner, outer);
    assert keys[0..] == keys;
    var innerCount := Used(inner);
    for index := 0 to innerCount
      invariant Slots(merged) && merged.count <= MAX_ANCESTORS
      invariant AppendAll(merged, keys[index..]) == AppendAll(start, keys)
    {
      AppendNext(merged, keys, index);
      merged := AppendAncestor(merged, inner.ancestors[index]);
    }
    AppendNext(merged, keys, innerCount);
    merged := AppendAncestor(merged, outer.immediateKey);
    var outerCount := Used(outer);
    for index := 0 to outerCount
      invariant Slots(merged) && merged.count <= MAX_ANCESTORS
      invariant AppendAll(merged, keys[innerCount + 1 + index..]) == AppendAll(start, keys)
    {
      AppendNext(merged, keys, innerCount + 1 + index);
      merged := AppendAncestor(merged, outer.ancestors[index]);
    }
    AppendNone(merged, keys[innerCount + 1 + outerCount..]);
  }

  lemma AppendNext(merged: StringKeyContext, keys: seq<Bytes>, k: nat)
    requires Slots(merged) && merged.count <= MAX_ANCESTORS && k < |keys|
    ensures AppendAll(merged, keys[k..]) == AppendAll(AppendAncestor(merged, keys[k]), keys[k + 1..])
  {
    hide AppendAncestor;
    assert keys[k..][1..] == keys[k + 1..] && keys[k..][0] == keys[k];
  }

  lemma AppendNone(merged: StringKeyContext, keys: seq<Bytes>)
    requires Slots(merged) && merged.count <= MAX_ANCESTORS && keys == []
    ensures AppendAll(merged, keys) == merged
  {
  }

  lemma AppendMarked(merged: StringKeyContext, key: Bytes)
    requires Slots(merged) && merged.count <= MAX_ANCESTORS
    ensures Marked(AppendAncestor(merged, key)) <==> Marked(merged) || IsCredentialAncestorFieldKey(key)
  {
    hide IsCredentialAncestorFieldKey;
    var r := AppendAncestor(merged, key);
    if key == [] {
      EmptyIsNoCredential();
    } else if merged.count < MAX_ANCESTORS {
      assert r.ancestors[merged.count] == key;
      assert forall i :: 0 <= i < merged.count ==> r.ancestors[i] == merged.ancestors[i];
    } else if IsCredentialAncestorFieldKey(key) && !Marked(merged) {
      assert r.ancestors[MAX_ANCESTORS - 1] == key;
    }
  }

  lemma {:induction false} AppendAllMarked(merged: StringKeyContext, keys: seq<Bytes>)
    requires Slots(merged) && merged.count <= MAX_ANCESTORS
    ensures Marked(AppendAll(merged, keys)) <==> Marked(merged) || Retains(keys)
    decreases |keys|
  {
    hide Marked, AppendAncestor, IsCredentialAncestorFieldKey;
    if keys != [] {
      AppendMarked(merged, keys[0]);
      AppendAllMarked(AppendAncestor(merged, keys[0]), keys[1..]);
      RetainsMore(keys[0], keys[1..]);
      assert [keys[0]] + keys[1..] == keys;
    }
  }

  lemma RetainsJoin(left: seq<Bytes>, right: seq<Bytes>)
    ensures Retains(left + right) <==> Retains(left) || Retains(right)
  {
    hide IsCredentialAncestorFieldKey;
    var all := left + right;
    assert forall i :: 0 <= i < |left| ==> all[i] == left[i];
    assert forall i :: 0 <= i < |right| ==> all[|left| + i] == right[i];
    assert forall i :: |left| <= i < |all| ==> all[i] == right[i - |left|];
  }

  lemma MarkedRetains(c: StringKeyContext)
    requires Slots(c)
    ensures Marked(c) <==> IsCredentialAncestorFieldKey(c.immediateKey) || Retains(Retained(c))
  {
    hide IsCredentialAncestorFieldKey;
    assert forall i :: 0 <= i < Used(c) ==> Retained(c)[i] == c.ancestors[i];
  }

  /** Despite the four-slot bound, merging loses no propagating credential name and invents none. */
  lemma MergeKeepsCredentials(inner: StringKeyContext, outer: StringKeyContext)
    requires Slots(inner) && Slots(outer)
    ensures Marked(Merged(inner, outer)) <==> Marked(inner) || Marked(outer)
  {
    hide AppendAll, IsCredentialAncestorFieldKey, Retains, Retained, Marked;
    var start := NO_CONTEXT.(immediateKey := inner.immediateKey);
    AppendAllMarked(start, MergeKeys(inner, outer));
    NothingMarked(start);
    MarkedRetains(inner);
    MarkedRetains(outer);
    RetainsJoin(Retained(inner) + [outer.immediateKey], Retained(outer));
    RetainsJoin(Retained(inner), [outer.immediateKey]);
    RetainsOne(outer.immediateKey);
  }

  lemma RetainsOne(key: Bytes)
    ensures Retains([key]) <==> IsCredentialAncestorFieldKey(key)
  {
    hide IsCredentialAncestorFieldKey;
    assert [key][0] == key;
  }

  lemma NothingMarked(c: StringKeyContext)
    requires Slots(c) && c.count == 0
    ensures Marked(c) <==> IsCredentialAncestorFieldKey(c.immediateKey)
  {
  }

  /** The context of a string nested `|contexts|` documents deep, innermost first. */
  function MergeChain(contexts: seq<StringKeyContext>): (r: StringKeyContext)
    requires contexts != [] && forall i :: 0 <= i < |contexts| ==> Slots(contexts[i])
    ensures Slots(r)
  {
    if |contexts| == 1 then contexts[0] else Merged(contexts[0], MergeChain(contexts[1..]))
  }

  lemma {:induction false} ChainKeepsCredentials(contexts: seq<StringKeyContext>)
    requires contexts != [] && forall i :: 0 <= i < |contexts| ==> Slots(contexts[i])
    ensures Marked(MergeChain(contexts)) <==> exists i :: 0 <= i < |contexts| && Marked(contexts[i])
  {
    hide Marked, Merged;
    if |contexts| > 1 {
      var rest := contexts[1..];
      ChainKeepsCredentials(rest);
      MergeKeepsCredentials(contexts[0], MergeChain(rest));
      assert forall i :: 1 <= i < |contexts| ==> contexts[i] == rest[i - 1];
      if exists i :: 0 <= i < |rest| && Marked(rest[i]) {
        var i :| 0 <= i < |rest| && Marked(rest[i]);
        assert contexts[i + 1] == rest[i];
      }
    }
  }
}
