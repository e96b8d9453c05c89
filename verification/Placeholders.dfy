/** Numbered placeholders of one request: the same finding text always gets the same
    placeholder, different texts of one kind get different ones. */
module Placeholders {
  import opened ByteStrings
  import opened Spans

  const HASH: Byte := 0x23
  const GREATER: Byte := 0x3E

  // ----- decimal numerals -------------------------------------------------

  function Itoa(n: nat): (r: Bytes)
    ensures r != []
  {
    var digit := ZERO + (n % 10) as Byte;
    if n < 10 then [digit] else Itoa(n / 10) + [digit]
  }

  lemma {:induction false} ItoaInjective(m: nat, n: nat)
    requires Itoa(m) == Itoa(n)
    ensures m == n
  {
    var x, y := Itoa(m), Itoa(n);
    assert x[|x| - 1] == ZERO + (m % 10) as Byte && y[|y| - 1] == ZERO + (n % 10) as Byte;
    assert m % 10 == n % 10;
    assert m >= 10 ==> x[..|x| - 1] == Itoa(m / 10);
    assert n >= 10 ==> y[..|y| - 1] == Itoa(n / 10);
    if m >= 10 && n >= 10 {
      ItoaInjective(m / 10, n / 10);
    }
  }

  /** What a row of digits says, read in base ten. */
  function DecimalValue(digits: Bytes): int {
    if digits == [] then 0
    else 10 * DecimalValue(digits[..|digits| - 1]) + digits[|digits| - 1] as int - 48
  }

  /** The numeral is decimal, without leading zeros. */
  lemma {:induction false} ItoaReads(n: nat)
    ensures DecimalValue(Itoa(n)) == n && forall i :: 0 <= i < |Itoa(n)| ==> 48 <= Itoa(n)[i] <= 57
    ensures n > 0 ==> Itoa(n)[0] != 48
  {
    var x := Itoa(n);
    assert x[|x| - 1] as int == 48 + n % 10;
    if n < 10 {
      assert x[..|x| - 1] == [];
    } else {
      ItoaReads(n / 10);
      assert x[..|x| - 1] == Itoa(n / 10);
      assert forall i :: 0 <= i < |x| - 1 ==> x[i] == Itoa(n / 10)[i];
    }
  }

  // ----- numbering --------------------------------------------------------

  function NumberedPlaceholder(base: Bytes, number: nat): Bytes {
    if base == [] || number <= 1 then base
    else
      var suffix := [HASH] + Itoa(number);
      var last := base[|base| - 1];
      if last == RBRACKET || last == GREATER then base[..|base| - 1] + suffix + [last] else base + suffix
  }

  /** Different numbers from 1 up give different placeholders, unless the base is empty. */
  lemma NumberedInjective(base: Bytes, m: nat, n: nat)
    requires base != [] && m >= 1 && n >= 1
    requires NumberedPlaceholder(base, m) == NumberedPlaceholder(base, n)
    ensures m == n
  {
    hide Itoa;
    var x, y := Itoa(m), Itoa(n);
    var stem := base[..|base| - 1];
    var last := base[|base| - 1];
    if m > 1 && n > 1 {
      assert last == RBRACKET || last == GREATER ==>
               x == NumberedPlaceholder(base, m)[|stem| + 1..|stem| + 1 + |x|]
               && y == NumberedPlaceholder(base, n)[|stem| + 1..|stem| + 1 + |y|]
               && |NumberedPlaceholder(base, m)| == |stem| + |x| + 2
               && |NumberedPlaceholder(base, n)| == |stem| + |y| + 2;
      assert last != RBRACKET && last != GREATER ==>
               x == NumberedPlaceholder(base, m)[|base| + 1..] && y == NumberedPlaceholder(base, n)[|base| + 1..];
      assert x == y;
      ItoaInjective(m, n);
    }
  }

  /** The first placeholder of a kind is the base; from the second on the number stands behind a
      '#', inside a closing ']' or '>'. */
  lemma NumberedForm(stem: Bytes, close: Byte, number: nat)
    ensures number <= 1 ==> NumberedPlaceholder(stem + [close], number) == stem + [close]
    ensures number >= 2 ==>
              NumberedPlaceholder(stem + [close], number)
              == if close == 0x5D || close == 0x3E then stem + [0x23] + Itoa(number) + [close] else stem + [close] + [0x23] + Itoa(number)
  {
    hide Itoa;
    var base := stem + [close];
    assert base[|base| - 1] == close && base[..|base| - 1] == stem;
    assert stem + ([0x23] + Itoa(number)) + [close] == stem + [0x23] + Itoa(number) + [close];
    assert base + ([0x23] + Itoa(number)) == stem + [close] + [0x23] + Itoa(number);
  }

  // ----- fingerprints -----------------------------------------------------

  function KindName(kind: Kind): string {
    match kind
    case Email => "email"
    case Phone => "phone"
    case IdCard => "id_card"
    case BankCard => "bank_card"
    case Ip => "ip"
    case Secret => "secret"
  }

  /** What the renderer hashes: the kind, a zero byte, the plaintext. */
  function KeyOf(kind: Kind, plaintext: Bytes): Bytes { Ascii(KindName(kind)) + [0] + plaintext }

  lemma {:induction false} NoZero(s: string)
    requires IsAscii(s) && '\0' !in s
    ensures 0 !in Ascii(s)
  {
    if s != "" {
      NoZero(s[1..]);
    }
  }

  lemma NameAscii(kind: Kind)
    ensures IsAscii(KindName(kind)) && 0 !in Ascii(KindName(kind))
  {
    NoZero(KindName(kind));
  }

  /** The zero byte keeps kind and plaintext apart. */
  lemma KeyInjective(k: Kind, x: Bytes, l: Kind, y: Bytes)
    requires KeyOf(k, x) == KeyOf(l, y)
    ensures k == l && x == y
  {
    NameAscii(k);
    NameAscii(l);
    var a, b := Ascii(KindName(k)), Ascii(KindName(l));
    var key := KeyOf(k, x);
    assert key[|a|] == 0 && key[|b|] == 0;
    assert forall i :: 0 <= i < |a| ==> key[i] == a[i];
    assert forall i :: 0 <= i < |b| ==> key[i] == b[i];
    assert |a| == |b|;
    assert a == key[..|a|] == b;
    assert x == key[|a| + 1..] == y;
    AsciiInjective(KindName(k), KindName(l));
  }

  // ----- the renderer -----------------------------------------------------

  type Numbers = map<(Kind, Bytes), nat>

  /** The remembered placeholders are the base placeholders with their numbers, and no
      number of a kind is given out twice. */
  ghost predicate Table(base: map<Kind, Bytes>, seen: map<Bytes, Bytes>, next: map<Kind, nat>, numbers: Numbers) {
    (forall f :: f in numbers ==>
                   f.0 in base && f.0 in next && 1 <= numbers[f] <= next[f.0]
                   && KeyOf(f.0, f.1) in seen && seen[KeyOf(f.0, f.1)] == NumberedPlaceholder(base[f.0], numbers[f]))
    && (forall f, g :: f in numbers && g in numbers && f.0 == g.0 && numbers[f] == numbers[g] ==> f == g)
    && forall key :: key in seen ==> exists f :: f in numbers && KeyOf(f.0, f.1) == key
  }

  function NextNumber(next: map<Kind, nat>, kind: Kind): nat { 1 + if kind in next then next[kind] else 0 }

  lemma TableAdd(base: map<Kind, Bytes>, seen: map<Bytes, Bytes>, next: map<Kind, nat>, numbers: Numbers,
                 kind: Kind, plaintext: Bytes)
    requires Table(base, seen, next, numbers) && kind in base && KeyOf(kind, plaintext) !in seen
    ensures var number := NextNumber(next, kind);
            Table(base, seen[KeyOf(kind, plaintext) := NumberedPlaceholder(base[kind], number)],
                  next[kind := number], numbers[(kind, plaintext) := number])
  {
    hide NumberedPlaceholder, KeyOf;
    var number := NextNumber(next, kind);
    var key := KeyOf(kind, plaintext);
    var now := numbers[(kind, plaintext) := number];
    forall f | f in numbers ensures KeyOf(f.0, f.1) != key {
    }
    assert forall f :: f in numbers ==> f in now;
    assert (kind, plaintext) in now;
  }

  /** The texts of one kind that have a number. */
  function TextsOf(numbers: Numbers, kind: Kind): set<(Kind, Bytes)> { set f | f in numbers && f.0 == kind }

  /** The counter of a kind counts its different texts. */
  predicate Counted(next: map<Kind, nat>, numbers: Numbers) {
    forall kind: Kind {:trigger TextsOf(numbers, kind)} :: (if kind in next then next[kind] else 0) == |TextsOf(numbers, kind)|
  }

  lemma CountedAdd(next: map<Kind, nat>, numbers: Numbers, kind: Kind, plaintext: Bytes)
    requires Counted(next, numbers) && (kind, plaintext) !in numbers
    ensures NextNumber(next, kind) == |TextsOf(numbers, kind)| + 1
    ensures Counted(next[kind := NextNumber(next, kind)], numbers[(kind, plaintext) := NextNumber(next, kind)])
  {
    var number := NextNumber(next, kind);
    var now := numbers[(kind, plaintext) := number];
    forall k: Kind ensures TextsOf(now, k) == TextsOf(numbers, k) + if k == kind then {(kind, plaintext)} else {} {
    }
  }

  lemma ValuesAdd(m: map<Bytes, Bytes>, k: Bytes, v: Bytes)
    requires k !in m
    ensures m[k := v].Values == m.Values + {v}
  {
    assert m[k := v][k] == v;
    assert forall x :: x in m ==> x in m[k := v] && m[k := v][x] == m[x];
  }

  lemma NotNumbered(base: map<Kind, Bytes>, seen: map<Bytes, Bytes>, next: map<Kind, nat>, numbers: Numbers, kind: Kind, plaintext: Bytes)
    requires Table(base, seen, next, numbers) && KeyOf(kind, plaintext) !in seen
    ensures (kind, plaintext) !in numbers
  {
    hide KeyOf, NumberedPlaceholder;
  }

  class RequestRenderer {
    const base: map<Kind, Bytes>
    var seen: map<Bytes, Bytes>
    var produced: set<Bytes>
    var next: map<Kind, nat>
    /** The number behind each remembered placeholder. */
    ghost var numbers: Numbers

    ghost predicate Valid()
      reads this
    {
      Table(base, seen, next, numbers) && Counted(next, numbers) && produced == seen.Values
    }

    constructor (base: map<Kind, Bytes>)
      ensures Valid() && this.base == base && seen == map[]
    {
      this.base := base;
      seen, produced, next, numbers := map[], {}, map[], map[];
    }

    /** The replacement of one finding; none when the kind has no placeholder. */
    method Render(kind: Kind, plaintext: Bytes) returns (r: Option<Bytes>)
      requires Valid()
      modifies this
      ensures Valid()
      ensures r.None? <==> KeyOf(kind, plaintext) !in old(seen) && kind !in base
      ensures r.None? || KeyOf(kind, plaintext) in old(seen) ==> seen == old(seen) && numbers == old(numbers)
      ensures r.Some? ==> KeyOf(kind, plaintext) in seen && r.value == seen[KeyOf(kind, plaintext)]
      ensures r.Some? && KeyOf(kind, plaintext) !in old(seen) ==>
                var number := |TextsOf(old(numbers), kind)| + 1;
                next == old(next)[kind := number] && numbers == old(numbers)[(kind, plaintext) := number]
                && seen == old(seen)[KeyOf(kind, plaintext) := NumberedPlaceholder(base[kind], number)]
      ensures forall key :: key in old(seen) ==> key in seen && seen[key] == old(seen)[key]
      ensures produced == seen.Values
    {
      hide Table, Counted, NextNumber, TextsOf, NumberedPlaceholder, KeyOf;
      var key := KeyOf(kind, plaintext);
      if key in seen {
        return Some(seen[key]);
      }
      if kind !in base {
        return None;
      }
      var number := NextNumber(next, kind);
      var replacement := NumberedPlaceholder(base[kind], number);
      ValuesAdd(seen, key, replacement);
      TableAdd(base, seen, next, numbers, kind, plaintext);
      NotNumbered(base, seen, next, numbers, kind, plaintext);
      CountedAdd(next, numbers, kind, plaintext);
      next := next[kind := number];
      seen := seen[key := replacement];
      produced := produced + {replacement};
      numbers := numbers[(kind, plaintext) := number];
      r := Some(replacement);
    }

    method ProducedPlaceholder(value: Bytes) returns (r: bool)
      requires Valid()
      ensures r <==> exists key :: key in seen && seen[key] == value
    {
      r := value in produced;
    }

    /** Findings of one kind share a placeholder exactly when they have the same text. */
    lemma Faithful(kind: Kind, x: Bytes, y: Bytes)
      requires Valid() && kind in base && base[kind] != []
      requires KeyOf(kind, x) in seen && KeyOf(kind, y) in seen
      ensures seen[KeyOf(kind, x)] == seen[KeyOf(kind, y)] <==> x == y
    {
      hide Counted, KeyOf, NumberedPlaceholder;
      var f :| f in numbers && KeyOf(f.0, f.1) == KeyOf(kind, x);
      var g :| g in numbers && KeyOf(g.0, g.1) == KeyOf(kind, y);
      KeyInjective(f.0, f.1, kind, x);
      KeyInjective(g.0, g.1, kind, y);
      if seen[KeyOf(kind, x)] == seen[KeyOf(kind, y)] {
        NumberedInjective(base[kind], numbers[f], numbers[g]);
      }
    }
  }
}
