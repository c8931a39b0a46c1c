/**
 pkg/providers/vswitch/vswitch.go, Resolve: the cache key, which fmt prints from the selector
 terms with %v. Pointers inside a struct are printed as addresses, maps by increasing key.
 */
module VSwitchKeys {
  import opened Wrappers
  import opened Ordering

  datatype Term = Term(id: Option<string>, tags: map<string, string>, zoneID: Option<string>)

  // ----- printing

  const NIL := "<nil>"

  predicate IsHexDigit(c: char) {
    '0' <= c <= '9' || 'a' <= c <= 'f'
  }

  /** What fmt prints for a pointer that is not nil. */
  predicate IsAddress(s: string) {
    |s| >= 3 && s[..2] == "0x" && s[2] != '0' && forall i :: 2 <= i < |s| ==> IsHexDigit(s[i])
  }

  type Address = s: string | IsAddress(s) witness "0x1"

  /** Where the ID and the zone of a term are in memory, for those it has. */
  datatype Addresses = Addresses(id: Address, zoneID: Address)

  function PrintPointer(p: Option<string>, address: Address): string {
    if p.None? then NIL else address
  }

  function PrintEntries(tags: map<string, string>, keys: seq<string>): string
    requires forall k :: k in keys ==> k in tags
  {
    if keys == [] then ""
    else
      var n := |keys| - 1;
      (if n == 0 then "" else PrintEntries(tags, keys[..n]) + " ") + (keys[n] + ":" + tags[keys[n]])
  }

  ghost function PrintTags(tags: map<string, string>): string {
    PrintEntries(tags, SortedSeq(tags.Keys))
  }

  function Opening(): string {
    "{map["
  }

  /** The end of a printed term, from the end of its tags. */
  function Closing(p: string, q: string): string {
    "]" + " " + p + " " + q + "}"
  }

  ghost function PrintTerm(t: Term, a: Addresses): string {
    Opening() + PrintTags(t.tags) + Closing(PrintPointer(t.id, a.id), PrintPointer(t.zoneID, a.zoneID))
  }

  ghost function PrintTerms(terms: seq<Term>, at: seq<Addresses>): string
    requires |at| == |terms|
  {
    if terms == [] then ""
    else
      var n := |terms| - 1;
      (if n == 0 then "" else PrintTerms(terms[..n], at[..n]) + " ") + PrintTerm(terms[n], at[n])
  }

  ghost function CacheKey(terms: seq<Term>, at: seq<Addresses>): string
    requires |at| == |terms|
  {
    "vswitches-[" + PrintTerms(terms, at) + "]"
  }

  /** No other terms, wherever their pointers point, have the cache key of these. */
  ghost predicate PrintsAlone(terms: seq<Term>, at: seq<Addresses>)
    requires |at| == |terms|
  {
    forall ts: seq<Term>, bt: seq<Addresses> ::
      |bt| == |ts| && CacheKey(ts, bt) == CacheKey(terms, at) ==> ts == terms
  }

  lemma {:induction false} KeysPrintTerms(ts: seq<Term>, bt: seq<Addresses>, terms: seq<Term>, at: seq<Addresses>)
    requires |bt| == |ts| && |at| == |terms|
    ensures CacheKey(ts, bt) == CacheKey(terms, at) <==> PrintTerms(ts, bt) == PrintTerms(terms, at)
  {
    if CacheKey(ts, bt) == CacheKey(terms, at) {
      var key, n := CacheKey(ts, bt), |"vswitches-["|;
      assert PrintTerms(ts, bt) == key[n..|key| - 1];
      assert PrintTerms(terms, at) == key[n..|key| - 1];
    }
  }

  // ----- the condition

  predicate Printed(p: string) {
    p == NIL || IsAddress(p)
  }

  /** What stands between the tags of two neighbouring terms. */
  function Between(p: string, q: string): string {
    Closing(p, q) + " " + Opening()
  }

  ghost predicate StartsBetween(s: string) {
    exists p, q :: Printed(p) && Printed(q) && Between(p, q) <= s
  }

  ghost predicate EndsBetween(s: string) {
    exists p, q :: Printed(p) && Printed(q) && EndsWith(s, Between(p, q))
  }

  predicate EndsWith(s: string, end: string) {
    |end| <= |s| && s[|s| - |end|..] == end
  }

  predicate NoPointers(terms: seq<Term>) {
    forall i :: 0 <= i < |terms| ==> terms[i].id.None? && terms[i].zoneID.None?
  }

  predicate NoTags(terms: seq<Term>) {
    forall i :: 0 <= i < |terms| ==> terms[i].tags == map[]
  }

  ghost predicate PlainTag(key: string, value: string) {
    && ':' !in key && ':' !in value && !StartsBetween(key) && !EndsBetween(value)
  }

  ghost predicate OnePlainTag(terms: seq<Term>) {
    |terms| == 1 && exists key :: terms[0].tags.Keys == {key} && PlainTag(key, terms[0].tags[key])
  }

  /** No IDs and zones, and either no tags or a single term with a single plain tag. */
  ghost predicate Unambiguous(terms: seq<Term>) {
    NoPointers(terms) && (NoTags(terms) || OnePlainTag(terms))
  }

  // ----- strings in parts

  function Pointer1(t: Term, a: Addresses): (p: string)
    ensures Printed(p) && (p == NIL <==> t.id.None?)
  {
    PrintPointer(t.id, a.id)
  }

  function Pointer2(t: Term, a: Addresses): (q: string)
    ensures Printed(q) && (q == NIL <==> t.zoneID.None?)
  {
    PrintPointer(t.zoneID, a.zoneID)
  }

  lemma {:induction false} TermParts(t: Term, a: Addresses)
    ensures PrintTerm(t, a) == (Opening() + PrintTags(t.tags)) + Closing(Pointer1(t, a), Pointer2(t, a))
  {
  }

  /** What is printed before the last term. */
  ghost function Lead(terms: seq<Term>, at: seq<Addresses>): string
    requires |at| == |terms| > 0
  {
    if |terms| == 1 then "" else PrintTerms(terms[..|terms| - 1], at[..|at| - 1]) + " "
  }

  lemma {:induction false} LastTerm(terms: seq<Term>, at: seq<Addresses>)
    requires |at| == |terms| > 0
    ensures PrintTerms(terms, at) == Lead(terms, at) + PrintTerm(terms[|terms| - 1], at[|at| - 1])
  {
  }

  lemma {:induction false} Reassociate(a: string, b: string, c: string)
    ensures (a + b) + c == a + (b + c)
  {
  }

  lemma {:induction false} SameEnd(a: string, b: string, end: string)
    requires a + end == b + end
    ensures a == b
  {
    assert a == (a + end)[..|a|] && b == (b + end)[..|b|];
  }

  lemma {:induction false} SameBeginning(begin: string, a: string, b: string)
    requires begin + a == begin + b
    ensures a == b
  {
    assert a == (begin + a)[|begin|..] && b == (begin + b)[|begin|..];
  }

  // ----- terms with pointers never print alone

  /** The same tags with another ID and zone, where there are any. */
  function Elsewhere(t: Term): Term {
    Term(if t.id.None? then None else Some(t.id.value + "0"), t.tags,
         if t.zoneID.None? then None else Some(t.zoneID.value + "0"))
  }

  lemma {:induction false} ElsewherePrintsAlike(t: Term, a: Addresses)
    ensures PrintTerm(Elsewhere(t), a) == PrintTerm(t, a)
    ensures Elsewhere(t) == t ==> t.id.None? && t.zoneID.None?
  {
    var u := Elsewhere(t);
    assert t.id.Some? ==> |u.id.value| == |t.id.value| + 1;
    assert t.zoneID.Some? ==> |u.zoneID.value| == |t.zoneID.value| + 1;
  }

  lemma {:induction false} PrintWithout(terms: seq<Term>, at: seq<Addresses>, i: nat, other: Term)
    requires |at| == |terms| && i < |terms|
    requires PrintTerm(other, at[i]) == PrintTerm(terms[i], at[i])
    ensures PrintTerms(terms[i := other], at) == PrintTerms(terms, at)
    decreases |terms|
  {
    hide PrintTerm;
    var n := |terms| - 1;
    if i < n {
      PrintWithout(terms[..n], at[..n], i, other);
      assert terms[i := other][..n] == terms[..n][i := other];
    } else {
      assert terms[i := other][..n] == terms[..n];
    }
  }

  lemma {:induction false} AloneHasNoPointers(terms: seq<Term>, at: seq<Addresses>)
    requires |at| == |terms| && PrintsAlone(terms, at)
    ensures NoPointers(terms)
  {
    forall i | 0 <= i < |terms| ensures terms[i].id.None? && terms[i].zoneID.None? {
      var other := Elsewhere(terms[i]);
      ElsewherePrintsAlike(terms[i], at[i]);
      hide PrintTerm, Elsewhere;
      PrintWithout(terms, at, i, other);
      assert CacheKey(terms[i := other], at) == CacheKey(terms, at);
      assert terms[i := other][i] == other;
    }
  }

  // ----- colons: every tag prints one, nothing else does

  lemma {:induction false} EntriesHaveColon(tags: map<string, string>, keys: seq<string>)
    requires keys != [] && forall k :: k in keys ==> k in tags
    ensures ':' in PrintEntries(tags, keys)
  {
    var n := |keys| - 1;
    var last := keys[n] + ":" + tags[keys[n]];
    assert last[|keys[n]|] == ':';
  }

  lemma {:induction false} TagsHaveColon(tags: map<string, string>)
    ensures tags == map[] <==> PrintTags(tags) == ""
    ensures tags != map[] ==> ':' in PrintTags(tags)
  {
    var keys := SortedSeq(tags.Keys);
    if tags == map[] {
      assert keys == [];
    } else {
      var k :| k in tags;
      assert k in keys;
      EntriesHaveColon(tags, keys);
    }
  }

  lemma {:induction false} PointerHasNoColon(p: string)
    requires Printed(p)
    ensures ':' !in p
  {
    if p != NIL {
      forall i | 0 <= i < |p| ensures p[i] != ':' {
        if i < 2 {
          assert p[i] == p[..2][i];
        }
      }
    }
  }

  lemma {:induction false} ClosingHasNoColon(p: string, q: string)
    requires Printed(p) && Printed(q)
    ensures ':' !in Closing(p, q) && ':' !in Between(p, q)
  {
    PointerHasNoColon(p);
    PointerHasNoColon(q);
  }

  lemma {:induction false} TermHasColon(t: Term, a: Addresses)
    ensures ':' in PrintTerm(t, a) <==> t.tags != map[]
  {
    TagsHaveColon(t.tags);
    ClosingHasNoColon(Pointer1(t, a), Pointer2(t, a));
    var tags, end := PrintTags(t.tags), Closing(Pointer1(t, a), Pointer2(t, a));
    assert PrintTerm(t, a) == Opening() + tags + end;
    if ':' in tags {
      var i :| 0 <= i < |tags| && tags[i] == ':';
      assert PrintTerm(t, a)[5 + i] == ':';
    }
  }

  lemma {:induction false} TermsHaveColon(terms: seq<Term>, at: seq<Addresses>)
    requires |at| == |terms|
    ensures ':' in PrintTerms(terms, at) <==> !NoTags(terms)
    decreases |terms|
  {
    hide PrintTerm;
    if terms != [] {
      var n := |terms| - 1;
      TermsHaveColon(terms[..n], at[..n]);
      TermHasColon(terms[n], at[n]);
      assert NoTags(terms) <==> NoTags(terms[..n]) && terms[n].tags == map[];
    }
  }

  /** At most one colon: the two parts of a string cannot both have one. */
  lemma {:induction false} ColonOnOneSide(a: string, b: string, c: nat)
    requires OneColon(a + b, c)
    ensures !(':' in a && ':' in b)
  {
    forall i, j | 0 <= i < |a| && 0 <= j < |b| ensures a[i] != ':' || b[j] != ':' {
      assert (a + b)[i] == a[i] && (a + b)[|a| + j] == b[j];
    }
  }

  predicate OneColon(s: string, c: nat) {
    forall i :: 0 <= i < |s| && s[i] == ':' ==> i == c
  }

  // ----- text without pointers can be cut again at every colon

  /** A term without pointers whose tags are printed as `inside`. */
  function Wrap(inside: string): string {
    Opening() + inside + Closing(NIL, NIL)
  }

  /** The text of terms without pointers, read as one term. */
  lemma {:induction false} ReadsAsOne(terms: seq<Term>, at: seq<Addresses>) returns (inside: string)
    requires |at| == |terms| && terms != [] && NoPointers(terms)
    ensures PrintTerms(terms, at) == Wrap(inside)
    decreases |terms|
  {
    var n := |terms| - 1;
    var last := PrintTags(terms[n].tags);
    assert PrintTerm(terms[n], at[n]) == Wrap(last);
    if n == 0 {
      inside := last;
    } else {
      var before := ReadsAsOne(terms[..n], at[..n]);
      inside := before + Between(NIL, NIL) + last;
      WrapsJoin(before, last);
    }
  }

  lemma {:induction false} WrapsJoin(before: string, last: string)
    ensures Wrap(before) + " " + Wrap(last) == Wrap(before + Between(NIL, NIL) + last)
  {
  }

  lemma {:induction false} WrapHasColon(inside: string)
    ensures ':' in Wrap(inside) <==> ':' in inside
  {
    ClosingHasNoColon(NIL, NIL);
    if i: nat :| i < |inside| && inside[i] == ':' {
      assert Wrap(inside)[5 + i] == ':';
    }
  }

  function Cut(inside: string, j: nat): Term
    requires j < |inside|
  {
    Term(None, map[inside[..j] := inside[j + 1..]], None)
  }

  lemma {:induction false} CutPrints(inside: string, j: nat, a: Addresses)
    requires j < |inside| && inside[j] == ':'
    ensures PrintTerms([Cut(inside, j)], [a]) == Wrap(inside)
  {
    var key, value := inside[..j], inside[j + 1..];
    OneTagPrints(key, value);
    assert inside == key + ":" + value;
    OneTermPrints(Cut(inside, j), a);
  }

  lemma {:induction false} OneTermPrints(t: Term, a: Addresses)
    ensures PrintTerms([t], [a]) == PrintTerm(t, a)
  {
    assert [t][..0] == [];
  }

  lemma {:induction false} OneTagPrints(key: string, value: string)
    ensures PrintTags(map[key := value]) == key + ":" + value
  {
    var tags := map[key := value];
    assert tags.Keys == {key};
    StrictlySortedUnique(SortedSeq(tags.Keys), [key]);
    assert PrintEntries(tags, [key]) == key + ":" + tags[key];
  }

  /** What prints alone and has tags is one term with one tag and one colon. */
  lemma {:induction false} AloneIsOneTag(terms: seq<Term>, at: seq<Addresses>) returns (key: string, value: string)
    requires |at| == |terms| && PrintsAlone(terms, at) && !NoTags(terms)
    ensures terms == [Term(None, map[key := value], None)]
    ensures ':' !in key && ':' !in value
  {
    AloneHasNoPointers(terms, at);
    var inside := ReadsAsOne(terms, at);
    TermsHaveColon(terms, at);
    WrapHasColon(inside);
    var j: nat :| j < |inside| && inside[j] == ':';
    key, value := inside[..j], inside[j + 1..];
    forall i: nat | i < |inside| && inside[i] == ':' ensures terms == [Cut(inside, i)] {
      CutPrints(inside, i, at[0]);
      KeysPrintTerms([Cut(inside, i)], [at[0]], terms, at);
    }
    forall i: nat | i < |inside| && inside[i] == ':' ensures i == j {
      assert [Cut(inside, i)][0] == [Cut(inside, j)][0];
      SameTag(inside[..i], inside[i + 1..], key, value);
    }
    assert forall i :: 0 <= i < |key| ==> inside[i] == key[i];
    assert forall i :: 0 <= i < |value| ==> inside[j + 1 + i] == value[i];
  }

  lemma {:induction false} SameTag(k: string, v: string, l: string, w: string)
    requires map[k := v] == map[l := w]
    ensures k == l && v == w
  {
    assert k in map[l := w];
    assert map[k := v][k] == map[l := w][k];
  }

  // ----- a separator at the right end of a tag lets it be read as two terms

  function AsPointer(p: string): Option<string> {
    if p == NIL then None else Some("")
  }

  function AsAddress(p: string): (a: Address)
    requires Printed(p)
    ensures PrintPointer(AsPointer(p), a) == p
  {
    if p == NIL then "0x1" else p
  }

  lemma {:induction false} TwoTermsPrint(t: Term, u: Term, a: Addresses, b: Addresses)
    ensures PrintTerms([t, u], [a, b]) == PrintTerm(t, a) + " " + PrintTerm(u, b)
  {
    hide PrintTerm;
    assert [t, u][..1] == [t] && [a, b][..1] == [a];
    OneTermPrints(t, a);
  }

  lemma {:induction false} NoTagPrints()
    ensures PrintTags(map[]) == ""
  {
    TagsHaveColon(map[]);
  }

  lemma {:induction false} SplitsInKey(o: string, c: string, r: string, v: string, e: string)
    ensures (((o + "") + c) + " ") + ((o + ((r + ":") + v)) + e) == (o + (((((c + " ") + o) + r) + ":") + v)) + e
  {
  }

  lemma {:induction false} SplitsInValue(o: string, k: string, r: string, c: string, e: string)
    ensures (((o + ((k + ":") + r)) + c) + " ") + ((o + "") + e) == (o + ((k + ":") + (r + ((c + " ") + o)))) + e
  {
  }

  lemma {:induction false} OneTagTermPrints(key: string, value: string, p: string, q: string, b: Addresses, t: Term)
    requires t.tags == map[key := value] && p == Pointer1(t, b) && q == Pointer2(t, b)
    ensures PrintTerm(t, b) == (Opening() + ((key + ":") + value)) + Closing(p, q)
  {
    OneTagPrints(key, value);
  }

  lemma {:induction false} KeySplits(rest: string, value: string, p: string, q: string, a: Addresses)
    requires Printed(p) && Printed(q)
    ensures !PrintsAlone([Term(None, map[Between(p, q) + rest := value], None)], [a])
  {
    var b := Addresses(AsAddress(p), AsAddress(q));
    var one := Term(None, map[Between(p, q) + rest := value], None);
    var t, u := Term(AsPointer(p), map[], AsPointer(q)), Term(None, map[rest := value], None);
    OneTagTermPrints(Between(p, q) + rest, value, NIL, NIL, a, one);
    OneTagTermPrints(rest, value, NIL, NIL, a, u);
    TermParts(t, b);
    NoTagPrints();
    hide PrintTerm, Opening, Closing, PrintTags;
    SplitsInKey(Opening(), Closing(p, q), rest, value, Closing(NIL, NIL));
    TwoForOne(one, t, u, a, b);
  }

  lemma {:induction false} ValueSplits(key: string, rest: string, p: string, q: string, a: Addresses)
    requires Printed(p) && Printed(q)
    ensures !PrintsAlone([Term(None, map[key := rest + Between(p, q)], None)], [a])
  {
    var b := Addresses(AsAddress(p), AsAddress(q));
    var one := Term(None, map[key := rest + Between(p, q)], None);
    var t, u := Term(AsPointer(p), map[key := rest], AsPointer(q)), Term(None, map[], None);
    OneTagTermPrints(key, rest + Between(p, q), NIL, NIL, a, one);
    OneTagTermPrints(key, rest, p, q, b, t);
    TermParts(u, a);
    NoTagPrints();
    hide PrintTerm, Opening, Closing, PrintTags;
    SplitsInValue(Opening(), key, rest, Closing(p, q), Closing(NIL, NIL));
    TwoForOne(one, t, u, a, b);
  }

  lemma {:induction false} TwoForOne(one: Term, t: Term, u: Term, a: Addresses, b: Addresses)
    requires (PrintTerm(t, b) + " ") + PrintTerm(u, a) == PrintTerm(one, a)
    ensures !PrintsAlone([one], [a])
  {
    hide PrintTerm;
    OneTermPrints(one, a);
    TwoTermsPrint(t, u, b, a);
    KeysPrintTerms([t, u], [b, a], [one], [a]);
    assert |[t, u]| == 2 && CacheKey([t, u], [b, a]) == CacheKey([one], [a]);
  }

  lemma {:induction false} SeparatorSplits(key: string, value: string, a: Addresses)
    requires StartsBetween(key) || EndsBetween(value)
    ensures !PrintsAlone([Term(None, map[key := value], None)], [a])
  {
    hide PrintsAlone;
    if p, q :| Printed(p) && Printed(q) && Between(p, q) <= key {
      var rest := key[|Between(p, q)|..];
      assert key == Between(p, q) + rest;
      KeySplits(rest, value, p, q, a);
    } else {
      var p, q :| Printed(p) && Printed(q) && EndsWith(value, Between(p, q));
      var rest := value[..|value| - |Between(p, q)|];
      assert value == rest + Between(p, q);
      ValueSplits(key, rest, p, q, a);
    }
  }

  lemma {:induction false} AloneIsUnambiguous(terms: seq<Term>, at: seq<Addresses>)
    requires |at| == |terms| && PrintsAlone(terms, at)
    ensures Unambiguous(terms)
  {
    AloneHasNoPointers(terms, at);
    if !NoTags(terms) {
      var key, value := AloneIsOneTag(terms, at);
      assert terms[0].tags == map[key := value] && terms[0].tags.Keys == {key};
      assert at == [at[0]];
      if StartsBetween(key) || EndsBetween(value) {
        SeparatorSplits(key, value, at[0]);
      }
    }
  }

  // ----- reading unambiguous text

  lemma {:induction false} LastPointer(x: string, p: string, y: string)
    requires Printed(p) && x + " " + p == y + " " + NIL
    ensures p == NIL && x == y
  {
    var s := x + " " + p;
    assert s[|s| - 1] == p[|p| - 1];
    assert s[|s| - 1] == NIL[|NIL| - 1] == '>';
    assert x == s[..|s| - 6] && y == s[..|s| - 6];
  }

  lemma {:induction false} ClosingApart(x: string, p: string, q: string)
    ensures x + Closing(p, q) == ((((x + "]") + " ") + p) + " " + q) + "}"
  {
    FivePieces(x, "]", " ", p, q, "}");
  }

  lemma {:induction false} FivePieces(x: string, a: string, b: string, p: string, q: string, e: string)
    ensures x + (a + b + p + b + q + e) == ((((x + a) + b) + p) + b + q) + e
  {
  }

  /** Text that ends like a term without pointers does. */
  lemma {:induction false} NilsAtTheEnd(x: string, p: string, q: string, y: string)
    requires Printed(p) && Printed(q) && x + Closing(p, q) == y + Closing(NIL, NIL)
    ensures p == NIL && q == NIL && x == y
  {
    hide Printed;
    ClosingApart(x, p, q);
    ClosingApart(y, NIL, NIL);
    SameEnd((((x + "]") + " ") + p) + " " + q, (((y + "]") + " ") + NIL) + " " + NIL, "}");
    LastPointer(((x + "]") + " ") + p, q, ((y + "]") + " ") + NIL);
    LastPointer(x + "]", p, y + "]");
    SameEnd(x, y, "]");
  }

  /** Terms that print like terms without tags and pointers are those terms. */
  lemma {:induction false} TaglessDecode(
    ts: seq<Term>, bt: seq<Addresses>, terms: seq<Term>, at: seq<Addresses>)
    requires |bt| == |ts| && |at| == |terms| && NoTags(ts) && NoTags(terms) && NoPointers(terms)
    requires PrintTerms(ts, bt) == PrintTerms(terms, at)
    ensures ts == terms
    decreases |ts|
  {
    PrintsSomething(ts, bt);
    PrintsSomething(terms, at);
    hide PrintTerms, PrintTerm, PrintTags, Opening, Closing, IsAddress;
    if ts != [] && terms != [] {
      var m, n := |ts| - 1, |terms| - 1;
      LastTagless(ts, bt, terms, at);
      if m > 0 && n > 0 {
        SameEnd(PrintTerms(ts[..m], bt[..m]), PrintTerms(terms[..n], at[..n]), " ");
        TaglessDecode(ts[..m], bt[..m], terms[..n], at[..n]);
        assert ts[..m] == terms[..n];
      }
      assert m == n;
      assert ts == ts[..m] + [ts[m]] && terms == terms[..n] + [terms[n]];
    }
  }

  lemma {:induction false} PrintsSomething(terms: seq<Term>, at: seq<Addresses>)
    requires |at| == |terms|
    ensures PrintTerms(terms, at) == "" <==> terms == []
  {
    if terms != [] {
      LastTerm(terms, at);
    }
  }

  lemma {:induction false} LastTagless(ts: seq<Term>, bt: seq<Addresses>, terms: seq<Term>, at: seq<Addresses>)
    requires |bt| == |ts| > 0 && |at| == |terms| > 0 && NoTags(ts) && NoTags(terms) && NoPointers(terms)
    requires PrintTerms(ts, bt) == PrintTerms(terms, at)
    ensures Lead(ts, bt) == Lead(terms, at) && ts[|ts| - 1] == terms[|terms| - 1]
  {
    var t, u, a, b := ts[|ts| - 1], terms[|terms| - 1], at[|at| - 1], bt[|bt| - 1];
    LastTerm(ts, bt);
    LastTerm(terms, at);
    TermParts(t, b);
    TermParts(u, a);
    hide PrintTerms, PrintTerm, Lead, Opening, Closing, PrintTags;
    var open := Opening() + PrintTags(map[]);
    var x, y := Lead(ts, bt), Lead(terms, at);
    Reassociate(x, open, Closing(Pointer1(t, b), Pointer2(t, b)));
    Reassociate(y, open, Closing(NIL, NIL));
    NilsAtTheEnd(x + open, Pointer1(t, b), Pointer2(t, b), y + open);
    SameEnd(x, y, open);
  }

  lemma {:induction false} EntryHasColon(key: string, value: string)
    ensures (key + ":" + value)[|key|] == ':'
  {
  }

  lemma {:induction false} SeveralEntriesHaveColons(tags: map<string, string>, keys: seq<string>, c: nat)
    requires |keys| >= 2 && forall k :: k in keys ==> k in tags
    ensures !OneColon(PrintEntries(tags, keys), c)
  {
    var n := |keys| - 1;
    var before, last := PrintEntries(tags, keys[..n]), keys[n] + ":" + tags[keys[n]];
    EntriesHaveColon(tags, keys[..n]);
    EntryHasColon(keys[n], tags[keys[n]]);
    Reassociate(before, " ", last);
    assert (" " + last)[1 + |keys[n]|] == ':';
    if OneColon(before + (" " + last), c) {
      ColonOnOneSide(before, " " + last, c);
    }
  }

  lemma {:induction false} SameEntry(k: string, v: string, key: string, value: string)
    requires ':' !in key && ':' !in value && k + ":" + v == key + ":" + value
    ensures k == key && v == value
  {
    var text := k + ":" + v;
    EntryHasColon(k, v);
    assert OneColon(key + ":" + value, |key|);
    assert k == text[..|k|] && key == text[..|key|];
    assert v == text[|k| + 1..] && value == text[|key| + 1..];
  }

  /** Entries with one colon are one entry. */
  lemma {:induction false} OneEntryDecodes(tags: map<string, string>, key: string, value: string)
    requires ':' !in key && ':' !in value && PrintTags(tags) == key + ":" + value
    ensures tags == map[key := value]
  {
    var keys := SortedSeq(tags.Keys);
    assert OneColon(key + ":" + value, |key|);
    EntryHasColon(key, value);
    if |keys| >= 2 {
      SeveralEntriesHaveColons(tags, keys, |key|);
    }
    assert keys == [keys[0]];
    assert PrintTags(tags) == keys[0] + ":" + tags[keys[0]];
    SameEntry(keys[0], tags[keys[0]], key, value);
    assert forall k :: k in tags <==> k in keys;
  }

  lemma {:induction false} JoinFront(x: string, b: string, l: string)
    ensures ((x + b) + " ") + l == x + ((b + " ") + l)
  {
  }

  /** The first of several terms, then the others. */
  lemma {:induction false} PrintFront(terms: seq<Term>, at: seq<Addresses>) returns (rest: string)
    requires |at| == |terms| >= 2
    ensures PrintTerms(terms, at) == ((PrintTerm(terms[0], at[0]) + " ") + Opening()) + rest
    decreases |terms|
  {
    var n := |terms| - 1;
    LastTerm(terms, at);
    if n == 1 {
      OneTermPrints(terms[0], at[0]);
      assert terms[..1] == [terms[0]] && at[..1] == [at[0]];
      TermParts(terms[1], at[1]);
      hide PrintTerm, PrintTerms, Opening, Closing, PrintTags;
      rest := PrintTags(terms[1].tags) + Closing(Pointer1(terms[1], at[1]), Pointer2(terms[1], at[1]));
      Reassociate(Opening(), PrintTags(terms[1].tags), Closing(Pointer1(terms[1], at[1]), Pointer2(terms[1], at[1])));
      Reassociate(PrintTerm(terms[0], at[0]) + " ", Opening(), rest);
    } else {
      hide PrintTerm, PrintTerms, Opening;
      var before := PrintFront(terms[..n], at[..n]);
      rest := (before + " ") + PrintTerm(terms[n], at[n]);
      JoinFront((PrintTerm(terms[0], at[0]) + " ") + Opening(), before, PrintTerm(terms[n], at[n]));
    }
  }

  lemma {:induction false} FrontEquation(o: string, c: string, r: string, k: string, v: string, e: string)
    requires ((((o + "") + c) + " ") + o) + r == (o + ((k + ":") + v)) + e
    ensures ((c + " ") + o) + r == (k + ":") + (v + e)
  {
    assert ((((o + "") + c) + " ") + o) + r == o + (((c + " ") + o) + r);
    assert (o + ((k + ":") + v)) + e == o + ((k + ":") + (v + e));
    SameBeginning(o, ((c + " ") + o) + r, (k + ":") + (v + e));
  }

  lemma {:induction false} SeparatorFirst(ts: seq<Term>, bt: seq<Addresses>, key: string, value: string)
    requires |bt| == |ts| >= 2 && ts[0].tags == map[]
    requires PrintTerms(ts, bt) == Wrap(key + ":" + value)
    ensures StartsBetween(key)
  {
    var rest := PrintFront(ts, bt);
    NoTagPrints();
    TermParts(ts[0], bt[0]);
    var p, q := Pointer1(ts[0], bt[0]), Pointer2(ts[0], bt[0]);
    ClosingHasNoColon(p, q);
    hide PrintTerms, PrintTerm, Opening, Closing, PrintTags;
    FrontEquation(Opening(), Closing(p, q), rest, key, value, Closing(NIL, NIL));
    NoColonBefore(Between(p, q), rest, key, value + Closing(NIL, NIL));
    assert Printed(p) && Printed(q) && Between(p, q) <= key;
  }

  lemma {:induction false} NoColonBefore(x: string, rest: string, key: string, end: string)
    requires ':' !in x && x + rest == (key + ":") + end
    ensures x <= key
  {
    var s := x + rest;
    assert s[|key|] == ':';
    assert forall i :: 0 <= i < |x| ==> s[i] == x[i];
    assert x == s[..|x|] && key == s[..|key|];
  }

  lemma {:induction false} BackEquation(x: string, o: string, c: string, k: string, v: string)
    requires ((x + c) + " ") + (o + "") == o + ((k + ":") + v)
    ensures x + ((c + " ") + o) == ((o + k) + ":") + v
  {
    assert ((x + c) + " ") + (o + "") == x + ((c + " ") + o);
    assert o + ((k + ":") + v) == ((o + k) + ":") + v;
  }

  /** A last term without tags adds nothing but an opening to what the others print. */
  lemma {:induction false} LastAddsOpening(ts: seq<Term>, bt: seq<Addresses>, key: string, value: string)
    requires |bt| == |ts| >= 2 && ts[|ts| - 1].tags == map[]
    requires PrintTerms(ts, bt) == Wrap(key + ":" + value)
    ensures (PrintTerms(ts[..|ts| - 1], bt[..|ts| - 1]) + " ") + (Opening() + "") == Opening() + ((key + ":") + value)
  {
    var n := |ts| - 1;
    var before, p, q := PrintTerms(ts[..n], bt[..n]), Pointer1(ts[n], bt[n]), Pointer2(ts[n], bt[n]);
    LastTerm(ts, bt);
    assert Lead(ts, bt) == before + " ";
    NoTagPrints();
    TermParts(ts[n], bt[n]);
    hide PrintTerms, PrintTerm, Lead, Opening, Closing, PrintTags;
    Reassociate(before + " ", Opening() + "", Closing(p, q));
    NilsAtTheEnd((before + " ") + (Opening() + ""), p, q, Opening() + ((key + ":") + value));
  }

  lemma {:induction false} SeparatorLast(ts: seq<Term>, bt: seq<Addresses>, key: string, value: string)
    requires |bt| == |ts| >= 2 && ts[|ts| - 1].tags == map[]
    requires PrintTerms(ts, bt) == Wrap(key + ":" + value)
    ensures EndsBetween(value)
  {
    LastAddsOpening(ts, bt, key, value);
    var n := |ts| - 1;
    SeparatorBefore(ts[..n], bt[..n], key, value);
  }

  lemma {:induction false} SeparatorBefore(ts: seq<Term>, bt: seq<Addresses>, key: string, value: string)
    requires |bt| == |ts| > 0
    requires (PrintTerms(ts, bt) + " ") + (Opening() + "") == Opening() + ((key + ":") + value)
    ensures EndsBetween(value)
  {
    var t, b := ts[|ts| - 1], bt[|ts| - 1];
    var p, q := Pointer1(t, b), Pointer2(t, b);
    LastTerm(ts, bt);
    TermParts(t, b);
    ClosingHasNoColon(p, q);
    hide PrintTerms, PrintTerm, Lead, Opening, Closing, PrintTags;
    var front := Lead(ts, bt) + (Opening() + PrintTags(t.tags));
    Reassociate(Lead(ts, bt), Opening() + PrintTags(t.tags), Closing(p, q));
    BackEquation(front, Opening(), Closing(p, q), key, value);
    NoColonAfter(front, Between(p, q), Opening() + key, value);
    assert Printed(p) && Printed(q) && EndsWith(value, Between(p, q));
  }

  lemma {:induction false} NoColonAfter(front: string, x: string, key: string, value: string)
    requires ':' !in x && front + x == (key + ":") + value
    ensures EndsWith(value, x)
  {
    var s := front + x;
    assert s[|key|] == ':';
    assert forall i :: |front| <= i < |s| ==> s[i] == x[i - |front|];
    assert value == s[|key| + 1..] && x == s[|front|..];
  }

  /** One term that prints like one with a single plain tag. */
  lemma {:induction false} OneTermDecodes(t: Term, b: Addresses, key: string, value: string)
    requires ':' !in key && ':' !in value && PrintTerm(t, b) == Wrap(key + ":" + value)
    ensures t == Term(None, map[key := value], None)
  {
    TermParts(t, b);
    hide PrintTerm, Opening, Closing, PrintTags;
    NilsAtTheEnd(Opening() + PrintTags(t.tags), Pointer1(t, b), Pointer2(t, b), Opening() + (key + ":" + value));
    SameBeginning(Opening(), PrintTags(t.tags), key + ":" + value);
    OneEntryDecodes(t.tags, key, value);
  }

  /** Of several terms with one colon in all, the first or the last has no tags. */
  lemma {:induction false} OneEndIsTagless(ts: seq<Term>, bt: seq<Addresses>, c: nat)
    requires |bt| == |ts| >= 2 && OneColon(PrintTerms(ts, bt), c)
    ensures ts[0].tags == map[] || ts[|ts| - 1].tags == map[]
  {
    var n := |ts| - 1;
    LastTerm(ts, bt);
    var before, last := PrintTerms(ts[..n], bt[..n]), PrintTerm(ts[n], bt[n]);
    assert Lead(ts, bt) == before + " ";
    TermsHaveColon(ts[..n], bt[..n]);
    TermHasColon(ts[n], bt[n]);
    hide PrintTerms, PrintTerm, Lead;
    Reassociate(before, " ", last);
    ColonOnOneSide(before, " " + last, c);
    LaterColon(" ", last);
    assert ts[..n][0] == ts[0];
  }

  lemma {:induction false} LaterColon(a: string, b: string)
    ensures ':' in b ==> ':' in a + b
  {
    forall i | 0 <= i < |b| ensures b[i] in a + b {
      assert (a + b)[|a| + i] == b[i];
    }
  }

  /** Terms that print like one term with one plain tag are that term. */
  lemma {:induction false} PlainTagDecodes(ts: seq<Term>, bt: seq<Addresses>, key: string, value: string)
    requires |bt| == |ts| && PlainTag(key, value)
    requires PrintTerms(ts, bt) == Wrap(key + ":" + value)
    ensures ts == [Term(None, map[key := value], None)]
  {
    assert ts != [];
    hide PrintTerms, PrintTerm, StartsBetween, EndsBetween;
    if |ts| == 1 {
      assert ts == [ts[0]] && bt == [bt[0]];
      OneTermPrints(ts[0], bt[0]);
      OneTermDecodes(ts[0], bt[0], key, value);
    } else {
      WrapHasOneColon(key, value);
      OneEndIsTagless(ts, bt, 5 + |key|);
      if ts[0].tags == map[] {
        SeparatorFirst(ts, bt, key, value);
      } else {
        SeparatorLast(ts, bt, key, value);
      }
      assert false;
    }
  }

  lemma {:induction false} WrapHasOneColon(key: string, value: string)
    requires ':' !in key && ':' !in value
    ensures OneColon(Wrap(key + ":" + value), 5 + |key|)
  {
    ClosingHasNoColon(NIL, NIL);
  }

  lemma {:induction false} UnambiguousIsAlone(terms: seq<Term>, at: seq<Addresses>)
    requires |at| == |terms| && Unambiguous(terms)
    ensures PrintsAlone(terms, at)
  {
    hide PrintTerms, CacheKey, OnePlainTag;
    forall ts: seq<Term>, bt: seq<Addresses> | |bt| == |ts| && CacheKey(ts, bt) == CacheKey(terms, at)
      ensures ts == terms
    {
      KeysPrintTerms(ts, bt, terms, at);
      if NoTags(terms) {
        TermsHaveColon(ts, bt);
        TermsHaveColon(terms, at);
        TaglessDecode(ts, bt, terms, at);
      } else {
        OnePlainTagDecodes(ts, bt, terms, at);
      }
    }
  }

  lemma {:induction false} OnePlainTagDecodes(
    ts: seq<Term>, bt: seq<Addresses>, terms: seq<Term>, at: seq<Addresses>)
    requires |bt| == |ts| && |at| == |terms| && NoPointers(terms) && OnePlainTag(terms)
    requires PrintTerms(ts, bt) == PrintTerms(terms, at)
    ensures ts == terms
  {
    var key :| terms[0].tags.Keys == {key} && PlainTag(key, terms[0].tags[key]);
    var value := terms[0].tags[key];
    hide PrintTerms, PlainTag, StartsBetween, EndsBetween;
    assert terms[0].tags == map[key := value];
    assert terms == [terms[0]] && at == [at[0]];
    OneTermPrints(terms[0], at[0]);
    OneTagTermPrints(key, value, NIL, NIL, at[0], terms[0]);
    PlainTagDecodes(ts, bt, key, value);
  }

  /**
   A list of terms is the only one with its cache key exactly when it has no IDs and zones, and
   either no tags at all or one term with one tag that has no further colon, whose key does not
   begin and whose value does not end with what stands between the tags of two terms.
   */
  lemma {:induction false} PrintsAloneIffUnambiguous(terms: seq<Term>, at: seq<Addresses>)
    requires |at| == |terms|
    ensures PrintsAlone(terms, at) <==> Unambiguous(terms)
  {
    if PrintsAlone(terms, at) {
      AloneIsUnambiguous(terms, at);
    }
    if Unambiguous(terms) {
      UnambiguousIsAlone(terms, at);
    }
  }

  lemma {:induction false} SeamEnds(s: string)
    ensures StartsBetween(s) ==> s != "" && s[0] == ']'
    ensures EndsBetween(s) ==> s != "" && s[|s| - 1] == '['
  {
    if p, q :| Printed(p) && Printed(q) && Between(p, q) <= s {
      assert s[0] == Between(p, q)[0];
    }
    if p, q :| Printed(p) && Printed(q) && EndsWith(s, Between(p, q)) {
      var seam := Between(p, q);
      assert seam[|seam| - 1] == '[';
      assert s[|s| - 1] == s[|s| - |seam|..][|seam| - 1];
    }
  }

  /** An ordinary tag is unambiguous, even with a seam in the middle of its key or value. */
  lemma {:induction false} OrdinaryTagPrintsAlone(key: string, value: string, a: Addresses)
    requires ':' !in key && ':' !in value
    requires (key == "" || key[0] != ']') && (value == "" || value[|value| - 1] != '[')
    ensures PrintsAlone([Term(None, map[key := value], None)], [a])
  {
    hide PrintsAlone, StartsBetween, EndsBetween;
    var terms := [Term(None, map[key := value], None)];
    SeamEnds(key);
    SeamEnds(value);
    assert terms[0].tags.Keys == {key};
    assert PlainTag(key, terms[0].tags[key]);
    PrintsAloneIffUnambiguous(terms, [a]);
  }

  /** Two tags always print like one. */
  lemma {:induction false} TagsPrintAlike(k: string, v: string, l: string, w: string, a: Addresses)
    requires Less(k, l)
    ensures var one := [Term(None, map[k := v + " " + l + ":" + w], None)];
            var two := [Term(None, map[k := v, l := w], None)];
            one != two && CacheKey(one, [a]) == CacheKey(two, [a])
  {
    var value, tags := v + " " + l + ":" + w, map[k := v, l := w];
    var one, two := Term(None, map[k := value], None), Term(None, tags, None);
    assert l in tags && l !in one.tags;
    OneTagPrints(k, value);
    assert tags.Keys == {k, l};
    StrictlySortedUnique(SortedSeq(tags.Keys), [k, l]);
    assert [k, l][..1] == [k];
    assert PrintEntries(tags, [k]) == k + ":" + v;
    assert PrintEntries(tags, [k, l]) == k + ":" + v + " " + (l + ":" + w) == k + ":" + value;
    OneTermPrints(one, a);
    OneTermPrints(two, a);
    assert [one][0].tags != [two][0].tags;
  }
}
