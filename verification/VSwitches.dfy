/** pkg/providers/vswitch/vswitch.go: from selector terms to a canonical list of vSwitches. */
module VSwitches {
  import opened Wrappers
  import opened Ordering
  import opened TtlCaches
  import opened VSwitchKeys

  datatype VSwitch = VSwitch(id: string, zone: string, zoneID: string, availableIPAddressCount: int)

  /** A row of DescribeVSwitches; every field and the row itself may be missing. */
  datatype Row = Row(vSwitchId: Option<string>, zoneId: Option<string>, availableIpAddressCount: Option<int>)

  type Answer = Result<seq<Option<Row>>, string>

  function FromRow(row: Row): VSwitch
    requires row.vSwitchId.Some?
  {
    var zone := row.zoneId.GetOr("");
    VSwitch(row.vSwitchId.value, zone, zone, row.availableIpAddressCount.GetOr(0))
  }

  predicate Usable(row: Option<Row>) {
    row.Some? && row.value.vSwitchId.Some?
  }

  function FromRows(rows: seq<Option<Row>>): seq<VSwitch> {
    if rows == [] then []
    else
      var n := |rows| - 1;
      FromRows(rows[..n]) + if Usable(rows[n]) then [FromRow(rows[n].value)] else []
  }

  /**
   Row i with an ID is the vSwitch after those of the rows before it, with the row's zone as zone and
   zone ID and its free IPs, missing ones read as "" and 0; a row without an ID adds none.
   */
  lemma {:induction false} EachRowInOrder(rows: seq<Option<Row>>, i: nat)
    requires i < |rows|
    ensures var before, found := FromRows(rows[..i]), FromRows(rows);
            && before <= found
            && if rows[i].Some? && rows[i].value.vSwitchId.Some? then
                 && |FromRows(rows[..i + 1])| == |before| + 1 <= |found|
                 && var v, row := found[|before|], rows[i].value;
                    && v.id == row.vSwitchId.value && v.zone == v.zoneID
                    && v.zone == (match row.zoneId case None => "" case Some(zone) => zone)
                    && v.availableIPAddressCount == (match row.availableIpAddressCount case None => 0 case Some(n) => n)
               else FromRows(rows[..i + 1]) == before
    decreases |rows|
  {
    var n := |rows| - 1;
    assert rows[..i + 1][..i] == rows[..i];
    if i < n {
      EachRowInOrder(rows[..n], i);
      assert rows[..n][..i] == rows[..i] && rows[..n][..i + 1] == rows[..i + 1];
    } else {
      assert rows[..i + 1] == rows;
    }
  }

  method GetByQuery(answer: Answer) returns (r: Result<seq<VSwitch>, string>)
    ensures r.Ok? <==> answer.Ok?
    ensures r.Ok? ==> r.value == FromRows(answer.value)
  {
    if answer.Err? {
      return Err(answer.error);
    }
    var vswitches := [];
    for i := 0 to |answer.value|
      invariant vswitches == FromRows(answer.value[..i])
    {
      assert answer.value[..i + 1][..i] == answer.value[..i];
      if Usable(answer.value[i]) {
        vswitches := vswitches + [FromRow(answer.value[i].value)];
      }
    }
    assert answer.value[..|answer.value|] == answer.value;
    return Ok(vswitches);
  }

  // ----- duplicates and order

  function IDs(s: seq<VSwitch>): seq<string> {
    seq(|s|, i requires 0 <= i < |s| => s[i].id)
  }

  ghost predicate IsFirst(s: seq<VSwitch>, v: VSwitch) {
    exists i :: 0 <= i < |s| && s[i] == v && forall j :: 0 <= j < i ==> s[j].id != v.id
  }

  function KnownIDs(s: seq<VSwitch>): set<string> {
    set v | v in s && v.id != "" :: v.id
  }

  predicate ByID(a: VSwitch, b: VSwitch) {
    Leq(a.id, b.id)
  }

  /** Every non-empty ID once, in increasing order, with the first record found for it. */
  ghost predicate IsResolved(found: seq<VSwitch>, r: seq<VSwitch>) {
    IDs(r) == SortedSeq(KnownIDs(found)) && forall v :: v in r ==> IsFirst(found, v)
  }

  method RemoveDuplicateVSwitches(found: seq<VSwitch>) returns (result: seq<VSwitch>)
    ensures IsResolved(found, result)
  {
    var seen: set<string> := {};
    var unsorted: seq<VSwitch> := [];
    for i := 0 to |found|
      invariant seen == KnownIDs(found[..i])
      invariant forall x :: x in seen <==> x in IDs(unsorted)
      invariant Distinct(unsorted)
      invariant forall v :: v in unsorted ==> IsFirst(found, v)
    {
      var v := found[i];
      KnownIDsGrow(found, i);
      if v.id != "" && v.id !in seen {
        FirstOfItsID(found, i);
        IDsGrow(unsorted, v);
        seen := seen + {v.id};
        unsorted := unsorted + [v];
      }
    }
    assert found[..|found|] == found;
    ByIDIsTotalPreorder();
    result := SortBy(unsorted, ByID);
    SortedIDs(found, unsorted, result);
  }

  predicate Distinct(s: seq<VSwitch>) {
    forall i, j :: 0 <= i < j < |s| ==> s[i].id != s[j].id
  }

  lemma KnownIDsGrow(found: seq<VSwitch>, i: nat)
    requires i < |found|
    ensures KnownIDs(found[..i + 1]) == KnownIDs(found[..i]) + if found[i].id != "" then {found[i].id} else {}
  {
    assert found[..i + 1] == found[..i] + [found[i]];
  }

  lemma FirstOfItsID(found: seq<VSwitch>, i: nat)
    requires i < |found| && found[i].id != "" && found[i].id !in KnownIDs(found[..i])
    ensures IsFirst(found, found[i])
  {
    forall j | 0 <= j < i ensures found[j].id != found[i].id {
      assert found[..i][j] in found[..i];
    }
  }

  lemma IDsGrow(s: seq<VSwitch>, v: VSwitch)
    requires Distinct(s) && v.id !in IDs(s)
    ensures IDs(s + [v]) == IDs(s) + [v.id]
    ensures Distinct(s + [v])
  {
    forall i | 0 <= i < |s| ensures s[i].id != v.id {
      assert IDs(s)[i] in IDs(s);
    }
  }

  lemma ByIDIsTotalPreorder()
    ensures TotalPreorder(ByID)
  {
    forall x: VSwitch, y: VSwitch ensures ByID(x, y) || ByID(y, x) {
      LeqTotal(x.id, y.id);
    }
    forall x: VSwitch, y: VSwitch, z: VSwitch | ByID(x, y) && ByID(y, z) ensures ByID(x, z) {
      LeqTransitive(x.id, y.id, z.id);
    }
  }

  lemma SortedIDs(found: seq<VSwitch>, unsorted: seq<VSwitch>, result: seq<VSwitch>)
    requires Distinct(unsorted)
    requires forall x :: x in KnownIDs(found) <==> x in IDs(unsorted)
    requires forall v :: v in unsorted ==> IsFirst(found, v)
    requires multiset(result) == multiset(unsorted) && SortedBy(result, ByID)
    ensures IsResolved(found, result)
  {
    PermutationKeepsElements(result, unsorted);
    NoDuplicates(unsorted);
    forall i, j | 0 <= i < j < |result| ensures Less(IDs(result)[i], IDs(result)[j]) {
      CountedTwice(result, i, j);
      DifferentIDs(unsorted, result[i], result[j]);
      assert ByID(result[i], result[j]);
    }
    SameIDs(result, unsorted);
    StrictlySortedUnique(IDs(result), SortedSeq(KnownIDs(found)));
  }

  lemma DifferentIDs(s: seq<VSwitch>, v: VSwitch, w: VSwitch)
    requires Distinct(s) && v in s && w in s && v != w
    ensures v.id != w.id
  {
  }

  lemma SameIDs(a: seq<VSwitch>, b: seq<VSwitch>)
    requires forall v :: v in a <==> v in b
    ensures forall x :: x in IDs(a) <==> x in IDs(b)
  {
    forall x | x in IDs(a) ensures x in IDs(b) {
      var i :| 0 <= i < |a| && IDs(a)[i] == x;
      assert a[i] in b;
      var j :| 0 <= j < |b| && b[j] == a[i];
      assert IDs(b)[j] == x;
    }
    forall x | x in IDs(b) ensures x in IDs(a) {
      var i :| 0 <= i < |b| && IDs(b)[i] == x;
      assert b[i] in a;
      var j :| 0 <= j < |a| && a[j] == b[i];
      assert IDs(a)[j] == x;
    }
  }

  /** There is one resolved list for what was found. */
  lemma ResolvedIsUnique(found: seq<VSwitch>, a: seq<VSwitch>, b: seq<VSwitch>)
    requires IsResolved(found, a) && IsResolved(found, b)
    ensures a == b
  {
    assert |a| == |IDs(a)| == |IDs(b)| == |b|;
    forall i | 0 <= i < |a| ensures a[i] == b[i] {
      assert IDs(a)[i] == a[i].id && IDs(b)[i] == b[i].id;
      assert a[i] in a && b[i] in b;
      FirstIsUnique(found, a[i], b[i]);
    }
  }

  lemma FirstIsUnique(found: seq<VSwitch>, v: VSwitch, w: VSwitch)
    requires IsFirst(found, v) && IsFirst(found, w) && v.id == w.id
    ensures v == w
  {
    var i :| 0 <= i < |found| && found[i] == v && forall j :: 0 <= j < i ==> found[j].id != v.id;
    var k :| 0 <= k < |found| && found[k] == w && forall j :: 0 <= j < k ==> found[j].id != w.id;
    assert !(i < k) && !(k < i);
  }

  // ----- Resolve

  /** All that the terms find, one term after the other. */
  function Found(terms: seq<Term>, describe: Term -> Answer): seq<VSwitch> {
    if terms == [] then []
    else
      var n := |terms| - 1;
      var answer := describe(terms[n]);
      Found(terms[..n], describe) + if answer.Ok? then FromRows(answer.value) else []
  }

  predicate AllAnswered(terms: seq<Term>, describe: Term -> Answer) {
    forall t :: t in terms ==> describe(t).Ok?
  }

  /** The Resolve that filled a cache entry. */
  datatype Source = Source(terms: seq<Term>, addresses: seq<Addresses>, describe: Term -> Answer, at: int, ttl: nat)

  ghost predicate Backs(source: Source, key: string, entry: Entry<seq<VSwitch>>) {
    && |source.addresses| == |source.terms| && key == CacheKey(source.terms, source.addresses)
    && entry.value != [] && IsResolved(Found(source.terms, source.describe), entry.value)
    && entry.expiresAt == source.at + source.ttl
  }

  class Provider {
    var cache: Cache<seq<VSwitch>>
    ghost var sources: map<string, Source>

    /** Empty results are never cached: they would hide the vSwitches for the whole TTL. */
    ghost predicate Valid()
      reads this, cache
    {
      forall key :: key in cache.entries ==> key in sources && Backs(sources[key], key, cache.entries[key])
    }

    constructor (ttl: nat)
      ensures Valid() && fresh(cache)
    {
      cache := new Cache(ttl);
      sources := map[];
    }

    /**
     `cacheKey` is what fmt prints. A hit is the resolved list of the terms that last filled the
     entry, at most the TTL of that moment old. They are the terms asked for whenever those are
     unambiguous, and PrintsAloneIffUnambiguous says that no weaker condition would do.
     */
    method Resolve(
      terms: seq<Term>, ghost addresses: seq<Addresses>, cacheKey: string, describe: Term -> Answer, now: int)
      returns (r: Result<seq<VSwitch>, string>)
      requires Valid()
      requires |addresses| == |terms| && cacheKey == CacheKey(terms, addresses)
      modifies this, cache
      ensures Valid() && cache == old(cache)
      ensures terms == [] ==> r == Ok([])
      ensures terms != [] && ReadEntry(old(cache.entries), cacheKey, now).Hit? ==>
                && r == Ok(ReadEntry(old(cache.entries), cacheKey, now).value) && r.value != []
                && sources == old(sources) && cacheKey in sources
                && IsResolved(Found(sources[cacheKey].terms, sources[cacheKey].describe), r.value)
                && now <= sources[cacheKey].at + sources[cacheKey].ttl
                && (Unambiguous(terms) ==> sources[cacheKey].terms == terms)
      ensures terms != [] && !ReadEntry(old(cache.entries), cacheKey, now).Hit? ==>
                && (r.Ok? <==> AllAnswered(terms, describe))
                && (r.Ok? ==> IsResolved(Found(terms, describe), r.value))
                && (r.Ok? && r.value != [] ==> ReadEntry(cache.entries, cacheKey, now) == Hit(r.value))
                && (r.Err? || r.value == [] ==> !ReadEntry(cache.entries, cacheKey, now).Hit?)
    {
      hide IsResolved, CacheKey, Unambiguous;
      if |terms| == 0 {
        return Ok([]);
      }
      ghost var before := cache.entries;
      var cached := cache.Get(cacheKey, now);
      if cached.Some? {
        KeyTellsTerms(terms, addresses, sources[cacheKey], before[cacheKey]);
        return Ok(cached.value);
      }
      assert !ReadEntry(cache.entries, cacheKey, now).Hit?;
      var found := QueryAll(terms, describe);
      if found.Err? {
        return found;
      }
      var vswitches := RemoveDuplicateVSwitches(found.value);
      if |vswitches| > 0 {
        cache.Set(cacheKey, vswitches, now);
        sources := sources[cacheKey := Source(terms, addresses, describe, now, cache.ttl)];
      }
      return Ok(vswitches);
    }

    method SetCacheTTL(ttl: nat)
      requires Valid()
      modifies cache
      ensures Valid() && cache.ttl == ttl && cache.entries == old(cache.entries)
    {
      cache.ttl := ttl;
    }
  }

  lemma KeyTellsTerms(terms: seq<Term>, addresses: seq<Addresses>, source: Source, entry: Entry<seq<VSwitch>>)
    requires |addresses| == |terms| && Backs(source, CacheKey(terms, addresses), entry)
    ensures Unambiguous(terms) ==> source.terms == terms
  {
    PrintsAloneIffUnambiguous(terms, addresses);
  }

  method QueryAll(terms: seq<Term>, describe: Term -> Answer) returns (r: Result<seq<VSwitch>, string>)
    ensures r.Ok? <==> AllAnswered(terms, describe)
    ensures r.Ok? ==> r.value == Found(terms, describe)
  {
    var found := [];
    for i := 0 to |terms|
      invariant AllAnswered(terms[..i], describe)
      invariant found == Found(terms[..i], describe)
    {
      assert terms[..i + 1][..i] == terms[..i];
      var one := GetByQuery(describe(terms[i]));
      if one.Err? {
        assert terms[i] in terms;
        return Err("resolve vSwitchSelectorTerms: " + one.error);
      }
      found := found + one.value;
    }
    assert terms[..|terms|] == terms;
    return Ok(found);
  }

  // ----- the order and repetition of terms do not matter

  lemma {:induction false} FoundByTerm(terms: seq<Term>, describe: Term -> Answer, v: VSwitch)
    ensures v in Found(terms, describe) <==>
            exists t :: t in terms && describe(t).Ok? && v in FromRows(describe(t).value)
    decreases |terms|
  {
    if terms != [] {
      var n := |terms| - 1;
      FoundByTerm(terms[..n], describe, v);
      assert terms == terms[..n] + [terms[n]];
    }
  }

  /**
   Against fixed query results, permuting or repeating selector terms neither changes whether
   they resolve nor the resolved IDs, which are strictly increasing.
   */
  lemma TermsAreASet(terms: seq<Term>, terms': seq<Term>, describe: Term -> Answer, r: seq<VSwitch>, r': seq<VSwitch>)
    requires forall t :: t in terms <==> t in terms'
    requires IsResolved(Found(terms, describe), r) && IsResolved(Found(terms', describe), r')
    ensures AllAnswered(terms, describe) <==> AllAnswered(terms', describe)
    ensures IDs(r) == IDs(r') && StrictlySorted(IDs(r)) && "" !in IDs(r)
  {
    forall v ensures v in Found(terms, describe) <==> v in Found(terms', describe) {
      FoundByTerm(terms, describe, v);
      FoundByTerm(terms', describe, v);
    }
    assert KnownIDs(Found(terms, describe)) == KnownIDs(Found(terms', describe));
  }
}
