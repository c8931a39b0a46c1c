/** pkg/utils/ecs/tags.go: tags cut into key-ordered batches of at most 20. */
module TagBatches {
  import opened Ordering

  type Tags = map<string, string>

  const MAX_TAGS_PER_REQUEST := 20

  function Restrict(tags: Tags, keys: seq<string>): Tags {
    map k | k in tags && k in keys :: tags[k]
  }

  /** The batches of tags whose keys are listed in order in `keys`. */
  function Chunks(keys: seq<string>, tags: Tags): seq<Tags>
    decreases |keys|
  {
    if |keys| == 0 then []
    else if |keys| <= MAX_TAGS_PER_REQUEST then [Restrict(tags, keys)]
    else [Restrict(tags, keys[..MAX_TAGS_PER_REQUEST])] + Chunks(keys[MAX_TAGS_PER_REQUEST..], tags)
  }

  ghost function Batches(tags: Tags): seq<Tags> {
    Chunks(SortedSeq(tags.Keys), tags)
  }

  /** Apply batches one API call after another. */
  function ApplyAll(current: Tags, batches: seq<Tags>): Tags
    decreases |batches|
  {
    if batches == [] then current else ApplyAll(current, batches[..|batches| - 1]) + batches[|batches| - 1]
  }

  /** All tags of some batches. */
  function Merge(batches: seq<Tags>): Tags
    decreases |batches|
  {
    if batches == [] then map[] else batches[0] + Merge(batches[1..])
  }

  /**
   `batches` splits `tags` for the API: 1 to 20 tags each and only the last batch may have
   fewer than 20, keys increasing from batch to batch, and together they are the tags.
   */
  ghost predicate IsBatching(tags: Tags, batches: seq<Tags>) {
    Sized(batches) && Increasing(batches) && Merge(batches) == tags
  }

  predicate Sized(batches: seq<Tags>)
    decreases |batches|
  {
    batches == [] ||
    (&& 1 <= |batches[0]| <= MAX_TAGS_PER_REQUEST
     && (|batches| > 1 ==> |batches[0]| == MAX_TAGS_PER_REQUEST)
     && Sized(batches[1..]))
  }

  predicate Below(a: Tags, b: Tags) {
    forall k, l :: k in a && l in b ==> Less(k, l)
  }

  predicate Increasing(batches: seq<Tags>)
    decreases |batches|
  {
    batches == [] || (Below(batches[0], Merge(batches[1..])) && Increasing(batches[1..]))
  }

  // ----- the method

  method BatchTags(tags: Tags) returns (batches: seq<Tags>)
    ensures batches == Batches(tags)
  {
    if |tags| == 0 {
      assert Batches(tags) == [];
      return [];
    }
    var keys := SortKeys(tags);
    batches := CutIntoBatches(keys, tags);
  }

  method CutIntoBatches(keys: seq<string>, tags: Tags) returns (batches: seq<Tags>)
    requires forall k :: k in keys ==> k in tags
    ensures batches == Chunks(keys, tags)
  {
    batches := [];
    var i := 0;
    assert keys[0..] == keys;
    while i < |keys|
      invariant 0 <= i
      invariant batches + Chunks(keys[Min(i, |keys|)..], tags) == Chunks(keys, tags)
    {
      var end := i + MAX_TAGS_PER_REQUEST;
      if end > |keys| {
        end := |keys|;
      }
      var batch := CollectBatch(tags, keys[i..end]);
      NextChunk(keys, tags, i, end);
      Reassociate(batches, batch, Chunks(keys[end..], tags));
      batches := batches + [batch];
      i := i + MAX_TAGS_PER_REQUEST;
    }
    assert Chunks(keys[|keys|..], tags) == [];
  }

  lemma Reassociate<T>(a: seq<T>, b: T, c: seq<T>)
    ensures a + [b] + c == a + ([b] + c)
  {
  }

  function Min(a: nat, b: nat): nat {
    if a < b then a else b
  }

  method SortKeys(tags: Tags) returns (keys: seq<string>)
    ensures keys == SortedSeq(tags.Keys)
  {
    var unordered, rest := [], tags.Keys;
    while rest != {}
      invariant rest <= tags.Keys
      invariant forall x :: x in unordered <==> x in tags.Keys - rest
      invariant forall i, j :: 0 <= i < j < |unordered| ==> unordered[i] != unordered[j]
      decreases rest
    {
      var k :| k in rest;
      assert k !in unordered;
      unordered := unordered + [k];
      rest := rest - {k};
    }
    LeqIsTotalPreorder();
    keys := SortBy(unordered, Leq);
    SortedDistinctIsStrict(unordered, keys);
    PermutationKeepsElements(keys, unordered);
    StrictlySortedUnique(keys, SortedSeq(tags.Keys));
  }

  method CollectBatch(tags: Tags, keys: seq<string>) returns (batch: Tags)
    requires forall k :: k in keys ==> k in tags
    ensures batch == Restrict(tags, keys)
  {
    batch := map[];
    for i := 0 to |keys|
      invariant batch == Restrict(tags, keys[..i])
    {
      assert keys[..i + 1] == keys[..i] + [keys[i]];
      batch := batch[keys[i] := tags[keys[i]]];
    }
    assert keys[..|keys|] == keys;
  }

  lemma NextChunk(keys: seq<string>, tags: Tags, i: nat, end: nat)
    requires i < |keys|
    requires end == if i + MAX_TAGS_PER_REQUEST > |keys| then |keys| else i + MAX_TAGS_PER_REQUEST
    ensures Chunks(keys[i..], tags) == [Restrict(tags, keys[i..end])] + Chunks(keys[end..], tags)
  {
    var rest := keys[i..];
    if |rest| > MAX_TAGS_PER_REQUEST {
      assert rest[..MAX_TAGS_PER_REQUEST] == keys[i..end];
      assert rest[MAX_TAGS_PER_REQUEST..] == keys[end..];
    } else {
      assert rest == keys[i..end];
      assert keys[end..] == [];
    }
  }

  // ----- BatchTags is characterised by IsBatching

  lemma RestrictSize(tags: Tags, keys: seq<string>)
    requires StrictlySorted(keys) && forall k :: k in keys ==> k in tags
    ensures |Restrict(tags, keys)| == |keys|
  {
    assert Restrict(tags, keys).Keys == Elements(keys);
    StrictlySortedUnique(keys, SortedSeq(Elements(keys)));
  }

  lemma {:induction false} ChunksAreSized(keys: seq<string>, tags: Tags)
    requires StrictlySorted(keys) && forall k :: k in keys ==> k in tags
    ensures Sized(Chunks(keys, tags))
    ensures keys != [] ==> Chunks(keys, tags) != []
    decreases |keys|
  {
    if |keys| > MAX_TAGS_PER_REQUEST {
      RestrictSize(tags, keys[..MAX_TAGS_PER_REQUEST]);
      ChunksAreSized(keys[MAX_TAGS_PER_REQUEST..], tags);
    } else if keys != [] {
      RestrictSize(tags, keys);
    }
  }

  lemma {:induction false} ChunksMerge(keys: seq<string>, tags: Tags)
    requires forall k :: k in keys ==> k in tags
    ensures Merge(Chunks(keys, tags)) == Restrict(tags, keys)
    decreases |keys|
  {
    if |keys| > MAX_TAGS_PER_REQUEST {
      var head, tail := keys[..MAX_TAGS_PER_REQUEST], keys[MAX_TAGS_PER_REQUEST..];
      ChunksMerge(tail, tags);
      assert keys == head + tail;
      assert Restrict(tags, keys) == Restrict(tags, head) + Restrict(tags, tail);
    } else if |keys| > 0 {
      assert Chunks(keys, tags)[1..] == [];
    }
  }

  lemma {:induction false} ChunksIncrease(keys: seq<string>, tags: Tags)
    requires StrictlySorted(keys) && forall k :: k in keys ==> k in tags
    ensures Increasing(Chunks(keys, tags))
    decreases |keys|
  {
    if |keys| > MAX_TAGS_PER_REQUEST {
      var head, tail := keys[..MAX_TAGS_PER_REQUEST], keys[MAX_TAGS_PER_REQUEST..];
      ChunksIncrease(tail, tags);
      ChunksMerge(tail, tags);
      forall k, l | k in head && l in tail ensures Less(k, l) {
        HeadBelowTail(keys, MAX_TAGS_PER_REQUEST, k, l);
      }
    }
  }

  lemma HeadBelowTail(keys: seq<string>, n: nat, k: string, l: string)
    requires StrictlySorted(keys) && n <= |keys| && k in keys[..n] && l in keys[n..]
    ensures Less(k, l)
  {
    var i :| 0 <= i < n && keys[..n][i] == k;
    var j :| 0 <= j < |keys[n..]| && keys[n..][j] == l;
    assert Less(keys[i], keys[n + j]);
  }

  /** What BatchTags returns is a batching, and there is no other. */
  lemma BatchesAreBatching(tags: Tags)
    ensures IsBatching(tags, Batches(tags))
  {
    var keys := SortedSeq(tags.Keys);
    ChunksAreSized(keys, tags);
    ChunksMerge(keys, tags);
    ChunksIncrease(keys, tags);
    assert Restrict(tags, keys) == tags;
  }

  /** There is only one way to batch a tag map: the output is the same on every call. */
  lemma {:induction false} BatchingIsUnique(tags: Tags, a: seq<Tags>, b: seq<Tags>)
    requires IsBatching(tags, a) && IsBatching(tags, b)
    ensures a == b
    decreases |a|
  {
    if a == [] || b == [] {
      OnlyEmptyBatching(tags, a);
      OnlyEmptyBatching(tags, b);
    } else {
      SameFirstBatch(tags, a, b);
      TailIsBatching(tags, a);
      TailIsBatching(tags, b);
      BatchingIsUnique(tags - a[0].Keys, a[1..], b[1..]);
      SameHeadAndTail(a, b);
    }
  }

  lemma TailIsBatching(tags: Tags, batches: seq<Tags>)
    requires IsBatching(tags, batches) && batches != []
    ensures IsBatching(tags - batches[0].Keys, batches[1..])
  {
    MergeOfTail(batches);
  }

  lemma SameHeadAndTail<T>(a: seq<T>, b: seq<T>)
    requires a != [] && b != [] && a[0] == b[0] && a[1..] == b[1..]
    ensures a == b
  {
    assert a == [a[0]] + a[1..] && b == [b[0]] + b[1..];
  }

  lemma OnlyEmptyBatching(tags: Tags, batches: seq<Tags>)
    requires IsBatching(tags, batches)
    ensures batches == [] <==> tags == map[]
  {
    if batches != [] {
      assert |batches[0]| >= 1 && batches[0].Keys <= tags.Keys;
      SubsetIsNoLarger(batches[0].Keys, tags.Keys);
    }
  }

  lemma SubsetIsNoLarger(a: set<string>, b: set<string>)
    requires a <= b
    ensures |a| <= |b|
    ensures |a| == |b| ==> a == b
  {
    assert |b| == |b - a| + |a|;
  }

  lemma MergeOfTail(batches: seq<Tags>)
    requires Increasing(batches) && batches != []
    ensures Merge(batches[1..]) == Merge(batches) - batches[0].Keys
    ensures |Merge(batches)| == |batches[0]| + |Merge(batches[1..])|
  {
    BelowIsDisjoint(batches[0], Merge(batches[1..]));
  }

  lemma BelowIsDisjoint(a: Tags, b: Tags)
    requires Below(a, b)
    ensures a.Keys !! b.Keys
    ensures (a + b) - a.Keys == b && (a + b) - b.Keys == a
    ensures |a + b| == |a| + |b|
  {
    assert a.Keys !! b.Keys;
    DisjointSizes(a, b);
    DisjointParts(a, b);
  }

  lemma DisjointParts(a: Tags, b: Tags)
    requires a.Keys !! b.Keys
    ensures (a + b) - a.Keys == b && (a + b) - b.Keys == a
  {
  }

  lemma DisjointSizes(a: Tags, b: Tags)
    requires a.Keys !! b.Keys
    ensures |a + b| == |a| + |b|
  {
    assert (a + b).Keys == a.Keys + b.Keys;
    assert |a.Keys + b.Keys| == |a.Keys| + |b.Keys|;
  }

  /** The first batch holds the least keys, as many as fit. */
  lemma SameFirstBatch(tags: Tags, a: seq<Tags>, b: seq<Tags>)
    requires IsBatching(tags, a) && IsBatching(tags, b) && a != [] && b != []
    ensures a[0] == b[0]
  {
    FirstBatchSize(tags, a);
    FirstBatchSize(tags, b);
    SameInitialSegment(a[0], Merge(a[1..]), b[0], Merge(b[1..]));
  }

  lemma SameInitialSegment(a: Tags, aRest: Tags, b: Tags, bRest: Tags)
    requires a + aRest == b + bRest
    requires Below(a, aRest) && Below(b, bRest) && |a| == |b|
    ensures a == b
  {
    BelowIsDisjoint(a, aRest);
    BelowIsDisjoint(b, bRest);
    assert (a + aRest).Keys == (b + bRest).Keys;
    SameInitialKeys(a.Keys, aRest.Keys, b.Keys, bRest.Keys);
    assert a == (a + aRest) - aRest.Keys;
  }

  lemma OutlierBoundsOther(a: set<string>, aRest: set<string>, b: set<string>, bRest: set<string>, k: string)
    requires a + aRest == b + bRest && k in a && k !in b
    requires forall l :: l in aRest ==> Less(k, l)
    requires forall l :: l in b ==> Less(l, k)
    ensures b <= a
  {
    forall l | l in b ensures l in a {
      assert l in a + aRest;
      if l in aRest {
        LeqAntisymmetric(k, l);
      }
    }
  }

  lemma SameInitialKeys(a: set<string>, aRest: set<string>, b: set<string>, bRest: set<string>)
    requires a + aRest == b + bRest && |a| == |b|
    requires forall k, l :: k in a && l in aRest ==> Less(k, l)
    requires forall k, l :: k in b && l in bRest ==> Less(k, l)
    ensures a == b && aRest == bRest
  {
    if a <= b {
      SubsetIsNoLarger(a, b);
    } else {
      var k :| k in a && k !in b;
      OutlierBoundsOther(a, aRest, b, bRest, k);
      SubsetIsNoLarger(b, a);
    }
    assert a !! aRest && b !! bRest;
    assert aRest == (a + aRest) - a && bRest == (b + bRest) - b;
  }

  lemma FirstBatchSize(tags: Tags, batches: seq<Tags>)
    requires IsBatching(tags, batches) && batches != []
    ensures |batches[0]| == Min(|tags|, MAX_TAGS_PER_REQUEST)
  {
    MergeOfTail(batches);
    if |batches| == 1 {
      assert batches[1..] == [];
    }
  }
}
