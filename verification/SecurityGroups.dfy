/** pkg/utils/securitygroups: security group IDs compared as sets. */
module SecurityGroups {
  import opened Ordering

  ghost function NormalizedIDs(ids: seq<string>): seq<string> {
    SortedSeq(Elements(ids))
  }

  method NormalizeIDs(ids: seq<string>) returns (normalized: seq<string>)
    ensures StrictlySorted(normalized)
    ensures forall x :: x in normalized <==> x in ids
    ensures normalized == NormalizedIDs(ids)
  {
    if |ids| == 0 {
      StrictlySortedUnique([], NormalizedIDs(ids));
      return [];
    }
    var seen: set<string> := {};
    for i := 0 to |ids|
      invariant seen == Elements(ids[..i])
    {
      assert ids[..i + 1] == ids[..i] + [ids[i]];
      seen := seen + {ids[i]};
    }
    assert ids[..|ids|] == ids;
    // Go ranges over a map in an unspecified order.
    var unordered, rest := [], seen;
    while rest != {}
      invariant rest <= seen
      invariant forall x :: x in unordered <==> x in seen - rest
      invariant forall i, j :: 0 <= i < j < |unordered| ==> unordered[i] != unordered[j]
      decreases rest
    {
      var id :| id in rest;
      assert id !in unordered;
      unordered := unordered + [id];
      rest := rest - {id};
    }
    LeqIsTotalPreorder();
    normalized := SortBy(unordered, Leq);
    SortedDistinctIsStrict(unordered, normalized);
    PermutationKeepsElements(normalized, unordered);
    StrictlySortedUnique(normalized, NormalizedIDs(ids));
  }

  method EqualIDs(left: seq<string>, right: seq<string>) returns (equal: bool)
    ensures equal <==> Elements(left) == Elements(right)
  {
    var l := NormalizeIDs(left);
    var r := NormalizeIDs(right);
    NormalFormDecidesSetEquality(left, right);
    equal := SameEntries(l, r);
  }

  /** The index-by-index comparison that ends EqualIDs. */
  method SameEntries(left: seq<string>, right: seq<string>) returns (equal: bool)
    ensures equal <==> left == right
  {
    if |left| != |right| {
      return false;
    }
    for i := 0 to |left|
      invariant forall j :: 0 <= j < i ==> left[j] == right[j]
    {
      if left[i] != right[i] {
        return false;
      }
    }
    return true;
  }

  /** Two lists have the same canonical form exactly when they hold the same IDs. */
  lemma NormalFormDecidesSetEquality(left: seq<string>, right: seq<string>)
    ensures NormalizedIDs(left) == NormalizedIDs(right) <==> Elements(left) == Elements(right)
    ensures NormalizedIDs(NormalizedIDs(left)) == NormalizedIDs(left)
  {
    assert Elements(NormalizedIDs(left)) == Elements(left);
    assert Elements(NormalizedIDs(right)) == Elements(right);
  }
}
