/**
 Go's string order and the sort package. Strings are sequences of code points;
 comparing them code point by code point agrees with Go's byte order on UTF-8.
 */
module Ordering {

  predicate Leq(a: string, b: string)
    decreases |a|
  {
    a == "" || (b != "" && (a[0] < b[0] || (a[0] == b[0] && Leq(a[1..], b[1..]))))
  }

  predicate Less(a: string, b: string) {
    Leq(a, b) && a != b
  }

  predicate DiffersFirstAt(a: string, b: string, i: nat) {
    i < |a| && i < |b| && a[..i] == b[..i] && a[i] < b[i]
  }

  /** A prefix comes first; otherwise the first difference decides. */
  lemma {:induction false} LeqIsLexicographic(a: string, b: string)
    ensures Leq(a, b) <==> a <= b || exists i: nat :: DiffersFirstAt(a, b, i)
    decreases |a|
  {
    if a != "" && b != "" && a[0] < b[0] {
      assert DiffersFirstAt(a, b, 0);
    } else if a != "" && b != "" && a[0] == b[0] {
      LeqIsLexicographic(a[1..], b[1..]);
      assert a == [a[0]] + a[1..] && b == [b[0]] + b[1..];
      assert a <= b <==> a[1..] <= b[1..];
      if i: nat :| DiffersFirstAt(a[1..], b[1..], i) {
        assert a[..i + 1] == [a[0]] + a[1..][..i] && b[..i + 1] == [b[0]] + b[1..][..i];
        assert DiffersFirstAt(a, b, i + 1);
      }
      if i: nat :| DiffersFirstAt(a, b, i) {
        assert a[..i] == b[..i] && i > 0;
        assert a[1..][..i - 1] == a[..i][1..] && b[1..][..i - 1] == b[..i][1..];
        assert DiffersFirstAt(a[1..], b[1..], i - 1);
      }
    }
  }

  lemma LeqTotal(a: string, b: string)
    ensures Leq(a, b) || Leq(b, a)
    decreases |a|
  {
    if a != "" && b != "" && a[0] == b[0] {
      LeqTotal(a[1..], b[1..]);
    }
  }

  lemma {:induction false} LeqAntisymmetric(a: string, b: string)
    requires Leq(a, b) && Leq(b, a)
    ensures a == b
    decreases |a|
  {
    if a != "" && b != "" {
      LeqAntisymmetric(a[1..], b[1..]);
      assert a == [a[0]] + a[1..] && b == [b[0]] + b[1..];
    }
  }

  lemma {:induction false} LeqTransitive(a: string, b: string, c: string)
    requires Leq(a, b) && Leq(b, c)
    ensures Leq(a, c)
    decreases |a|
  {
    if a != "" && a[0] == b[0] == c[0] {
      LeqTransitive(a[1..], b[1..], c[1..]);
    }
  }

  lemma LessTransitive(a: string, b: string, c: string)
    requires Leq(a, b) && Less(b, c)
    ensures Less(a, c)
  {
    LeqTransitive(a, b, c);
    if a == c {
      LeqAntisymmetric(a, b);
    }
  }

  // ----- strictly increasing sequences of strings: the canonical form of a set

  function Elements<T>(s: seq<T>): set<T> {
    set x | x in s
  }

  ghost predicate StrictlySorted(s: seq<string>) {
    forall i, j :: 0 <= i < j < |s| ==> Less(s[i], s[j])
  }

  /** A set of strings has only one strictly increasing enumeration. */
  lemma {:induction false} StrictlySortedUnique(a: seq<string>, b: seq<string>)
    requires StrictlySorted(a) && StrictlySorted(b)
    requires forall x :: x in a <==> x in b
    ensures a == b
    decreases |a|
  {
    assert b != [] ==> b[0] in b;
    assert a != [] ==> a[0] in a;
    if a != [] {
      LeastIsFirst(a, b);
      LeastIsFirst(b, a);
      LeqAntisymmetric(a[0], b[0]);
      forall x
        ensures x in a[1..] <==> x in b[1..]
      {
        TailElements(a, x);
        TailElements(b, x);
      }
      StrictlySortedUnique(a[1..], b[1..]);
      assert a == [a[0]] + a[1..] && b == [b[0]] + b[1..];
    }
  }

  lemma LeastIsFirst(a: seq<string>, b: seq<string>)
    requires StrictlySorted(a) && a != [] && b != []
    requires b[0] in a
    ensures Leq(a[0], b[0])
  {
    var k :| 0 <= k < |a| && a[k] == b[0];
    if k == 0 {
      LeqTotal(a[0], a[0]);
    }
  }

  lemma TailElements(a: seq<string>, x: string)
    requires StrictlySorted(a) && a != []
    ensures x in a[1..] <==> x in a && x != a[0]
  {
    if x in a && x != a[0] {
      var k :| 0 <= k < |a| && a[k] == x;
      assert a[1..][k - 1] == x;
    }
  }

  function Insert(x: string, s: seq<string>): (r: seq<string>)
    ensures |r| == |s| + 1
    ensures forall y :: y in r <==> y == x || y in s
  {
    if s == [] then [x]
    else if Leq(x, s[0]) then [x] + s
    else
      var rest := Insert(x, s[1..]);
      assert forall y :: y in s <==> y == s[0] || y in s[1..];
      [s[0]] + rest
  }

  lemma {:induction false} InsertKeepsOrder(x: string, s: seq<string>)
    requires StrictlySorted(s) && x !in s
    ensures StrictlySorted(Insert(x, s))
    decreases |s|
  {
    if s != [] {
      LeqTotal(x, s[0]);
      if Leq(x, s[0]) {
        forall j | 0 <= j < |s| ensures Less(x, s[j]) {
          if j > 0 {
            LessTransitive(x, s[0], s[j]);
          }
        }
      } else {
        InsertKeepsOrder(x, s[1..]);
        var rest := Insert(x, s[1..]);
        forall j | 0 <= j < |rest| ensures Less(s[0], rest[j]) {
          assert rest[j] in rest;
          if rest[j] != x {
            var k :| 0 <= k < |s[1..]| && s[1..][k] == rest[j];
            assert s[1..][k] == s[k + 1];
          }
        }
      }
    }
  }

  /** The strictly increasing enumeration of a set of strings. */
  ghost function SortedSeq(keys: set<string>): (s: seq<string>)
    ensures StrictlySorted(s)
    ensures |s| == |keys|
    ensures forall x :: x in s <==> x in keys
  {
    if keys == {} then []
    else
      var x :| x in keys;
      var rest := SortedSeq(keys - {x});
      InsertKeepsOrder(x, rest);
      Insert(x, rest)
  }

  // ----- sort.Strings and sort.Slice

  ghost predicate TotalPreorder<T(!new)>(leq: (T, T) -> bool) {
    && (forall x, y :: leq(x, y) || leq(y, x))
    && (forall x, y, z :: leq(x, y) && leq(y, z) ==> leq(x, z))
  }

  ghost predicate SortedBy<T>(s: seq<T>, leq: (T, T) -> bool) {
    forall i, j :: 0 <= i < j < |s| ==> leq(s[i], s[j])
  }

  lemma LeqIsTotalPreorder()
    ensures TotalPreorder(Leq)
  {
    forall x, y ensures Leq(x, y) || Leq(y, x) {
      LeqTotal(x, y);
    }
    forall x, y, z | Leq(x, y) && Leq(y, z) ensures Leq(x, z) {
      LeqTransitive(x, y, z);
    }
  }

  /**
   The library sort. It is not stable: callers may rely only on the result being an ordered
   permutation, so everything proved about them holds for every order of equivalent elements.
   */
  method SortBy<T(!new)>(s: seq<T>, leq: (T, T) -> bool) returns (r: seq<T>)
    requires TotalPreorder(leq)
    ensures SortedBy(r, leq)
    ensures multiset(r) == multiset(s)
  {
    r := [];
    for n := 0 to |s|
      invariant SortedBy(r, leq)
      invariant multiset(r) == multiset(s[..n])
    {
      var x, k := s[n], |r|;
      while k > 0 && !leq(r[k - 1], x)
        invariant 0 <= k <= |r|
        invariant forall j :: k <= j < |r| ==> leq(x, r[j])
      {
        k := k - 1;
      }
      InsertedInOrder(r, x, k, leq);
      InsertedOnce(r, x, k, s, n);
      r := r[..k] + [x] + r[k..];
    }
    assert s[..|s|] == s;
  }

  lemma InsertedInOrder<T(!new)>(r: seq<T>, x: T, k: nat, leq: (T, T) -> bool)
    requires TotalPreorder(leq) && SortedBy(r, leq)
    requires k <= |r| && (k > 0 ==> leq(r[k - 1], x))
    requires forall j :: k <= j < |r| ==> leq(x, r[j])
    ensures SortedBy(r[..k] + [x] + r[k..], leq)
  {
    forall j | 0 <= j < k ensures leq(r[j], x) {
      if j < k - 1 {
        assert leq(r[j], r[k - 1]);
      }
    }
  }

  lemma InsertedOnce<T>(r: seq<T>, x: T, k: nat, s: seq<T>, n: nat)
    requires k <= |r| && n < |s| && s[n] == x
    requires multiset(r) == multiset(s[..n])
    ensures multiset(r[..k] + [x] + r[k..]) == multiset(s[..n + 1])
  {
    assert r == r[..k] + r[k..];
    assert s[..n + 1] == s[..n] + [x];
  }

  lemma PermutationKeepsElements<T>(a: seq<T>, b: seq<T>)
    requires multiset(a) == multiset(b)
    ensures |a| == |b|
    ensures forall x :: x in a <==> x in b
  {
    assert |multiset(a)| == |a| && |multiset(b)| == |b|;
    forall x ensures x in a <==> x in b {
      assert x in a <==> x in multiset(a);
      assert x in b <==> x in multiset(b);
    }
  }

  /** Ordering a duplicate-free sequence of strings makes it strictly increasing. */
  lemma SortedDistinctIsStrict(s: seq<string>, r: seq<string>)
    requires forall i, j :: 0 <= i < j < |s| ==> s[i] != s[j]
    requires multiset(r) == multiset(s)
    requires SortedBy(r, Leq)
    ensures StrictlySorted(r)
  {
    NoDuplicates(s);
    forall i, j | 0 <= i < j < |r| ensures Less(r[i], r[j]) {
      CountedTwice(r, i, j);
    }
  }

  lemma CountedTwice<T>(s: seq<T>, i: nat, j: nat)
    requires i < j < |s|
    ensures s[i] == s[j] ==> multiset(s)[s[i]] >= 2
  {
    assert s == s[..i] + [s[i]] + s[i + 1..j] + [s[j]] + s[j + 1..];
  }

  lemma {:induction false} NoDuplicates<T>(s: seq<T>)
    requires forall i, j :: 0 <= i < j < |s| ==> s[i] != s[j]
    ensures forall x :: multiset(s)[x] <= 1
    decreases |s|
  {
    if s != [] {
      NoDuplicates(s[1..]);
      assert s == [s[0]] + s[1..];
      assert s[0] !in s[1..];
      assert multiset(s) == multiset{s[0]} + multiset(s[1..]);
    }
  }
}
