/** Provider IDs, written by the launch path and read back by drift detection and tagging. */
module ProviderIDs {

  /** strings.Split(s, ".") */
  function Split(s: string): (parts: seq<string>)
    ensures |parts| >= 1
  {
    if s == "" then [""]
    else
      Prepend(s[0], Split(s[1..]))
  }

  function Last(parts: seq<string>): string
    requires |parts| >= 1
  {
    parts[|parts| - 1]
  }

  function ProviderID(region: string, instanceID: string): string {
    region + "." + instanceID
  }

  /** fromProviderID: the empty string when there is no dot. */
  function FromProviderID(providerID: string): string {
    if providerID == "" then ""
    else
      var parts := Split(providerID);
      if |parts| < 2 then "" else Last(parts)
  }

  /** getInstanceIDFromProviderID of the tagging controller takes a dotless ID as it is. */
  function TaggedInstanceID(providerID: string): string {
    Last(Split(providerID))
  }

  /** One step of Split: the character before the rest of the string. */
  function Prepend(c: char, rest: seq<string>): seq<string>
    requires |rest| >= 1
  {
    if c == '.' then [""] + rest else [[c] + rest[0]] + rest[1..]
  }

  lemma PrependConcat(c: char, x: seq<string>, y: seq<string>)
    requires |x| >= 1
    ensures Prepend(c, x + y) == Prepend(c, x) + y
  {
    assert (x + y)[0] == x[0] && (x + y)[1..] == x[1..] + y;
  }

  lemma {:induction false} SplitConcat(a: string, b: string)
    ensures Split(a + "." + b) == Split(a) + Split(b)
    decreases |a|
  {
    var s := a + "." + b;
    if a == "" {
      assert s[0] == '.' && s[1..] == b;
    } else {
      SplitConcat(a[1..], b);
      assert s[0] == a[0] && s[1..] == a[1..] + "." + b;
      PrependConcat(a[0], Split(a[1..]), Split(b));
    }
  }

  lemma {:induction false} PartsHaveNoDot(s: string)
    ensures forall i :: 0 <= i < |Split(s)| ==> '.' !in Split(s)[i]
    ensures '.' !in s ==> Split(s) == [s]
    decreases |s|
  {
    if s != "" {
      PartsHaveNoDot(s[1..]);
      var rest := Split(s[1..]);
      assert s == [s[0]] + s[1..];
    }
  }

  /**
   The instance ID written into a provider ID is the one read back by both readers exactly when
   it has no dot; the region may have any.
   */
  lemma ProviderIDRoundTrip(region: string, instanceID: string)
    ensures FromProviderID(ProviderID(region, instanceID)) == instanceID <==> '.' !in instanceID
    ensures TaggedInstanceID(ProviderID(region, instanceID)) == instanceID <==> '.' !in instanceID
  {
    SplitConcat(region, instanceID);
    PartsHaveNoDot(instanceID);
    var parts := Split(instanceID);
    assert Last(Split(region) + parts) == Last(parts);
    assert '.' !in parts[|parts| - 1];
  }
}
