/**
 pkg/errors/errors.go: an ECS error is classified by the codes its message contains. On the
 launch path the message is wrapped several times before the last look at it.
 */
module CapacityErrors {

  const NO_STOCK := "OperationDenied.NoStock"
  const ZONE_NOT_ON_SALE := "Zone.NotOnSale"
  const RESOURCE_TYPE_NOT_SUPPORTED := "InvalidResourceType.NotSupported"
  const VSWITCH_IP_NOT_ENOUGH := "InvalidVSwitchId.IpNotEnough"

  /** strings.Contains */
  predicate Contains(s: string, sub: string) {
    if |s| < |sub| then false
    else s[..|sub|] == sub || (s != "" && Contains(s[1..], sub))
  }

  predicate IsInsufficientCapacity(message: string) {
    || Contains(message, NO_STOCK)
    || Contains(message, ZONE_NOT_ON_SALE)
    || Contains(message, RESOURCE_TYPE_NOT_SUPPORTED)
    || Contains(message, VSWITCH_IP_NOT_ENOUGH)
  }

  predicate OccursAt(s: string, sub: string, i: nat) {
    i + |sub| <= |s| && s[i..i + |sub|] == sub
  }

  lemma {:induction false} ContainsMeansOccurs(s: string, sub: string)
    ensures Contains(s, sub) <==> exists i: nat :: OccursAt(s, sub, i)
    decreases |s|
  {
    if |s| >= |sub| {
      if s[..|sub|] == sub {
        assert OccursAt(s, sub, 0);
      } else if s != "" {
        ContainsMeansOccurs(s[1..], sub);
        if i: nat :| OccursAt(s[1..], sub, i) {
          assert s[i + 1..i + 1 + |sub|] == s[1..][i..i + |sub|];
          assert OccursAt(s, sub, i + 1);
        }
        if i: nat :| OccursAt(s, sub, i) {
          assert s[i..i + |sub|] == s[1..][i - 1..i - 1 + |sub|];
          assert OccursAt(s[1..], sub, i - 1);
        }
      }
    }
  }

  /** A message is a capacity error when one of four codes stands somewhere in it. */
  lemma CapacityMeansFourCodes(message: string)
    ensures IsInsufficientCapacity(message) <==> exists i: nat ::
              || OccursAt(message, "OperationDenied.NoStock", i)
              || OccursAt(message, "Zone.NotOnSale", i)
              || OccursAt(message, "InvalidResourceType.NotSupported", i)
              || OccursAt(message, "InvalidVSwitchId.IpNotEnough", i)
  {
    ContainsMeansOccurs(message, NO_STOCK);
    ContainsMeansOccurs(message, ZONE_NOT_ON_SALE);
    ContainsMeansOccurs(message, RESOURCE_TYPE_NOT_SUPPORTED);
    ContainsMeansOccurs(message, VSWITCH_IP_NOT_ENOUGH);
    hide Contains, OccursAt;
  }

  /**
   A prefix that ends in a character the code lacks, and itself lacks one of the code's
   characters, neither adds an occurrence of the code nor hides one.
   */
  lemma PrefixNeitherAddsNorHides(prefix: string, message: string, code: string, c: char)
    requires prefix != "" && prefix[|prefix| - 1] !in code
    requires c in code && c !in prefix
    ensures Contains(prefix + message, code) <==> Contains(message, code)
  {
    ContainsMeansOccurs(prefix + message, code);
    ContainsMeansOccurs(message, code);
    var whole := prefix + message;
    if i: nat :| OccursAt(message, code, i) {
      assert whole[|prefix| + i..|prefix| + i + |code|] == message[i..i + |code|];
      assert OccursAt(whole, code, |prefix| + i);
    }
    if i: nat :| OccursAt(whole, code, i) {
      OccursAfterPrefix(prefix, message, code, c, i);
      assert whole[i..i + |code|] == message[i - |prefix|..i - |prefix| + |code|];
      assert OccursAt(message, code, i - |prefix|);
    }
  }

  lemma OccursAfterPrefix(prefix: string, message: string, code: string, c: char, i: nat)
    requires prefix != "" && prefix[|prefix| - 1] !in code
    requires c in code && c !in prefix
    requires OccursAt(prefix + message, code, i)
    ensures i >= |prefix|
  {
    var whole, last := prefix + message, |prefix| - 1;
    assert whole[last] == prefix[last];
    InsideOccurrence(whole, code, i, last);
    var k :| 0 <= k < |code| && code[k] == c;
    InsidePrefix(prefix, message, code, i, k);
  }

  lemma InsideOccurrence(whole: string, code: string, i: nat, j: nat)
    requires OccursAt(whole, code, i)
    ensures i <= j < i + |code| ==> whole[j] in code
  {
    if i <= j < i + |code| {
      assert whole[i..i + |code|][j - i] == whole[j];
    }
  }

  lemma InsidePrefix(prefix: string, message: string, code: string, i: nat, k: nat)
    requires OccursAt(prefix + message, code, i) && k < |code|
    ensures i + k < |prefix| ==> code[k] in prefix
  {
    var whole := prefix + message;
    assert whole[i..i + |code|][k] == whole[i + k];
    if i + k < |prefix| {
      assert prefix[i + k] == code[k];
    }
  }

  // ----- the wrappers of the launch path

  const CREATE_FAILED := "failed to create instance: "
  const BATCH_FAILED := "batch RunInstances failed: "
  const VSWITCHES_EXHAUSTED := "all vSwitches exhausted, last error: "

  function TypesExhausted(tried: string): string {
    "all instance types exhausted " + "across all zones (" + tried + " types tried), last error: "
  }

  /** Prefixes that end in a space and contain no dot. */
  predicate IsWrapper(prefix: string) {
    prefix != "" && prefix[|prefix| - 1] == ' ' && '.' !in prefix
  }

  lemma CreateFailedIsWrapper()
    ensures IsWrapper(CREATE_FAILED)
  {
  }

  lemma BatchFailedIsWrapper()
    ensures IsWrapper(BATCH_FAILED)
  {
  }

  lemma VSwitchesExhaustedIsWrapper()
    ensures IsWrapper(VSWITCHES_EXHAUSTED)
  {
  }

  lemma TypesExhaustedIsWrapper(tried: string)
    requires '.' !in tried
    ensures IsWrapper(TypesExhausted(tried))
  {
    var head, tail := "all instance types exhausted " + "across all zones (", " types tried), last error: ";
    HeadHasNoDot();
    TailHasNoDot();
    JoinHasNoDot(head, tried);
    JoinHasNoDot(head + tried, tail);
    var all := head + tried + tail;
    assert all[|all| - 1] == tail[|tail| - 1] == ' ';
  }

  lemma HeadHasNoDot()
    ensures '.' !in "all instance types exhausted " + "across all zones ("
  {
    assert '.' !in "all instance types exhausted ";
    assert '.' !in "across all zones (";
  }

  lemma TailHasNoDot()
    ensures '.' !in " types tried), last error: "
  {
  }

  lemma JoinHasNoDot(a: string, b: string)
    requires '.' !in a && '.' !in b
    ensures '.' !in a + b
  {
  }

  /** No wrapper of the launch path changes how a message is classified. */
  lemma WrappingKeepsClassification(prefix: string, message: string)
    requires IsWrapper(prefix)
    ensures IsInsufficientCapacity(prefix + message) <==> IsInsufficientCapacity(message)
  {
    NoStockCode();
    ZoneCode();
    ResourceTypeCode();
    VSwitchCode();
    PrefixNeitherAddsNorHides(prefix, message, NO_STOCK, '.');
    PrefixNeitherAddsNorHides(prefix, message, ZONE_NOT_ON_SALE, '.');
    PrefixNeitherAddsNorHides(prefix, message, RESOURCE_TYPE_NOT_SUPPORTED, '.');
    PrefixNeitherAddsNorHides(prefix, message, VSWITCH_IP_NOT_ENOUGH, '.');
  }

  lemma NoStockCode()
    ensures '.' in NO_STOCK && ' ' !in NO_STOCK
  {
    assert NO_STOCK[15] == '.';
  }

  lemma ZoneCode()
    ensures '.' in ZONE_NOT_ON_SALE && ' ' !in ZONE_NOT_ON_SALE
  {
    assert ZONE_NOT_ON_SALE[4] == '.';
  }

  lemma ResourceTypeCode()
    ensures '.' in RESOURCE_TYPE_NOT_SUPPORTED && ' ' !in RESOURCE_TYPE_NOT_SUPPORTED
  {
    assert RESOURCE_TYPE_NOT_SUPPORTED[19] == '.';
  }

  lemma VSwitchCode()
    ensures '.' in VSWITCH_IP_NOT_ENOUGH && ' ' !in VSWITCH_IP_NOT_ENOUGH
  {
    assert VSWITCH_IP_NOT_ENOUGH[16] == '.';
  }

  /** Any number of wrappers, as after both fallback loops. */
  function WrapAll(prefixes: seq<string>, message: string): string {
    if prefixes == [] then message else prefixes[0] + WrapAll(prefixes[1..], message)
  }

  lemma {:induction false} AnyWrappingKeepsClassification(prefixes: seq<string>, message: string)
    requires forall i :: 0 <= i < |prefixes| ==> IsWrapper(prefixes[i])
    ensures IsInsufficientCapacity(WrapAll(prefixes, message)) <==> IsInsufficientCapacity(message)
    decreases |prefixes|
  {
    if prefixes != [] {
      AnyWrappingKeepsClassification(prefixes[1..], message);
      WrappingKeepsClassification(prefixes[0], WrapAll(prefixes[1..], message));
    }
  }
}
