/**
 pkg/controllers/nodeclaim/tagging/controller.go with Provider.TagInstance and the deferred
 tags of Provider.Create: bringing the tags of an instance to the desired ones through an API
 that takes 20 tags a call and may fail at any call.
 */
module Tagging {
  import opened Wrappers
  import opened TagBatches
  import opened ProviderIDs

  predicate PartOf(part: Tags, tags: Tags) {
    forall k :: k in part ==> k in tags && part[k] == tags[k]
  }

  /** Tags with other keys are the same before and after. */
  predicate Untouched(desired: Tags, before: Tags, after: Tags) {
    after - desired.Keys == before - desired.Keys
  }

  // ----- the desired tags

  const TAG_MANAGED_BY := "karpenter.sh/managed-by"
  const TAG_CLUSTER_ID := "karpenter.sh/cluster-id"
  const TAG_NODE_POOL := "karpenter.sh/nodepool"
  const TAG_NODE_CLAIM := "karpenter.sh/nodeclaim"
  const TAG_KUBELET_MAX_PODS := "karpenter.sh/kubelet-max-pods"
  const NODE_POOL_LABEL := "karpenter.sh/nodepool"
  const INSTANCE_TAGGED := "karpenter.sh/instance-tagged"

  function BuildInstanceTags(labels: map<string, string>, name: string, clusterID: string, specTags: Tags): Tags {
    map[TAG_MANAGED_BY := "karpenter"]
    + (if clusterID != "" then map[TAG_CLUSTER_ID := clusterID] else map[])
    + (if NODE_POOL_LABEL in labels then map[TAG_NODE_POOL := labels[NODE_POOL_LABEL]] else map[])
    + (if name != "" then map[TAG_NODE_CLAIM := name] else map[])
    + specTags
  }

  /** validateTags of the NodeClass. */
  predicate TagsAllowed(specTags: Tags) {
    forall k :: k in specTags ==>
      k !in [TAG_MANAGED_BY, TAG_CLUSTER_ID, TAG_NODE_POOL, TAG_NODE_CLAIM, TAG_KUBELET_MAX_PODS,
             "kubernetes.io/cluster"]
  }

  /** A valid NodeClass cannot override the tags List filters on, and loses none of its own. */
  lemma ManagementTagsSurvive(labels: map<string, string>, name: string, clusterID: string, specTags: Tags)
    requires TagsAllowed(specTags)
    ensures var tags := BuildInstanceTags(labels, name, clusterID, specTags);
            && TAG_MANAGED_BY in tags && tags[TAG_MANAGED_BY] == "karpenter"
            && (TAG_CLUSTER_ID in tags <==> clusterID != "")
            && (clusterID != "" ==> tags[TAG_CLUSTER_ID] == clusterID)
            && (TAG_NODE_CLAIM in tags <==> name != "")
            && (name != "" ==> tags[TAG_NODE_CLAIM] == name)
            && ("karpenter.sh/nodepool" in tags <==> "karpenter.sh/nodepool" in labels)
            && ("karpenter.sh/nodepool" in labels ==>
                  tags["karpenter.sh/nodepool"] == labels["karpenter.sh/nodepool"])
            && PartOf(specTags, tags)
  {
    assert TAG_MANAGED_BY[13] == 'm' && TAG_CLUSTER_ID[13] == 'c' && TAG_NODE_POOL[13] == 'n';
    assert TAG_NODE_POOL[17] == 'p' && TAG_NODE_CLAIM[17] == 'c';
  }

  // ----- the cloud's view of one instance

  class TaggedInstance {
    /** The numbers of the API calls that fail. */
    const failing: set<nat>
    var tags: Tags
    var requests: seq<Tags>

    constructor (failing: set<nat>, tags: Tags)
      ensures this.failing == failing && this.tags == tags && requests == []
    {
      this.failing, this.tags, requests := failing, tags, [];
    }

    /** TagResources applies the whole request or nothing. */
    method TagResources(batch: Tags) returns (ok: bool)
      modifies this
      ensures requests == old(requests) + [batch]
      ensures ok <==> |old(requests)| !in failing
      ensures tags == if ok then old(tags) + batch else old(tags)
    {
      ok := |requests| !in failing;
      if ok {
        tags := tags + batch;
      }
      requests := requests + [batch];
    }
  }

  lemma {:induction false} ApplyAllMerges(current: Tags, batches: seq<Tags>)
    ensures ApplyAll(current, batches) == current + Merge(batches)
    decreases |batches|
  {
    if batches == [] {
      assert current + map[] == current;
    } else {
      var n := |batches| - 1;
      ApplyAllMerges(current, batches[..n]);
      MergeLast(batches);
      AppendMaps(current, Merge(batches[..n]), batches[n]);
    }
  }

  lemma {:induction false} MergeLast(batches: seq<Tags>)
    requires batches != []
    ensures Merge(batches) == Merge(batches[..|batches| - 1]) + batches[|batches| - 1]
    decreases |batches|
  {
    var n := |batches| - 1;
    if n == 0 {
      assert batches[1..] == [] && batches[..0] == [];
      assert map[] + batches[0] == batches[0] + map[];
    } else {
      MergeLast(batches[1..]);
      assert batches[..n][1..] == batches[1..][..n - 1];
      AppendMaps(batches[0], Merge(batches[1..][..n - 1]), batches[n]);
    }
  }

  lemma AppendMaps(a: Tags, b: Tags, c: Tags)
    ensures a + b + c == a + (b + c)
  {
  }

  ghost predicate NoneFails(failing: set<nat>, from: nat, n: nat) {
    forall c: nat :: from <= c < from + n ==> c !in failing
  }

  /**
   The batches were sent in order until one failed, number `failed`, and those before it were
   applied; `first` is the number of the first API call.
   */
  ghost predicate SentUntilFailure(batches: seq<Tags>, failed: Option<nat>, failing: set<nat>, first: nat,
                                   before: Tags, after: Tags, sent: seq<Tags>) {
    match failed
    case None => NoneFails(failing, first, |batches|) && after == ApplyAll(before, batches) && sent == batches
    case Some(k) =>
      && k < |batches| && NoneFails(failing, first, k) && first + k in failing
      && after == ApplyAll(before, batches[..k]) && sent == batches[..k + 1]
  }

  /** Every request is one of the batches, so by BatchesAreBatching none carries more than 20 tags. */
  method TagInstance(inst: TaggedInstance, tags: Tags) returns (failed: Option<nat>)
    modifies inst
    ensures old(inst.requests) <= inst.requests
    ensures SentUntilFailure(Batches(tags), failed, inst.failing, |old(inst.requests)|,
                             old(inst.tags), inst.tags, inst.requests[|old(inst.requests)|..])
    ensures failed.None? ==> inst.tags == old(inst.tags) + tags
  {
    AllApplied(inst.tags, tags);
    if |tags| == 0 {
      assert Batches(tags) == [];
      return None;
    }
    var batches := BatchTags(tags);
    failed := ApplyBatches(inst, batches);
  }

  lemma AllApplied(before: Tags, tags: Tags)
    ensures ApplyAll(before, Batches(tags)) == before + tags
  {
    ApplyAllMerges(before, Batches(tags));
    BatchesAreBatching(tags);
  }

  method ApplyBatches(inst: TaggedInstance, batches: seq<Tags>) returns (failed: Option<nat>)
    modifies inst
    ensures old(inst.requests) <= inst.requests
    ensures SentUntilFailure(batches, failed, inst.failing, |old(inst.requests)|,
                             old(inst.tags), inst.tags, inst.requests[|old(inst.requests)|..])
    ensures failed.None? ==> inst.tags == ApplyAll(old(inst.tags), batches)
  {
    ghost var before, start := inst.tags, inst.requests;
    for i := 0 to |batches|
      invariant inst.requests == start + batches[..i]
      invariant inst.tags == ApplyAll(before, batches[..i])
      invariant NoneFails(inst.failing, |start|, i)
    {
      assert batches[..i + 1][..i] == batches[..i];
      var ok := inst.TagResources(batches[i]);
      assert start + batches[..i] + [batches[i]] == start + batches[..i + 1];
      if !ok {
        return Some(i);
      }
    }
    assert batches[..|batches|] == batches;
    return None;
  }

  // ----- the diff, and what an attempt leaves of it

  function Diff(desired: Tags, current: Tags): Tags {
    map k | k in desired && (k !in current || current[k] != desired[k]) :: desired[k]
  }

  lemma {:induction false} MergeSplits(batches: seq<Tags>, k: nat)
    requires Increasing(batches) && k <= |batches|
    ensures Merge(batches[..k]).Keys !! Merge(batches[k..]).Keys
    ensures Merge(batches[..k]) + Merge(batches[k..]) == Merge(batches)
    decreases k
  {
    if k > 0 {
      MergeSplits(batches[1..], k - 1);
      assert batches[..k][0] == batches[0] && batches[..k][1..] == batches[1..][..k - 1];
      assert batches[k..] == batches[1..][k - 1..];
      assert batches[0].Keys !! Merge(batches[1..]).Keys by {
        BelowIsDisjoint(batches[0], Merge(batches[1..]));
      }
      ThreeDisjoint(batches[0], Merge(batches[1..][..k - 1]), Merge(batches[k..]));
    } else {
      assert batches[..0] == [] && batches[0..] == batches;
    }
  }

  lemma ThreeDisjoint(a: Tags, b: Tags, c: Tags)
    requires a.Keys !! (b + c).Keys && b.Keys !! c.Keys
    ensures (a + b).Keys !! c.Keys && a + b + c == a + (b + c)
  {
    assert (b + c).Keys == b.Keys + c.Keys && (a + b).Keys == a.Keys + b.Keys;
  }

  /** Applying the first k batches of a diff leaves exactly the other batches as the next diff. */
  lemma DiffAfterAttempt(desired: Tags, current: Tags, k: nat)
    requires k <= |Batches(Diff(desired, current))|
    ensures var batches := Batches(Diff(desired, current));
            Diff(desired, ApplyAll(current, batches[..k])) == Merge(batches[k..])
  {
    var diff := Diff(desired, current);
    var batches := Batches(diff);
    BatchesAreBatching(diff);
    MergeSplits(batches, k);
    ApplyAllMerges(current, batches[..k]);
    DiffOfApplied(desired, current, Merge(batches[..k]), Merge(batches[k..]));
  }

  lemma DiffOfApplied(desired: Tags, current: Tags, applied: Tags, left: Tags)
    requires applied.Keys !! left.Keys && applied + left == Diff(desired, current)
    ensures Diff(desired, current + applied) == left
  {
    var d := Diff(desired, current + applied);
    forall x ensures x in d <==> x in left {
      assert x in Diff(desired, current) <==> x in applied || x in left;
      if x in applied {
        assert (applied + left)[x] == applied[x] == desired[x];
      }
    }
    forall x | x in left ensures d[x] == left[x] {
      assert (applied + left)[x] == left[x];
    }
  }

  /** One reconcile with the desired tags fixed: `applied` batches succeed before a failure, if any. */
  ghost function Attempt(desired: Tags, current: Tags, applied: nat): Tags {
    var batches := Batches(Diff(desired, current));
    ApplyAll(current, batches[..Min(applied, |batches|)])
  }

  ghost function Attempts(desired: Tags, current: Tags, applied: seq<nat>): Tags
    decreases |applied|
  {
    if applied == [] then current else Attempts(desired, Attempt(desired, current, applied[0]), applied[1..])
  }

  lemma AttemptAppliesPart(desired: Tags, current: Tags, k: nat)
    requires k <= |Batches(Diff(desired, current))|
    ensures var batches := Batches(Diff(desired, current));
            var after := ApplyAll(current, batches[..k]);
            PartOf(Merge(batches[k..]), Diff(desired, current)) && Untouched(desired, current, after)
  {
    var diff := Diff(desired, current);
    var batches := Batches(diff);
    BatchesAreBatching(diff);
    MergeSplits(batches, k);
    ApplyAllMerges(current, batches[..k]);
    PartsOfDiff(desired, current, Merge(batches[..k]), Merge(batches[k..]));
  }

  lemma PartsOfDiff(desired: Tags, current: Tags, applied: Tags, left: Tags)
    requires applied.Keys !! left.Keys && applied + left == Diff(desired, current)
    ensures PartOf(left, Diff(desired, current)) && Untouched(desired, current, current + applied)
  {
    assert forall k :: k in applied ==> k in applied + left;
    assert forall k :: k in left ==> k in applied + left;
    assert applied.Keys <= desired.Keys;
  }

  /** An attempt touches only tags of the diff, and shrinks the diff by whole batches. */
  lemma AttemptShrinksDiff(desired: Tags, current: Tags, applied: nat)
    ensures var after := Attempt(desired, current, applied);
            && PartOf(Diff(desired, after), Diff(desired, current))
            && Untouched(desired, current, after)
            && |Diff(desired, after)| ==
                 if |Diff(desired, current)| <= applied * MAX_TAGS_PER_REQUEST then 0
                 else |Diff(desired, current)| - applied * MAX_TAGS_PER_REQUEST
  {
    var diff := Diff(desired, current);
    var k := Min(applied, |Batches(diff)|);
    DiffAfterAttempt(desired, current, k);
    AttemptAppliesPart(desired, current, k);
    DiffSizes(diff, applied);
  }

  lemma DiffSizes(diff: Tags, applied: nat)
    ensures |Merge(Batches(diff)[Min(applied, |Batches(diff)|)..])| ==
            if |diff| <= applied * MAX_TAGS_PER_REQUEST then 0 else |diff| - applied * MAX_TAGS_PER_REQUEST
  {
    BatchesAreBatching(diff);
    SizeAfterBatches(diff, Batches(diff), Min(applied, |Batches(diff)|));
    SizeBounds(diff, Batches(diff));
  }

  lemma {:induction false} SizeAfterBatches(tags: Tags, batches: seq<Tags>, k: nat)
    requires IsBatching(tags, batches) && k <= |batches|
    ensures |Merge(batches[k..])| == if k < |batches| then |tags| - k * MAX_TAGS_PER_REQUEST else 0
    decreases k
  {
    if k == 0 {
      assert batches[0..] == batches;
      if batches == [] {
        assert Merge(batches) == map[];
      }
    } else {
      TailIsBatching(tags, batches);
      MergeOfTail(batches);
      SizeAfterBatches(tags - batches[0].Keys, batches[1..], k - 1);
      assert batches[k..] == batches[1..][k - 1..];
    }
  }

  lemma {:induction false} SizeBounds(tags: Tags, batches: seq<Tags>)
    requires IsBatching(tags, batches)
    ensures |tags| <= |batches| * MAX_TAGS_PER_REQUEST
    ensures batches != [] ==> (|batches| - 1) * MAX_TAGS_PER_REQUEST < |tags|
    decreases |batches|
  {
    if batches != [] {
      TailIsBatching(tags, batches);
      MergeOfTail(batches);
      SizeBounds(tags - batches[0].Keys, batches[1..]);
    }
  }

  predicate EachProgresses(applied: seq<nat>) {
    forall i :: 0 <= i < |applied| ==> applied[i] >= 1
  }

  /**
   However the attempts fail, the diff never grows and tags nobody asked for are untouched;
   and n attempts that each apply at least one batch finish once 20 n reaches its size, so
   that the instance carries all desired tags.
   */
  lemma {:induction false} AttemptsConverge(desired: Tags, current: Tags, applied: seq<nat>)
    ensures var after := Attempts(desired, current, applied);
            && PartOf(Diff(desired, after), Diff(desired, current))
            && Untouched(desired, current, after)
            && (EachProgresses(applied) && |Diff(desired, current)| <= |applied| * MAX_TAGS_PER_REQUEST ==>
                  PartOf(desired, after))
    decreases |applied|
  {
    if applied == [] {
      if |Diff(desired, current)| == 0 {
        EmptyDiffMeansDone(desired, current);
      }
    } else {
      AttemptShrinksDiff(desired, current, applied[0]);
      AttemptsConverge(desired, Attempt(desired, current, applied[0]), applied[1..]);
    }
  }

  lemma EmptyDiffMeansDone(desired: Tags, current: Tags)
    ensures Diff(desired, current) == map[] <==> PartOf(desired, current)
    ensures |Diff(desired, current)| == 0 ==> PartOf(desired, current)
  {
    if PartOf(desired, current) {
      assert Diff(desired, current) == map[];
    }
    forall k | k in desired && k !in Diff(desired, current) ensures k in current && current[k] == desired[k] {
    }
  }

  // ----- the controller

  /** tagInstance: only tags that are missing or different are sent. */
  method TagIfDifferent(inst: TaggedInstance, desired: Tags) returns (failed: Option<nat>)
    modifies inst
    ensures Untouched(desired, old(inst.tags), inst.tags)
    ensures failed.None? ==> PartOf(desired, inst.tags) && Diff(desired, inst.tags) == map[]
    ensures failed.Some? ==>
              && failed.value < |Batches(Diff(desired, old(inst.tags)))|
              && inst.tags == Attempt(desired, old(inst.tags), failed.value)
    ensures PartOf(desired, old(inst.tags)) ==> inst.requests == old(inst.requests)
  {
    var toApply := CollectDiff(desired, inst.tags);
    EmptyDiffMeansDone(desired, inst.tags);
    if |toApply| == 0 {
      return None;
    }
    ghost var before, batches := inst.tags, Batches(toApply);
    failed := TagInstance(inst, toApply);
    ghost var applied := if failed.Some? then failed.value else |batches|;
    assert inst.tags == Attempt(desired, before, applied) by {
      assert batches[..|batches|] == batches;
    }
    AfterAttempt(desired, before, applied);
  }

  lemma AfterAttempt(desired: Tags, current: Tags, applied: nat)
    ensures var after := Attempt(desired, current, applied);
            && Untouched(desired, current, after)
            && (applied >= |Batches(Diff(desired, current))| ==>
                  PartOf(desired, after) && Diff(desired, after) == map[])
  {
    AttemptShrinksDiff(desired, current, applied);
    BatchesAreBatching(Diff(desired, current));
    SizeBounds(Diff(desired, current), Batches(Diff(desired, current)));
    EmptyDiffMeansDone(desired, Attempt(desired, current, applied));
  }

  method CollectDiff(desired: Tags, current: Tags) returns (toApply: Tags)
    ensures toApply == Diff(desired, current)
  {
    toApply := map[];
    var rest := desired.Keys;
    while rest != {}
      invariant rest <= desired.Keys
      invariant toApply ==
                map k | k in desired && k !in rest && (k !in current || current[k] != desired[k]) :: desired[k]
      decreases rest
    {
      var k :| k in rest;
      if k !in current || current[k] != desired[k] {
        toApply := toApply[k := desired[k]];
      }
      rest := rest - {k};
    }
  }

  datatype NodeClassTags = NodeClassTags(clusterID: string, tags: Tags)

  class NodeClaim {
    const name: string
    const labels: map<string, string>
    const providerID: string
    const deleting: bool
    var annotations: map<string, string>

    constructor (name: string, labels: map<string, string>, providerID: string, deleting: bool,
                 annotations: map<string, string>)
      ensures this.annotations == annotations
    {
      this.name, this.labels, this.providerID, this.deleting := name, labels, providerID, deleting;
      this.annotations := annotations;
    }

    predicate Tagged()
      reads this
    {
      INSTANCE_TAGGED in annotations && annotations[INSTANCE_TAGGED] == "true"
    }

    predicate Taggable()
      reads this
    {
      !Tagged() && providerID != "" && !deleting
    }
  }

  function Desired(name: string, labels: map<string, string>, nodeClass: NodeClassTags): Tags {
    BuildInstanceTags(labels, name, nodeClass.clusterID, nodeClass.tags)
  }

  /** Reading the NodeClass, and patching the claim: an object that is gone is not an error. */
  datatype ClassAnswer = Found(tags: NodeClassTags) | ClassGone | Unreachable

  datatype PatchAnswer = Taken | ClaimGone | Rejected

  /**
   One reconcile. `inst` is None when the instance the claim names cannot be described. The claim
   is marked exactly when all desired tags are on the instance and the API server takes the mark;
   `failed` is the number of batches that got through before a call failed.
   */
  method Reconcile(claim: NodeClaim, nodeClass: ClassAnswer, inst: Option<TaggedInstance>, patch: PatchAnswer)
    returns (err: bool, ghost failed: Option<nat>)
    modifies claim, if inst.Some? then {inst.value} else {}
    ensures old(claim.Taggable()) <==>
              && !claim.deleting && |claim.providerID| > 0
              && ("karpenter.sh/instance-tagged" in old(claim.annotations) ==>
                    old(claim.annotations)["karpenter.sh/instance-tagged"] != "true")
    ensures var proceeds := old(claim.Taggable()) && nodeClass.Found? && TaggedInstanceID(claim.providerID) != "";
            && (!proceeds ==>
                  && (err <==> old(claim.Taggable()) && nodeClass.Unreachable?)
                  && claim.annotations == old(claim.annotations) && (inst.Some? ==> unchanged(inst.value)))
            && (proceeds && inst.None? ==> err && claim.annotations == old(claim.annotations))
    ensures old(claim.Taggable()) && nodeClass.Found? && TaggedInstanceID(claim.providerID) != "" && inst.Some? ==>
              var desired := Desired(claim.name, claim.labels, nodeClass.tags);
              && Untouched(desired, old(inst.value.tags), inst.value.tags)
              && (failed.None? ==>
                    && PartOf(desired, inst.value.tags) && (err <==> patch.Rejected?)
                    && claim.annotations == (if patch.Taken? then
                                               old(claim.annotations)["karpenter.sh/instance-tagged" := "true"]
                                             else old(claim.annotations)))
              && (failed.Some? ==>
                    && err && claim.annotations == old(claim.annotations)
                    && inst.value.tags == Attempt(desired, old(inst.value.tags), failed.value))
  {
    failed := None;
    if !claim.Taggable() {
      return false, None;
    }
    if !nodeClass.Found? {
      return nodeClass.Unreachable?, None;
    }
    if TaggedInstanceID(claim.providerID) == "" {
      return false, None;
    }
    if inst.None? {
      return true, None;
    }
    var stopped := TagIfDifferent(inst.value, Desired(claim.name, claim.labels, nodeClass.tags));
    failed := stopped;
    if stopped.Some? {
      return true, failed;
    }
    if patch.Taken? {
      claim.annotations := claim.annotations[INSTANCE_TAGGED := "true"];
    }
    return patch.Rejected?, None;
  }

  // ----- launching with more tags than one request takes

  lemma SingleBatch(tags: Tags)
    requires 1 <= |tags| <= MAX_TAGS_PER_REQUEST
    ensures Batches(tags) == [tags]
  {
    BatchesAreBatching(tags);
    assert [tags][1..] == [] && tags + map[] == tags;
    BatchingIsUnique(tags, Batches(tags), [tags]);
  }

  /** The tags a new instance has: the first batch at once, of the others those whose call succeeds. */
  function LaunchedTags(batches: seq<Tags>, failing: set<nat>): Tags
    decreases |batches|
  {
    if |batches| <= 1 then Merge(batches)
    else
      var n := |batches| - 1;
      var earlier := LaunchedTags(batches[..n], failing);
      if n - 1 in failing then earlier else earlier + batches[n]
  }

  /** The tag part of Create; a failed deferred batch is logged and the others are still sent. */
  method TagAtLaunch(tags: Tags, failing: set<nat>) returns (inst: TaggedInstance)
    ensures fresh(inst)
    ensures inst.tags == LaunchedTags(Batches(tags), failing)
    ensures [] < Batches(tags) ==> inst.requests == Batches(tags)[1..]
  {
    var batches := BatchTags(tags);
    assert Sized(batches) by {
      BatchesAreBatching(tags);
    }
    inst := LaunchWith(batches, failing);
  }

  method LaunchWith(batches: seq<Tags>, failing: set<nat>) returns (inst: TaggedInstance)
    requires Sized(batches)
    ensures fresh(inst)
    ensures inst.tags == LaunchedTags(batches, failing)
    ensures [] < batches ==> inst.requests == batches[1..]
  {
    if |batches| == 0 {
      inst := new TaggedInstance(failing, map[]);
      return;
    }
    inst := new TaggedInstance(failing, batches[0]);
    FirstBatchOnly(batches, failing);
    for i := 1 to |batches|
      invariant fresh(inst) && inst.failing == failing
      invariant inst.requests == batches[1..i]
      invariant inst.tags == LaunchedTags(batches[..i], failing)
    {
      EachIsSized(batches, i);
      NextLaunched(batches, failing, i);
      SendDeferred(inst, batches[i]);
      SliceGrows(batches, i);
    }
    assert batches[..|batches|] == batches;
  }

  lemma FirstBatchOnly(batches: seq<Tags>, failing: set<nat>)
    requires batches != []
    ensures LaunchedTags(batches[..1], failing) == batches[0]
  {
    assert batches[..1] == [batches[0]] && [batches[0]][1..] == [];
    assert Merge([batches[0]]) == batches[0] + Merge([]);
  }

  lemma SliceGrows<T>(s: seq<T>, i: nat)
    requires 1 <= i < |s|
    ensures s[1..i] + [s[i]] == s[1..i + 1]
  {
  }

  lemma NextLaunched(batches: seq<Tags>, failing: set<nat>, i: nat)
    requires 1 <= i < |batches|
    ensures var earlier := LaunchedTags(batches[..i], failing);
            LaunchedTags(batches[..i + 1], failing) == if i - 1 in failing then earlier else earlier + batches[i]
  {
    assert batches[..i + 1][..i] == batches[..i];
  }

  method SendDeferred(inst: TaggedInstance, batch: Tags)
    requires 1 <= |batch| <= MAX_TAGS_PER_REQUEST
    modifies inst
    ensures inst.requests == old(inst.requests) + [batch]
    ensures inst.tags == if |old(inst.requests)| in inst.failing then old(inst.tags) else old(inst.tags) + batch
  {
    SingleBatch(batch);
    var failed := TagInstance(inst, batch);
    OneBatchSent(batch, failed, inst.failing, |old(inst.requests)|, old(inst.tags), inst.tags,
                 inst.requests[|old(inst.requests)|..]);
  }

  lemma OneBatchSent(
    batch: Tags, failed: Option<nat>, failing: set<nat>, first: nat, before: Tags, after: Tags, sent: seq<Tags>)
    requires SentUntilFailure([batch], failed, failing, first, before, after, sent)
    ensures sent == [batch]
    ensures after == if first in failing then before else before + batch
  {
    assert [batch][..0] == [] && [batch][..1] == [batch];
    assert ApplyAll(before, [batch]) == ApplyAll(before, []) + batch;
  }

  lemma {:induction false} EachIsSized(batches: seq<Tags>, i: nat)
    requires Sized(batches) && i < |batches|
    ensures 1 <= |batches[i]| <= MAX_TAGS_PER_REQUEST
    decreases i
  {
    if i > 0 {
      EachIsSized(batches[1..], i - 1);
    }
  }

  /** A new instance never carries a wrong tag, and carries all of them unless a deferred call failed. */
  lemma LaunchedTagsAreDesired(tags: Tags, failing: set<nat>)
    ensures forall i :: 0 <= i < |Batches(tags)| ==>
              if i > 0 && i - 1 in failing then LaunchedTags(Batches(tags), failing).Keys !! Batches(tags)[i].Keys
              else PartOf(Batches(tags)[i], LaunchedTags(Batches(tags), failing))
    ensures PartOf(LaunchedTags(Batches(tags), failing), tags)
    ensures failing == {} ==> LaunchedTags(Batches(tags), failing) == tags
  {
    BatchesAreBatching(tags);
    LaunchedIsPart(Batches(tags), failing);
    forall i | 0 <= i < |Batches(tags)|
      ensures if i > 0 && i - 1 in failing then LaunchedTags(Batches(tags), failing).Keys !! Batches(tags)[i].Keys
              else PartOf(Batches(tags)[i], LaunchedTags(Batches(tags), failing))
    {
      LaunchedBatch(Batches(tags), failing, i);
    }
  }

  /** The first batch is always there, another one exactly when its call did not fail. */
  lemma {:induction false} LaunchedBatch(batches: seq<Tags>, failing: set<nat>, i: nat)
    requires Increasing(batches) && i < |batches|
    ensures if i > 0 && i - 1 in failing then LaunchedTags(batches, failing).Keys !! batches[i].Keys
            else PartOf(batches[i], LaunchedTags(batches, failing))
    decreases |batches|
  {
    var n := |batches| - 1;
    if n == 0 {
      FirstBatchOnly(batches, failing);
      assert batches[..1] == batches;
    } else {
      PrefixIncreases(batches, n);
      LastIsNew(batches, failing);
      if i < n {
        LaunchedBatch(batches[..n], failing, i);
        BatchInMerge(batches[..n], i);
      }
    }
  }

  /** The last batch shares no key with those before it. */
  lemma LastIsNew(batches: seq<Tags>, failing: set<nat>)
    requires Increasing(batches) && |batches| > 1
    ensures var n := |batches| - 1;
            && LaunchedTags(batches[..n], failing).Keys !! batches[n].Keys
            && Merge(batches[..n]).Keys !! batches[n].Keys
  {
    var n := |batches| - 1;
    PrefixIncreases(batches, n);
    LaunchedIsPart(batches[..n], failing);
    MergeSplits(batches, n);
    assert batches[n..] == [batches[n]] && [batches[n]][1..] == [];
    assert Merge(batches[n..]) == batches[n];
  }

  lemma {:induction false} BatchInMerge(batches: seq<Tags>, i: nat)
    requires i < |batches|
    ensures batches[i].Keys <= Merge(batches).Keys
    decreases i
  {
    if i > 0 {
      BatchInMerge(batches[1..], i - 1);
    }
  }

  lemma {:induction false} LaunchedIsPart(batches: seq<Tags>, failing: set<nat>)
    requires Increasing(batches)
    ensures PartOf(LaunchedTags(batches, failing), Merge(batches))
    ensures failing == {} ==> LaunchedTags(batches, failing) == Merge(batches)
    decreases |batches|
  {
    var n := |batches| - 1;
    if n > 0 {
      PrefixIncreases(batches, n);
      LaunchedIsPart(batches[..n], failing);
      MergeLast(batches);
      MergeSplits(batches, n);
      assert batches[n..] == [batches[n]] && [batches[n]][1..] == [];
      assert Merge(batches[n..]) == batches[n];
      AddToPart(LaunchedTags(batches[..n], failing), Merge(batches[..n]), batches[n]);
    }
  }

  lemma AddToPart(part: Tags, whole: Tags, more: Tags)
    requires PartOf(part, whole) && whole.Keys !! more.Keys
    ensures PartOf(part, whole + more) && PartOf(part + more, whole + more)
  {
    forall k | k in part ensures k in whole + more && (whole + more)[k] == part[k] && k !in more {
      assert k in whole;
    }
  }

  lemma {:induction false} PrefixIncreases(batches: seq<Tags>, n: nat)
    requires Increasing(batches) && n <= |batches|
    ensures Increasing(batches[..n])
    ensures Merge(batches[..n]).Keys <= Merge(batches).Keys
    decreases n
  {
    if n > 0 {
      PrefixIncreases(batches[1..], n - 1);
      assert batches[..n][0] == batches[0] && batches[..n][1..] == batches[1..][..n - 1];
    }
  }
}
