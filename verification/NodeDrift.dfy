/**
 pkg/cloudprovider/cloudprovider.go, Create and IsDrifted: a node is launched, and later compared
 with its NodeClass.
 */
module NodeDrift {
  import opened Wrappers
  import opened Requirements
  import opened Ordering
  import opened SecurityGroups
  import opened LaunchChoices
  import opened Launching
  import opened LaunchPlans
  import opened ProviderIDs

  datatype NodeClaim = NodeClaim(providerID: string, imageID: string, annotations: map<string, string>)

  datatype CreateError =
    | ClassNotReady
    | ReadinessUnknown
    | NoInstanceTypes
    | NoImages
    | NoVSwitches
    | NoSecurityGroups
    | LaunchFailed(error: LaunchError)
    | NotDescribed

  datatype Drift = NoDrift | NodeClassDrift | ImageDrift | VSwitchDrift | SecurityGroupDrift

  datatype DriftError = InvalidProviderID | InstanceUnknown

  const HASH_KEY := "karpenter.sh/ecsnodeclass-hash"
  const HASH_VERSION_KEY := "karpenter.sh/ecsnodeclass-hash-version"

  /** Two different keys of the annotation map. */
  lemma HashKeysDiffer()
    ensures HASH_KEY != HASH_VERSION_KEY
  {
    assert |HASH_KEY| < |HASH_VERSION_KEY|;
  }

  // ----- IsDrifted

  predicate ImageAllowed(id: string, images: seq<Image>) {
    exists i :: 0 <= i < |images| && images[i].id == id
  }

  predicate VSwitchAllowed(id: string, vSwitches: seq<LaunchChoices.VSwitch>) {
    exists i :: 0 <= i < |vSwitches| && vSwitches[i].id == id
  }

  predicate GroupsAllowed(ids: seq<string>, groups: seq<SecurityGroup>) {
    Elements(ids) == Elements(GroupIDs(groups))
  }

  method IsImageAllowed(id: string, images: seq<Image>) returns (allowed: bool)
    ensures allowed <==> ImageAllowed(id, images)
  {
    for i := 0 to |images|
      invariant forall j :: 0 <= j < i ==> images[j].id != id
    {
      if images[i].id == id {
        return true;
      }
    }
    return false;
  }

  method IsVSwitchAllowed(id: string, vSwitches: seq<LaunchChoices.VSwitch>) returns (allowed: bool)
    ensures allowed <==> VSwitchAllowed(id, vSwitches)
  {
    for i := 0 to |vSwitches|
      invariant forall j :: 0 <= j < i ==> vSwitches[j].id != id
    {
      if vSwitches[i].id == id {
        return true;
      }
    }
    return false;
  }

  method IsSecurityGroupAllowed(ids: seq<string>, groups: seq<SecurityGroup>) returns (allowed: bool)
    ensures allowed <==> GroupsAllowed(ids, groups)
  {
    var allowedIDs: seq<string> := [];
    for i := 0 to |groups|
      invariant allowedIDs == GroupIDs(groups)[..i]
    {
      allowedIDs := allowedIDs + [groups[i].id];
    }
    assert allowedIDs == GroupIDs(groups);
    allowed := EqualIDs(ids, allowedIDs);
  }

  /** The annotation as a Go map lookup reads it. */
  function AnnotatedHash(claim: NodeClaim): string {
    if HASH_KEY in claim.annotations then claim.annotations[HASH_KEY] else ""
  }

  predicate HashMatches(claim: NodeClaim, nodeClass: NodeClass, hash: Spec -> string) {
    AnnotatedHash(claim) == hash(nodeClass.spec)
  }

  /** The instance is one the NodeClass, as resolved now, would launch. */
  predicate Conforms(instance: Instance, status: Status) {
    && ImageAllowed(instance.imageID, status.images)
    && VSwitchAllowed(instance.vSwitchID, status.vSwitches)
    && GroupsAllowed(instance.securityGroupIDs, status.securityGroups)
  }

  /** What IsDrifted answers once it has found the instance. */
  predicate IsReason(drift: Drift, claim: NodeClaim, instance: Instance, nodeClass: NodeClass, hash: Spec -> string) {
    var hashed := HashMatches(claim, nodeClass, hash);
    var image := ImageAllowed(instance.imageID, nodeClass.status.images);
    var vSwitch := VSwitchAllowed(instance.vSwitchID, nodeClass.status.vSwitches);
    match drift
    case NoDrift => hashed && Conforms(instance, nodeClass.status)
    case NodeClassDrift => !hashed
    case ImageDrift => hashed && !image
    case VSwitchDrift => hashed && image && !vSwitch
    case SecurityGroupDrift =>
      hashed && image && vSwitch && !GroupsAllowed(instance.securityGroupIDs, nodeClass.status.securityGroups)
  }

  /**
   The answer in terms of the claim, the instance and the NodeClass: the first of a changed hash, an
   image no longer listed, a vSwitch no longer listed, and other security groups than those listed.
   */
  lemma FirstDifferenceIsReported(
    drift: Drift, claim: NodeClaim, instance: Instance, nodeClass: NodeClass, hash: Spec -> string)
    ensures IsReason(drift, claim, instance, nodeClass, hash) <==>
            var status, key := nodeClass.status, "karpenter.sh/ecsnodeclass-hash";
            drift ==
            if hash(nodeClass.spec) != (if key in claim.annotations then claim.annotations[key] else "") then
              NodeClassDrift
            else if forall i :: i in status.images ==> i.id != instance.imageID then ImageDrift
            else if forall v :: v in status.vSwitches ==> v.id != instance.vSwitchID then VSwitchDrift
            else if (exists g :: g in status.securityGroups && g.id !in instance.securityGroupIDs) ||
                    (exists id :: id in instance.securityGroupIDs &&
                                  forall g :: g in status.securityGroups ==> g.id != id) then SecurityGroupDrift
            else NoDrift
  {
    hide Elements;
    var status := nodeClass.status;
    ListedImages(instance.imageID, status.images);
    ListedVSwitches(instance.vSwitchID, status.vSwitches);
    ListedGroups(instance.securityGroupIDs, status.securityGroups);
  }

  lemma ListedImages(id: string, images: seq<Image>)
    ensures ImageAllowed(id, images) <==> exists i :: i in images && i.id == id
  {
    if i :| i in images && i.id == id {
      var k :| 0 <= k < |images| && images[k] == i;
    }
  }

  lemma ListedVSwitches(id: string, vSwitches: seq<LaunchChoices.VSwitch>)
    ensures VSwitchAllowed(id, vSwitches) <==> exists v :: v in vSwitches && v.id == id
  {
    if v :| v in vSwitches && v.id == id {
      var k :| 0 <= k < |vSwitches| && vSwitches[k] == v;
    }
  }

  lemma ListedGroups(ids: seq<string>, groups: seq<SecurityGroup>)
    ensures GroupsAllowed(ids, groups) <==>
            && (forall g :: g in groups ==> g.id in ids)
            && (forall id :: id in ids ==> exists g :: g in groups && g.id == id)
  {
    GroupIDsAreListed(groups);
    var listed := GroupIDs(groups);
    assert forall id :: id in NormalizedIDs(listed) <==> id in listed;
    if GroupsAllowed(ids, groups) {
      forall id ensures id in ids <==> id in listed {
        assert id in Elements(ids) <==> id in Elements(listed);
      }
    } else {
      assert Elements(ids) != Elements(listed);
    }
  }

  /** `hash` is calculateNodeClassHash; `visible` says whether DescribeInstances shows the instance. */
  method IsDrifted(
    provider: InstanceProvider, claim: NodeClaim, nodeClass: NodeClass, hash: Spec -> string, visible: bool)
    returns (r: Result<Drift, DriftError>)
    ensures var id := FromProviderID(claim.providerID);
            if id == "" then r == Err(InvalidProviderID)
            else if !visible || id !in provider.instances then r == Err(InstanceUnknown)
            else r.Ok? && IsReason(r.value, claim, provider.instances[id], nodeClass, hash)
  {
    var id := FromProviderID(claim.providerID);
    if id == "" {
      return Err(InvalidProviderID);
    }
    if !visible || id !in provider.instances {
      return Err(InstanceUnknown);
    }
    var instance := provider.instances[id];
    var annotated := "";
    if HASH_KEY in claim.annotations {
      annotated := claim.annotations[HASH_KEY];
    }
    if hash(nodeClass.spec) != annotated {
      return Ok(NodeClassDrift);
    }
    var image := IsImageAllowed(instance.imageID, nodeClass.status.images);
    if !image {
      return Ok(ImageDrift);
    }
    var vSwitch := IsVSwitchAllowed(instance.vSwitchID, nodeClass.status.vSwitches);
    if !vSwitch {
      return Ok(VSwitchDrift);
    }
    var groups := IsSecurityGroupAllowed(instance.securityGroupIDs, nodeClass.status.securityGroups);
    if !groups {
      return Ok(SecurityGroupDrift);
    }
    return Ok(NoDrift);
  }

  // ----- Create

  /** The NodeClaim returned for a launched instance. */
  function Claimed(original: NodeClaim, region: string, id: string, instance: Instance, hash: string): NodeClaim {
    NodeClaim(ProviderID(region, id), instance.imageID,
              original.annotations[HASH_KEY := hash][HASH_VERSION_KEY := "v1"])
  }

  /** What Create refuses before it launches anything. */
  function Refusal(
    nodeClass: NodeClass, requirements: seq<Requirement>, types: seq<InstanceType>): Option<CreateError>
  {
    if nodeClass.status.readiness == NotReady then Some(ClassNotReady)
    else if nodeClass.status.readiness == UnknownReady then Some(ReadinessUnknown)
    else if types == [] then Some(NoInstanceTypes)
    else if nodeClass.status.images == [] then Some(NoImages)
    else if InZones(nodeClass.status.vSwitches, AllowedZones(requirements)) == [] then Some(NoVSwitches)
    else if nodeClass.status.securityGroups == [] then Some(NoSecurityGroups)
    else None
  }

  /** Create refuses for the first thing that is missing, vSwitches in allowed zones included. */
  lemma FirstLackIsRefused(nodeClass: NodeClass, requirements: seq<Requirement>, types: seq<InstanceType>)
    ensures var status := nodeClass.status;
            Refusal(nodeClass, requirements, types) ==
            if status.readiness.NotReady? then Some(ClassNotReady)
            else if status.readiness.UnknownReady? then Some(ReadinessUnknown)
            else if |types| == 0 then Some(NoInstanceTypes)
            else if |status.images| == 0 then Some(NoImages)
            else if forall v :: v in status.vSwitches ==> !InAllowedZone(v, AllowedZones(requirements)) then
              Some(NoVSwitches)
            else if |status.securityGroups| == 0 then Some(NoSecurityGroups)
            else None
  {
    var kept := InZones(nodeClass.status.vSwitches, AllowedZones(requirements));
    assert kept != [] ==> kept[0] in kept;
  }

  /** The claim names the instance's image and carries the hash; all its other annotations stay. */
  lemma ClaimDescribesInstance(original: NodeClaim, region: string, id: string, instance: Instance, hash: string)
    ensures var claim := Claimed(original, region, id, instance, hash);
            var hashKey, versionKey := "karpenter.sh/ecsnodeclass-hash", "karpenter.sh/ecsnodeclass-hash-version";
            && claim.providerID == region + "." + id && claim.imageID == instance.imageID
            && hashKey in claim.annotations && claim.annotations[hashKey] == hash
            && versionKey in claim.annotations && claim.annotations[versionKey] == "v1"
            && claim.annotations - {hashKey, versionKey} == original.annotations - {hashKey, versionKey}
  {
    HashKeysDiffer();
  }

  function InputsOf(nodeClass: NodeClass, requirements: seq<Requirement>, types: seq<InstanceType>): Inputs {
    Inputs(nodeClass, requirements, types, nodeClass.status.images,
           InZones(nodeClass.status.vSwitches, AllowedZones(requirements)), nodeClass.status.securityGroups)
  }

  /** A vSwitch of the NodeClass in a zone the NodeClaim allows. */
  predicate Eligible(v: LaunchChoices.VSwitch, nodeClass: NodeClass, requirements: seq<Requirement>) {
    v in nodeClass.status.vSwitches && InAllowedZone(v, AllowedZones(requirements))
  }

  ghost predicate IsEligible(id: string, nodeClass: NodeClass, requirements: seq<Requirement>) {
    exists v :: Eligible(v, nodeClass, requirements) && v.id == id
  }

  ghost predicate OnEligibleVSwitches(made: seq<CreateOptions>, nodeClass: NodeClass, requirements: seq<Requirement>) {
    forall k :: 0 <= k < |made| ==> IsEligible(made[k].vSwitchID, nodeClass, requirements)
  }

  /** A new instance, recorded by ECS, which the NodeClass as it stands would launch. */
  ghost predicate NewNode(provider: InstanceProvider, id: string, instances: map<string, Instance>, status: Status) {
    id in instances && (provider.ReportsGroups() ==> Conforms(instances[id], status))
  }

  lemma AttemptsAreEligible(
    plan: seq<CreateOptions>, made: seq<CreateOptions>, nodeClass: NodeClass, requirements: seq<Requirement>,
    types: seq<InstanceType>, kubeArch: string -> string)
    requires InputsOf(nodeClass, requirements, types).Accepted() && made <= plan
    requires var input := InputsOf(nodeClass, requirements, types);
             IsPlan(plan, input.Launchable(kubeArch), input.vSwitches)
    ensures OnEligibleVSwitches(made, nodeClass, requirements)
  {
    var input := InputsOf(nodeClass, requirements, types);
    forall k | 0 <= k < |made| ensures IsEligible(made[k].vSwitchID, nodeClass, requirements) {
      var i, v := AttemptsStayInside(plan, input.Launchable(kubeArch), input.vSwitches, k);
      assert Eligible(v, nodeClass, requirements) && made[k] == plan[k] && v.id == made[k].vSwitchID;
    }
  }

  /** Whichever instance type and vSwitch an attempt is for, its instance conforms to the NodeClass. */
  lemma AttemptConforms(
    provider: InstanceProvider, plan: seq<CreateOptions>, k: nat, nodeClass: NodeClass,
    requirements: seq<Requirement>, types: seq<InstanceType>, kubeArch: string -> string)
    requires InputsOf(nodeClass, requirements, types).Accepted() && k < |plan|
    requires var input := InputsOf(nodeClass, requirements, types);
             IsPlan(plan, input.Launchable(kubeArch), input.vSwitches)
    requires provider.ReportsGroups()
    ensures Conforms(provider.Recorded(plan[k]), nodeClass.status)
  {
    var input := InputsOf(nodeClass, requirements, types);
    var i, v := AttemptsStayInside(plan, input.Launchable(kubeArch), input.vSwitches, k);
    var image := ImageFor(input.images, types[i].architecture, kubeArch);
    assert plan[k].imageID == image.id && image in nodeClass.status.images;
    assert v in nodeClass.status.vSwitches;
    GroupsReported(provider, nodeClass.status.securityGroups);
  }

  lemma GroupsReported(provider: InstanceProvider, groups: seq<SecurityGroup>)
    requires provider.ReportsGroups()
    ensures GroupsAllowed(provider.listed(NormalizedIDs(NormalizedIDs(GroupIDs(groups)))), groups)
  {
    NormalFormDecidesSetEquality(GroupIDs(groups), GroupIDs(groups));
    var ids := NormalizedIDs(GroupIDs(groups));
    assert Elements(ids) == Elements(GroupIDs(groups));
    assert Elements(provider.listed(ids)) == Elements(ids);
  }

  /** The last attempt made launched `id`, and ECS recorded exactly that instance. */
  ghost predicate LaunchedLastAttempt(
    provider: InstanceProvider, id: string, made: seq<CreateOptions>, calls: nat,
    before: map<string, Instance>, after: map<string, Instance>)
  {
    && made != [] && provider.answers(calls + |made| - 1) == Launched(id)
    && after == before[id := provider.Recorded(made[|made| - 1])]
  }

  /**
   How a launch that was not refused at the outset ends. When ECS does not show the new instance,
   no claim is returned for it: it is left behind.
   */
  ghost predicate Concluded(
    provider: InstanceProvider, original: NodeClaim, nodeClass: NodeClass, region: string, hash: Spec -> string,
    r: Result<NodeClaim, CreateError>, id: string, made: seq<CreateOptions>, calls: nat,
    before: map<string, Instance>, after: map<string, Instance>)
  {
    if r.Err? && r.error.LaunchFailed? then after == before
    else
      && (r.Err? ==> r.error == NotDescribed)
      && LaunchedLastAttempt(provider, id, made, calls, before, after)
      && NewNode(provider, id, after, nodeClass.status)
      && (r.Ok? ==> r.value == Claimed(original, region, id, after[id], hash(nodeClass.spec)))
  }

  /** Steps 9 to 12 of Create. `visible` says whether DescribeInstances shows the instance. */
  method LaunchAndClaim(
    provider: InstanceProvider, original: NodeClaim, input: Inputs, region: string, kubeArch: string -> string,
    hash: Spec -> string, visible: bool)
    returns (r: Result<NodeClaim, CreateError>, ghost id: string, ghost made: seq<CreateOptions>)
    requires input == InputsOf(input.nodeClass, input.requirements, input.types)
    modifies provider
    ensures provider.calls == old(provider.calls) + made
    ensures OnEligibleVSwitches(made, input.nodeClass, input.requirements)
    ensures InPriorityOrder(made, input.types, input.images, input.vSwitches, kubeArch)
    ensures AllHaveSettings(made, input.nodeClass.spec, input.groups, input.requirements)
    ensures Concluded(provider, original, input.nodeClass, region, hash, r, id, made, |old(provider.calls)|,
                      old(provider.instances), provider.instances)
  {
    hide Followed, IsPlan, Conforms, OnEligibleVSwitches, Refuses, LaunchedLastAttempt;
    hide Inputs.Accepted, Inputs.Launchable, InPriorityOrder, AllHaveSettings;
    ghost var before, first := provider.instances, |provider.calls|;
    var launched, plan, attempts := CreateInstanceWithRetry(provider, input, kubeArch);
    made := attempts;
    LaunchConforms(provider, input.nodeClass, input.requirements, input.types, kubeArch, plan, first, launched, made,
                   before, provider.instances);
    if launched.Err? {
      return Err(LaunchFailed(launched.error)), "", made;
    }
    if !visible {
      return Err(NotDescribed), launched.value, made;
    }
    var instance := provider.instances[launched.value];
    var annotations := original.annotations[HASH_KEY := hash(input.nodeClass.spec)];
    annotations := annotations[HASH_VERSION_KEY := "v1"];
    return Ok(NodeClaim(ProviderID(region, launched.value), instance.imageID, annotations)), launched.value, made;
  }

  method Create(
    provider: InstanceProvider, original: NodeClaim, requirements: seq<Requirement>, nodeClass: NodeClass,
    types: seq<InstanceType>, region: string, kubeArch: string -> string, hash: Spec -> string, visible: bool)
    returns (r: Result<NodeClaim, CreateError>, ghost id: string, ghost made: seq<CreateOptions>)
    modifies provider
    ensures provider.calls == old(provider.calls) + made
    ensures OnEligibleVSwitches(made, nodeClass, requirements)
    ensures InPriorityOrder(made, types, nodeClass.status.images,
                            InZones(nodeClass.status.vSwitches, AllowedZones(requirements)), kubeArch)
    ensures AllHaveSettings(made, nodeClass.spec, nodeClass.status.securityGroups, requirements)
    ensures var refusal := Refusal(nodeClass, requirements, types);
            if refusal.Some? then
              r == Err(refusal.value) && made == [] && provider.instances == old(provider.instances)
            else
              Concluded(provider, original, nodeClass, region, hash, r, id, made, |old(provider.calls)|,
                        old(provider.instances), provider.instances)
  {
    hide Concluded;
    id, made := "", [];
    if nodeClass.status.readiness == NotReady {
      return Err(ClassNotReady), id, made;
    }
    if nodeClass.status.readiness == UnknownReady {
      return Err(ReadinessUnknown), id, made;
    }
    if |types| == 0 {
      return Err(NoInstanceTypes), id, made;
    }
    if |nodeClass.status.images| == 0 {
      return Err(NoImages), id, made;
    }
    var zones := ZonesFromRequirements(requirements);
    var vSwitches := FilterVSwitchesByZones(nodeClass.status.vSwitches, zones);
    if |vSwitches| == 0 {
      return Err(NoVSwitches), id, made;
    }
    if |nodeClass.status.securityGroups| == 0 {
      return Err(NoSecurityGroups), id, made;
    }
    var input := Inputs(nodeClass, requirements, types, nodeClass.status.images, vSwitches,
                        nodeClass.status.securityGroups);
    r, id, made := LaunchAndClaim(provider, original, input, region, kubeArch, hash, visible);
  }

  lemma LaunchedLast(provider: InstanceProvider, made: seq<CreateOptions>, first: nat, id: string)
    requires made != [] && Outcomes(made, provider.answers, first)[|made| - 1] == Ok(id)
    ensures provider.answers(first + |made| - 1) == Launched(id)
  {
  }

  lemma LaunchConforms(
    provider: InstanceProvider, nodeClass: NodeClass, requirements: seq<Requirement>, types: seq<InstanceType>,
    kubeArch: string -> string, plan: seq<CreateOptions>, first: nat, r: Result<string, LaunchError>,
    made: seq<CreateOptions>, before: map<string, Instance>, after: map<string, Instance>)
    requires var input := InputsOf(nodeClass, requirements, types);
             && (!input.Accepted() ==> r.Err? && made == [] && after == before)
             && (input.Accepted() ==> IsPlan(plan, input.Launchable(kubeArch), input.vSwitches))
             && (input.Accepted() ==> Followed(provider, plan, first, |types|, r, made, before, after))
    ensures OnEligibleVSwitches(made, nodeClass, requirements)
    ensures r.Ok? ==> NewNode(provider, r.value, after, nodeClass.status)
    ensures r.Ok? ==> LaunchedLastAttempt(provider, r.value, made, first, before, after)
    ensures r.Err? ==> after == before
  {
    hide Followed, IsPlan, Conforms, InstanceProvider.Recorded, Outcomes, AllFail, CapacityFailure;
    var input := InputsOf(nodeClass, requirements, types);
    if input.Accepted() {
      LaunchIsAPrefix(provider, plan, input.Launchable(kubeArch), input.vSwitches, first, r, made, before, after);
      AttemptsAreEligible(plan, made, nodeClass, requirements, types, kubeArch);
      if r.Ok? {
        LaunchedLast(provider, made, first, r.value);
      }
      if r.Ok? && provider.ReportsGroups() {
        AttemptConforms(provider, plan, |made| - 1, nodeClass, requirements, types, kubeArch);
      }
    }
  }

  // ----- a new node is not drifted

  /** The later lists still hold what the earlier ones do, with the same security groups. */
  predicate StillListed(status: Status, later: Status) {
    && (forall i :: 0 <= i < |status.images| ==> ImageAllowed(status.images[i].id, later.images))
    && (forall i :: 0 <= i < |status.vSwitches| ==> VSwitchAllowed(status.vSwitches[i].id, later.vSwitches))
    && Elements(GroupIDs(later.securityGroups)) == Elements(GroupIDs(status.securityGroups))
  }

  /**
   A claim returned by Create, compared later: the instance is found by its provider ID exactly
   when its ID has no dot, and then the node is not drifted exactly when the spec hashes the same
   and the instance still conforms; it does as long as everything stays listed.
   */
  lemma NewNodeIsNotDrifted(
    provider: InstanceProvider, original: NodeClaim, nodeClass: NodeClass, region: string, hash: Spec -> string,
    claim: NodeClaim, id: string, made: seq<CreateOptions>, calls: nat,
    before: map<string, Instance>, after: map<string, Instance>, later: NodeClass)
    requires Concluded(provider, original, nodeClass, region, hash, Ok(claim), id, made, calls, before, after)
    requires provider.ReportsGroups()
    ensures FromProviderID(claim.providerID) == id <==> '.' !in id
    ensures var sameHash := hash(later.spec) == hash(nodeClass.spec);
            && (IsReason(NoDrift, claim, after[id], later, hash) <==> sameHash && Conforms(after[id], later.status))
            && (StillListed(nodeClass.status, later.status) ==> Conforms(after[id], later.status))
  {
    ProviderIDRoundTrip(region, id);
    HashKeysDiffer();
    hide InstanceProvider.Recorded;
    if StillListed(nodeClass.status, later.status) {
      var instance := after[id];
      var i :| 0 <= i < |nodeClass.status.images| && nodeClass.status.images[i].id == instance.imageID;
      var j :| 0 <= j < |nodeClass.status.vSwitches| && nodeClass.status.vSwitches[j].id == instance.vSwitchID;
      assert ImageAllowed(instance.imageID, later.status.images);
      assert VSwitchAllowed(instance.vSwitchID, later.status.vSwitches);
    }
  }

  /** IsDrifted gives exactly one answer. */
  lemma OneReason(claim: NodeClaim, instance: Instance, nodeClass: NodeClass, hash: Spec -> string, a: Drift, b: Drift)
    requires IsReason(a, claim, instance, nodeClass, hash) && IsReason(b, claim, instance, nodeClass, hash)
    ensures a == b
  {
  }

  lemma StaysListed(status: Status)
    ensures StillListed(status, status)
  {
  }

  /**
   Create followed by IsDrifted, when ECS shows the instance and its ID can be read back from a
   provider ID: no drift while the spec hashes the same and everything stays listed, as it does
   when nothing changes.
   */
  method CreateThenCheck(
    provider: InstanceProvider, original: NodeClaim, requirements: seq<Requirement>, nodeClass: NodeClass,
    types: seq<InstanceType>, region: string, kubeArch: string -> string, hash: Spec -> string, later: NodeClass)
    returns (created: Result<NodeClaim, CreateError>, drift: Result<Drift, DriftError>)
    requires provider.ReportsGroups()
    requires forall i, id :: provider.answers(i) == Launched(id) ==> id != "" && '.' !in id
    modifies provider
    ensures created.Ok? && hash(later.spec) == hash(nodeClass.spec) && StillListed(nodeClass.status, later.status) ==>
              drift == Ok(NoDrift)
    ensures created.Ok? && later == nodeClass ==> drift == Ok(NoDrift)
  {
    hide LaunchedLastAttempt, Conforms, IsReason, StillListed, OnEligibleVSwitches, InPriorityOrder, AllHaveSettings;
    drift := Err(InstanceUnknown);
    ghost var id, made;
    ghost var calls, before := |provider.calls|, provider.instances;
    created, id, made := Create(provider, original, requirements, nodeClass, types, region, kubeArch, hash, true);
    if created.Ok? {
      drift := IsDrifted(provider, created.value, later, hash, true);
      StaysListed(nodeClass.status);
      NewNodeIsNotDrifted(provider, original, nodeClass, region, hash, created.value, id, made, calls,
                          before, provider.instances, later);
      LastLaunch(provider, id, made, calls, before, provider.instances);
      if drift.Ok? && IsReason(NoDrift, created.value, provider.instances[id], later, hash) {
        OneReason(created.value, provider.instances[id], later, hash, drift.value, NoDrift);
      }
    }
  }

  lemma LastLaunch(
    provider: InstanceProvider, id: string, made: seq<CreateOptions>, calls: nat,
    before: map<string, Instance>, after: map<string, Instance>)
    requires LaunchedLastAttempt(provider, id, made, calls, before, after)
    ensures made != [] && provider.answers(calls + |made| - 1) == Launched(id)
  {
  }
}
