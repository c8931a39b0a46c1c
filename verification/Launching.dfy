/**
 pkg/cloudprovider/cloudprovider.go: the launch fallback over instance types and vSwitches, and
 Provider.Create of pkg/providers/instance/instance.go below it.
 */
module Launching {
  import opened Wrappers
  import opened Ordering
  import opened SecurityGroups
  import opened CapacityErrors
  import VSwitches
  import NodeClassDisks

  type VSwitch = VSwitches.VSwitch

  datatype CreateOptions = CreateOptions(
    instanceType: string, imageID: string, vSwitchID: string, securityGroupIDs: seq<string>,
    ramRoleName: string, disks: NodeClassDisks.NormalizedDisks, spotStrategy: string, spotPriceLimit: Option<real>)

  // ----- the instance provider and ECS behind it

  /** What RunInstances answers. */
  datatype EcsAnswer = Launched(instanceID: string) | Refused(message: string) | NoInstance | NilInstance

  datatype Instance = Instance(instanceType: string, imageID: string, vSwitchID: string, securityGroupIDs: seq<string>)

  /** What Provider.Create returns for one set of options and one answer of ECS. */
  function Outcome(o: CreateOptions, answer: EcsAnswer): Result<string, string> {
    if o.securityGroupIDs == [] then Err("at least one security group ID is required")
    else if "" in o.securityGroupIDs then Err("security group ID cannot be empty")
    else
      match answer
      case Launched(id) => Ok(id)
      case Refused(message) => Err(CREATE_FAILED + message)
      case NoInstance => Err("no instance ID returned from ECS API")
      case NilInstance => Err("instance ID is nil in ECS API response")
  }

  predicate CapacityFailure(r: Result<string, string>) {
    r.Err? && IsInsufficientCapacity(r.error)
  }

  /** `answers` and the order in which ECS lists security groups are arbitrary. */
  class InstanceProvider {
    const answers: nat -> EcsAnswer
    const listed: seq<string> -> seq<string>
    var calls: seq<CreateOptions>
    var instances: map<string, Instance>

    /** ECS reports the security groups an instance was launched with, in any order. */
    ghost predicate ReportsGroups() {
      forall groups :: Elements(listed(groups)) == Elements(groups)
    }

    constructor (answers: nat -> EcsAnswer, listed: seq<string> -> seq<string>)
      ensures this.answers == answers && this.listed == listed && calls == [] && instances == map[]
    {
      this.answers, this.listed, calls, instances := answers, listed, [], map[];
    }

    method Create(o: CreateOptions) returns (r: Result<string, string>)
      modifies this
      ensures calls == old(calls) + [o]
      ensures r == Outcome(o, answers(|old(calls)|))
      ensures instances == if r.Ok? then old(instances)[r.value := Recorded(o)] else old(instances)
    {
      var answer := answers(|calls|);
      calls := calls + [o];
      var groups := NormalizeIDs(o.securityGroupIDs);
      assert o.securityGroupIDs != [] ==> o.securityGroupIDs[0] in groups;
      if |groups| == 0 {
        return Err("at least one security group ID is required");
      }
      assert groups[0] in o.securityGroupIDs;
      for i := 0 to |groups|
        invariant forall j :: 0 <= j < i ==> groups[j] != ""
      {
        if groups[i] == "" {
          return Err("security group ID cannot be empty");
        }
      }
      assert "" !in groups;
      match answer
      case Launched(id) =>
        instances := instances[id := Instance(o.instanceType, o.imageID, o.vSwitchID, listed(groups))];
        return Ok(id);
      case Refused(message) =>
        return Err(CREATE_FAILED + message);
      case NoInstance =>
        return Err("no instance ID returned from ECS API");
      case NilInstance =>
        return Err("instance ID is nil in ECS API response");
    }

    ghost function Recorded(o: CreateOptions): Instance {
      Instance(o.instanceType, o.imageID, o.vSwitchID, listed(NormalizedIDs(o.securityGroupIDs)))
    }
  }

  /** An instance comes of usable security groups and an answer with its ID, and of nothing else. */
  lemma OnlyLaunchesSucceed(o: CreateOptions, answer: EcsAnswer, id: string)
    ensures Outcome(o, answer) == Ok(id) <==>
            answer == Launched(id) && o.securityGroupIDs != [] && forall g :: g in o.securityGroupIDs ==> |g| > 0
  {
    assert forall g: string :: |g| > 0 <==> g != "";
  }

  /** ECS records the instance the options describe. */
  lemma RecordedAsAsked(provider: InstanceProvider, o: CreateOptions)
    ensures var instance := provider.Recorded(o);
            && instance.instanceType == o.instanceType && instance.imageID == o.imageID
            && instance.vSwitchID == o.vSwitchID
            && (provider.ReportsGroups() ==> forall g :: g in instance.securityGroupIDs <==> g in o.securityGroupIDs)
  {
    if provider.ReportsGroups() {
      var ids := NormalizedIDs(o.securityGroupIDs);
      assert Elements(provider.listed(ids)) == Elements(ids);
      forall g ensures g in provider.listed(ids) <==> g in o.securityGroupIDs {
        assert g in provider.listed(ids) <==> g in Elements(provider.listed(ids));
      }
    }
  }

  /** Classifying what Create returns classifies the raw ECS error. */
  lemma OutcomeClassifiesRawError(o: CreateOptions, message: string)
    requires o.securityGroupIDs != [] && "" !in o.securityGroupIDs
    ensures CapacityFailure(Outcome(o, Refused(message))) <==> IsInsufficientCapacity(message)
  {
    CreateFailedIsWrapper();
    WrappingKeepsClassification(CREATE_FAILED, message);
  }

  // ----- attempts in a given order

  /** The outcomes of a plan whose first attempt is call number `first`. */
  function Outcomes(plan: seq<CreateOptions>, answers: nat -> EcsAnswer, first: nat): (rs: seq<Result<string, string>>)
    ensures |rs| == |plan|
  {
    seq(|plan|, j requires 0 <= j < |plan| => Outcome(plan[j], answers(first + j)))
  }

  /** The number of attempts that fail for capacity before the first that does not. */
  function Settled(outcomes: seq<Result<string, string>>): (k: nat)
    ensures k <= |outcomes|
    ensures AllFail(outcomes, k)
    ensures k < |outcomes| ==> !CapacityFailure(outcomes[k])
  {
    if outcomes == [] || !CapacityFailure(outcomes[0]) then 0 else 1 + Settled(outcomes[1..])
  }

  predicate AllFail(outcomes: seq<Result<string, string>>, k: nat)
    requires k <= |outcomes|
  {
    forall j :: 0 <= j < k ==> CapacityFailure(outcomes[j])
  }

  /** Settled is the only such number. */
  lemma SettledIsUnique(outcomes: seq<Result<string, string>>, k: nat)
    requires k <= |outcomes| && AllFail(outcomes, k)
    requires k < |outcomes| ==> !CapacityFailure(outcomes[k])
    ensures Settled(outcomes) == k
  {
  }

  predicate Exhausted(outcomes: seq<Result<string, string>>) {
    Settled(outcomes) == |outcomes|
  }

  /** The number of attempts made. */
  function Attempts(outcomes: seq<Result<string, string>>): (n: nat)
    ensures n <= |outcomes|
  {
    if Exhausted(outcomes) then |outcomes| else Settled(outcomes) + 1
  }

  /** The error of attempt `k - 1`, as fmt prints it after a loop that made none. */
  function LastError(outcomes: seq<Result<string, string>>, k: nat): (e: string)
    requires k <= |outcomes| && AllFail(outcomes, k)
    ensures k > 0 ==> IsInsufficientCapacity(e)
  {
    if k == 0 then "%!w(<nil>)" else outcomes[k - 1].error
  }

  // ----- vswitchFallbackCreate

  predicate MoreFreeIPs(a: VSwitch, b: VSwitch) {
    a.availableIPAddressCount >= b.availableIPAddressCount
  }

  /** A permutation of the vSwitches by non-increasing free IP count. */
  ghost predicate IsOrder(order: seq<VSwitch>, vSwitches: seq<VSwitch>) {
    && multiset(order) == multiset(vSwitches)
    && forall i, j :: 0 <= i < j < |order| ==> order[i].availableIPAddressCount >= order[j].availableIPAddressCount
  }

  lemma SortedIsOrder(order: seq<VSwitch>, vSwitches: seq<VSwitch>)
    requires multiset(order) == multiset(vSwitches) && SortedBy(order, MoreFreeIPs)
    ensures IsOrder(order, vSwitches)
  {
    forall i, j | 0 <= i < j < |order|
      ensures order[i].availableIPAddressCount >= order[j].availableIPAddressCount
    {
      assert MoreFreeIPs(order[i], order[j]);
    }
  }

  function On(base: CreateOptions, vSwitch: VSwitch): CreateOptions {
    base.(vSwitchID := vSwitch.id)
  }

  /** One instance type on every vSwitch in turn. */
  function Block(base: CreateOptions, order: seq<VSwitch>): (plan: seq<CreateOptions>)
    ensures |plan| == |order|
  {
    seq(|order|, j requires 0 <= j < |order| => On(base, order[j]))
  }

  function FallbackResult(outcomes: seq<Result<string, string>>): Result<string, string> {
    if Exhausted(outcomes) then Err(VSWITCHES_EXHAUSTED + LastError(outcomes, |outcomes|))
    else
      match outcomes[Settled(outcomes)]
      case Ok(id) => Ok(id)
      case Err(e) => Err(CREATE_FAILED + e)
  }

  /** Only an attempt that succeeded created an instance; `made[k]` is what attempt k would create. */
  function Created(before: map<string, Instance>, outcomes: seq<Result<string, string>>, made: seq<Instance>)
    : map<string, Instance>
    requires |made| == |outcomes|
  {
    var n := Settled(outcomes);
    if n < |outcomes| && outcomes[n].Ok? then before[outcomes[n].value := made[n]] else before
  }

  ghost function Made(provider: InstanceProvider, plan: seq<CreateOptions>): (made: seq<Instance>)
    ensures |made| == |plan|
  {
    seq(|plan|, j requires 0 <= j < |plan| => provider.Recorded(plan[j]))
  }

  /** What falling back along a plan, from call number `first` on, calls, returns and creates. */
  ghost predicate FellBack(
    provider: InstanceProvider, plan: seq<CreateOptions>, first: nat, r: Result<string, string>,
    tried: seq<CreateOptions>, before: map<string, Instance>, after: map<string, Instance>)
  {
    var outcomes := Outcomes(plan, provider.answers, first);
    && tried == plan[..Attempts(outcomes)]
    && r == FallbackResult(outcomes)
    && after == Created(before, outcomes, Made(provider, plan))
  }

  method VSwitchFallbackCreate(provider: InstanceProvider, base: CreateOptions, vSwitches: seq<VSwitch>)
    returns (r: Result<string, string>, ghost order: seq<VSwitch>, ghost tried: seq<CreateOptions>)
    modifies provider
    ensures IsOrder(order, vSwitches)
    ensures provider.calls == old(provider.calls) + tried
    ensures FellBack(provider, Block(base, order), |old(provider.calls)|, r, tried,
                     old(provider.instances), provider.instances)
  {
    hide IsOrder;
    var sorted := SortBy(vSwitches, MoreFreeIPs);
    SortedIsOrder(sorted, vSwitches);
    order := sorted;
    ghost var plan := Block(base, order);
    ghost var outcomes := Outcomes(plan, provider.answers, |provider.calls|);
    ghost var made := Made(provider, plan);
    var lastErr := "%!w(<nil>)";
    for i := 0 to |sorted|
      invariant provider.calls == old(provider.calls) + plan[..i]
      invariant provider.instances == old(provider.instances)
      invariant AllFail(outcomes, i) && lastErr == LastError(outcomes, i)
    {
      var opts := base.(vSwitchID := sorted[i].id);
      var created := provider.Create(opts);
      assert plan[i] == opts && plan[..i + 1] == plan[..i] + [opts];
      assert created == outcomes[i];
      if created.Ok? {
        SettlesAt(outcomes, i, old(provider.instances), made);
        return Ok(created.value), order, plan[..i + 1];
      }
      if !IsInsufficientCapacity(created.error) {
        SettlesAt(outcomes, i, old(provider.instances), made);
        return Err(CREATE_FAILED + created.error), order, plan[..i + 1];
      }
      lastErr := created.error;
    }
    Exhausts(outcomes, provider.instances, made);
    assert plan[..|plan|] == plan;
    return Err(VSWITCHES_EXHAUSTED + lastErr), order, plan;
  }

  lemma SettlesAt(outcomes: seq<Result<string, string>>, i: nat, before: map<string, Instance>, made: seq<Instance>)
    requires i < |outcomes| == |made| && AllFail(outcomes, i) && !CapacityFailure(outcomes[i])
    ensures Attempts(outcomes) == i + 1
    ensures FallbackResult(outcomes) == if outcomes[i].Ok? then outcomes[i] else Err(CREATE_FAILED + outcomes[i].error)
    ensures Created(before, outcomes, made) ==
            if outcomes[i].Ok? then before[outcomes[i].value := made[i]] else before
  {
    SettledIsUnique(outcomes, i);
  }

  lemma Exhausts(outcomes: seq<Result<string, string>>, before: map<string, Instance>, made: seq<Instance>)
    requires AllFail(outcomes, |outcomes|) && |made| == |outcomes|
    ensures Attempts(outcomes) == |outcomes|
    ensures FallbackResult(outcomes) == Err(VSWITCHES_EXHAUSTED + LastError(outcomes, |outcomes|))
    ensures Created(before, outcomes, made) == before
  {
    SettledIsUnique(outcomes, |outcomes|);
  }

  /**
   What the caller of the fallback reads off the wrapped message is whether every attempt
   failed for capacity.
   */
  lemma FallbackClassifiesExhaustion(outcomes: seq<Result<string, string>>)
    requires outcomes != []
    ensures CapacityFailure(FallbackResult(outcomes)) <==> Exhausted(outcomes)
  {
    if Exhausted(outcomes) {
      VSwitchesExhaustedIsWrapper();
      WrappingKeepsClassification(VSWITCHES_EXHAUSTED, LastError(outcomes, |outcomes|));
    } else {
      var r := outcomes[Settled(outcomes)];
      if r.Err? {
        CreateFailedIsWrapper();
        WrappingKeepsClassification(CREATE_FAILED, r.error);
      }
    }
  }
}
