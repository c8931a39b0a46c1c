/**
 pkg/cloudprovider/cloudprovider.go, createInstanceWithRetry: every instance type in order, each
 on every vSwitch.
 */
module LaunchPlans {
  import opened Wrappers
  import opened Requirements
  import opened Ordering
  import opened SecurityGroups
  import opened CapacityErrors
  import opened LaunchChoices
  import opened Launching
  import LabelValues
  import NodeClassDisks

  datatype InstanceType = InstanceType(name: string, architecture: string)

  datatype SecurityGroup = SecurityGroup(id: string, name: string)

  /** The part of an ECSNodeClass spec a launch reads. */
  datatype Spec = Spec(
    disks: NodeClassDisks.Spec, role: Option<string>, spotStrategy: Option<string>, spotPriceLimit: Option<real>)

  datatype Readiness = Ready | NotReady | UnknownReady

  datatype Status = Status(
    readiness: Readiness, images: seq<Image>, vSwitches: seq<LaunchChoices.VSwitch>,
    securityGroups: seq<SecurityGroup>, ramRole: Option<string>)

  datatype NodeClass = NodeClass(spec: Spec, status: Status)

  datatype LaunchError =
    | MissingParameters
    | RoleNotResolved(role: string)
    | RoleMismatch(resolved: string, role: string)
    | BadDisks(fault: NodeClassDisks.Fault)
    | Failed(message: string)

  // ----- what every attempt has in common

  function GroupIDs(groups: seq<SecurityGroup>): seq<string> {
    seq(|groups|, i requires 0 <= i < |groups| => groups[i].id)
  }

  /** validateRAMRoleForCreate */
  function RoleForCreate(nodeClass: NodeClass): (r: Result<string, LaunchError>)
    ensures r.Ok? <==> nodeClass.spec.role.Some? ==> nodeClass.status.ramRole == nodeClass.spec.role
    ensures r.Ok? ==> r.value == nodeClass.spec.role.GetOr("")
  {
    match nodeClass.spec.role
    case None => Ok("")
    case Some(role) =>
      match nodeClass.status.ramRole
      case None => Err(RoleNotResolved(role))
      case Some(resolved) => if resolved != role then Err(RoleMismatch(resolved, role)) else Ok(resolved)
  }

  datatype Inputs = Inputs(
    nodeClass: NodeClass, requirements: seq<Requirement>, types: seq<InstanceType>, images: seq<Image>,
    vSwitches: seq<LaunchChoices.VSwitch>, groups: seq<SecurityGroup>)
  {
    predicate Complete() {
      types != [] && images != [] && vSwitches != [] && groups != []
    }

    predicate Accepted() {
      Complete() && RoleForCreate(nodeClass).Ok? && NodeClassDisks.WellFormed(nodeClass.spec.disks)
    }

    /** What is the same for every instance type. */
    ghost function Shared(): CreateOptions
      requires Accepted()
    {
      CreateOptions(
        "", "", "", NormalizedIDs(GroupIDs(groups)), nodeClass.spec.role.GetOr(""),
        NodeClassDisks.Effective(nodeClass.spec.disks),
        SpotStrategy(CapacityType(requirements), nodeClass.spec.spotStrategy),
        if WantsSpot(requirements) then nodeClass.spec.spotPriceLimit else None)
    }

    ghost function Launchable(kubeArch: string -> string): seq<CreateOptions>
      requires Accepted()
    {
      Bases(Shared(), types, images, kubeArch)
    }
  }

  /** The options for one instance type, before a vSwitch is chosen. */
  function Base(shared: CreateOptions, t: InstanceType, images: seq<Image>, kubeArch: string -> string): CreateOptions
    requires images != []
  {
    shared.(instanceType := t.name, imageID := ImageFor(images, t.architecture, kubeArch).id)
  }

  function Bases(
    shared: CreateOptions, types: seq<InstanceType>, images: seq<Image>, kubeArch: string -> string)
    : (bases: seq<CreateOptions>)
    requires images != []
    ensures |bases| == |types|
  {
    seq(|types|, i requires 0 <= i < |types| => Base(shared, types[i], images, kubeArch))
  }

  // ----- the whole plan: instance types in order, each on every vSwitch in some order by free IPs

  function Plan(bases: seq<CreateOptions>, orders: seq<seq<LaunchChoices.VSwitch>>): seq<CreateOptions>
    requires |bases| == |orders|
  {
    if bases == [] then []
    else
      var n := |bases| - 1;
      Plan(bases[..n], orders[..n]) + Block(bases[n], orders[n])
  }

  ghost predicate AreOrders(orders: seq<seq<LaunchChoices.VSwitch>>, vSwitches: seq<LaunchChoices.VSwitch>) {
    forall i :: 0 <= i < |orders| ==> IsOrder(orders[i], vSwitches)
  }

  ghost predicate IsPlan(plan: seq<CreateOptions>, bases: seq<CreateOptions>, vSwitches: seq<LaunchChoices.VSwitch>) {
    exists orders :: |orders| == |bases| && AreOrders(orders, vSwitches) && plan == Plan(bases, orders)
  }

  lemma {:induction false} PlanAcross(
    a: seq<CreateOptions>, b: seq<CreateOptions>,
    x: seq<seq<LaunchChoices.VSwitch>>, y: seq<seq<LaunchChoices.VSwitch>>)
    requires |a| == |x| && |b| == |y|
    ensures Plan(a + b, x + y) == Plan(a, x) + Plan(b, y)
    decreases |b|
  {
    if b == [] {
      assert a + b == a && x + y == x;
    } else {
      var n := |b| - 1;
      PlanAcross(a, b[..n], x, y[..n]);
      PlanEnds(a + b, x + y, a + b[..n], x + y[..n]);
      PlanEnds(b, y, b[..n], y[..n]);
      JoinedCalls(Plan(a, x), Plan(b[..n], y[..n]), Block(b[n], y[n]));
    }
  }

  lemma PlanEnds(
    bases: seq<CreateOptions>, orders: seq<seq<LaunchChoices.VSwitch>>,
    front: seq<CreateOptions>, frontOrders: seq<seq<LaunchChoices.VSwitch>>)
    requires |bases| == |orders| == |front| + 1 == |frontOrders| + 1
    requires bases[..|front|] == front && orders[..|front|] == frontOrders
    ensures Plan(bases, orders) == Plan(front, frontOrders) + Block(bases[|front|], orders[|front|])
  {
  }

  /** Attempt i * m + j is instance type i on the j-th of its m vSwitches. */
  lemma {:induction false} PlanShape(
    bases: seq<CreateOptions>, orders: seq<seq<LaunchChoices.VSwitch>>, vSwitches: seq<LaunchChoices.VSwitch>)
    requires |bases| == |orders| && AreOrders(orders, vSwitches)
    ensures |Plan(bases, orders)| == |bases| * |vSwitches|
    ensures forall i, j :: 0 <= i < |bases| && 0 <= j < |vSwitches| ==> IsAttempt(bases, orders, |vSwitches|, i, j)
    decreases |bases|
  {
    if bases != [] {
      var n, m := |bases| - 1, |vSwitches|;
      assert AreOrders(orders[..n], vSwitches);
      PlanShape(bases[..n], orders[..n], vSwitches);
      assert |orders[n]| == m by {
        assert IsOrder(orders[n], vSwitches);
        PermutationKeepsElements(orders[n], vSwitches);
      }
      assert (n + 1) * m == n * m + m;
      forall i, j | 0 <= i <= n && 0 <= j < m ensures IsAttempt(bases, orders, m, i, j) {
        if i < n {
          assert IsAttempt(bases[..n], orders[..n], m, i, j);
        }
      }
    }
  }

  predicate IsAttempt(
    bases: seq<CreateOptions>, orders: seq<seq<LaunchChoices.VSwitch>>, m: nat, i: nat, j: nat)
    requires |bases| == |orders| && i < |bases| && j < m
  {
    && |orders[i]| == m && i * m + j < |Plan(bases, orders)|
    && Plan(bases, orders)[i * m + j] == On(bases[i], orders[i][j])
  }

  /** Every attempt is one of the bases on one of the vSwitches. */
  lemma {:induction false} PlanMembers(
    bases: seq<CreateOptions>, orders: seq<seq<LaunchChoices.VSwitch>>, vSwitches: seq<LaunchChoices.VSwitch>, k: nat)
    returns (i: nat, v: LaunchChoices.VSwitch)
    requires |bases| == |orders| && AreOrders(orders, vSwitches) && k < |Plan(bases, orders)|
    ensures i < |bases| && v in vSwitches && Plan(bases, orders)[k] == On(bases[i], v)
    decreases |bases|
  {
    var n := |bases| - 1;
    var before := Plan(bases[..n], orders[..n]);
    if k < |before| {
      i, v := PlanMembers(bases[..n], orders[..n], vSwitches, k);
    } else {
      i, v := n, orders[n][k - |before|];
      assert IsOrder(orders[n], vSwitches);
      PermutationKeepsElements(orders[n], vSwitches);
    }
  }

  // ----- the calls of a plan, in terms of the inputs of the launch

  /** The ID of the first image of the architecture; without one, of the first image. */
  ghost predicate IsImageFor(id: string, images: seq<Image>, architecture: string, kubeArch: string -> string) {
    if exists image :: image in images && kubeArch(image.architecture) == architecture then
      exists i: nat :: IsFirstOf(images, i, architecture, kubeArch) && images[i].id == id
    else images != [] && id == images[0].id
  }

  /** Call k is for instance type k / m, on the (k % m)-th vSwitch of that type's order. */
  ghost predicate IsCall(
    call: CreateOptions, k: nat, types: seq<InstanceType>, images: seq<Image>,
    orders: seq<seq<LaunchChoices.VSwitch>>, m: nat, kubeArch: string -> string)
  {
    && m > 0 && k / m < |types| && k / m < |orders| && |orders[k / m]| == m
    && call.instanceType == types[k / m].name
    && IsImageFor(call.imageID, images, types[k / m].architecture, kubeArch)
    && call.vSwitchID == orders[k / m][k % m].id
  }

  /** The calls go through the instance types in their order, and through all vSwitches for each. */
  ghost predicate InPriorityOrder(
    made: seq<CreateOptions>, types: seq<InstanceType>, images: seq<Image>, vSwitches: seq<LaunchChoices.VSwitch>,
    kubeArch: string -> string)
  {
    made == [] || exists orders: seq<seq<LaunchChoices.VSwitch>> ::
      && |orders| == |types| && (forall i :: 0 <= i < |orders| ==> IsOrder(orders[i], vSwitches))
      && forall k :: 0 <= k < |made| ==> IsCall(made[k], k, types, images, orders, |vSwitches|, kubeArch)
  }

  predicate AsksForSpot(requirements: seq<Requirement>) {
    exists r :: r in requirements && r.key == "karpenter.sh/capacity-type" && r.operator == In && "spot" in r.values
  }

  /** The role, groups, disks and spot settings of a call are those of the NodeClass and the NodeClaim. */
  ghost predicate HasSettings(
    call: CreateOptions, spec: Spec, groups: seq<SecurityGroup>, requirements: seq<Requirement>)
  {
    && (match spec.role case None => call.ramRoleName == "" case Some(role) => call.ramRoleName == role)
    && StrictlySorted(call.securityGroupIDs)
    && (forall id :: id in call.securityGroupIDs <==> exists g :: g in groups && g.id == id)
    && NodeClassDisks.KeepsDisks(spec.disks, call.disks)
    && HasSpotSettings(call, spec, AsksForSpot(requirements))
  }

  predicate HasSpotSettings(call: CreateOptions, spec: Spec, spot: bool) {
    if !spot then call.spotStrategy == "NoSpot" && call.spotPriceLimit == None
    else
      && call.spotPriceLimit == spec.spotPriceLimit
      && call.spotStrategy == if spec.spotStrategy.Some? && IsPriceLimited(spec.spotStrategy.value)
                              then "SpotWithPriceLimit" else "SpotAsPriceGo"
  }

  predicate IsPriceLimited(strategy: string) {
    LabelValues.Trim(strategy, LabelValues.IsSpace) == "SpotWithPriceLimit"
  }

  ghost predicate AllHaveSettings(
    made: seq<CreateOptions>, spec: Spec, groups: seq<SecurityGroup>, requirements: seq<Requirement>)
  {
    forall k :: 0 <= k < |made| ==> HasSettings(made[k], spec, groups, requirements)
  }

  lemma RowAndColumn(
    bases: seq<CreateOptions>, orders: seq<seq<LaunchChoices.VSwitch>>, vSwitches: seq<LaunchChoices.VSwitch>, k: nat)
    requires |bases| == |orders| && AreOrders(orders, vSwitches) && vSwitches != [] && k < |Plan(bases, orders)|
    ensures var m := |vSwitches|;
            k / m < |bases| && k % m < m && k / m * m + k % m == k && IsAttempt(bases, orders, m, k / m, k % m)
  {
    hide IsAttempt, Plan, AreOrders;
    PlanShape(bases, orders, vSwitches);
    Divided(k, |bases|, |vSwitches|);
  }

  lemma Divided(k: nat, n: nat, m: nat)
    requires m > 0 && k < n * m
    ensures k / m < n && k % m < m && k / m * m + k % m == k
  {
    assert forall q: nat :: q >= n ==> q * m >= n * m;
  }

  lemma AttemptIsCall(
    shared: CreateOptions, types: seq<InstanceType>, images: seq<Image>, orders: seq<seq<LaunchChoices.VSwitch>>,
    m: nat, k: nat, kubeArch: string -> string)
    requires images != [] && |orders| == |types| && m > 0 && k / m < |types|
    requires IsAttempt(Bases(shared, types, images, kubeArch), orders, m, k / m, k % m) && k / m * m + k % m == k
    ensures var plan := Plan(Bases(shared, types, images, kubeArch), orders);
            k < |plan| && IsCall(plan[k], k, types, images, orders, m, kubeArch)
  {
    hide Plan, ImageFor, IsImageFor;
    ImageForSuits(images, types[k / m].architecture, kubeArch);
  }

  lemma ImageForSuits(images: seq<Image>, architecture: string, kubeArch: string -> string)
    requires images != []
    ensures IsImageFor(ImageFor(images, architecture, kubeArch).id, images, architecture, kubeArch)
  {
    ImageForIsFirst(images, architecture, kubeArch);
  }

  lemma PlansAreInPriorityOrder(
    plan: seq<CreateOptions>, made: seq<CreateOptions>, shared: CreateOptions, types: seq<InstanceType>,
    images: seq<Image>, vSwitches: seq<LaunchChoices.VSwitch>, kubeArch: string -> string)
    requires images != [] && vSwitches != [] && made <= plan
    requires IsPlan(plan, Bases(shared, types, images, kubeArch), vSwitches)
    ensures InPriorityOrder(made, types, images, vSwitches, kubeArch)
  {
    var bases, m := Bases(shared, types, images, kubeArch), |vSwitches|;
    var orders :| |orders| == |bases| && AreOrders(orders, vSwitches) && plan == Plan(bases, orders);
    hide IsOrder, Plan, Bases, IsCall;
    forall k | 0 <= k < |made| ensures IsCall(made[k], k, types, images, orders, m, kubeArch) {
      RowAndColumn(bases, orders, vSwitches, k);
      AttemptIsCall(shared, types, images, orders, m, k, kubeArch);
    }
  }

  lemma PlansHaveSettings(
    plan: seq<CreateOptions>, made: seq<CreateOptions>, input: Inputs, kubeArch: string -> string)
    requires input.Accepted() && made <= plan
    requires IsPlan(plan, input.Launchable(kubeArch), input.vSwitches)
    ensures AllHaveSettings(made, input.nodeClass.spec, input.groups, input.requirements)
  {
    hide HasSettings, IsPlan;
    forall k | 0 <= k < |made|
      ensures HasSettings(made[k], input.nodeClass.spec, input.groups, input.requirements)
    {
      var i, v := AttemptsStayInside(plan, input.Launchable(kubeArch), input.vSwitches, k);
      assert made[k] == On(Base(input.Shared(), input.types[i], input.images, kubeArch), v);
      SharedHasSettings(input, made[k]);
    }
  }

  lemma SharedHasSettings(input: Inputs, call: CreateOptions)
    requires input.Accepted()
    requires call == input.Shared().(instanceType := call.instanceType, imageID := call.imageID,
                                     vSwitchID := call.vSwitchID)
    ensures HasSettings(call, input.nodeClass.spec, input.groups, input.requirements)
  {
    hide NodeClassDisks.WellFormed, NodeClassDisks.KeepsDisks;
    var spec := input.nodeClass.spec;
    NodeClassDisks.EffectiveKeepsDisks(spec.disks);
    GroupIDsAreListed(input.groups);
    assert WantsSpot(input.requirements) <==> AsksForSpot(input.requirements) by {
      forall r | r in input.requirements
        ensures AllowsSpot(r) <==> r.key == "karpenter.sh/capacity-type" && r.operator == In && "spot" in r.values
      {
      }
    }
    SpotStrategyMatchesCapacityType(CapacityType(input.requirements), spec.spotStrategy);
  }

  lemma GroupIDsAreListed(groups: seq<SecurityGroup>)
    ensures StrictlySorted(NormalizedIDs(GroupIDs(groups)))
    ensures forall id :: id in NormalizedIDs(GroupIDs(groups)) <==> exists g :: g in groups && g.id == id
  {
    forall id ensures id in GroupIDs(groups) <==> exists g :: g in groups && g.id == id {
      if g :| g in groups && g.id == id {
        var i :| 0 <= i < |groups| && groups[i] == g;
        assert GroupIDs(groups)[i] == id;
      }
    }
  }

  // ----- running it

  function LaunchResult(outcomes: seq<Result<string, string>>, types: nat): Result<string, LaunchError> {
    if Exhausted(outcomes) then
      Err(Failed(TypesExhausted(Decimal(types)) + (VSWITCHES_EXHAUSTED + LastError(outcomes, |outcomes|))))
    else
      match outcomes[Settled(outcomes)]
      case Ok(id) => Ok(id)
      case Err(e) => Err(Failed(CREATE_FAILED + (CREATE_FAILED + e)))
  }

  lemma OutcomesAcross(a: seq<CreateOptions>, b: seq<CreateOptions>, answers: nat -> EcsAnswer, first: nat)
    ensures Outcomes(a + b, answers, first) == Outcomes(a, answers, first) + Outcomes(b, answers, first + |a|)
  {
    var whole := Outcomes(a + b, answers, first);
    var joined := Outcomes(a, answers, first) + Outcomes(b, answers, first + |a|);
    forall k | 0 <= k < |whole| ensures whole[k] == joined[k] {
      if k >= |a| {
        assert answers(first + |a| + (k - |a|)) == answers(first + k);
      }
    }
  }

  lemma MadeAcross(provider: InstanceProvider, a: seq<CreateOptions>, b: seq<CreateOptions>)
    ensures Made(provider, a + b) == Made(provider, a) + Made(provider, b)
  {
  }

  /** A block that only fails for capacity leaves the search where the next block starts. */
  lemma StillFailing(done: seq<Result<string, string>>, block: seq<Result<string, string>>)
    requires AllFail(done, |done|) && Exhausted(block) && block != []
    ensures AllFail(done + block, |done + block|)
    ensures LastError(done + block, |done + block|) == LastError(block, |block|)
  {
  }

  /** A block that settles the search settles the whole plan, whatever was to come after it. */
  lemma SettledInBlock(
    done: seq<Result<string, string>>, block: seq<Result<string, string>>, rest: seq<Result<string, string>>,
    types: nat)
    requires AllFail(done, |done|) && !Exhausted(block)
    ensures Settled(done + block + rest) == |done| + Settled(block)
    ensures Attempts(done + block + rest) == |done| + Attempts(block)
    ensures LaunchResult(done + block + rest, types) ==
            match FallbackResult(block) case Ok(id) => Ok(id) case Err(e) => Err(Failed(CREATE_FAILED + e))
  {
    var all := done + block + rest;
    forall j | 0 <= j < |done| + Settled(block) ensures CapacityFailure(all[j]) {
      if j >= |done| {
        assert all[j] == block[j - |done|];
      }
    }
    assert all[|done| + Settled(block)] == block[Settled(block)];
    SettledIsUnique(all, |done| + Settled(block));
  }

  lemma CreatedInBlock(
    done: seq<Result<string, string>>, block: seq<Result<string, string>>, rest: seq<Result<string, string>>,
    madeDone: seq<Instance>, made: seq<Instance>, madeRest: seq<Instance>, before: map<string, Instance>)
    requires AllFail(done, |done|) && !Exhausted(block)
    requires |madeDone| == |done| && |made| == |block| && |madeRest| == |rest|
    ensures Created(before, done + block + rest, madeDone + made + madeRest) == Created(before, block, made)
  {
    SettledInBlock(done, block, rest, 0);
    var n := Settled(block);
    assert (done + block + rest)[|done| + n] == block[n];
    assert (madeDone + made + madeRest)[|done| + n] == made[n];
  }

  /** What a launch along a plan does, from call number `first` on. */
  ghost predicate Followed(
    provider: InstanceProvider, plan: seq<CreateOptions>, first: nat, types: nat, r: Result<string, LaunchError>,
    calls: seq<CreateOptions>, before: map<string, Instance>, after: map<string, Instance>)
  {
    var outcomes := Outcomes(plan, provider.answers, first);
    && calls == plan[..Attempts(outcomes)]
    && r == LaunchResult(outcomes, types)
    && after == Created(before, outcomes, Made(provider, plan))
  }

  lemma FollowedToSettlement(
    provider: InstanceProvider, done: seq<CreateOptions>, block: seq<CreateOptions>, rest: seq<CreateOptions>,
    first: nat, types: nat, before: map<string, Instance>)
    requires AllFail(Outcomes(done, provider.answers, first), |done|)
    requires !Exhausted(Outcomes(block, provider.answers, first + |done|))
    ensures var outcomes := Outcomes(block, provider.answers, first + |done|);
            Followed(provider, done + block + rest, first, types,
                     match FallbackResult(outcomes) case Ok(id) => Ok(id) case Err(e) => Err(Failed(CREATE_FAILED + e)),
                     done + block[..Attempts(outcomes)],
                     before, Created(before, outcomes, Made(provider, block)))
  {
    hide Outcomes, Made, Settled, Attempts, AllFail, LaunchResult, FallbackResult, Created;
    OutcomesAcross(done, block, provider.answers, first);
    OutcomesAcross(done + block, rest, provider.answers, first);
    MadeAcross(provider, done, block);
    MadeAcross(provider, done + block, rest);
    var d, b, r := Outcomes(done, provider.answers, first), Outcomes(block, provider.answers, first + |done|),
                   Outcomes(rest, provider.answers, first + |done + block|);
    SettledInBlock(d, b, r, types);
    CreatedInBlock(d, b, r, Made(provider, done), Made(provider, block), Made(provider, rest), before);
    assert (done + block + rest)[..|done| + Attempts(b)] == done + block[..Attempts(b)];
  }

  lemma FollowedToExhaustion(
    provider: InstanceProvider, plan: seq<CreateOptions>, first: nat, types: nat, before: map<string, Instance>)
    requires AllFail(Outcomes(plan, provider.answers, first), |plan|)
    ensures var error := LastError(Outcomes(plan, provider.answers, first), |plan|);
            Followed(provider, plan, first, types,
                     Err(Failed(TypesExhausted(Decimal(types)) + (VSWITCHES_EXHAUSTED + error))), plan, before, before)
  {
    SettledIsUnique(Outcomes(plan, provider.answers, first), |plan|);
    assert plan[..|plan|] == plan;
  }

  /** Where the search stands after every instance type tried so far failed for capacity. */
  ghost predicate Searching(
    provider: InstanceProvider, bases: seq<CreateOptions>, orders: seq<seq<LaunchChoices.VSwitch>>,
    vSwitches: seq<LaunchChoices.VSwitch>, made: seq<CreateOptions>, first: nat, lastErr: string)
  {
    && |orders| <= |bases| && AreOrders(orders, vSwitches)
    && made == Plan(bases[..|orders|], orders)
    && AllFail(Outcomes(made, provider.answers, first), |made|)
    && (orders != [] ==> lastErr == VSWITCHES_EXHAUSTED + LastError(Outcomes(made, provider.answers, first), |made|))
  }

  lemma SearchStarts(
    provider: InstanceProvider, bases: seq<CreateOptions>, vSwitches: seq<LaunchChoices.VSwitch>, first: nat,
    lastErr: string)
    ensures Searching(provider, bases, [], vSwitches, [], first, lastErr)
  {
    assert AreOrders([], vSwitches);
  }

  lemma SearchGoesOn(
    provider: InstanceProvider, bases: seq<CreateOptions>, orders: seq<seq<LaunchChoices.VSwitch>>,
    vSwitches: seq<LaunchChoices.VSwitch>, made: seq<CreateOptions>, first: nat, lastErr: string,
    order: seq<LaunchChoices.VSwitch>, r: Result<string, string>, tried: seq<CreateOptions>,
    before: map<string, Instance>, after: map<string, Instance>)
    requires Searching(provider, bases, orders, vSwitches, made, first, lastErr) && |orders| < |bases|
    requires IsOrder(order, vSwitches) && vSwitches != []
    requires FellBack(provider, Block(bases[|orders|], order), first + |made|, r, tried, before, after)
    requires CapacityFailure(r)
    ensures Searching(provider, bases, orders + [order], vSwitches, made + tried, first, r.error)
    ensures after == before
  {
    var i := |orders|;
    var block := Block(bases[i], order);
    var outcomes := Outcomes(block, provider.answers, first + |made|);
    PermutationKeepsElements(order, vSwitches);
    FallbackClassifiesExhaustion(outcomes);
    assert tried == block;
    PlanEnds(bases[..i + 1], orders + [order], bases[..i], orders);
    OutcomesAcross(made, block, provider.answers, first);
    StillFailing(Outcomes(made, provider.answers, first), outcomes);
  }

  function Wrapped(r: Result<string, string>): Result<string, LaunchError> {
    match r
    case Ok(id) => Ok(id)
    case Err(e) => Err(Failed(CREATE_FAILED + e))
  }

  lemma SearchEnds(
    provider: InstanceProvider, bases: seq<CreateOptions>, orders: seq<seq<LaunchChoices.VSwitch>>,
    vSwitches: seq<LaunchChoices.VSwitch>, made: seq<CreateOptions>, first: nat, lastErr: string,
    order: seq<LaunchChoices.VSwitch>, r: Result<string, string>, tried: seq<CreateOptions>,
    before: map<string, Instance>, after: map<string, Instance>)
    returns (plan: seq<CreateOptions>)
    requires Searching(provider, bases, orders, vSwitches, made, first, lastErr) && |orders| < |bases|
    requires IsOrder(order, vSwitches) && vSwitches != []
    requires FellBack(provider, Block(bases[|orders|], order), first + |made|, r, tried, before, after)
    requires !CapacityFailure(r)
    ensures IsPlan(plan, bases, vSwitches)
    ensures Followed(provider, plan, first, |bases|, Wrapped(r), made + tried, before, after)
  {
    var block := Block(bases[|orders|], order);
    PermutationKeepsElements(order, vSwitches);
    FallbackClassifiesExhaustion(Outcomes(block, provider.answers, first + |made|));
    var rest := CompletePlan(bases, orders, order, vSwitches);
    plan := made + block + rest;
    hide IsPlan;
    FollowedToSettlement(provider, made, block, rest, first, |bases|, before);
  }

  lemma SearchFails(
    provider: InstanceProvider, bases: seq<CreateOptions>, orders: seq<seq<LaunchChoices.VSwitch>>,
    vSwitches: seq<LaunchChoices.VSwitch>, made: seq<CreateOptions>, first: nat, lastErr: string,
    before: map<string, Instance>)
    requires Searching(provider, bases, orders, vSwitches, made, first, lastErr) && |orders| == |bases| > 0
    ensures IsPlan(made, bases, vSwitches)
    ensures Followed(provider, made, first, |bases|,
                     Err(Failed(TypesExhausted(Decimal(|bases|)) + lastErr)), made, before, before)
  {
    hide Followed, Outcomes, AllFail, Decimal, TypesExhausted;
    assert bases[..|orders|] == bases;
    assert made == Plan(bases, orders);
    FollowedToExhaustion(provider, made, first, |bases|, before);
  }

  /** The loop over instance types. */
  method TryInstanceTypes(
    provider: InstanceProvider, shared: CreateOptions, types: seq<InstanceType>, images: seq<Image>,
    vSwitches: seq<LaunchChoices.VSwitch>, kubeArch: string -> string)
    returns (r: Result<string, LaunchError>, ghost plan: seq<CreateOptions>, ghost made: seq<CreateOptions>)
    requires types != [] && images != [] && vSwitches != []
    modifies provider
    ensures IsPlan(plan, Bases(shared, types, images, kubeArch), vSwitches)
    ensures provider.calls == old(provider.calls) + made
    ensures Followed(provider, plan, |old(provider.calls)|, |types|, r, made,
                     old(provider.instances), provider.instances)
    ensures InPriorityOrder(made, types, images, vSwitches, kubeArch)
  {
    hide FellBack, Followed, Searching, IsPlan, IsInsufficientCapacity, InPriorityOrder;
    ghost var bases, first := Bases(shared, types, images, kubeArch), |provider.calls|;
    ghost var orders: seq<seq<LaunchChoices.VSwitch>> := [];
    made := [];
    var lastErr := "";
    SearchStarts(provider, bases, vSwitches, first, lastErr);
    for i := 0 to |types|
      invariant |orders| == i
      invariant Searching(provider, bases, orders, vSwitches, made, first, lastErr)
      invariant provider.calls == old(provider.calls) + made
      invariant provider.instances == old(provider.instances)
    {
      var image := SelectImageForArchitecture(images, types[i].architecture, kubeArch);
      var base := shared.(instanceType := types[i].name, imageID := image.id);
      assert base == bases[i];
      ghost var before := provider.instances;
      var created, order, tried := VSwitchFallbackCreate(provider, base, vSwitches);
      JoinedCalls(old(provider.calls), made, tried);
      if created.Ok? {
        plan := SearchEnds(provider, bases, orders, vSwitches, made, first, lastErr,
                           order, created, tried, before, provider.instances);
        r, made := Ok(created.value), made + tried;
        CallsAreInOrder(provider, plan, first, r, made, before, provider.instances, shared, types, images, vSwitches,
                        kubeArch);
        return;
      }
      if !IsInsufficientCapacity(created.error) {
        plan := SearchEnds(provider, bases, orders, vSwitches, made, first, lastErr,
                           order, created, tried, before, provider.instances);
        r, made := Err(Failed(CREATE_FAILED + created.error)), made + tried;
        CallsAreInOrder(provider, plan, first, r, made, before, provider.instances, shared, types, images, vSwitches,
                        kubeArch);
        return;
      }
      SearchGoesOn(provider, bases, orders, vSwitches, made, first, lastErr,
                   order, created, tried, before, provider.instances);
      made, orders, lastErr := made + tried, orders + [order], created.error;
    }
    SearchFails(provider, bases, orders, vSwitches, made, first, lastErr, provider.instances);
    r, plan := Err(Failed(TypesExhausted(Decimal(|types|)) + lastErr)), made;
    CallsAreInOrder(provider, plan, first, r, made, provider.instances, provider.instances, shared, types, images,
                    vSwitches, kubeArch);
  }

  lemma JoinedCalls<T>(a: seq<T>, b: seq<T>, c: seq<T>)
    ensures (a + b) + c == a + (b + c)
  {
  }

  /** The instance types not reached could have been tried in the order of the last one. */
  lemma CompletePlan(
    bases: seq<CreateOptions>, orders: seq<seq<LaunchChoices.VSwitch>>, order: seq<LaunchChoices.VSwitch>,
    vSwitches: seq<LaunchChoices.VSwitch>)
    returns (rest: seq<CreateOptions>)
    requires |orders| < |bases| && AreOrders(orders, vSwitches) && IsOrder(order, vSwitches)
    ensures IsPlan(Plan(bases[..|orders|], orders) + Block(bases[|orders|], order) + rest, bases, vSwitches)
  {
    var n := |orders| + 1;
    var more := seq(|bases| - n, i => order);
    var all := orders + [order] + more;
    assert AreOrders(all, vSwitches);
    PlanEnds(bases[..n], orders + [order], bases[..n - 1], orders);
    assert bases == bases[..n] + bases[n..];
    PlanAcross(bases[..n], bases[n..], orders + [order], more);
    rest := Plan(bases[n..], more);
    assert Plan(bases, all) == Plan(bases[..n - 1], orders) + Block(bases[n - 1], order) + rest;
  }

  /** The first reason for which nothing is tried. */
  ghost predicate Refuses(input: Inputs, e: LaunchError) {
    if !input.Complete() then e == MissingParameters
    else if RoleForCreate(input.nodeClass).Err? then e == RoleForCreate(input.nodeClass).error
    else e.BadDisks? && NodeClassDisks.IsFirstFault(input.nodeClass.spec.disks, e.fault)
  }

  method CreateInstanceWithRetry(provider: InstanceProvider, input: Inputs, kubeArch: string -> string)
    returns (r: Result<string, LaunchError>, ghost plan: seq<CreateOptions>, ghost made: seq<CreateOptions>)
    modifies provider
    ensures provider.calls == old(provider.calls) + made
    ensures |input.types| == 0 || |input.images| == 0 || |input.vSwitches| == 0 || |input.groups| == 0 ==>
              r == Err(MissingParameters) && made == []
    ensures !input.Accepted() ==> r.Err? && Refuses(input, r.error)
    ensures !input.Accepted() ==> made == [] && provider.instances == old(provider.instances)
    ensures input.Accepted() ==> IsPlan(plan, input.Launchable(kubeArch), input.vSwitches)
    ensures input.Accepted() ==>
              Followed(provider, plan, |old(provider.calls)|, |input.types|, r, made,
                       old(provider.instances), provider.instances)
    ensures InPriorityOrder(made, input.types, input.images, input.vSwitches, kubeArch)
    ensures AllHaveSettings(made, input.nodeClass.spec, input.groups, input.requirements)
  {
    hide Followed, IsPlan, NodeClassDisks.WellFormed, NodeClassDisks.IsFirstFault;
    assert InPriorityOrder([], input.types, input.images, input.vSwitches, kubeArch);
    if |input.types| == 0 || |input.images| == 0 || |input.vSwitches| == 0 || |input.groups| == 0 {
      return Err(MissingParameters), [], [];
    }
    var role := RoleForCreate(input.nodeClass);
    if role.Err? {
      return Err(role.error), [], [];
    }
    var disks := NodeClassDisks.NormalizeDisks(input.nodeClass.spec.disks);
    if disks.Err? {
      return Err(BadDisks(disks.error)), [], [];
    }
    var ids: seq<string> := [];
    for i := 0 to |input.groups|
      invariant ids == GroupIDs(input.groups)[..i]
    {
      ids := ids + [input.groups[i].id];
    }
    assert ids == GroupIDs(input.groups);
    var groupIDs := NormalizeIDs(ids);
    var capacityType := CapacityTypeFromRequirements(input.requirements);
    var spec := input.nodeClass.spec;
    var shared := CreateOptions(
      "", "", "", groupIDs, role.value, disks.value, SpotStrategy(capacityType, spec.spotStrategy),
      if capacityType == SPOT then spec.spotPriceLimit else None);
    assert shared == input.Shared();
    r, plan, made := TryInstanceTypes(provider, shared, input.types, input.images, input.vSwitches, kubeArch);
    hide InPriorityOrder, AllHaveSettings;
    LaunchHasSettings(provider, plan, made, |old(provider.calls)|, r, old(provider.instances), provider.instances,
                      input, kubeArch);
  }

  lemma CallsAreInOrder(
    provider: InstanceProvider, plan: seq<CreateOptions>, first: nat, r: Result<string, LaunchError>,
    made: seq<CreateOptions>, before: map<string, Instance>, after: map<string, Instance>,
    shared: CreateOptions, types: seq<InstanceType>, images: seq<Image>, vSwitches: seq<LaunchChoices.VSwitch>,
    kubeArch: string -> string)
    requires images != [] && vSwitches != []
    requires IsPlan(plan, Bases(shared, types, images, kubeArch), vSwitches)
    requires Followed(provider, plan, first, |types|, r, made, before, after)
    ensures InPriorityOrder(made, types, images, vSwitches, kubeArch)
  {
    hide IsPlan, InPriorityOrder, Outcomes;
    PlansAreInPriorityOrder(plan, made, shared, types, images, vSwitches, kubeArch);
  }

  lemma LaunchHasSettings(
    provider: InstanceProvider, plan: seq<CreateOptions>, made: seq<CreateOptions>, first: nat,
    r: Result<string, LaunchError>, before: map<string, Instance>, after: map<string, Instance>,
    input: Inputs, kubeArch: string -> string)
    requires input.Accepted() && IsPlan(plan, input.Launchable(kubeArch), input.vSwitches)
    requires Followed(provider, plan, first, |input.types|, r, made, before, after)
    ensures AllHaveSettings(made, input.nodeClass.spec, input.groups, input.requirements)
  {
    hide IsPlan, AllHaveSettings, Outcomes, NodeClassDisks.WellFormed, Inputs.Shared;
    PlansHaveSettings(plan, made, input, kubeArch);
  }

  // ----- what the attempts of a launch tell

  /** What outcomes tell about the last attempt made, and what the launch makes of it. */
  lemma LastAttemptDecides(
    outcomes: seq<Result<string, string>>, types: nat, made: seq<Instance>, before: map<string, Instance>)
    requires outcomes != [] && |made| == |outcomes|
    ensures var n := Attempts(outcomes) - 1;
            var r := LaunchResult(outcomes, types);
            && 0 <= n && AllFail(outcomes, n)
            && (CapacityFailure(outcomes[n]) ==> n + 1 == |outcomes|)
            && (r.Ok? <==> outcomes[n].Ok?)
            && (r.Ok? ==> outcomes[n] == Ok(r.value))
            && (r.Err? ==> r.error.Failed?)
            && (r.Err? ==> (IsInsufficientCapacity(r.error.message) <==> CapacityFailure(outcomes[n])))
            && Created(before, outcomes, made) == if r.Ok? then before[r.value := made[n]] else before
  {
    if Exhausted(outcomes) {
      var e := LastError(outcomes, |outcomes|);
      assert CapacityFailure(outcomes[|outcomes| - 1]);
      VSwitchesExhaustedIsWrapper();
      WrappingKeepsClassification(VSWITCHES_EXHAUSTED, e);
      TypesExhaustedIsWrapper(Decimal(types));
      WrappingKeepsClassification(TypesExhausted(Decimal(types)), VSWITCHES_EXHAUSTED + e);
    } else if outcomes[Settled(outcomes)].Err? {
      var e := outcomes[Settled(outcomes)].error;
      CreateFailedIsWrapper();
      WrappingKeepsClassification(CREATE_FAILED, e);
      WrappingKeepsClassification(CREATE_FAILED, CREATE_FAILED + e);
    }
  }

  lemma PlanIsNonEmpty(plan: seq<CreateOptions>, bases: seq<CreateOptions>, vSwitches: seq<LaunchChoices.VSwitch>)
    requires bases != [] && vSwitches != [] && IsPlan(plan, bases, vSwitches)
    ensures |plan| == |bases| * |vSwitches| > 0
  {
    var orders :| |orders| == |bases| && AreOrders(orders, vSwitches) && plan == Plan(bases, orders);
    PlanShape(bases, orders, vSwitches);
  }

  /**
   A launch makes a prefix of its plan: only the last attempt made may do anything but fail for
   capacity. It succeeds exactly when that attempt does, and its error is a capacity error exactly
   when every instance type was refused on every vSwitch.
   */
  lemma LaunchIsAPrefix(
    provider: InstanceProvider, plan: seq<CreateOptions>, bases: seq<CreateOptions>,
    vSwitches: seq<LaunchChoices.VSwitch>, first: nat, r: Result<string, LaunchError>, made: seq<CreateOptions>,
    before: map<string, Instance>, after: map<string, Instance>)
    requires bases != [] && vSwitches != [] && IsPlan(plan, bases, vSwitches)
    requires Followed(provider, plan, first, |bases|, r, made, before, after)
    ensures |plan| == |bases| * |vSwitches| && made <= plan && made != []
    ensures var outcomes, n := Outcomes(made, provider.answers, first), |made| - 1;
            && AllFail(outcomes, n)
            && (r.Ok? <==> outcomes[n].Ok?)
            && (r.Ok? ==> outcomes[n] == Ok(r.value) && after == before[r.value := provider.Recorded(made[n])])
            && (r.Err? ==> r.error.Failed? && after == before)
            && (r.Err? ==> (IsInsufficientCapacity(r.error.message) <==> CapacityFailure(outcomes[n])))
            && (CapacityFailure(outcomes[n]) ==> made == plan)
  {
    hide CapacityFailure, IsInsufficientCapacity, Outcome, Settled, Created, LaunchResult, InstanceProvider.Recorded;
    PlanIsNonEmpty(plan, bases, vSwitches);
    var outcomes := Outcomes(plan, provider.answers, first);
    LastAttemptDecides(outcomes, |bases|, Made(provider, plan), before);
    assert Outcomes(made, provider.answers, first) == outcomes[..|made|];
  }

  /** Every attempt is for one of the instance types, on one of the vSwitches. */
  lemma AttemptsStayInside(
    plan: seq<CreateOptions>, bases: seq<CreateOptions>, vSwitches: seq<LaunchChoices.VSwitch>, k: nat)
    returns (i: nat, v: LaunchChoices.VSwitch)
    requires IsPlan(plan, bases, vSwitches) && k < |plan|
    ensures i < |bases| && v in vSwitches && plan[k] == On(bases[i], v)
  {
    var orders :| |orders| == |bases| && AreOrders(orders, vSwitches) && plan == Plan(bases, orders);
    i, v := PlanMembers(bases, orders, vSwitches, k);
  }
}
