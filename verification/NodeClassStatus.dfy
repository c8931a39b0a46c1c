/**
 pkg/controllers/nodeclass/status/controller.go: each reconcile resolves what an ECSNodeClass
 selects and records the outcome in its status.
 */
module NodeClassStatus {
  import opened Wrappers
  import LaunchChoices
  import LaunchPlans

  datatype Kind =
    VSwitchResolved | SecurityGroupResolved | ImageResolved | RAMRoleResolved | Ready | OtherKind(name: string)

  datatype ConditionStatus = IsTrue | IsFalse | IsUnknown

  datatype Condition = Condition(kind: Kind, status: ConditionStatus, reason: string, transition: int)

  type VSwitch = LaunchChoices.VSwitch
  type Image = LaunchChoices.Image
  type SecurityGroup = LaunchPlans.SecurityGroup

  datatype Spec = Spec(launchTemplateID: Option<string>, role: Option<string>)

  datatype Status = Status(
    vSwitches: seq<VSwitch>, securityGroups: seq<SecurityGroup>, images: seq<Image>, ramRole: Option<string>,
    conditions: seq<Condition>)

  // ----- what the providers answer

  datatype Resolution<T> = Failed | Resolved(items: seq<T>)

  datatype TemplateData = TemplateData(imageID: string, vSwitchID: string, securityGroupIDs: seq<string>)

  datatype TemplateAnswer = NoProvider | TemplateFailed | Template(data: TemplateData)

  datatype RoleAnswer = RoleAnswer(valid: bool, reason: string)

  datatype Answers = Answers(
    vSwitches: Resolution<VSwitch>, securityGroups: Resolution<SecurityGroup>, images: Resolution<Image>,
    template: TemplateAnswer, role: Option<RoleAnswer>)

  const ATTACH_LIMIT := 5
  const REQUIRED := [VSwitchResolved, SecurityGroupResolved, ImageResolved, RAMRoleResolved]

  const RESOURCE_FAILED := "ResourceResolutionFailed"
  const TEMPLATE_FAILED := "LaunchTemplateResolutionFailed"
  const TEMPLATE_RESOLVED := "LaunchTemplateResolved"

  // ----- conditions

  function Get(cs: seq<Condition>, kind: Kind): Option<Condition> {
    if cs == [] then None
    else if cs[0].kind == kind then Some(cs[0])
    else Get(cs[1..], kind)
  }

  /** The transition time moves only when the status does. */
  function Updated(
    before: Option<Condition>, kind: Kind, status: ConditionStatus, reason: string, now: int): Condition
  {
    Condition(kind, status, reason,
              if before.Some? && before.value.status == status then before.value.transition else now)
  }

  function Set(cs: seq<Condition>, kind: Kind, status: ConditionStatus, reason: string, now: int): (r: seq<Condition>)
    ensures forall k :: Get(r, k) ==
              if k == kind then Some(Updated(Get(cs, kind), kind, status, reason, now)) else Get(cs, k)
  {
    if cs == [] then [Updated(None, kind, status, reason, now)]
    else if cs[0].kind == kind then [Updated(Some(cs[0]), kind, status, reason, now)] + cs[1..]
    else [cs[0]] + Set(cs[1..], kind, status, reason, now)
  }

  predicate UniqueKinds(cs: seq<Condition>) {
    forall i, j :: 0 <= i < j < |cs| ==> cs[i].kind != cs[j].kind
  }

  lemma {:induction false} SetAt(
    cs: seq<Condition>, i: nat, kind: Kind, status: ConditionStatus, reason: string, now: int)
    requires i <= |cs| && (i < |cs| ==> cs[i].kind == kind)
    requires forall j :: 0 <= j < i ==> cs[j].kind != kind
    ensures Set(cs, kind, status, reason, now) ==
            if i < |cs| then cs[i := Updated(Some(cs[i]), kind, status, reason, now)]
            else cs + [Updated(None, kind, status, reason, now)]
    decreases i
  {
    if i > 0 {
      SetAt(cs[1..], i - 1, kind, status, reason, now);
    }
  }

  lemma SetKeepsKindsUnique(cs: seq<Condition>, kind: Kind, status: ConditionStatus, reason: string, now: int)
    requires UniqueKinds(cs)
    ensures UniqueKinds(Set(cs, kind, status, reason, now))
  {
    if i: nat :| i < |cs| && cs[i].kind == kind {
      SetAt(cs, i, kind, status, reason, now);
    } else {
      SetAt(cs, |cs|, kind, status, reason, now);
    }
  }

  predicate Holds(s: Status, kind: Kind) {
    var c := Get(s.conditions, kind);
    c.Some? && c.value.status == IsTrue
  }

  predicate AllHold(s: Status) {
    forall kind :: kind in REQUIRED ==> Holds(s, kind)
  }

  // ----- what a reconcile makes of a status

  function With(s: Status, kind: Kind, status: ConditionStatus, reason: string, now: int): Status {
    s.(conditions := Set(s.conditions, kind, status, reason, now))
  }

  /** A failed resolution takes its condition and readiness down. */
  function Down(s: Status, kind: Kind, reason: string, now: int): Status {
    With(With(s, kind, IsFalse, reason, now), Ready, IsFalse, RESOURCE_FAILED, now)
  }

  predicate Found<T>(a: Resolution<T>) {
    a.Resolved? && a.items != []
  }

  predicate Attachable(a: Resolution<SecurityGroup>) {
    Found(a) && |a.items| <= ATTACH_LIMIT
  }

  function VSwitchStep(s: Status, a: Resolution<VSwitch>, now: int): Status {
    if Found(a) then With(s.(vSwitches := a.items), VSwitchResolved, IsTrue, "VSwitchResolved", now)
    else Down(s, VSwitchResolved, "VSwitchResolutionFailed", now)
  }

  function GroupStep(s: Status, a: Resolution<SecurityGroup>, now: int): Status {
    if Attachable(a) then
      With(s.(securityGroups := a.items), SecurityGroupResolved, IsTrue, "SecurityGroupResolved", now)
    else Down(s, SecurityGroupResolved, "SecurityGroupResolutionFailed", now)
  }

  function ImageStep(s: Status, a: Resolution<Image>, now: int): Status {
    if Found(a) then With(s.(images := a.items), ImageResolved, IsTrue, "ImageResolved", now)
    else Down(s, ImageResolved, "ImageResolutionFailed", now)
  }

  function SelectorStep(s: Status, a: Answers, now: int): Status {
    ImageStep(GroupStep(VSwitchStep(s, a.vSwitches, now), a.securityGroups, now), a.images, now)
  }

  predicate Complete(data: TemplateData) {
    data.imageID != "" && data.vSwitchID != "" && data.securityGroupIDs != []
  }

  function AllDown(s: Status, now: int): Status {
    var v := With(s, VSwitchResolved, IsFalse, TEMPLATE_FAILED, now);
    Down(With(v, SecurityGroupResolved, IsFalse, TEMPLATE_FAILED, now), ImageResolved, TEMPLATE_FAILED, now)
  }

  function GroupsOf(ids: seq<string>): seq<SecurityGroup> {
    seq(|ids|, i requires 0 <= i < |ids| => LaunchPlans.SecurityGroup(ids[i], ""))
  }

  /** The images are replaced before the vSwitch is looked up, and stay replaced if that fails. */
  function TemplateStep(s: Status, a: Answers, now: int): Status {
    if !a.template.Template? || !Complete(a.template.data) then AllDown(s, now)
    else
      var data := a.template.data;
      var t := s.(images := [LaunchChoices.Image(data.imageID, "")]);
      if !Found(a.vSwitches) then Down(t, VSwitchResolved, TEMPLATE_FAILED, now)
      else
        var u := t.(vSwitches := a.vSwitches.items, securityGroups := GroupsOf(data.securityGroupIDs));
        With(With(With(u, VSwitchResolved, IsTrue, TEMPLATE_RESOLVED, now),
                  SecurityGroupResolved, IsTrue, TEMPLATE_RESOLVED, now),
             ImageResolved, IsTrue, TEMPLATE_RESOLVED, now)
  }

  predicate RoleOk(spec: Spec, a: Answers) {
    spec.role.None? || a.role.None? || a.role.value.valid
  }

  function RoleStep(s: Status, spec: Spec, a: Answers, now: int): Status {
    if RoleOk(spec, a) then With(s.(ramRole := spec.role), RAMRoleResolved, IsTrue, "RAMRoleResolved", now)
    else Down(s, RAMRoleResolved, a.role.value.reason, now)
  }

  function ReadyStep(s: Status, now: int): Status {
    if AllHold(s) then With(s, Ready, IsTrue, "Ready", now) else s
  }

  function ResolveStep(s: Status, spec: Spec, a: Answers, now: int): Status {
    if spec.launchTemplateID.Some? then TemplateStep(s, a, now) else SelectorStep(s, a, now)
  }

  function Reconciled(s: Status, spec: Spec, a: Answers, now: int): Status {
    ReadyStep(RoleStep(ResolveStep(s, spec, a, now), spec, a, now), now)
  }

  predicate ResourcesResolved(spec: Spec, a: Answers) {
    && Found(a.vSwitches)
    && (if spec.launchTemplateID.Some? then a.template.Template? && Complete(a.template.data)
        else Attachable(a.securityGroups) && Found(a.images))
  }

  /** Everything the spec asks for was found this time. */
  predicate AllResolved(spec: Spec, a: Answers) {
    ResourcesResolved(spec, a) && RoleOk(spec, a)
  }

  // ----- a reconcile in terms of the answers alone

  /** The first condition of the kind has this status and reason. */
  ghost predicate Says(s: Status, kind: Kind, status: ConditionStatus, reason: string) {
    exists i: nat :: IsFirstOfKind(s.conditions, i, kind) &&
                     s.conditions[i].status == status && s.conditions[i].reason == reason
  }

  predicate IsFirstOfKind(cs: seq<Condition>, i: nat, kind: Kind) {
    i < |cs| && cs[i].kind == kind && forall j :: 0 <= j < i ==> cs[j].kind != kind
  }

  ghost predicate SameCondition(before: Status, after: Status, kind: Kind) {
    forall status, reason :: Says(after, kind, status, reason) <==> Says(before, kind, status, reason)
  }

  /** Only an invalid answer for a role that the spec names keeps the role from being resolved. */
  ghost predicate RoleFollows(before: Status, after: Status, spec: Spec, role: Option<RoleAnswer>) {
    if spec.role.Some? && role.Some? && !role.value.valid then
      && Says(after, RAMRoleResolved, IsFalse, role.value.reason) && after.ramRole == before.ramRole
      && Says(after, Ready, IsFalse, "ResourceResolutionFailed")
    else
      Says(after, RAMRoleResolved, IsTrue, "RAMRoleResolved") && after.ramRole == spec.role
  }

  ghost predicate VSwitchesFollow(before: Status, after: Status, answer: Resolution<VSwitch>) {
    if answer.Resolved? && |answer.items| > 0 then
      Says(after, VSwitchResolved, IsTrue, "VSwitchResolved") && after.vSwitches == answer.items
    else
      && Says(after, VSwitchResolved, IsFalse, "VSwitchResolutionFailed") && after.vSwitches == before.vSwitches
      && Says(after, Ready, IsFalse, "ResourceResolutionFailed")
  }

  /** An instance takes at most 5 security groups. */
  ghost predicate GroupsFollow(before: Status, after: Status, answer: Resolution<SecurityGroup>) {
    if answer.Resolved? && 1 <= |answer.items| <= 5 then
      Says(after, SecurityGroupResolved, IsTrue, "SecurityGroupResolved") && after.securityGroups == answer.items
    else
      && Says(after, SecurityGroupResolved, IsFalse, "SecurityGroupResolutionFailed")
      && after.securityGroups == before.securityGroups
      && Says(after, Ready, IsFalse, "ResourceResolutionFailed")
  }

  ghost predicate ImagesFollow(before: Status, after: Status, answer: Resolution<Image>) {
    if answer.Resolved? && |answer.items| > 0 then
      Says(after, ImageResolved, IsTrue, "ImageResolved") && after.images == answer.items
    else
      && Says(after, ImageResolved, IsFalse, "ImageResolutionFailed") && after.images == before.images
      && Says(after, Ready, IsFalse, "ResourceResolutionFailed")
  }

  ghost predicate ThreeSay(s: Status, status: ConditionStatus, reason: string) {
    && Says(s, VSwitchResolved, status, reason) && Says(s, SecurityGroupResolved, status, reason)
    && Says(s, ImageResolved, status, reason)
  }

  /** A template gives one image, one vSwitch and some groups, or nothing; its vSwitch must exist. */
  ghost predicate TemplateFollows(
    before: Status, after: Status, template: TemplateAnswer, vSwitches: Resolution<VSwitch>)
  {
    if !template.Template? || |template.data.imageID| == 0 || |template.data.vSwitchID| == 0 ||
       |template.data.securityGroupIDs| == 0 then
      && ThreeSay(after, IsFalse, "LaunchTemplateResolutionFailed")
      && Says(after, Ready, IsFalse, "ResourceResolutionFailed")
      && after.images == before.images && after.vSwitches == before.vSwitches
      && after.securityGroups == before.securityGroups
    else
      && |after.images| == 1 && after.images[0].id == template.data.imageID
      && if vSwitches.Resolved? && |vSwitches.items| > 0 then
           && ThreeSay(after, IsTrue, "LaunchTemplateResolved") && after.vSwitches == vSwitches.items
           && |after.securityGroups| == |template.data.securityGroupIDs|
           && forall i :: 0 <= i < |after.securityGroups| ==>
                after.securityGroups[i].id == template.data.securityGroupIDs[i]
         else
           && Says(after, VSwitchResolved, IsFalse, "LaunchTemplateResolutionFailed")
           && Says(after, Ready, IsFalse, "ResourceResolutionFailed")
           && SameCondition(before, after, SecurityGroupResolved) && SameCondition(before, after, ImageResolved)
           && after.vSwitches == before.vSwitches && after.securityGroups == before.securityGroups
  }

  /** What decides readiness: every answer this reconcile got. */
  predicate EverythingFound(spec: Spec, a: Answers) {
    && a.vSwitches.Resolved? && |a.vSwitches.items| > 0
    && (if spec.launchTemplateID.Some? then
          && a.template.Template? && |a.template.data.imageID| > 0 && |a.template.data.vSwitchID| > 0
          && |a.template.data.securityGroupIDs| > 0
        else
          && a.securityGroups.Resolved? && 1 <= |a.securityGroups.items| <= 5
          && a.images.Resolved? && |a.images.items| > 0)
    && !(spec.role.Some? && a.role.Some? && !a.role.value.valid)
  }

  /** All that a reconcile does to a status, each part told by its own answer. */
  ghost predicate FollowsAnswers(before: Status, after: Status, spec: Spec, a: Answers) {
    && RoleFollows(before, after, spec, a.role)
    && (spec.launchTemplateID.Some? ==> TemplateFollows(before, after, a.template, a.vSwitches))
    && (spec.launchTemplateID.None? ==>
          && VSwitchesFollow(before, after, a.vSwitches) && GroupsFollow(before, after, a.securityGroups)
          && ImagesFollow(before, after, a.images))
    && (if EverythingFound(spec, a) then Says(after, Ready, IsTrue, "Ready")
        else Says(after, Ready, IsFalse, "ResourceResolutionFailed"))
  }

  lemma {:induction false} GetIsFirstOfKind(cs: seq<Condition>, kind: Kind)
    ensures match Get(cs, kind)
            case None => forall c :: c in cs ==> c.kind != kind
            case Some(c) => exists i: nat :: IsFirstOfKind(cs, i, kind) && cs[i] == c
    decreases |cs|
  {
    if cs != [] && cs[0].kind == kind {
      assert IsFirstOfKind(cs, 0, kind);
    } else if cs != [] {
      GetIsFirstOfKind(cs[1..], kind);
      if i: nat :| IsFirstOfKind(cs[1..], i, kind) && Get(cs, kind) == Some(cs[1..][i]) {
        assert IsFirstOfKind(cs, i + 1, kind);
      }
    }
  }

  predicate Reads(s: Status, kind: Kind, status: ConditionStatus, reason: string) {
    var c := Get(s.conditions, kind);
    c.Some? && c.value.status == status && c.value.reason == reason
  }

  /** Reading a condition is reading the first of its kind. */
  lemma SaysWhatIsRead(s: Status, kind: Kind, status: ConditionStatus, reason: string)
    ensures Says(s, kind, status, reason) <==> Reads(s, kind, status, reason)
  {
    GetIsFirstOfKind(s.conditions, kind);
    var c := Get(s.conditions, kind);
    if i: nat :| IsFirstOfKind(s.conditions, i, kind) {
      assert s.conditions[i] in s.conditions;
    }
  }

  lemma AllSayWhatIsRead()
    ensures forall s, kind, status, reason ::
              Says(s, kind, status, reason) <==> Reads(s, kind, status, reason)
  {
    forall s, kind, status, reason ensures Says(s, kind, status, reason) <==> Reads(s, kind, status, reason) {
      SaysWhatIsRead(s, kind, status, reason);
    }
  }

  lemma RoleIsFollowed(s: Status, spec: Spec, a: Answers, now: int)
    ensures RoleFollows(s, Reconciled(s, spec, a, now), spec, a.role)
  {
    AllSayWhatIsRead();
    ResolveKeepsRole(s, spec, a, now);
    hide Set, Says, ResolveStep;
    FourConditions(RoleStep(ResolveStep(s, spec, a, now), spec, a, now));
  }

  lemma ResolveKeepsRole(s: Status, spec: Spec, a: Answers, now: int)
    ensures ResolveStep(s, spec, a, now).ramRole == s.ramRole
  {
    hide Set;
  }

  /** What follows resolving leaves its conditions and lists alone, and Ready when that is already down. */
  lemma OnlyRoleAndReadyFollow(s: Status, spec: Spec, a: Answers, now: int)
    ensures var r, after := ResolveStep(s, spec, a, now), Reconciled(s, spec, a, now);
            && (forall kind :: kind != RAMRoleResolved && kind != Ready ==>
                  Get(after.conditions, kind) == Get(r.conditions, kind))
            && after.vSwitches == r.vSwitches && after.images == r.images && after.securityGroups == r.securityGroups
            && (!ThreeHold(r) && Reads(r, Ready, IsFalse, RESOURCE_FAILED) ==>
                  Reads(after, Ready, IsFalse, RESOURCE_FAILED))
  {
    hide Set, ResolveStep;
    FourConditions(RoleStep(ResolveStep(s, spec, a, now), spec, a, now));
  }

  lemma SelectorsAreFollowed(s: Status, spec: Spec, a: Answers, now: int)
    requires spec.launchTemplateID.None?
    ensures var after := Reconciled(s, spec, a, now);
            && VSwitchesFollow(s, after, a.vSwitches) && GroupsFollow(s, after, a.securityGroups)
            && ImagesFollow(s, after, a.images)
  {
    AllSayWhatIsRead();
    OnlyRoleAndReadyFollow(s, spec, a, now);
    VSwitchesAreFollowed(s, a, now);
    GroupsAreFollowed(s, a, now);
    ImagesAreFollowed(s, a, now);
    hide Set, Says, Get, Reconciled, SelectorStep, TemplateStep, AllHold;
  }

  lemma VSwitchesAreFollowed(s: Status, a: Answers, now: int)
    ensures VSwitchesFollow(s, SelectorStep(s, a, now), a.vSwitches)
  {
    AllSayWhatIsRead();
    hide Set, Says;
  }

  lemma GroupsAreFollowed(s: Status, a: Answers, now: int)
    ensures GroupsFollow(s, SelectorStep(s, a, now), a.securityGroups)
  {
    AllSayWhatIsRead();
    hide Set, Says;
  }

  lemma ImagesAreFollowed(s: Status, a: Answers, now: int)
    ensures ImagesFollow(s, SelectorStep(s, a, now), a.images)
  {
    AllSayWhatIsRead();
    hide Set, Says;
  }

  lemma TemplateIsFollowed(s: Status, spec: Spec, a: Answers, now: int)
    requires spec.launchTemplateID.Some?
    ensures TemplateFollows(s, Reconciled(s, spec, a, now), a.template, a.vSwitches)
  {
    AllSayWhatIsRead();
    OnlyRoleAndReadyFollow(s, spec, a, now);
    hide Set, Says, Reconciled;
  }

  /**
   Each condition, each list and the role follow their own answer, and Ready follows all of them:
   True when everything was found, otherwise False.
   */
  lemma ReconcileFollowsAnswers(s: Status, spec: Spec, a: Answers, now: int)
    ensures FollowsAnswers(s, Reconciled(s, spec, a, now), spec, a)
  {
    RoleIsFollowed(s, spec, a, now);
    if spec.launchTemplateID.Some? {
      TemplateIsFollowed(s, spec, a, now);
    } else {
      SelectorsAreFollowed(s, spec, a, now);
    }
    ReadyIsFollowed(s, spec, a, now);
  }

  lemma ReadyIsFollowed(s: Status, spec: Spec, a: Answers, now: int)
    ensures var after := Reconciled(s, spec, a, now);
            if EverythingFound(spec, a) then Says(after, Ready, IsTrue, "Ready")
            else Says(after, Ready, IsFalse, "ResourceResolutionFailed")
  {
    AllSayWhatIsRead();
    hide Set, Says;
    ResolveDecides(s, spec, a, now);
    FourConditions(RoleStep(ResolveStep(s, spec, a, now), spec, a, now));
  }

  // ----- the controller

  class NodeClass {
    const spec: Spec
    var status: Status

    constructor (spec: Spec, status: Status)
      ensures this.spec == spec && this.status == status
    {
      this.spec, this.status := spec, status;
    }

    method SetCondition(kind: Kind, s: ConditionStatus, reason: string, now: int)
      modifies this
      ensures status == With(old(status), kind, s, reason, now)
    {
      var cs := status.conditions;
      for i := 0 to |cs|
        invariant forall j :: 0 <= j < i ==> cs[j].kind != kind
      {
        if cs[i].kind == kind {
          SetAt(cs, i, kind, s, reason, now);
          if cs[i].status == s {
            status := status.(conditions := cs[i := cs[i].(reason := reason)]);
            return;
          }
          status := status.(conditions := cs[i := cs[i].(status := s, reason := reason, transition := now)]);
          return;
        }
      }
      SetAt(cs, |cs|, kind, s, reason, now);
      status := status.(conditions := cs + [Condition(kind, s, reason, now)]);
    }

    method GetCondition(kind: Kind) returns (c: Option<Condition>)
      ensures c == Get(status.conditions, kind)
    {
      var cs := status.conditions;
      for i := 0 to |cs|
        invariant Get(cs, kind) == Get(cs[i..], kind)
      {
        if cs[i].kind == kind {
          return Some(cs[i]);
        }
      }
      return None;
    }

    method IsReady() returns (ready: bool)
      ensures ready <==> AllHold(status)
    {
      for i := 0 to |REQUIRED|
        invariant forall j :: 0 <= j < i ==> Holds(status, REQUIRED[j])
      {
        var c := GetCondition(REQUIRED[i]);
        if c.None? || c.value.status != IsTrue {
          assert REQUIRED[i] in REQUIRED && !Holds(status, REQUIRED[i]);
          return false;
        }
      }
      return true;
    }

    method ResolveSelectorResources(a: Answers, now: int) returns (failed: bool)
      modifies this
      ensures status == SelectorStep(old(status), a, now)
      ensures failed <==> !(Found(a.vSwitches) && Attachable(a.securityGroups) && Found(a.images))
    {
      hide Set;
      failed := false;
      if a.vSwitches.Failed? || |a.vSwitches.items| == 0 {
        SetCondition(VSwitchResolved, IsFalse, "VSwitchResolutionFailed", now);
        SetCondition(Ready, IsFalse, RESOURCE_FAILED, now);
        failed := true;
      } else {
        status := status.(vSwitches := a.vSwitches.items);
        SetCondition(VSwitchResolved, IsTrue, "VSwitchResolved", now);
      }
      assert status == VSwitchStep(old(status), a.vSwitches, now);
      if a.securityGroups.Failed? || |a.securityGroups.items| == 0 || |a.securityGroups.items| > ATTACH_LIMIT {
        SetCondition(SecurityGroupResolved, IsFalse, "SecurityGroupResolutionFailed", now);
        SetCondition(Ready, IsFalse, RESOURCE_FAILED, now);
        failed := true;
      } else {
        status := status.(securityGroups := a.securityGroups.items);
        SetCondition(SecurityGroupResolved, IsTrue, "SecurityGroupResolved", now);
      }
      assert status == GroupStep(VSwitchStep(old(status), a.vSwitches, now), a.securityGroups, now);
      if a.images.Failed? || |a.images.items| == 0 {
        SetCondition(ImageResolved, IsFalse, "ImageResolutionFailed", now);
        SetCondition(Ready, IsFalse, RESOURCE_FAILED, now);
        failed := true;
      } else {
        status := status.(images := a.images.items);
        SetCondition(ImageResolved, IsTrue, "ImageResolved", now);
      }
    }

    method SetSelectorConditionsFromLaunchTemplateError(now: int)
      modifies this
      ensures status == AllDown(old(status), now)
    {
      SetCondition(VSwitchResolved, IsFalse, TEMPLATE_FAILED, now);
      SetCondition(SecurityGroupResolved, IsFalse, TEMPLATE_FAILED, now);
      SetCondition(ImageResolved, IsFalse, TEMPLATE_FAILED, now);
      SetCondition(Ready, IsFalse, RESOURCE_FAILED, now);
    }

    method ResolveLaunchTemplate(a: Answers, now: int) returns (failed: bool)
      modifies this
      ensures status == TemplateStep(old(status), a, now)
      ensures failed <==> !(a.template.Template? && Complete(a.template.data) && Found(a.vSwitches))
    {
      hide Set;
      if !a.template.Template? {
        SetSelectorConditionsFromLaunchTemplateError(now);
        return true;
      }
      var data := a.template.data;
      if data.imageID == "" || data.vSwitchID == "" || |data.securityGroupIDs| == 0 {
        SetSelectorConditionsFromLaunchTemplateError(now);
        return true;
      }
      status := status.(images := [LaunchChoices.Image(data.imageID, "")]);
      if a.vSwitches.Failed? || |a.vSwitches.items| == 0 {
        SetCondition(VSwitchResolved, IsFalse, TEMPLATE_FAILED, now);
        SetCondition(Ready, IsFalse, RESOURCE_FAILED, now);
        return true;
      }
      status := status.(vSwitches := a.vSwitches.items, securityGroups := []);
      for i := 0 to |data.securityGroupIDs|
        invariant status == old(status).(
                              images := [LaunchChoices.Image(data.imageID, "")], vSwitches := a.vSwitches.items,
                              securityGroups := GroupsOf(data.securityGroupIDs)[..i])
      {
        status := status.(securityGroups :=
          status.securityGroups + [LaunchPlans.SecurityGroup(data.securityGroupIDs[i], "")]);
      }
      SetCondition(VSwitchResolved, IsTrue, TEMPLATE_RESOLVED, now);
      SetCondition(SecurityGroupResolved, IsTrue, TEMPLATE_RESOLVED, now);
      SetCondition(ImageResolved, IsTrue, TEMPLATE_RESOLVED, now);
      return false;
    }

    /** `resolveErr` is what makes the controller retry sooner. */
    method Reconcile(a: Answers, now: int) returns (resolveErr: bool)
      modifies this
      ensures status == Reconciled(old(status), spec, a, now)
      ensures FollowsAnswers(old(status), status, spec, a)
      ensures resolveErr <==> !EverythingFound(spec, a)
    {
      ReconcileFollowsAnswers(status, spec, a, now);
      hide Set, TemplateStep, SelectorStep, FollowsAnswers;
      if spec.launchTemplateID.Some? {
        resolveErr := ResolveLaunchTemplate(a, now);
      } else {
        resolveErr := ResolveSelectorResources(a, now);
      }
      if spec.role.Some? {
        if a.role.Some? && !a.role.value.valid {
          SetCondition(RAMRoleResolved, IsFalse, a.role.value.reason, now);
          SetCondition(Ready, IsFalse, RESOURCE_FAILED, now);
          resolveErr := true;
        } else {
          status := status.(ramRole := spec.role);
          SetCondition(RAMRoleResolved, IsTrue, "RAMRoleResolved", now);
        }
      } else {
        status := status.(ramRole := spec.role);
        SetCondition(RAMRoleResolved, IsTrue, "RAMRoleResolved", now);
      }
      var ready := IsReady();
      if ready {
        SetCondition(Ready, IsTrue, "Ready", now);
      }
    }
  }

  // ----- one reconcile

  function StatusOf(s: Status, kind: Kind): Option<ConditionStatus> {
    var c := Get(s.conditions, kind);
    if c.None? then None else Some(c.value.status)
  }

  /** The condition says what it said before, or has its transition at `now`. */
  predicate TransitionFollows(before: Status, after: Status, kind: Kind, now: int) {
    var b, a := Get(before.conditions, kind), Get(after.conditions, kind);
    if a.None? then b.None?
    else if b.Some? && b.value.status == a.value.status then a.value.transition == b.value.transition
    else a.value.transition == now
  }

  ghost predicate Transitions(before: Status, after: Status, now: int) {
    forall kind :: TransitionFollows(before, after, kind, now)
  }

  /** The statuses of the five conditions after a reconcile depend only on what was found. */
  lemma ReconcileDecidesReadiness(s: Status, spec: Spec, a: Answers, now: int)
    ensures var after := Reconciled(s, spec, a, now);
            && (Holds(after, Ready) <==> AllResolved(spec, a))
            && (AllResolved(spec, a) <==> EverythingFound(spec, a))
            && (Holds(after, Ready) <==> AllHold(after))
            && Get(after.conditions, Ready).Some?
  {
    hide Set;
    var r := ResolveStep(s, spec, a, now);
    ResolveDecides(s, spec, a, now);
    var t := RoleStep(r, spec, a, now);
    FourConditions(t);
    assert AllHold(t) <==> AllResolved(spec, a);
    FourConditions(Reconciled(s, spec, a, now));
  }

  predicate ThreeHold(s: Status) {
    Holds(s, VSwitchResolved) && Holds(s, SecurityGroupResolved) && Holds(s, ImageResolved)
  }

  lemma FourConditions(s: Status)
    ensures AllHold(s) <==> ThreeHold(s) && Holds(s, RAMRoleResolved)
  {
    assert REQUIRED[0] in REQUIRED && REQUIRED[1] in REQUIRED && REQUIRED[2] in REQUIRED && REQUIRED[3] in REQUIRED;
  }

  lemma ResolveDecides(s: Status, spec: Spec, a: Answers, now: int)
    ensures var r := ResolveStep(s, spec, a, now);
            && (ThreeHold(r) <==> ResourcesResolved(spec, a))
            && (!ResourcesResolved(spec, a) ==> StatusOf(r, Ready) == Some(IsFalse))
  {
    hide Set;
  }

  lemma ReconcileMovesTransitions(s: Status, spec: Spec, a: Answers, now: int)
    ensures Transitions(s, Reconciled(s, spec, a, now), now)
  {
    hide Set, ResolveStep, ResourcesResolved;
    forall kind ensures TransitionFollows(s, Reconciled(s, spec, a, now), kind, now) {
      var r := ResolveStep(s, spec, a, now);
      var t := RoleStep(r, spec, a, now);
      ResolveDecides(s, spec, a, now);
      FourConditions(t);
      ResolveMovesTransition(s, spec, a, kind, now);
    }
  }

  /** Resolving sets each condition at most once, and Ready only to False. */
  lemma ResolveMovesTransition(s: Status, spec: Spec, a: Answers, kind: Kind, now: int)
    ensures var r := ResolveStep(s, spec, a, now);
            && TransitionFollows(s, r, kind, now)
            && (kind == RAMRoleResolved ==> Get(r.conditions, kind) == Get(s.conditions, kind))
            && (kind == Ready && ResourcesResolved(spec, a) ==> Get(r.conditions, kind) == Get(s.conditions, kind))
  {
    hide Set, TemplateStep, SelectorStep;
    if spec.launchTemplateID.Some? {
      TemplateMovesTransition(s, a, kind, now);
    } else {
      SelectorMovesTransition(s, a, kind, now);
    }
  }

  lemma TemplateMovesTransition(s: Status, a: Answers, kind: Kind, now: int)
    ensures var r := TemplateStep(s, a, now);
            && TransitionFollows(s, r, kind, now)
            && (kind == RAMRoleResolved ==> Get(r.conditions, kind) == Get(s.conditions, kind))
            && (kind == Ready && a.template.Template? && Complete(a.template.data) && Found(a.vSwitches) ==>
                  Get(r.conditions, kind) == Get(s.conditions, kind))
  {
    hide Set;
  }

  lemma SelectorMovesTransition(s: Status, a: Answers, kind: Kind, now: int)
    ensures var r := SelectorStep(s, a, now);
            && TransitionFollows(s, r, kind, now)
            && (kind == RAMRoleResolved ==> Get(r.conditions, kind) == Get(s.conditions, kind))
            && (kind == Ready && Found(a.vSwitches) && Attachable(a.securityGroups) && Found(a.images) ==>
                  Get(r.conditions, kind) == Get(s.conditions, kind))
  {
    hide Set;
  }

  lemma ReconcileKeepsKindsUnique(s: Status, spec: Spec, a: Answers, now: int)
    requires UniqueKinds(s.conditions)
    ensures UniqueKinds(Reconciled(s, spec, a, now).conditions)
  {
    hide UniqueKinds, ResolveStep, With;
    var r := ResolveStep(s, spec, a, now);
    ResolveKeepsKindsUnique(s, spec, a, now);
    if RoleOk(spec, a) {
      WithKeepsKindsUnique(r.(ramRole := spec.role), RAMRoleResolved, IsTrue, "RAMRoleResolved", now);
    } else {
      DownKeepsKindsUnique(r, RAMRoleResolved, a.role.value.reason, now);
    }
    WithKeepsKindsUnique(RoleStep(r, spec, a, now), Ready, IsTrue, "Ready", now);
  }

  lemma ResolveKeepsKindsUnique(s: Status, spec: Spec, a: Answers, now: int)
    requires UniqueKinds(s.conditions)
    ensures UniqueKinds(ResolveStep(s, spec, a, now).conditions)
  {
    hide UniqueKinds, VSwitchStep, GroupStep, ImageStep, TemplateStep;
    if spec.launchTemplateID.Some? {
      TemplateKeepsKindsUnique(s, a, now);
    } else {
      var v := VSwitchStep(s, a.vSwitches, now);
      VSwitchKeepsKindsUnique(s, a.vSwitches, now);
      GroupKeepsKindsUnique(v, a.securityGroups, now);
      ImageKeepsKindsUnique(GroupStep(v, a.securityGroups, now), a.images, now);
    }
  }

  lemma WithKeepsKindsUnique(s: Status, kind: Kind, status: ConditionStatus, reason: string, now: int)
    requires UniqueKinds(s.conditions)
    ensures UniqueKinds(With(s, kind, status, reason, now).conditions)
  {
    SetKeepsKindsUnique(s.conditions, kind, status, reason, now);
  }

  lemma DownKeepsKindsUnique(s: Status, kind: Kind, reason: string, now: int)
    requires UniqueKinds(s.conditions)
    ensures UniqueKinds(Down(s, kind, reason, now).conditions)
  {
    hide UniqueKinds, With;
    WithKeepsKindsUnique(s, kind, IsFalse, reason, now);
    WithKeepsKindsUnique(With(s, kind, IsFalse, reason, now), Ready, IsFalse, RESOURCE_FAILED, now);
  }

  lemma VSwitchKeepsKindsUnique(s: Status, a: Resolution<VSwitch>, now: int)
    requires UniqueKinds(s.conditions)
    ensures UniqueKinds(VSwitchStep(s, a, now).conditions)
  {
    hide UniqueKinds, With, Down;
    if Found(a) {
      WithKeepsKindsUnique(s.(vSwitches := a.items), VSwitchResolved, IsTrue, "VSwitchResolved", now);
    } else {
      DownKeepsKindsUnique(s, VSwitchResolved, "VSwitchResolutionFailed", now);
    }
  }

  lemma GroupKeepsKindsUnique(s: Status, a: Resolution<SecurityGroup>, now: int)
    requires UniqueKinds(s.conditions)
    ensures UniqueKinds(GroupStep(s, a, now).conditions)
  {
    hide UniqueKinds, With, Down;
    if Attachable(a) {
      WithKeepsKindsUnique(s.(securityGroups := a.items), SecurityGroupResolved, IsTrue, "SecurityGroupResolved", now);
    } else {
      DownKeepsKindsUnique(s, SecurityGroupResolved, "SecurityGroupResolutionFailed", now);
    }
  }

  lemma ImageKeepsKindsUnique(s: Status, a: Resolution<Image>, now: int)
    requires UniqueKinds(s.conditions)
    ensures UniqueKinds(ImageStep(s, a, now).conditions)
  {
    hide UniqueKinds, With, Down;
    if Found(a) {
      WithKeepsKindsUnique(s.(images := a.items), ImageResolved, IsTrue, "ImageResolved", now);
    } else {
      DownKeepsKindsUnique(s, ImageResolved, "ImageResolutionFailed", now);
    }
  }

  lemma TemplateKeepsKindsUnique(s: Status, a: Answers, now: int)
    requires UniqueKinds(s.conditions)
    ensures UniqueKinds(TemplateStep(s, a, now).conditions)
  {
    hide UniqueKinds, With, Down, Complete;
    if !a.template.Template? || !Complete(a.template.data) {
      var v := With(s, VSwitchResolved, IsFalse, TEMPLATE_FAILED, now);
      WithKeepsKindsUnique(s, VSwitchResolved, IsFalse, TEMPLATE_FAILED, now);
      WithKeepsKindsUnique(v, SecurityGroupResolved, IsFalse, TEMPLATE_FAILED, now);
      DownKeepsKindsUnique(With(v, SecurityGroupResolved, IsFalse, TEMPLATE_FAILED, now),
                           ImageResolved, TEMPLATE_FAILED, now);
    } else {
      var data := a.template.data;
      var t := s.(images := [LaunchChoices.Image(data.imageID, "")]);
      if !Found(a.vSwitches) {
        DownKeepsKindsUnique(t, VSwitchResolved, TEMPLATE_FAILED, now);
      } else {
        var u := t.(vSwitches := a.vSwitches.items, securityGroups := GroupsOf(data.securityGroupIDs));
        var v := With(u, VSwitchResolved, IsTrue, TEMPLATE_RESOLVED, now);
        WithKeepsKindsUnique(u, VSwitchResolved, IsTrue, TEMPLATE_RESOLVED, now);
        WithKeepsKindsUnique(v, SecurityGroupResolved, IsTrue, TEMPLATE_RESOLVED, now);
        WithKeepsKindsUnique(With(v, SecurityGroupResolved, IsTrue, TEMPLATE_RESOLVED, now),
                             ImageResolved, IsTrue, TEMPLATE_RESOLVED, now);
      }
    }
  }

  /** What the launch path relies on when Ready is True. */
  predicate Usable(s: Status, spec: Spec) {
    s.vSwitches != [] && s.securityGroups != [] && s.images != [] && s.ramRole == spec.role
  }

  /** Ready says that the lists are what this reconcile found, and that the role is the spec's. */
  lemma ReadyMeansUsable(s: Status, spec: Spec, a: Answers, now: int)
    ensures Holds(Reconciled(s, spec, a, now), Ready) ==> Usable(Reconciled(s, spec, a, now), spec)
    ensures AllResolved(spec, a) ==> HasFound(Reconciled(s, spec, a, now), spec, a)
  {
    ReconcileDecidesReadiness(s, spec, a, now);
    hide Set, Get;
  }

  predicate HasFound(s: Status, spec: Spec, a: Answers)
    requires AllResolved(spec, a)
  {
    && s.vSwitches == a.vSwitches.items && s.ramRole == spec.role
    && (if spec.launchTemplateID.Some? then
          s.images == [LaunchChoices.Image(a.template.data.imageID, "")] &&
          s.securityGroups == GroupsOf(a.template.data.securityGroupIDs)
        else
          s.images == a.images.items && s.securityGroups == a.securityGroups.items &&
          |s.securityGroups| <= ATTACH_LIMIT)
  }

  /** A failed resolution keeps the list of the last one that succeeded. */
  lemma FailureKeepsList(s: Status, spec: Spec, a: Answers, now: int)
    ensures var after := Reconciled(s, spec, a, now);
            && (!Found(a.vSwitches) ==> after.vSwitches == s.vSwitches)
            && (!RoleOk(spec, a) ==> after.ramRole == s.ramRole)
            && (spec.launchTemplateID.None? && !Attachable(a.securityGroups) ==>
                  after.securityGroups == s.securityGroups)
            && (spec.launchTemplateID.None? && !Found(a.images) ==> after.images == s.images)
            && (spec.launchTemplateID.Some? && !ResourcesResolved(spec, a) ==>
                  after.securityGroups == s.securityGroups && after.vSwitches == s.vSwitches)
  {
    hide Set, Get;
  }

  // ----- any run of reconciles

  /** The stored status changes only when the update goes through; the spec may change in between. */
  datatype Event = Event(spec: Spec, answers: Answers, now: int, stored: bool)

  function Step(s: Status, e: Event): Status {
    if e.stored then Reconciled(s, e.spec, e.answers, e.now) else s
  }

  function Run(s: Status, events: seq<Event>): Status {
    if events == [] then s else Step(Run(s, events[..|events| - 1]), events[|events| - 1])
  }

  function LastStored(events: seq<Event>): Option<Event> {
    if events == [] then None
    else
      var e := events[|events| - 1];
      if e.stored then Some(e) else LastStored(events[..|events| - 1])
  }

  /** When the outcome last differed from that of the stored reconcile before it. */
  function LastChange(events: seq<Event>): int
    requires LastStored(events).Some?
  {
    var n := |events| - 1;
    var earlier := LastStored(events[..n]);
    if !events[n].stored then LastChange(events[..n])
    else if earlier.Some? && (AllResolved(earlier.value.spec, earlier.value.answers) <==>
                              AllResolved(events[n].spec, events[n].answers)) then LastChange(events[..n])
    else events[n].now
  }

  ghost predicate Faithful(s: Status, last: Event) {
    && (Holds(s, Ready) <==> AllHold(s))
    && (Holds(s, Ready) <==> AllResolved(last.spec, last.answers))
    && (Holds(s, Ready) ==> Usable(s, last.spec))
    && StatusOf(s, Ready) == Some(if AllResolved(last.spec, last.answers) then IsTrue else IsFalse)
  }

  /**
   In every run from a NodeClass without conditions, Ready tells whether the last stored reconcile
   found everything, and its transition time is when that answer last changed.
   */
  lemma {:induction false} RunIsFaithful(s: Status, events: seq<Event>)
    requires s.conditions == []
    ensures UniqueKinds(Run(s, events).conditions)
    ensures LastStored(events).None? ==> Run(s, events) == s
    ensures LastStored(events).Some? ==> Faithful(Run(s, events), LastStored(events).value)
    ensures LastStored(events).Some? ==> Get(Run(s, events).conditions, Ready).value.transition == LastChange(events)
    decreases |events|
  {
    if events != [] {
      var n := |events| - 1;
      RunIsFaithful(s, events[..n]);
      if events[n].stored {
        StoredStep(Run(s, events[..n]), events[n]);
      }
    }
  }

  lemma StoredStep(s: Status, e: Event)
    requires e.stored && UniqueKinds(s.conditions)
    ensures var after := Step(s, e);
            && UniqueKinds(after.conditions) && Faithful(after, e) && TransitionFollows(s, after, Ready, e.now)
  {
    ReconcileKeepsKindsUnique(s, e.spec, e.answers, e.now);
    ReconcileDecidesReadiness(s, e.spec, e.answers, e.now);
    ReadyMeansUsable(s, e.spec, e.answers, e.now);
    ReconcileMovesTransitions(s, e.spec, e.answers, e.now);
    ReadyIsNeverUnknown(s, e.spec, e.answers, e.now);
  }

  lemma ReadyIsNeverUnknown(s: Status, spec: Spec, a: Answers, now: int)
    ensures StatusOf(Reconciled(s, spec, a, now), Ready) == Some(if AllResolved(spec, a) then IsTrue else IsFalse)
  {
    hide Set;
    var t := RoleStep(ResolveStep(s, spec, a, now), spec, a, now);
    ResolveDecides(s, spec, a, now);
    FourConditions(t);
  }
}
