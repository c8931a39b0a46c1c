/** The status controller and the launch path together: what a Ready NodeClass promises to Create. */
module ReadyNodeClass {
  import opened Wrappers
  import opened Requirements
  import opened NodeClassStatus
  import LaunchChoices
  import LaunchPlans
  import NodeDrift

  /** The stored status as Create reads it; a missing condition counts as unknown. */
  function AsRead(s: Status): LaunchPlans.Status {
    LaunchPlans.Status(
      match StatusOf(s, Ready)
      case Some(IsTrue) => LaunchPlans.Ready
      case Some(IsFalse) => LaunchPlans.NotReady
      case _ => LaunchPlans.UnknownReady,
      s.images, s.vSwitches, s.securityGroups, s.ramRole)
  }

  /** Some vSwitch of the NodeClass is in a zone the NodeClaim allows. */
  ghost predicate ZonesServed(s: Status, requirements: seq<Requirement>) {
    exists v :: v in s.vSwitches && LaunchChoices.InAllowedZone(v, LaunchChoices.AllowedZones(requirements))
  }

  /**
   After any run of reconciles, Create refuses a NodeClass with the spec of the last stored one
   before launching exactly when that reconcile did not find everything, no instance type matches,
   or no vSwitch is in an allowed zone; otherwise only its disks can keep it from launching.
   */
  lemma ReadyIsLaunchable(
    s: Status, events: seq<Event>, spec: LaunchPlans.Spec, requirements: seq<Requirement>,
    types: seq<LaunchPlans.InstanceType>)
    requires s.conditions == [] && LastStored(events).Some?
    requires spec.role == LastStored(events).value.spec.role
    ensures var last, now := LastStored(events).value, Run(s, events);
            var nodeClass := LaunchPlans.NodeClass(spec, AsRead(now));
            && (NodeDrift.Refusal(nodeClass, requirements, types).None? <==>
                AllResolved(last.spec, last.answers) && types != [] && ZonesServed(now, requirements))
            && (NodeDrift.Refusal(nodeClass, requirements, types).None? ==>
                  LaunchPlans.RoleForCreate(nodeClass).Ok? &&
                  NodeDrift.InputsOf(nodeClass, requirements, types).Complete())
  {
    RunIsFaithful(s, events);
    hide Run, LastStored, AllResolved, Get;
    var now := Run(s, events);
    var kept := LaunchChoices.InZones(now.vSwitches, LaunchChoices.AllowedZones(requirements));
    assert kept != [] <==> ZonesServed(now, requirements) by {
      if kept != [] {
        assert kept[0] in kept;
      }
    }
  }
}
