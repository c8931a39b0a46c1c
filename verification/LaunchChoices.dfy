/**
 pkg/cloudprovider/cloudprovider.go: what a launch is allowed to use, read off the NodeClaim's
 requirements and the NodeClass.
 */
module LaunchChoices {
  import opened Wrappers
  import opened Requirements
  import VSwitches
  import LabelValues

  type VSwitch = VSwitches.VSwitch

  datatype Image = Image(id: string, architecture: string)

  // ----- zones

  /** The values of the first zone In requirement; later ones are not looked at. */
  function AllowedZones(requirements: seq<Requirement>): seq<string> {
    if requirements == [] then []
    else if IsIn(requirements[0], LABEL_ZONE) then requirements[0].values
    else AllowedZones(requirements[1..])
  }

  method ZonesFromRequirements(requirements: seq<Requirement>) returns (zones: seq<string>)
    ensures zones == AllowedZones(requirements)
    ensures if exists r :: r in requirements && IsIn(r, "topology.kubernetes.io/zone") then
              exists i :: 0 <= i < |requirements| && zones == requirements[i].values &&
                          IsIn(requirements[i], "topology.kubernetes.io/zone") &&
                          forall j :: 0 <= j < i ==> !IsIn(requirements[j], "topology.kubernetes.io/zone")
            else zones == []
  {
    for i := 0 to |requirements|
      invariant AllowedZones(requirements) == AllowedZones(requirements[i..])
      invariant forall j :: 0 <= j < i ==> !IsIn(requirements[j], LABEL_ZONE)
    {
      if requirements[i].key == LABEL_ZONE && requirements[i].operator == In {
        return requirements[i].values;
      }
    }
    return [];
  }

  function ZoneOf(v: VSwitch): string {
    if v.zoneID == "" then v.zone else v.zoneID
  }

  predicate InAllowedZone(v: VSwitch, allowed: seq<string>) {
    allowed == [] || ZoneOf(v) in allowed
  }

  /** The vSwitches in allowed zones, in their order. */
  function InZones(vSwitches: seq<VSwitch>, allowed: seq<string>): (r: seq<VSwitch>)
    ensures forall v :: v in r <==> v in vSwitches && InAllowedZone(v, allowed)
  {
    if vSwitches == [] then []
    else
      var n := |vSwitches| - 1;
      assert vSwitches == vSwitches[..n] + [vSwitches[n]];
      InZones(vSwitches[..n], allowed) + if InAllowedZone(vSwitches[n], allowed) then [vSwitches[n]] else []
  }

  lemma {:induction false} EverythingInZones(vSwitches: seq<VSwitch>)
    ensures InZones(vSwitches, []) == vSwitches
    decreases |vSwitches|
  {
    if vSwitches != [] {
      var n := |vSwitches| - 1;
      EverythingInZones(vSwitches[..n]);
      assert vSwitches == vSwitches[..n] + [vSwitches[n]];
    }
  }

  /** Filtering neither repeats nor loses a vSwitch in an allowed zone. */
  lemma {:induction false} InZonesKeepsCounts(vSwitches: seq<VSwitch>, allowed: seq<string>, v: VSwitch)
    ensures multiset(InZones(vSwitches, allowed))[v] == if InAllowedZone(v, allowed) then multiset(vSwitches)[v] else 0
    decreases |vSwitches|
  {
    if vSwitches != [] {
      var n := |vSwitches| - 1;
      InZonesKeepsCounts(vSwitches[..n], allowed, v);
      assert vSwitches == vSwitches[..n] + [vSwitches[n]];
    }
  }

  method FilterVSwitchesByZones(vSwitches: seq<VSwitch>, allowedZones: seq<string>) returns (filtered: seq<VSwitch>)
    ensures filtered == InZones(vSwitches, allowedZones)
    ensures forall v :: v in filtered <==>
              v in vSwitches && (allowedZones == [] || (if v.zoneID == "" then v.zone else v.zoneID) in allowedZones)
  {
    if |allowedZones| == 0 {
      EverythingInZones(vSwitches);
      return vSwitches;
    }
    var allowed: set<string> := {};
    for i := 0 to |allowedZones|
      invariant forall z :: z in allowed <==> z in allowedZones[..i]
    {
      assert allowedZones[..i + 1] == allowedZones[..i] + [allowedZones[i]];
      allowed := allowed + {allowedZones[i]};
    }
    assert allowedZones[..|allowedZones|] == allowedZones;
    filtered := [];
    for i := 0 to |vSwitches|
      invariant filtered == InZones(vSwitches[..i], allowedZones)
    {
      assert vSwitches[..i + 1][..i] == vSwitches[..i];
      var zone := vSwitches[i].zoneID;
      if zone == "" {
        zone := vSwitches[i].zone;
      }
      if zone in allowed {
        filtered := filtered + [vSwitches[i]];
      }
    }
    assert vSwitches[..|vSwitches|] == vSwitches;
  }

  /** The zone satisfies every zone In requirement. */
  predicate MeetsZoneRequirements(zone: string, requirements: seq<Requirement>) {
    forall r :: r in requirements && IsIn(r, LABEL_ZONE) ==> zone in r.values
  }

  /** Whether the first zone In requirement speaks for all of them. */
  predicate FirstZonesDecide(requirements: seq<Requirement>) {
    && (AllowedZones(requirements) == [] ==> forall r :: r in requirements ==> !IsIn(r, LABEL_ZONE))
    && (forall z :: z in AllowedZones(requirements) ==> MeetsZoneRequirements(z, requirements))
  }

  predicate KeptVSwitchMeets(v: VSwitch, vSwitches: seq<VSwitch>, requirements: seq<Requirement>) {
    v in InZones(vSwitches, AllowedZones(requirements)) ==> MeetsZoneRequirements(ZoneOf(v), requirements)
  }

  /**
   The vSwitches kept meet every zone In requirement, whatever vSwitches there are, exactly when
   the first one is not empty and allows no zone that another forbids.
   */
  lemma ZonesRespected(requirements: seq<Requirement>)
    ensures (forall vSwitches, v :: KeptVSwitchMeets(v, vSwitches, requirements)) <==> FirstZonesDecide(requirements)
  {
    var allowed := AllowedZones(requirements);
    if forall vSwitches, v :: KeptVSwitchMeets(v, vSwitches, requirements) {
      forall z | allowed == [] || z in allowed ensures MeetsZoneRequirements(z, requirements) {
        var v := Zoned(z);
        assert v in InZones([v], allowed);
        assert KeptVSwitchMeets(v, [v], requirements);
      }
      if allowed == [] {
        assert MeetsZoneRequirements("", requirements);
        NoZoneMeetsTheFirst(requirements);
      }
    }
    if FirstZonesDecide(requirements) {
      forall vSwitches, v ensures KeptVSwitchMeets(v, vSwitches, requirements) {
        if v in InZones(vSwitches, allowed) {
          assert InAllowedZone(v, allowed);
        }
      }
    }
  }

  function Zoned(zone: string): VSwitch {
    VSwitches.VSwitch("", zone, zone, 0)
  }

  lemma {:induction false} NoZoneMeetsTheFirst(requirements: seq<Requirement>)
    requires AllowedZones(requirements) == []
    ensures (exists r :: r in requirements && IsIn(r, LABEL_ZONE)) ==>
              forall z :: !MeetsZoneRequirements(z, requirements)
    decreases |requirements|
  {
    if requirements != [] {
      if IsIn(requirements[0], LABEL_ZONE) {
        assert requirements[0] in requirements;
      } else {
        NoZoneMeetsTheFirst(requirements[1..]);
        assert requirements == [requirements[0]] + requirements[1..];
        forall z ensures MeetsZoneRequirements(z, requirements) ==> MeetsZoneRequirements(z, requirements[1..]) {
        }
      }
    }
  }

  // ----- capacity type and spot strategy

  const NO_SPOT := "NoSpot"
  const AS_PRICE_GO := "SpotAsPriceGo"
  const WITH_PRICE_LIMIT := "SpotWithPriceLimit"

  predicate AllowsSpot(r: Requirement) {
    IsIn(r, LABEL_CAPACITY_TYPE) && SPOT in r.values
  }

  predicate WantsSpot(requirements: seq<Requirement>) {
    exists r :: r in requirements && AllowsSpot(r)
  }

  function CapacityType(requirements: seq<Requirement>): string {
    if WantsSpot(requirements) then SPOT else ON_DEMAND
  }

  method CapacityTypeFromRequirements(requirements: seq<Requirement>) returns (t: string)
    ensures t == CapacityType(requirements)
    ensures t == "spot" || t == "on-demand"
    ensures t == "spot" <==>
            exists r :: r in requirements &&
                        r.key == "karpenter.sh/capacity-type" && r.operator == In && "spot" in r.values
  {
    for i := 0 to |requirements|
      invariant forall j :: 0 <= j < i ==> !AllowsSpot(requirements[j])
    {
      var r := requirements[i];
      if r.key == LABEL_CAPACITY_TYPE && r.operator == In {
        for j := 0 to |r.values|
          invariant SPOT !in r.values[..j]
        {
          if r.values[j] == SPOT {
            assert r in requirements && AllowsSpot(r);
            return SPOT;
          }
        }
      }
    }
    return ON_DEMAND;
  }

  predicate IsValidSpotStrategy(strategy: string) {
    var s := LabelValues.Trim(strategy, LabelValues.IsSpace);
    s == AS_PRICE_GO || s == WITH_PRICE_LIMIT
  }

  function SpotStrategy(capacityType: string, requested: Option<string>): string {
    if capacityType != SPOT then NO_SPOT
    else if requested.Some? then
      var s := LabelValues.Trim(requested.value, LabelValues.IsSpace);
      if IsValidSpotStrategy(s) then s else AS_PRICE_GO
    else AS_PRICE_GO
  }

  /**
   What is sent to ECS is one of its strategies, and asks for spot exactly for spot capacity: then
   it is the user's, spaces around it removed, if that is one for spot, else SpotAsPriceGo.
   */
  lemma SpotStrategyMatchesCapacityType(capacityType: string, requested: Option<string>)
    ensures var s := SpotStrategy(capacityType, requested);
            var trimmed := if requested.Some? then LabelValues.Trim(requested.value, LabelValues.IsSpace) else "";
            if capacityType != "spot" then s == "NoSpot"
            else if trimmed == "SpotWithPriceLimit" then s == "SpotWithPriceLimit"
            else s == "SpotAsPriceGo"
  {
    if requested.Some? {
      var s := LabelValues.Trim(requested.value, LabelValues.IsSpace);
      LabelValues.TrimKeepsEndsClean(requested.value, LabelValues.IsSpace);
      assert LabelValues.Trim(s, LabelValues.IsSpace) == s;
    }
  }

  // ----- images

  /** `kubeArch` is ecsutil.KubeArchitecture. */
  predicate Suits(image: Image, target: string, kubeArch: string -> string) {
    kubeArch(image.architecture) == target
  }

  /** Images[i] is the first of the target architecture. */
  predicate IsFirstOf(images: seq<Image>, i: nat, target: string, kubeArch: string -> string) {
    && i < |images| && kubeArch(images[i].architecture) == target
    && forall j :: 0 <= j < i ==> kubeArch(images[j].architecture) != target
  }

  function FirstSuitable(images: seq<Image>, target: string, kubeArch: string -> string): (r: Option<Image>)
    ensures r.Some? ==> r.value in images && Suits(r.value, target, kubeArch)
    ensures r.None? ==> forall image :: image in images ==> !Suits(image, target, kubeArch)
  {
    if images == [] then None
    else if Suits(images[0], target, kubeArch) then Some(images[0])
    else FirstSuitable(images[1..], target, kubeArch)
  }

  function ImageFor(images: seq<Image>, target: string, kubeArch: string -> string): (image: Image)
    requires images != []
    ensures image in images
    ensures (exists i :: i in images && Suits(i, target, kubeArch)) ==> Suits(image, target, kubeArch)
  {
    FirstSuitable(images, target, kubeArch).GetOr(images[0])
  }

  lemma {:induction false} FirstSuitableIsFirst(images: seq<Image>, target: string, kubeArch: string -> string)
    ensures var r := FirstSuitable(images, target, kubeArch);
            r.Some? ==> exists i: nat :: IsFirstOf(images, i, target, kubeArch) && images[i] == r.value
    decreases |images|
  {
    if images != [] && kubeArch(images[0].architecture) == target {
      assert IsFirstOf(images, 0, target, kubeArch);
    } else if images != [] {
      FirstSuitableIsFirst(images[1..], target, kubeArch);
      if i: nat :| IsFirstOf(images[1..], i, target, kubeArch) &&
                   images[1..][i] == FirstSuitable(images, target, kubeArch).GetOr(images[0]) {
        assert IsFirstOf(images, i + 1, target, kubeArch);
      }
    }
  }

  /** The first image of the architecture; without one, the first image. */
  lemma ImageForIsFirst(images: seq<Image>, target: string, kubeArch: string -> string)
    requires images != []
    ensures var image := ImageFor(images, target, kubeArch);
            if exists i :: i in images && kubeArch(i.architecture) == target then
              exists i: nat :: IsFirstOf(images, i, target, kubeArch) && images[i] == image
            else image == images[0]
  {
    FirstSuitableIsFirst(images, target, kubeArch);
  }

  method SelectImageForArchitecture(images: seq<Image>, target: string, kubeArch: string -> string)
    returns (image: Image)
    requires images != []
    ensures image == ImageFor(images, target, kubeArch)
    ensures if exists i :: i in images && kubeArch(i.architecture) == target then
              exists i: nat :: IsFirstOf(images, i, target, kubeArch) && images[i] == image
            else image == images[0]
  {
    ImageForIsFirst(images, target, kubeArch);
    for i := 0 to |images|
      invariant FirstSuitable(images, target, kubeArch) == FirstSuitable(images[i..], target, kubeArch)
    {
      if kubeArch(images[i].architecture) == target {
        return images[i];
      }
    }
    return images[0];
  }
}
