/** pkg/cloudprovider/cloudprovider.go, GetInstanceTypes: instance types become offerings. */
module Offerings {
  import opened Wrappers
  import opened Requirements
  import opened Inventory
  import opened InstanceTypes
  import LaunchChoices
  import LaunchPlans

  datatype Offering = Offering(zone: string, capacityType: string, available: bool)

  datatype CoreType = CoreType(name: string, offerings: seq<Offering>)

  // ----- the offerings of one instance type

  predicate Offered(info: ZoneInfo, c: string) {
    c in info.knownCapacityTypes || c in info.capacityTypes
  }

  predicate IsOffering(o: Offering, zones: map<string, ZoneInfo>, configured: set<string>) {
    && o.zone in zones && o.zone in configured && Offered(zones[o.zone], o.capacityType)
    && (o.available <==> o.capacityType in zones[o.zone].capacityTypes)
  }

  predicate OnePerPair(os: seq<Offering>) {
    forall i, j :: 0 <= i < j < |os| ==> os[i].zone != os[j].zone || os[i].capacityType != os[j].capacityType
  }

  ghost predicate Offers(os: seq<Offering>, zones: map<string, ZoneInfo>, configured: set<string>) {
    OnePerPair(os) && forall o :: o in os <==> IsOffering(o, zones, configured)
  }

  method ConfiguredZones(vSwitches: seq<LaunchChoices.VSwitch>) returns (zones: set<string>)
    ensures forall z :: z in zones <==> exists v :: v in vSwitches && LaunchChoices.ZoneOf(v) == z
  {
    zones := {};
    for i := 0 to |vSwitches|
      invariant forall z :: z in zones <==> exists j :: 0 <= j < i && LaunchChoices.ZoneOf(vSwitches[j]) == z
    {
      var zone := vSwitches[i].zoneID;
      if zone == "" {
        zone := vSwitches[i].zone;
      }
      zones := zones + {zone};
    }
    forall z ensures z in zones <==> exists v :: v in vSwitches && LaunchChoices.ZoneOf(v) == z {
      if v :| v in vSwitches && LaunchChoices.ZoneOf(v) == z {
        var j :| 0 <= j < |vSwitches| && vSwitches[j] == v;
      }
    }
  }

  method CapacityTypeAvailability(info: ZoneInfo) returns (availability: map<string, bool>)
    ensures forall c :: c in availability <==> Offered(info, c)
    ensures forall c :: c in availability ==> (availability[c] <==> c in info.capacityTypes)
  {
    availability := map[];
    for i := 0 to |info.knownCapacityTypes|
      invariant forall c :: c in availability <==> c in info.knownCapacityTypes[..i]
      invariant forall c :: c in availability ==> !availability[c]
    {
      availability := availability[info.knownCapacityTypes[i] := false];
    }
    for i := 0 to |info.capacityTypes|
      invariant forall c :: c in availability <==> c in info.knownCapacityTypes || c in info.capacityTypes[..i]
      invariant forall c :: c in availability ==> (availability[c] <==> c in info.capacityTypes[..i])
    {
      availability := availability[info.capacityTypes[i] := true];
    }
  }

  method OfferingsInZone(zone: string, info: ZoneInfo) returns (os: seq<Offering>)
    ensures OnePerPair(os)
    ensures forall o :: o in os <==>
              o.zone == zone && Offered(info, o.capacityType) && (o.available <==> o.capacityType in info.capacityTypes)
  {
    var availability := CapacityTypeAvailability(info);
    os := [];
    var rest := availability.Keys;
    while rest != {}
      invariant rest <= availability.Keys
      invariant OnePerPair(os)
      invariant forall o :: o in os <==>
                  o.zone == zone && o.capacityType in availability && o.capacityType !in rest &&
                  o.available == availability[o.capacityType]
      decreases rest
    {
      var c :| c in rest;
      forall i | 0 <= i < |os| ensures os[i].capacityType != c {
        assert os[i] in os;
      }
      os := os + [Offering(zone, c, availability[c])];
      rest := rest - {c};
    }
  }

  method BuildOfferings(zones: map<string, ZoneInfo>, configured: set<string>) returns (os: seq<Offering>)
    ensures Offers(os, zones, configured)
  {
    hide Offered;
    os := [];
    var rest := zones.Keys;
    while rest != {}
      invariant rest <= zones.Keys
      invariant OnePerPair(os)
      invariant forall o :: o in os <==> o.zone !in rest && IsOffering(o, zones, configured)
      decreases rest
    {
      var z :| z in rest;
      if z in configured {
        var here := OfferingsInZone(z, zones[z]);
        forall i, j | 0 <= i < |os| && 0 <= j < |here| ensures os[i].zone != here[j].zone {
          assert os[i] in os && here[j] in here;
        }
        os := os + here;
      }
      rest := rest - {z};
    }
  }

  // ----- GetInstanceTypes

  datatype CoreError = ClassNotReady | ReadinessUnknown | NoVSwitches | ListFailed(error: ListError) | NothingOffered

  ghost predicate HasOffering(zones: map<string, ZoneInfo>, configured: set<string>) {
    exists o :: IsOffering(o, zones, configured)
  }

  /** `capacityKnown` says whether calculateCapacityAndAllocatable succeeds. */
  predicate Usable(t: InstanceType, capacityKnown: Attributes -> bool) {
    t.attributes.cpu.Some? && t.attributes.memory.Some? && capacityKnown(t.attributes)
  }

  ghost predicate IsReturned(t: InstanceType, configured: set<string>, capacityKnown: Attributes -> bool) {
    Usable(t, capacityKnown) && HasOffering(t.zones, configured)
  }

  ghost function Returned(types: seq<InstanceType>, configured: set<string>, capacityKnown: Attributes -> bool)
    : (kept: seq<InstanceType>)
    ensures forall t :: t in kept <==> t in types && IsReturned(t, configured, capacityKnown)
  {
    if types == [] then []
    else
      var n := |types| - 1;
      assert types == types[..n] + [types[n]];
      Returned(types[..n], configured, capacityKnown) +
        if IsReturned(types[n], configured, capacityKnown) then [types[n]] else []
  }

  ghost predicate AreCoreTypes(cores: seq<CoreType>, types: seq<InstanceType>, configured: set<string>) {
    && |cores| == |types|
    && forall i :: 0 <= i < |cores| ==>
         cores[i].name == types[i].attributes.name && Offers(cores[i].offerings, types[i].zones, configured)
  }

  method ConvertTypes(types: seq<InstanceType>, configured: set<string>, capacityKnown: Attributes -> bool)
    returns (cores: seq<CoreType>)
    ensures AreCoreTypes(cores, Returned(types, configured, capacityKnown), configured)
  {
    hide Offers, IsOffering;
    cores := [];
    for i := 0 to |types|
      invariant AreCoreTypes(cores, Returned(types[..i], configured, capacityKnown), configured)
    {
      assert types[..i + 1][..i] == types[..i];
      var t := types[i];
      if t.attributes.cpu.Some? && t.attributes.memory.Some? && capacityKnown(t.attributes) {
        var os := BuildOfferings(t.zones, configured);
        NonEmptyMeansOffering(os, t.zones, configured);
        if |os| > 0 {
          cores := cores + [CoreType(t.attributes.name, os)];
        }
      }
    }
    assert types[..|types|] == types;
  }

  lemma NonEmptyMeansOffering(os: seq<Offering>, zones: map<string, ZoneInfo>, configured: set<string>)
    requires Offers(os, zones, configured)
    ensures os != [] <==> HasOffering(zones, configured)
  {
    if os != [] {
      assert os[0] in os;
    }
  }

  method GetInstanceTypes(
    readiness: LaunchPlans.Readiness, vSwitches: seq<LaunchChoices.VSwitch>,
    listing: Result<seq<InstanceType>, ListError>, requirements: seq<Requirement>,
    labelOf: (Attributes, string) -> Option<string>, capacityKnown: Attributes -> bool)
    returns (r: Result<seq<CoreType>, CoreError>, ghost configured: set<string>)
    ensures forall z :: z in configured <==> exists v :: v in vSwitches && LaunchChoices.ZoneOf(v) == z
    ensures readiness == LaunchPlans.NotReady ==> r == Err(ClassNotReady)
    ensures readiness == LaunchPlans.UnknownReady ==> r == Err(ReadinessUnknown)
    ensures readiness == LaunchPlans.Ready ==>
              if vSwitches == [] then r == Err(NoVSwitches)
              else if listing.Err? then r == Err(ListFailed(listing.error))
              else
                var types := Returned(Filtered(listing.value, requirements, labelOf), configured, capacityKnown);
                if types == [] then r == Err(NothingOffered) else r.Ok? && AreCoreTypes(r.value, types, configured)
  {
    hide Offers, Returned;
    var zones := ConfiguredZones(vSwitches);
    configured := zones;
    if readiness == LaunchPlans.NotReady {
      return Err(ClassNotReady), configured;
    }
    if readiness == LaunchPlans.UnknownReady {
      return Err(ReadinessUnknown), configured;
    }
    if |vSwitches| == 0 {
      return Err(NoVSwitches), configured;
    }
    if listing.Err? {
      return Err(ListFailed(listing.error)), configured;
    }
    var filtered := FilterInstanceTypesByRequirements(listing.value, requirements, labelOf);
    var cores := ConvertTypes(filtered, zones, capacityKnown);
    if |cores| == 0 {
      return Err(NothingOffered), configured;
    }
    return Ok(cores), configured;
  }

  // ----- offerings are the inventory

  /**
   Every known pair of a type in a configured, available zone has exactly one offering, and it is
   available exactly when the pair is in stock.
   */
  lemma OfferingsMatchInventory(
    os: seq<Offering>, t: InstanceType, e: EcsType, configured: set<string>, zones: map<string, bool>,
    inventory: Option<Stock>, kubeArch: string -> string, z: string, c: string, available: bool)
    requires Lists(t, e, zones, inventory, kubeArch) && Offers(os, t.zones, configured)
    ensures var name := t.attributes.name;
            Offering(z, c, available) in os <==>
              z in configured && z in zones && zones[z] &&
              KnownPair(inventory, name, z, c) && (available <==> StockPair(inventory, name, z, c))
    ensures OnePerPair(os)
  {
    assert Offering(z, c, available) in os <==> IsOffering(Offering(z, c, available), t.zones, configured);
    assert z in t.zones <==> Serves(zones, inventory, t.attributes.name, z);
    if z in t.zones {
      assert Describes(t.zones[z], inventory, t.attributes.name, z);
    }
  }

  /** The offerings of a returned type are what the inventory knows of it. */
  ghost predicate MatchesInventory(
    core: CoreType, inventory: Option<Stock>, zones: map<string, bool>, configured: set<string>)
  {
    && OnePerPair(core.offerings)
    && forall z, c, available :: Offering(z, c, available) in core.offerings <==>
         z in configured && z in zones && zones[z] &&
         KnownPair(inventory, core.name, z, c) && (available <==> StockPair(inventory, core.name, z, c))
  }

  lemma CoreMatchesInventory(
    core: CoreType, t: InstanceType, e: EcsType, configured: set<string>, zones: map<string, bool>,
    inventory: Option<Stock>, kubeArch: string -> string)
    requires Lists(t, e, zones, inventory, kubeArch)
    requires core.name == t.attributes.name && Offers(core.offerings, t.zones, configured)
    ensures MatchesInventory(core, inventory, zones, configured)
  {
    hide Lists, Offers;
    OnePerPairOf(core.offerings, t.zones, configured);
    forall z, c, available
      ensures Offering(z, c, available) in core.offerings <==>
              z in configured && z in zones && zones[z] &&
              KnownPair(inventory, core.name, z, c) && (available <==> StockPair(inventory, core.name, z, c))
    {
      OfferingsMatchInventory(core.offerings, t, e, configured, zones, inventory, kubeArch, z, c, available);
    }
  }

  lemma OnePerPairOf(os: seq<Offering>, zones: map<string, ZoneInfo>, configured: set<string>)
    requires Offers(os, zones, configured)
    ensures OnePerPair(os)
  {
  }

  lemma CoresMatchInventory(
    cores: seq<CoreType>, types: seq<InstanceType>, requirements: seq<Requirement>,
    labelOf: (Attributes, string) -> Option<string>, capacityKnown: Attributes -> bool, configured: set<string>,
    ecs: seq<Option<EcsType>>, zones: map<string, bool>, inventory: Option<Stock>, kubeArch: string -> string)
    requires IsListing(types, Kept(ecs, zones, inventory), zones, inventory, kubeArch)
    requires AreCoreTypes(
      cores, Returned(Filtered(types, requirements, labelOf), configured, capacityKnown), configured)
    ensures forall core :: core in cores ==> MatchesInventory(core, inventory, zones, configured)
  {
    hide Kept, Offers, Lists, MatchesInventory, Returned, Filtered, Passes, IsReturned;
    var returned := Returned(Filtered(types, requirements, labelOf), configured, capacityKnown);
    var kept := Kept(ecs, zones, inventory);
    forall core | core in cores ensures MatchesInventory(core, inventory, zones, configured) {
      var i :| 0 <= i < |cores| && cores[i] == core;
      assert returned[i] in returned;
      var k :| 0 <= k < |types| && types[k] == returned[i];
      CoreMatchesInventory(core, types[k], kept[k], configured, zones, inventory, kubeArch);
    }
  }

  // ----- offerings are the answers

  /** The offerings of a returned type, read off the rows of the two stock queries. */
  ghost predicate MatchesRows(core: CoreType, rows: seq<Row>, zones: map<string, bool>, configured: set<string>) {
    && OnePerPair(core.offerings)
    && forall z, c, available :: Offering(z, c, available) in core.offerings <==>
         z in configured && z in zones && zones[z] &&
         HasRow(rows, core.name, z, c) && (available <==> HasStockRow(rows, core.name, z, c))
  }

  /**
   And off the answers themselves: a pair is offered when the answer for its capacity type reports
   one of the four statuses, available when it reports one of the two with stock. Without both
   answers everything is offered as available.
   */
  ghost predicate MatchesAnswers(
    core: CoreType, onDemand: Response, spot: Response, zones: map<string, bool>, configured: set<string>)
  {
    forall z, c, available :: Offering(z, c, available) in core.offerings <==>
      z in configured && z in zones && zones[z] &&
      if onDemand.Failed? || spot.Failed? then available && (c == "on-demand" || c == "spot")
      else KnownFrom(onDemand, spot, core.name, z, c) && (available <==> StockedFrom(onDemand, spot, core.name, z, c))
  }

  lemma InventoryMatchesRows(
    core: CoreType, inv: Stock, rows: seq<Row>, zones: map<string, bool>, configured: set<string>)
    requires Represents(inv, rows) && MatchesInventory(core, Some(inv), zones, configured)
    ensures MatchesRows(core, rows, zones, configured)
  {
    forall z, c, available
      ensures Offering(z, c, available) in core.offerings <==>
              z in configured && z in zones && zones[z] &&
              HasRow(rows, core.name, z, c) && (available <==> HasStockRow(rows, core.name, z, c))
    {
      assert Knows(inv, core.name, z, c) <==> HasRow(rows, core.name, z, c);
      assert InStock(inv, core.name, z, c) <==> HasStockRow(rows, core.name, z, c);
    }
  }

  lemma InventoryMatchesAnswers(
    core: CoreType, inventory: Option<Stock>, onDemand: Response, spot: Response, zones: map<string, bool>,
    configured: set<string>)
    requires MatchesInventory(core, inventory, zones, configured)
    requires inventory.None? <==> onDemand.Failed? || spot.Failed?
    requires inventory.Some? ==> MatchesReports(inventory.value, onDemand, spot)
    ensures MatchesAnswers(core, onDemand, spot, zones, configured)
  {
    hide KnownFrom, StockedFrom;
  }

  /**
   GetInstanceTypes down to the API: what DescribeAvailableResource answers twice, DescribeZones
   and DescribeInstanceTypes. Every recognised row triple of a returned type in a configured,
   available zone has one offering, available exactly when some row has stock.
   */
  method OfferFromAnswers(
    onDemand: Response, spot: Response, zones: Option<map<string, bool>>, ecs: Option<seq<Option<EcsType>>>,
    readiness: LaunchPlans.Readiness, vSwitches: seq<LaunchChoices.VSwitch>, requirements: seq<Requirement>,
    labelOf: (Attributes, string) -> Option<string>, capacityKnown: Attributes -> bool, kubeArch: string -> string)
    returns (r: Result<seq<CoreType>, CoreError>, ghost configured: set<string>)
    ensures forall z :: z in configured <==> exists v :: v in vSwitches && LaunchChoices.ZoneOf(v) == z
    ensures r.Ok? ==> zones.Some? && ecs.Some? && r.value != []
    ensures r.Ok? && !onDemand.Failed? && !spot.Failed? ==>
              forall core :: core in r.value ==> MatchesRows(core, AllRows(onDemand, spot), zones.value, configured)
    ensures r.Ok? ==> forall core :: core in r.value ==>
              OnePerPair(core.offerings) && MatchesAnswers(core, onDemand, spot, zones.value, configured)
  {
    hide Represents, MatchesRows, MatchesReports, MatchesAnswers, IsListing, Returned, Filtered, NoEmptyMaps;
    var inventory := GetInventory(onDemand, spot);
    if inventory.Some? {
      RepresentsTidily(inventory.value, AllRows(onDemand, spot));
    }
    var listing := List(zones, inventory, ecs, kubeArch);
    r, configured := GetInstanceTypes(readiness, vSwitches, listing, requirements, labelOf, capacityKnown);
    if r.Ok? {
      CoresMatchInventory(r.value, listing.value, requirements, labelOf, capacityKnown, configured, ecs.value,
                          zones.value, inventory, kubeArch);
      forall core | core in r.value
        ensures inventory.Some? ==> MatchesRows(core, AllRows(onDemand, spot), zones.value, configured)
        ensures OnePerPair(core.offerings) && MatchesAnswers(core, onDemand, spot, zones.value, configured)
      {
        InventoryMatchesAnswers(core, inventory, onDemand, spot, zones.value, configured);
        if inventory.Some? {
          InventoryMatchesRows(core, inventory.value, AllRows(onDemand, spot), zones.value, configured);
        }
      }
    }
  }

  lemma RepresentsTidily(inv: Stock, rows: seq<Row>)
    requires Represents(inv, rows)
    ensures NoEmptyMaps(inv)
  {
  }

  // ----- stock running out

  /** The same zones and known capacity types, with no more in stock than before. */
  ghost predicate LoweredZone(info: ZoneInfo, lower: ZoneInfo) {
    && (forall c :: Offered(lower, c) <==> Offered(info, c))
    && (forall c :: c in lower.capacityTypes ==> c in info.capacityTypes)
    && (lower.available ==> info.available)
  }

  ghost predicate LoweredZones(zones: map<string, ZoneInfo>, lower: map<string, ZoneInfo>) {
    && (forall z :: z in lower <==> z in zones)
    && (forall z :: z in zones && z in lower ==> LoweredZone(zones[z], lower[z]))
  }

  predicate DemandsZone(r: Requirement) {
    r.key == LABEL_ZONE && (r.operator == In || r.operator == Exists)
  }

  ghost predicate Survives(
    t: InstanceType, lower: map<string, ZoneInfo>, requirements: seq<Requirement>,
    labelOf: (Attributes, string) -> Option<string>)
  {
    LoweredZones(t.zones, lower) ==> Passes(t.(zones := lower), requirements, labelOf)
  }

  lemma SurvivesWithoutZoneDemand(
    t: InstanceType, lower: map<string, ZoneInfo>, requirements: seq<Requirement>,
    labelOf: (Attributes, string) -> Option<string>)
    requires Passes(t, requirements, labelOf) && LoweredZones(t.zones, lower)
    requires forall r :: r in requirements ==> !DemandsZone(r)
    ensures Passes(t.(zones := lower), requirements, labelOf)
  {
    forall r | r in requirements ensures Matches(t.(zones := lower), r, labelOf) {
      assert Matches(t, r, labelOf) && !DemandsZone(r);
      forall z | AvailableIn(lower, z) ensures AvailableIn(t.zones, z) {
        assert LoweredZone(t.zones[z], lower[z]);
      }
    }
  }

  function SoldOut(zones: map<string, ZoneInfo>): map<string, ZoneInfo> {
    map z | z in zones :: ZoneInfo(false, [], zones[z].knownCapacityTypes + zones[z].capacityTypes)
  }

  /**
   A type that passes the filter goes on passing whatever runs out exactly when no requirement
   asks for an available zone.
   */
  lemma OnlyZoneDemandsDropTypes(
    t: InstanceType, requirements: seq<Requirement>, labelOf: (Attributes, string) -> Option<string>)
    requires Passes(t, requirements, labelOf)
    ensures (forall lower :: Survives(t, lower, requirements, labelOf)) <==>
            (forall r :: r in requirements ==> !DemandsZone(r))
  {
    if forall r :: r in requirements ==> !DemandsZone(r) {
      forall lower ensures Survives(t, lower, requirements, labelOf) {
        if LoweredZones(t.zones, lower) {
          SurvivesWithoutZoneDemand(t, lower, requirements, labelOf);
        }
      }
    }
    if r :| r in requirements && DemandsZone(r) {
      var lower := SoldOut(t.zones);
      assert LoweredZones(t.zones, lower);
      assert forall z :: !AvailableIn(lower, z);
      assert !Matches(t.(zones := lower), r, labelOf);
      assert !Survives(t, lower, requirements, labelOf);
    }
  }

  /** Rows running out lower the zones of every type. */
  lemma RunningOutLowersZones(
    info: map<string, ZoneInfo>, lower: map<string, ZoneInfo>, zones: map<string, bool>, inv: Stock, low: Stock,
    rows: seq<Row>, lowered: seq<Row>, t: string)
    requires DescribesZones(info, zones, Some(inv), t) && DescribesZones(lower, zones, Some(low), t)
    requires Represents(inv, rows) && Represents(low, lowered) && Lowered(rows, lowered)
    ensures LoweredZones(info, lower)
  {
    forall z ensures z in lower <==> z in info {
      SameService(zones, inv, low, rows, lowered, t, z);
      assert z in lower <==> Serves(zones, Some(low), t, z);
      assert z in info <==> Serves(zones, Some(inv), t, z);
    }
    forall z | z in info && z in lower ensures LoweredZone(info[z], lower[z]) {
      RunningOutLowersZone(info[z], lower[z], inv, low, rows, lowered, t, z);
    }
  }

  lemma SameService(
    zones: map<string, bool>, inv: Stock, low: Stock, rows: seq<Row>, lowered: seq<Row>, t: string, z: string)
    requires Represents(inv, rows) && Represents(low, lowered) && Lowered(rows, lowered)
    ensures Serves(zones, Some(low), t, z) <==> Serves(zones, Some(inv), t, z)
  {
    hide Represents, Lowered;
    forall c ensures KnownPair(Some(low), t, z, c) <==> KnownPair(Some(inv), t, z, c) {
      RunningOutKeepsKnown(inv, low, rows, lowered, t, z, c);
    }
  }

  lemma RunningOutLowersZone(
    info: ZoneInfo, lower: ZoneInfo, inv: Stock, low: Stock, rows: seq<Row>, lowered: seq<Row>, t: string, z: string)
    requires Describes(info, Some(inv), t, z) && Describes(lower, Some(low), t, z)
    requires Represents(inv, rows) && Represents(low, lowered) && Lowered(rows, lowered)
    ensures LoweredZone(info, lower)
  {
    hide Represents, Lowered;
    forall c
      ensures KnownPair(Some(low), t, z, c) <==> KnownPair(Some(inv), t, z, c)
      ensures StockPair(Some(low), t, z, c) ==> StockPair(Some(inv), t, z, c)
    {
      RunningOutKeepsKnown(inv, low, rows, lowered, t, z, c);
    }
  }

  lemma {:induction false} RunningOutKeepsRows(
    ecs: seq<Option<EcsType>>, zones: map<string, bool>, inv: Stock, low: Stock, rows: seq<Row>, lowered: seq<Row>)
    requires Represents(inv, rows) && Represents(low, lowered) && Lowered(rows, lowered)
    ensures Kept(ecs, zones, Some(low)) == Kept(ecs, zones, Some(inv))
    decreases |ecs|
  {
    hide Represents, Lowered, Serves;
    if ecs != [] {
      var n := |ecs| - 1;
      RunningOutKeepsRows(ecs[..n], zones, inv, low, rows, lowered);
      if ecs[n].Some? && ecs[n].value.id.Some? {
        forall z
          ensures Serves(zones, Some(low), ecs[n].value.id.value, z) <==>
                  Serves(zones, Some(inv), ecs[n].value.id.value, z)
        {
          SameService(zones, inv, low, rows, lowered, ecs[n].value.id.value, z);
        }
      }
    }
  }

  predicate HasPair(os: seq<Offering>, z: string, c: string) {
    Offering(z, c, true) in os || Offering(z, c, false) in os
  }

  /** Offerings of lowered zones: the same pairs, none of them newly available. */
  lemma LoweredOfferings(
    os: seq<Offering>, lower: seq<Offering>, zones: map<string, ZoneInfo>, lowerZones: map<string, ZoneInfo>,
    configured: set<string>, z: string, c: string)
    requires LoweredZones(zones, lowerZones)
    requires Offers(os, zones, configured) && Offers(lower, lowerZones, configured)
    ensures HasPair(lower, z, c) <==> HasPair(os, z, c)
    ensures Offering(z, c, true) in lower ==> Offering(z, c, true) in os
  {
    forall a: bool
      ensures Offering(z, c, a) in os <==> IsOffering(Offering(z, c, a), zones, configured)
      ensures Offering(z, c, a) in lower <==> IsOffering(Offering(z, c, a), lowerZones, configured)
    {
    }
    if z in zones {
      assert LoweredZone(zones[z], lowerZones[z]);
    }
  }

  /** Two results for the same type rows, one before and one after rows ran out. */
  ghost predicate RanOut(
    cores: seq<CoreType>, lowCores: seq<CoreType>, types: seq<InstanceType>, lowTypes: seq<InstanceType>,
    requirements: seq<Requirement>, labelOf: (Attributes, string) -> Option<string>,
    capacityKnown: Attributes -> bool, configured: set<string>)
  {
    && AreCoreTypes(cores, Returned(Filtered(types, requirements, labelOf), configured, capacityKnown), configured)
    && AreCoreTypes(
         lowCores, Returned(Filtered(lowTypes, requirements, labelOf), configured, capacityKnown), configured)
  }

  ghost predicate StillOffers(lowCores: seq<CoreType>, core: CoreType) {
    exists low :: low in lowCores && low.name == core.name && SamePairs(low.offerings, core.offerings)
  }

  ghost predicate SamePairs(lower: seq<Offering>, os: seq<Offering>) {
    && (forall z, c :: HasPair(lower, z, c) <==> HasPair(os, z, c))
    && (forall z, c :: Offering(z, c, true) in lower ==> Offering(z, c, true) in os)
  }

  /**
   Without a requirement that asks for an available zone, an instance type once returned is still
   returned after any rows run out, with the same zones and capacity types: the offering of a
   running node does not disappear.
   */
  lemma RunningOutKeepsOfferings(
    cores: seq<CoreType>, lowCores: seq<CoreType>, types: seq<InstanceType>, lowTypes: seq<InstanceType>,
    requirements: seq<Requirement>, labelOf: (Attributes, string) -> Option<string>,
    capacityKnown: Attributes -> bool, configured: set<string>,
    ecs: seq<Option<EcsType>>, zones: map<string, bool>, inv: Stock, low: Stock, rows: seq<Row>, lowered: seq<Row>,
    kubeArch: string -> string, core: CoreType)
    requires forall r :: r in requirements ==> !DemandsZone(r)
    requires Represents(inv, rows) && Represents(low, lowered) && Lowered(rows, lowered)
    requires IsListing(types, Kept(ecs, zones, Some(inv)), zones, Some(inv), kubeArch)
    requires IsListing(lowTypes, Kept(ecs, zones, Some(low)), zones, Some(low), kubeArch)
    requires RanOut(cores, lowCores, types, lowTypes, requirements, labelOf, capacityKnown, configured)
    requires core in cores
    ensures StillOffers(lowCores, core)
  {
    hide Represents, Lowered, Kept, Offers, LoweredZones, DescribesZones;
    hide Returned, Filtered, Passes, IsReturned, SamePairs;
    RunningOutKeepsRows(ecs, zones, inv, low, rows, lowered);
    var kept := Kept(ecs, zones, Some(inv));
    var returned := Returned(Filtered(types, requirements, labelOf), configured, capacityKnown);
    var lowReturned := Returned(Filtered(lowTypes, requirements, labelOf), configured, capacityKnown);
    var i :| 0 <= i < |cores| && cores[i] == core;
    assert returned[i] in returned;
    var k :| 0 <= k < |types| && types[k] == returned[i];
    assert lowTypes[k] in lowTypes;
    assert Lists(types[k], kept[k], zones, Some(inv), kubeArch);
    assert Lists(lowTypes[k], kept[k], zones, Some(low), kubeArch);
    RunningOutLowersZones(types[k].zones, lowTypes[k].zones, zones, inv, low, rows, lowered, types[k].attributes.name);
    StillReturned(types[k], lowTypes[k], requirements, labelOf, capacityKnown, configured);
    var j :| 0 <= j < |lowReturned| && lowReturned[j] == lowTypes[k];
    assert lowCores[j] in lowCores;
    OfferingsStay(core.offerings, lowCores[j].offerings, types[k].zones, lowTypes[k].zones, configured);
  }

  lemma OfferingsStay(
    os: seq<Offering>, lower: seq<Offering>, zones: map<string, ZoneInfo>, lowerZones: map<string, ZoneInfo>,
    configured: set<string>)
    requires LoweredZones(zones, lowerZones)
    requires Offers(os, zones, configured) && Offers(lower, lowerZones, configured)
    ensures SamePairs(lower, os)
  {
    hide LoweredZones, Offers;
    forall z, c
      ensures HasPair(lower, z, c) <==> HasPair(os, z, c)
      ensures Offering(z, c, true) in lower ==> Offering(z, c, true) in os
    {
      LoweredOfferings(os, lower, zones, lowerZones, configured, z, c);
    }
  }

  lemma StillReturned(
    t: InstanceType, low: InstanceType, requirements: seq<Requirement>,
    labelOf: (Attributes, string) -> Option<string>, capacityKnown: Attributes -> bool, configured: set<string>)
    requires LoweredZones(t.zones, low.zones) && low.attributes == t.attributes
    requires Passes(t, requirements, labelOf) && IsReturned(t, configured, capacityKnown)
    requires forall r :: r in requirements ==> !DemandsZone(r)
    ensures Passes(low, requirements, labelOf) && IsReturned(low, configured, capacityKnown)
  {
    SurvivesWithoutZoneDemand(t, low.zones, requirements, labelOf);
    assert t.(zones := low.zones) == low;
    var o :| IsOffering(o, t.zones, configured);
    assert LoweredZone(t.zones[o.zone], low.zones[o.zone]);
    assert IsOffering(Offering(o.zone, o.capacityType, o.capacityType in low.zones[o.zone].capacityTypes),
                      low.zones, configured);
  }
}
