/** pkg/providers/instancetype/instancetype.go: List joins types with stock, Filter selects types. */
module InstanceTypes {
  import opened Wrappers
  import opened Requirements
  import opened Inventory

  datatype ZoneInfo = ZoneInfo(available: bool, capacityTypes: seq<string>, knownCapacityTypes: seq<string>)

  /** What the labels of an instance type are derived from. */
  datatype Attributes = Attributes(name: string, architecture: string, cpu: Option<int>, memory: Option<int>)

  datatype InstanceType = InstanceType(attributes: Attributes, zones: map<string, ZoneInfo>)

  datatype EcsType = EcsType(id: Option<string>, cpu: Option<int>, memory: Option<int>, architecture: Option<string>)

  const AMD64 := "amd64"

  // ----- stock as List sees it: without an inventory everything is in stock

  predicate KnownPair(inventory: Option<Stock>, t: string, z: string, c: string) {
    if inventory.None? then c == ON_DEMAND || c == SPOT else Knows(inventory.value, t, z, c)
  }

  predicate StockPair(inventory: Option<Stock>, t: string, z: string, c: string) {
    if inventory.None? then c == ON_DEMAND || c == SPOT else InStock(inventory.value, t, z, c)
  }

  ghost predicate AnyKnown(inventory: Option<Stock>, t: string, z: string) {
    exists c :: KnownPair(inventory, t, z, c)
  }

  ghost predicate AnyStock(inventory: Option<Stock>, t: string, z: string) {
    exists c :: StockPair(inventory, t, z, c)
  }

  ghost predicate Tidy(inventory: Option<Stock>) {
    inventory.Some? ==> NoEmptyMaps(inventory.value)
  }

  ghost predicate Describes(info: ZoneInfo, inventory: Option<Stock>, t: string, z: string) {
    && (forall c :: c in info.knownCapacityTypes <==> KnownPair(inventory, t, z, c))
    && (forall c :: c in info.capacityTypes <==> StockPair(inventory, t, z, c))
    && (info.available <==> AnyStock(inventory, t, z))
  }

  /** An available zone of the region about which something is known for the type. */
  ghost predicate Serves(zones: map<string, bool>, inventory: Option<Stock>, t: string, z: string) {
    z in zones && zones[z] && AnyKnown(inventory, t, z)
  }

  ghost predicate DescribesZones(
    info: map<string, ZoneInfo>, zones: map<string, bool>, inventory: Option<Stock>, t: string)
  {
    && (forall z :: z in info <==> Serves(zones, inventory, t, z))
    && (forall z :: z in info ==> Describes(info[z], inventory, t, z))
  }

  // ----- List

  /** The two slices built from one capacity type map, in any order. */
  method CapacityTypes(stock: map<string, bool>) returns (available: seq<string>, known: seq<string>)
    ensures forall c :: c in known <==> c in stock
    ensures forall c :: c in available <==> c in stock && stock[c]
  {
    available, known := [], [];
    var rest := stock.Keys;
    while rest != {}
      invariant rest <= stock.Keys
      invariant forall c :: c in known <==> c in stock && c !in rest
      invariant forall c :: c in available <==> c in stock && c !in rest && stock[c]
      decreases rest
    {
      var c :| c in rest;
      known := known + [c];
      if stock[c] {
        available := available + [c];
      }
      rest := rest - {c};
    }
  }

  method ZoneInfoFor(inventory: Option<Stock>, t: string, z: string) returns (info: Option<ZoneInfo>)
    requires Tidy(inventory)
    ensures info.Some? <==> AnyKnown(inventory, t, z)
    ensures info.Some? ==> Describes(info.value, inventory, t, z)
  {
    if inventory.None? {
      assert StockPair(inventory, t, z, SPOT);
      assert KnownPair(inventory, t, z, SPOT);
      return Some(ZoneInfo(true, [ON_DEMAND, SPOT], [ON_DEMAND, SPOT]));
    }
    if t !in inventory.value {
      return None;
    }
    if z !in inventory.value[t] {
      return None;
    }
    var stock := inventory.value[t][z];
    var available, known := CapacityTypes(stock);
    assert stock != map[];
    ghost var c :| c in stock;
    assert KnownPair(inventory, t, z, c);
    assert |available| > 0 ==> available[0] in available && StockPair(inventory, t, z, available[0]);
    return Some(ZoneInfo(|available| > 0, available, known));
  }

  method ZonesFor(zones: map<string, bool>, inventory: Option<Stock>, t: string) returns (info: map<string, ZoneInfo>)
    requires Tidy(inventory)
    ensures DescribesZones(info, zones, inventory, t)
  {
    hide Describes, AnyKnown;
    info := map[];
    var rest := zones.Keys;
    while rest != {}
      invariant rest <= zones.Keys
      invariant forall z :: z in info <==> z !in rest && Serves(zones, inventory, t, z)
      invariant forall z :: z in info ==> Describes(info[z], inventory, t, z)
      decreases rest
    {
      var z :| z in rest;
      if zones[z] {
        var here := ZoneInfoFor(inventory, t, z);
        if here.Some? {
          info := info[z := here.value];
        }
      }
      rest := rest - {z};
    }
  }

  /** The ECS rows List keeps, and what it makes of them. */
  ghost predicate Listable(e: Option<EcsType>, zones: map<string, bool>, inventory: Option<Stock>) {
    && e.Some? && e.value.id.Some? && e.value.cpu.Some? && e.value.memory.Some?
    && exists z :: Serves(zones, inventory, e.value.id.value, z)
  }

  ghost function Kept(rows: seq<Option<EcsType>>, zones: map<string, bool>, inventory: Option<Stock>): seq<EcsType> {
    if rows == [] then []
    else
      var n := |rows| - 1;
      Kept(rows[..n], zones, inventory) + if Listable(rows[n], zones, inventory) then [rows[n].value] else []
  }

  /** In order of the rows, those with an ID, CPU and memory that some available zone may serve. */
  lemma {:induction false} KeptRows(
    rows: seq<Option<EcsType>>, zones: map<string, bool>, inventory: Option<Stock>, i: nat)
    requires i < |rows|
    ensures var before, kept := Kept(rows[..i], zones, inventory), Kept(rows, zones, inventory);
            && before <= kept
            && if rows[i].Some? && rows[i].value.id.Some? && rows[i].value.cpu.Some? && rows[i].value.memory.Some? &&
                  exists z :: z in zones && zones[z] && AnyKnown(inventory, rows[i].value.id.value, z) then
                 && |Kept(rows[..i + 1], zones, inventory)| == |before| + 1 <= |kept|
                 && kept[|before|] == rows[i].value
               else Kept(rows[..i + 1], zones, inventory) == before
    decreases |rows|
  {
    hide AnyKnown;
    var n := |rows| - 1;
    assert rows[..i + 1][..i] == rows[..i];
    if rows[i].Some? && rows[i].value.id.Some? {
      var id := rows[i].value.id.value;
      assert (exists z :: Serves(zones, inventory, id, z)) <==>
             (exists z :: z in zones && zones[z] && AnyKnown(inventory, id, z)) by {
        if z :| z in zones && zones[z] && AnyKnown(inventory, id, z) {
          assert Serves(zones, inventory, id, z);
        }
      }
    }
    if i < n {
      KeptRows(rows[..n], zones, inventory, i);
      assert rows[..n][..i] == rows[..i] && rows[..n][..i + 1] == rows[..i + 1];
    } else {
      assert rows[..i + 1] == rows;
    }
  }

  ghost predicate Lists(
    t: InstanceType, e: EcsType, zones: map<string, bool>, inventory: Option<Stock>, kubeArch: string -> string)
  {
    && Some(t.attributes.name) == e.id && t.attributes.cpu == e.cpu && t.attributes.memory == e.memory
    && t.attributes.architecture == (if e.architecture.Some? then kubeArch(e.architecture.value) else "amd64")
    && t.attributes.cpu.Some? && t.attributes.memory.Some?
    && DescribesZones(t.zones, zones, inventory, t.attributes.name)
  }

  ghost predicate IsListing(
    types: seq<InstanceType>, kept: seq<EcsType>, zones: map<string, bool>, inventory: Option<Stock>,
    kubeArch: string -> string)
  {
    |types| == |kept| && forall i :: 0 <= i < |types| ==> Lists(types[i], kept[i], zones, inventory, kubeArch)
  }

  datatype ListError = ZonesUnknown | TypesUnknown

  /** `zones` and `rows` are None when DescribeZones or DescribeInstanceTypes fails. */
  method List(
    zones: Option<map<string, bool>>, inventory: Option<Stock>, rows: Option<seq<Option<EcsType>>>,
    kubeArch: string -> string)
    returns (r: Result<seq<InstanceType>, ListError>)
    requires Tidy(inventory)
    ensures r.Err? <==> zones.None? || rows.None?
    ensures r.Err? ==> r.error == if zones.None? then ZonesUnknown else TypesUnknown
    ensures r.Ok? ==> IsListing(r.value, Kept(rows.value, zones.value, inventory), zones.value, inventory, kubeArch)
  {
    if zones.None? {
      return Err(ZonesUnknown);
    }
    if rows.None? {
      return Err(TypesUnknown);
    }
    var types: seq<InstanceType> := [];
    for i := 0 to |rows.value|
      invariant IsListing(types, Kept(rows.value[..i], zones.value, inventory), zones.value, inventory, kubeArch)
    {
      assert rows.value[..i + 1][..i] == rows.value[..i];
      var row := rows.value[i];
      var listed := ListOne(row, zones.value, inventory, kubeArch);
      if listed.Some? {
        types := types + [listed.value];
      }
    }
    assert rows.value[..|rows.value|] == rows.value;
    return Ok(types);
  }

  /** The body of List's loop. */
  method ListOne(row: Option<EcsType>, zones: map<string, bool>, inventory: Option<Stock>, kubeArch: string -> string)
    returns (t: Option<InstanceType>)
    requires Tidy(inventory)
    ensures t.Some? <==> Listable(row, zones, inventory)
    ensures t.Some? ==> Lists(t.value, row.value, zones, inventory, kubeArch)
  {
    hide Serves, Describes;
    if row.None? || row.value.id.None? {
      return None;
    }
    var info := ZonesFor(zones, inventory, row.value.id.value);
    if info == map[] {
      return None;
    }
    ghost var z :| z in info;
    if row.value.cpu.None? || row.value.memory.None? {
      return None;
    }
    var architecture := AMD64;
    if row.value.architecture.Some? {
      architecture := kubeArch(row.value.architecture.value);
    }
    return Some(InstanceType(
      Attributes(row.value.id.value, architecture, row.value.cpu, row.value.memory), info));
  }

  // ----- Filter

  predicate StringMatches(value: string, operator: Operator, values: seq<string>) {
    match operator
    case In => value in values
    case NotIn => value !in values
    case Exists => value != ""
    case DoesNotExist => value == ""
    case OtherOperator => true
  }

  method MatchesStringRequirement(value: string, operator: Operator, values: seq<string>) returns (matched: bool)
    ensures matched <==> StringMatches(value, operator, values)
  {
    match operator
    case In =>
      for i := 0 to |values|
        invariant value !in values[..i]
      {
        if value == values[i] {
          return true;
        }
      }
      return false;
    case NotIn =>
      for i := 0 to |values|
        invariant value !in values[..i]
      {
        if value == values[i] {
          return false;
        }
      }
      return true;
    case Exists =>
      return value != "";
    case DoesNotExist =>
      return value == "";
    case OtherOperator =>
      return true;
  }

  predicate AvailableIn(zones: map<string, ZoneInfo>, z: string) {
    z in zones && zones[z].available
  }

  predicate AvailableInSome(zones: map<string, ZoneInfo>, values: seq<string>) {
    exists z :: z in values && AvailableIn(zones, z)
  }

  predicate AvailableSomewhere(zones: map<string, ZoneInfo>) {
    exists z :: z in zones && AvailableIn(zones, z)
  }

  predicate ZoneMatches(zones: map<string, ZoneInfo>, operator: Operator, values: seq<string>) {
    match operator
    case In => AvailableInSome(zones, values)
    case NotIn => !AvailableInSome(zones, values)
    case Exists => AvailableSomewhere(zones)
    case DoesNotExist => !AvailableSomewhere(zones)
    case OtherOperator => true
  }

  method MatchesZoneRequirement(zones: map<string, ZoneInfo>, operator: Operator, values: seq<string>)
    returns (matched: bool)
    ensures matched <==> ZoneMatches(zones, operator, values)
  {
    match operator
    case In =>
      for i := 0 to |values|
        invariant forall j :: 0 <= j < i ==> !AvailableIn(zones, values[j])
      {
        if values[i] in zones && zones[values[i]].available {
          assert values[i] in values && AvailableIn(zones, values[i]);
          return true;
        }
      }
      return false;
    case NotIn =>
      for i := 0 to |values|
        invariant forall j :: 0 <= j < i ==> !AvailableIn(zones, values[j])
      {
        if values[i] in zones && zones[values[i]].available {
          assert values[i] in values && AvailableIn(zones, values[i]);
          return false;
        }
      }
      return true;
    case Exists =>
      var some := SomeZoneAvailable(zones);
      return some;
    case DoesNotExist =>
      var some := SomeZoneAvailable(zones);
      return !some;
    case OtherOperator =>
      return true;
  }

  /** The range over the zones that Exists and DoesNotExist share. */
  method SomeZoneAvailable(zones: map<string, ZoneInfo>) returns (some: bool)
    ensures some <==> AvailableSomewhere(zones)
  {
    var rest := zones.Keys;
    while rest != {}
      invariant rest <= zones.Keys
      invariant forall z :: z in zones && z !in rest ==> !AvailableIn(zones, z)
      decreases rest
    {
      var z :| z in rest;
      if zones[z].available {
        assert z in zones && AvailableIn(zones, z);
        return true;
      }
      rest := rest - {z};
    }
    return false;
  }

  /**
   `labelOf` gives the value compared with a requirement's values: the name, family, size, CPU and
   so on, or None for a key the provider does not know.
   */
  predicate Matches(t: InstanceType, r: Requirement, labelOf: (Attributes, string) -> Option<string>) {
    if r.key == LABEL_ZONE then ZoneMatches(t.zones, r.operator, r.values)
    else if r.key == LABEL_CAPACITY_TYPE then
      StringMatches(ON_DEMAND, r.operator, r.values) || StringMatches(SPOT, r.operator, r.values)
    else
      var value := labelOf(t.attributes, r.key);
      value.Some? ==> StringMatches(value.value, r.operator, r.values)
  }

  /** The zone operators, the predicates they share spelled out. */
  lemma MatchesInWords(t: InstanceType, r: Requirement)
    ensures ZoneMatches(t.zones, r.operator, r.values) <==>
            match r.operator
            case In => exists z :: z in r.values && z in t.zones && t.zones[z].available
            case NotIn => forall z :: z in r.values && z in t.zones ==> !t.zones[z].available
            case Exists => exists z :: z in t.zones && t.zones[z].available
            case DoesNotExist => forall z :: z in t.zones ==> !t.zones[z].available
            case OtherOperator => true
  {
    forall z ensures AvailableIn(t.zones, z) <==> z in t.zones && t.zones[z].available {
    }
  }

  predicate Passes(t: InstanceType, requirements: seq<Requirement>, labelOf: (Attributes, string) -> Option<string>) {
    forall r :: r in requirements ==> Matches(t, r, labelOf)
  }

  function Filtered(
    types: seq<InstanceType>, requirements: seq<Requirement>, labelOf: (Attributes, string) -> Option<string>)
    : (kept: seq<InstanceType>)
    ensures forall t :: t in kept <==> t in types && Passes(t, requirements, labelOf)
  {
    if types == [] then []
    else
      var n := |types| - 1;
      assert types == types[..n] + [types[n]];
      Filtered(types[..n], requirements, labelOf) + if Passes(types[n], requirements, labelOf) then [types[n]] else []
  }

  method MatchesRequirement(t: InstanceType, r: Requirement, labelOf: (Attributes, string) -> Option<string>)
    returns (matched: bool)
    ensures matched <==> Matches(t, r, labelOf)
    ensures r.key == "karpenter.sh/capacity-type" ==>
              (matched <==>
                match r.operator
                case In => "on-demand" in r.values || "spot" in r.values
                case NotIn => "on-demand" !in r.values || "spot" !in r.values
                case DoesNotExist => false
                case _ => true)
    ensures r.key == "topology.kubernetes.io/zone" ==>
              (matched <==>
                match r.operator
                case In => exists z :: z in r.values && z in t.zones && t.zones[z].available
                case NotIn => forall z :: z in r.values && z in t.zones ==> !t.zones[z].available
                case Exists => exists z :: z in t.zones && t.zones[z].available
                case DoesNotExist => forall z :: z in t.zones ==> !t.zones[z].available
                case OtherOperator => true)
    ensures r.key != "karpenter.sh/capacity-type" && r.key != "topology.kubernetes.io/zone" ==>
              (matched <==>
                var value := labelOf(t.attributes, r.key);
                value.Some? ==>
                  match r.operator
                  case In => value.value in r.values
                  case NotIn => value.value !in r.values
                  case Exists => |value.value| > 0
                  case DoesNotExist => |value.value| == 0
                  case OtherOperator => true)
  {
    MatchesInWords(t, r);
    if r.key == LABEL_ZONE {
      matched := MatchesZoneRequirement(t.zones, r.operator, r.values);
    } else if r.key == LABEL_CAPACITY_TYPE {
      matched := MatchesStringRequirement(ON_DEMAND, r.operator, r.values);
      if !matched {
        matched := MatchesStringRequirement(SPOT, r.operator, r.values);
      }
    } else {
      var value := labelOf(t.attributes, r.key);
      match value
      case None =>
        matched := true;
      case Some(v) =>
        matched := MatchesStringRequirement(v, r.operator, r.values);
    }
  }

  method Filter(
    types: seq<InstanceType>, requirements: seq<Requirement>, labelOf: (Attributes, string) -> Option<string>)
    returns (filtered: seq<InstanceType>)
    ensures filtered == Filtered(types, requirements, labelOf)
  {
    hide Matches;
    filtered := [];
    for i := 0 to |types|
      invariant filtered == Filtered(types[..i], requirements, labelOf)
    {
      assert types[..i + 1][..i] == types[..i];
      var matches := true;
      for j := 0 to |requirements|
        invariant matches
        invariant forall k :: 0 <= k < j ==> Matches(types[i], requirements[k], labelOf)
      {
        var matched := MatchesRequirement(types[i], requirements[j], labelOf);
        if !matched {
          matches := false;
          assert !Passes(types[i], requirements, labelOf);
          break;
        }
      }
      if matches {
        filtered := filtered + [types[i]];
      }
    }
    assert types[..|types|] == types;
  }

  /** cloudprovider.go, filterInstanceTypesByRequirements: requirements with other operators are dropped. */
  method FilterInstanceTypesByRequirements(
    types: seq<InstanceType>, requirements: seq<Requirement>, labelOf: (Attributes, string) -> Option<string>)
    returns (filtered: seq<InstanceType>)
    ensures filtered == Filtered(types, requirements, labelOf)
  {
    var known: seq<Requirement> := [];
    for i := 0 to |requirements|
      invariant forall r :: r in known <==> r in requirements[..i] && r.operator != OtherOperator
    {
      if requirements[i].operator != OtherOperator {
        known := known + [requirements[i]];
      }
    }
    assert requirements[..|requirements|] == requirements;
    filtered := Filter(types, known, labelOf);
    DroppingKeepsFilter(types, requirements, known, labelOf);
  }

  lemma {:induction false} DroppingKeepsFilter(
    types: seq<InstanceType>, requirements: seq<Requirement>, known: seq<Requirement>,
    labelOf: (Attributes, string) -> Option<string>)
    requires forall r :: r in known <==> r in requirements && r.operator != OtherOperator
    ensures Filtered(types, known, labelOf) == Filtered(types, requirements, labelOf)
    decreases |types|
  {
    if types != [] {
      var n := |types| - 1;
      DroppingKeepsFilter(types[..n], requirements, known, labelOf);
      forall r | r in requirements && r.operator == OtherOperator ensures Matches(types[n], r, labelOf) {
      }
      assert Passes(types[n], known, labelOf) <==> Passes(types[n], requirements, labelOf);
    }
  }
}
