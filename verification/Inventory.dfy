/**
 pkg/providers/instancetype/instancetype.go, getInventory: the answers of two
 DescribeAvailableResource queries become one nested map.
 */
module Inventory {
  import opened Wrappers
  import opened Requirements

  // ----- the API's answers: every level may be missing

  datatype Resource = Resource(value: Option<string>, status: Option<string>)

  datatype Resources = Resources(kind: Option<string>, supported: Option<seq<Option<Resource>>>)

  datatype Zone = Zone(zoneID: Option<string>, available: Option<seq<Option<Resources>>>)

  datatype Response = Failed | Answered(zones: Option<seq<Option<Zone>>>)

  datatype Query = Query(response: Response, capacityType: string)

  const WITH_STOCK := "WithStock"
  const CLOSED_WITH_STOCK := "ClosedWithStock"
  const WITHOUT_STOCK := "WithoutStock"
  const CLOSED_WITHOUT_STOCK := "ClosedWithoutStock"
  const INSTANCE_TYPE := "InstanceType"

  predicate HasStock(status: string) {
    status == WITH_STOCK || status == CLOSED_WITH_STOCK
  }

  predicate IsRecognised(status: string) {
    HasStock(status) || status == WITHOUT_STOCK || status == CLOSED_WITHOUT_STOCK
  }

  // ----- the rows of an answer

  datatype Row = Row(instanceType: string, zone: string, capacityType: string, inStock: bool)

  function ResourceRow(r: Option<Resource>, zone: string, capacityType: string): seq<Row> {
    if r.None? || r.value.value.None? || r.value.status.None? || !IsRecognised(r.value.status.value) then []
    else [Row(r.value.value.value, zone, capacityType, HasStock(r.value.status.value))]
  }

  function ResourceRows(rs: seq<Option<Resource>>, zone: string, capacityType: string): seq<Row> {
    if rs == [] then []
    else
      ResourceRows(rs[..|rs| - 1], zone, capacityType) + ResourceRow(rs[|rs| - 1], zone, capacityType)
  }

  function KindRows(rs: Option<Resources>, zone: string, capacityType: string): seq<Row> {
    if rs.None? || rs.value.kind != Some(INSTANCE_TYPE) || rs.value.supported.None? then []
    else ResourceRows(rs.value.supported.value, zone, capacityType)
  }

  function KindsRows(rs: seq<Option<Resources>>, zone: string, capacityType: string): seq<Row> {
    if rs == [] then []
    else KindsRows(rs[..|rs| - 1], zone, capacityType) + KindRows(rs[|rs| - 1], zone, capacityType)
  }

  function ZoneRows(z: Option<Zone>, capacityType: string): seq<Row> {
    if z.None? || z.value.zoneID.None? || z.value.available.None? then []
    else KindsRows(z.value.available.value, z.value.zoneID.value, capacityType)
  }

  function ZonesRows(zones: seq<Option<Zone>>, capacityType: string): seq<Row> {
    if zones == [] then []
    else ZonesRows(zones[..|zones| - 1], capacityType) + ZoneRows(zones[|zones| - 1], capacityType)
  }

  function QueryRows(q: Query): seq<Row> {
    if q.response.Failed? || q.response.zones.None? then []
    else ZonesRows(q.response.zones.value, q.capacityType)
  }

  /** Both queries together: on-demand rows, then spot rows. */
  function AllRows(onDemand: Response, spot: Response): seq<Row> {
    QueryRows(Query(onDemand, ON_DEMAND)) + QueryRows(Query(spot, SPOT))
  }

  // ----- what the map means

  type Stock = map<string, map<string, map<string, bool>>>

  predicate Knows(inv: Stock, t: string, z: string, c: string) {
    t in inv && z in inv[t] && c in inv[t][z]
  }

  predicate InStock(inv: Stock, t: string, z: string, c: string) {
    Knows(inv, t, z, c) && inv[t][z][c]
  }

  predicate HasRow(rows: seq<Row>, t: string, z: string, c: string) {
    Row(t, z, c, true) in rows || Row(t, z, c, false) in rows
  }

  predicate HasStockRow(rows: seq<Row>, t: string, z: string, c: string) {
    Row(t, z, c, true) in rows
  }

  ghost predicate NoEmptyMaps(inv: Stock) {
    && (forall t :: t in inv ==> inv[t] != map[])
    && (forall t, z :: t in inv && z in inv[t] ==> inv[t][z] != map[])
  }

  /** A triple is known iff some row has it, and in stock iff some row says so. */
  ghost predicate Represents(inv: Stock, rows: seq<Row>) {
    && (forall t, z, c :: Knows(inv, t, z, c) <==> HasRow(rows, t, z, c))
    && (forall t, z, c :: InStock(inv, t, z, c) <==> HasStockRow(rows, t, z, c))
    && NoEmptyMaps(inv)
  }

  /** One row merged into the map, never turning stock into no stock. */
  function Merge(inv: Stock, row: Row): Stock {
    var zones := if row.instanceType in inv then inv[row.instanceType] else map[];
    var types := if row.zone in zones then zones[row.zone] else map[];
    var merged :=
      if row.capacityType !in types || (!types[row.capacityType] && row.inStock)
      then types[row.capacityType := row.inStock] else types;
    inv[row.instanceType := zones[row.zone := merged]]
  }

  lemma MergeTriple(inv: Stock, row: Row, t: string, z: string, c: string)
    ensures var here := t == row.instanceType && z == row.zone && c == row.capacityType;
            && (Knows(Merge(inv, row), t, z, c) <==> Knows(inv, t, z, c) || here)
            && (InStock(Merge(inv, row), t, z, c) <==> InStock(inv, t, z, c) || (here && row.inStock))
  {
  }

  lemma MergeKeepsNoEmptyMaps(inv: Stock, row: Row)
    requires NoEmptyMaps(inv)
    ensures NoEmptyMaps(Merge(inv, row))
  {
    var merged := Merge(inv, row);
    assert row.capacityType in merged[row.instanceType][row.zone];
    assert row.zone in merged[row.instanceType];
  }

  lemma MergeRepresents(inv: Stock, rows: seq<Row>, row: Row)
    requires Represents(inv, rows)
    ensures Represents(Merge(inv, row), rows + [row])
  {
    var merged := Merge(inv, row);
    forall t, z, c
      ensures Knows(merged, t, z, c) <==> HasRow(rows + [row], t, z, c)
      ensures InStock(merged, t, z, c) <==> HasStockRow(rows + [row], t, z, c)
    {
      MergeTriple(inv, row, t, z, c);
      assert Knows(inv, t, z, c) <==> HasRow(rows, t, z, c);
      assert InStock(inv, t, z, c) <==> HasStockRow(rows, t, z, c);
    }
    MergeKeepsNoEmptyMaps(inv, row);
  }

  lemma RepresentsNothing()
    ensures Represents(map[], [])
  {
  }

  /** The rows determine the map, whatever their order and multiplicity. */
  lemma RowOrderDoesNotMatter(a: Stock, b: Stock, rows: seq<Row>, others: seq<Row>)
    requires Represents(a, rows) && Represents(b, others)
    requires forall row :: row in rows <==> row in others
    ensures a == b
  {
    forall t, z, c ensures SameTriple(a, b, t, z, c) {
      assert Knows(a, t, z, c) <==> HasRow(rows, t, z, c);
      assert Knows(b, t, z, c) <==> HasRow(others, t, z, c);
      assert InStock(a, t, z, c) <==> HasStockRow(rows, t, z, c);
      assert InStock(b, t, z, c) <==> HasStockRow(others, t, z, c);
    }
    SameMaps(a, b);
  }

  predicate SameTriple(a: Stock, b: Stock, t: string, z: string, c: string) {
    (Knows(a, t, z, c) <==> Knows(b, t, z, c)) && (InStock(a, t, z, c) <==> InStock(b, t, z, c))
  }

  lemma SameMaps(a: Stock, b: Stock)
    requires NoEmptyMaps(a) && NoEmptyMaps(b)
    requires forall t, z, c :: SameTriple(a, b, t, z, c)
    ensures a == b
  {
    forall t ensures t in a <==> t in b {
      TypeCarriesOver(a, b, t);
      TypeCarriesOver(b, a, t);
    }
    forall t | t in a ensures a[t] == b[t] {
      SameZones(a, b, t);
    }
  }

  lemma TypeCarriesOver(a: Stock, b: Stock, t: string)
    requires NoEmptyMaps(a)
    requires (forall z, c :: SameTriple(a, b, t, z, c)) || (forall z, c :: SameTriple(b, a, t, z, c))
    ensures t in a ==> t in b
  {
    if t in a {
      var z :| z in a[t];
      var c :| c in a[t][z];
      assert Knows(a, t, z, c);
      assert SameTriple(a, b, t, z, c) || SameTriple(b, a, t, z, c);
    }
  }

  lemma SameZones(a: Stock, b: Stock, t: string)
    requires NoEmptyMaps(a) && NoEmptyMaps(b) && t in a && t in b
    requires forall z, c :: SameTriple(a, b, t, z, c)
    ensures a[t] == b[t]
  {
    forall z ensures z in a[t] <==> z in b[t] {
      if z in a[t] {
        var c :| c in a[t][z];
        assert SameTriple(a, b, t, z, c);
      }
      if z in b[t] {
        var c :| c in b[t][z];
        assert SameTriple(a, b, t, z, c);
      }
    }
    forall z | z in a[t] ensures a[t][z] == b[t][z] {
      forall c ensures SameTriple(a, b, t, z, c) {
      }
      SameTypes(a, b, t, z);
    }
  }

  lemma SameTypes(a: Stock, b: Stock, t: string, z: string)
    requires t in a && t in b && z in a[t] && z in b[t]
    requires forall c :: SameTriple(a, b, t, z, c)
    ensures a[t][z] == b[t][z]
  {
    forall c
      ensures c in a[t][z] <==> c in b[t][z]
      ensures c in a[t][z] ==> a[t][z][c] == b[t][z][c]
    {
      assert SameTriple(a, b, t, z, c);
    }
  }

  // ----- rows are exactly the recognised entries of the answers

  predicate Entry(q: Query, i: nat, j: nat, k: nat, row: Row) {
    && q.response.Answered? && q.response.zones.Some?
    && i < |q.response.zones.value| && q.response.zones.value[i].Some?
    && EntryInZone(q.response.zones.value[i].value, j, k, row) && row.capacityType == q.capacityType
  }

  predicate EntryInZone(zone: Zone, j: nat, k: nat, row: Row) {
    && zone.zoneID == Some(row.zone) && zone.available.Some?
    && j < |zone.available.value| && zone.available.value[j].Some?
    && EntryInKind(zone.available.value[j].value, k, row)
  }

  predicate EntryInKind(kind: Resources, k: nat, row: Row) {
    && kind.kind == Some(INSTANCE_TYPE) && kind.supported.Some?
    && k < |kind.supported.value| && kind.supported.value[k].Some?
    && kind.supported.value[k].value.value == Some(row.instanceType)
    && kind.supported.value[k].value.status.Some?
    && IsRecognised(kind.supported.value[k].value.status.value)
    && row.inStock == HasStock(kind.supported.value[k].value.status.value)
  }

  /** The rows of a query are exactly its recognised entries, whatever surrounds them. */
  lemma RowsAreEntries(q: Query, row: Row)
    ensures row in QueryRows(q) <==> exists i, j, k :: Entry(q, i, j, k, row)
  {
    if q.response.Answered? && q.response.zones.Some? {
      var zones := q.response.zones.value;
      if row in QueryRows(q) {
        var i, j, k := ZonesEntry(zones, q.capacityType, row);
        assert Entry(q, i, j, k, row);
      }
      if i, j, k :| Entry(q, i, j, k, row) {
        ZonesRow(zones, q.capacityType, i, j, k, row);
      }
    }
  }

  lemma {:induction false} ZonesEntry(zones: seq<Option<Zone>>, capacityType: string, row: Row)
    returns (i: nat, j: nat, k: nat)
    requires row in ZonesRows(zones, capacityType)
    ensures i < |zones| && zones[i].Some? && EntryInZone(zones[i].value, j, k, row) && row.capacityType == capacityType
    decreases |zones|
  {
    var n := |zones| - 1;
    if row in ZonesRows(zones[..n], capacityType) {
      i, j, k := ZonesEntry(zones[..n], capacityType, row);
    } else {
      i := n;
      j, k := KindsEntry(zones[n].value.available.value, zones[n].value.zoneID.value, capacityType, row);
    }
  }

  lemma {:induction false} KindsEntry(kinds: seq<Option<Resources>>, zone: string, capacityType: string, row: Row)
    returns (j: nat, k: nat)
    requires row in KindsRows(kinds, zone, capacityType)
    ensures j < |kinds| && kinds[j].Some? && EntryInKind(kinds[j].value, k, row)
    ensures row.zone == zone && row.capacityType == capacityType
    decreases |kinds|
  {
    var n := |kinds| - 1;
    if row in KindsRows(kinds[..n], zone, capacityType) {
      j, k := KindsEntry(kinds[..n], zone, capacityType, row);
    } else {
      j := n;
      k := ResourcesEntry(kinds[n].value.supported.value, zone, capacityType, row);
    }
  }

  lemma {:induction false} ResourcesEntry(rs: seq<Option<Resource>>, zone: string, capacityType: string, row: Row)
    returns (k: nat)
    requires row in ResourceRows(rs, zone, capacityType)
    ensures k < |rs| && ResourceRow(rs[k], zone, capacityType) == [row]
    decreases |rs|
  {
    var n := |rs| - 1;
    if row in ResourceRows(rs[..n], zone, capacityType) {
      k := ResourcesEntry(rs[..n], zone, capacityType, row);
    } else {
      k := n;
    }
  }

  lemma {:induction false} ZonesRow(zones: seq<Option<Zone>>, capacityType: string, i: nat, j: nat, k: nat, row: Row)
    requires i < |zones| && zones[i].Some? && EntryInZone(zones[i].value, j, k, row) && row.capacityType == capacityType
    ensures row in ZonesRows(zones, capacityType)
    decreases |zones|
  {
    var n := |zones| - 1;
    if i < n {
      ZonesRow(zones[..n], capacityType, i, j, k, row);
    } else {
      KindsRow(zones[n].value.available.value, row.zone, capacityType, j, k, row);
    }
  }

  lemma {:induction false} KindsRow(
    kinds: seq<Option<Resources>>, zone: string, capacityType: string, j: nat, k: nat, row: Row)
    requires j < |kinds| && kinds[j].Some? && EntryInKind(kinds[j].value, k, row)
    requires row.zone == zone && row.capacityType == capacityType
    ensures row in KindsRows(kinds, zone, capacityType)
    decreases |kinds|
  {
    var n := |kinds| - 1;
    if j < n {
      KindsRow(kinds[..n], zone, capacityType, j, k, row);
    } else {
      var rs := kinds[n].value.supported.value;
      assert ResourceRow(rs[k], zone, capacityType) == [row];
      ResourcesRow(rs, zone, capacityType, k, row);
    }
  }

  lemma {:induction false} ResourcesRow(rs: seq<Option<Resource>>, zone: string, capacityType: string, k: nat, row: Row)
    requires k < |rs| && ResourceRow(rs[k], zone, capacityType) == [row]
    ensures row in ResourceRows(rs, zone, capacityType)
    decreases |rs|
  {
    var n := |rs| - 1;
    if k < n {
      ResourcesRow(rs[..n], zone, capacityType, k, row);
    }
  }

  // ----- the answers read literally

  /** Entry k of list j of zone i of the answer is instance type t in zone z with this status. */
  predicate ReportedAt(answer: Response, i: nat, j: nat, k: nat, t: string, z: string, status: string) {
    && answer.Answered? && answer.zones.Some?
    && i < |answer.zones.value| && answer.zones.value[i].Some?
    && var zone := answer.zones.value[i].value;
       && zone.zoneID == Some(z) && zone.available.Some?
       && j < |zone.available.value| && zone.available.value[j].Some?
       && var list := zone.available.value[j].value;
          && list.kind == Some("InstanceType") && list.supported.Some?
          && k < |list.supported.value| && list.supported.value[k] == Some(Resource(Some(t), Some(status)))
  }

  ghost predicate Reports(answer: Response, t: string, z: string, status: string) {
    exists i: nat, j: nat, k: nat :: ReportedAt(answer, i, j, k, t, z, status)
  }

  ghost predicate ReportsStock(answer: Response, t: string, z: string) {
    Reports(answer, t, z, "WithStock") || Reports(answer, t, z, "ClosedWithStock")
  }

  ghost predicate ReportsAnything(answer: Response, t: string, z: string) {
    || ReportsStock(answer, t, z)
    || Reports(answer, t, z, "WithoutStock") || Reports(answer, t, z, "ClosedWithoutStock")
  }

  /** The status of the pair is known for a capacity type from the answer to the query for it. */
  ghost predicate KnownFrom(onDemand: Response, spot: Response, t: string, z: string, c: string) {
    (c == "on-demand" && ReportsAnything(onDemand, t, z)) || (c == "spot" && ReportsAnything(spot, t, z))
  }

  ghost predicate StockedFrom(onDemand: Response, spot: Response, t: string, z: string, c: string) {
    (c == "on-demand" && ReportsStock(onDemand, t, z)) || (c == "spot" && ReportsStock(spot, t, z))
  }

  /** The map holds exactly what the answers report, stock in any entry counting as stock. */
  ghost predicate MatchesReports(inv: Stock, onDemand: Response, spot: Response) {
    && (forall t, z, c :: (t in inv && z in inv[t] && c in inv[t][z]) <==> KnownFrom(onDemand, spot, t, z, c))
    && (forall t, z, c :: t in inv && z in inv[t] && c in inv[t][z] ==>
          (inv[t][z][c] <==> StockedFrom(onDemand, spot, t, z, c)))
  }

  /** An entry has a row exactly when its status is one of four, in stock for two of them. */
  lemma EntryIsReport(answer: Response, capacityType: string, i: nat, j: nat, k: nat, row: Row)
    ensures Entry(Query(answer, capacityType), i, j, k, row) <==>
            row.capacityType == capacityType &&
            if row.inStock then
              || ReportedAt(answer, i, j, k, row.instanceType, row.zone, "WithStock")
              || ReportedAt(answer, i, j, k, row.instanceType, row.zone, "ClosedWithStock")
            else
              || ReportedAt(answer, i, j, k, row.instanceType, row.zone, "WithoutStock")
              || ReportedAt(answer, i, j, k, row.instanceType, row.zone, "ClosedWithoutStock")
  {
    StatusesDiffer();
  }

  lemma StatusesDiffer()
    ensures "WithStock" != "WithoutStock" && "WithStock" != "ClosedWithoutStock"
    ensures "ClosedWithStock" != "WithoutStock" && "ClosedWithStock" != "ClosedWithoutStock"
  {
    assert |"WithStock"| == 9 && |"WithoutStock"| == 12 && |"ClosedWithStock"| == 15 && |"ClosedWithoutStock"| == 18;
  }

  lemma RowIsReport(answer: Response, capacityType: string, row: Row)
    ensures row in QueryRows(Query(answer, capacityType)) <==>
            row.capacityType == capacityType &&
            if row.inStock then ReportsStock(answer, row.instanceType, row.zone)
            else
              || Reports(answer, row.instanceType, row.zone, "WithoutStock")
              || Reports(answer, row.instanceType, row.zone, "ClosedWithoutStock")
  {
    hide QueryRows, Entry, ReportedAt;
    RowsAreEntries(Query(answer, capacityType), row);
    forall i: nat, j: nat, k: nat
      ensures Entry(Query(answer, capacityType), i, j, k, row) <==>
              row.capacityType == capacityType &&
              if row.inStock then
                || ReportedAt(answer, i, j, k, row.instanceType, row.zone, "WithStock")
                || ReportedAt(answer, i, j, k, row.instanceType, row.zone, "ClosedWithStock")
              else
                || ReportedAt(answer, i, j, k, row.instanceType, row.zone, "WithoutStock")
                || ReportedAt(answer, i, j, k, row.instanceType, row.zone, "ClosedWithoutStock")
    {
      EntryIsReport(answer, capacityType, i, j, k, row);
    }
  }

  /** A triple has a row, or one with stock, exactly when the answer for its capacity type says so. */
  lemma RowsAreReports(onDemand: Response, spot: Response, t: string, z: string, c: string)
    ensures HasRow(AllRows(onDemand, spot), t, z, c) <==> KnownFrom(onDemand, spot, t, z, c)
    ensures HasStockRow(AllRows(onDemand, spot), t, z, c) <==> StockedFrom(onDemand, spot, t, z, c)
  {
    hide QueryRows, Reports;
    RowIsReport(onDemand, ON_DEMAND, Row(t, z, c, true));
    RowIsReport(onDemand, ON_DEMAND, Row(t, z, c, false));
    RowIsReport(spot, SPOT, Row(t, z, c, true));
    RowIsReport(spot, SPOT, Row(t, z, c, false));
  }

  lemma RepresentedIsReported(inv: Stock, onDemand: Response, spot: Response)
    requires Represents(inv, AllRows(onDemand, spot))
    ensures MatchesReports(inv, onDemand, spot)
  {
    hide AllRows, KnownFrom, StockedFrom;
    forall t, z, c
      ensures Knows(inv, t, z, c) <==> KnownFrom(onDemand, spot, t, z, c)
      ensures InStock(inv, t, z, c) <==> StockedFrom(onDemand, spot, t, z, c)
    {
      RowsAreReports(onDemand, spot, t, z, c);
      assert Knows(inv, t, z, c) <==> HasRow(AllRows(onDemand, spot), t, z, c);
      assert InStock(inv, t, z, c) <==> HasStockRow(AllRows(onDemand, spot), t, z, c);
    }
  }

  // ----- getInventory

  /** None is the nil map returned when a query fails: every capacity type counts as in stock. */
  method GetInventory(onDemand: Response, spot: Response) returns (inventory: Option<Stock>)
    ensures inventory.None? <==> onDemand.Failed? || spot.Failed?
    ensures inventory.Some? ==> Represents(inventory.value, AllRows(onDemand, spot))
    ensures inventory.Some? ==> MatchesReports(inventory.value, onDemand, spot)
  {
    hide Represents, MatchesReports;
    RepresentsNothing();
    var queries := [Query(onDemand, ON_DEMAND), Query(spot, SPOT)];
    var inv: Stock := map[];
    ghost var rows: seq<Row> := [];
    for i := 0 to 2
      invariant Represents(inv, rows)
      invariant rows == if i == 0 then [] else if i == 1 then QueryRows(queries[0]) else AllRows(onDemand, spot)
      invariant i > 0 ==> !onDemand.Failed?
      invariant i > 1 ==> !spot.Failed?
    {
      var q := queries[i];
      if q.response.Failed? {
        return None;
      }
      if q.response.zones.Some? {
        inv := AddZones(inv, q.response.zones.value, q.capacityType, rows);
      } else {
        assert rows + QueryRows(q) == rows;
      }
      rows := rows + QueryRows(q);
    }
    RepresentedIsReported(inv, onDemand, spot);
    return Some(inv);
  }

  lemma JoinRows(a: seq<Row>, b: seq<Row>, c: seq<Row>)
    ensures (a + b) + c == a + (b + c)
  {
  }

  method AddZones(before: Stock, zones: seq<Option<Zone>>, capacityType: string, ghost rows: seq<Row>)
    returns (inv: Stock)
    requires Represents(before, rows)
    ensures Represents(inv, rows + ZonesRows(zones, capacityType))
  {
    hide Represents, KindsRows;
    inv := before;
    ghost var seen := rows;
    for i := 0 to |zones|
      invariant seen == rows + ZonesRows(zones[..i], capacityType)
      invariant Represents(inv, seen)
    {
      assert zones[..i + 1][..i] == zones[..i];
      var z := zones[i];
      if z.Some? && z.value.zoneID.Some? && z.value.available.Some? {
        inv := AddKinds(inv, z.value.available.value, z.value.zoneID.value, capacityType, seen);
      } else {
        assert seen + ZoneRows(z, capacityType) == seen;
      }
      JoinRows(rows, ZonesRows(zones[..i], capacityType), ZoneRows(z, capacityType));
      seen := seen + ZoneRows(z, capacityType);
    }
    assert zones[..|zones|] == zones;
  }

  method AddKinds(
    before: Stock, kinds: seq<Option<Resources>>, zone: string, capacityType: string, ghost rows: seq<Row>)
    returns (inv: Stock)
    requires Represents(before, rows)
    ensures Represents(inv, rows + KindsRows(kinds, zone, capacityType))
  {
    hide Represents, ResourceRows;
    inv := before;
    ghost var seen := rows;
    for i := 0 to |kinds|
      invariant seen == rows + KindsRows(kinds[..i], zone, capacityType)
      invariant Represents(inv, seen)
    {
      assert kinds[..i + 1][..i] == kinds[..i];
      var k := kinds[i];
      if k.Some? && k.value.kind.Some? && k.value.kind.value == INSTANCE_TYPE && k.value.supported.Some? {
        inv := AddResources(inv, k.value.supported.value, zone, capacityType, seen);
      } else {
        assert seen + KindRows(k, zone, capacityType) == seen;
      }
      JoinRows(rows, KindsRows(kinds[..i], zone, capacityType), KindRows(k, zone, capacityType));
      seen := seen + KindRows(k, zone, capacityType);
    }
    assert kinds[..|kinds|] == kinds;
  }

  method AddResources(
    before: Stock, resources: seq<Option<Resource>>, zone: string, capacityType: string, ghost rows: seq<Row>)
    returns (inv: Stock)
    requires Represents(before, rows)
    ensures Represents(inv, rows + ResourceRows(resources, zone, capacityType))
  {
    hide Represents, IsRecognised;
    inv := before;
    ghost var seen := rows;
    for i := 0 to |resources|
      invariant seen == rows + ResourceRows(resources[..i], zone, capacityType)
      invariant Represents(inv, seen)
    {
      assert resources[..i + 1][..i] == resources[..i];
      var r := resources[i];
      if r.Some? && r.value.value.Some? && r.value.status.Some? && IsRecognised(r.value.status.value) {
        var hasStock := HasStock(r.value.status.value);
        var id := r.value.value.value;
        MergeRepresents(inv, seen, Row(id, zone, capacityType, hasStock));
        inv := Record(inv, id, zone, capacityType, hasStock);
      } else {
        assert seen + ResourceRow(r, zone, capacityType) == seen;
      }
      seen := seen + ResourceRow(r, zone, capacityType);
    }
    assert resources[..|resources|] == resources;
  }

  /** The body of the innermost loop. */
  method Record(before: Stock, id: string, zone: string, capacityType: string, hasStock: bool) returns (inv: Stock)
    ensures inv == Merge(before, Row(id, zone, capacityType, hasStock))
  {
    inv := before;
    if id !in inv {
      inv := inv[id := map[]];
    }
    ghost var zones := inv[id];
    assert inv == before[id := zones];
    if zone !in inv[id] {
      inv := inv[id := inv[id][zone := map[]]];
    }
    ghost var types := inv[id][zone];
    assert inv[id] == zones[zone := types];
    assert inv == before[id := zones[zone := types]];
    if capacityType !in inv[id][zone] || (!inv[id][zone][capacityType] && hasStock) {
      inv := inv[id := inv[id][zone := inv[id][zone][capacityType := hasStock]]];
      assert inv[id] == zones[zone := types[capacityType := hasStock]];
      assert inv == before[id := zones[zone := types[capacityType := hasStock]]];
    }
  }

  // ----- stock running out

  /** The same rows, some of them no longer in stock. */
  predicate Lowered(rows: seq<Row>, lower: seq<Row>) {
    && |lower| == |rows|
    && forall i :: 0 <= i < |rows| ==>
         lower[i] == rows[i] || (rows[i].inStock && lower[i] == rows[i].(inStock := false))
  }

  /** Whatever runs out stays known, and nothing comes into stock. */
  lemma RunningOutKeepsKnown(
    inv: Stock, lower: Stock, rows: seq<Row>, lowered: seq<Row>, t: string, z: string, c: string)
    requires Represents(inv, rows) && Represents(lower, lowered) && Lowered(rows, lowered)
    ensures Knows(lower, t, z, c) <==> Knows(inv, t, z, c)
    ensures InStock(lower, t, z, c) ==> InStock(inv, t, z, c)
  {
    LoweredRows(rows, lowered, t, z, c);
    assert Knows(inv, t, z, c) <==> HasRow(rows, t, z, c);
    assert Knows(lower, t, z, c) <==> HasRow(lowered, t, z, c);
    assert InStock(inv, t, z, c) <==> HasStockRow(rows, t, z, c);
    assert InStock(lower, t, z, c) <==> HasStockRow(lowered, t, z, c);
  }

  lemma LoweredRows(rows: seq<Row>, lowered: seq<Row>, t: string, z: string, c: string)
    requires Lowered(rows, lowered)
    ensures HasRow(lowered, t, z, c) <==> HasRow(rows, t, z, c)
    ensures HasStockRow(lowered, t, z, c) ==> HasStockRow(rows, t, z, c)
  {
    forall i | 0 <= i < |rows|
      ensures Is(rows[i], t, z, c) ==> HasRow(lowered, t, z, c)
      ensures Is(lowered[i], t, z, c) ==> HasRow(rows, t, z, c)
    {
      assert rows[i] in rows && lowered[i] in lowered;
      assert Is(rows[i], t, z, c) <==> Is(lowered[i], t, z, c);
      IsTriple(rows[i], t, z, c);
      IsTriple(lowered[i], t, z, c);
    }
    IsTriple(Row(t, z, c, true), t, z, c);
    IsTriple(Row(t, z, c, false), t, z, c);
  }

  predicate Is(row: Row, t: string, z: string, c: string) {
    row.instanceType == t && row.zone == z && row.capacityType == c
  }

  lemma IsTriple(row: Row, t: string, z: string, c: string)
    ensures Is(row, t, z, c) <==> row == Row(t, z, c, true) || row == Row(t, z, c, false)
  {
  }
}
