/** The server's in-memory record store (MemStorage): four tables keyed by
    an integer id (suppliers, warehouses, stores, shipments), one
    auto-increment counter per table, an append-only list of monthly
    shipment trends, and a KPI record recomputed whenever a shipment is
    added. A JavaScript Map lists its values in insertion order; ids are
    inserted in increasing order and never removed, so that order is
    ascending id. Costs and coordinates are reals, timestamps are
    milliseconds since the epoch, and the clock is passed in as `now`. */
module Storage {
  import opened Wrappers

  datatype Location = Location(lat: real, lng: real)

  /** What createSupplier, createWarehouse and createStore receive. */
  datatype SiteInput = SiteInput(name: string, location: Location, kind: string)

  /** A stored supplier, warehouse or store: its input plus the id. */
  datatype Site = Site(id: int, name: string, location: Location, kind: string)

  /** What createShipment receives. */
  datatype ShipmentInput = ShipmentInput(
    shipmentId: string,
    product: string,
    source: Location,
    destination: Location,
    sourceId: int,
    destinationId: int,
    cost: real,
    eta: int,
    status: string)

  /** A stored shipment: its input plus the id and the creation time. */
  datatype Shipment = Shipment(
    id: int,
    createdAt: int,
    shipmentId: string,
    product: string,
    source: Location,
    destination: Location,
    sourceId: int,
    destinationId: int,
    cost: real,
    eta: int,
    status: string)

  datatype Kpi = Kpi(
    id: int,
    totalShipments: int,
    avgCost: real,
    onTimePercentage: real,
    delayedCount: int,
    updatedAt: int)

  datatype TrendInput = TrendInput(month: string, count: int, year: int)

  datatype ShipmentTrend = ShipmentTrend(id: int, month: string, count: int, year: int)

  /** An entry of getAllFacilities: id, name and location of a site, tagged
      with the table it came from. */
  datatype Facility = Facility(id: int, name: string, location: Location, kind: string)

  const SupplierTag := "supplier"
  const WarehouseTag := "warehouse"
  const StoreTag := "store"
  const OnTime := "on-time"
  const Delayed := "delayed"

  function AsSite(input: SiteInput, id: int): Site {
    Site(id, input.name, input.location, input.kind)
  }

  function AsShipment(input: ShipmentInput, id: int, createdAt: int): Shipment {
    Shipment(id, createdAt, input.shipmentId, input.product, input.source, input.destination,
             input.sourceId, input.destinationId, input.cost, input.eta, input.status)
  }

  function AsTrend(input: TrendInput, id: int): ShipmentTrend {
    ShipmentTrend(id, input.month, input.count, input.year)
  }

  // ---------------------------------------------------------------------
  // Tables keyed by dense ids

  /** The keys of m are exactly 1 .. next - 1: every id handed out so far,
      and no other. */
  ghost predicate DenseIds<V>(m: map<int, V>, next: int) {
    next >= 1 && forall k :: k in m <==> 1 <= k < next
  }

  /** The id the counter hands out next is not yet a key, and every key is
      below it. */
  lemma NextIdIsFresh<V>(m: map<int, V>, next: int)
    requires DenseIds(m, next)
    ensures next !in m
    ensures forall k :: k in m ==> k < next
  {
  }

  /** Storing under the counter and incrementing it keeps the ids dense. */
  lemma StoreKeepsIdsDense<V>(m: map<int, V>, next: int, v: V)
    requires DenseIds(m, next)
    ensures DenseIds(m[next := v], next + 1)
    ensures |m[next := v]| == |m| + 1
  {
  }

  /** The values of m under the keys 1 .. n, in key order. */
  function ValuesById<V>(m: map<int, V>, n: int): (r: seq<V>)
    requires forall k :: 1 <= k <= n ==> k in m
    ensures |r| == if n < 0 then 0 else n
    ensures forall i :: 0 <= i < |r| ==> r[i] == m[i + 1]
  {
    if n <= 0 then [] else ValuesById(m, n - 1) + [m[n]]
  }

  // ---------------------------------------------------------------------
  // KPI arithmetic (updateKPIs)

  /** shipments.reduce((sum, s) => sum + s.cost, 0), summed left to right. */
  function TotalCost(ss: seq<Shipment>): real {
    if ss == [] then 0.0 else TotalCost(ss[..|ss| - 1]) + ss[|ss| - 1].cost
  }

  /** shipments.filter(s => s.status === status).length */
  function CountStatus(ss: seq<Shipment>, status: string): (r: nat)
    ensures r <= |ss|
  {
    if ss == [] then 0
    else CountStatus(ss[..|ss| - 1], status) + (if ss[|ss| - 1].status == status then 1 else 0)
  }

  /** The shipments whose status is neither on-time nor delayed. */
  function CountOtherStatus(ss: seq<Shipment>): nat {
    if ss == [] then 0
    else CountOtherStatus(ss[..|ss| - 1]) + (if ss[|ss| - 1].status in {OnTime, Delayed} then 0 else 1)
  }

  /** The KPI record updateKPIs builds from the shipment list: the count, the
      average cost (0 when there are no shipments), the share of on-time
      shipments in percent (0 when there are none) and the delayed count. */
  function ComputeKpi(ss: seq<Shipment>, now: int): (r: Kpi)
    ensures r.id == 1 && r.updatedAt == now
    ensures r.totalShipments == |ss|
    ensures |ss| == 0 ==> r.avgCost == 0.0 && r.onTimePercentage == 0.0
    ensures |ss| > 0 ==> r.avgCost * |ss| as real == TotalCost(ss)
    ensures |ss| > 0 ==> r.onTimePercentage * |ss| as real == 100.0 * CountStatus(ss, OnTime) as real
    ensures 0.0 <= r.onTimePercentage <= 100.0
    ensures r.delayedCount == CountStatus(ss, Delayed)
  {
    Kpi(1, |ss|, Average(TotalCost(ss), |ss|), Percentage(CountStatus(ss, OnTime), |ss|),
        CountStatus(ss, Delayed), now)
  }

  /** total / count, or 0 for no items: times the count it is the total. */
  function Average(total: real, count: nat): (r: real)
    ensures count == 0 ==> r == 0.0
    ensures count > 0 ==> r * count as real == total
  {
    if count > 0 then total / count as real else 0.0
  }

  /** (part / whole) * 100, or 0 for an empty whole: times the whole it is a
      hundred times the part, and it lies in 0 .. 100. */
  function Percentage(part: nat, whole: nat): (r: real)
    requires part <= whole
    ensures whole == 0 ==> r == 0.0
    ensures whole > 0 ==> r * whole as real == 100.0 * part as real
    ensures 0.0 <= r <= 100.0
  {
    if whole > 0 then
      var q := part as real / whole as real;
      assert q * whole as real == part as real;
      assert q <= 1.0;
      q * 100.0
    else 0.0
  }

  /** Every shipment is on time, delayed or something else, so the three
      counts add up to the total; in particular on-time plus delayed is at
      most the total. */
  lemma {:induction false} StatusCountsPartition(ss: seq<Shipment>)
    ensures CountStatus(ss, OnTime) + CountStatus(ss, Delayed) + CountOtherStatus(ss) == |ss|
    ensures CountStatus(ss, OnTime) + CountStatus(ss, Delayed) <= |ss|
  {
    if ss != [] {
      StatusCountsPartition(ss[..|ss| - 1]);
    }
  }

  /** When every cost lies in lo .. hi, the total of n costs lies in
      n * lo .. n * hi. */
  lemma {:induction false} TotalCostBounds(ss: seq<Shipment>, lo: real, hi: real)
    requires forall i :: 0 <= i < |ss| ==> lo <= ss[i].cost <= hi
    ensures |ss| as real * lo <= TotalCost(ss) <= |ss| as real * hi
  {
    if ss != [] {
      TotalCostBounds(ss[..|ss| - 1], lo, hi);
    }
  }

  /** A value whose n-fold lies between n * lo and n * hi, for n > 0, lies
      between lo and hi. */
  lemma DivideBounds(avg: real, n: real, total: real, lo: real, hi: real)
    requires n > 0.0 && avg * n == total && n * lo <= total <= n * hi
    ensures lo <= avg <= hi
  {
  }

  /** The average cost lies between the cheapest and the dearest shipment. */
  lemma AvgCostBetweenBounds(ss: seq<Shipment>, lo: real, hi: real, now: int)
    requires |ss| > 0
    requires forall i :: 0 <= i < |ss| ==> lo <= ss[i].cost <= hi
    ensures lo <= ComputeKpi(ss, now).avgCost <= hi
  {
    var k := ComputeKpi(ss, now);
    TotalCostBounds(ss, lo, hi);
    DivideBounds(k.avgCost, |ss| as real, TotalCost(ss), lo, hi);
  }

  /** Adding one shipment adds one to the count, its cost to the total cost,
      and one to the count of its status. */
  lemma KpiAfterAppend(ss: seq<Shipment>, s: Shipment, now: int)
    ensures ComputeKpi(ss + [s], now).totalShipments == ComputeKpi(ss, now).totalShipments + 1
    ensures TotalCost(ss + [s]) == TotalCost(ss) + s.cost
    ensures ComputeKpi(ss + [s], now).delayedCount == ComputeKpi(ss, now).delayedCount + (if s.status == Delayed then 1 else 0)
    ensures CountStatus(ss + [s], OnTime) == CountStatus(ss, OnTime) + (if s.status == OnTime then 1 else 0)
  {
    assert (ss + [s])[..|ss + [s]| - 1] == ss;
  }

  // ---------------------------------------------------------------------
  // Queries over the lists

  /** Shipment i of ss is the first whose shipmentId is code. */
  predicate FirstWithShipmentId(ss: seq<Shipment>, code: string, i: int) {
    0 <= i < |ss| && ss[i].shipmentId == code
    && forall j :: 0 <= j < i ==> ss[j].shipmentId != code
  }

  /** Array.prototype.find over the shipments in id order: the first one
      whose shipmentId is code, or nothing when none is. */
  function FindByShipmentId(ss: seq<Shipment>, code: string): (r: Option<Shipment>)
    ensures r.None? <==> forall i :: 0 <= i < |ss| ==> ss[i].shipmentId != code
    ensures r.Some? ==> exists i :: FirstWithShipmentId(ss, code, i) && ss[i] == r.value
  {
    if ss == [] then None
    else if ss[0].shipmentId == code then
      assert FirstWithShipmentId(ss, code, 0);
      Some(ss[0])
    else
      var r := FindByShipmentId(ss[1..], code);
      if r.Some? then
        var i :| FirstWithShipmentId(ss[1..], code, i) && ss[1..][i] == r.value;
        assert FirstWithShipmentId(ss, code, i + 1);
        r
      else r
  }

  /** The sites of one table as facilities, each tagged with the table. */
  function Tagged(sites: seq<Site>, kind: string): (r: seq<Facility>)
    ensures |r| == |sites|
    ensures forall i :: 0 <= i < |sites| ==>
      r[i] == Facility(sites[i].id, sites[i].name, sites[i].location, kind)
  {
    seq(|sites|, i requires 0 <= i < |sites| => Facility(sites[i].id, sites[i].name, sites[i].location, kind))
  }

  /** getAllFacilities: the suppliers, then the warehouses, then the stores,
      each in its table's order and tagged "supplier", "warehouse" or
      "store" after the table it came from. */
  function AllFacilities(suppliers: seq<Site>, warehouses: seq<Site>, stores: seq<Site>): (r: seq<Facility>)
    ensures |r| == |suppliers| + |warehouses| + |stores|
    ensures forall i :: 0 <= i < |suppliers| ==>
      r[i].id == suppliers[i].id && r[i].name == suppliers[i].name
      && r[i].location == suppliers[i].location && r[i].kind == SupplierTag
    ensures forall i :: 0 <= i < |warehouses| ==>
      r[|suppliers| + i].id == warehouses[i].id && r[|suppliers| + i].name == warehouses[i].name
      && r[|suppliers| + i].location == warehouses[i].location && r[|suppliers| + i].kind == WarehouseTag
    ensures forall i :: 0 <= i < |stores| ==>
      r[|suppliers| + |warehouses| + i].id == stores[i].id
      && r[|suppliers| + |warehouses| + i].name == stores[i].name
      && r[|suppliers| + |warehouses| + i].location == stores[i].location
      && r[|suppliers| + |warehouses| + i].kind == StoreTag
  {
    Tagged(suppliers, SupplierTag) + Tagged(warehouses, WarehouseTag) + Tagged(stores, StoreTag)
  }

  // ---------------------------------------------------------------------
  // Sample data loaded by the constructor

  const SampleSuppliers: seq<SiteInput> := [
    SiteInput("Supplier A", Location(59.3293, 18.0686), "supplier"),
    SiteInput("Supplier B", Location(55.6761, 12.5683), "supplier"),
    SiteInput("Supplier C", Location(51.5074, -0.1278), "supplier")]

  const SampleWarehouses: seq<SiteInput> := [
    SiteInput("Warehouse Berlin", Location(52.5200, 13.4050), "warehouse"),
    SiteInput("Warehouse Paris", Location(48.8566, 2.3522), "warehouse"),
    SiteInput("Warehouse Warsaw", Location(52.2297, 21.0122), "warehouse")]

  const SampleStores: seq<SiteInput> := [
    SiteInput("Store Madrid", Location(40.4168, -3.7038), "store"),
    SiteInput("Store Rome", Location(41.9028, 12.4964), "store"),
    SiteInput("Store Vienna", Location(48.2082, 16.3738), "store")]

  /** The three sample shipments; eta is midnight UTC of 2025-04-15,
      2025-04-18 and 2025-04-10. */
  const SampleShipments: seq<ShipmentInput> := [
    ShipmentInput("SHP-1001", "Electronic Components", Location(59.3293, 18.0686), Location(52.5200, 13.4050),
                  1, 1, 3.45, 1744675200000, "on-time"),
    ShipmentInput("SHP-1002", "Raw Materials", Location(52.2297, 21.0122), Location(48.8566, 2.3522),
                  3, 2, 5.21, 1744934400000, "in-transit"),
    ShipmentInput("SHP-1003", "Finished Goods", Location(52.5200, 13.4050), Location(40.4168, -3.7038),
                  1, 1, 4.87, 1744243200000, "delayed")]

  const TrendMonths: seq<string> := ["Jan", "Feb", "Mar", "Apr", "May", "Jun", "Jul", "Aug", "Sep", "Oct"]
  const TrendCounts: seq<int> := [65, 59, 80, 81, 56, 55, 70, 80, 90, 88]

  /** The sample inputs stored with ids firstId, firstId + 1, ... */
  function SitesFrom(inputs: seq<SiteInput>, firstId: int): (r: seq<Site>)
    ensures |r| == |inputs|
    ensures forall i :: 0 <= i < |inputs| ==> r[i] == AsSite(inputs[i], firstId + i)
  {
    seq(|inputs|, i requires 0 <= i < |inputs| => AsSite(inputs[i], firstId + i))
  }

  function ShipmentsFrom(inputs: seq<ShipmentInput>, firstId: int, createdAt: int): (r: seq<Shipment>)
    ensures |r| == |inputs|
    ensures forall i :: 0 <= i < |inputs| ==> r[i] == AsShipment(inputs[i], firstId + i, createdAt)
  {
    seq(|inputs|, i requires 0 <= i < |inputs| => AsShipment(inputs[i], firstId + i, createdAt))
  }

  /** Storing one more input extends the stored list by its record. */
  lemma SitesFromSnoc(inputs: seq<SiteInput>, i: int, firstId: int)
    requires 0 <= i < |inputs|
    ensures SitesFrom(inputs[..i + 1], firstId) == SitesFrom(inputs[..i], firstId) + [AsSite(inputs[i], firstId + i)]
  {
  }

  lemma ShipmentsFromSnoc(inputs: seq<ShipmentInput>, i: int, firstId: int, createdAt: int)
    requires 0 <= i < |inputs|
    ensures ShipmentsFrom(inputs[..i + 1], firstId, createdAt)
      == ShipmentsFrom(inputs[..i], firstId, createdAt) + [AsShipment(inputs[i], firstId + i, createdAt)]
  {
  }

  /** The trend rows the constructor appends: Jan .. Oct of 2025 with ids 1 .. 10. */
  function SampleTrends(): (r: seq<ShipmentTrend>)
    ensures |r| == 10
    ensures forall i :: 0 <= i < 10 ==> r[i] == ShipmentTrend(i + 1, TrendMonths[i], TrendCounts[i], 2025)
  {
    seq(10, i requires 0 <= i < 10 => ShipmentTrend(i + 1, TrendMonths[i], TrendCounts[i], 2025))
  }

  /** The KPI record of the sample shipments: 3 shipments, average cost
      (3.45 + 5.21 + 4.87) / 3 = 4.51, one in three on time, one delayed. */
  lemma SampleKpi(ss: seq<Shipment>, now: int)
    requires ss == ShipmentsFrom(SampleShipments, 1, now)
    ensures ComputeKpi(ss, now) == Kpi(1, 3, 4.51, 100.0 / 3.0, 1, now)
  {
    var a, b, c := ss[0], ss[1], ss[2];
    assert a.cost == 3.45 && a.status == OnTime;
    assert b.cost == 5.21 && b.status == "in-transit";
    assert c.cost == 4.87 && c.status == Delayed;
    assert ss[..2] == [a, b] && [a, b][..1] == [a] && [a][..0] == [];
    assert TotalCost([a]) == 3.45;
    assert TotalCost([a, b]) == 3.45 + 5.21;
    assert TotalCost(ss) == 13.53;
    assert CountStatus([a], OnTime) == 1 && CountStatus([a], Delayed) == 0;
    assert CountStatus([a, b], OnTime) == 1 && CountStatus([a, b], Delayed) == 0;
    assert CountStatus(ss, OnTime) == 1;
    assert CountStatus(ss, Delayed) == 1;
  }

  // ---------------------------------------------------------------------
  // The store

  ghost predicate SiteTable(m: map<int, Site>, next: int) {
    DenseIds(m, next) && forall k :: k in m ==> m[k].id == k
  }

  ghost predicate ShipmentTable(m: map<int, Shipment>, next: int) {
    DenseIds(m, next) && forall k :: k in m ==> m[k].id == k
  }

  ghost predicate TrendList(ts: seq<ShipmentTrend>, next: int) {
    next == |ts| + 1 && forall i :: 0 <= i < |ts| ==> ts[i].id == i + 1
  }

  /** No KPI record yet, or one whose figures are those of the shipments
      stored under the ids 1 .. next - 1. */
  ghost predicate KpiMatches(kpis: Option<Kpi>, m: map<int, Shipment>, next: int)
  {
    kpis.Some? ==> DenseIds(m, next) && kpis.value == ComputeKpi(ValuesById(m, next - 1), kpis.value.updatedAt)
  }

  class MemStorage {
    var suppliers: map<int, Site>
    var warehouses: map<int, Site>
    var stores: map<int, Site>
    var shipments: map<int, Shipment>
    var kpis: Option<Kpi>
    var shipmentTrends: seq<ShipmentTrend>

    var supplierId: int
    var warehouseId: int
    var storeId: int
    var shipmentId: int
    var shipmentTrendId: int

    /** Each table's keys are the ids 1 .. counter - 1 and each record
        carries its own key as id; the trend list holds ids 1, 2, ... in
        order; a KPI record, once there is one, matches the current
        shipments. */
    ghost predicate Valid()
      reads this
    {
      && SiteTable(suppliers, supplierId)
      && SiteTable(warehouses, warehouseId)
      && SiteTable(stores, storeId)
      && ShipmentTable(shipments, shipmentId)
      && TrendList(shipmentTrends, shipmentTrendId)
      && KpiMatches(kpis, shipments, shipmentId)
    }

    /** getSuppliers: the suppliers in id order. */
    function Suppliers(): (r: seq<Site>)
      requires SiteTable(suppliers, supplierId)
      reads this`suppliers, this`supplierId
      ensures |r| == supplierId - 1
      ensures forall i :: 0 <= i < |r| ==> r[i].id == i + 1 && r[i] == suppliers[i + 1]
    {
      ValuesById(suppliers, supplierId - 1)
    }

    /** getWarehouses: the warehouses in id order. */
    function Warehouses(): (r: seq<Site>)
      requires SiteTable(warehouses, warehouseId)
      reads this`warehouses, this`warehouseId
      ensures |r| == warehouseId - 1
      ensures forall i :: 0 <= i < |r| ==> r[i].id == i + 1 && r[i] == warehouses[i + 1]
    {
      ValuesById(warehouses, warehouseId - 1)
    }

    /** getStores: the stores in id order. */
    function Stores(): (r: seq<Site>)
      requires SiteTable(stores, storeId)
      reads this`stores, this`storeId
      ensures |r| == storeId - 1
      ensures forall i :: 0 <= i < |r| ==> r[i].id == i + 1 && r[i] == stores[i + 1]
    {
      ValuesById(stores, storeId - 1)
    }

    /** getShipments: the shipments in id order. */
    function Shipments(): (r: seq<Shipment>)
      requires ShipmentTable(shipments, shipmentId)
      reads this`shipments, this`shipmentId
      ensures |r| == shipmentId - 1
      ensures forall i :: 0 <= i < |r| ==> r[i].id == i + 1 && r[i] == shipments[i + 1]
    {
      ValuesById(shipments, shipmentId - 1)
    }

    /** getSupplier(id): found exactly for the ids handed out so far, and
        then it is the supplier with that id. */
    function GetSupplier(id: int): (r: Option<Site>)
      requires Valid()
      reads this
      ensures r.Some? <==> 1 <= id < supplierId
      ensures r.Some? ==> r.value.id == id && r.value == Suppliers()[id - 1]
    {
      if id in suppliers then Some(suppliers[id]) else None
    }

    /** getWarehouse(id) */
    function GetWarehouse(id: int): (r: Option<Site>)
      requires Valid()
      reads this
      ensures r.Some? <==> 1 <= id < warehouseId
      ensures r.Some? ==> r.value.id == id && r.value == Warehouses()[id - 1]
    {
      if id in warehouses then Some(warehouses[id]) else None
    }

    /** getStore(id) */
    function GetStore(id: int): (r: Option<Site>)
      requires Valid()
      reads this
      ensures r.Some? <==> 1 <= id < storeId
      ensures r.Some? ==> r.value.id == id && r.value == Stores()[id - 1]
    {
      if id in stores then Some(stores[id]) else None
    }

    /** getShipment(id) */
    function GetShipment(id: int): (r: Option<Shipment>)
      requires Valid()
      reads this
      ensures r.Some? <==> 1 <= id < shipmentId
      ensures r.Some? ==> r.value.id == id && r.value == Shipments()[id - 1]
    {
      if id in shipments then Some(shipments[id]) else None
    }

    /** getShipmentByShipmentId(code): the first shipment in id order whose
        shipmentId is code, or nothing. */
    function GetShipmentByShipmentId(code: string): (r: Option<Shipment>)
      requires ShipmentTable(shipments, shipmentId)
      reads this`shipments, this`shipmentId
      ensures r.None? <==> forall k :: k in shipments ==> shipments[k].shipmentId != code
      ensures r.Some? ==> (r.value.shipmentId == code && r.value.id in shipments
        && shipments[r.value.id] == r.value
        && forall k :: 1 <= k < r.value.id ==> shipments[k].shipmentId != code)
    {
      var ss := Shipments();
      var r := FindByShipmentId(ss, code);
      assert forall k :: k in shipments ==> ss[k - 1] == shipments[k];
      if r.Some? then
        var i :| FirstWithShipmentId(ss, code, i) && ss[i] == r.value;
        assert forall k :: 1 <= k < r.value.id ==> ss[k - 1] == shipments[k];
        r
      else r
    }

    /** getKPIs: nothing before the first shipment; afterwards a record
        whose figures are those of the current shipments. */
    function GetKpis(): (r: Option<Kpi>)
      requires ShipmentTable(shipments, shipmentId) && KpiMatches(kpis, shipments, shipmentId)
      reads this`kpis, this`shipments, this`shipmentId
      ensures r.Some? ==> r.value == ComputeKpi(Shipments(), r.value.updatedAt)
      ensures r.Some? ==> r.value.totalShipments == |Shipments()|
      ensures r.Some? ==> r.value.delayedCount == CountStatus(Shipments(), Delayed)
      ensures r.Some? ==> 0.0 <= r.value.onTimePercentage <= 100.0
      ensures r.Some? && |Shipments()| > 0 ==> r.value.avgCost * |Shipments()| as real == TotalCost(Shipments())
    {
      if kpis.Some? then
        assert kpis.value == ComputeKpi(Shipments(), kpis.value.updatedAt);
        kpis
      else kpis
    }

    /** getShipmentTrends: the trend rows in the order they were added,
        with ids 1, 2, ... */
    function GetShipmentTrends(): (r: seq<ShipmentTrend>)
      requires Valid()
      reads this
      ensures |r| == shipmentTrendId - 1
      ensures forall i :: 0 <= i < |r| ==> r[i].id == i + 1
    {
      shipmentTrends
    }

    /** getAllFacilities: every supplier, then every warehouse, then every
        store, each in id order and tagged after its table. */
    function GetAllFacilities(): (r: seq<Facility>)
      requires Valid()
      reads this
      ensures |r| == (supplierId - 1) + (warehouseId - 1) + (storeId - 1)
      ensures r == AllFacilities(Suppliers(), Warehouses(), Stores())
    {
      AllFacilities(Suppliers(), Warehouses(), Stores())
    }

    /** createSupplier: the new supplier gets the counter's value as id, is
        stored under it, and the counter moves on by one; no other table,
        counter, the trend list or the KPI record changes. */
    method CreateSupplier(input: SiteInput) returns (created: Site)
      requires Valid()
      modifies this`suppliers, this`supplierId
      ensures Valid()
      ensures created == AsSite(input, old(supplierId))
      ensures created.id !in old(suppliers)
      ensures suppliers == old(suppliers)[created.id := created]
      ensures supplierId == old(supplierId) + 1
      ensures Suppliers() == old(Suppliers()) + [created]
    {
      var id := supplierId;
      supplierId := supplierId + 1;
      created := AsSite(input, id);
      suppliers := suppliers[id := created];
    }

    /** createWarehouse */
    method CreateWarehouse(input: SiteInput) returns (created: Site)
      requires Valid()
      modifies this`warehouses, this`warehouseId
      ensures Valid()
      ensures created == AsSite(input, old(warehouseId))
      ensures created.id !in old(warehouses)
      ensures warehouses == old(warehouses)[created.id := created]
      ensures warehouseId == old(warehouseId) + 1
      ensures Warehouses() == old(Warehouses()) + [created]
    {
      var id := warehouseId;
      warehouseId := warehouseId + 1;
      created := AsSite(input, id);
      warehouses := warehouses[id := created];
    }

    /** createStore */
    method CreateStore(input: SiteInput) returns (created: Site)
      requires Valid()
      modifies this`stores, this`storeId
      ensures Valid()
      ensures created == AsSite(input, old(storeId))
      ensures created.id !in old(stores)
      ensures stores == old(stores)[created.id := created]
      ensures storeId == old(storeId) + 1
      ensures Stores() == old(Stores()) + [created]
    {
      var id := storeId;
      storeId := storeId + 1;
      created := AsSite(input, id);
      stores := stores[id := created];
    }

    /** updateKPIs: replaces the KPI record by the figures of the current
        shipments. */
    method UpdateKpis(now: int) returns (k: Kpi)
      requires Valid()
      modifies this`kpis
      ensures Valid()
      ensures k == ComputeKpi(Shipments(), now)
      ensures kpis == Some(k)
    {
      var ss := Shipments();
      k := ComputeKpi(ss, now);
      kpis := Some(k);
    }

    /** createShipment: the new shipment gets the counter's value as id and
        the current time as createdAt, is stored under the id, the counter
        moves on by one, and the KPI record is recomputed, so its count grows
        by exactly one. The other tables, counters and the trends do not
        change. */
    method CreateShipment(input: ShipmentInput, now: int) returns (created: Shipment)
      requires Valid()
      modifies this`shipments, this`shipmentId, this`kpis
      ensures Valid()
      ensures created == AsShipment(input, old(shipmentId), now)
      ensures created.id !in old(shipments)
      ensures shipments == old(shipments)[created.id := created]
      ensures shipmentId == old(shipmentId) + 1
      ensures Shipments() == old(Shipments()) + [created]
      ensures kpis == Some(ComputeKpi(Shipments(), now))
      ensures kpis.value.totalShipments == |old(Shipments())| + 1
    {
      var id := shipmentId;
      shipmentId := shipmentId + 1;
      created := AsShipment(input, id, now);
      shipments := shipments[id := created];
      kpis := None;
      assert Shipments() == old(Shipments()) + [created];
      var _ := UpdateKpis(now);
    }

    /** createShipmentTrend: appends the row with the counter's value as id. */
    method CreateShipmentTrend(input: TrendInput) returns (created: ShipmentTrend)
      requires Valid()
      modifies this`shipmentTrends, this`shipmentTrendId
      ensures Valid()
      ensures created == AsTrend(input, old(shipmentTrendId))
      ensures shipmentTrendId == old(shipmentTrendId) + 1
      ensures shipmentTrends == old(shipmentTrends) + [created]
    {
      var id := shipmentTrendId;
      shipmentTrendId := shipmentTrendId + 1;
      created := AsTrend(input, id);
      shipmentTrends := shipmentTrends + [created];
    }

    /** The constructor starts from empty tables with every counter at 1 and
        loads the sample data: 3 suppliers, 3 warehouses, 3 stores and 3
        shipments with ids 1 .. 3 (next id 4), the KPI record of those
        shipments, and 10 trend rows Jan .. Oct with ids 1 .. 10. */
    constructor (now: int)
      ensures Valid()
      ensures Suppliers() == SitesFrom(SampleSuppliers, 1) && supplierId == 4
      ensures Warehouses() == SitesFrom(SampleWarehouses, 1) && warehouseId == 4
      ensures Stores() == SitesFrom(SampleStores, 1) && storeId == 4
      ensures Shipments() == ShipmentsFrom(SampleShipments, 1, now) && shipmentId == 4
      ensures kpis == Some(Kpi(1, 3, 4.51, 100.0 / 3.0, 1, now))
      ensures shipmentTrends == SampleTrends() && shipmentTrendId == 11
    {
      suppliers, warehouses, stores, shipments := map[], map[], map[], map[];
      kpis := None;
      shipmentTrends := [];
      supplierId, warehouseId, storeId, shipmentId, shipmentTrendId := 1, 1, 1, 1, 1;
      new;
      InitializeSampleData(now);
    }

    /** initializeSampleData: each sample list is added with its create
        method, in order; then the KPI record is recomputed once more and
        the trend rows are appended. */
    method InitializeSampleData(now: int)
      requires Valid()
      requires suppliers == map[] && warehouses == map[] && stores == map[] && shipments == map[]
      requires kpis == None && shipmentTrends == []
      requires supplierId == 1 && warehouseId == 1 && storeId == 1 && shipmentId == 1
      modifies this`suppliers, this`supplierId, this`warehouses, this`warehouseId, this`stores, this`storeId
      modifies this`shipments, this`shipmentId, this`kpis, this`shipmentTrends, this`shipmentTrendId
      ensures Valid()
      ensures Suppliers() == SitesFrom(SampleSuppliers, 1) && supplierId == 4
      ensures Warehouses() == SitesFrom(SampleWarehouses, 1) && warehouseId == 4
      ensures Stores() == SitesFrom(SampleStores, 1) && storeId == 4
      ensures Shipments() == ShipmentsFrom(SampleShipments, 1, now) && shipmentId == 4
      ensures kpis == Some(Kpi(1, 3, 4.51, 100.0 / 3.0, 1, now))
      ensures shipmentTrends == SampleTrends() && shipmentTrendId == 11
    {
      AddSampleSites();
      AddSampleShipmentsAndKpis(now);
      AddSampleTrends();
    }

    /** The shipment loop followed by the KPI refresh over the three samples. */
    method AddSampleShipmentsAndKpis(now: int)
      requires Valid() && shipmentId == 1
      modifies this`shipments, this`shipmentId, this`kpis
      ensures Valid()
      ensures Shipments() == ShipmentsFrom(SampleShipments, 1, now) && shipmentId == 4
      ensures kpis == Some(Kpi(1, 3, 4.51, 100.0 / 3.0, 1, now))
    {
      AddSampleShipments(now);
      var k := UpdateKpis(now);
      SampleKpi(Shipments(), now);
    }

    /** The first three loops: suppliers, warehouses, stores. */
    method AddSampleSites()
      requires Valid() && supplierId == 1 && warehouseId == 1 && storeId == 1
      modifies this`suppliers, this`supplierId, this`warehouses, this`warehouseId, this`stores, this`storeId
      ensures Valid()
      ensures Suppliers() == SitesFrom(SampleSuppliers, 1) && supplierId == 4
      ensures Warehouses() == SitesFrom(SampleWarehouses, 1) && warehouseId == 4
      ensures Stores() == SitesFrom(SampleStores, 1) && storeId == 4
    {
      AddSampleSuppliers();
      AddSampleWarehouses();
      AddSampleStores();
    }

    method AddSampleSuppliers()
      requires Valid() && supplierId == 1
      modifies this`suppliers, this`supplierId
      ensures Valid()
      ensures Suppliers() == SitesFrom(SampleSuppliers, 1) && supplierId == 4
    {
      for i := 0 to |SampleSuppliers|
        invariant Valid()
        invariant Suppliers() == SitesFrom(SampleSuppliers[..i], 1) && supplierId == i + 1
      {
        var _ := CreateSupplier(SampleSuppliers[i]);
        SitesFromSnoc(SampleSuppliers, i, 1);
      }
      assert SampleSuppliers[..3] == SampleSuppliers;
    }

    method AddSampleWarehouses()
      requires Valid() && warehouseId == 1
      modifies this`warehouses, this`warehouseId
      ensures Valid()
      ensures Warehouses() == SitesFrom(SampleWarehouses, 1) && warehouseId == 4
    {
      for i := 0 to |SampleWarehouses|
        invariant Valid()
        invariant Warehouses() == SitesFrom(SampleWarehouses[..i], 1) && warehouseId == i + 1
      {
        var _ := CreateWarehouse(SampleWarehouses[i]);
        SitesFromSnoc(SampleWarehouses, i, 1);
      }
      assert SampleWarehouses[..3] == SampleWarehouses;
    }

    method AddSampleStores()
      requires Valid() && storeId == 1
      modifies this`stores, this`storeId
      ensures Valid()
      ensures Stores() == SitesFrom(SampleStores, 1) && storeId == 4
    {
      for i := 0 to |SampleStores|
        invariant Valid()
        invariant Stores() == SitesFrom(SampleStores[..i], 1) && storeId == i + 1
      {
        var _ := CreateStore(SampleStores[i]);
        SitesFromSnoc(SampleStores, i, 1);
      }
      assert SampleStores[..3] == SampleStores;
    }

    method AddSampleShipments(now: int)
      requires Valid() && shipmentId == 1
      modifies this`shipments, this`shipmentId, this`kpis
      ensures Valid()
      ensures Shipments() == ShipmentsFrom(SampleShipments, 1, now) && shipmentId == 4
      ensures kpis == Some(ComputeKpi(Shipments(), now))
    {
      for i := 0 to |SampleShipments|
        invariant Valid()
        invariant Shipments() == ShipmentsFrom(SampleShipments[..i], 1, now) && shipmentId == i + 1
        invariant i > 0 ==> kpis == Some(ComputeKpi(Shipments(), now))
      {
        var _ := CreateShipment(SampleShipments[i], now);
        ShipmentsFromSnoc(SampleShipments, i, 1, now);
      }
      assert SampleShipments[..3] == SampleShipments;
    }

    method AddSampleTrends()
      requires Valid() && shipmentTrends == []
      modifies this`shipmentTrends, this`shipmentTrendId
      ensures Valid()
      ensures shipmentTrends == SampleTrends() && shipmentTrendId == 11
    {
      for i := 0 to |TrendMonths|
        invariant Valid()
        invariant shipmentTrends == SampleTrends()[..i]
      {
        var _ := CreateShipmentTrend(TrendInput(TrendMonths[i], TrendCounts[i], 2025));
      }
      assert SampleTrends()[..10] == SampleTrends();
    }
  }
}
