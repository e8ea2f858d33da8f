/**
 The catalog rows of one cluster. They accumulate over all snapshots; a rewrite upserts the snapshot,
 marks what it did not mention stale and recomputes the totals.
 */
module Catalog {
  import opened Basics
  import opened Sums
  import opened Assoc
  import opened Snapshots

  type DeviceKey = (string, string)

  datatype PoolRow = PoolRow(management: Management, lastSeen: nat)
  datatype NodeRow = NodeRow(
    pool: string, management: Management, health: Health, schedulable: bool, traits: Traits, lastSeen: nat)
  datatype DeviceRow = DeviceRow(
    model: string, memoryMiB: int, mode: string, health: Health, allocatable: bool, traits: Traits, lastSeen: nat)

  // `granted` is the column "allocated", a reserved word here.
  datatype Inventory = Inventory(total: nat, reserved: nat, granted: nat, generation: nat)

  datatype Tables = Tables(
    pools: map<string, PoolRow>,
    nodes: map<string, NodeRow>,
    devices: map<DeviceKey, DeviceRow>,
    deviceTotals: map<DeviceKey, Inventory>,
    nodeTotals: map<string, Inventory>,
    poolTotals: map<string, Inventory>,
    clusterTotal: Option<Inventory>)

  const EMPTY := Tables(map[], map[], map[], map[], map[], map[], None)

  // ----- upsert -----

  function PoolEntries(ps: seq<Pool>, gen: nat): seq<(string, PoolRow)> {
    seq(|ps|, i requires 0 <= i < |ps| => (ps[i].name, PoolRow(ps[i].management, gen)))
  }

  function NodeEntry(n: NodeItem, gen: nat): (string, NodeRow) {
    (n.node.key,
     NodeRow(n.pool.name, n.node.management, n.node.health, n.node.schedulable, n.node.traits, gen))
  }

  function NodeEntries(ns: seq<NodeItem>, gen: nat): seq<(string, NodeRow)> {
    seq(|ns|, i requires 0 <= i < |ns| => NodeEntry(ns[i], gen))
  }

  function ItemKey(d: DeviceItem): DeviceKey {
    (d.node.key, d.device.key)
  }

  function DeviceEntry(d: DeviceItem, gen: nat): (DeviceKey, DeviceRow) {
    (ItemKey(d),
     DeviceRow(d.device.model, d.device.memoryMiB, d.device.mode, d.device.health, d.device.allocatable,
               d.device.traits, gen))
  }

  function DeviceEntries(ds: seq<DeviceItem>, gen: nat): seq<(DeviceKey, DeviceRow)> {
    seq(|ds|, i requires 0 <= i < |ds| => DeviceEntry(ds[i], gen))
  }

  function Upserted(t: Tables, gen: nat, ps: seq<Pool>): Tables {
    t.(pools := t.pools + ToMap(PoolEntries(ps, gen)),
       nodes := t.nodes + ToMap(NodeEntries(NodeItems(ps), gen)),
       devices := t.devices + ToMap(DeviceEntries(DeviceItems(NodeItems(ps)), gen)))
  }

  // ----- stale rows -----

  function StalePool(r: PoolRow, gen: nat): PoolRow {
    if r.lastSeen < gen then r.(management := Disabled) else r
  }

  function StaleNode(r: NodeRow, gen: nat): NodeRow {
    if r.lastSeen < gen then r.(health := Unreachable, schedulable := false) else r
  }

  function StaleDevice(r: DeviceRow, gen: nat): DeviceRow {
    if r.lastSeen < gen then r.(health := Unreachable, allocatable := false) else r
  }

  function MarkedStale(t: Tables, gen: nat): Tables {
    t.(devices := map k | k in t.devices :: StaleDevice(t.devices[k], gen),
       nodes := map k | k in t.nodes :: StaleNode(t.nodes[k], gen),
       pools := map k | k in t.pools :: StalePool(t.pools[k], gen))
  }

  // ----- totals -----

  predicate Placed(t: Tables, k: DeviceKey) {
    k in t.devices && k.0 in t.nodes && t.nodes[k.0].pool in t.pools
  }

  predicate Eligible(t: Tables, k: DeviceKey) {
    && Placed(t, k)
    && var d, n := t.devices[k], t.nodes[k.0];
      && d.allocatable && d.health == Healthy
      && n.schedulable && n.health == Healthy && n.management == Enabled
      && t.pools[n.pool].management == Enabled
  }

  function EligibleKeys(t: Tables): set<DeviceKey> {
    set k | k in t.devices && Eligible(t, k)
  }

  function OfNode(t: Tables, n: string): set<DeviceKey> {
    set k | k in t.devices && Eligible(t, k) && k.0 == n
  }

  function OfPool(t: Tables, p: string): set<DeviceKey> {
    set k | k in t.devices && Eligible(t, k) && t.nodes[k.0].pool == p
  }

  /** INSERT ... ON CONFLICT: a known row keeps its usage and never shrinks below it. */
  function Merged(existing: Option<Inventory>, total: nat, gen: nat): Inventory {
    match existing
    case None => Inventory(total, 0, 0, gen)
    case Some(i) =>
      i.(total := if total < i.reserved + i.granted then i.reserved + i.granted else total, generation := gen)
  }

  function Lookup<K>(m: map<K, Inventory>, k: K): Option<Inventory> {
    if k in m then Some(m[k]) else None
  }

  function DeviceTotals(t: Tables, gen: nat): map<DeviceKey, Inventory> {
    t.deviceTotals
    + map k | k in t.devices && Placed(t, k) ::
        Merged(Lookup(t.deviceTotals, k), if Eligible(t, k) then 1 else 0, gen)
  }

  function NodeTotals(t: Tables, gen: nat): map<string, Inventory> {
    t.nodeTotals
    + map n | n in t.nodes && t.nodes[n].pool in t.pools ::
        Merged(Lookup(t.nodeTotals, n), |OfNode(t, n)|, gen)
  }

  function PoolTotals(t: Tables, gen: nat): map<string, Inventory> {
    t.poolTotals + map p | p in t.pools :: Merged(Lookup(t.poolTotals, p), |OfPool(t, p)|, gen)
  }

  function TotalOr0(m: map<string, Inventory>, p: string): nat {
    if p in m then m[p].total else 0
  }

  /** COALESCE(total, 0) of every pool row. */
  function PoolSizes(t: Tables): map<string, nat> {
    map p | p in t.pools :: TotalOr0(t.poolTotals, p)
  }

  ghost function ClusterTotal(t: Tables, gen: nat): Option<Inventory> {
    var sum := Sum(PoolSizes(t), Size());
    if t.pools == map[] then t.clusterTotal
    else Some(Merged(t.clusterTotal, if sum < 0 then 0 else sum, gen))
  }

  ghost function Refreshed(t: Tables, gen: nat): Tables {
    var t1 := t.(deviceTotals := DeviceTotals(t, gen),
                 nodeTotals := NodeTotals(t, gen),
                 poolTotals := PoolTotals(t, gen));
    t1.(clusterTotal := ClusterTotal(t1, gen))
  }

  ghost function Rewritten(t: Tables, gen: nat, ps: seq<Pool>): Tables {
    Refreshed(MarkedStale(Upserted(t, gen, ps), gen), gen)
  }

  // ----- what every rewrite keeps -----

  predicate Unused(i: Inventory) {
    i.reserved == 0 && i.granted == 0
  }

  /** References resolve and every row was seen by generation `gen`. */
  ghost predicate Refs(t: Tables, gen: nat) {
    && (forall k :: k in t.devices ==> k.0 in t.nodes && t.devices[k].lastSeen <= gen)
    && (forall n :: n in t.nodes ==> t.nodes[n].pool in t.pools && t.nodes[n].lastSeen <= gen)
    && (forall p :: p in t.pools ==> t.pools[p].lastSeen <= gen)
  }

  ghost predicate Clean<K>(m: map<K, Inventory>, keys: set<K>) {
    m.Keys <= keys && forall k :: k in m ==> Unused(m[k])
  }

  /** Every row has its totals, and inventory rows carry no usage. */
  ghost predicate Sound(t: Tables, gen: nat) {
    && Refs(t, gen)
    && Clean(t.deviceTotals, t.devices.Keys) && t.deviceTotals.Keys == t.devices.Keys
    && Clean(t.nodeTotals, t.nodes.Keys) && t.nodeTotals.Keys == t.nodes.Keys
    && Clean(t.poolTotals, t.pools.Keys) && t.poolTotals.Keys == t.pools.Keys
    && (t.clusterTotal.Some? <==> t.pools != map[])
    && (t.clusterTotal.Some? ==> Unused(t.clusterTotal.value))
  }

  // ----- the direct count over a snapshot -----

  predicate Counts(d: DeviceItem) {
    && d.device.allocatable && d.device.health == Healthy
    && d.node.schedulable && d.node.health == Healthy && d.node.management == Enabled
    && d.pool.management == Enabled
  }

  function AllDevices(ps: seq<Pool>): seq<DeviceItem> {
    DeviceItems(NodeItems(ps))
  }

  function CountOfDevice(k: DeviceKey): DeviceItem -> bool {
    (d: DeviceItem) => Counts(d) && ItemKey(d) == k
  }

  function CountOfNode(n: string): DeviceItem -> bool {
    (d: DeviceItem) => Counts(d) && d.node.key == n
  }

  function CountOfPool(p: string): DeviceItem -> bool {
    (d: DeviceItem) => Counts(d) && d.pool.name == p
  }

  /** The four levels of totals agree with a direct count over the snapshot `ps` alone. */
  ghost predicate Reflects(t: Tables, ps: seq<Pool>) {
    var ds := AllDevices(ps);
    && (forall k :: k in t.deviceTotals ==> t.deviceTotals[k].total == Count(ds, CountOfDevice(k)))
    && (forall n :: n in t.nodeTotals ==> t.nodeTotals[n].total == Count(ds, CountOfNode(n)))
    && (forall p :: p in t.poolTotals ==> t.poolTotals[p].total == Count(ds, CountOfPool(p)))
    && (t.clusterTotal.Some? ==> t.clusterTotal.value.total == Count(ds, Counts))
  }

  function NodeParts(t: Tables, n: string): map<DeviceKey, nat> {
    map k | k in t.deviceTotals && k.0 == n :: t.deviceTotals[k].total
  }

  function PoolParts(t: Tables, p: string): map<string, nat> {
    map n | n in t.nodes && n in t.nodeTotals && t.nodes[n].pool == p :: t.nodeTotals[n].total
  }

  /** Each level's total is the sum of the level below. */
  ghost predicate LevelsAddUp(t: Tables) {
    && (forall n :: n in t.nodeTotals ==> t.nodeTotals[n].total == Sum(NodeParts(t, n), Size()))
    && (forall p :: p in t.poolTotals ==> t.poolTotals[p].total == Sum(PoolParts(t, p), Size()))
    && (t.clusterTotal.Some? ==> t.clusterTotal.value.total == Sum(PoolSizes(t), Size()))
  }

  // ----- rows after upsert and stale marking -----

  ghost function AfterStale(t: Tables, gen: nat, ps: seq<Pool>): Tables {
    MarkedStale(Upserted(t, gen, ps), gen)
  }

  lemma PoolRowWritten(t: Tables, gen: nat, ps: seq<Pool>, i: nat)
    requires ValidPools(ps) && i < |ps|
    ensures var t' := AfterStale(t, gen, ps);
      ps[i].name in t'.pools && t'.pools[ps[i].name] == PoolRow(ps[i].management, gen)
  {
    var pe := PoolEntries(ps, gen);
    ToMapLookup(pe);
    assert pe[i] == (ps[i].name, PoolRow(ps[i].management, gen));
  }

  lemma NodeRowWritten(t: Tables, gen: nat, ps: seq<Pool>, x: nat)
    requires ValidPools(ps) && x < |NodeItems(ps)|
    ensures var t', e := AfterStale(t, gen, ps), NodeEntry(NodeItems(ps)[x], gen);
      e.0 in t'.nodes && t'.nodes[e.0] == e.1
  {
    var ne := NodeEntries(NodeItems(ps), gen);
    forall i, j | 0 <= i < j < |ne| ensures ne[i].0 != ne[j].0 {
      assert NodeItems(ps)[i].node.key != NodeItems(ps)[j].node.key;
    }
    ToMapLookup(ne);
    assert ne[x] == NodeEntry(NodeItems(ps)[x], gen);
  }

  lemma DeviceRowWritten(t: Tables, gen: nat, ps: seq<Pool>, y: nat)
    requires ValidPools(ps) && y < |AllDevices(ps)|
    ensures var t', e := AfterStale(t, gen, ps), DeviceEntry(AllDevices(ps)[y], gen);
      e.0 in t'.devices && t'.devices[e.0] == e.1
  {
    var de := DeviceEntries(AllDevices(ps), gen);
    DeviceKeysDistinct(NodeItems(ps));
    forall i, j | 0 <= i < j < |de| ensures de[i].0 != de[j].0 {
      assert ItemKey(AllDevices(ps)[i]) != ItemKey(AllDevices(ps)[j]);
    }
    ToMapLookup(de);
    assert de[y] == DeviceEntry(AllDevices(ps)[y], gen);
  }

  ghost predicate InSnapshot(ps: seq<Pool>, k: DeviceKey, y: nat) {
    y < |AllDevices(ps)| && ItemKey(AllDevices(ps)[y]) == k
  }

  /** A device row that is still allocatable after the stale pass belongs to the snapshot. */
  lemma FreshDeviceOrigin(t: Tables, gen: nat, ps: seq<Pool>, k: DeviceKey) returns (y: nat)
    requires forall j :: j in t.devices ==> t.devices[j].lastSeen < gen
    requires var t' := AfterStale(t, gen, ps); k in t'.devices && t'.devices[k].allocatable
    ensures InSnapshot(ps, k, y)
  {
    var de := DeviceEntries(AllDevices(ps), gen);
    assert k in ToMap(de);
    y := ToMapKeys(de, k);
  }

  /** An eligible device is exactly a counted item of the snapshot, in the item's node and pool. */
  lemma EligibleIsCounted(t: Tables, gen: nat, ps: seq<Pool>, y: nat)
    requires ValidPools(ps) && y < |AllDevices(ps)|
    ensures var t', d := AfterStale(t, gen, ps), AllDevices(ps)[y];
      && ItemKey(d) in t'.devices && d.node.key in t'.nodes
      && t'.nodes[d.node.key].pool == d.pool.name
      && (Eligible(t', ItemKey(d)) <==> Counts(d))
  {
    var x, b := DeviceItemOrigin(NodeItems(ps), y);
    var i := NodeItemOrigin(ps, x);
    PoolRowWritten(t, gen, ps, i);
    NodeRowWritten(t, gen, ps, x);
    DeviceRowWritten(t, gen, ps, y);
  }

  /** Counting eligible rows that satisfy `onRows` is counting items that satisfy `onItems`. */
  lemma RowsAreItems(t: Tables, gen: nat, ps: seq<Pool>, rows: set<DeviceKey>, onItems: DeviceItem -> bool)
    requires ValidPools(ps)
    requires forall k :: k in t.devices ==> t.devices[k].lastSeen < gen
    requires var t' := AfterStale(t, gen, ps);
      forall k :: k in rows ==> k in t'.devices && Eligible(t', k)
    requires forall y :: 0 <= y < |AllDevices(ps)| ==>
      (onItems(AllDevices(ps)[y]) <==> Counts(AllDevices(ps)[y]) && ItemKey(AllDevices(ps)[y]) in rows)
    ensures |rows| == Count(AllDevices(ps), onItems)
  {
    var ds := AllDevices(ps);
    var key := (d: DeviceItem) => ItemKey(d);
    DeviceKeysDistinct(NodeItems(ps));
    forall i, j | 0 <= i < j < |ds| ensures key(ds[i]) != key(ds[j]) {
      assert ItemKey(ds[i]) != ItemKey(ds[j]);
    }
    forall k | k in rows ensures Selects(ds, onItems, key, k) {
      var y := FreshDeviceOrigin(t, gen, ps, k);
      EligibleIsCounted(t, gen, ps, y);
      assert onItems(ds[y]) && key(ds[y]) == k;
    }
    CountIsCardinality(ds, onItems, key, rows);
  }

  // The count(*) FILTER queries, against the snapshot.

  lemma ItemsEligible(t: Tables, gen: nat, ps: seq<Pool>)
    requires ValidPools(ps)
    ensures var t', ds := AfterStale(t, gen, ps), AllDevices(ps);
      forall y :: 0 <= y < |ds| ==>
        && ItemKey(ds[y]) in t'.devices && (Eligible(t', ItemKey(ds[y])) <==> Counts(ds[y]))
        && ds[y].node.key in t'.nodes && t'.nodes[ds[y].node.key].pool == ds[y].pool.name
  {
    var t', ds := AfterStale(t, gen, ps), AllDevices(ps);
    forall y | 0 <= y < |ds|
      ensures ItemKey(ds[y]) in t'.devices && (Eligible(t', ItemKey(ds[y])) <==> Counts(ds[y]))
      ensures ds[y].node.key in t'.nodes && t'.nodes[ds[y].node.key].pool == ds[y].pool.name
    {
      EligibleIsCounted(t, gen, ps, y);
    }
  }

  lemma ClusterCountAgrees(t: Tables, gen: nat, ps: seq<Pool>)
    requires ValidPools(ps)
    requires forall k :: k in t.devices ==> t.devices[k].lastSeen < gen
    ensures |EligibleKeys(AfterStale(t, gen, ps))| == Count(AllDevices(ps), Counts)
  {
    ItemsEligible(t, gen, ps);
    RowsAreItems(t, gen, ps, EligibleKeys(AfterStale(t, gen, ps)), Counts);
  }

  lemma NodeCountAgrees(t: Tables, gen: nat, ps: seq<Pool>, n: string)
    requires ValidPools(ps)
    requires forall k :: k in t.devices ==> t.devices[k].lastSeen < gen
    ensures |OfNode(AfterStale(t, gen, ps), n)| == Count(AllDevices(ps), CountOfNode(n))
  {
    ItemsEligible(t, gen, ps);
    RowsAreItems(t, gen, ps, OfNode(AfterStale(t, gen, ps), n), CountOfNode(n));
  }

  lemma PoolCountAgrees(t: Tables, gen: nat, ps: seq<Pool>, p: string)
    requires ValidPools(ps)
    requires forall k :: k in t.devices ==> t.devices[k].lastSeen < gen
    ensures |OfPool(AfterStale(t, gen, ps), p)| == Count(AllDevices(ps), CountOfPool(p))
  {
    ItemsEligible(t, gen, ps);
    RowsAreItems(t, gen, ps, OfPool(AfterStale(t, gen, ps), p), CountOfPool(p));
  }

  lemma DeviceCountAgrees(t: Tables, gen: nat, ps: seq<Pool>, k: DeviceKey)
    requires ValidPools(ps)
    requires forall k :: k in t.devices ==> t.devices[k].lastSeen < gen
    requires k in AfterStale(t, gen, ps).devices
    ensures (if Eligible(AfterStale(t, gen, ps), k) then 1 else 0) == Count(AllDevices(ps), CountOfDevice(k))
  {
    hide AfterStale, Eligible, ValidPools, Counts, AllDevices, ItemKey, CountOfDevice;
    forall y | 0 <= y < |AllDevices(ps)|
      ensures CountOfDevice(k)(AllDevices(ps)[y]) <==>
        Counts(AllDevices(ps)[y]) && ItemKey(AllDevices(ps)[y]) in RowIfEligible(AfterStale(t, gen, ps), k)
    {
      DeviceItemRow(t, gen, ps, k, y);
    }
    RowsAreItems(t, gen, ps, RowIfEligible(AfterStale(t, gen, ps), k), CountOfDevice(k));
  }

  function RowIfEligible(t: Tables, k: DeviceKey): set<DeviceKey> {
    if Eligible(t, k) then {k} else {}
  }

  lemma DeviceItemRow(t: Tables, gen: nat, ps: seq<Pool>, k: DeviceKey, y: nat)
    requires ValidPools(ps) && y < |AllDevices(ps)|
    ensures var d := AllDevices(ps)[y];
      CountOfDevice(k)(d) <==> Counts(d) && ItemKey(d) in RowIfEligible(AfterStale(t, gen, ps), k)
  {
    hide *;
    EligibleIsCounted(t, gen, ps, y);
    RowOfItem(AfterStale(t, gen, ps), AllDevices(ps)[y], k);
  }

  lemma RowOfItem(t: Tables, d: DeviceItem, k: DeviceKey)
    requires Eligible(t, ItemKey(d)) <==> Counts(d)
    ensures CountOfDevice(k)(d) <==> Counts(d) && ItemKey(d) in RowIfEligible(t, k)
  {
    hide Eligible, Counts, ItemKey;
  }

  // ----- a rewrite re-establishes everything from the snapshot -----

  lemma DevicesAfterStale(t: Tables, g0: nat, gen: nat, ps: seq<Pool>, k: DeviceKey)
    requires Refs(t, g0) && g0 < gen && ValidPools(ps)
    requires k in AfterStale(t, gen, ps).devices
    ensures k.0 in AfterStale(t, gen, ps).nodes && AfterStale(t, gen, ps).devices[k].lastSeen <= gen
  {
    var de := DeviceEntries(AllDevices(ps), gen);
    if k in ToMap(de) {
      var y := ToMapKeys(de, k);
      DeviceRowWritten(t, gen, ps, y);
      EligibleIsCounted(t, gen, ps, y);
    } else {
      assert k in t.devices;
    }
  }

  lemma NodesAfterStale(t: Tables, g0: nat, gen: nat, ps: seq<Pool>, n: string)
    requires Refs(t, g0) && g0 < gen && ValidPools(ps)
    requires n in AfterStale(t, gen, ps).nodes
    ensures AfterStale(t, gen, ps).nodes[n].pool in AfterStale(t, gen, ps).pools
    ensures AfterStale(t, gen, ps).nodes[n].lastSeen <= gen
  {
    var ne := NodeEntries(NodeItems(ps), gen);
    if n in ToMap(ne) {
      var x := ToMapKeys(ne, n);
      NodeRowWritten(t, gen, ps, x);
      var i := NodeItemOrigin(ps, x);
      PoolRowWritten(t, gen, ps, i);
    } else {
      assert n in t.nodes;
    }
  }

  lemma PoolsAfterStale(t: Tables, g0: nat, gen: nat, ps: seq<Pool>, p: string)
    requires Refs(t, g0) && g0 < gen && ValidPools(ps)
    requires p in AfterStale(t, gen, ps).pools
    ensures AfterStale(t, gen, ps).pools[p].lastSeen <= gen
  {
    var pe := PoolEntries(ps, gen);
    if p in ToMap(pe) {
      var i := ToMapKeys(pe, p);
      PoolRowWritten(t, gen, ps, i);
    } else {
      assert p in t.pools;
    }
  }

  lemma AfterStaleRefs(t: Tables, g0: nat, gen: nat, ps: seq<Pool>)
    requires Refs(t, g0) && g0 < gen && ValidPools(ps)
    ensures Refs(AfterStale(t, gen, ps), gen)
  {
    var t' := AfterStale(t, gen, ps);
    forall k | k in t'.devices ensures k.0 in t'.nodes && t'.devices[k].lastSeen <= gen {
      DevicesAfterStale(t, g0, gen, ps, k);
    }
    forall n | n in t'.nodes ensures t'.nodes[n].pool in t'.pools && t'.nodes[n].lastSeen <= gen {
      NodesAfterStale(t, g0, gen, ps, n);
    }
    forall p | p in t'.pools ensures t'.pools[p].lastSeen <= gen { PoolsAfterStale(t, g0, gen, ps, p); }
  }

  function PoolOf(t: Tables): DeviceKey -> string {
    (k: DeviceKey) => if k.0 in t.nodes then t.nodes[k.0].pool else ""
  }

  /** The cluster total, summed over pool rows, is the number of eligible devices. */
  lemma PoolSizesAddUp(t: Tables)
    requires forall k :: k in t.devices ==> k.0 in t.nodes
    requires forall n :: n in t.nodes ==> t.nodes[n].pool in t.pools
    requires forall p :: p in t.pools ==> p in t.poolTotals && t.poolTotals[p].total == |OfPool(t, p)|
    ensures Sum(PoolSizes(t), Size()) == |EligibleKeys(t)|
  {
    forall p | p in PoolSizes(t) ensures PoolSizes(t)[p] == |Fiber(EligibleKeys(t), PoolOf(t), p)| {
      assert Fiber(EligibleKeys(t), PoolOf(t), p) == OfPool(t, p);
    }
    FibersAddUp(EligibleKeys(t), PoolOf(t), PoolSizes(t));
  }

  /** The totals a rewrite leaves, in terms of the rows it leaves. */
  ghost predicate TotalsOfRows(t: Tables) {
    && (forall k :: k in t.deviceTotals ==> t.deviceTotals[k].total == if Eligible(t, k) then 1 else 0)
    && (forall n :: n in t.nodeTotals ==> t.nodeTotals[n].total == |OfNode(t, n)|)
    && (forall p :: p in t.poolTotals ==> t.poolTotals[p].total == |OfPool(t, p)|)
    && (t.clusterTotal.Some? ==> t.clusterTotal.value.total == |EligibleKeys(t)|)
  }

  ghost predicate SameRows(a: Tables, b: Tables) {
    a.pools == b.pools && a.nodes == b.nodes && a.devices == b.devices
  }

  lemma SameRowsSameCounts(a: Tables, b: Tables)
    requires SameRows(a, b)
    ensures EligibleKeys(a) == EligibleKeys(b)
    ensures forall k :: Eligible(a, k) == Eligible(b, k)
    ensures forall n :: OfNode(a, n) == OfNode(b, n)
    ensures forall p :: OfPool(a, p) == OfPool(b, p)
  {
    forall k ensures Eligible(a, k) == Eligible(b, k) {}
  }

  lemma DeviceTotalsFresh(t: Tables, gen: nat)
    requires Refs(t, gen) && Clean(t.deviceTotals, t.devices.Keys)
    ensures Clean(DeviceTotals(t, gen), t.devices.Keys) && DeviceTotals(t, gen).Keys == t.devices.Keys
    ensures forall k :: k in t.devices ==> DeviceTotals(t, gen)[k].total == if Eligible(t, k) then 1 else 0
  {
    hide Eligible;
  }

  lemma NodeTotalsFresh(t: Tables, gen: nat)
    requires Refs(t, gen) && Clean(t.nodeTotals, t.nodes.Keys)
    ensures Clean(NodeTotals(t, gen), t.nodes.Keys) && NodeTotals(t, gen).Keys == t.nodes.Keys
    ensures forall n :: n in t.nodes ==> NodeTotals(t, gen)[n].total == |OfNode(t, n)|
  {
    hide OfNode;
  }

  lemma PoolTotalsFresh(t: Tables, gen: nat)
    requires Clean(t.poolTotals, t.pools.Keys)
    ensures Clean(PoolTotals(t, gen), t.pools.Keys) && PoolTotals(t, gen).Keys == t.pools.Keys
    ensures forall p :: p in t.pools ==> PoolTotals(t, gen)[p].total == |OfPool(t, p)|
  {
  }

  lemma RefreshTotals(t: Tables, gen: nat)
    requires Refs(t, gen)
    requires Clean(t.deviceTotals, t.devices.Keys) && Clean(t.nodeTotals, t.nodes.Keys)
    requires Clean(t.poolTotals, t.pools.Keys)
    requires t.clusterTotal.Some? ==> t.pools != map[] && Unused(t.clusterTotal.value)
    ensures Sound(Refreshed(t, gen), gen) && TotalsOfRows(Refreshed(t, gen)) && SameRows(Refreshed(t, gen), t)
  {
    DeviceTotalsFresh(t, gen);
    NodeTotalsFresh(t, gen);
    PoolTotalsFresh(t, gen);
    var t1 := t.(deviceTotals := DeviceTotals(t, gen), nodeTotals := NodeTotals(t, gen),
                 poolTotals := PoolTotals(t, gen));
    SameRowsSameCounts(t1, t);
    SameRowsSameCounts(Refreshed(t, gen), t);
    PoolSizesAddUp(t1);
  }

  lemma AfterStaleKeepsTotals(t: Tables, g0: nat, gen: nat, ps: seq<Pool>)
    requires Sound(t, g0)
    ensures var s := AfterStale(t, gen, ps);
      && Clean(s.deviceTotals, s.devices.Keys) && Clean(s.nodeTotals, s.nodes.Keys)
      && Clean(s.poolTotals, s.pools.Keys)
      && (s.clusterTotal.Some? ==> s.pools != map[] && Unused(s.clusterTotal.value))
  {
    var s := AfterStale(t, gen, ps);
    assert t.devices.Keys <= s.devices.Keys && t.nodes.Keys <= s.nodes.Keys && t.pools.Keys <= s.pools.Keys;
    if t.clusterTotal.Some? {
      var p :| p in t.pools;
      assert p in s.pools;
    }
  }

  lemma TotalsReflect(t: Tables, g0: nat, gen: nat, ps: seq<Pool>, t': Tables)
    requires Sound(t, g0) && g0 < gen && ValidPools(ps)
    requires SameRows(t', AfterStale(t, gen, ps)) && Sound(t', gen) && TotalsOfRows(t')
    ensures Reflects(t', ps)
  {
    SameRowsSameCounts(t', AfterStale(t, gen, ps));
    forall k | k in t'.deviceTotals
      ensures t'.deviceTotals[k].total == Count(AllDevices(ps), CountOfDevice(k))
    {
      DeviceCountAgrees(t, gen, ps, k);
    }
    forall n | n in t'.nodeTotals { NodeCountAgrees(t, gen, ps, n); }
    forall p | p in t'.poolTotals { PoolCountAgrees(t, gen, ps, p); }
    ClusterCountAgrees(t, gen, ps);
  }

  /**
   Ingestion is correct whatever came before: after a rewrite, every total at every level is the
   direct count over the one snapshot just written.
   */
  lemma RewriteReflects(t: Tables, g0: nat, gen: nat, ps: seq<Pool>)
    requires Sound(t, g0) && g0 < gen && ValidPools(ps)
    ensures var t' := Rewritten(t, gen, ps);
      Sound(t', gen) && TotalsOfRows(t') && Reflects(t', ps)
  {
    AfterStaleRefs(t, g0, gen, ps);
    AfterStaleKeepsTotals(t, g0, gen, ps);
    RefreshTotals(AfterStale(t, gen, ps), gen);
    TotalsReflect(t, g0, gen, ps, Rewritten(t, gen, ps));
  }

  lemma NodeLevel(t: Tables, gen: nat, n: string)
    requires Sound(t, gen) && TotalsOfRows(t)
    ensures |OfNode(t, n)| == Sum(NodeParts(t, n), Size())
  {
    hide Eligible, Sum;
    var id := (k: DeviceKey) => k;
    forall k | k in NodeParts(t, n) ensures NodeParts(t, n)[k] == |Fiber(OfNode(t, n), id, k)| {
      assert Fiber(OfNode(t, n), id, k) == if Eligible(t, k) then {k} else {};
    }
    FibersAddUp(OfNode(t, n), id, NodeParts(t, n));
  }

  lemma PoolLevel(t: Tables, gen: nat, p: string)
    requires Sound(t, gen) && TotalsOfRows(t)
    ensures |OfPool(t, p)| == Sum(PoolParts(t, p), Size())
  {
    var nodeOf := (k: DeviceKey) => k.0;
    forall n | n in PoolParts(t, p) ensures PoolParts(t, p)[n] == |Fiber(OfPool(t, p), nodeOf, n)| {
      assert Fiber(OfPool(t, p), nodeOf, n) == OfNode(t, n);
    }
    FibersAddUp(OfPool(t, p), nodeOf, PoolParts(t, p));
  }

  /** Devices add up to nodes, nodes to pools and pools to the cluster. */
  lemma TotalsAddUp(t: Tables, gen: nat)
    requires Sound(t, gen) && TotalsOfRows(t)
    ensures LevelsAddUp(t)
  {
    forall n | n in t.nodeTotals { NodeLevel(t, gen, n); }
    forall p | p in t.poolTotals { PoolLevel(t, gen, p); }
    PoolSizesAddUp(t);
  }

  // ----- rewriting the same content again -----

  ghost predicate AlikeTotals<K>(a: map<K, Inventory>, b: map<K, Inventory>) {
    a.Keys == b.Keys && forall k :: k in a ==> a[k].(generation := 0) == b[k].(generation := 0)
  }

  ghost predicate AlikeRows(a: Tables, b: Tables) {
    && a.pools.Keys == b.pools.Keys && a.nodes.Keys == b.nodes.Keys && a.devices.Keys == b.devices.Keys
    && (forall k :: k in a.pools ==> a.pools[k].(lastSeen := 0) == b.pools[k].(lastSeen := 0))
    && (forall k :: k in a.nodes ==> a.nodes[k].(lastSeen := 0) == b.nodes[k].(lastSeen := 0))
    && (forall k :: k in a.devices ==> a.devices[k].(lastSeen := 0) == b.devices[k].(lastSeen := 0))
  }

  /** The same catalog up to generation counters. */
  ghost predicate Alike(a: Tables, b: Tables) {
    && AlikeRows(a, b)
    && AlikeTotals(a.deviceTotals, b.deviceTotals)
    && AlikeTotals(a.nodeTotals, b.nodeTotals)
    && AlikeTotals(a.poolTotals, b.poolTotals)
    && a.clusterTotal.Some? == b.clusterTotal.Some?
    && (a.clusterTotal.Some? ==>
          a.clusterTotal.value.(generation := 0) == b.clusterTotal.value.(generation := 0))
  }

  /** One table after an upsert of `entries` followed by the stale pass. */
  function Pass<K, R>(m: map<K, R>, entries: seq<(K, R)>, stale: R -> R): map<K, R> {
    map k | k in m + ToMap(entries) :: stale((m + ToMap(entries))[k])
  }

  ghost predicate AlikeEntries<K, R>(a: seq<(K, R)>, b: seq<(K, R)>, erase: R -> R) {
    |a| == |b| && forall i :: 0 <= i < |a| ==> a[i].0 == b[i].0 && erase(a[i].1) == erase(b[i].1)
  }

  lemma {:induction false} AlikeMaps<K, R>(a: seq<(K, R)>, b: seq<(K, R)>, erase: R -> R)
    requires AlikeEntries(a, b, erase)
    ensures ToMap(a).Keys == ToMap(b).Keys
    ensures forall k :: k in ToMap(a) ==> erase(ToMap(a)[k]) == erase(ToMap(b)[k])
    decreases |a|
  {
    if a != [] {
      AlikeMaps(a[..|a| - 1], b[..|b| - 1], erase);
      assert ToMap(a).Keys == ToMap(a[..|a| - 1]).Keys + {a[|a| - 1].0};
      assert ToMap(b).Keys == ToMap(b[..|b| - 1]).Keys + {b[|b| - 1].0};
    }
  }

  lemma {:induction false} FreshRowsStay<K, R>(entries: seq<(K, R)>, stale: R -> R)
    requires forall i :: 0 <= i < |entries| ==> stale(entries[i].1) == entries[i].1
    ensures forall k :: k in ToMap(entries) ==> stale(ToMap(entries)[k]) == ToMap(entries)[k]
    decreases |entries|
  {
    if entries != [] { FreshRowsStay(entries[..|entries| - 1], stale); }
  }

  /** A second pass with the same content changes nothing but what `erase` hides. */
  lemma SecondPassAlike<K, R>(
    m: map<K, R>, e1: seq<(K, R)>, e2: seq<(K, R)>, stale1: R -> R, stale2: R -> R, erase: R -> R)
    requires AlikeEntries(e1, e2, erase)
    requires forall i :: 0 <= i < |e1| ==> stale1(e1[i].1) == e1[i].1 && stale2(e2[i].1) == e2[i].1
    requires forall k :: k in m ==> erase(stale2(stale1(m[k]))) == erase(stale1(m[k]))
    ensures var m1 := Pass(m, e1, stale1);
      var m2 := Pass(m1, e2, stale2);
      m2.Keys == m1.Keys && forall k :: k in m1 ==> erase(m2[k]) == erase(m1[k])
  {
    AlikeMaps(e1, e2, erase);
    FreshRowsStay(e1, stale1);
    FreshRowsStay(e2, stale2);
    var m1 := Pass(m, e1, stale1);
    var m2 := Pass(m1, e2, stale2);
    forall k | k in m1 ensures k in m2 && erase(m2[k]) == erase(m1[k]) {
      if k !in ToMap(e1) { assert k in m; }
    }
  }

  function PoolBefore(gen: nat): PoolRow -> PoolRow { (r: PoolRow) => StalePool(r, gen) }

  function NodeBefore(gen: nat): NodeRow -> NodeRow { (r: NodeRow) => StaleNode(r, gen) }

  function DeviceBefore(gen: nat): DeviceRow -> DeviceRow { (r: DeviceRow) => StaleDevice(r, gen) }

  lemma DevicesArePass(t: Tables, gen: nat, ps: seq<Pool>)
    ensures AfterStale(t, gen, ps).devices == Pass(t.devices, DeviceEntries(AllDevices(ps), gen), DeviceBefore(gen))
  {
    hide DeviceEntries, NodeEntries, PoolEntries, DeviceItems, NodeItems, ToMap;
  }

  lemma NodesArePass(t: Tables, gen: nat, ps: seq<Pool>)
    ensures AfterStale(t, gen, ps).nodes == Pass(t.nodes, NodeEntries(NodeItems(ps), gen), NodeBefore(gen))
  {
    hide DeviceEntries, NodeEntries, PoolEntries, DeviceItems, NodeItems, ToMap;
  }

  lemma PoolsArePass(t: Tables, gen: nat, ps: seq<Pool>)
    ensures AfterStale(t, gen, ps).pools == Pass(t.pools, PoolEntries(ps, gen), PoolBefore(gen))
  {
    hide DeviceEntries, NodeEntries, PoolEntries, DeviceItems, NodeItems, ToMap;
  }

  lemma AfterStaleIsPass(t: Tables, gen: nat, ps: seq<Pool>)
    ensures AfterStale(t, gen, ps).pools == Pass(t.pools, PoolEntries(ps, gen), PoolBefore(gen))
    ensures AfterStale(t, gen, ps).nodes == Pass(t.nodes, NodeEntries(NodeItems(ps), gen), NodeBefore(gen))
    ensures AfterStale(t, gen, ps).devices == Pass(t.devices, DeviceEntries(AllDevices(ps), gen), DeviceBefore(gen))
  {
    hide *;
    PoolsArePass(t, gen, ps);
    NodesArePass(t, gen, ps);
    DevicesArePass(t, gen, ps);
  }

  lemma PoolsPassAlike(m: map<string, PoolRow>, g0: nat, g1: nat, g2: nat, ps: seq<Pool>)
    requires g0 < g1 < g2 && forall k :: k in m ==> m[k].lastSeen <= g0
    ensures var m1 := Pass(m, PoolEntries(ps, g1), PoolBefore(g1));
      var m2 := Pass(m1, PoolEntries(ps, g2), PoolBefore(g2));
      m2.Keys == m1.Keys && forall k :: k in m1 ==> m2[k].(lastSeen := 0) == m1[k].(lastSeen := 0)
  {
    var erase := (r: PoolRow) => r.(lastSeen := 0);
    SecondPassAlike(m, PoolEntries(ps, g1), PoolEntries(ps, g2), PoolBefore(g1), PoolBefore(g2), erase);
    var m1 := Pass(m, PoolEntries(ps, g1), PoolBefore(g1)); var m2 := Pass(m1, PoolEntries(ps, g2), PoolBefore(g2));
    forall k | k in m1 ensures m2[k].(lastSeen := 0) == m1[k].(lastSeen := 0) {
      assert erase(m2[k]) == erase(m1[k]);
    }
  }

  lemma NodesPassAlike(m: map<string, NodeRow>, g0: nat, g1: nat, g2: nat, ps: seq<Pool>)
    requires g0 < g1 < g2 && forall k :: k in m ==> m[k].lastSeen <= g0
    ensures var m1 := Pass(m, NodeEntries(NodeItems(ps), g1), NodeBefore(g1));
      var m2 := Pass(m1, NodeEntries(NodeItems(ps), g2), NodeBefore(g2));
      m2.Keys == m1.Keys && forall k :: k in m1 ==> m2[k].(lastSeen := 0) == m1[k].(lastSeen := 0)
  {
    var erase := (r: NodeRow) => r.(lastSeen := 0);
    SecondPassAlike(m, NodeEntries(NodeItems(ps), g1), NodeEntries(NodeItems(ps), g2), NodeBefore(g1), NodeBefore(g2),
      erase);
    var m1 := Pass(m, NodeEntries(NodeItems(ps), g1), NodeBefore(g1));
    var m2 := Pass(m1, NodeEntries(NodeItems(ps), g2), NodeBefore(g2));
    forall k | k in m1 ensures m2[k].(lastSeen := 0) == m1[k].(lastSeen := 0) {
      assert erase(m2[k]) == erase(m1[k]);
    }
  }

  lemma DevicesPassAlike(m: map<DeviceKey, DeviceRow>, g0: nat, g1: nat, g2: nat, ps: seq<Pool>)
    requires g0 < g1 < g2 && forall k :: k in m ==> m[k].lastSeen <= g0
    ensures var m1 := Pass(m, DeviceEntries(AllDevices(ps), g1), DeviceBefore(g1));
      var m2 := Pass(m1, DeviceEntries(AllDevices(ps), g2), DeviceBefore(g2));
      m2.Keys == m1.Keys && forall k :: k in m1 ==> m2[k].(lastSeen := 0) == m1[k].(lastSeen := 0)
  {
    var erase := (r: DeviceRow) => r.(lastSeen := 0);
    SecondPassAlike(m, DeviceEntries(AllDevices(ps), g1), DeviceEntries(AllDevices(ps), g2), DeviceBefore(g1),
      DeviceBefore(g2), erase);
    var m1 := Pass(m, DeviceEntries(AllDevices(ps), g1), DeviceBefore(g1));
    var m2 := Pass(m1, DeviceEntries(AllDevices(ps), g2), DeviceBefore(g2));
    forall k | k in m1 ensures m2[k].(lastSeen := 0) == m1[k].(lastSeen := 0) {
      assert erase(m2[k]) == erase(m1[k]);
    }
  }

  lemma AlikeRowsCountAlike(a: Tables, b: Tables)
    requires AlikeRows(a, b)
    ensures forall k :: Eligible(a, k) == Eligible(b, k)
    ensures EligibleKeys(a) == EligibleKeys(b)
    ensures forall n :: OfNode(a, n) == OfNode(b, n)
    ensures forall p :: OfPool(a, p) == OfPool(b, p)
  {
    forall k ensures Eligible(a, k) == Eligible(b, k) {
      if k in a.devices && k.0 in a.nodes {
        assert a.devices[k].(lastSeen := 0) == b.devices[k].(lastSeen := 0);
        assert a.nodes[k.0].(lastSeen := 0) == b.nodes[k.0].(lastSeen := 0);
        if a.nodes[k.0].pool in a.pools {
          assert a.pools[a.nodes[k.0].pool].(lastSeen := 0) == b.pools[a.nodes[k.0].pool].(lastSeen := 0);
        }
      }
    }
    forall k | k in a.devices && Eligible(a, k) ensures a.nodes[k.0].pool == b.nodes[k.0].pool {
      assert a.nodes[k.0].(lastSeen := 0) == b.nodes[k.0].(lastSeen := 0);
    }
  }

  lemma AlikeRowsAlikeTotals(a: Tables, ga: nat, b: Tables, gb: nat)
    requires AlikeRows(a, b) && Sound(a, ga) && Sound(b, gb) && TotalsOfRows(a) && TotalsOfRows(b)
    ensures Alike(a, b)
  {
    hide Eligible, EligibleKeys, OfNode, OfPool, Refs;
    AlikeRowsCountAlike(a, b);
  }

  lemma AfterStaleSameRows(t: Tables, a: Tables, gen: nat, ps: seq<Pool>)
    requires SameRows(t, a)
    ensures SameRows(AfterStale(t, gen, ps), AfterStale(a, gen, ps))
  {
  }

  ghost predicate WrittenFrom(t: Tables, g0: nat, gen: nat, ps: seq<Pool>, t': Tables) {
    Sound(t, g0) && g0 < gen && t' == Rewritten(t, gen, ps)
  }

  /** The tables are what some rewrite of the snapshot `ps` left behind. */
  ghost predicate Holds(t: Tables, gen: nat, ps: seq<Pool>) {
    ValidPools(ps) && exists t0, g0 :: WrittenFrom(t0, g0, gen, ps, t)
  }

  /** Upserting and marking a second time with the same content changes only the generation stamps. */
  lemma SecondStaleAlike(t: Tables, g0: nat, gen: nat, next: nat, ps: seq<Pool>)
    requires Refs(t, g0) && g0 < gen < next
    ensures AlikeRows(AfterStale(AfterStale(t, gen, ps), next, ps), AfterStale(t, gen, ps))
  {
    var a := AfterStale(t, gen, ps);
    PoolsPassAlike(t.pools, g0, gen, next, ps);
    NodesPassAlike(t.nodes, g0, gen, next, ps);
    DevicesPassAlike(t.devices, g0, gen, next, ps);
    hide AfterStale, Pass;
    AfterStaleIsPass(t, gen, ps);
    AfterStaleIsPass(a, next, ps);
  }

  lemma SameRowsAlike(x: Tables, b: Tables, t: Tables, a: Tables)
    requires SameRows(x, b) && SameRows(t, a) && AlikeRows(b, a)
    ensures AlikeRows(x, t)
  {
  }

  /**
   Rewriting the content that the tables already hold leaves the same catalog, so skipping the rewrite
   loses nothing.
   */
  lemma RewriteAgainAlike(t: Tables, gen: nat, next: nat, ps: seq<Pool>)
    requires Holds(t, gen, ps) && gen < next
    ensures Alike(Rewritten(t, next, ps), t)
  {
    var t0, g0 :| WrittenFrom(t0, g0, gen, ps, t);
    var a := AfterStale(t0, gen, ps);
    SecondStaleAlike(t0, g0, gen, next, ps);
    AfterStaleSameRows(t, a, next, ps);
    hide ValidPools, Reflects, TotalsOfRows, Sound, Rewritten, AfterStale, AlikeRows, SameRows, Alike;
    RewriteReflects(t0, g0, gen, ps);
    RewriteReflects(t, gen, next, ps);
    SameRowsAlike(Rewritten(t, next, ps), AfterStale(a, next, ps), t, a);
    AlikeRowsAlikeTotals(Rewritten(t, next, ps), next, t, gen);
  }

  lemma HoldsReflects(t: Tables, gen: nat, ps: seq<Pool>)
    requires Holds(t, gen, ps)
    ensures Sound(t, gen) && Reflects(t, ps) && LevelsAddUp(t)
  {
    var t0, g0 :| WrittenFrom(t0, g0, gen, ps, t);
    RewriteReflects(t0, g0, gen, ps);
    TotalsAddUp(t, gen);
  }

  /** The cluster total as it is stored; no row is no capacity. */
  function StoredTotal(t: Tables): nat {
    if t.clusterTotal.Some? then t.clusterTotal.value.total else 0
  }

  lemma HoldsTotal(t: Tables, gen: nat, ps: seq<Pool>)
    requires Holds(t, gen, ps)
    ensures StoredTotal(t) == Count(AllDevices(ps), Counts)
  {
    HoldsReflects(t, gen, ps);
    if ps != [] {
      var t0, g0 :| WrittenFrom(t0, g0, gen, ps, t);
      PoolRowWritten(t0, gen, ps, 0);
      hide Sound, ValidPools, Counts, AfterStale;
      assert ps[0].name in t.pools by { RewrittenRows(t0, gen, ps); }
      assert t.clusterTotal.Some? by { RewrittenTotal(t0, gen, ps); }
    }
  }

  lemma RewrittenRows(t: Tables, gen: nat, ps: seq<Pool>)
    ensures SameRows(Rewritten(t, gen, ps), AfterStale(t, gen, ps))
  {
  }

  lemma RewrittenTotal(t: Tables, gen: nat, ps: seq<Pool>)
    requires Rewritten(t, gen, ps).pools != map[]
    ensures Rewritten(t, gen, ps).clusterTotal.Some?
  {
  }
}
