/** The inventory transaction, performed row by row on the tables of one cluster. */
module Ingestion {
  import opened Basics
  import opened Sums
  import opened Assoc
  import opened Snapshots
  import opened Catalog

  lemma ToMapStep<K, V>(s: seq<(K, V)>, e: (K, V))
    ensures ToMap(s + [e]) == ToMap(s)[e.0 := e.1]
  {
    assert (s + [e])[..|s|] == s;
  }

  lemma WriteStep<K, V>(base: map<K, V>, s: seq<(K, V)>, e: (K, V))
    ensures base + ToMap(s + [e]) == (base + ToMap(s))[e.0 := e.1]
  {
    ToMapStep(s, e);
  }

  ghost function DevicesWritten(base: map<DeviceKey, DeviceRow>, ds: seq<DeviceItem>, gen: nat)
    : map<DeviceKey, DeviceRow>
  {
    base + ToMap(DeviceEntries(ds, gen))
  }

  ghost function NodesWritten(base: map<string, NodeRow>, ns: seq<NodeItem>, gen: nat): map<string, NodeRow> {
    base + ToMap(NodeEntries(ns, gen))
  }

  lemma DeviceStep(base: map<DeviceKey, DeviceRow>, ds: seq<DeviceItem>, d: DeviceItem, gen: nat)
    ensures DevicesWritten(base, ds + [d], gen) == DevicesWritten(base, ds, gen)[ItemKey(d) := DeviceEntry(d, gen).1]
  {
    assert DeviceEntries(ds + [d], gen) == DeviceEntries(ds, gen) + [DeviceEntry(d, gen)];
    WriteStep(base, DeviceEntries(ds, gen), DeviceEntry(d, gen));
  }

  lemma NodeStep(base: map<string, NodeRow>, ns: seq<NodeItem>, n: NodeItem, gen: nat)
    ensures NodesWritten(base, ns + [n], gen) == NodesWritten(base, ns, gen)[n.node.key := NodeEntry(n, gen).1]
    ensures DeviceItems(ns + [n]) == DeviceItems(ns) + DevicesOf(n)
  {
    assert NodeEntries(ns + [n], gen) == NodeEntries(ns, gen) + [NodeEntry(n, gen)];
    WriteStep(base, NodeEntries(ns, gen), NodeEntry(n, gen));
    assert (ns + [n])[..|ns|] == ns;
  }

  lemma PoolStep(base: map<string, PoolRow>, ps: seq<Pool>, i: nat, gen: nat)
    requires i < |ps|
    ensures base + ToMap(PoolEntries(ps[..i + 1], gen))
         == (base + ToMap(PoolEntries(ps[..i], gen)))[ps[i].name := PoolRow(ps[i].management, gen)]
  {
    assert PoolEntries(ps[..i + 1], gen) == PoolEntries(ps[..i], gen) + [(ps[i].name, PoolRow(ps[i].management, gen))];
    WriteStep(base, PoolEntries(ps[..i], gen), (ps[i].name, PoolRow(ps[i].management, gen)));
  }

  /** This generation has seen the device, its node and its pool. */
  predicate SeenWithAll(t: Tables, k: DeviceKey, gen: nat) {
    && Placed(t, k)
    && t.devices[k].lastSeen >= gen && t.nodes[k.0].lastSeen >= gen && t.pools[t.nodes[k.0].pool].lastSeen >= gen
  }

  lemma StaleEligible(t: Tables, gen: nat)
    ensures forall k :: Eligible(MarkedStale(t, gen), k) <==> Eligible(t, k) && SeenWithAll(t, k, gen)
  {
  }

  // ----- totals over some of the rows -----

  /** The totals after the rows of `sizes` have been merged, in any order. */
  function MergedInto<K>(base: map<K, Inventory>, sizes: map<K, nat>, gen: nat): map<K, Inventory> {
    base + map k | k in sizes :: Merged(Lookup(base, k), sizes[k], gen)
  }

  lemma MergeStep<K>(base: map<K, Inventory>, sizes: map<K, nat>, gen: nat, k: K, size: nat)
    requires k !in sizes
    ensures var m := MergedInto(base, sizes, gen);
      MergedInto(base, sizes[k := size], gen) == m[k := Merged(Lookup(m, k), size, gen)]
  {
  }

  lemma MergeNothing<K>(base: map<K, Inventory>, gen: nat)
    ensures MergedInto(base, map[], gen) == base
  {
  }

  lemma DeviceTotalsMerged(t: Tables, gen: nat, sizes: map<DeviceKey, nat>)
    requires sizes.Keys == set k | k in t.devices && Placed(t, k)
    requires forall k :: k in sizes ==> sizes[k] == if Eligible(t, k) then 1 else 0
    ensures MergedInto(t.deviceTotals, sizes, gen) == DeviceTotals(t, gen)
  {
    hide Placed, Eligible, Merged;
  }

  lemma NodeTotalsMerged(t: Tables, gen: nat, sizes: map<string, nat>)
    requires sizes.Keys == set n | n in t.nodes && t.nodes[n].pool in t.pools
    requires forall n :: n in sizes ==> sizes[n] == |OfNode(t, n)|
    ensures MergedInto(t.nodeTotals, sizes, gen) == NodeTotals(t, gen)
  {
    hide OfNode, Merged;
  }

  lemma PoolTotalsMerged(t: Tables, gen: nat, sizes: map<string, nat>)
    requires sizes.Keys == t.pools.Keys
    requires forall p :: p in sizes ==> sizes[p] == |OfPool(t, p)|
    ensures MergedInto(t.poolTotals, sizes, gen) == PoolTotals(t, gen)
  {
    hide OfPool, Merged;
  }

  ghost predicate Refreshable(t: Tables, gen: nat) {
    && Refs(t, gen)
    && Clean(t.deviceTotals, t.devices.Keys) && Clean(t.nodeTotals, t.nodes.Keys) && Clean(t.poolTotals, t.pools.Keys)
    && (t.clusterTotal.Some? ==> t.pools != map[] && Unused(t.clusterTotal.value))
  }

  lemma RefreshableTotals(t: Tables, gen: nat)
    requires Refreshable(t, gen)
    ensures Sound(Refreshed(t, gen), gen) && TotalsOfRows(Refreshed(t, gen))
  {
    hide Refs, Clean, Unused, Sound, TotalsOfRows, Refreshed;
    RefreshTotals(t, gen);
  }

  /** count(*) FILTER over the device rows, in any order. */
  method CountEligible(t: Tables, among: DeviceKey -> bool) returns (count: nat)
    ensures count == |EligibleAmong(t, among)|
  {
    var rest := t.devices.Keys;
    ghost var counted: set<DeviceKey> := {};
    count := 0;
    while rest != {}
      invariant rest <= t.devices.Keys && count == |counted|
      invariant counted == set k | k in t.devices && k !in rest && Eligible(t, k) && among(k)
      decreases |rest|
    {
      var k :| k in rest;
      rest := rest - {k};
      if Eligible(t, k) && among(k) {
        counted := counted + {k};
        count := count + 1;
      }
    }
    assert counted == EligibleAmong(t, among);
  }

  ghost function EligibleAmong(t: Tables, among: DeviceKey -> bool): set<DeviceKey> {
    set k | k in t.devices && Eligible(t, k) && among(k)
  }

  function OnNode(n: string): DeviceKey -> bool {
    (k: DeviceKey) => k.0 == n
  }

  function OnPool(nodes: map<string, NodeRow>, p: string): DeviceKey -> bool {
    (k: DeviceKey) => k.0 in nodes && nodes[k.0].pool == p
  }

  lemma RowsOfNode(now: Tables, t: Tables, n: string)
    requires SameRows(now, t)
    ensures EligibleAmong(now, OnNode(n)) == OfNode(t, n)
  {
  }

  lemma RowsOfPool(now: Tables, t: Tables, p: string)
    requires SameRows(now, t)
    ensures EligibleAmong(now, OnPool(t.nodes, p)) == OfPool(t, p)
  {
  }

  /** The node totals depend on the rows and the old node totals only. */
  lemma NodeTotalsOnRows(t: Tables, now: Tables, gen: nat)
    requires SameRows(now, t) && now.nodeTotals == t.nodeTotals
    ensures NodeTotals(now, gen) == NodeTotals(t, gen)
  {
    SameRowsSameCounts(now, t);
  }

  lemma PoolTotalsOnRows(t: Tables, now: Tables, gen: nat)
    requires SameRows(now, t) && now.poolTotals == t.poolTotals
    ensures PoolTotals(now, gen) == PoolTotals(t, gen)
  {
    SameRowsSameCounts(now, t);
  }

  class ClusterCatalog {
    var pools: map<string, PoolRow>
    var nodes: map<string, NodeRow>
    var devices: map<DeviceKey, DeviceRow>
    var deviceTotals: map<DeviceKey, Inventory>
    var nodeTotals: map<string, Inventory>
    var poolTotals: map<string, Inventory>
    var clusterTotal: Option<Inventory>

    function View(): Tables
      reads this
    {
      Tables(pools, nodes, devices, deviceTotals, nodeTotals, poolTotals, clusterTotal)
    }

    constructor (t: Tables)
      ensures View() == t
    {
      pools, nodes, devices := t.pools, t.nodes, t.devices;
      deviceTotals, nodeTotals, poolTotals := t.deviceTotals, t.nodeTotals, t.poolTotals;
      clusterTotal := t.clusterTotal;
    }

    method UpsertDevices(n: NodeItem, gen: nat, ghost before: seq<DeviceItem>, ghost base: map<DeviceKey, DeviceRow>)
      requires devices == DevicesWritten(base, before, gen)
      modifies this`devices
      ensures devices == DevicesWritten(base, before + DevicesOf(n), gen)
    {
      ghost var all := DevicesOf(n);
      assert before + all[..0] == before;
      for b := 0 to |n.node.devices|
        invariant devices == DevicesWritten(base, before + all[..b], gen)
      {
        var d := n.node.devices[b];
        devices := devices[(n.node.key, d.key) :=
          DeviceRow(d.model, d.memoryMiB, d.mode, d.health, d.allocatable, d.traits, gen)];
        DeviceStep(base, before + all[..b], all[b], gen);
        assert before + all[..b + 1] == before + all[..b] + [all[b]];
      }
      assert all[..|n.node.devices|] == all;
    }

    method UpsertNodes(
      pool: Pool, gen: nat, ghost before: seq<NodeItem>,
      ghost nodes0: map<string, NodeRow>, ghost devices0: map<DeviceKey, DeviceRow>)
      requires nodes == NodesWritten(nodes0, before, gen)
      requires devices == DevicesWritten(devices0, DeviceItems(before), gen)
      modifies this`nodes, this`devices
      ensures nodes == NodesWritten(nodes0, before + PoolItems(pool), gen)
      ensures devices == DevicesWritten(devices0, DeviceItems(before + PoolItems(pool)), gen)
    {
      hide NodesWritten, DevicesWritten, DevicesOf;
      ghost var all := PoolItems(pool);
      assert before + all[..0] == before;
      for a := 0 to |pool.nodes|
        invariant nodes == NodesWritten(nodes0, before + all[..a], gen)
        invariant devices == DevicesWritten(devices0, DeviceItems(before + all[..a]), gen)
      {
        var node := pool.nodes[a];
        nodes := nodes[node.key :=
          NodeRow(pool.name, node.management, node.health, node.schedulable, node.traits, gen)];
        NodeStep(nodes0, before + all[..a], all[a], gen);
        assert before + all[..a + 1] == before + all[..a] + [all[a]];
        UpsertDevices(NodeItem(pool, node), gen, DeviceItems(before + all[..a]), devices0);
      }
      assert all[..|pool.nodes|] == all;
    }

    /** The nested upsert loops: pools, their nodes, the nodes' devices. */
    method Upsert(gen: nat, ps: seq<Pool>)
      modifies this`pools, this`nodes, this`devices
      ensures View() == Upserted(old(View()), gen, ps)
    {
      ghost var t := View();
      for i := 0 to |ps|
        invariant pools == t.pools + ToMap(PoolEntries(ps[..i], gen))
        invariant nodes == NodesWritten(t.nodes, NodeItems(ps[..i]), gen)
        invariant devices == DevicesWritten(t.devices, DeviceItems(NodeItems(ps[..i])), gen)
      {
        pools := pools[ps[i].name := PoolRow(ps[i].management, gen)];
        PoolStep(t.pools, ps, i, gen);
        NodeItemsPrefix(ps, i);
        UpsertNodes(ps[i], gen, NodeItems(ps[..i]), t.nodes, t.devices);
      }
      assert ps[..|ps|] == ps;
    }

    method MarkDevices(gen: nat)
      modifies this`devices
      ensures devices.Keys == old(devices).Keys
      ensures forall k :: k in devices ==> devices[k] == StaleDevice(old(devices)[k], gen)
    {
      var rest := set k | k in devices && devices[k].lastSeen < gen;
      while rest != {}
        invariant devices.Keys == old(devices).Keys && rest <= devices.Keys
        invariant forall k :: k in rest ==> devices[k] == old(devices)[k] && devices[k].lastSeen < gen
        invariant forall k :: k in devices && k !in rest ==> devices[k] == StaleDevice(old(devices)[k], gen)
        decreases |rest|
      {
        var k :| k in rest;
        devices := devices[k := devices[k].(health := Unreachable, allocatable := false)];
        rest := rest - {k};
      }
    }

    method MarkNodes(gen: nat)
      modifies this`nodes
      ensures nodes.Keys == old(nodes).Keys
      ensures forall n :: n in nodes ==> nodes[n] == StaleNode(old(nodes)[n], gen)
    {
      var rest := set n | n in nodes && nodes[n].lastSeen < gen;
      while rest != {}
        invariant nodes.Keys == old(nodes).Keys && rest <= nodes.Keys
        invariant forall n :: n in rest ==> nodes[n] == old(nodes)[n] && nodes[n].lastSeen < gen
        invariant forall n :: n in nodes && n !in rest ==> nodes[n] == StaleNode(old(nodes)[n], gen)
        decreases |rest|
      {
        var n :| n in rest;
        nodes := nodes[n := nodes[n].(health := Unreachable, schedulable := false)];
        rest := rest - {n};
      }
    }

    method MarkPools(gen: nat)
      modifies this`pools
      ensures pools.Keys == old(pools).Keys
      ensures forall p :: p in pools ==> pools[p] == StalePool(old(pools)[p], gen)
    {
      var rest := set p | p in pools && pools[p].lastSeen < gen;
      while rest != {}
        invariant pools.Keys == old(pools).Keys && rest <= pools.Keys
        invariant forall p :: p in rest ==> pools[p] == old(pools)[p] && pools[p].lastSeen < gen
        invariant forall p :: p in pools && p !in rest ==> pools[p] == StalePool(old(pools)[p], gen)
        decreases |rest|
      {
        var p :| p in rest;
        pools := pools[p := pools[p].(management := Disabled)];
        rest := rest - {p};
      }
    }

    /**
     Three updates, row by row. A device stays eligible exactly if it was and this generation has seen the
     device, its node and its pool; rows this generation has seen are untouched.
     */
    method MarkStale(gen: nat)
      modifies this`devices, this`nodes, this`pools
      ensures View() == MarkedStale(old(View()), gen)
      ensures forall k :: k in devices && old(devices)[k].lastSeen >= gen ==> devices[k] == old(devices)[k]
      ensures forall n :: n in nodes && old(nodes)[n].lastSeen >= gen ==> nodes[n] == old(nodes)[n]
      ensures forall p :: p in pools && old(pools)[p].lastSeen >= gen ==> pools[p] == old(pools)[p]
      ensures forall k :: Eligible(View(), k) <==> Eligible(old(View()), k) && SeenWithAll(old(View()), k, gen)
    {
      MarkDevices(gen);
      MarkNodes(gen);
      MarkPools(gen);
      StaleEligible(old(View()), gen);
    }

    /** sum(ri.total) over the pool rows, in any order. */
    method SumPools() returns (sum: nat)
      ensures sum == Sum(PoolSizes(View()), Size())
    {
      var rest := PoolSizes(View());
      sum := 0;
      while rest != map[]
        invariant sum + Sum(rest, Size()) == Sum(PoolSizes(View()), Size())
        decreases |rest|
      {
        var p :| p in rest;
        SumPick(rest, Size(), p);
        sum := sum + rest[p];
        rest := rest - {p};
      }
    }

    /** One total per placed device: one unit or none. */
    method RefreshDevices(gen: nat)
      modifies this`deviceTotals
      ensures deviceTotals == DeviceTotals(old(View()), gen)
    {
      hide Eligible, Merged, MergedInto, Lookup, DeviceTotals;
      ghost var t := View();
      var rest := devices.Keys;
      ghost var sizes: map<DeviceKey, nat> := map[];
      MergeNothing(t.deviceTotals, gen);
      while rest != {}
        invariant rest <= devices.Keys && SameRows(View(), t)
        invariant sizes.Keys == set k | k in devices && k !in rest && Placed(t, k)
        invariant forall k :: k in sizes ==> sizes[k] == if Eligible(t, k) then 1 else 0
        invariant deviceTotals == MergedInto(t.deviceTotals, sizes, gen)
        decreases |rest|
      {
        var k :| k in rest;
        rest := rest - {k};
        if k.0 in nodes && nodes[k.0].pool in pools {
          SameRowsSameCounts(View(), t);
          var size := if Eligible(View(), k) then 1 else 0;
          MergeStep(t.deviceTotals, sizes, gen, k, size);
          sizes := sizes[k := size];
          deviceTotals := deviceTotals[k := Merged(Lookup(deviceTotals, k), size, gen)];
        }
      }
      DeviceTotalsMerged(t, gen, sizes);
    }

    /** One total per node in a pool: its eligible devices, counted. */
    method RefreshNodes(gen: nat)
      modifies this`nodeTotals
      ensures nodeTotals == NodeTotals(old(View()), gen)
    {
      hide Eligible, Merged, MergedInto, Lookup, NodeTotals, OfNode, EligibleAmong, OnNode, Placed;
      ghost var t := View();
      var rest := nodes.Keys;
      ghost var sizes: map<string, nat> := map[];
      MergeNothing(t.nodeTotals, gen);
      while rest != {}
        invariant rest <= nodes.Keys && SameRows(View(), t)
        invariant sizes.Keys == set n | n in nodes && n !in rest && nodes[n].pool in pools
        invariant forall n :: n in sizes ==> sizes[n] == |OfNode(t, n)|
        invariant nodeTotals == MergedInto(t.nodeTotals, sizes, gen)
        decreases |rest|
      {
        var n :| n in rest;
        rest := rest - {n};
        if nodes[n].pool in pools {
          var size := CountEligible(View(), OnNode(n));
          RowsOfNode(View(), t, n);
          MergeStep(t.nodeTotals, sizes, gen, n, size);
          sizes := sizes[n := size];
          nodeTotals := nodeTotals[n := Merged(Lookup(nodeTotals, n), size, gen)];
        }
      }
      NodeTotalsMerged(t, gen, sizes);
    }

    /** One total per pool: the eligible devices on its nodes, counted. */
    method RefreshPools(gen: nat)
      modifies this`poolTotals
      ensures poolTotals == PoolTotals(old(View()), gen)
    {
      hide Eligible, Merged, MergedInto, Lookup, PoolTotals, OfPool, EligibleAmong, OnPool, Placed;
      ghost var t := View();
      var rest := pools.Keys;
      ghost var sizes: map<string, nat> := map[];
      MergeNothing(t.poolTotals, gen);
      while rest != {}
        invariant rest <= pools.Keys && SameRows(View(), t)
        invariant sizes.Keys == pools.Keys - rest
        invariant forall p :: p in sizes ==> sizes[p] == |OfPool(t, p)|
        invariant poolTotals == MergedInto(t.poolTotals, sizes, gen)
        decreases |rest|
      {
        var p :| p in rest;
        rest := rest - {p};
        var size := CountEligible(View(), OnPool(nodes, p));
        RowsOfPool(View(), t, p);
        MergeStep(t.poolTotals, sizes, gen, p, size);
        sizes := sizes[p := size];
        poolTotals := poolTotals[p := Merged(Lookup(poolTotals, p), size, gen)];
      }
      PoolTotalsMerged(t, gen, sizes);
    }

    /**
     All totals from the rows, level by level; the cluster's is the sum over the pool rows. On tables whose
     inventory rows carry no usage, every total is then the count of eligible devices at its level.
     */
    method Refresh(gen: nat)
      modifies this`deviceTotals, this`nodeTotals, this`poolTotals, this`clusterTotal
      ensures View() == Refreshed(old(View()), gen)
      ensures Refreshable(old(View()), gen) ==> Sound(View(), gen) && TotalsOfRows(View())
    {
      hide Sound, TotalsOfRows, DeviceTotals, NodeTotals, PoolTotals, PoolSizes, Merged, Refs, Clean, Unused;
      ghost var t := View();
      RefreshDevices(gen);
      NodeTotalsOnRows(t, View(), gen);
      RefreshNodes(gen);
      PoolTotalsOnRows(t, View(), gen);
      RefreshPools(gen);
      var sum := SumPools();
      if pools != map[] {
        clusterTotal := Some(Merged(clusterTotal, sum, gen));
      }
      if Refreshable(t, gen) {
        RefreshableTotals(t, gen);
      }
    }

    /** The rewrite path; on sound tables the new totals count the snapshot and nothing else. */
    method Replace(gen: nat, ps: seq<Pool>, ghost g0: nat)
      modifies this
      ensures View() == Rewritten(old(View()), gen, ps)
      ensures Sound(old(View()), g0) && g0 < gen && ValidPools(ps) ==>
                Sound(View(), gen) && Reflects(View(), ps) && LevelsAddUp(View())
    {
      ghost var t := View();
      Upsert(gen, ps);
      MarkStale(gen);
      Refresh(gen);
      if Sound(t, g0) && g0 < gen && ValidPools(ps) {
        RewriteReflects(t, g0, gen, ps);
        TotalsAddUp(View(), gen);
      }
    }
  }
}
