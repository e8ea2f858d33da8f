/** What a rewrite leaves in the rows of a cluster, entry by entry of the snapshot it was given. */
module CatalogRows {
  import opened Basics
  import opened Assoc
  import opened Snapshots
  import opened Reports
  import opened Catalog

  // ----- what the snapshot mentions -----

  /** Every pool, node and device of the snapshot has a row with what was reported of it. */
  lemma PoolWritten(t: Tables, gen: nat, ps: seq<Pool>, i: nat)
    requires ValidPools(ps) && i < |ps|
    ensures var t' := Rewritten(t, gen, ps); ps[i].name in t'.pools && var row := t'.pools[ps[i].name];
      row.management == ps[i].management && row.lastSeen == gen
  {
    PoolRowWritten(t, gen, ps, i);
    hide ValidPools, AfterStale;
    RowsKept(t, gen, ps);
  }

  lemma NodeWritten(t: Tables, gen: nat, ps: seq<Pool>, i: nat, a: nat)
    requires ValidPools(ps) && IsNode(ps, i, a)
    ensures var t', n := Rewritten(t, gen, ps), ps[i].nodes[a]; n.key in t'.nodes && var row := t'.nodes[n.key];
      && row.pool == ps[i].name && row.management == n.management && row.health == n.health
      && row.schedulable == n.schedulable && row.traits == n.traits && row.lastSeen == gen
  {
    NodeItemAt(ps, i, a);
    var x := Place(ps, i, a);
    NodeRowWritten(t, gen, ps, x);
    hide ValidPools, AfterStale, NodeItems;
    RowsKept(t, gen, ps);
  }

  lemma DeviceWritten(t: Tables, gen: nat, ps: seq<Pool>, i: nat, a: nat, b: nat)
    requires ValidPools(ps) && IsDevice(ps, i, a, b)
    ensures var t', n, d := Rewritten(t, gen, ps), ps[i].nodes[a], ps[i].nodes[a].devices[b];
      (n.key, d.key) in t'.devices && var row := t'.devices[(n.key, d.key)];
      && row.model == d.model && row.memoryMiB == d.memoryMiB && row.mode == d.mode && row.health == d.health
      && row.allocatable == d.allocatable && row.traits == d.traits && row.lastSeen == gen
  {
    NodeItemAt(ps, i, a);
    var x := Place(ps, i, a);
    var y := DeviceItemAt(NodeItems(ps), x, b);
    DeviceRowWritten(t, gen, ps, y);
    hide ValidPools, AfterStale, NodeItems, DeviceItems;
    RowsKept(t, gen, ps);
  }

  lemma RowsKept(t: Tables, gen: nat, ps: seq<Pool>)
    ensures var t', t1 := Rewritten(t, gen, ps), AfterStale(t, gen, ps);
      t'.pools == t1.pools && t'.nodes == t1.nodes && t'.devices == t1.devices
  {
    hide Upserted, MarkedStale, DeviceTotals, NodeTotals, PoolTotals, ClusterTotal;
  }

  // ----- what it does not mention -----

  predicate Older(t: Tables, gen: nat) {
    && (forall p :: p in t.pools ==> t.pools[p].lastSeen < gen)
    && (forall n :: n in t.nodes ==> t.nodes[n].lastSeen < gen)
    && (forall k :: k in t.devices ==> t.devices[k].lastSeen < gen)
  }

  /** A pool that is not mentioned keeps its row and is disabled; none appears from elsewhere. */
  lemma PoolForgotten(t: Tables, gen: nat, ps: seq<Pool>, p: string)
    requires Older(t, gen) && forall i :: 0 <= i < |ps| ==> ps[i].name != p
    ensures var t' := Rewritten(t, gen, ps);
      && (p in t'.pools <==> p in t.pools)
      && (p in t.pools ==> t'.pools[p] == PoolRow(Disabled, t.pools[p].lastSeen))
  {
    RowsKept(t, gen, ps);
    var pe := PoolEntries(ps, gen);
    if p in ToMap(pe) { var i := ToMapKeys(pe, p); }
    hide Rewritten, ToMap;
  }

  /** A node that is not mentioned keeps its row, out of reach and not schedulable. */
  lemma NodeForgotten(t: Tables, gen: nat, ps: seq<Pool>, n: string)
    requires Older(t, gen) && forall i: nat, a: nat :: IsNode(ps, i, a) ==> ps[i].nodes[a].key != n
    ensures var t' := Rewritten(t, gen, ps);
      && (n in t'.nodes <==> n in t.nodes)
      && (n in t.nodes ==> var r := t.nodes[n];
            t'.nodes[n] == NodeRow(r.pool, r.management, Unreachable, false, r.traits, r.lastSeen))
  {
    RowsKept(t, gen, ps);
    var ne := NodeEntries(NodeItems(ps), gen);
    if n in ToMap(ne) {
      var x := ToMapKeys(ne, n);
      var i, a := NodeItemFrom(ps, x);
    }
    hide Rewritten, ToMap, NodeItems;
  }

  /** A device that is not mentioned keeps its row, out of reach and not allocatable. */
  lemma DeviceForgotten(t: Tables, gen: nat, ps: seq<Pool>, k: DeviceKey)
    requires Older(t, gen)
    requires forall i: nat, a: nat, b: nat :: IsDevice(ps, i, a, b) ==>
      (ps[i].nodes[a].key, ps[i].nodes[a].devices[b].key) != k
    ensures var t' := Rewritten(t, gen, ps);
      && (k in t'.devices <==> k in t.devices)
      && (k in t.devices ==> var r := t.devices[k];
            t'.devices[k] == DeviceRow(r.model, r.memoryMiB, r.mode, Unreachable, false, r.traits, r.lastSeen))
  {
    RowsKept(t, gen, ps);
    var de := DeviceEntries(DeviceItems(NodeItems(ps)), gen);
    if k in ToMap(de) { var i, a, b := MentionedDevice(ps, gen, k); }
    hide Rewritten, ToMap, NodeItems, DeviceItems;
  }

  lemma MentionedDevice(ps: seq<Pool>, gen: nat, k: DeviceKey) returns (i: nat, a: nat, b: nat)
    requires k in ToMap(DeviceEntries(DeviceItems(NodeItems(ps)), gen))
    ensures IsDevice(ps, i, a, b) && k == (ps[i].nodes[a].key, ps[i].nodes[a].devices[b].key)
  {
    var ns := NodeItems(ps);
    var y := ToMapKeys(DeviceEntries(DeviceItems(ns), gen), k);
    var x;
    x, b := DeviceItemOrigin(ns, y);
    i, a := NodeItemFrom(ps, x);
    hide ToMap, NodeItems, DeviceItems;
  }

  // ----- totals over rows that are in use -----

  /** The total is the count, unless more than that is in use; the usage stays. */
  ghost predicate Recounted<K>(m: map<K, Inventory>, m': map<K, Inventory>, k: K, count: nat) {
    k in m' && var was, now := if k in m then m[k] else Inventory(0, 0, 0, 0), m'[k];
    && now.reserved == was.reserved && now.granted == was.granted
    && now.total >= count && now.total >= was.reserved + was.granted
    && (now.total == count || now.total == was.reserved + was.granted)
  }

  lemma MergedKeeps<K>(m: map<K, Inventory>, m': map<K, Inventory>, k: K, count: nat, gen: nat)
    requires k in m' && m'[k] == Merged(Lookup(m, k), count, gen)
    ensures Recounted(m, m', k, count)
  {
  }

  /** A recount of any rows keeps what is in use of each and never puts a total below it. */
  lemma UsageKept(t: Tables, gen: nat, k: DeviceKey, n: string, p: string)
    requires Placed(t, k) && n in t.nodes && t.nodes[n].pool in t.pools && p in t.pools
    ensures var t' := Refreshed(t, gen);
      && Recounted(t.deviceTotals, t'.deviceTotals, k, if Eligible(t, k) then 1 else 0)
      && Recounted(t.nodeTotals, t'.nodeTotals, n, |OfNode(t, n)|)
      && Recounted(t.poolTotals, t'.poolTotals, p, |OfPool(t, p)|)
      && t'.clusterTotal.Some?
      && (t.clusterTotal.Some? ==>
            && t'.clusterTotal.value.reserved == t.clusterTotal.value.reserved
            && t'.clusterTotal.value.granted == t.clusterTotal.value.granted)
  {
    hide Eligible, OfNode, OfPool, PoolSizes, Recounted, Lookup;
    var t' := Refreshed(t, gen);
    MergedKeeps(t.deviceTotals, t'.deviceTotals, k, if Eligible(t, k) then 1 else 0, gen);
    MergedKeeps(t.nodeTotals, t'.nodeTotals, n, |OfNode(t, n)|, gen);
    MergedKeeps(t.poolTotals, t'.poolTotals, p, |OfPool(t, p)|, gen);
  }
}
