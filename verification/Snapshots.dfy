/** The inventory snapshot a cluster reports, and the hub's validation of it. */
module Snapshots {
  import opened Text

  const GPU_CLASS := "gpu.nvidia.full"
  const WHOLE := "whole"

  datatype Management = Enabled | Disabled | Draining | Maintenance | Quarantined
  datatype Health = Healthy | Degraded | Unreachable | Failing | Unknown

  type Traits = map<string, string>

  datatype Device = Device(
    key: string, resourceClass: string, model: string, memoryMiB: int, mode: string,
    health: Health, allocatable: bool, traits: Traits)

  datatype Node = Node(
    key: string, management: Management, health: Health, schedulable: bool, traits: Traits, devices: seq<Device>)

  datatype Pool = Pool(name: string, management: Management, nodes: seq<Node>)

  // A node in its pool, and a device in its node.
  datatype NodeItem = NodeItem(pool: Pool, node: Node)
  datatype DeviceItem = DeviceItem(pool: Pool, node: Node, device: Device)

  function PoolItems(p: Pool): seq<NodeItem> {
    seq(|p.nodes|, a requires 0 <= a < |p.nodes| => NodeItem(p, p.nodes[a]))
  }

  /** All nodes of a snapshot, in reporting order. */
  function NodeItems(ps: seq<Pool>): seq<NodeItem> {
    if ps == [] then [] else NodeItems(ps[..|ps| - 1]) + PoolItems(ps[|ps| - 1])
  }

  function DevicesOf(n: NodeItem): seq<DeviceItem> {
    seq(|n.node.devices|, b requires 0 <= b < |n.node.devices| => DeviceItem(n.pool, n.node, n.node.devices[b]))
  }

  /** All devices of a list of nodes, in reporting order. */
  function DeviceItems(ns: seq<NodeItem>): seq<DeviceItem> {
    if ns == [] then [] else DeviceItems(ns[..|ns| - 1]) + DevicesOf(ns[|ns| - 1])
  }

  // ----- validity -----

  predicate Alnum(c: char) {
    'a' <= c <= 'z' || '0' <= c <= '9'
  }

  /** A DNS label: the label form of section 2.1 of RFC 1123. */
  predicate DnsLabel(s: string) {
    && 1 <= |s| <= 63
    && Alnum(s[0]) && Alnum(s[|s| - 1])
    && forall i :: 0 <= i < |s| ==> Alnum(s[i]) || s[i] == '-'
  }

  predicate ValidKey(s: string) {
    !Blank(s) && |s| <= 128
  }

  predicate ValidTraitKey(k: string) {
    && 1 <= |k| <= 128
    && Alnum(k[0])
    && forall i :: 1 <= i < |k| ==> Alnum(k[i]) || k[i] in "._/-"
  }

  predicate ValidTraits(t: Traits) {
    && |t| <= 64
    && forall k :: k in t ==> ValidTraitKey(k) && !Blank(t[k]) && |t[k]| <= 255
  }

  predicate ValidDevice(d: Device) {
    && ValidKey(d.key)
    && d.resourceClass == GPU_CLASS && d.mode == WHOLE
    && !Blank(d.model) && |d.model| <= 120 && d.memoryMiB > 0
    && ValidTraits(d.traits)
  }

  ghost predicate ValidDevices(ds: seq<Device>) {
    && (forall b :: 0 <= b < |ds| ==> ValidDevice(ds[b]))
    && forall b, c :: 0 <= b < c < |ds| ==> ds[b].key != ds[c].key
  }

  ghost predicate ValidNode(n: Node) {
    ValidKey(n.key) && ValidTraits(n.traits) && ValidDevices(n.devices)
  }

  ghost predicate DistinctNodes(ns: seq<NodeItem>) {
    forall i, j :: 0 <= i < j < |ns| ==> ns[i].node.key != ns[j].node.key
  }

  ghost predicate ValidNodes(ns: seq<NodeItem>) {
    && DistinctNodes(ns)
    && forall i :: 0 <= i < |ns| ==> ValidNode(ns[i].node)
  }

  ghost predicate ValidPoolNames(ps: seq<Pool>) {
    && (forall i :: 0 <= i < |ps| ==> DnsLabel(ps[i].name))
    && forall i, j :: 0 <= i < j < |ps| ==> ps[i].name != ps[j].name
  }

  /** What the hub demands of the pools of a report. */
  ghost predicate ValidPools(ps: seq<Pool>) {
    ValidPoolNames(ps) && ValidNodes(NodeItems(ps))
  }

  // ----- the validator: one pass with sets of the names seen so far -----

  ghost function DeviceKeys(ds: seq<Device>): set<string> {
    set b | 0 <= b < |ds| :: ds[b].key
  }

  ghost function NodeKeys(ns: seq<NodeItem>): set<string> {
    set i | 0 <= i < |ns| :: ns[i].node.key
  }

  ghost function PoolNames(ps: seq<Pool>): set<string> {
    set i | 0 <= i < |ps| :: ps[i].name
  }

  lemma ValidDevicesStep(ds: seq<Device>, d: Device)
    requires ValidDevices(ds)
    ensures ValidDevices(ds + [d]) <==> ValidDevice(d) && d.key !in DeviceKeys(ds)
    ensures DeviceKeys(ds + [d]) == DeviceKeys(ds) + {d.key}
  {
    hide ValidDevice;
    var now := ds + [d];
    assert now[|ds|] == d;
    if d.key in DeviceKeys(ds) {
      var c :| 0 <= c < |ds| && ds[c].key == d.key;
      assert now[c].key == now[|ds|].key;
    }
    forall k | k in DeviceKeys(ds) ensures k in DeviceKeys(now) {
      var c :| 0 <= c < |ds| && ds[c].key == k;
      assert now[c].key == k;
    }
    assert now[|ds|].key in DeviceKeys(now);
  }

  lemma ValidNodesStep(ns: seq<NodeItem>, n: NodeItem)
    requires ValidNodes(ns)
    ensures ValidNodes(ns + [n]) <==> ValidNode(n.node) && n.node.key !in NodeKeys(ns)
    ensures NodeKeys(ns + [n]) == NodeKeys(ns) + {n.node.key}
  {
    hide ValidNode;
    var now := ns + [n];
    assert now[|ns|] == n;
    if n.node.key in NodeKeys(ns) {
      var c :| 0 <= c < |ns| && ns[c].node.key == n.node.key;
      assert now[c].node.key == now[|ns|].node.key;
    }
    forall k | k in NodeKeys(ns) ensures k in NodeKeys(now) {
      var c :| 0 <= c < |ns| && ns[c].node.key == k;
      assert now[c].node.key == k;
    }
    assert now[|ns|].node.key in NodeKeys(now);
  }

  lemma ValidPoolNamesStep(ps: seq<Pool>, i: nat)
    requires i < |ps| && ValidPoolNames(ps[..i])
    ensures ValidPoolNames(ps[..i + 1]) <==> DnsLabel(ps[i].name) && ps[i].name !in PoolNames(ps[..i])
    ensures PoolNames(ps[..i + 1]) == PoolNames(ps[..i]) + {ps[i].name}
  {
    var now := ps[..i + 1];
    assert now[..i] == ps[..i] && now[i] == ps[i];
    if ps[i].name in PoolNames(ps[..i]) {
      var c :| 0 <= c < i && ps[..i][c].name == ps[i].name;
      assert now[c].name == now[i].name;
    }
    forall k | k in PoolNames(ps[..i]) ensures k in PoolNames(now) {
      var c :| 0 <= c < i && ps[..i][c].name == k;
      assert now[c].name == k;
    }
    assert now[i].name in PoolNames(now);
  }

  method ValidateDevices(ds: seq<Device>) returns (ok: bool)
    ensures ok <==> ValidDevices(ds)
  {
    var deviceKeys := {};
    for b := 0 to |ds|
      invariant ValidDevices(ds[..b]) && deviceKeys == DeviceKeys(ds[..b])
    {
      ValidDevicesStep(ds[..b], ds[b]);
      assert ds[..b + 1] == ds[..b] + [ds[b]];
      assert ValidDevices(ds) ==> ValidDevices(ds[..b + 1]);
      if !ValidDevice(ds[b]) || ds[b].key in deviceKeys { return false; }
      deviceKeys := deviceKeys + {ds[b].key};
    }
    assert ds[..|ds|] == ds;
    return true;
  }

  lemma NodeItemsPrefix(ps: seq<Pool>, i: nat)
    requires i < |ps|
    ensures NodeItems(ps[..i + 1]) == NodeItems(ps[..i]) + PoolItems(ps[i])
  {
    assert ps[..i + 1][..i] == ps[..i];
  }

  /** Every prefix of the pools contributes a prefix of the nodes. */
  lemma {:induction false} NodeItemsMonotone(ps: seq<Pool>, i: nat)
    requires i <= |ps|
    ensures NodeItems(ps[..i]) <= NodeItems(ps)
    decreases |ps| - i
  {
    if i == |ps| {
      assert ps[..i] == ps;
    } else {
      NodeItemsMonotone(ps, i + 1);
      NodeItemsPrefix(ps, i);
    }
  }

  lemma ValidNodesOfPrefix(ns: seq<NodeItem>, seen: seq<NodeItem>)
    requires seen <= ns && ValidNodes(ns)
    ensures ValidNodes(seen)
  {
    assert forall i :: 0 <= i < |seen| ==> seen[i] == ns[i];
  }

  /** The nodes of one pool, on top of the nodes seen in the pools before it. */
  method ValidatePoolNodes(pool: Pool, ghost before: seq<NodeItem>, nodeKeys: set<string>)
    returns (ok: bool, keys: set<string>)
    requires ValidNodes(before) && nodeKeys == NodeKeys(before)
    ensures ok <==> ValidNodes(before + PoolItems(pool))
    ensures ok ==> keys == NodeKeys(before + PoolItems(pool))
  {
    hide ValidKey, ValidTraits, ValidDevices, DistinctNodes;
    keys := nodeKeys;
    ghost var all := before + PoolItems(pool);
    ghost var seen := before;
    for a := 0 to |pool.nodes|
      invariant seen == all[..|before| + a] && ValidNodes(seen) && keys == NodeKeys(seen)
    {
      var node := pool.nodes[a];
      var devicesOk := ValidateDevices(node.devices);
      ValidNodesStep(seen, NodeItem(pool, node));
      ghost var next := all[..|before| + a + 1];
      assert next == seen + [NodeItem(pool, node)];
      if ValidNodes(all) { ValidNodesOfPrefix(all, next); }
      if !ValidKey(node.key) || node.key in keys || !ValidTraits(node.traits) || !devicesOk {
        return false, keys;
      }
      seen := next;
      keys := keys + {node.key};
    }
    assert all[..|all|] == all;
    return true, keys;
  }

  method ValidatePools(ps: seq<Pool>) returns (ok: bool)
    ensures ok <==> ValidPools(ps)
  {
    var poolNames, nodeKeys := {}, {};
    for i := 0 to |ps|
      invariant ValidPoolNames(ps[..i]) && poolNames == PoolNames(ps[..i])
      invariant ValidNodes(NodeItems(ps[..i])) && nodeKeys == NodeKeys(NodeItems(ps[..i]))
    {
      ValidPoolNamesStep(ps, i);
      assert ValidPoolNames(ps) ==> ValidPoolNames(ps[..i + 1]);
      if !DnsLabel(ps[i].name) || ps[i].name in poolNames { return false; }
      poolNames := poolNames + {ps[i].name};
      NodeItemsPrefix(ps, i);
      NodeItemsMonotone(ps, i + 1);
      if ValidNodes(NodeItems(ps)) { ValidNodesOfPrefix(NodeItems(ps), NodeItems(ps[..i + 1])); }
      var nodesOk;
      nodesOk, nodeKeys := ValidatePoolNodes(ps[i], NodeItems(ps[..i]), nodeKeys);
      if !nodesOk { return false; }
    }
    assert ps[..|ps|] == ps;
    return true;
  }

  // ----- where an item comes from -----

  lemma {:induction false} NodeItemOrigin(ps: seq<Pool>, x: nat) returns (i: nat)
    requires x < |NodeItems(ps)|
    ensures i < |ps| && NodeItems(ps)[x].pool == ps[i]
    decreases |ps|
  {
    var n := |ps| - 1;
    if x < |NodeItems(ps[..n])| {
      i := NodeItemOrigin(ps[..n], x);
    } else {
      i := n;
    }
  }

  lemma {:induction false} DeviceItemOrigin(ns: seq<NodeItem>, y: nat) returns (x: nat, b: nat)
    requires y < |DeviceItems(ns)|
    ensures x < |ns| && b < |ns[x].node.devices|
    ensures DeviceItems(ns)[y] == DeviceItem(ns[x].pool, ns[x].node, ns[x].node.devices[b])
    decreases |ns|
  {
    var n := |ns| - 1;
    var m := |DeviceItems(ns[..n])|;
    if y < m {
      x, b := DeviceItemOrigin(ns[..n], y);
    } else {
      x, b := n, y - m;
    }
  }

  /** Distinct nodes with distinct devices give distinct (node, device) keys over the whole snapshot. */
  lemma {:induction false} DeviceKeysDistinct(ns: seq<NodeItem>)
    requires ValidNodes(ns)
    ensures forall x, y :: 0 <= x < y < |DeviceItems(ns)| ==>
              (DeviceItems(ns)[x].node.key, DeviceItems(ns)[x].device.key)
              != (DeviceItems(ns)[y].node.key, DeviceItems(ns)[y].device.key)
    decreases |ns|
  {
    if ns != [] {
      var n := |ns| - 1;
      DeviceKeysDistinct(ns[..n]);
      var m := |DeviceItems(ns[..n])|;
      assert ValidNode(ns[n].node);
      forall x, y | 0 <= x < y < |DeviceItems(ns)|
        ensures (DeviceItems(ns)[x].node.key, DeviceItems(ns)[x].device.key)
             != (DeviceItems(ns)[y].node.key, DeviceItems(ns)[y].device.key)
      {
        if x < m <= y {
          var i, _ := DeviceItemOrigin(ns[..n], x);
          assert DeviceItems(ns)[x] == DeviceItems(ns[..n])[x];
          assert ns[..n][i].node.key != ns[n].node.key;
        }
      }
    }
  }
}
