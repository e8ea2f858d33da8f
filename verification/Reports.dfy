/** The entries of a report by their places: node a of pool i, device b of that node. */
module Reports {
  import opened Text
  import opened Snapshots

  predicate IsNode(ps: seq<Pool>, i: nat, a: nat) {
    i < |ps| && a < |ps[i].nodes|
  }

  predicate IsDevice(ps: seq<Pool>, i: nat, a: nat, b: nat) {
    IsNode(ps, i, a) && b < |ps[i].nodes[a].devices|
  }

  // ----- the lists of all nodes and of all devices -----

  /** The place of a node in the list of all nodes. */
  function Place(ps: seq<Pool>, i: nat, a: nat): nat
    requires i < |ps|
  {
    |NodeItems(ps[..i])| + a
  }

  lemma NodeItemAt(ps: seq<Pool>, i: nat, a: nat)
    requires IsNode(ps, i, a)
    ensures Place(ps, i, a) < |NodeItems(ps)|
    ensures NodeItems(ps)[Place(ps, i, a)] == NodeItem(ps[i], ps[i].nodes[a])
  {
    NodeItemsPrefix(ps, i);
    NodeItemsMonotone(ps, i + 1);
  }

  lemma {:induction false} NodeItemFrom(ps: seq<Pool>, x: nat) returns (i: nat, a: nat)
    requires x < |NodeItems(ps)|
    ensures IsNode(ps, i, a) && x == Place(ps, i, a) && NodeItems(ps)[x] == NodeItem(ps[i], ps[i].nodes[a])
    decreases |ps|
  {
    var n := |ps| - 1;
    var before := NodeItems(ps[..n]);
    if x < |before| {
      i, a := NodeItemFrom(ps[..n], x);
      assert ps[..n][..i] == ps[..i];
    } else {
      i, a := n, x - |before|;
    }
  }

  lemma PlacesDiffer(ps: seq<Pool>, i: nat, a: nat, j: nat, c: nat)
    requires IsNode(ps, i, a) && IsNode(ps, j, c) && i < j
    ensures Place(ps, i, a) < Place(ps, j, c)
  {
    NodeItemsPrefix(ps, i);
    assert ps[..j][..i + 1] == ps[..i + 1];
    NodeItemsMonotone(ps[..j], i + 1);
  }

  lemma {:induction false} DeviceItemAt(ns: seq<NodeItem>, x: nat, b: nat) returns (y: nat)
    requires x < |ns| && b < |ns[x].node.devices|
    ensures y < |DeviceItems(ns)|
    ensures DeviceItems(ns)[y] == DeviceItem(ns[x].pool, ns[x].node, ns[x].node.devices[b])
    decreases |ns|
  {
    var n := |ns| - 1;
    if x == n {
      y := |DeviceItems(ns[..n])| + b;
    } else {
      y := DeviceItemAt(ns[..n], x, b);
    }
  }

  // ----- what the hub accepts -----

  predicate LetterOrDigit(c: char) {
    'a' <= c <= 'z' || '0' <= c <= '9'
  }

  predicate TraitsOk(t: Traits) {
    && |t| <= 64
    && forall k :: k in t ==>
         && 1 <= |k| <= 128 && LetterOrDigit(k[0])
         && (forall i :: 0 < i < |k| ==> LetterOrDigit(k[i]) || k[i] in "/-._")
         && Trim(t[k]) != "" && |t[k]| <= 255
  }

  ghost predicate NodeOk(n: Node) {
    && Trim(n.key) != "" && |n.key| <= 128 && TraitsOk(n.traits)
    && (forall b :: 0 <= b < |n.devices| ==> DeviceOk(n.devices[b]))
    && forall b, c :: 0 <= b < |n.devices| && 0 <= c < |n.devices| && n.devices[b].key == n.devices[c].key ==> b == c
  }

  predicate DeviceOk(d: Device) {
    && Trim(d.key) != "" && |d.key| <= 128 && d.resourceClass == "gpu.nvidia.full" && d.mode == "whole"
    && Trim(d.model) != "" && |d.model| <= 120 && d.memoryMiB >= 1 && TraitsOk(d.traits)
  }

  /** Every node of the report has a key of its own. */
  ghost predicate OwnKeys(ps: seq<Pool>) {
    forall i: nat, a: nat, j: nat, c: nat ::
      IsNode(ps, i, a) && IsNode(ps, j, c) && ps[i].nodes[a].key == ps[j].nodes[c].key ==> i == j && a == c
  }

  lemma TraitsOkIff(t: Traits)
    ensures ValidTraits(t) <==> TraitsOk(t)
  {
    hide Trim;
  }

  lemma DeviceOkIff(d: Device)
    ensures ValidDevice(d) <==> DeviceOk(d)
  {
    TraitsOkIff(d.traits);
    hide ValidTraits, TraitsOk, Trim;
  }

  lemma NodeOkIff(n: Node)
    ensures ValidNode(n) <==> NodeOk(n)
  {
    TraitsOkIff(n.traits);
    hide ValidTraits, TraitsOk, ValidDevice, DeviceOk, Trim;
    forall b | 0 <= b < |n.devices| ensures ValidDevice(n.devices[b]) <==> DeviceOk(n.devices[b]) {
      DeviceOkIff(n.devices[b]);
    }
  }

  /**
   The hub accepts exactly the pools with distinct DNS labels for names and well-formed nodes, no two of which share
   a key, in whatever pools they are.
   */
  lemma PoolsOkIff(ps: seq<Pool>)
    ensures ValidPools(ps) <==>
      && (forall i :: 0 <= i < |ps| ==> DnsLabel(ps[i].name))
      && (forall i, j :: 0 <= i < |ps| && 0 <= j < |ps| && ps[i].name == ps[j].name ==> i == j)
      && (forall i: nat, a: nat :: IsNode(ps, i, a) ==> NodeOk(ps[i].nodes[a]))
      && OwnKeys(ps)
  {
    hide DnsLabel, ValidNode, NodeOk, Place, NodeItems;
    var ns := NodeItems(ps);
    if ValidNodes(ns) {
      forall i: nat, a: nat | IsNode(ps, i, a) ensures NodeOk(ps[i].nodes[a]) { NodeValid(ps, i, a); }
      forall i: nat, a: nat, j: nat, c: nat
        | IsNode(ps, i, a) && IsNode(ps, j, c) && ps[i].nodes[a].key == ps[j].nodes[c].key
        ensures i == j && a == c
      {
        KeysApart(ps, i, a, j, c);
      }
    }
    if OwnKeys(ps) && forall i: nat, a: nat :: IsNode(ps, i, a) ==> NodeOk(ps[i].nodes[a]) { NodesValid(ps); }
  }

  lemma NodeValid(ps: seq<Pool>, i: nat, a: nat)
    requires ValidNodes(NodeItems(ps)) && IsNode(ps, i, a)
    ensures NodeOk(ps[i].nodes[a])
  {
    NodeItemAt(ps, i, a);
    NodeOkIff(ps[i].nodes[a]);
    hide ValidNode, NodeOk;
  }

  lemma KeysApart(ps: seq<Pool>, i: nat, a: nat, j: nat, c: nat)
    requires DistinctNodes(NodeItems(ps)) && IsNode(ps, i, a) && IsNode(ps, j, c)
    requires ps[i].nodes[a].key == ps[j].nodes[c].key
    ensures i == j && a == c
  {
    NodeItemAt(ps, i, a);
    NodeItemAt(ps, j, c);
    if i < j { PlacesDiffer(ps, i, a, j, c); }
    if j < i { PlacesDiffer(ps, j, c, i, a); }
    var x, y := Place(ps, i, a), Place(ps, j, c);
    assert !(x < y) && !(y < x);
  }

  lemma NodesValid(ps: seq<Pool>)
    requires forall i: nat, a: nat :: IsNode(ps, i, a) ==> NodeOk(ps[i].nodes[a])
    requires OwnKeys(ps)
    ensures ValidNodes(NodeItems(ps))
  {
    hide NodeOk, ValidNode, NodeItems;
    var ns := NodeItems(ps);
    forall x | 0 <= x < |ns| ensures ValidNode(ns[x].node) {
      var i, a := NodeItemFrom(ps, x);
      NodeOkIff(ps[i].nodes[a]);
    }
    forall x, y | 0 <= x < y < |ns| ensures ns[x].node.key != ns[y].node.key {
      var i, a := NodeItemFrom(ps, x);
      var j, c := NodeItemFrom(ps, y);
    }
  }
}
