/** Building the snapshot: maps filled in any iteration order, then sorted. */
module AgentBuild {
  import opened Text
  import opened Snapshots
  import opened Sorting
  import opened AgentInventory

  // ----- resources -----

  type ResourceTotals = map<string, (int, int)>

  /** The totals after the nodes, and the entries of one more node whose names are in `done`. */
  ghost predicate TotalsOf(byResource: ResourceTotals, nodes: seq<KubeNode>, n: KubeNode, done: set<string>) {
    forall name :: EntryOf(byResource, name,
                           Total(nodes, OfferedOf(name)) + (if name in done then Offered(n, name) else 0),
                           Total(nodes, SchedulableOf(name))
                           + (if name in done && Schedulable(n) then Offered(n, name) else 0))
  }

  ghost predicate EntryOf(byResource: ResourceTotals, name: string, offered: int, schedulable: int) {
    (name in byResource <==> offered > 0) && (name in byResource ==> byResource[name] == (offered, schedulable))
  }

  /** What is schedulable never exceeds what is allocatable. */
  lemma {:induction false} SchedulableAtMost(nodes: seq<KubeNode>, name: string)
    ensures 0 <= Total(nodes, SchedulableOf(name)) <= Total(nodes, OfferedOf(name))
    decreases |nodes|
  {
    if nodes != [] { SchedulableAtMost(nodes[..|nodes| - 1], name); }
  }

  method AddResources(byResource: ResourceTotals, n: KubeNode, schedulable: bool, ghost before: seq<KubeNode>)
    returns (r: ResourceTotals)
    requires TotalsOf(byResource, before, n, {}) && schedulable == Schedulable(n)
    ensures TotalsOf(r, before, n, n.allocatable.Keys)
  {
    hide Schedulable, IsAccelerator, TotalsOf;
    r := byResource;
    var rest := n.allocatable.Keys;
    assert n.allocatable.Keys - rest == {};
    while rest != {}
      invariant rest <= n.allocatable.Keys
      invariant TotalsOf(r, before, n, n.allocatable.Keys - rest)
      decreases |rest|
    {
      var name :| name in rest;
      ghost var was := r;
      var value := n.allocatable[name];
      if IsAccelerator(name) && value > 0 {
        var current := if name in r then r[name] else (0, 0);
        r := r[name := (current.0 + value, if schedulable then current.1 + value else current.1)];
      }
      EntryAdded(was, r, before, n, n.allocatable.Keys - rest, name);
      assert n.allocatable.Keys - (rest - {name}) == n.allocatable.Keys - rest + {name};
      rest := rest - {name};
    }
    assert n.allocatable.Keys - rest == n.allocatable.Keys;
  }

  lemma EntryAdded(
    was: ResourceTotals, r: ResourceTotals, nodes: seq<KubeNode>, n: KubeNode, done: set<string>, name: string)
    requires TotalsOf(was, nodes, n, done) && name !in done && name in n.allocatable
    requires r == if Offered(n, name) > 0 then
      was[name := ((if name in was then was[name].0 else 0) + Offered(n, name),
                   (if name in was then was[name].1 else 0) + (if Schedulable(n) then Offered(n, name) else 0))]
      else was
    ensures TotalsOf(r, nodes, n, done + {name})
  {
    hide Schedulable, Offered, Total;
    forall other
      ensures EntryOf(r, other,
                      Total(nodes, OfferedOf(other)) + (if other in done + {name} then Offered(n, other) else 0),
                      Total(nodes, SchedulableOf(other))
                      + (if other in done + {name} && Schedulable(n) then Offered(n, other) else 0))
    {
      assert EntryOf(was, other,
                     Total(nodes, OfferedOf(other)) + (if other in done then Offered(n, other) else 0),
                     Total(nodes, SchedulableOf(other))
                     + (if other in done && Schedulable(n) then Offered(n, other) else 0));
      SchedulableAtMost(nodes, other);
    }
  }

  /** Adding a node's entries to the totals of the nodes before it gives the totals with it. */
  lemma TotalsAppend(r: ResourceTotals, before: seq<KubeNode>, n: KubeNode, next: KubeNode)
    requires TotalsOf(r, before, n, n.allocatable.Keys)
    ensures TotalsOf(r, before + [n], next, {})
  {
    var now := before + [n];
    assert now[..|now| - 1] == before && now[|now| - 1] == n;
    hide Schedulable;
    forall name ensures EntryOf(r, name, Total(now, OfferedOf(name)) + 0, Total(now, SchedulableOf(name)) + 0) {
      assert EntryOf(r, name,
                     Total(before, OfferedOf(name)) + (if name in n.allocatable.Keys then Offered(n, name) else 0),
                     Total(before, SchedulableOf(name))
                     + (if name in n.allocatable.Keys && Schedulable(n) then Offered(n, name) else 0));
    }
  }

  method ListResources(byResource: ResourceTotals, ghost nodes: seq<KubeNode>, ghost n: KubeNode)
    returns (rs: seq<Resource>)
    requires TotalsOf(byResource, nodes, n, {})
    ensures ResourcesOf(rs, nodes)
  {
    var names := SortedKeys(byResource);
    rs := [];
    for i := 0 to |names|
      invariant |rs| == i
      invariant forall k :: 0 <= k < i ==>
        names[k] in byResource && rs[k] == Resource(names[k], byResource[names[k]].0, byResource[names[k]].1)
    {
      assert names[i] in names;
      rs := rs + [Resource(names[i], byResource[names[i]].0, byResource[names[i]].1)];
    }
    ResourcesListed(byResource, rs, names, nodes, n);
  }

  lemma ResourcesListed(
    byResource: ResourceTotals, rs: seq<Resource>, names: seq<string>, nodes: seq<KubeNode>, n: KubeNode)
    requires TotalsOf(byResource, nodes, n, {}) && SortedBy(names, Itself()) && |rs| == |names|
    requires forall k :: k in names <==> k in byResource
    requires forall k :: 0 <= k < |names| ==>
      names[k] in byResource && rs[k] == Resource(names[k], byResource[names[k]].0, byResource[names[k]].1)
    ensures ResourcesOf(rs, nodes)
  {
    hide Total;
    forall i | 0 <= i < |rs|
      ensures rs[i].allocatable == Total(nodes, OfferedOf(rs[i].name)) > 0
      ensures rs[i].schedulable == Total(nodes, SchedulableOf(rs[i].name))
    {
      assert EntryOf(byResource, rs[i].name, Total(nodes, OfferedOf(rs[i].name)) + 0,
        Total(nodes, SchedulableOf(rs[i].name)) + 0);
    }
    forall name | Total(nodes, OfferedOf(name)) > 0 ensures exists i :: 0 <= i < |rs| && rs[i].name == name {
      assert EntryOf(byResource, name, Total(nodes, OfferedOf(name)) + 0, Total(nodes, SchedulableOf(name)) + 0);
      assert name in names;
      var i :| 0 <= i < |names| && names[i] == name;
      assert rs[i].name == name;
    }
    assert forall i :: 0 <= i < |rs| ==> NameOfResource()(rs[i]) == Itself()(names[i]);
  }

  // ----- pools -----

  ghost predicate Grouped(mac: Mac, byPool: map<string, seq<Node>>, nodes: seq<KubeNode>) {
    forall pool :: GroupIs(byPool, pool, Group(mac, nodes, pool))
  }

  ghost predicate GroupIs(byPool: map<string, seq<Node>>, pool: string, group: seq<Node>) {
    (pool in byPool <==> group != []) && (pool in byPool ==> byPool[pool] == group)
  }

  /** Node names are distinct and their keyed digests do not collide. */
  ghost predicate KeysDistinct(mac: Mac, nodes: seq<KubeNode>) {
    forall i, j :: 0 <= i < j < |nodes| ==>
      OpaqueKey(mac, "node", nodes[i].name) != OpaqueKey(mac, "node", nodes[j].name)
  }

  lemma {:induction false} GroupOrigin(mac: Mac, nodes: seq<KubeNode>, pool: string, k: nat) returns (i: nat)
    requires k < |Group(mac, nodes, pool)|
    ensures i < |nodes| && PoolName(nodes[i]) == pool && Group(mac, nodes, pool)[k] == Detailed(mac, nodes[i])
    decreases |nodes|
  {
    hide PoolName, Detailed;
    var n := |nodes| - 1;
    if k < |Group(mac, nodes[..n], pool)| {
      i := GroupOrigin(mac, nodes[..n], pool, k);
    } else {
      i := n;
    }
  }

  lemma {:induction false} GroupDistinct(mac: Mac, nodes: seq<KubeNode>, pool: string)
    requires KeysDistinct(mac, nodes)
    ensures DistinctBy(Group(mac, nodes, pool), NodeKey())
    decreases |nodes|
  {
    hide PoolName;
    if nodes != [] {
      var n := |nodes| - 1;
      GroupDistinct(mac, nodes[..n], pool);
      var g := Group(mac, nodes[..n], pool);
      forall k | 0 <= k < |g| ensures NodeKey()(g[k]) != NodeKey()(Detailed(mac, nodes[n])) {
        var i := GroupOrigin(mac, nodes[..n], pool, k);
      }
      hide Detailed;
    }
  }

  method ListPools(mac: Mac, byPool: map<string, seq<Node>>, ghost nodes: seq<KubeNode>) returns (ps: seq<Pool>)
    requires Grouped(mac, byPool, nodes) && KeysDistinct(mac, nodes)
    ensures PoolsOf(mac, ps, nodes)
  {
    hide Group, KeysDistinct;
    var names := SortedKeys(byPool);
    ps := [];
    for i := 0 to |names|
      invariant |ps| == i
      invariant forall k :: 0 <= k < i ==> PoolIs(mac, ps[k], names[k], nodes)
    {
      assert names[i] in names;
      assert GroupIs(byPool, names[i], Group(mac, nodes, names[i]));
      GroupDistinct(mac, nodes, names[i]);
      var sorted := Sort(byPool[names[i]], NodeKey());
      NonEmptySorted(byPool[names[i]], sorted);
      ps := ps + [Pool(names[i], Enabled, sorted)];
    }
    hide SortedBy;
    forall pool | Group(mac, nodes, pool) != [] ensures pool in names {
      assert GroupIs(byPool, pool, Group(mac, nodes, pool));
    }
    PoolsListed(mac, ps, names, nodes);
  }

  lemma NonEmptySorted<T>(s: seq<T>, r: seq<T>)
    requires s != [] && multiset(r) == multiset(s)
    ensures r != []
  {
    SameMembers(r, s);
    assert s[0] in r;
  }

  lemma PoolsListed(mac: Mac, ps: seq<Pool>, names: seq<string>, nodes: seq<KubeNode>)
    requires |ps| == |names| && SortedBy(names, Itself())
    requires forall i :: 0 <= i < |ps| ==> PoolIs(mac, ps[i], names[i], nodes)
    requires forall pool :: Group(mac, nodes, pool) != [] ==> pool in names
    ensures PoolsOf(mac, ps, nodes)
  {
    hide Group;
    forall pool | Group(mac, nodes, pool) != [] ensures exists i :: 0 <= i < |ps| && ps[i].name == pool {
      assert pool in names;
      var i :| 0 <= i < |names| && names[i] == pool;
      assert PoolIs(mac, ps[i], names[i], nodes);
    }
    forall i, j | 0 <= i < j < |ps| ensures Less(NameOfPool()(ps[i]), NameOfPool()(ps[j])) {
      assert PoolIs(mac, ps[i], names[i], nodes) && PoolIs(mac, ps[j], names[j], nodes);
      assert Less(Itself()(names[i]), Itself()(names[j]));
    }
    forall i | 0 <= i < |ps|
      ensures ps[i].management == Enabled && ps[i].nodes != [] && SortedBy(ps[i].nodes, NodeKey())
      ensures multiset(ps[i].nodes) == multiset(Group(mac, nodes, ps[i].name))
    {
      assert PoolIs(mac, ps[i], names[i], nodes);
      hide SortedBy;
    }
  }

  ghost predicate PoolIs(mac: Mac, p: Pool, name: string, nodes: seq<KubeNode>) {
    && p.name == name && p.management == Enabled && p.nodes != []
    && SortedBy(p.nodes, NodeKey()) && multiset(p.nodes) == multiset(Group(mac, nodes, name))
  }

  lemma GroupedAppend(mac: Mac, byPool: map<string, seq<Node>>, before: seq<KubeNode>, n: KubeNode)
    requires Grouped(mac, byPool, before)
    ensures var name := PoolName(n); var known := if name in byPool then byPool[name] else [];
      Grouped(mac, byPool[name := known + [Detailed(mac, n)]], before + [n])
  {
    hide PoolName, Detailed;
    var name := PoolName(n);
    var now := before + [n];
    assert now[..|now| - 1] == before && now[|now| - 1] == n;
    var known := if name in byPool then byPool[name] else [];
    var byPool' := byPool[name := known + [Detailed(mac, n)]];
    forall pool ensures GroupIs(byPool', pool, Group(mac, now, pool)) {
      assert GroupIs(byPool, pool, Group(mac, before, pool));
      assert Group(mac, now, pool) == Group(mac, before, pool) + (if name == pool then [Detailed(mac, n)] else []);
    }
  }

  // ----- the whole snapshot -----

  /** For nodes with distinct keys, every iteration order of the maps gives the canonical snapshot. */
  method Build(mac: Mac, nodes: seq<KubeNode>) returns (snap: Snapshot)
    requires KeysDistinct(mac, nodes)
    ensures SnapshotOf(mac, snap, nodes)
  {
    var byResource: ResourceTotals := map[];
    var byPool: map<string, seq<Node>> := map[];
    var schedulableNodes := 0;
    ghost var any: KubeNode := KubeNode("", map[], false, map[], []);
    hide HealthOf, Schedulable, PoolName, Detailed, KeysDistinct, EntryOf, GroupIs;
    assert TotalsOf(byResource, nodes[..0], any, {}) by { NothingYet(any); }
    assert Grouped(mac, byPool, nodes[..0]) by { NoGroups(mac); }
    for i := 0 to |nodes|
      invariant schedulableNodes == Total(nodes[..i], OneIfSchedulable())
      invariant TotalsOf(byResource, nodes[..i], any, {})
      invariant Grouped(mac, byPool, nodes[..i])
    {
      var n := nodes[i];
      assert nodes[..i + 1] == nodes[..i] + [n] && nodes[..i + 1][..i] == nodes[..i];
      var health := NodeHealth(n);
      var schedulable := !n.unschedulable && health == Healthy;
      assert schedulable == Schedulable(n) by { SchedulableIs(n); }
      if schedulable { schedulableNodes := schedulableNodes + 1; }
      OtherNode(byResource, nodes[..i], any, n);
      byResource := AddResources(byResource, n, schedulable, nodes[..i]);
      TotalsAppend(byResource, nodes[..i], n, any);
      GroupedAppend(mac, byPool, nodes[..i], n);
      var detailed := DetailedNode(mac, n, health, schedulable);
      var name := PoolName(n);
      byPool := byPool[name := (if name in byPool then byPool[name] else []) + [detailed]];
    }
    assert nodes[..|nodes|] == nodes;
    SchedulableCount(nodes);
    var resources := ListResources(byResource, nodes, any);
    var pools := ListPools(mac, byPool, nodes);
    snap := Snapshot(|nodes|, schedulableNodes, resources, pools);
  }

  lemma NothingYet(n: KubeNode)
    ensures TotalsOf(map[], [], n, {})
  {
  }

  lemma NoGroups(mac: Mac)
    ensures Grouped(mac, map[], [])
  {
  }

  lemma SchedulableIs(n: KubeNode)
    ensures Schedulable(n) <==> !n.unschedulable && HealthOf(n) == Healthy
  {
  }

  lemma OtherNode(r: ResourceTotals, nodes: seq<KubeNode>, n: KubeNode, m: KubeNode)
    requires TotalsOf(r, nodes, n, {})
    ensures TotalsOf(r, nodes, m, {})
  {
    forall name ensures EntryOf(r, name, Total(nodes, OfferedOf(name)) + 0, Total(nodes, SchedulableOf(name)) + 0) {
      assert EntryOf(r, name,
                     Total(nodes, OfferedOf(name)) + (if name in {} then Offered(n, name) else 0),
                     Total(nodes, SchedulableOf(name))
                     + (if name in {} && Schedulable(n) then Offered(n, name) else 0));
    }
  }

  lemma {:induction false} SchedulableCount(nodes: seq<KubeNode>)
    ensures 0 <= Total(nodes, OneIfSchedulable()) <= |nodes|
    decreases |nodes|
  {
    if nodes != [] { SchedulableCount(nodes[..|nodes| - 1]); }
  }
}
