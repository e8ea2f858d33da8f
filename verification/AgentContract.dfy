/** What the hub may rely on when a report was built by the agent. */
module AgentContract {
  import opened Basics
  import opened Text
  import opened Snapshots
  import opened Sorting
  import opened AgentInventory
  import opened AgentBuild
  import Assoc
  import Catalog
  import Fleet

  // ----- totals of totals -----

  lemma {:induction false} TotalAppend<T>(a: seq<T>, b: seq<T>, w: T -> int)
    ensures Total(a + b, w) == Total(a, w) + Total(b, w)
    decreases |b|
  {
    if b == [] {
      assert a + b == a;
    } else {
      TotalAppend(a, b[..|b| - 1], w);
      assert (a + b)[..|a + b| - 1] == a + b[..|b| - 1];
    }
  }

  lemma {:induction false} TotalAtMost<T>(s: seq<T>, v: T -> int, w: T -> int)
    requires forall x :: x in s ==> v(x) <= w(x)
    ensures Total(s, v) <= Total(s, w)
    ensures Total(s, v) == Total(s, w) <==> forall x :: x in s ==> v(x) == w(x)
    decreases |s|
  {
    if s != [] {
      var n := |s| - 1;
      assert s == s[..n] + [s[n]];
      TotalAtMost(s[..n], v, w);
    }
  }

  /** The weight of a pool: the sum over its nodes. */
  ghost function OfNodes(w: Node -> int): Pool -> int {
    (p: Pool) => Total(p.nodes, w)
  }

  ghost function GroupTotals(mac: Mac, names: seq<string>, nodes: seq<KubeNode>, w: Node -> int): int
    decreases |names|
  {
    if names == [] then 0
    else
      var last := names[|names| - 1];
      GroupTotals(mac, names[..|names| - 1], nodes, w) + Total(Group(mac, nodes, last), w)
  }

  /** One more node adds its weight to the one group it belongs to. */
  lemma {:induction false} GroupTotalsAppend(
    mac: Mac, names: seq<string>, nodes: seq<KubeNode>, n: KubeNode, w: Node -> int)
    requires forall i, j :: 0 <= i < j < |names| ==> names[i] != names[j]
    ensures GroupTotals(mac, names, nodes + [n], w)
         == GroupTotals(mac, names, nodes, w) + (if PoolName(n) in names then w(Detailed(mac, n)) else 0)
    decreases |names|
  {
    if names != [] {
      var init, last := names[..|names| - 1], names[|names| - 1];
      GroupTotalsAppend(mac, init, nodes, n, w);
      OneGroupAppend(mac, last, nodes, n, w);
      InLast(names, PoolName(n));
      hide PoolName, Detailed, Group, Total;
    }
  }

  lemma InLast(names: seq<string>, x: string)
    requires names != [] && forall i, j :: 0 <= i < j < |names| ==> names[i] != names[j]
    ensures var init, last := names[..|names| - 1], names[|names| - 1];
      (x in names <==> x in init || x == last) && !(x in init && x == last)
  {
    var init, last := names[..|names| - 1], names[|names| - 1];
    assert names == init + [last];
    if x in init {
      var i :| 0 <= i < |init| && init[i] == x;
      assert names[i] == x && names[i] != names[|names| - 1];
    }
  }

  lemma OneGroupAppend(mac: Mac, name: string, nodes: seq<KubeNode>, n: KubeNode, w: Node -> int)
    ensures Total(Group(mac, nodes + [n], name), w)
         == Total(Group(mac, nodes, name), w) + (if PoolName(n) == name then w(Detailed(mac, n)) else 0)
  {
    hide PoolName, Detailed;
    assert (nodes + [n])[..|nodes|] == nodes;
    TotalAppend(Group(mac, nodes, name), if PoolName(n) == name then [Detailed(mac, n)] else [], w);
    assert Total([Detailed(mac, n)], w) == w(Detailed(mac, n)) by { assert [Detailed(mac, n)][..0] == []; }
  }

  ghost function AsDetailed(mac: Mac, w: Node -> int): KubeNode -> int {
    (n: KubeNode) => w(Detailed(mac, n))
  }

  lemma {:induction false} GroupsPartition(mac: Mac, names: seq<string>, nodes: seq<KubeNode>, w: Node -> int)
    requires forall i, j :: 0 <= i < j < |names| ==> names[i] != names[j]
    requires forall i :: 0 <= i < |nodes| ==> PoolName(nodes[i]) in names
    ensures GroupTotals(mac, names, nodes, w) == Total(nodes, AsDetailed(mac, w))
    decreases |nodes|
  {
    hide PoolName, Detailed;
    if nodes == [] {
      NoGroupTotals(mac, names, w);
    } else {
      var n := |nodes| - 1;
      assert nodes == nodes[..n] + [nodes[n]];
      GroupsPartition(mac, names, nodes[..n], w);
      GroupTotalsAppend(mac, names, nodes[..n], nodes[n], w);
    }
  }

  lemma {:induction false} NoGroupTotals(mac: Mac, names: seq<string>, w: Node -> int)
    ensures GroupTotals(mac, names, [], w) == 0
    decreases |names|
  {
    if names != [] { NoGroupTotals(mac, names[..|names| - 1], w); }
  }

  function Names(ps: seq<Pool>): seq<string> {
    seq(|ps|, i requires 0 <= i < |ps| => ps[i].name)
  }

  lemma {:induction false} PoolTotals(mac: Mac, ps: seq<Pool>, nodes: seq<KubeNode>, w: Node -> int)
    requires forall i :: 0 <= i < |ps| ==> multiset(ps[i].nodes) == multiset(Group(mac, nodes, ps[i].name))
    ensures Total(ps, OfNodes(w)) == GroupTotals(mac, Names(ps), nodes, w)
    decreases |ps|
  {
    if ps != [] {
      var n := |ps| - 1;
      PoolTotals(mac, ps[..n], nodes, w);
      assert Names(ps)[..n] == Names(ps[..n]);
      TotalPermuted(ps[n].nodes, Group(mac, nodes, ps[n].name), w);
    }
  }

  lemma {:induction false} GroupKeeps(mac: Mac, nodes: seq<KubeNode>, i: nat)
    requires i < |nodes|
    ensures Group(mac, nodes, PoolName(nodes[i])) != []
    decreases |nodes|
  {
    hide PoolName, Detailed;
    var n := |nodes| - 1;
    if i < n { GroupKeeps(mac, nodes[..n], i); }
  }

  /** Any sum over the nodes of the pools is the sum over the cluster's nodes: pools partition the nodes. */
  lemma PoolsPartition(mac: Mac, ps: seq<Pool>, nodes: seq<KubeNode>, w: Node -> int)
    requires PoolsOf(mac, ps, nodes)
    ensures Total(ps, OfNodes(w)) == Total(nodes, AsDetailed(mac, w))
  {
    hide Group;
    PoolTotals(mac, ps, nodes, w);
    var names := Names(ps);
    forall i, j | 0 <= i < j < |names| ensures names[i] != names[j] {
      assert Less(NameOfPool()(ps[i]), NameOfPool()(ps[j]));
      LessIrreflexive(ps[i].name);
    }
    forall i | 0 <= i < |nodes| ensures PoolName(nodes[i]) in names {
      GroupKeeps(mac, nodes, i);
      var k :| 0 <= k < |ps| && ps[k].name == PoolName(nodes[i]);
      assert names[k] == PoolName(nodes[i]);
    }
    GroupsPartition(mac, names, nodes, w);
  }

  function One<T>(): T -> int {
    (x: T) => 1
  }

  function PoolSize(): Pool -> int {
    (p: Pool) => |p.nodes|
  }

  lemma {:induction false} TotalOfOnes<T>(s: seq<T>, w: T -> int)
    requires forall x :: x in s ==> w(x) == 1
    ensures Total(s, w) == |s|
    decreases |s|
  {
    if s != [] { TotalOfOnes(s[..|s| - 1], w); }
  }

  /** The pool sizes sum to the node count, and no more nodes or units are schedulable than exist. */
  lemma SizesAddUp(mac: Mac, snap: Snapshot, nodes: seq<KubeNode>)
    requires SnapshotOf(mac, snap, nodes)
    ensures Total(snap.pools, PoolSize()) == snap.nodeCount
    ensures snap.schedulableNodeCount <= snap.nodeCount
    ensures forall i :: 0 <= i < |snap.resources| ==>
      0 <= snap.resources[i].schedulable <= snap.resources[i].allocatable
  {
    PoolsPartition(mac, snap.pools, nodes, One());
    TotalOfOnes(nodes, AsDetailed(mac, One()));
    forall p | p in snap.pools ensures PoolSize()(p) == OfNodes(One())(p) { TotalOfOnes(p.nodes, One()); }
    TotalAtMost(snap.pools, PoolSize(), OfNodes(One()));
    SchedulableCount(nodes);
    forall i | 0 <= i < |snap.resources|
      ensures 0 <= snap.resources[i].schedulable <= snap.resources[i].allocatable
    {
      SchedulableAtMost(nodes, snap.resources[i].name);
    }
  }

  // ----- what the hub counts -----

  function CountOfItem(): NodeItem -> int {
    (x: NodeItem) => Assoc.Count(DevicesOf(x), Catalog.Counts)
  }

  lemma {:induction false} CountIsTotal(ns: seq<NodeItem>)
    ensures Assoc.Count(DeviceItems(ns), Catalog.Counts) == Total(ns, CountOfItem())
    decreases |ns|
  {
    if ns != [] {
      var n := |ns| - 1;
      CountIsTotal(ns[..n]);
      Assoc.CountAppend(DeviceItems(ns[..n]), DevicesOf(ns[n]), Catalog.Counts);
    }
  }

  ghost function OfItems(w: NodeItem -> int): Pool -> int {
    (p: Pool) => Total(PoolItems(p), w)
  }

  lemma {:induction false} ItemsTotal(ps: seq<Pool>, w: NodeItem -> int)
    ensures Total(NodeItems(ps), w) == Total(ps, OfItems(w))
    decreases |ps|
  {
    if ps != [] {
      var n := |ps| - 1;
      ItemsTotal(ps[..n], w);
      TotalAppend(NodeItems(ps[..n]), PoolItems(ps[n]), w);
    }
  }

  /** The eligible devices of an agent's node: all of them while it is schedulable. */
  function Eligible(): Node -> int {
    (x: Node) => if x.schedulable then |x.devices| else 0
  }

  lemma {:induction false} CountAll<T>(s: seq<T>, p: T -> bool, yes: bool)
    requires forall x :: x in s ==> p(x) == yes
    ensures Assoc.Count(s, p) == if yes then |s| else 0
    decreases |s|
  {
    if s != [] { CountAll(s[..|s| - 1], p, yes); }
  }

  lemma NodeCounts(mac: Mac, p: Pool, n: KubeNode)
    requires p.management == Enabled
    ensures CountOfItem()(NodeItem(p, Detailed(mac, n))) == Eligible()(Detailed(mac, n))
  {
    var item := NodeItem(p, Detailed(mac, n));
    forall d | d in DevicesOf(item) ensures Catalog.Counts(d) == Schedulable(n) {
      var b :| 0 <= b < |item.node.devices| && d == DeviceItem(p, item.node, item.node.devices[b]);
      assert item.node.devices[b] == DeviceAt(mac, n, b);
      hide HealthOf, GpuTraits;
    }
    CountAll(DevicesOf(item), Catalog.Counts, Schedulable(n));
    hide Schedulable, DevicesUpTo;
  }

  /** Nodes of a pool come from the cluster's nodes. */
  lemma PoolNodeOrigin(mac: Mac, ps: seq<Pool>, nodes: seq<KubeNode>, i: nat, a: nat) returns (u: nat)
    requires PoolsOf(mac, ps, nodes) && i < |ps| && a < |ps[i].nodes|
    ensures u < |nodes| && PoolName(nodes[u]) == ps[i].name && ps[i].nodes[a] == Detailed(mac, nodes[u])
  {
    hide PoolName, Detailed;
    var g := Group(mac, nodes, ps[i].name);
    SameMembers(ps[i].nodes, g);
    assert ps[i].nodes[a] in g;
    var k :| 0 <= k < |g| && g[k] == ps[i].nodes[a];
    u := GroupOrigin(mac, nodes, ps[i].name, k);
  }

  lemma {:induction false} ItemsOfPool(p: Pool, k: nat, w: NodeItem -> int, v: Node -> int)
    requires k <= |p.nodes|
    requires forall a :: 0 <= a < |p.nodes| ==> w(NodeItem(p, p.nodes[a])) == v(p.nodes[a])
    ensures Total(PoolItems(p)[..k], w) == Total(p.nodes[..k], v)
    decreases k
  {
    if k > 0 {
      ItemsOfPool(p, k - 1, w, v);
      assert PoolItems(p)[..k][..k - 1] == PoolItems(p)[..k - 1] && p.nodes[..k][..k - 1] == p.nodes[..k - 1];
    }
  }

  lemma ItemCount(mac: Mac, ps: seq<Pool>, nodes: seq<KubeNode>, i: nat, a: nat)
    requires PoolsOf(mac, ps, nodes) && i < |ps| && a < |ps[i].nodes|
    ensures CountOfItem()(NodeItem(ps[i], ps[i].nodes[a])) == Eligible()(ps[i].nodes[a])
  {
    hide Detailed, CountOfItem, Eligible, PoolName, Group;
    var u := PoolNodeOrigin(mac, ps, nodes, i, a);
    NodeCounts(mac, ps[i], nodes[u]);
  }

  lemma PoolCount(mac: Mac, ps: seq<Pool>, nodes: seq<KubeNode>, i: nat)
    requires PoolsOf(mac, ps, nodes) && i < |ps|
    ensures OfItems(CountOfItem())(ps[i]) == OfNodes(Eligible())(ps[i])
  {
    hide PoolsOf, CountOfItem, Eligible;
    var p := ps[i];
    forall a | 0 <= a < |p.nodes| ensures CountOfItem()(NodeItem(p, p.nodes[a])) == Eligible()(p.nodes[a]) {
      ItemCount(mac, ps, nodes, i, a);
    }
    ItemsOfPool(p, |p.nodes|, CountOfItem(), Eligible());
    assert PoolItems(p)[..|p.nodes|] == PoolItems(p) && p.nodes[..|p.nodes|] == p.nodes;
  }

  /** The hub's count over the snapshot: the devices of the schedulable nodes. */
  lemma HubCount(mac: Mac, snap: Snapshot, nodes: seq<KubeNode>)
    requires SnapshotOf(mac, snap, nodes)
    ensures Assoc.Count(Catalog.AllDevices(snap.pools), Catalog.Counts) == Total(nodes, AsDetailed(mac, Eligible()))
  {
    var ps := snap.pools;
    hide PoolsOf, CountOfItem, Eligible, OfItems, OfNodes, Detailed, Group;
    CountIsTotal(NodeItems(ps));
    ItemsTotal(ps, CountOfItem());
    forall p | p in ps ensures OfItems(CountOfItem())(p) == OfNodes(Eligible())(p) {
      var i :| 0 <= i < |ps| && ps[i] == p;
      PoolCount(mac, ps, nodes, i);
    }
    TotalAtMost(ps, OfItems(CountOfItem()), OfNodes(Eligible()));
    PoolsPartition(mac, ps, nodes, Eligible());
  }

  /** What the snapshot reports as schedulable for a resource; an unlisted one has none. */
  function SchedulableIn(rs: seq<Resource>, name: string): int {
    if rs == [] then 0
    else if rs[|rs| - 1].name == name then rs[|rs| - 1].schedulable
    else SchedulableIn(rs[..|rs| - 1], name)
  }

  lemma {:induction false} SchedulableAt(rs: seq<Resource>, name: string, value: int)
    requires forall i :: 0 <= i < |rs| && rs[i].name == name ==> rs[i].schedulable == value
    ensures SchedulableIn(rs, name) == if exists i :: 0 <= i < |rs| && rs[i].name == name then value else 0
    decreases |rs|
  {
    if rs != [] { SchedulableAt(rs[..|rs| - 1], name, value); }
  }

  lemma ReportedSchedulable(rs: seq<Resource>, nodes: seq<KubeNode>, name: string)
    requires ResourcesOf(rs, nodes)
    ensures SchedulableIn(rs, name) == Total(nodes, SchedulableOf(name))
  {
    SchedulableAt(rs, name, Total(nodes, SchedulableOf(name)));
    SchedulableAtMost(nodes, name);
  }

  predicate Labelled(n: KubeNode) {
    Model(n) != "" && Memory(n) != 0
  }

  predicate AllLabelled(nodes: seq<KubeNode>) {
    forall n :: n in nodes && Schedulable(n) && Gpus(n) > 0 ==> Labelled(n)
  }

  /**
   The hub's count over the snapshot never exceeds the schedulable GPUs the agent reports, and reaches them
   exactly when every schedulable node that offers GPUs has its product and memory labels.
   */
  lemma HubCountBounded(mac: Mac, snap: Snapshot, nodes: seq<KubeNode>)
    requires SnapshotOf(mac, snap, nodes)
    ensures var counted := Assoc.Count(Catalog.AllDevices(snap.pools), Catalog.Counts);
      var reported := SchedulableIn(snap.resources, GPU_RESOURCE);
      && counted <= reported
      && (counted == reported <==> AllLabelled(nodes))
  {
    HubCount(mac, snap, nodes);
    ReportedSchedulable(snap.resources, nodes, GPU_RESOURCE);
    forall n | n in nodes
      ensures AsDetailed(mac, Eligible())(n) <= SchedulableOf(GPU_RESOURCE)(n)
      ensures AsDetailed(mac, Eligible())(n) == SchedulableOf(GPU_RESOURCE)(n) <==>
        (Schedulable(n) && Gpus(n) > 0 ==> Labelled(n))
    {
      NodeShare(mac, n);
      hide AsDetailed, SchedulableOf, HealthOf, Model, Memory;
    }
    hide Schedulable, Labelled, Gpus, AsDetailed, SchedulableOf;
    TotalAtMost(nodes, AsDetailed(mac, Eligible()), SchedulableOf(GPU_RESOURCE));
  }

  lemma NodeShare(mac: Mac, n: KubeNode)
    ensures AsDetailed(mac, Eligible())(n) == if Schedulable(n) then DeviceCount(n) else 0
    ensures SchedulableOf(GPU_RESOURCE)(n) == if Schedulable(n) && Gpus(n) > 0 then Gpus(n) else 0
  {
    hide HealthOf, Model, Memory, NodeTraits, GpuTraits, DeviceAt, OpaqueKey;
    assert IsAccelerator(GPU_RESOURCE);
    var x := Detailed(mac, n);
    assert AsDetailed(mac, Eligible())(n) == Eligible()(x);
    assert x.schedulable == Schedulable(n) && x.devices == DevicesUpTo(mac, n, DeviceCount(n));
    assert |DevicesUpTo(mac, n, DeviceCount(n))| == DeviceCount(n);
  }

  // ----- the hub accepts what the agent builds -----

  /** Kubernetes label values have at most 63 bytes. */
  ghost predicate KubeLabels(labels: Labels) {
    forall k :: k in labels ==> |labels[k]| <= 63
  }

  /** The digest has 32 digits, and no two GPUs of a node share one. */
  ghost predicate DigestOk(mac: Mac, nodes: seq<KubeNode>) {
    && (forall x :: |mac(x)| == 32)
    && (forall i, a: nat, b: nat :: 0 <= i < |nodes| && a < DeviceCount(nodes[i]) && b < DeviceCount(nodes[i]) ==>
          NoCollision(mac, GpuInput(nodes[i], a), GpuInput(nodes[i], b)))
  }

  ghost predicate NoCollision(mac: Mac, x: string, y: string) {
    mac(x) == mac(y) ==> x == y
  }

  function GpuInput(n: KubeNode, index: nat): string {
    "gpu" + "\0" + GpuName(n.name, index)
  }

  lemma {:induction false} StartsNonBlank(s: string)
    requires s != "" && !IsSpace(s[0])
    ensures !Blank(s)
  {
    assert TrimLeft(s) == s;
    TrimRightKeepsHead(s);
  }

  lemma {:induction false} TrimRightKeepsHead(s: string)
    requires s != "" && !IsSpace(s[0])
    ensures TrimRight(s) != ""
    decreases |s|
  {
    if IsSpace(s[|s| - 1]) { TrimRightKeepsHead(s[..|s| - 1]); }
  }

  lemma TrimmedHead(s: string)
    requires Trim(s) != ""
    ensures !IsSpace(Trim(s)[0]) && !Blank(Trim(s))
  {
    TrimLeftStartsClean(s);
    TrimRightOfTrimmed(TrimLeft(s));
    TrimIdempotent(s);
  }

  lemma {:induction false} DecimalShort(n: nat, k: nat)
    requires k >= 1 && n < Pow10(k)
    ensures |Decimal(n)| <= k
    decreases k
  {
    if n >= 10 { DecimalShort(n / 10, k - 1); }
  }

  function Pow10(k: nat): nat {
    if k == 0 then 1 else 10 * Pow10(k - 1)
  }

  lemma MemoryDigits(n: KubeNode)
    ensures |Decimal(Memory(n))| <= 19 && !Blank(Decimal(Memory(n)))
  {
    assert Pow10(5) == 100_000;
    assert Pow10(10) == 100_000 * Pow10(5);
    assert Pow10(15) == 100_000 * Pow10(10);
    assert Pow10(19) == 10_000 * Pow10(15);
    DecimalShort(Memory(n), 19);
    StartsNonBlank(Decimal(Memory(n)));
  }

  lemma CopiedOk(t: Traits, labels: Labels, source: string, dest: string, size: nat)
    requires ValidTraits(t) && |t| <= size < 64 && KubeLabels(labels) && ValidTraitKey(dest)
    ensures var r := Copied(t, labels, source, dest); ValidTraits(r) && |r| <= size + 1
  {
    var value := Trim(LabelOf(labels, source));
    if value != "" { TrimmedHead(LabelOf(labels, source)); }
    hide Trim, ValidTraitKey;
  }

  lemma JoinedOk(t: Traits, labels: Labels, major: string, minor: string, dest: string, size: nat)
    requires ValidTraits(t) && |t| <= size < 64 && KubeLabels(labels) && ValidTraitKey(dest)
    ensures var r := Joined(t, labels, major, minor, dest); ValidTraits(r) && |r| <= size + 1
  {
    var a, b := Trim(LabelOf(labels, major)), Trim(LabelOf(labels, minor));
    if a != "" && b != "" {
      TrimmedHead(LabelOf(labels, major));
      StartsNonBlank(a + "." + b);
    }
    hide Trim, ValidTraitKey;
  }

  lemma NodeTraitsOk(labels: Labels)
    requires KubeLabels(labels)
    ensures ValidTraits(NodeTraits(labels))
  {
    hide Copied, ValidTraits, KubeLabels;
    assert ValidTraits(map[]) by { EmptyTraits(); }
    TopologyKeysOk();
    RuntimeKeysOk();
    ComputeKeysOk();
    hide ValidTraitKey;
    var t0 := Copied(map[], labels, LABEL_REGION, "topology.kubernetes.io/region");
    CopiedOk(map[], labels, LABEL_REGION, "topology.kubernetes.io/region", 0);
    var t1 := Copied(t0, labels, LABEL_ZONE, "topology.kubernetes.io/zone");
    CopiedOk(t0, labels, LABEL_ZONE, "topology.kubernetes.io/zone", 1);
    var t2 := Copied(t1, labels, LABEL_INSTANCE_TYPE, "node.kubernetes.io/instance-type");
    CopiedOk(t1, labels, LABEL_INSTANCE_TYPE, "node.kubernetes.io/instance-type", 2);
    var t3 := Copied(t2, labels, LABEL_CUDA_MAJOR, "gpu.nvidia.com/cuda-runtime-major");
    CopiedOk(t2, labels, LABEL_CUDA_MAJOR, "gpu.nvidia.com/cuda-runtime-major", 3);
    var t4 := Copied(t3, labels, LABEL_CUDA_MINOR, "gpu.nvidia.com/cuda-runtime-minor");
    CopiedOk(t3, labels, LABEL_CUDA_MINOR, "gpu.nvidia.com/cuda-runtime-minor", 4);
    var t5 := Copied(t4, labels, LABEL_COMPUTE_MAJOR, "gpu.nvidia.com/compute-major");
    CopiedOk(t4, labels, LABEL_COMPUTE_MAJOR, "gpu.nvidia.com/compute-major", 5);
    CopiedOk(t5, labels, LABEL_COMPUTE_MINOR, "gpu.nvidia.com/compute-minor", 6);
  }

  lemma EmptyTraits()
    ensures ValidTraits(map[])
  {
  }

  lemma TopologyKeysOk()
    ensures ValidTraitKey("topology.kubernetes.io/region") && ValidTraitKey("topology.kubernetes.io/zone")
    ensures ValidTraitKey("node.kubernetes.io/instance-type")
  {
  }

  lemma RuntimeKeysOk()
    ensures ValidTraitKey("gpu.nvidia.com/cuda-runtime-major") && ValidTraitKey("gpu.nvidia.com/cuda-runtime-minor")
  {
  }

  lemma ComputeKeysOk()
    ensures ValidTraitKey("gpu.nvidia.com/compute-major") && ValidTraitKey("gpu.nvidia.com/compute-minor")
  {
  }

  lemma GpuKeysOk()
    ensures ValidTraitKey("gpu.nvidia.com/model") && ValidTraitKey("gpu.nvidia.com/memory-mib")
    ensures ValidTraitKey("gpu.nvidia.com/mig-capable")
  {
  }

  lemma JoinedKeysOk()
    ensures ValidTraitKey("gpu.nvidia.com/cuda-runtime") && ValidTraitKey("gpu.nvidia.com/compute-capability")
  {
  }

  lemma FirstGpuTraits(model: string, memory: string)
    requires !Blank(model) && |model| <= 255 && !Blank(memory) && |memory| <= 255
    ensures var t: Traits := map["gpu.nvidia.com/model" := model, "gpu.nvidia.com/memory-mib" := memory];
      ValidTraits(t) && |t| <= 2
  {
    GpuKeysOk();
    hide Blank, ValidTraitKey;
  }

  lemma GpuTraitsOk(n: KubeNode)
    requires KubeLabels(n.labels) && Model(n) != ""
    ensures ValidTraits(GpuTraits(n.labels, Model(n), Memory(n)))
  {
    var labels := n.labels;
    var t0: Traits := map["gpu.nvidia.com/model" := Model(n), "gpu.nvidia.com/memory-mib" := Decimal(Memory(n))];
    TrimmedHead(LabelOf(labels, LABEL_PRODUCT));
    MemoryDigits(n);
    FirstGpuTraits(Model(n), Decimal(Memory(n)));
    GpuKeysOk();
    JoinedKeysOk();
    hide Copied, Joined, ValidTraits, KubeLabels, Decimal, Trim, ValidTraitKey;
    var t1 := Joined(t0, labels, LABEL_CUDA_MAJOR, LABEL_CUDA_MINOR, "gpu.nvidia.com/cuda-runtime");
    JoinedOk(t0, labels, LABEL_CUDA_MAJOR, LABEL_CUDA_MINOR, "gpu.nvidia.com/cuda-runtime", 2);
    var t2 := Joined(t1, labels, LABEL_COMPUTE_MAJOR, LABEL_COMPUTE_MINOR, "gpu.nvidia.com/compute-capability");
    JoinedOk(t1, labels, LABEL_COMPUTE_MAJOR, LABEL_COMPUTE_MINOR, "gpu.nvidia.com/compute-capability", 3);
    CopiedOk(t2, labels, LABEL_MIG, "gpu.nvidia.com/mig-capable", 4);
  }

  lemma OpaqueKeyOk(mac: Mac, kind: string, value: string)
    requires |mac(kind + "\0" + value)| == 32 && 0 < |kind| <= 95 && !IsSpace(kind[0])
    ensures ValidKey(OpaqueKey(mac, kind, value))
  {
    StartsNonBlank(OpaqueKey(mac, kind, value));
  }

  lemma DetailedOk(mac: Mac, nodes: seq<KubeNode>, u: nat)
    requires DigestOk(mac, nodes) && u < |nodes| && KubeLabels(nodes[u].labels)
    ensures ValidNode(Detailed(mac, nodes[u]))
  {
    var n := nodes[u];
    OpaqueKeyOk(mac, "node", n.name);
    NodeTraitsOk(n.labels);
    DevicesOk(mac, nodes, u);
    hide OpaqueKey, ValidKey, ValidTraits, ValidDevices, NodeTraits, DevicesUpTo, HealthOf, Schedulable, DeviceCount;
  }

  lemma DevicesOk(mac: Mac, nodes: seq<KubeNode>, u: nat)
    requires DigestOk(mac, nodes) && u < |nodes| && KubeLabels(nodes[u].labels)
    ensures ValidDevices(DevicesUpTo(mac, nodes[u], DeviceCount(nodes[u])))
  {
    var n := nodes[u];
    var ds := DevicesUpTo(mac, n, DeviceCount(n));
    forall b | 0 <= b < |ds| ensures ValidDevice(ds[b]) {
      DeviceOk(mac, n, b);
      hide DeviceAt, ValidDevice, DeviceCount;
    }
    forall b, c | 0 <= b < c < |ds| ensures ds[b].key != ds[c].key {
      DeviceKeysDiffer(mac, nodes, u, b, c);
      hide OpaqueKey, DigestOk;
    }
    hide DeviceAt, ValidDevice, DeviceCount, DigestOk;
  }

  lemma ModelOk(n: KubeNode)
    requires KubeLabels(n.labels) && Model(n) != ""
    ensures !Blank(Model(n)) && |Model(n)| <= 63
  {
    TrimmedHead(LabelOf(n.labels, LABEL_PRODUCT));
    hide Trim;
  }

  lemma DeviceOk(mac: Mac, n: KubeNode, b: nat)
    requires (forall x :: |mac(x)| == 32) && KubeLabels(n.labels) && b < DeviceCount(n)
    ensures ValidDevice(DeviceAt(mac, n, b))
  {
    hide ValidTraits, GpuTraits, HealthOf, Schedulable, ValidKey, Memory, Blank, GpuName, OpaqueKey, KubeLabels;
    hide Model, Trim;
    assert Model(n) != "" && Memory(n) > 0;
    GpuTraitsOk(n);
    ModelOk(n);
    OpaqueKeyOk(mac, "gpu", GpuName(n.name, b));
    FieldsOk(DeviceAt(mac, n, b));
  }

  lemma FieldsOk(d: Device)
    requires ValidKey(d.key) && d.resourceClass == GPU_CLASS && d.mode == WHOLE && !Blank(d.model) && |d.model| <= 63
    requires d.memoryMiB > 0 && ValidTraits(d.traits)
    ensures ValidDevice(d)
  {
    hide ValidKey, ValidTraits, Blank;
  }

  lemma DeviceKeysDiffer(mac: Mac, nodes: seq<KubeNode>, u: nat, b: nat, c: nat)
    requires DigestOk(mac, nodes) && u < |nodes| && b < c < DeviceCount(nodes[u])
    ensures OpaqueKey(mac, "gpu", GpuName(nodes[u].name, b)) != OpaqueKey(mac, "gpu", GpuName(nodes[u].name, c))
  {
    hide DeviceCount, OpaqueKey, GpuName, Decimal;
    var n := nodes[u];
    assert NoCollision(mac, GpuInput(n, b), GpuInput(n, c));
    KeyOfGpu(mac, n, b);
    KeyOfGpu(mac, n, c);
    GpuInputsDiffer(n, b, c);
  }

  lemma KeyOfGpu(mac: Mac, n: KubeNode, b: nat)
    ensures |OpaqueKey(mac, "gpu", GpuName(n.name, b))| >= 4
    ensures OpaqueKey(mac, "gpu", GpuName(n.name, b))[4..] == mac(GpuInput(n, b))
  {
  }

  lemma GpuInputsDiffer(n: KubeNode, b: nat, c: nat)
    requires b != c
    ensures GpuInput(n, b) != GpuInput(n, c)
  {
    hide Decimal;
    var head := "gpu" + "\0" + n.name + "\0";
    assert GpuInput(n, b)[|head|..] == Decimal(b) && GpuInput(n, c)[|head|..] == Decimal(c);
    if Decimal(b) == Decimal(c) { DecimalInjective(b, c); }
  }

  /** The nodes of the first pools, each from its own pool. */
  ghost predicate ItemsFrom(mac: Mac, items: seq<NodeItem>, nodes: seq<KubeNode>) {
    forall x :: 0 <= x < |items| ==> ItemFrom(mac, items[x], nodes)
  }

  ghost predicate ItemFrom(mac: Mac, item: NodeItem, nodes: seq<KubeNode>) {
    exists u :: 0 <= u < |nodes| && PoolName(nodes[u]) == item.pool.name && item.node == Detailed(mac, nodes[u])
  }

  lemma {:induction false} ItemsOrigin(mac: Mac, ps: seq<Pool>, nodes: seq<KubeNode>, k: nat)
    requires PoolsOf(mac, ps, nodes) && k <= |ps|
    ensures ItemsFrom(mac, NodeItems(ps[..k]), nodes)
    decreases k
  {
    hide *;
    if k == 0 {
      NoItems(mac, ps, nodes);
    } else {
      ItemsOrigin(mac, ps, nodes, k - 1);
      NodeItemsPrefix(ps, k - 1);
      var items := PoolItems(ps[k - 1]);
      forall a | 0 <= a < |items| ensures ItemFrom(mac, items[a], nodes) {
        PoolItemsLength(ps[k - 1]);
        PoolItemFrom(mac, ps, nodes, k - 1, a);
      }
      FromJoin(mac, NodeItems(ps[..k - 1]), items, nodes);
    }
  }

  lemma PoolItemsLength(p: Pool)
    ensures |PoolItems(p)| == |p.nodes|
  {
  }

  lemma NoItems(mac: Mac, ps: seq<Pool>, nodes: seq<KubeNode>)
    ensures ItemsFrom(mac, NodeItems(ps[..0]), nodes) && DistinctNodes(NodeItems(ps[..0]))
  {
  }

  lemma FromJoin(mac: Mac, a: seq<NodeItem>, b: seq<NodeItem>, nodes: seq<KubeNode>)
    requires ItemsFrom(mac, a, nodes) && forall x :: 0 <= x < |b| ==> ItemFrom(mac, b[x], nodes)
    ensures ItemsFrom(mac, a + b, nodes)
  {
    hide ItemFrom;
  }

  lemma PoolItemFrom(mac: Mac, ps: seq<Pool>, nodes: seq<KubeNode>, i: nat, a: nat)
    requires PoolsOf(mac, ps, nodes) && i < |ps| && a < |ps[i].nodes|
    ensures ItemFrom(mac, PoolItems(ps[i])[a], nodes)
  {
    hide Detailed, PoolName, PoolsOf;
    var u := PoolNodeOrigin(mac, ps, nodes, i, a);
  }

  /** Nodes of different pools are different nodes, so their keys differ. */
  lemma {:induction false} ItemsDistinct(mac: Mac, ps: seq<Pool>, nodes: seq<KubeNode>, k: nat)
    requires PoolsOf(mac, ps, nodes) && KeysDistinct(mac, nodes) && k <= |ps|
    ensures DistinctNodes(NodeItems(ps[..k]))
    decreases k
  {
    hide *;
    if k == 0 {
      NoItems(mac, ps, nodes);
    } else {
      var before, p := NodeItems(ps[..k - 1]), ps[k - 1];
      WithinPool(mac, ps, nodes, k - 1);
      ItemsDistinct(mac, ps, nodes, k - 1);
      NodeItemsPrefix(ps, k - 1);
      forall x, a | 0 <= x < |before| && 0 <= a < |p.nodes| ensures before[x].node.key != p.nodes[a].key {
        AcrossPools(mac, ps, nodes, k - 1, x, a);
      }
      DistinctJoin(before, p);
    }
  }

  lemma DistinctJoin(before: seq<NodeItem>, p: Pool)
    requires DistinctNodes(before)
    requires forall x, a :: 0 <= x < |before| && 0 <= a < |p.nodes| ==> before[x].node.key != p.nodes[a].key
    requires forall a, b :: 0 <= a < b < |p.nodes| ==> p.nodes[a].key != p.nodes[b].key
    ensures DistinctNodes(before + PoolItems(p))
  {
  }

  lemma WithinPool(mac: Mac, ps: seq<Pool>, nodes: seq<KubeNode>, k: nat)
    requires PoolsOf(mac, ps, nodes) && k < |ps|
    ensures forall a, b :: 0 <= a < b < |ps[k].nodes| ==> ps[k].nodes[a].key != ps[k].nodes[b].key
  {
    hide Group;
    var p := ps[k];
    assert SortedBy(p.nodes, NodeKey());
    forall a, b | 0 <= a < b < |p.nodes| ensures p.nodes[a].key != p.nodes[b].key {
      assert Less(NodeKey()(p.nodes[a]), NodeKey()(p.nodes[b]));
      LessIrreflexive(p.nodes[a].key);
    }
  }

  lemma AcrossPools(mac: Mac, ps: seq<Pool>, nodes: seq<KubeNode>, k: nat, x: nat, a: nat)
    requires PoolsOf(mac, ps, nodes) && KeysDistinct(mac, nodes) && k < |ps|
    requires x < |NodeItems(ps[..k])| && a < |ps[k].nodes|
    ensures NodeItems(ps[..k])[x].node.key != ps[k].nodes[a].key
  {
    hide PoolName;
    ItemsOrigin(mac, ps, nodes, k);
    var item := NodeItems(ps[..k])[x];
    assert ItemFrom(mac, item, nodes);
    var u :| 0 <= u < |nodes| && PoolName(nodes[u]) == item.pool.name && item.node == Detailed(mac, nodes[u]);
    var v := PoolNodeOrigin(mac, ps, nodes, k, a);
    var i := NodeItemOrigin(ps[..k], x);
    assert Less(NameOfPool()(ps[i]), NameOfPool()(ps[k]));
    LessIrreflexive(ps[k].name);
    assert u != v;
  }

  /**
   Every snapshot the agent builds passes the hub's validation: pool names are distinct DNS labels, node and
   device keys are distinct and well formed, and devices and traits are within bounds.
   */
  lemma HubAcceptsAgent(mac: Mac, snap: Snapshot, nodes: seq<KubeNode>)
    requires SnapshotOf(mac, snap, nodes) && KeysDistinct(mac, nodes) && DigestOk(mac, nodes)
    requires forall i :: 0 <= i < |nodes| ==> KubeLabels(nodes[i].labels)
    ensures ValidPools(snap.pools)
  {
    var ps := snap.pools;
    assert ps[..|ps|] == ps;
    ItemsDistinct(mac, ps, nodes, |ps|);
    ItemsOrigin(mac, ps, nodes, |ps|);
    var items := NodeItems(ps);
    forall x | 0 <= x < |items| ensures ValidNode(items[x].node) {
      assert ItemFrom(mac, items[x], nodes);
      var u :| 0 <= u < |nodes| && PoolName(nodes[u]) == items[x].pool.name && items[x].node == Detailed(mac, nodes[u]);
      DetailedOk(mac, nodes, u);
      hide PoolsOf, KeysDistinct, DigestOk, Detailed, PoolName, ValidNode;
    }
    PoolNamesOk(mac, ps, nodes);
    hide PoolsOf, KeysDistinct, DigestOk, ValidPoolNames, DistinctNodes;
  }

  /** What the reporter publishes: the add-on's UID is the fencing token, and fencing is on when there is one. */
  function AgentReport(epoch: string, sequence: nat, uid: string, observedAt: int, digest: string, snap: Snapshot)
    : Fleet.Report
  {
    Fleet.Report(epoch, sequence, Fleet.Fencing(uid, uid != ""), observedAt, digest, snap.pools)
  }

  /**
   The hub accepts a published report exactly if its metadata is in range: the epoch, the digest and the
   pools always are, and of the UID only a blank or an overlong one is refused.
   */
  lemma HubAcceptsReport(
    mac: Mac, snap: Snapshot, nodes: seq<KubeNode>, epoch: string, sequence: nat, uid: string, observedAt: int,
    digest: string)
    requires SnapshotOf(mac, snap, nodes) && KeysDistinct(mac, nodes) && DigestOk(mac, nodes)
    requires forall i :: 0 <= i < |nodes| ==> KubeLabels(nodes[i].labels)
    requires |epoch| == 32 && |digest| == 64 && Fleet.LowerHex(digest)
    ensures Fleet.ValidReport(AgentReport(epoch, sequence, uid, observedAt, digest, snap)) <==>
      1 <= sequence <= MAX_INT64 && observedAt != Fleet.ZERO_TIME && |uid| <= 255 && (uid == "" || !Blank(uid))
  {
    HubAcceptsAgent(mac, snap, nodes);
    hide SnapshotOf, KeysDistinct, DigestOk, KubeLabels, ValidPools, Blank;
  }

  /**
   The cluster total the hub stores after it accepted an agent's report, in whatever state it was and whether it
   rewrote the catalog or skipped it: at most the schedulable GPUs the agent reported, and all of them exactly
   if every schedulable node that offers GPUs has its product and memory labels.
   */
  lemma HubTotalBounded(
    mac: Mac, snap: Snapshot, nodes: seq<KubeNode>, content: string -> seq<Pool>, steps: seq<Fleet.Step>, id: string,
    expected: int, r: Fleet.Report)
    requires SnapshotOf(mac, snap, nodes) && r.pools == snap.pools
    requires Fleet.Refusal(Fleet.Run(Fleet.INITIAL, steps), id, expected, r) == Fleet.Ok
    requires Fleet.Run(Fleet.INITIAL, steps).clusters[id].seen.source != Some(r.source)
      || Fleet.HonestWith(content, steps, r)
    ensures var c := Fleet.Do(Fleet.Run(Fleet.INITIAL, steps), Fleet.Replace(id, expected, r)).0.clusters;
      && id in c
      && var stored, reported := Catalog.StoredTotal(c[id].tables), SchedulableIn(snap.resources, GPU_RESOURCE);
         stored <= reported && (stored == reported <==> AllLabelled(nodes))
  {
    assert Fleet.SaneProfiles(Fleet.INITIAL);
    hide *;
    Fleet.AcceptedReportHolds(content, steps, id, expected, r);
    var c := Fleet.Do(Fleet.Run(Fleet.INITIAL, steps), Fleet.Replace(id, expected, r)).0.clusters[id];
    Catalog.HoldsTotal(c.tables, c.seen.generation, r.pools);
    HubCountBounded(mac, snap, nodes);
  }

  lemma PoolNamesOk(mac: Mac, ps: seq<Pool>, nodes: seq<KubeNode>)
    requires PoolsOf(mac, ps, nodes)
    ensures ValidPoolNames(ps)
  {
    hide Group;
    forall i | 0 <= i < |ps| ensures DnsLabel(ps[i].name) {
      var u := PoolNodeOrigin(mac, ps, nodes, i, 0);
      assert DnsLabel(DEFAULT_POOL);
      hide PoolsOf, DnsLabel;
    }
    hide DnsLabel;
    forall i, j | 0 <= i < j < |ps| ensures ps[i].name != ps[j].name {
      assert Less(NameOfPool()(ps[i]), NameOfPool()(ps[j]));
      LessIrreflexive(ps[i].name);
    }
  }
}
