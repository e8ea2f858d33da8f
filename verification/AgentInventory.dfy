/** The agent's inventory snapshot of a cluster: totals per accelerator resource, and pools of detailed nodes. */
module AgentInventory {
  import opened Basics
  import opened Text
  import opened Snapshots
  import opened Sorting

  const DEFAULT_POOL := "default"
  const GPU_RESOURCE := "nvidia.com/gpu"
  const MIG_PREFIX := "nvidia.com/mig-"

  const LABEL_POOL := "gpu.platform.nyaacat.dev/node-pool"
  const LABEL_PRODUCT := "nvidia.com/gpu.product"
  const LABEL_MEMORY := "nvidia.com/gpu.memory"
  const LABEL_CUDA_MAJOR := "nvidia.com/cuda.runtime.major"
  const LABEL_CUDA_MINOR := "nvidia.com/cuda.runtime.minor"
  const LABEL_COMPUTE_MAJOR := "nvidia.com/gpu.compute.major"
  const LABEL_COMPUTE_MINOR := "nvidia.com/gpu.compute.minor"
  const LABEL_MIG := "nvidia.com/mig.capable"
  const LABEL_INSTANCE_TYPE := "node.kubernetes.io/instance-type"
  const LABEL_ZONE := "topology.kubernetes.io/zone"
  const LABEL_REGION := "topology.kubernetes.io/region"

  type Labels = map<string, string>

  datatype ConditionType = Ready | MemoryPressure | DiskPressure | PidPressure | NetworkUnavailable | OtherCondition
  datatype ConditionStatus = IsTrue | IsFalse | IsUnknown
  datatype Condition = Condition(kind: ConditionType, status: ConditionStatus)

  datatype KubeNode = KubeNode(
    name: string, labels: Labels, unschedulable: bool, allocatable: map<string, int>, conditions: seq<Condition>)

  datatype Resource = Resource(name: string, allocatable: int, schedulable: int)

  datatype Snapshot = Snapshot(
    nodeCount: nat, schedulableNodeCount: nat, resources: seq<Resource>, pools: seq<Pool>)

  // ----- one node -----

  /** The last Ready condition decides; an unready node is not degraded but worse. */
  function ReadyHealth(conditions: seq<Condition>): Health {
    if conditions == [] then Unknown
    else
      var last := conditions[|conditions| - 1];
      if last.kind != Ready then ReadyHealth(conditions[..|conditions| - 1])
      else
        match last.status
        case IsTrue => Healthy
        case IsFalse => Failing
        case IsUnknown => Unreachable
  }

  predicate Pressed(c: Condition) {
    && (c.kind.MemoryPressure? || c.kind.DiskPressure? || c.kind.PidPressure? || c.kind.NetworkUnavailable?)
    && c.status.IsTrue?
  }

  predicate UnderPressure(conditions: seq<Condition>) {
    exists i :: 0 <= i < |conditions| && Pressed(conditions[i])
  }

  function HealthOf(n: KubeNode): Health {
    if ReadyHealth(n.conditions) == Healthy && UnderPressure(n.conditions) then Degraded else ReadyHealth(n.conditions)
  }

  predicate Schedulable(n: KubeNode) {
    !n.unschedulable && HealthOf(n) == Healthy
  }

  lemma PressureStep(conditions: seq<Condition>, i: nat)
    requires i < |conditions|
    ensures UnderPressure(conditions[..i + 1]) <==> UnderPressure(conditions[..i]) || Pressed(conditions[i])
    ensures ReadyHealth(conditions[..i + 1]) == if conditions[i].kind != Ready then ReadyHealth(conditions[..i])
      else match conditions[i].status case IsTrue => Healthy case IsFalse => Failing case IsUnknown => Unreachable
  {
    var now := conditions[..i + 1];
    assert now[..i] == conditions[..i] && now[i] == conditions[i];
    if UnderPressure(conditions[..i]) {
      var k :| 0 <= k < i && Pressed(conditions[..i][k]);
      assert Pressed(now[k]);
    }
    if UnderPressure(now) {
      var k :| 0 <= k <= i && Pressed(now[k]);
      if k < i { assert Pressed(conditions[..i][k]); }
    }
  }

  method NodeHealth(n: KubeNode) returns (health: Health)
    ensures health == HealthOf(n)
  {
    var ready, degraded := Unknown, false;
    for i := 0 to |n.conditions|
      invariant ready == ReadyHealth(n.conditions[..i])
      invariant degraded == UnderPressure(n.conditions[..i])
    {
      var c := n.conditions[i];
      PressureStep(n.conditions, i);
      hide UnderPressure, ReadyHealth;
      match c.kind {
        case Ready =>
          match c.status {
            case IsTrue => ready := Healthy;
            case IsFalse => ready := Failing;
            case IsUnknown => ready := Unreachable;
          }
        case OtherCondition =>
        case _ =>
          if c.status == IsTrue { degraded := true; }
      }
    }
    assert n.conditions[..|n.conditions|] == n.conditions;
    if ready == Healthy && degraded { return Degraded; }
    return ready;
  }

  function LabelOf(labels: Labels, key: string): string {
    if key in labels then labels[key] else ""
  }

  function Copied(target: Traits, labels: Labels, source: string, dest: string): Traits {
    var value := Trim(LabelOf(labels, source));
    if value != "" then target[dest := value] else target
  }

  function NodeTraits(labels: Labels): Traits {
    var t := Copied(map[], labels, LABEL_REGION, "topology.kubernetes.io/region");
    var t := Copied(t, labels, LABEL_ZONE, "topology.kubernetes.io/zone");
    var t := Copied(t, labels, LABEL_INSTANCE_TYPE, "node.kubernetes.io/instance-type");
    var t := Copied(t, labels, LABEL_CUDA_MAJOR, "gpu.nvidia.com/cuda-runtime-major");
    var t := Copied(t, labels, LABEL_CUDA_MINOR, "gpu.nvidia.com/cuda-runtime-minor");
    var t := Copied(t, labels, LABEL_COMPUTE_MAJOR, "gpu.nvidia.com/compute-major");
    Copied(t, labels, LABEL_COMPUTE_MINOR, "gpu.nvidia.com/compute-minor")
  }

  function Joined(target: Traits, labels: Labels, major: string, minor: string, dest: string): Traits {
    var a, b := Trim(LabelOf(labels, major)), Trim(LabelOf(labels, minor));
    if a != "" && b != "" then target[dest := a + "." + b] else target
  }

  function GpuTraits(labels: Labels, model: string, memory: nat): Traits {
    var t: Traits := map["gpu.nvidia.com/model" := model, "gpu.nvidia.com/memory-mib" := Decimal(memory)];
    var t := Joined(t, labels, LABEL_CUDA_MAJOR, LABEL_CUDA_MINOR, "gpu.nvidia.com/cuda-runtime");
    var t := Joined(t, labels, LABEL_COMPUTE_MAJOR, LABEL_COMPUTE_MINOR, "gpu.nvidia.com/compute-capability");
    Copied(t, labels, LABEL_MIG, "gpu.nvidia.com/mig-capable")
  }

  predicate Digit(c: char) {
    '0' <= c <= '9'
  }

  predicate AllDigits(s: string) {
    forall i :: 0 <= i < |s| ==> Digit(s[i])
  }

  function DigitsValue(s: string): nat {
    if s == "" || !Digit(s[|s| - 1]) then 0
    else 10 * DigitsValue(s[..|s| - 1]) + (s[|s| - 1] - '0') as nat
  }

  /** strconv.ParseInt in base 10, kept only when the number is positive and fits; 0 stands for no number. */
  function PositiveInt64(text: string): (r: nat)
    ensures r <= MAX_INT64
  {
    var s := Trim(text);
    var digits := if s != "" && s[0] == '+' then s[1..] else s;
    if digits == "" || !AllDigits(digits) || DigitsValue(digits) > MAX_INT64 then 0
    else DigitsValue(digits)
  }

  // The keyed digest under the identity seed, as 32 hexadecimal digits.
  type Mac = string -> string

  function OpaqueKey(mac: Mac, kind: string, value: string): string {
    kind + "-" + mac(kind + "\0" + value)
  }

  function GpuName(node: string, index: nat): string {
    node + "\0" + Decimal(index)
  }

  function Model(n: KubeNode): string {
    Trim(LabelOf(n.labels, LABEL_PRODUCT))
  }

  function Memory(n: KubeNode): nat {
    PositiveInt64(LabelOf(n.labels, LABEL_MEMORY))
  }

  function Gpus(n: KubeNode): int {
    if GPU_RESOURCE in n.allocatable then n.allocatable[GPU_RESOURCE] else 0
  }

  /** The devices a node lists: one per allocatable GPU, if its product and memory are labelled. */
  function DeviceCount(n: KubeNode): nat {
    if Gpus(n) <= 0 || Model(n) == "" || Memory(n) == 0 then 0 else Gpus(n)
  }

  function DeviceAt(mac: Mac, n: KubeNode, index: nat): Device {
    Device(OpaqueKey(mac, "gpu", GpuName(n.name, index)), GPU_CLASS, Model(n), Memory(n), WHOLE,
           HealthOf(n), Schedulable(n), GpuTraits(n.labels, Model(n), Memory(n)))
  }

  function DevicesUpTo(mac: Mac, n: KubeNode, count: nat): seq<Device> {
    seq(count, i requires 0 <= i < count => DeviceAt(mac, n, i))
  }

  function Detailed(mac: Mac, n: KubeNode): Node {
    Node(OpaqueKey(mac, "node", n.name), Enabled, HealthOf(n), Schedulable(n), NodeTraits(n.labels),
         DevicesUpTo(mac, n, DeviceCount(n)))
  }

  method DetailedNode(mac: Mac, n: KubeNode, health: Health, schedulable: bool) returns (r: Node)
    requires health == HealthOf(n) && schedulable == Schedulable(n)
    ensures r == Detailed(mac, n)
  {
    hide HealthOf, Schedulable, NodeTraits, GpuTraits, OpaqueKey, GpuName, Model, Memory;
    r := Node(OpaqueKey(mac, "node", n.name), Enabled, health, schedulable, NodeTraits(n.labels), []);
    var count := Gpus(n);
    var model, memory := Model(n), Memory(n);
    if count <= 0 || model == "" || memory == 0 { return; }
    var devices: seq<Device> := [];
    for index := 0 to count
      invariant devices == DevicesUpTo(mac, n, index)
    {
      var key := OpaqueKey(mac, "gpu", GpuName(n.name, index));
      devices := devices + [Device(key, GPU_CLASS, model, memory, WHOLE, health, schedulable,
        GpuTraits(n.labels, model, memory))];
    }
    r := r.(devices := devices);
  }

  function PoolName(n: KubeNode): string {
    var name := LabelOf(n.labels, LABEL_POOL);
    if DnsLabel(name) then name else DEFAULT_POOL
  }

  // ----- totals over a list of nodes -----

  predicate IsAccelerator(name: string) {
    name == GPU_RESOURCE || MIG_PREFIX <= name
  }

  function Offered(n: KubeNode, name: string): nat {
    if IsAccelerator(name) && name in n.allocatable && n.allocatable[name] > 0 then n.allocatable[name] else 0
  }

  /** Sum of a weight over a list. */
  function Total<T>(s: seq<T>, w: T -> int): int {
    if s == [] then 0 else Total(s[..|s| - 1], w) + w(s[|s| - 1])
  }

  function OfferedOf(name: string): KubeNode -> int {
    (n: KubeNode) => Offered(n, name)
  }

  function SchedulableOf(name: string): KubeNode -> int {
    (n: KubeNode) => if Schedulable(n) then Offered(n, name) else 0
  }

  function OneIfSchedulable(): KubeNode -> int {
    (n: KubeNode) => if Schedulable(n) then 1 else 0
  }

  /** The nodes of one pool, detailed, in listing order. */
  function Group(mac: Mac, nodes: seq<KubeNode>, pool: string): seq<Node> {
    if nodes == [] then []
    else
      var n := nodes[|nodes| - 1];
      Group(mac, nodes[..|nodes| - 1], pool) + (if PoolName(n) == pool then [Detailed(mac, n)] else [])
  }

  // ----- the canonical snapshot -----

  function NodeKey(): Node -> string { (n: Node) => n.key }
  function NameOfPool(): Pool -> string { (p: Pool) => p.name }
  function NameOfResource(): Resource -> string { (r: Resource) => r.name }

  ghost predicate ResourcesOf(rs: seq<Resource>, nodes: seq<KubeNode>) {
    && SortedBy(rs, NameOfResource())
    && (forall i :: 0 <= i < |rs| ==>
          && rs[i].allocatable == Total(nodes, OfferedOf(rs[i].name)) > 0
          && rs[i].schedulable == Total(nodes, SchedulableOf(rs[i].name)))
    && (forall name :: Total(nodes, OfferedOf(name)) > 0 ==> exists i :: 0 <= i < |rs| && rs[i].name == name)
  }

  ghost predicate PoolsOf(mac: Mac, ps: seq<Pool>, nodes: seq<KubeNode>) {
    && SortedBy(ps, NameOfPool())
    && (forall i :: 0 <= i < |ps| ==>
          && ps[i].management == Enabled && ps[i].nodes != []
          && SortedBy(ps[i].nodes, NodeKey())
          && multiset(ps[i].nodes) == multiset(Group(mac, nodes, ps[i].name)))
    && (forall pool :: Group(mac, nodes, pool) != [] ==> exists i :: 0 <= i < |ps| && ps[i].name == pool)
  }

  ghost predicate SnapshotOf(mac: Mac, snap: Snapshot, nodes: seq<KubeNode>) {
    && snap.nodeCount == |nodes|
    && snap.schedulableNodeCount == Total(nodes, OneIfSchedulable())
    && ResourcesOf(snap.resources, nodes)
    && PoolsOf(mac, snap.pools, nodes)
  }

  // ----- one result for one set of nodes -----

  function Without<T>(s: seq<T>, k: nat): seq<T>
    requires k < |s|
  {
    s[..k] + s[k + 1..]
  }

  lemma WithoutOne<T>(s: seq<T>, k: nat)
    requires k < |s|
    ensures multiset(s) == multiset(Without(s, k)) + multiset{s[k]}
  {
    assert s == s[..k] + [s[k]] + s[k + 1..];
  }

  lemma WithoutInit<T>(s: seq<T>, k: nat)
    requires k < |s| - 1
    ensures var n := |s| - 1; var rest := Without(s, k);
      |rest| == n && rest[..n - 1] == Without(s[..n], k) && rest[n - 1] == s[n] && s[..n][k] == s[k]
  {
  }

  /** A total counts every element once, wherever it stands in the list. */
  lemma {:induction false} TotalSplit<T>(a: seq<T>, k: nat, w: T -> int)
    requires k < |a|
    ensures Total(a, w) == Total(Without(a, k), w) + w(a[k])
    decreases |a|
  {
    if k == |a| - 1 {
      assert Without(a, k) == a[..k];
    } else {
      WithoutInit(a, k);
      TotalSplit(a[..|a| - 1], k, w);
    }
  }

  lemma {:induction false} GroupSplit(mac: Mac, a: seq<KubeNode>, k: nat, pool: string)
    requires k < |a|
    ensures multiset(Group(mac, a, pool)) == multiset(Group(mac, Without(a, k), pool)) + Own(mac, a[k], pool)
    decreases |a|
  {
    hide Own;
    GroupLast(mac, a, pool);
    hide Group;
    var init := a[..|a| - 1];
    var rest := Without(a, k);
    if k == |a| - 1 {
      assert rest == init;
    } else {
      var less := Without(init, k);
      WithoutInit(a, k);
      GroupLast(mac, rest, pool);
      GroupSplit(mac, init, k, pool);
      Swap(multiset(Group(mac, a, pool)), multiset(Group(mac, init, pool)), multiset(Group(mac, less, pool)),
           multiset(Group(mac, rest, pool)), Own(mac, a[k], pool), Own(mac, a[|a| - 1], pool));
    }
  }

  lemma Swap<T>(
    all: multiset<T>, init: multiset<T>, less: multiset<T>, rest: multiset<T>, x: multiset<T>, y: multiset<T>)
    requires all == init + y && init == less + x && rest == less + y
    ensures all == rest + x
  {
  }

  function Own(mac: Mac, n: KubeNode, pool: string): multiset<Node> {
    if PoolName(n) == pool then multiset{Detailed(mac, n)} else multiset{}
  }

  lemma GroupLast(mac: Mac, a: seq<KubeNode>, pool: string)
    requires a != []
    ensures multiset(Group(mac, a, pool)) == multiset(Group(mac, a[..|a| - 1], pool)) + Own(mac, a[|a| - 1], pool)
  {
    hide PoolName, Detailed;
  }

  lemma RemovePermuted<T>(a: seq<T>, b: seq<T>) returns (k: nat)
    requires a != [] && multiset(a) == multiset(b)
    ensures k < |b| && b[k] == a[|a| - 1]
    ensures multiset(a[..|a| - 1]) == multiset(Without(b, k))
  {
    var x := a[|a| - 1];
    assert x in multiset(a);
    assert x in b;
    k :| 0 <= k < |b| && b[k] == x;
    assert a == a[..|a| - 1] + [x];
    WithoutOne(b, k);
    assert multiset(a[..|a| - 1]) == multiset(a) - multiset{x};
    assert multiset(Without(b, k)) == multiset(b) - multiset{x};
  }

  lemma {:induction false} TotalPermuted<T>(a: seq<T>, b: seq<T>, w: T -> int)
    requires multiset(a) == multiset(b)
    ensures Total(a, w) == Total(b, w)
    decreases |a|
  {
    if a == [] {
      assert |multiset(b)| == 0;
    } else {
      var k := RemovePermuted(a, b);
      TotalSplit(b, k, w);
      TotalPermuted(a[..|a| - 1], Without(b, k), w);
    }
  }

  lemma {:induction false} GroupPermuted(mac: Mac, a: seq<KubeNode>, b: seq<KubeNode>, pool: string)
    requires multiset(a) == multiset(b)
    ensures multiset(Group(mac, a, pool)) == multiset(Group(mac, b, pool))
    decreases |a|
  {
    if a == [] {
      assert |multiset(b)| == 0;
    } else {
      var k := RemovePermuted(a, b);
      GroupLast(mac, a, pool);
      GroupSplit(mac, b, k, pool);
      hide Group, Own;
      GroupPermuted(mac, a[..|a| - 1], Without(b, k), pool);
    }
  }

  lemma ResourceMember(rs: seq<Resource>, ss: seq<Resource>, a: seq<KubeNode>, b: seq<KubeNode>, i: nat)
    requires multiset(a) == multiset(b) && ResourcesOf(rs, a) && ResourcesOf(ss, b) && i < |rs|
    ensures rs[i] in ss
  {
    var name := rs[i].name;
    TotalPermuted(a, b, OfferedOf(name));
    TotalPermuted(a, b, SchedulableOf(name));
    var j :| 0 <= j < |ss| && ss[j].name == name;
    assert ss[j] == rs[i];
  }

  lemma ResourcesUnique(rs: seq<Resource>, ss: seq<Resource>, a: seq<KubeNode>, b: seq<KubeNode>)
    requires multiset(a) == multiset(b) && ResourcesOf(rs, a) && ResourcesOf(ss, b)
    ensures rs == ss
  {
    forall x ensures x in rs <==> x in ss {
      if x in rs { var i :| 0 <= i < |rs| && rs[i] == x; ResourceMember(rs, ss, a, b, i); }
      if x in ss { var i :| 0 <= i < |ss| && ss[i] == x; ResourceMember(ss, rs, b, a, i); }
    }
    SortedUnique(rs, ss, NameOfResource());
  }

  lemma PoolMember(mac: Mac, ps: seq<Pool>, qs: seq<Pool>, a: seq<KubeNode>, b: seq<KubeNode>, i: nat)
    requires multiset(a) == multiset(b) && PoolsOf(mac, ps, a) && PoolsOf(mac, qs, b) && i < |ps|
    ensures ps[i] in qs
  {
    hide Group;
    var name := ps[i].name;
    GroupPermuted(mac, a, b, name);
    assert Group(mac, b, name) != [] by {
      assert multiset(ps[i].nodes) == multiset(Group(mac, b, name));
      assert ps[i].nodes[0] in multiset(ps[i].nodes);
    }
    var j :| 0 <= j < |qs| && qs[j].name == name;
    SameMembers(ps[i].nodes, qs[j].nodes);
    SortedUnique(ps[i].nodes, qs[j].nodes, NodeKey());
    assert qs[j] == ps[i];
  }

  lemma PoolsUnique(mac: Mac, ps: seq<Pool>, qs: seq<Pool>, a: seq<KubeNode>, b: seq<KubeNode>)
    requires multiset(a) == multiset(b) && PoolsOf(mac, ps, a) && PoolsOf(mac, qs, b)
    ensures ps == qs
  {
    forall x ensures x in ps <==> x in qs {
      if x in ps { var i :| 0 <= i < |ps| && ps[i] == x; PoolMember(mac, ps, qs, a, b, i); }
      if x in qs { var i :| 0 <= i < |qs| && qs[i] == x; PoolMember(mac, qs, ps, b, a, i); }
    }
    SortedUnique(ps, qs, NameOfPool());
  }

  /**
   The snapshot, and so its content digest, depends only on which nodes there are: listing them in another
   order cannot change it.
   */
  lemma SnapshotCanonical(mac: Mac, s: Snapshot, t: Snapshot, a: seq<KubeNode>, b: seq<KubeNode>)
    requires multiset(a) == multiset(b) && SnapshotOf(mac, s, a) && SnapshotOf(mac, t, b)
    ensures s == t
  {
    TotalPermuted(a, b, OneIfSchedulable());
    ResourcesUnique(s.resources, t.resources, a, b);
    PoolsUnique(mac, s.pools, t.pools, a, b);
    assert |multiset(a)| == |a| && |multiset(b)| == |b|;
  }
}
