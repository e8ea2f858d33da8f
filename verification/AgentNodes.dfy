/** What a snapshot shows of each node of the cluster, and of what the nodes offer together. */
module AgentNodes {
  import opened Basics
  import opened Text
  import opened Snapshots
  import opened Sorting
  import opened AgentInventory

  // ----- health -----

  predicate LastReady(cs: seq<Condition>, i: nat) {
    i < |cs| && cs[i].kind == Ready && forall k :: i < k < |cs| ==> cs[k].kind != Ready
  }

  /** The status of the last Ready condition, if there is one. */
  predicate ReadyIs(cs: seq<Condition>, status: ConditionStatus) {
    exists i :: 0 <= i < |cs| && LastReady(cs, i) && cs[i].status == status
  }

  predicate Presses(c: Condition) {
    c.status == IsTrue && c.kind in {MemoryPressure, DiskPressure, PidPressure, NetworkUnavailable}
  }

  predicate HasPressure(cs: seq<Condition>) {
    exists i :: 0 <= i < |cs| && Presses(cs[i])
  }

  lemma {:induction false} ReadyShown(cs: seq<Condition>)
    ensures ReadyHealth(cs) == Healthy <==> ReadyIs(cs, IsTrue)
    ensures ReadyHealth(cs) == Failing <==> ReadyIs(cs, IsFalse)
    ensures ReadyHealth(cs) == Unreachable <==> ReadyIs(cs, IsUnknown)
    ensures ReadyHealth(cs) != Degraded
    ensures ReadyHealth(cs) == Unknown <==> forall i :: 0 <= i < |cs| ==> cs[i].kind != Ready
    decreases |cs|
  {
    if cs != [] {
      var n := |cs| - 1;
      if cs[n].kind == Ready {
        assert LastReady(cs, n);
      } else {
        ReadyShown(cs[..n]);
        forall i | 0 <= i < n ensures LastReady(cs, i) <==> LastReady(cs[..n], i) {
          if LastReady(cs, i) { assert forall k :: i < k < n ==> cs[..n][k] == cs[k]; }
        }
        assert forall status :: ReadyIs(cs, status) <==> ReadyIs(cs[..n], status) by {
          forall status ensures ReadyIs(cs, status) <==> ReadyIs(cs[..n], status) { SameReady(cs, status); }
        }
      }
    }
  }

  lemma SameReady(cs: seq<Condition>, status: ConditionStatus)
    requires cs != [] && cs[|cs| - 1].kind != Ready
    requires forall i :: 0 <= i < |cs| - 1 ==> (LastReady(cs, i) <==> LastReady(cs[..|cs| - 1], i))
    ensures ReadyIs(cs, status) <==> ReadyIs(cs[..|cs| - 1], status)
  {
    var init := cs[..|cs| - 1];
    if ReadyIs(cs, status) {
      var i :| 0 <= i < |cs| && LastReady(cs, i) && cs[i].status == status;
      assert LastReady(init, i) && init[i].status == status;
    }
    if ReadyIs(init, status) {
      var i :| 0 <= i < |init| && LastReady(init, i) && init[i].status == status;
      assert LastReady(cs, i) && cs[i].status == status;
    }
  }

  lemma PressureShown(cs: seq<Condition>)
    ensures UnderPressure(cs) <==> HasPressure(cs)
  {
    forall i | 0 <= i < |cs| ensures Pressed(cs[i]) <==> Presses(cs[i]) {
    }
  }

  /** A node's health in terms of its conditions: the last readiness, lowered by any pressure. */
  lemma HealthShown(n: KubeNode)
    ensures HealthOf(n) == Healthy <==> ReadyIs(n.conditions, IsTrue) && !HasPressure(n.conditions)
    ensures HealthOf(n) == Degraded <==> ReadyIs(n.conditions, IsTrue) && HasPressure(n.conditions)
    ensures HealthOf(n) == Failing <==> ReadyIs(n.conditions, IsFalse)
    ensures HealthOf(n) == Unreachable <==> ReadyIs(n.conditions, IsUnknown)
    ensures HealthOf(n) == Unknown <==>
      forall i :: 0 <= i < |n.conditions| ==> n.conditions[i].kind != Ready
  {
    hide ReadyHealth, UnderPressure, HasPressure, ReadyIs;
    ReadyShown(n.conditions);
    PressureShown(n.conditions);
  }

  // ----- labels -----

  lemma {:induction false} TrimLeftShape(s: string) returns (i: nat)
    ensures i <= |s| && TrimLeft(s) == s[i..]
    ensures forall k :: 0 <= k < i ==> IsSpace(s[k])
    ensures i < |s| ==> !IsSpace(s[i])
    decreases |s|
  {
    if s != "" && IsSpace(s[0]) {
      var j := TrimLeftShape(s[1..]);
      i := j + 1;
      assert forall k :: 0 < k < i ==> s[k] == s[1..][k - 1];
    } else {
      i := 0;
    }
  }

  lemma {:induction false} TrimRightShape(s: string) returns (j: nat)
    ensures j <= |s| && TrimRight(s) == s[..j]
    ensures forall k :: j <= k < |s| ==> IsSpace(s[k])
    ensures j > 0 ==> !IsSpace(s[j - 1])
    decreases |s|
  {
    if s != "" && IsSpace(s[|s| - 1]) {
      j := TrimRightShape(s[..|s| - 1]);
      assert s[..|s| - 1][..j] == s[..j];
    } else {
      j := |s|;
    }
  }

  /** Trimming takes off the leading and the trailing blanks, all of them and nothing else. */
  lemma TrimShape(s: string) returns (i: nat, j: nat)
    ensures i <= j <= |s| && Trim(s) == s[i..j]
    ensures forall k :: 0 <= k < i || j <= k < |s| ==> s[k] == ' ' || '\t' <= s[k] <= '\r'
    ensures forall k :: i < j && (k == i || k == j - 1) ==> s[k] != ' ' && !('\t' <= s[k] <= '\r')
  {
    i := TrimLeftShape(s);
    var l := TrimRightShape(s[i..]);
    j := i + l;
    assert s[i..][..l] == s[i..j];
  }

  /** A trait is there exactly if its label is not blank, and then carries the trimmed label. */
  predicate Carries(t: Traits, trait_: string, labels: Labels, name: string) {
    && (trait_ in t <==> !Blank(LabelOf(labels, name)))
    && (trait_ in t ==> t[trait_] == Trim(LabelOf(labels, name)))
  }

  /** The first `m` labels copied one after the other. */
  function CopiedUpTo(labels: Labels, n: seq<string>, d: seq<string>, m: nat): Traits
    requires m <= |n| == |d|
  {
    if m == 0 then map[] else Copied(CopiedUpTo(labels, n, d, m - 1), labels, n[m - 1], d[m - 1])
  }

  lemma {:induction false} CopiedCarries(labels: Labels, n: seq<string>, d: seq<string>, m: nat)
    requires m <= |n| == |d| && forall i, j :: 0 <= i < j < |d| ==> d[i] != d[j]
    ensures var t := CopiedUpTo(labels, n, d, m);
      (forall i :: 0 <= i < m ==> Carries(t, d[i], labels, n[i])) && forall k :: k in t ==> k in d[..m]
  {
    hide Copied, Carries;
    if m > 0 {
      CopiedCarries(labels, n, d, m - 1);
      var t := CopiedUpTo(labels, n, d, m - 1);
      assert d[m - 1] !in d[..m - 1];
      CopiedOne(t, labels, n[m - 1], d[m - 1]);
      forall i | 0 <= i < m - 1 ensures Carries(CopiedUpTo(labels, n, d, m), d[i], labels, n[i]) {
        CopiedKeeps(t, labels, n[m - 1], d[m - 1], d[i], n[i]);
      }
    }
  }

  lemma CopiedOne(t: Traits, labels: Labels, name: string, dest: string)
    requires dest !in t
    ensures var r := Copied(t, labels, name, dest); Carries(r, dest, labels, name) && r.Keys <= t.Keys + {dest}
  {
    hide Trim, LabelOf;
  }

  lemma CopiedKeeps(t: Traits, labels: Labels, name: string, dest: string, other: string, source: string)
    requires Carries(t, other, labels, source) && other != dest
    ensures Carries(Copied(t, labels, name, dest), other, labels, source)
  {
    hide Trim, LabelOf;
  }

  lemma SevenCopied(labels: Labels, n: seq<string>, d: seq<string>)
    requires |n| == |d| == 7
    ensures var t := Copied(map[], labels, n[0], d[0]);
      var t := Copied(t, labels, n[1], d[1]);
      var t := Copied(t, labels, n[2], d[2]);
      var t := Copied(t, labels, n[3], d[3]);
      var t := Copied(t, labels, n[4], d[4]);
      var t := Copied(t, labels, n[5], d[5]);
      CopiedUpTo(labels, n, d, 7) == Copied(t, labels, n[6], d[6])
  {
    hide Copied;
    assert CopiedUpTo(labels, n, d, 0) == map[];
    assert CopiedUpTo(labels, n, d, 1) == Copied(CopiedUpTo(labels, n, d, 0), labels, n[0], d[0]);
    assert CopiedUpTo(labels, n, d, 2) == Copied(CopiedUpTo(labels, n, d, 1), labels, n[1], d[1]);
    assert CopiedUpTo(labels, n, d, 3) == Copied(CopiedUpTo(labels, n, d, 2), labels, n[2], d[2]);
    assert CopiedUpTo(labels, n, d, 4) == Copied(CopiedUpTo(labels, n, d, 3), labels, n[3], d[3]);
    assert CopiedUpTo(labels, n, d, 5) == Copied(CopiedUpTo(labels, n, d, 4), labels, n[4], d[4]);
    assert CopiedUpTo(labels, n, d, 6) == Copied(CopiedUpTo(labels, n, d, 5), labels, n[5], d[5]);
  }

  lemma NodeTraitsShown(labels: Labels)
    ensures var t := NodeTraits(labels);
      && Carries(t, "topology.kubernetes.io/region", labels, "topology.kubernetes.io/region")
      && Carries(t, "topology.kubernetes.io/zone", labels, "topology.kubernetes.io/zone")
      && Carries(t, "node.kubernetes.io/instance-type", labels, "node.kubernetes.io/instance-type")
      && Carries(t, "gpu.nvidia.com/cuda-runtime-major", labels, "nvidia.com/cuda.runtime.major")
      && Carries(t, "gpu.nvidia.com/cuda-runtime-minor", labels, "nvidia.com/cuda.runtime.minor")
      && Carries(t, "gpu.nvidia.com/compute-major", labels, "nvidia.com/gpu.compute.major")
      && Carries(t, "gpu.nvidia.com/compute-minor", labels, "nvidia.com/gpu.compute.minor")
  {
    var names := ["topology.kubernetes.io/region", "topology.kubernetes.io/zone", "node.kubernetes.io/instance-type",
      "nvidia.com/cuda.runtime.major", "nvidia.com/cuda.runtime.minor", "nvidia.com/gpu.compute.major",
      "nvidia.com/gpu.compute.minor"];
    var dests := ["topology.kubernetes.io/region", "topology.kubernetes.io/zone", "node.kubernetes.io/instance-type",
      "gpu.nvidia.com/cuda-runtime-major", "gpu.nvidia.com/cuda-runtime-minor", "gpu.nvidia.com/compute-major",
      "gpu.nvidia.com/compute-minor"];
    assert forall i, j :: 0 <= i < j < 7 ==> dests[i] != dests[j];
    CopiedCarries(labels, names, dests, 7);
    hide Copied, Carries;
    SevenCopied(labels, names, dests);
  }

  /** A version is there exactly if both of its parts are labelled, and joins them with a dot. */
  predicate CarriesVersion(t: Traits, dest: string, labels: Labels, major: string, minor: string) {
    && (dest in t <==> !Blank(LabelOf(labels, major)) && !Blank(LabelOf(labels, minor)))
    && (dest in t ==> t[dest] == Trim(LabelOf(labels, major)) + "." + Trim(LabelOf(labels, minor)))
  }

  lemma FiveTraits(labels: Labels, model: string, memory: string, n: seq<string>, d: seq<string>)
    requires |n| == |d| == 5 && forall i, j :: 0 <= i < j < 5 ==> d[i] != d[j]
    ensures var t: Traits := map[d[0] := model, d[1] := memory];
      var t := Joined(t, labels, n[0], n[1], d[2]);
      var t := Joined(t, labels, n[2], n[3], d[3]);
      var t := Copied(t, labels, n[4], d[4]);
      && d[0] in t && t[d[0]] == model && d[1] in t && t[d[1]] == memory
      && CarriesVersion(t, d[2], labels, n[0], n[1]) && CarriesVersion(t, d[3], labels, n[2], n[3])
      && Carries(t, d[4], labels, n[4]) && forall k :: k in t ==> k in d
  {
    hide Trim, LabelOf;
  }

  lemma GpuTraitsShown(labels: Labels, model: string, memory: nat)
    ensures var t := GpuTraits(labels, model, memory);
      && "gpu.nvidia.com/model" in t && t["gpu.nvidia.com/model"] == model
      && "gpu.nvidia.com/memory-mib" in t && t["gpu.nvidia.com/memory-mib"] == Decimal(memory)
      && CarriesVersion(t, "gpu.nvidia.com/cuda-runtime", labels,
                        "nvidia.com/cuda.runtime.major", "nvidia.com/cuda.runtime.minor")
      && CarriesVersion(t, "gpu.nvidia.com/compute-capability", labels,
                        "nvidia.com/gpu.compute.major", "nvidia.com/gpu.compute.minor")
      && Carries(t, "gpu.nvidia.com/mig-capable", labels, "nvidia.com/mig.capable")
  {
    var names := ["nvidia.com/cuda.runtime.major", "nvidia.com/cuda.runtime.minor", "nvidia.com/gpu.compute.major",
      "nvidia.com/gpu.compute.minor", "nvidia.com/mig.capable"];
    var dests := ["gpu.nvidia.com/model", "gpu.nvidia.com/memory-mib", "gpu.nvidia.com/cuda-runtime",
      "gpu.nvidia.com/compute-capability", "gpu.nvidia.com/mig-capable"];
    assert forall i, j :: 0 <= i < j < 5 ==> dests[i] != dests[j];
    FiveTraits(labels, model, Decimal(memory), names, dests);
    hide Copied, Joined, Carries, CarriesVersion, Decimal;
  }

  // ----- numbers -----

  lemma {:induction false} DigitsOfDecimal(n: nat)
    ensures DigitsValue(Decimal(n)) == n
    decreases n
  {
    var s := Decimal(n);
    assert s[..|s| - 1] == (if n < 10 then "" else Decimal(n / 10));
    if n >= 10 { DigitsOfDecimal(n / 10); }
  }

  /** A positive number is read back from its decimal form, blanks and a plus sign around it or not, if it fits. */
  lemma PositiveReadsBack(n: nat, sign: string, text: string)
    requires sign in {"", "+"} && Trim(text) == sign + Decimal(n)
    ensures PositiveInt64(text) == if n <= MAX_INT64 then n else 0
  {
    hide DigitsValue, Trim, Decimal;
    var s := Trim(text);
    var digits := if s != "" && s[0] == '+' then s[1..] else s;
    DigitsOfDecimal(n);
    if sign == "" {
      assert s == Decimal(n);
      assert s[0] != '+';
    }
    assert digits == Decimal(n);
    assert AllDigits(digits);
  }

  /** Anything else is no number. */
  lemma OthersAreNoNumber(text: string, i: nat)
    requires Trim(text) in {"", "+"}
      || (i < |Trim(text)| && Trim(text)[i] !in "0123456789" && (i > 0 || Trim(text)[i] != '+'))
    ensures PositiveInt64(text) == 0
  {
    hide DigitsValue, Trim;
    var s := Trim(text);
    var digits := if s != "" && s[0] == '+' then s[1..] else s;
    if s !in {"", "+"} {
      var k := if s[0] == '+' then i - 1 else i;
      DigitIsDigit(s[i]);
      assert digits[k] == s[i] && !Digit(digits[k]);
    } else {
      assert digits == "";
    }
  }

  lemma DigitIsDigit(c: char)
    ensures Digit(c) <==> c in "0123456789"
  {
    var all := "0123456789";
    if Digit(c) {
      var k := c as int - '0' as int;
      assert all[k] == c;
    }
  }

  // ----- nodes -----

  /** How a snapshot describes a node: a keyed digest for a name, its health, and its accelerators one by one. */
  ghost predicate Describes(mac: Mac, n: KubeNode, r: Node) {
    && r.key == "node-" + mac("node" + "\0" + n.name) && r.management == Enabled
    && r.health == HealthOf(n) && (r.schedulable <==> !n.unschedulable && r.health == Healthy)
    && r.traits == NodeTraits(n.labels)
    && |r.devices| == (if GPU_RESOURCE in n.allocatable && n.allocatable[GPU_RESOURCE] > 0
                          && !Blank(LabelOf(n.labels, "nvidia.com/gpu.product"))
                          && PositiveInt64(LabelOf(n.labels, "nvidia.com/gpu.memory")) > 0
                       then n.allocatable[GPU_RESOURCE] else 0)
    && forall i :: 0 <= i < |r.devices| ==> DescribesDevice(mac, n, r, i, r.devices[i])
  }

  ghost predicate DescribesDevice(mac: Mac, n: KubeNode, r: Node, i: nat, d: Device) {
    && d.key == "gpu-" + mac("gpu" + "\0" + (n.name + "\0" + Decimal(i)))
    && d.resourceClass == "gpu.nvidia.full" && d.mode == "whole"
    && d.model == Trim(LabelOf(n.labels, "nvidia.com/gpu.product"))
    && d.memoryMiB == PositiveInt64(LabelOf(n.labels, "nvidia.com/gpu.memory"))
    && d.health == r.health && d.allocatable == r.schedulable
    && d.traits == GpuTraits(n.labels, d.model, d.memoryMiB)
  }

  lemma DetailedDescribes(mac: Mac, n: KubeNode)
    ensures Describes(mac, n, Detailed(mac, n))
  {
    hide HealthOf, NodeTraits, GpuTraits, Trim, PositiveInt64, LabelOf, Decimal;
    assert OpaqueKey(mac, "node", n.name) == "node-" + mac("node" + "\0" + n.name);
    var r := Detailed(mac, n);
    forall i | 0 <= i < |r.devices| ensures DescribesDevice(mac, n, r, i, r.devices[i]) {
      assert r.devices[i] == DeviceAt(mac, n, i);
      assert OpaqueKey(mac, "gpu", GpuName(n.name, i)) == "gpu-" + mac("gpu" + "\0" + (n.name + "\0" + Decimal(i)));
    }
  }

  /** The pool of a node: the one its label names, if that is a DNS label, and otherwise the default one. */
  function Home(n: KubeNode): string {
    var key := "gpu.platform.nyaacat.dev/node-pool";
    if key in n.labels && DnsLabel(n.labels[key]) then n.labels[key] else "default"
  }

  lemma HomeIsPool(n: KubeNode)
    ensures PoolName(n) == Home(n)
  {
    assert !DnsLabel("");
  }

  lemma {:induction false} GroupHas(mac: Mac, nodes: seq<KubeNode>, a: nat)
    requires a < |nodes|
    ensures Detailed(mac, nodes[a]) in Group(mac, nodes, PoolName(nodes[a]))
    decreases |nodes|
  {
    hide PoolName, Detailed;
    if a < |nodes| - 1 { GroupHas(mac, nodes[..|nodes| - 1], a); }
  }

  lemma {:induction false} GroupOnly(mac: Mac, nodes: seq<KubeNode>, pool: string, r: Node) returns (a: nat)
    requires r in Group(mac, nodes, pool)
    ensures a < |nodes| && PoolName(nodes[a]) == pool && r == Detailed(mac, nodes[a])
    decreases |nodes|
  {
    hide PoolName, Detailed;
    var n := |nodes| - 1;
    if r in Group(mac, nodes[..n], pool) { a := GroupOnly(mac, nodes[..n], pool, r); } else { a := n; }
  }

  /** The node is listed at that place of that pool, which is its own. */
  ghost predicate ListedAt(mac: Mac, ps: seq<Pool>, n: KubeNode, i: nat, k: nat) {
    i < |ps| && k < |ps[i].nodes| && ps[i].name == Home(n) && Describes(mac, n, ps[i].nodes[k])
  }

  /** Every node of the cluster is listed in the pool it belongs to. */
  lemma NodeListed(mac: Mac, ps: seq<Pool>, nodes: seq<KubeNode>, a: nat)
    requires PoolsOf(mac, ps, nodes) && a < |nodes|
    ensures exists i: nat, k: nat :: ListedAt(mac, ps, nodes[a], i, k)
  {
    hide PoolName, Home, Describes, Group, Detailed, SortedBy;
    GroupHas(mac, nodes, a);
    HomeIsPool(nodes[a]);
    var i: nat :| i < |ps| && ps[i].name == PoolName(nodes[a]);
    SameMembers(ps[i].nodes, Group(mac, nodes, ps[i].name));
    var k: nat :| k < |ps[i].nodes| && ps[i].nodes[k] == Detailed(mac, nodes[a]);
    DetailedDescribes(mac, nodes[a]);
    assert ListedAt(mac, ps, nodes[a], i, k);
  }

  /** A pool lists only nodes of the cluster that belong to it. */
  lemma OnlyNodesListed(mac: Mac, ps: seq<Pool>, nodes: seq<KubeNode>, i: nat, k: nat)
    requires PoolsOf(mac, ps, nodes) && i < |ps| && k < |ps[i].nodes|
    ensures exists a :: 0 <= a < |nodes| && ListedAt(mac, ps, nodes[a], i, k)
  {
    hide PoolName, Home, Describes, Group, Detailed, SortedBy;
    SameMembers(ps[i].nodes, Group(mac, nodes, ps[i].name));
    var a := GroupOnly(mac, nodes, ps[i].name, ps[i].nodes[k]);
    HomeIsPool(nodes[a]);
    DetailedDescribes(mac, nodes[a]);
    assert ListedAt(mac, ps, nodes[a], i, k);
  }

  // ----- totals -----

  /** What a node has of a resource. */
  function Has(name: string): KubeNode -> int {
    (n: KubeNode) => if name in n.allocatable && n.allocatable[name] > 0 then n.allocatable[name] else 0
  }

  function HasUsable(name: string): KubeNode -> int {
    (n: KubeNode) => if n.unschedulable || HealthOf(n) != Healthy then 0 else Has(name)(n)
  }

  lemma {:induction false} SameTotal<T>(s: seq<T>, v: T -> int, w: T -> int)
    requires forall x :: x in s ==> v(x) == w(x)
    ensures Total(s, v) == Total(s, w)
    decreases |s|
  {
    if s != [] {
      assert s == s[..|s| - 1] + [s[|s| - 1]];
      SameTotal(s[..|s| - 1], v, w);
    }
  }

  lemma {:induction false} NoTotal<T>(s: seq<T>)
    ensures Total(s, (x: T) => 0) == 0
    decreases |s|
  {
    if s != [] { NoTotal(s[..|s| - 1]); }
  }

  /** Listed are whole GPUs and MIG slices that some node has, with the sums over all and over usable nodes. */
  lemma ResourcesShown(rs: seq<Resource>, nodes: seq<KubeNode>, name: string)
    requires ResourcesOf(rs, nodes)
    ensures (exists i :: 0 <= i < |rs| && rs[i].name == name) <==>
      (name == "nvidia.com/gpu" || "nvidia.com/mig-" <= name) && Total(nodes, Has(name)) > 0
    ensures forall i :: 0 <= i < |rs| && rs[i].name == name ==>
      rs[i].allocatable == Total(nodes, Has(name)) && rs[i].schedulable == Total(nodes, HasUsable(name))
  {
    hide HealthOf, Total;
    if name == "nvidia.com/gpu" || "nvidia.com/mig-" <= name {
      SameTotal(nodes, OfferedOf(name), Has(name));
      SameTotal(nodes, SchedulableOf(name), HasUsable(name));
    } else {
      SameTotal(nodes, OfferedOf(name), (n: KubeNode) => 0);
      NoTotal(nodes);
    }
  }
}
