/** The pools of a published report: states travel as text, and the hub reads them back. */
module Decoder {
  import opened Basics
  import opened Snapshots

  datatype WireDevice = WireDevice(
    key: string, resourceClass: string, model: string, memoryMiB: int, mode: string,
    health: string, allocatable: bool, traits: Traits)
  datatype WireNode = WireNode(
    key: string, management: string, health: string, schedulable: bool, traits: Traits, devices: seq<WireDevice>)
  datatype WirePool = WirePool(name: string, management: string, nodes: seq<WireNode>)

  function ManagementName(m: Management): string {
    match m
    case Enabled => "enabled"
    case Disabled => "disabled"
    case Draining => "draining"
    case Maintenance => "maintenance"
    case Quarantined => "quarantined"
  }

  function HealthName(h: Health): string {
    match h
    case Healthy => "healthy"
    case Degraded => "degraded"
    case Unreachable => "unreachable"
    case Failing => "failed"
    case Unknown => "unknown"
  }

  function ManagementOf(name: string): (r: Option<Management>)
    ensures forall m :: ManagementName(m) == name <==> r == Some(m)
  {
    if name == "enabled" then Some(Enabled)
    else if name == "disabled" then Some(Disabled)
    else if name == "draining" then Some(Draining)
    else if name == "maintenance" then Some(Maintenance)
    else if name == "quarantined" then Some(Quarantined)
    else None
  }

  function HealthOf(name: string): (r: Option<Health>)
    ensures forall h :: HealthName(h) == name <==> r == Some(h)
  {
    if name == "healthy" then Some(Healthy)
    else if name == "degraded" then Some(Degraded)
    else if name == "unreachable" then Some(Unreachable)
    else if name == "failed" then Some(Failing)
    else if name == "unknown" then Some(Unknown)
    else None
  }

  /** The texts that are states, and no others. */
  lemma StatesAsText(name: string)
    ensures ManagementOf("enabled") == Some(Enabled) && ManagementOf("disabled") == Some(Disabled)
    ensures ManagementOf("draining") == Some(Draining) && ManagementOf("maintenance") == Some(Maintenance)
    ensures ManagementOf("quarantined") == Some(Quarantined)
    ensures ManagementOf(name).Some? ==> name in {"enabled", "disabled", "draining", "maintenance", "quarantined"}
    ensures HealthOf("healthy") == Some(Healthy) && HealthOf("degraded") == Some(Degraded)
    ensures HealthOf("unreachable") == Some(Unreachable) && HealthOf("failed") == Some(Failing)
    ensures HealthOf("unknown") == Some(Unknown)
    ensures HealthOf(name).Some? ==> name in {"healthy", "degraded", "unreachable", "failed", "unknown"}
  {
  }

  // ----- what is published -----

  function Each<T, W>(s: seq<T>, on: T -> W): seq<W> {
    seq(|s|, i requires 0 <= i < |s| => on(s[i]))
  }

  function DeviceOnWire(d: Device): WireDevice {
    WireDevice(d.key, d.resourceClass, d.model, d.memoryMiB, d.mode, HealthName(d.health), d.allocatable, d.traits)
  }

  function NodeOnWire(n: Node): WireNode {
    WireNode(n.key, ManagementName(n.management), HealthName(n.health), n.schedulable, n.traits,
             Each(n.devices, DeviceOnWire))
  }

  function PoolOnWire(p: Pool): WirePool {
    WirePool(p.name, ManagementName(p.management), Each(p.nodes, NodeOnWire))
  }

  // ----- reading it back -----

  /** `r` is the one value that is published as `w`, or there is none. */
  ghost predicate ReadsTo<T(!new), W>(w: W, r: Option<T>, on: T -> W) {
    && (r.Some? ==> on(r.value) == w)
    && forall x :: on(x) == w ==> r == Some(x)
  }

  lemma AllRead<T(!new), W>(ws: seq<W>, xs: seq<T>, on: T -> W)
    requires |xs| == |ws| && forall k :: 0 <= k < |ws| ==> ReadsTo(ws[k], Some(xs[k]), on)
    ensures Each(xs, on) == ws
    ensures forall ys :: Each(ys, on) == ws ==> ys == xs
  {
    assert forall k :: 0 <= k < |ws| ==> ReadsTo(ws[k], Some(xs[k]), on) ==> on(xs[k]) == ws[k];
    forall ys | Each(ys, on) == ws ensures ys == xs {
      forall k | 0 <= k < |ws| ensures k < |ys| && ys[k] == xs[k] {
        assert Each(ys, on)[k] == on(ys[k]) && ReadsTo(ws[k], Some(xs[k]), on);
      }
    }
  }

  lemma OneUnread<T(!new), W>(ws: seq<W>, k: nat, on: T -> W)
    requires k < |ws| && ReadsTo(ws[k], None, on)
    ensures forall ys :: Each(ys, on) != ws
  {
    forall ys ensures Each(ys, on) != ws {
      if k < |ys| { assert Each(ys, on)[k] == on(ys[k]); }
    }
  }

  method DecodeDevice(w: WireDevice) returns (r: Option<Device>)
    ensures ReadsTo(w, r, DeviceOnWire)
  {
    var health := HealthOf(w.health);
    if health.None? { return None; }
    return Some(Device(w.key, w.resourceClass, w.model, w.memoryMiB, w.mode, health.value, w.allocatable, w.traits));
  }

  method DecodeNode(w: WireNode) returns (r: Option<Node>)
    ensures ReadsTo(w, r, NodeOnWire)
  {
    var devices: seq<Device> := [];
    for b := 0 to |w.devices|
      invariant |devices| == b
      invariant forall k :: 0 <= k < b ==> ReadsTo(w.devices[k], Some(devices[k]), DeviceOnWire)
    {
      var d := DecodeDevice(w.devices[b]);
      if d.None? {
        OneUnread(w.devices, b, DeviceOnWire);
        return None;
      }
      devices := devices + [d.value];
    }
    AllRead(w.devices, devices, DeviceOnWire);
    var management, health := ManagementOf(w.management), HealthOf(w.health);
    if management.None? || health.None? { return None; }
    return Some(Node(w.key, management.value, health.value, w.schedulable, w.traits, devices));
  }

  method DecodePool(w: WirePool) returns (r: Option<Pool>)
    ensures ReadsTo(w, r, PoolOnWire)
  {
    var nodes: seq<Node> := [];
    for a := 0 to |w.nodes|
      invariant |nodes| == a
      invariant forall k :: 0 <= k < a ==> ReadsTo(w.nodes[k], Some(nodes[k]), NodeOnWire)
    {
      var n := DecodeNode(w.nodes[a]);
      if n.None? {
        OneUnread(w.nodes, a, NodeOnWire);
        return None;
      }
      nodes := nodes + [n.value];
    }
    AllRead(w.nodes, nodes, NodeOnWire);
    var management := ManagementOf(w.management);
    if management.None? { return None; }
    return Some(Pool(w.name, management.value, nodes));
  }

  /**
   Reading is the inverse of publishing: it yields exactly the pools that were published, and is refused exactly
   for text that no pools are published as: a state without such a name.
   */
  method DecodePools(wire: seq<WirePool>) returns (r: Option<seq<Pool>>)
    ensures r.Some? ==> Each(r.value, PoolOnWire) == wire
    ensures forall ps :: Each(ps, PoolOnWire) == wire ==> r == Some(ps)
  {
    var pools: seq<Pool> := [];
    for i := 0 to |wire|
      invariant |pools| == i
      invariant forall k :: 0 <= k < i ==> ReadsTo(wire[k], Some(pools[k]), PoolOnWire)
    {
      var p := DecodePool(wire[i]);
      if p.None? {
        OneUnread(wire, i, PoolOnWire);
        return None;
      }
      pools := pools + [p.value];
    }
    AllRead(wire, pools, PoolOnWire);
    return Some(pools);
  }
}
