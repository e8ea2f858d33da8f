/**
 Registered clusters, the reports they accept, and the capacity pools and placements that live on
 their node pools. Each transaction is one atomic step.
 */
module Fleet {
  import opened Basics
  import opened Text
  import opened Sums
  import opened Snapshots
  import opened Catalog

  datatype Observation = Observation(
    generation: nat, epoch: Option<string>, sequence: int, source: Option<string>,
    lastHeartbeat: Option<int>, lastInventory: Option<int>, revision: nat)

  datatype Cluster = Cluster(seen: Observation, tables: Tables)

  datatype CapacityPool = CapacityPool(
    cluster: string, nodePool: string, profile: string,
    total: int, reserved: int, granted: int, enabled: bool, generation: nat)

  // No statement of the control plane moves a placement out of "reserved".
  datatype Placement = Placement(pool: string, quantity: int)

  datatype State = State(
    clusters: map<string, Cluster>,
    profiles: map<string, int>,
    capacity: map<string, CapacityPool>,
    placements: map<string, Placement>)

  const INITIAL := State(map[], map[], map[], map[])

  // Times are nanoseconds since the zero time, which stands for a missing one.
  const ZERO_TIME := 0

  datatype Fencing = Fencing(token: string, enabled: bool)
  datatype Heartbeat = Heartbeat(epoch: string, sequence: int, fencing: Fencing, observedAt: int)
  datatype Report = Report(
    epoch: string, sequence: int, fencing: Fencing, observedAt: int, source: string, pools: seq<Pool>)

  datatype Outcome = Ok | NotFound | Invalid | Conflict | GenerationConflict | StaleReport | NoCapacity

  // ----- validation -----

  predicate ValidHeartbeat(h: Heartbeat) {
    && 8 <= |h.epoch| <= 128 && 1 <= h.sequence <= MAX_INT64
    && |h.fencing.token| <= 255 && (h.fencing.enabled ==> !Blank(h.fencing.token))
    && h.observedAt != ZERO_TIME
  }

  function HeartbeatOf(r: Report): Heartbeat {
    Heartbeat(r.epoch, r.sequence, r.fencing, r.observedAt)
  }

  predicate LowerHex(s: string) {
    forall i :: 0 <= i < |s| ==> '0' <= s[i] <= '9' || 'a' <= s[i] <= 'f'
  }

  ghost predicate ValidReport(r: Report) {
    ValidHeartbeat(HeartbeatOf(r)) && |r.source| == 64 && LowerHex(r.source) && ValidPools(r.pools)
  }

  // ----- reports -----

  const NEVER_SEEN := Observation(0, None, 0, None, None, None, 1)

  function DoCreateCluster(s: State, id: string): (State, Outcome) {
    if id in s.clusters then (s, Conflict)
    else (s.(clusters := s.clusters[id := Cluster(NEVER_SEEN, EMPTY)]), Ok)
  }

  predicate Replayed(o: Observation, epoch: string, sequence: int) {
    o.epoch == Some(epoch) && sequence <= o.sequence
  }

  predicate Older(observedAt: int, last: Option<int>) {
    last.Some? && observedAt < last.value
  }

  function DoHeartbeat(s: State, id: string, h: Heartbeat): (State, Outcome) {
    if !ValidHeartbeat(h) then (s, Invalid)
    else if id !in s.clusters then (s, NotFound)
    else
      var o := s.clusters[id].seen;
      if Replayed(o, h.epoch, h.sequence) || Older(h.observedAt, o.lastHeartbeat) then (s, StaleReport)
      else
        var o' := o.(epoch := Some(h.epoch), sequence := h.sequence, lastHeartbeat := Some(h.observedAt),
                     revision := o.revision + 1);
        (s.(clusters := s.clusters[id := s.clusters[id].(seen := o')]), Ok)
  }

  function Observed(o: Observation, r: Report, generation: nat): Observation {
    Observation(generation, Some(r.epoch), r.sequence, Some(r.source),
                Some(r.observedAt), Some(r.observedAt), o.revision + 1)
  }

  function Max(a: int, b: int): int {
    if a < b then b else a
  }

  function RefreshedCapacity(capacity: map<string, CapacityPool>, profiles: map<string, int>, id: string, t: Tables)
    : map<string, CapacityPool>
    requires forall p :: p in profiles ==> profiles[p] > 0
  {
    map k | k in capacity ::
      var cp := capacity[k];
      if cp.cluster == id && cp.profile in profiles && cp.nodePool in t.poolTotals then
        cp.(total := Max(t.poolTotals[cp.nodePool].total / profiles[cp.profile], cp.reserved + cp.granted),
            generation := cp.generation + 1)
      else cp
  }

  predicate SaneProfiles(s: State) {
    forall p :: p in s.profiles ==> 1 <= s.profiles[p] <= 64
  }

  /** Why a report may not be applied; Ok when it may. */
  ghost function Refusal(s: State, id: string, expected: int, r: Report): Outcome {
    if expected < 0 || !ValidReport(r) then Invalid
    else if id !in s.clusters then NotFound
    else
      var o := s.clusters[id].seen;
      if o.generation != expected then GenerationConflict
      else if Replayed(o, r.epoch, r.sequence) then StaleReport
      else if Older(r.observedAt, o.lastInventory) then StaleReport
      else Ok
  }

  ghost function Rewrite(s: State, id: string, r: Report): State
    requires SaneProfiles(s) && id in s.clusters
  {
    var c := s.clusters[id];
    var tables := Rewritten(c.tables, c.seen.generation + 1, r.pools);
    s.(clusters := s.clusters[id := Cluster(Observed(c.seen, r, c.seen.generation + 1), tables)],
       capacity := RefreshedCapacity(s.capacity, s.profiles, id, tables))
  }

  /** An unchanged source generation only refreshes the observation. */
  function Touch(s: State, id: string, r: Report): State
    requires id in s.clusters
  {
    var c := s.clusters[id];
    s.(clusters := s.clusters[id := c.(seen := Observed(c.seen, r, c.seen.generation))])
  }

  ghost function DoReplace(s: State, id: string, expected: int, r: Report): (State, Outcome)
    requires SaneProfiles(s)
  {
    var refusal := Refusal(s, id, expected, r);
    if refusal != Ok then (s, refusal)
    else if s.clusters[id].seen.source == Some(r.source) then (Touch(s, id, r), Ok)
    else (Rewrite(s, id, r), Ok)
  }

  // ----- when a report is accepted, and what it then records -----

  /** Epoch and sequence as they were reported; heartbeats and inventories of one agent count together. */
  predicate Newer(o: Observation, epoch: string, sequence: int) {
    o.epoch == Some(epoch) ==> sequence > o.sequence
  }

  predicate FieldsOk(epoch: string, sequence: int, fencing: Fencing, observedAt: int) {
    && 8 <= |epoch| <= 128 && 1 <= sequence < 0x8000_0000_0000_0000
    && |fencing.token| <= 255 && (fencing.enabled ==> Trim(fencing.token) != "")
    && observedAt != 0
  }

  /**
   A heartbeat is accepted exactly if its fields are in range, its cluster is known, it is the agent's first of a
   new epoch or has a larger sequence, and it was not observed before the last one. It is then what was seen last.
   */
  lemma HeartbeatAcceptedIff(s: State, id: string, h: Heartbeat)
    ensures var (s', r) := DoHeartbeat(s, id, h);
      && (r == Ok <==>
            && FieldsOk(h.epoch, h.sequence, h.fencing, h.observedAt) && id in s.clusters
            && var o := s.clusters[id].seen;
               && Newer(o, h.epoch, h.sequence)
               && (o.lastHeartbeat.Some? ==> h.observedAt >= o.lastHeartbeat.value))
      && (r == Ok ==> id in s'.clusters && var o, o' := s.clusters[id].seen, s'.clusters[id].seen;
            && o'.epoch == Some(h.epoch) && o'.sequence == h.sequence && o'.lastHeartbeat == Some(h.observedAt)
            && o'.generation == o.generation && o'.source == o.source && o'.lastInventory == o.lastInventory
            && o'.revision == o.revision + 1
            && s'.clusters[id].tables == s.clusters[id].tables && s'.clusters - {id} == s.clusters - {id}
            && s' == s.(clusters := s'.clusters))
      && (r != Ok ==> s' == s)
      && (r == Invalid <==> !FieldsOk(h.epoch, h.sequence, h.fencing, h.observedAt))
      && (r == NotFound <==> r != Invalid && id !in s.clusters) && r in {Ok, Invalid, NotFound, StaleReport}
  {
  }

  /**
   A replacement is accepted exactly if its fields, digest and pools are in order, its cluster is known at the
   expected generation, it is as new as a heartbeat would have to be, and it was not observed before the last
   inventory. It is then what was seen last, at the next generation if its content is new.
   */
  lemma ReplacementAcceptedIff(s: State, id: string, expected: int, r: Report)
    requires SaneProfiles(s)
    ensures var (s', out) := DoReplace(s, id, expected, r);
      && (out == Ok <==>
            && FieldsOk(r.epoch, r.sequence, r.fencing, r.observedAt)
            && |r.source| == 64 && (forall i :: 0 <= i < 64 ==> r.source[i] in "0123456789abcdef")
            && ValidPools(r.pools) && id in s.clusters
            && var o := s.clusters[id].seen;
               && expected == o.generation && Newer(o, r.epoch, r.sequence)
               && (o.lastInventory.Some? ==> r.observedAt >= o.lastInventory.value))
      && (out == Ok ==> id in s'.clusters && var o, o' := s.clusters[id].seen, s'.clusters[id].seen;
            && o'.epoch == Some(r.epoch) && o'.sequence == r.sequence && o'.source == Some(r.source)
            && o'.lastHeartbeat == o'.lastInventory == Some(r.observedAt)
            && o'.generation == (if o.source == Some(r.source) then o.generation else o.generation + 1)
            && o'.revision == o.revision + 1
            && s'.clusters - {id} == s.clusters - {id}
            && s'.profiles == s.profiles && s'.placements == s.placements
            && (o.source == Some(r.source) ==>
              s'.capacity == s.capacity && s'.clusters[id].tables == s.clusters[id].tables))
      && (out != Ok ==> s' == s)
      && (out == Invalid || id in s.clusters <==> out != NotFound)
      && (out == GenerationConflict <==>
            out != Invalid && id in s.clusters && expected != s.clusters[id].seen.generation)
      && out in {Ok, Invalid, NotFound, GenerationConflict, StaleReport}
  {
    HexDigits(r.source);
    hide Rewritten, ValidPools, LowerHex, RefreshedCapacity;
  }

  lemma HexDigits(s: string)
    ensures LowerHex(s) <==> forall i :: 0 <= i < |s| ==> s[i] in "0123456789abcdef"
  {
    var digits := "0123456789abcdef";
    forall i | 0 <= i < |s| ensures s[i] in digits <==> '0' <= s[i] <= '9' || 'a' <= s[i] <= 'f' {
      if '0' <= s[i] <= '9' { assert digits[s[i] as int - '0' as int] == s[i]; }
      if 'a' <= s[i] <= 'f' { assert digits[10 + s[i] as int - 'a' as int] == s[i]; }
    }
  }

  /** A restarted agent is heard at once, whatever sequence its predecessor had reached. */
  lemma RestartHeard(s: State, id: string, h: Heartbeat)
    requires FieldsOk(h.epoch, h.sequence, h.fencing, h.observedAt) && id in s.clusters
    requires s.clusters[id].seen.epoch != Some(h.epoch) && !Older(h.observedAt, s.clusters[id].seen.lastHeartbeat)
    ensures DoHeartbeat(s, id, h).1 == Ok
  {
    HeartbeatAcceptedIff(s, id, h);
  }

  // ----- capacity -----

  function DoCreateProfile(s: State, id: string, gpuCount: int): (State, Outcome) {
    if !(1 <= gpuCount <= 64) then (s, Invalid)
    else if id in s.profiles then (s, Conflict)
    else (s.(profiles := s.profiles[id := gpuCount]), Ok)
  }

  lemma ProfileCreatedIff(s: State, id: string, gpuCount: int)
    ensures var (s', o) := DoCreateProfile(s, id, gpuCount);
      && (o == Ok <==> 0 < gpuCount < 65 && id !in s.profiles)
      && s' == (if o == Ok then s.(profiles := s.profiles[id := gpuCount]) else s)
      && (o == Invalid <==> gpuCount < 1 || gpuCount > 64) && o in {Ok, Invalid, Conflict}
  {
  }

  function DoCreateCapacity(s: State, id: string, cluster: string, nodePool: string, profile: string)
    : (State, Outcome)
    requires SaneProfiles(s)
  {
    if cluster !in s.clusters || nodePool !in s.clusters[cluster].tables.pools || profile !in s.profiles
    then (s, NotFound)
    else if id in s.capacity then (s, Conflict)
    else
      var total := TotalOr0(s.clusters[cluster].tables.poolTotals, nodePool) / s.profiles[profile];
      (s.(capacity := s.capacity[id := CapacityPool(cluster, nodePool, profile, total, 0, 0, true, 1)]), Ok)
  }

  function Free(cp: CapacityPool): int {
    cp.total - cp.reserved - cp.granted
  }

  predicate Fits(capacity: map<string, CapacityPool>, visible: set<string>, profile: string, quantity: int, k: string) {
    k in visible && k in capacity && capacity[k].enabled && capacity[k].profile == profile
    && Free(capacity[k]) >= quantity
  }

  /** ORDER BY free DESC, id. */
  predicate Ahead(capacity: map<string, CapacityPool>, a: string, b: string)
    requires a in capacity && b in capacity
  {
    Free(capacity[a]) > Free(capacity[b]) || (Free(capacity[a]) == Free(capacity[b]) && Less(a, b))
  }

  ghost predicate Best(
    capacity: map<string, CapacityPool>, visible: set<string>, profile: string, quantity: int, k: string)
  {
    && Fits(capacity, visible, profile, quantity, k)
    && forall o :: Fits(capacity, visible, profile, quantity, o) && o != k ==> Ahead(capacity, k, o)
  }

  function Reserved(s: State, id: string, k: string, quantity: int): State
    requires k in s.capacity
  {
    var cp := s.capacity[k];
    s.(capacity := s.capacity[k := cp.(reserved := cp.reserved + quantity, generation := cp.generation + 1)],
       placements := s.placements[id := Placement(k, quantity)])
  }

  /** `visible` are the rows that no other transaction holds locked (SKIP LOCKED). */
  ghost function DoPlace(s: State, id: string, projectKnown: bool, profile: string, quantity: int, visible: set<string>)
    : (State, Outcome)
  {
    if !(1 <= quantity <= 1024) then (s, Invalid)
    else if !projectKnown then (s, NotFound)
    else if !exists k :: Best(s.capacity, visible, profile, quantity, k) then (s, NoCapacity)
    else if id in s.placements then (s, Conflict)
    else
      var k :| Best(s.capacity, visible, profile, quantity, k);
      (Reserved(s, id, k, quantity), Ok)
  }

  /** A capacity pool is created exactly for a known node pool and profile under a new ID: enabled and unused. */
  lemma CapacityCreatedIff(s: State, id: string, cluster: string, nodePool: string, profile: string)
    requires SaneProfiles(s)
    ensures var (s', o) := DoCreateCapacity(s, id, cluster, nodePool, profile);
      && (o == Ok <==>
            && cluster in s.clusters && nodePool in s.clusters[cluster].tables.pools && profile in s.profiles
            && id !in s.capacity)
      && (o == Ok ==>
            && s' == s.(capacity := s'.capacity) && s'.capacity.Keys == s.capacity.Keys + {id}
            && s'.capacity - {id} == s.capacity
            && var cp, t := s'.capacity[id], s.clusters[cluster].tables.poolTotals;
               && cp.cluster == cluster && cp.nodePool == nodePool && cp.profile == profile && cp.enabled
               && cp.reserved == 0 && cp.granted == 0 && cp.generation == 1
               && var units := if nodePool in t then t[nodePool].total else 0;
                  cp.total * s.profiles[profile] <= units < (cp.total + 1) * s.profiles[profile])
      && (o != Ok ==> s' == s)
      && (o == Conflict ==> id in s.capacity) && o in {Ok, NotFound, Conflict}
      && (o == NotFound <==>
            cluster !in s.clusters || nodePool !in s.clusters[cluster].tables.pools || profile !in s.profiles)
  {
    if cluster in s.clusters && profile in s.profiles {
      DivisionBounds(TotalOr0(s.clusters[cluster].tables.poolTotals, nodePool), s.profiles[profile]);
    }
  }

  lemma DivisionBounds(n: nat, d: nat)
    requires d > 0
    ensures (n / d) * d <= n < (n / d + 1) * d
  {
    assert n == (n / d) * d + n % d && (n / d + 1) * d == (n / d) * d + d;
  }

  lemma AheadTotal(capacity: map<string, CapacityPool>, a: string, b: string)
    requires a in capacity && b in capacity && a != b
    ensures Ahead(capacity, a, b) <==> !Ahead(capacity, b, a)
  {
    LessTotal(a, b);
  }

  lemma AheadTransitive(capacity: map<string, CapacityPool>, a: string, b: string, c: string)
    requires a in capacity && b in capacity && c in capacity
    requires Ahead(capacity, a, b) && Ahead(capacity, b, c)
    ensures Ahead(capacity, a, c)
  {
    if Less(a, b) && Less(b, c) { LessTransitive(a, b, c); }
  }

  lemma BestUnique(
    capacity: map<string, CapacityPool>, visible: set<string>, profile: string, quantity: int, a: string, b: string)
    requires Best(capacity, visible, profile, quantity, a) && Best(capacity, visible, profile, quantity, b)
    ensures a == b
  {
    if a != b { AheadTotal(capacity, a, b); }
  }

  /** The query finds a pool whenever some visible pool fits, and it is the best one. */
  method SelectPool(capacity: map<string, CapacityPool>, visible: set<string>, profile: string, quantity: int)
    returns (r: Option<string>)
    ensures r.Some? ==> Best(capacity, visible, profile, quantity, r.value)
    ensures r.None? ==> forall k :: !Fits(capacity, visible, profile, quantity, k)
  {
    r := None;
    var rest := visible;
    while rest != {}
      invariant rest <= visible
      invariant r.None? ==> forall k :: k in visible - rest ==> !Fits(capacity, visible, profile, quantity, k)
      invariant r.Some? ==> Best(capacity, visible - rest, profile, quantity, r.value)
      decreases |rest|
    {
      var k :| k in rest;
      rest := rest - {k};
      if Fits(capacity, visible, profile, quantity, k) {
        if r.None? || Ahead(capacity, k, r.value) {
          forall o | Fits(capacity, visible - rest, profile, quantity, o) && o != k ensures Ahead(capacity, k, o) {
            assert o in visible - rest - {k} && Fits(capacity, visible, profile, quantity, o);
            if r.Some? && o != r.value {
              assert Fits(capacity, visible - rest - {k}, profile, quantity, o);
              AheadTransitive(capacity, k, r.value, o);
            }
          }
          r := Some(k);
        } else {
          AheadTotal(capacity, k, r.value);
        }
      }
    }
    assert visible - rest == visible;
  }

  // ----- runs -----

  datatype Step =
    | CreateCluster(id: string)
    | CreateProfile(profile: string, gpuCount: int)
    | Beat(cluster: string, heartbeat: Heartbeat)
    | Replace(target: string, expected: int, report: Report)
    | CreateCapacity(cid: string, ccluster: string, nodePool: string, cprofile: string)
    | Place(pid: string, projectKnown: bool, pprofile: string, quantity: int, visible: set<string>)

  ghost function Do(s: State, step: Step): (r: (State, Outcome))
    requires SaneProfiles(s)
    ensures SaneProfiles(r.0)
  {
    match step
    case CreateCluster(id) => DoCreateCluster(s, id)
    case CreateProfile(id, n) => DoCreateProfile(s, id, n)
    case Beat(id, h) => DoHeartbeat(s, id, h)
    case Replace(id, expected, r) => DoReplace(s, id, expected, r)
    case CreateCapacity(id, c, np, p) => DoCreateCapacity(s, id, c, np, p)
    case Place(id, known, p, q, visible) => DoPlace(s, id, known, p, q, visible)
  }

  ghost function Run(s: State, steps: seq<Step>): (s': State)
    requires SaneProfiles(s)
    ensures SaneProfiles(s')
    decreases |steps|
  {
    if steps == [] then s else Run(Do(s, steps[0]).0, steps[1..])
  }

  // ----- invariants -----

  ghost predicate ClusterOk(c: Cluster) {
    && Sound(c.tables, c.seen.generation)
    && (c.seen.lastInventory.Some? ==>
          c.seen.lastHeartbeat.Some? && c.seen.lastInventory.value <= c.seen.lastHeartbeat.value)
    && (c.seen.source.None? ==> c.seen.generation == 0 && c.tables == EMPTY)
  }

  ghost function QuantityOn(k: string): Placement -> int {
    (p: Placement) => if p.pool == k then p.quantity else 0
  }

  /** What a capacity pool derives from: the inventory of its node pool and the profile's GPU count. */
  function Units(s: State, cp: CapacityPool): int
    requires cp.cluster in s.clusters && cp.profile in s.profiles && s.profiles[cp.profile] > 0
  {
    TotalOr0(s.clusters[cp.cluster].tables.poolTotals, cp.nodePool) / s.profiles[cp.profile]
  }

  ghost predicate CapacityOk(s: State, k: string)
    requires SaneProfiles(s) && k in s.capacity
  {
    var cp := s.capacity[k];
    && cp.cluster in s.clusters && cp.profile in s.profiles
    && cp.nodePool in s.clusters[cp.cluster].tables.pools
    && cp.granted == 0
    && cp.reserved == Sum(s.placements, QuantityOn(k))
    && cp.total == Max(Units(s, cp), cp.reserved + cp.granted)
  }

  ghost predicate Inv(s: State) {
    && SaneProfiles(s)
    && (forall id :: id in s.clusters ==> ClusterOk(s.clusters[id]))
    && (forall k :: k in s.capacity ==> CapacityOk(s, k))
    && (forall p :: p in s.placements ==> s.placements[p].pool in s.capacity && s.placements[p].quantity > 0)
  }

  lemma RewriteKeepsPools(t: Tables, g0: nat, gen: nat, ps: seq<Pool>)
    requires Sound(t, g0) && g0 < gen && ValidPools(ps)
    ensures var t' := Rewritten(t, gen, ps);
      Sound(t', gen) && t.pools.Keys <= t'.pools.Keys && t'.poolTotals.Keys == t'.pools.Keys
  {
    RewriteReflects(t, g0, gen, ps);
  }

  lemma RewriteCapacityOk(s: State, id: string, r: Report, k: string)
    requires SaneProfiles(s) && k in s.capacity && CapacityOk(s, k) && id in s.clusters
    requires var t, t' := s.clusters[id].tables, Rewrite(s, id, r).clusters[id].tables;
      t.pools.Keys <= t'.pools.Keys && t'.poolTotals.Keys == t'.pools.Keys
    ensures CapacityOk(Rewrite(s, id, r), k)
  {
    hide Rewritten;
  }

  lemma RewriteClusterOk(s: State, id: string, expected: int, r: Report)
    requires SaneProfiles(s) && Refusal(s, id, expected, r) == Ok && ClusterOk(s.clusters[id])
    ensures var c, c' := s.clusters[id], Rewrite(s, id, r).clusters[id];
      ClusterOk(c') && c.tables.pools.Keys <= c'.tables.pools.Keys
      && c'.tables.poolTotals.Keys == c'.tables.pools.Keys
  {
    hide Rewritten, Sound, ValidPools, RefreshedCapacity;
    var c := s.clusters[id];
    RewriteKeepsPools(c.tables, c.seen.generation, c.seen.generation + 1, r.pools);
  }

  lemma RewriteInv(s: State, id: string, expected: int, r: Report)
    requires Inv(s) && Refusal(s, id, expected, r) == Ok
    ensures Inv(Rewrite(s, id, r))
  {
    hide Rewritten, Sound, ValidPools, CapacityOk, ClusterOk;
    RewriteClusterOk(s, id, expected, r);
    var s' := Rewrite(s, id, r);
    forall k | k in s'.capacity ensures CapacityOk(s', k) {
      RewriteCapacityOk(s, id, r, k);
    }
  }

  lemma ReservedCapacityOk(s: State, id: string, k: string, quantity: int, j: string)
    requires SaneProfiles(s) && id !in s.placements && quantity > 0
    requires k in s.capacity && Free(s.capacity[k]) >= quantity
    requires j in s.capacity && CapacityOk(s, j)
    ensures CapacityOk(Reserved(s, id, k, quantity), j)
  {
    SumInsert(s.placements, QuantityOn(j), id, Placement(k, quantity));
  }

  lemma ReservedInv(s: State, id: string, k: string, quantity: int)
    requires Inv(s) && id !in s.placements && quantity > 0
    requires k in s.capacity && Free(s.capacity[k]) >= quantity
    ensures Inv(Reserved(s, id, k, quantity))
  {
    hide Sound, CapacityOk;
    var s' := Reserved(s, id, k, quantity);
    forall j | j in s'.capacity ensures CapacityOk(s', j) {
      ReservedCapacityOk(s, id, k, quantity, j);
    }
  }

  lemma PlaceInv(s: State, id: string, known: bool, profile: string, quantity: int, visible: set<string>)
    requires Inv(s)
    ensures Inv(DoPlace(s, id, known, profile, quantity, visible).0)
  {
    hide Sound, Inv, Reserved, Less;
    var (s', o) := DoPlace(s, id, known, profile, quantity, visible);
    if o == Ok {
      var k :| Best(s.capacity, visible, profile, quantity, k) && s' == Reserved(s, id, k, quantity);
      ReservedInv(s, id, k, quantity);
    }
  }

  lemma CreateCapacityInv(s: State, id: string, cluster: string, nodePool: string, profile: string)
    requires Inv(s)
    ensures Inv(DoCreateCapacity(s, id, cluster, nodePool, profile).0)
  {
    var (s', o) := DoCreateCapacity(s, id, cluster, nodePool, profile);
    hide ClusterOk, CapacityOk;
    if o == Ok {
      NewCapacityOk(s, id, cluster, nodePool, profile);
      CapacityAddedInv(s, id, s'.capacity[id]);
    }
  }

  lemma CapacityAddedInv(s: State, id: string, cp: CapacityPool)
    requires Inv(s) && id !in s.capacity && CapacityOk(s.(capacity := s.capacity[id := cp]), id)
    ensures Inv(s.(capacity := s.capacity[id := cp]))
  {
    hide ClusterOk, CapacityOk;
    var s' := s.(capacity := s.capacity[id := cp]);
    forall k | k in s.capacity ensures CapacityOk(s', k) { OtherCapacityOk(s, s', k); }
  }

  lemma NewCapacityOk(s: State, id: string, cluster: string, nodePool: string, profile: string)
    requires Inv(s) && DoCreateCapacity(s, id, cluster, nodePool, profile).1 == Ok
    ensures var s' := DoCreateCapacity(s, id, cluster, nodePool, profile).0;
      SaneProfiles(s') && id in s'.capacity && CapacityOk(s', id)
  {
    SumZero(s.placements, QuantityOn(id));
    hide ClusterOk, Sum;
  }

  /** A capacity pool depends on its own row, the placements, the profiles and the tables only. */
  lemma OtherCapacityOk(s: State, s': State, k: string)
    requires SaneProfiles(s) && SaneProfiles(s') && k in s.capacity && k in s'.capacity && CapacityOk(s, k)
    requires s'.clusters == s.clusters && s'.profiles == s.profiles && s'.placements == s.placements
    requires s'.capacity[k] == s.capacity[k]
    ensures CapacityOk(s', k)
  {
    hide Sum;
  }

  /** Steps that leave the tables, the capacity pools and the placements alone. */
  lemma ObservationInv(s: State, s': State)
    requires Inv(s) && SaneProfiles(s')
    requires s'.capacity == s.capacity && s'.placements == s.placements
    requires forall p :: p in s.profiles ==> p in s'.profiles && s'.profiles[p] == s.profiles[p]
    requires forall id :: id in s.clusters ==> id in s'.clusters && s'.clusters[id].tables == s.clusters[id].tables
    requires forall id :: id in s'.clusters ==> ClusterOk(s'.clusters[id])
    ensures Inv(s')
  {
    hide Sound;
    forall k | k in s'.capacity ensures CapacityOk(s', k) { assert CapacityOk(s, k); }
  }

  lemma EmptySound()
    ensures Sound(EMPTY, 0)
  {
  }

  lemma CreateClusterInv(s: State, id: string)
    requires Inv(s)
    ensures Inv(DoCreateCluster(s, id).0)
  {
    hide CapacityOk, Sound;
    EmptySound();
    ObservationInv(s, DoCreateCluster(s, id).0);
  }

  lemma CreateProfileInv(s: State, id: string, gpuCount: int)
    requires Inv(s)
    ensures Inv(DoCreateProfile(s, id, gpuCount).0)
  {
    hide CapacityOk, Sound;
    ObservationInv(s, DoCreateProfile(s, id, gpuCount).0);
  }

  lemma SeenInv(s: State, id: string, seen: Observation)
    requires Inv(s) && id in s.clusters && ClusterOk(s.clusters[id].(seen := seen))
    ensures Inv(s.(clusters := s.clusters[id := s.clusters[id].(seen := seen)]))
  {
    hide ClusterOk, CapacityOk;
    ObservationInv(s, s.(clusters := s.clusters[id := s.clusters[id].(seen := seen)]));
  }

  lemma HeartbeatClusterOk(c: Cluster, h: Heartbeat)
    requires ClusterOk(c) && !Older(h.observedAt, c.seen.lastHeartbeat)
    ensures var seen := c.seen.(epoch := Some(h.epoch), sequence := h.sequence, lastHeartbeat := Some(h.observedAt),
                                revision := c.seen.revision + 1);
      ClusterOk(c.(seen := seen))
  {
    hide Sound;
  }

  lemma HeartbeatInv(s: State, id: string, h: Heartbeat)
    requires Inv(s)
    ensures Inv(DoHeartbeat(s, id, h).0)
  {
    hide ClusterOk, CapacityOk, ValidHeartbeat, Replayed, Older;
    var (s', o) := DoHeartbeat(s, id, h);
    if o == Ok {
      HeartbeatClusterOk(s.clusters[id], h);
      SeenInv(s, id, s'.clusters[id].seen);
    }
  }

  lemma ReplaceInv(s: State, id: string, expected: int, r: Report)
    requires Inv(s)
    ensures Inv(DoReplace(s, id, expected, r).0)
  {
    hide Sound, Rewrite, ValidReport, CapacityOk;
    var s' := DoReplace(s, id, expected, r).0;
    if Refusal(s, id, expected, r) == Ok {
      if s.clusters[id].seen.source == Some(r.source) {
        ObservationInv(s, s');
      } else {
        RewriteInv(s, id, expected, r);
      }
    }
  }

  lemma StepInv(s: State, step: Step)
    requires Inv(s)
    ensures Inv(Do(s, step).0)
  {
    hide Inv, DoCreateCluster, DoCreateProfile, DoHeartbeat, DoReplace, DoCreateCapacity, DoPlace;
    match step
    case CreateCluster(id) => CreateClusterInv(s, id);
    case CreateProfile(id, n) => CreateProfileInv(s, id, n);
    case Beat(id, h) => HeartbeatInv(s, id, h);
    case Replace(id, expected, r) => ReplaceInv(s, id, expected, r);
    case CreateCapacity(id, c, np, p) => CreateCapacityInv(s, id, c, np, p);
    case Place(id, known, p, q, visible) => PlaceInv(s, id, known, p, q, visible);
  }

  /** The capacity and report invariants hold over every run. */
  lemma {:induction false} RunInv(s: State, steps: seq<Step>)
    requires Inv(s)
    ensures Inv(Run(s, steps))
    decreases |steps|
  {
    if steps != [] {
      StepInv(s, steps[0]);
      RunInv(Do(s, steps[0]).0, steps[1..]);
    }
  }

  /** In every reachable state no capacity pool is overcommitted. */
  lemma ReachableCapacity(steps: seq<Step>, k: string)
    ensures var s := Run(INITIAL, steps);
      k in s.capacity ==>
        && CapacityOk(s, k)
        && 0 <= s.capacity[k].reserved
        && s.capacity[k].reserved + s.capacity[k].granted <= s.capacity[k].total
  {
    RunInv(INITIAL, steps);
    var s := Run(INITIAL, steps);
    SumNonNegative(s.placements, QuantityOn(k));
  }

  // ----- ingestion over runs -----

  lemma {:induction false} RunAppend(s: State, a: seq<Step>, b: seq<Step>)
    requires SaneProfiles(s)
    ensures Run(s, a + b) == Run(Run(s, a), b)
    decreases |a|
  {
    if a == [] {
      assert a + b == b;
    } else {
      RunAppend(Do(s, a[0]).0, a[1..], b);
      assert (a + b)[1..] == a[1..] + b;
    }
  }

  /** Whatever happened before, a report that took the rewrite path leaves exactly its own totals. */
  lemma RewriteStepReflects(steps: seq<Step>, id: string, expected: int, r: Report)
    requires var s := Run(INITIAL, steps);
      Refusal(s, id, expected, r) == Ok && s.clusters[id].seen.source != Some(r.source)
    ensures var s' := Run(INITIAL, steps + [Replace(id, expected, r)]);
      id in s'.clusters && Reflects(s'.clusters[id].tables, r.pools) && LevelsAddUp(s'.clusters[id].tables)
  {
    var s := Run(INITIAL, steps);
    RunInv(INITIAL, steps);
    RunAppend(INITIAL, steps, [Replace(id, expected, r)]);
    assert Run(s, [Replace(id, expected, r)]) == Do(s, Replace(id, expected, r)).0;
    hide Inv, Run, Reflects, LevelsAddUp, Do;
    RewriteReflectsNow(s, id, expected, r);
  }

  lemma RewriteReflectsNow(s: State, id: string, expected: int, r: Report)
    requires Inv(s) && Refusal(s, id, expected, r) == Ok && s.clusters[id].seen.source != Some(r.source)
    ensures var s' := Do(s, Replace(id, expected, r)).0;
      id in s'.clusters && Reflects(s'.clusters[id].tables, r.pools) && LevelsAddUp(s'.clusters[id].tables)
  {
    hide Rewritten, Sound, Reflects, LevelsAddUp, TotalsOfRows, CapacityOk, ValidPools;
    var c := s.clusters[id];
    RewriteReflects(c.tables, c.seen.generation, c.seen.generation + 1, r.pools);
    TotalsAddUp(Rewritten(c.tables, c.seen.generation + 1, r.pools), c.seen.generation + 1);
  }

  /** `content` reads a source generation back: equal digests mean equal pools. */
  ghost predicate Digested(content: string -> seq<Pool>, step: Step) {
    step.Replace? ==> step.report.pools == content(step.report.source)
  }

  /** The catalog holds the content that the cluster's source generation stands for. */
  ghost predicate Current(s: State, content: string -> seq<Pool>) {
    forall id :: id in s.clusters && s.clusters[id].seen.source.Some? ==>
      var c := s.clusters[id];
      Holds(c.tables, c.seen.generation, content(c.seen.source.value))
  }

  /** Only an accepted replacement of the cluster itself changes its tables or its source generation. */
  lemma StepTables(s: State, step: Step, id: string)
    requires SaneProfiles(s) && id in Do(s, step).0.clusters
    ensures var c' := Do(s, step).0.clusters[id];
      if step.Replace? && step.target == id && Do(s, step).1 == Ok then
        && id in s.clusters && ValidPools(step.report.pools) && c'.seen.source == Some(step.report.source)
        && var c := s.clusters[id];
           (if c.seen.source == Some(step.report.source)
            then c'.tables == c.tables && c'.seen.generation == c.seen.generation
            else c'.seen.generation == c.seen.generation + 1
                 && c'.tables == Rewritten(c.tables, c.seen.generation + 1, step.report.pools))
      else if id in s.clusters then
        && c'.tables == s.clusters[id].tables && c'.seen.generation == s.clusters[id].seen.generation
        && c'.seen.source == s.clusters[id].seen.source
      else c'.seen.source == None
  {
    hide Rewritten, ValidPools, Best, RefreshedCapacity, Reserved;
    if step.Place? { PlaceKeepsClusters(s, step); }
  }

  lemma StepCurrent(s: State, content: string -> seq<Pool>, step: Step)
    requires Inv(s) && Current(s, content) && Digested(content, step)
    ensures Current(Do(s, step).0, content)
  {
    hide Rewritten, Do, CapacityOk, Sound, ValidPools;
    var s' := Do(s, step).0;
    forall id | id in s'.clusters && s'.clusters[id].seen.source.Some?
      ensures Holds(s'.clusters[id].tables, s'.clusters[id].seen.generation, content(s'.clusters[id].seen.source.value))
    {
      StepTables(s, step, id);
      if step.Replace? && step.target == id && Do(s, step).1 == Ok {
        var c := s.clusters[id];
        if c.seen.source != Some(step.report.source) {
          assert WrittenFrom(c.tables, c.seen.generation, c.seen.generation + 1, step.report.pools,
            s'.clusters[id].tables);
        }
      }
    }
  }

  lemma {:induction false} RunCurrent(s: State, content: string -> seq<Pool>, steps: seq<Step>)
    requires Inv(s) && Current(s, content)
    requires forall i :: 0 <= i < |steps| ==> Digested(content, steps[i])
    ensures Current(Run(s, steps), content)
    decreases |steps|
  {
    hide Do, Current, CapacityOk, ClusterOk;
    if steps != [] {
      StepInv(s, steps[0]);
      StepCurrent(s, content, steps[0]);
      RunCurrent(Do(s, steps[0]).0, content, steps[1..]);
    }
  }

  lemma ReachableCurrent(content: string -> seq<Pool>, steps: seq<Step>)
    requires forall i :: 0 <= i < |steps| ==> Digested(content, steps[i])
    ensures Inv(Run(INITIAL, steps)) && Current(Run(INITIAL, steps), content)
  {
    InitialCurrent(content);
    hide Inv, Current, Run, Digested;
    RunInv(INITIAL, steps);
    RunCurrent(INITIAL, content, steps);
  }

  lemma InitialCurrent(content: string -> seq<Pool>)
    ensures Inv(INITIAL) && Current(INITIAL, content)
  {
  }

  /** With an honest digest, every total follows the last accepted report even when it was skipped. */
  lemma TotalsFollowLastReport(content: string -> seq<Pool>, steps: seq<Step>, id: string)
    requires forall i :: 0 <= i < |steps| ==> Digested(content, steps[i])
    ensures var s := Run(INITIAL, steps);
      id in s.clusters && s.clusters[id].seen.source.Some? ==>
        && Reflects(s.clusters[id].tables, content(s.clusters[id].seen.source.value))
        && LevelsAddUp(s.clusters[id].tables)
  {
    RunCurrent(INITIAL, content, steps);
    var s := Run(INITIAL, steps);
    if id in s.clusters && s.clusters[id].seen.source.Some? {
      HoldsReflects(s.clusters[id].tables, s.clusters[id].seen.generation, content(s.clusters[id].seen.source.value));
    }
  }

  /** Equal source generations of the run and of `r` stand for equal content. */
  ghost predicate HonestWith(content: string -> seq<Pool>, steps: seq<Step>, r: Report) {
    r.pools == content(r.source) && forall i :: 0 <= i < |steps| ==> Digested(content, steps[i])
  }

  /** After an accepted report the catalog holds its content: written anew, or skipped under an honest digest. */
  lemma AcceptedReportHolds(content: string -> seq<Pool>, steps: seq<Step>, id: string, expected: int, r: Report)
    requires Refusal(Run(INITIAL, steps), id, expected, r) == Ok
    requires Run(INITIAL, steps).clusters[id].seen.source != Some(r.source) || HonestWith(content, steps, r)
    ensures var c := Do(Run(INITIAL, steps), Replace(id, expected, r)).0.clusters;
      id in c && Holds(c[id].tables, c[id].seen.generation, r.pools)
  {
    var s := Run(INITIAL, steps);
    assert SaneProfiles(INITIAL) && Inv(INITIAL);
    RunInv(INITIAL, steps);
    hide Run, Inv, Do, Holds, HonestWith;
    if s.clusters[id].seen.source != Some(r.source) {
      AcceptedRewriteHolds(s, id, expected, r);
    } else {
      HonestCurrent(content, steps, r);
      AcceptedSkipHolds(content, s, id, expected, r);
    }
  }

  lemma HonestCurrent(content: string -> seq<Pool>, steps: seq<Step>, r: Report)
    requires HonestWith(content, steps, r)
    ensures Current(Run(INITIAL, steps), content) && r.pools == content(r.source)
  {
    hide Run, Current, Inv;
    ReachableCurrent(content, steps);
  }

  lemma AcceptedSkipHolds(content: string -> seq<Pool>, s: State, id: string, expected: int, r: Report)
    requires SaneProfiles(s) && Refusal(s, id, expected, r) == Ok && s.clusters[id].seen.source == Some(r.source)
    requires Current(s, content) && r.pools == content(r.source)
    ensures var c := Do(s, Replace(id, expected, r)).0.clusters;
      id in c && Holds(c[id].tables, c[id].seen.generation, r.pools)
  {
    hide Rewrite, Holds, ValidReport;
  }

  lemma AcceptedRewriteHolds(s: State, id: string, expected: int, r: Report)
    requires Inv(s) && Refusal(s, id, expected, r) == Ok && s.clusters[id].seen.source != Some(r.source)
    ensures var c := Do(s, Replace(id, expected, r)).0.clusters;
      id in c && Holds(c[id].tables, c[id].seen.generation, r.pools)
  {
    hide Rewritten, Sound, CapacityOk, ValidPools;
    var c, c' := s.clusters[id], Do(s, Replace(id, expected, r)).0.clusters[id];
    assert WrittenFrom(c.tables, c.seen.generation, c'.seen.generation, r.pools, c'.tables);
  }

  // ----- the shortcut -----

  ghost predicate AlikeCapacity(a: map<string, CapacityPool>, b: map<string, CapacityPool>) {
    a.Keys == b.Keys && forall k :: k in a ==> a[k].(generation := 0) == b[k].(generation := 0)
  }

  lemma RefreshAgainAlike(s: State, id: string, r: Report)
    requires Inv(s) && id in s.clusters
    requires Alike(Rewrite(s, id, r).clusters[id].tables, s.clusters[id].tables)
    ensures AlikeCapacity(Rewrite(s, id, r).capacity, s.capacity)
  {
    RewriteKeepsKeys(s, id, r);
    hide Inv, Rewrite, Alike;
    var full := Rewrite(s, id, r);
    forall k | k in s.capacity ensures full.capacity[k].(generation := 0) == s.capacity[k].(generation := 0) {
      RefreshedAlike(s, id, r, k);
    }
  }

  lemma RewriteKeepsKeys(s: State, id: string, r: Report)
    requires SaneProfiles(s) && id in s.clusters
    ensures Rewrite(s, id, r).capacity.Keys == s.capacity.Keys
  {
    hide Rewritten;
  }

  lemma RefreshedAlike(s: State, id: string, r: Report, k: string)
    requires Inv(s) && id in s.clusters && k in s.capacity
    requires Alike(Rewrite(s, id, r).clusters[id].tables, s.clusters[id].tables)
    ensures k in Rewrite(s, id, r).capacity
    ensures Rewrite(s, id, r).capacity[k].(generation := 0) == s.capacity[k].(generation := 0)
  {
    hide Rewritten, Sound, AlikeRows, ClusterOk;
    assert CapacityOk(s, k);
  }

  /** The two states agree up to generation counters. */
  ghost predicate AlikeStates(a: State, b: State, id: string)
    requires id in a.clusters && id in b.clusters
  {
    && a.clusters[id].seen.(generation := 0) == b.clusters[id].seen.(generation := 0)
    && Alike(a.clusters[id].tables, b.clusters[id].tables)
    && a.clusters - {id} == b.clusters - {id}
    && AlikeCapacity(a.capacity, b.capacity)
    && a.placements == b.placements && a.profiles == b.profiles
  }

  lemma ShortcutAlike(s: State, content: string -> seq<Pool>, id: string, r: Report)
    requires Inv(s) && Current(s, content) && r.pools == content(r.source)
    requires id in s.clusters && s.clusters[id].seen.source == Some(r.source)
    ensures AlikeStates(Rewrite(s, id, r), Touch(s, id, r), id)
  {
    hide Rewritten, Sound, CapacityOk, Holds, Alike, RefreshedCapacity;
    var c := s.clusters[id];
    RewriteAgainAlike(c.tables, c.seen.generation, c.seen.generation + 1, r.pools);
    RefreshAgainAlike(s, id, r);
  }

  /**
   Skipping an unchanged report leaves what the full rewrite would leave, up to generation counters,
   in every reachable state: placements and new capacity pools in between included.
   */
  lemma ShortcutRefinesRewrite(content: string -> seq<Pool>, steps: seq<Step>, id: string, expected: int, r: Report)
    requires forall i :: 0 <= i < |steps| ==> Digested(content, steps[i])
    requires r.pools == content(r.source)
    requires var s := Run(INITIAL, steps);
      Refusal(s, id, expected, r) == Ok && s.clusters[id].seen.source == Some(r.source)
    ensures var s := Run(INITIAL, steps);
      DoReplace(s, id, expected, r) == (Touch(s, id, r), Ok)
      && AlikeStates(Rewrite(s, id, r), DoReplace(s, id, expected, r).0, id)
  {
    hide Inv, AlikeStates, Rewrite, ValidReport, Current, Run, Digested;
    ReachableCurrent(content, steps);
    ShortcutAlike(Run(INITIAL, steps), content, id, r);
  }

  // ----- report ordering -----

  ghost predicate Accepts(s: State, step: Step, id: string)
    requires SaneProfiles(s)
  {
    ((step.Beat? && step.cluster == id) || (step.Replace? && step.target == id)) && Do(s, step).1 == Ok
  }

  /** An accepted report: fresh for its epoch, not older than what it supersedes, and recorded. */
  ghost predicate SeenStep(o: Observation, o': Observation, step: Step) {
    match step
    case Beat(_, h) =>
      && !Replayed(o, h.epoch, h.sequence) && !Older(h.observedAt, o.lastHeartbeat)
      && o' == o.(epoch := Some(h.epoch), sequence := h.sequence, lastHeartbeat := Some(h.observedAt),
                  revision := o.revision + 1)
    case Replace(_, _, r) =>
      && !Replayed(o, r.epoch, r.sequence) && !Older(r.observedAt, o.lastInventory)
      && o' == Observed(o, r, if o.source == Some(r.source) then o.generation else o.generation + 1)
    case _ => false
  }

  lemma StepSeen(s: State, step: Step, id: string)
    requires SaneProfiles(s) && id in s.clusters
    ensures id in Do(s, step).0.clusters
    ensures if Accepts(s, step, id) then SeenStep(s.clusters[id].seen, Do(s, step).0.clusters[id].seen, step)
            else Do(s, step).0.clusters[id].seen == s.clusters[id].seen
  {
    hide Rewritten, ValidReport, Best, RefreshedCapacity, Reserved;
    if step.Place? {
      PlaceKeepsClusters(s, step);
    }
  }

  lemma PlaceKeepsClusters(s: State, step: Step)
    requires step.Place? && SaneProfiles(s)
    ensures Do(s, step).0.clusters == s.clusters
  {
    hide Less;
  }

  ghost predicate ChangesContent(s: State, step: Step, id: string)
    requires SaneProfiles(s)
  {
    step.Replace? && Accepts(s, step, id) && s.clusters[id].seen.source != Some(step.report.source)
  }

  function Stamp(step: Step): (string, int)
    requires step.Beat? || step.Replace?
  {
    if step.Beat? then (step.heartbeat.epoch, step.heartbeat.sequence) else (step.report.epoch, step.report.sequence)
  }

  /** Epoch and sequence of the reports of one cluster that a run accepts, in order. */
  ghost function AcceptedStamps(s: State, steps: seq<Step>, id: string): seq<(string, int)>
    requires SaneProfiles(s)
    decreases |steps|
  {
    if steps == [] then []
    else (if Accepts(s, steps[0], id) then [Stamp(steps[0])] else [])
         + AcceptedStamps(Do(s, steps[0]).0, steps[1..], id)
  }

  ghost function ContentChanges(s: State, steps: seq<Step>, id: string): nat
    requires SaneProfiles(s)
    decreases |steps|
  {
    if steps == [] then 0
    else (if ChangesContent(s, steps[0], id) then 1 else 0) + ContentChanges(Do(s, steps[0]).0, steps[1..], id)
  }

  predicate ClocksOk(o: Observation) {
    o.lastInventory.Some? ==> o.lastHeartbeat.Some? && o.lastInventory.value <= o.lastHeartbeat.value
  }

  /** `last_inventory_at` never goes back and never passes `last_heartbeat_at`. */
  lemma {:induction false} InventoryClockMonotone(s: State, steps: seq<Step>, id: string)
    requires SaneProfiles(s) && id in s.clusters && ClocksOk(s.clusters[id].seen)
    ensures id in Run(s, steps).clusters
    ensures var o, o' := s.clusters[id].seen, Run(s, steps).clusters[id].seen;
      && ClocksOk(o')
      && (o.lastInventory.Some? ==> o'.lastInventory.Some? && o.lastInventory.value <= o'.lastInventory.value)
    decreases |steps|
  {
    hide Do;
    if steps != [] {
      StepSeen(s, steps[0], id);
      InventoryClockMonotone(Do(s, steps[0]).0, steps[1..], id);
    }
  }

  /** The inventory generation counts the content changes, one each. */
  lemma {:induction false} GenerationCountsChanges(s: State, steps: seq<Step>, id: string)
    requires SaneProfiles(s) && id in s.clusters
    ensures id in Run(s, steps).clusters
    ensures Run(s, steps).clusters[id].seen.generation
         == s.clusters[id].seen.generation + ContentChanges(s, steps, id)
    decreases |steps|
  {
    hide Do;
    if steps != [] {
      StepSeen(s, steps[0], id);
      GenerationCountsChanges(Do(s, steps[0]).0, steps[1..], id);
    }
  }

  /**
   Compare and set: a replacement is accepted only at exactly the current generation, and once it changed
   the content no replacement that expects that generation, or an older one, is ever accepted again.
   */
  lemma CompareAndSet(s: State, id: string, expected: int, r: Report, steps: seq<Step>, older: int, later: Report)
    requires SaneProfiles(s) && ChangesContent(s, Replace(id, expected, r), id) && older <= expected
    ensures expected == s.clusters[id].seen.generation
    ensures var s' := Run(Do(s, Replace(id, expected, r)).0, steps); DoReplace(s', id, older, later).1 != Ok
  {
    hide Rewrite, Touch, ValidReport;
    var s1 := Do(s, Replace(id, expected, r)).0;
    StepSeen(s, Replace(id, expected, r), id);
    GenerationCountsChanges(s1, steps, id);
  }

  /** Consecutive accepted reports of one epoch strictly increase in sequence, heartbeats included. */
  lemma {:induction false} SequencesIncrease(s: State, steps: seq<Step>, id: string)
    requires SaneProfiles(s) && id in s.clusters
    ensures var l, o := AcceptedStamps(s, steps, id), s.clusters[id].seen;
      && (l != [] && o.epoch == Some(l[0].0) ==> o.sequence < l[0].1)
      && (forall i :: 0 <= i < |l| - 1 && l[i].0 == l[i + 1].0 ==> l[i].1 < l[i + 1].1)
    decreases |steps|
  {
    hide Do;
    if steps != [] {
      StepSeen(s, steps[0], id);
      SequencesIncrease(Do(s, steps[0]).0, steps[1..], id);
    }
  }

  /**
   A replacement is compared with the last inventory only, so it can move `last_heartbeat_at` back: exactly
   an accepted one that was observed before the last heartbeat. It never moves it behind the last inventory.
   */
  lemma HeartbeatRewindsIff(s: State, step: Step, id: string)
    requires SaneProfiles(s) && id in s.clusters
    ensures id in Do(s, step).0.clusters
    ensures var o, o' := s.clusters[id].seen, Do(s, step).0.clusters[id].seen;
      && (Rewound(o, o') <==>
            && step.Replace? && step.target == id && Refusal(s, id, step.expected, step.report) == Ok
            && Older(step.report.observedAt, o.lastHeartbeat))
      && (ClocksOk(o) && o.lastInventory.Some? ==>
            o'.lastHeartbeat.Some? && o.lastInventory.value <= o'.lastHeartbeat.value)
  {
    AcceptedIff(s, step, id);
    hide Do, Refusal;
    StepSeen(s, step, id);
  }

  lemma AcceptedIff(s: State, step: Step, id: string)
    requires SaneProfiles(s) && id in s.clusters
    ensures step.Replace? ==>
      (Accepts(s, step, id) <==> step.target == id && Refusal(s, id, step.expected, step.report) == Ok)
  {
    hide Rewrite, Touch, Refusal;
  }

  ghost predicate Rewound(o: Observation, o': Observation) {
    o.lastHeartbeat.Some? && (o'.lastHeartbeat.None? || o'.lastHeartbeat.value < o.lastHeartbeat.value)
  }

  const UNFENCED := Fencing("", false)
  const ZERO_DIGEST: string := seq(64, _ => '0')
  const EARLIER_REPORT := Report("agent-01", 2, UNFENCED, 10, ZERO_DIGEST, [])
  const HEARTBEAT_FIRST := [CreateCluster("c"), Beat("c", Heartbeat("agent-01", 1, UNFENCED, 20))]

  /** A heartbeat observed at 20, then a first inventory observed at 10: accepted, and the clock reads 10. */
  lemma ReplacementRewinds()
    ensures var s := Run(INITIAL, HEARTBEAT_FIRST);
      && "c" in s.clusters && s.clusters["c"].seen.lastHeartbeat == Some(20)
      && var (s', o) := Do(s, Replace("c", 0, EARLIER_REPORT));
         o == Ok && "c" in s'.clusters && s'.clusters["c"].seen.lastHeartbeat == Some(10)
  {
    var s1 := Do(INITIAL, HEARTBEAT_FIRST[0]).0;
    assert HEARTBEAT_FIRST[1..] == [HEARTBEAT_FIRST[1]];
    assert Run(s1, [HEARTBEAT_FIRST[1]]) == Do(s1, HEARTBEAT_FIRST[1]).0;
    EarlierReportValid();
    hide ValidReport, Rewritten, Run;
    assert "c" in Do(s1, HEARTBEAT_FIRST[1]).0.clusters;
  }

  lemma EarlierReportValid()
    ensures ValidReport(EARLIER_REPORT)
  {
  }
}
