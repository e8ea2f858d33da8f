/** The report, capacity and placement transactions, performed on the tables in place. */
module FleetStore {
  import opened Basics
  import opened Text
  import opened Snapshots
  import opened Catalog
  import opened Fleet
  import Ingestion

  method ValidateReport(r: Report) returns (ok: bool)
    ensures ok <==> ValidReport(r)
  {
    if !ValidHeartbeat(HeartbeatOf(r)) || |r.source| != 64 || !LowerHex(r.source) { return false; }
    ok := ValidatePools(r.pools);
  }

  class Store {
    var clusters: map<string, Cluster>
    var profiles: map<string, int>
    var capacity: map<string, CapacityPool>
    var placements: map<string, Placement>

    ghost function View(): State
      reads this
    {
      State(clusters, profiles, capacity, placements)
    }

    constructor ()
      ensures View() == INITIAL
    {
      clusters, profiles, capacity, placements := map[], map[], map[], map[];
    }

    method ObserveHeartbeat(id: string, h: Heartbeat) returns (o: Outcome)
      modifies this
      ensures (View(), o) == DoHeartbeat(old(View()), id, h)
      ensures o == Ok <==>
        && FieldsOk(h.epoch, h.sequence, h.fencing, h.observedAt) && id in old(clusters)
        && var seen := old(clusters)[id].seen;
           Newer(seen, h.epoch, h.sequence) && (seen.lastHeartbeat.Some? ==> h.observedAt >= seen.lastHeartbeat.value)
      ensures Inv(old(View())) ==> Inv(View())
    {
      hide Inv;
      HeartbeatAcceptedIff(View(), id, h);
      if Inv(View()) {
        HeartbeatInv(View(), id, h);
      }
      if !ValidHeartbeat(h) { return Invalid; }
      if id !in clusters { return NotFound; }
      var seen := clusters[id].seen;
      if seen.epoch == Some(h.epoch) && h.sequence <= seen.sequence { return StaleReport; }
      if seen.lastHeartbeat.Some? && h.observedAt < seen.lastHeartbeat.value { return StaleReport; }
      seen := seen.(epoch := Some(h.epoch), sequence := h.sequence);
      seen := seen.(lastHeartbeat := Some(h.observedAt), revision := seen.revision + 1);
      clusters := clusters[id := clusters[id].(seen := seen)];
      return Ok;
    }

    method ReplaceInventory(id: string, expected: int, r: Report) returns (o: Outcome)
      requires SaneProfiles(View())
      modifies this
      ensures (View(), o) == DoReplace(old(View()), id, expected, r)
      ensures o == Ok ==>
        && id in old(clusters) && expected == old(clusters)[id].seen.generation
        && Newer(old(clusters)[id].seen, r.epoch, r.sequence)
        && id in clusters && clusters[id].seen.source == Some(r.source)
      ensures Inv(old(View())) ==> Inv(View())
    {
      hide Inv, Rewritten, ValidReport, ValidPools, Sound, Reflects, LevelsAddUp, Observed, RefreshedCapacity;
      ReplacementAcceptedIff(View(), id, expected, r);
      if Inv(View()) {
        ReplaceInv(View(), id, expected, r);
      }
      var valid := ValidateReport(r);
      if expected < 0 || !valid { return Invalid; }
      if id !in clusters { return NotFound; }
      var c := clusters[id];
      if c.seen.generation != expected { return GenerationConflict; }
      if c.seen.epoch == Some(r.epoch) && r.sequence <= c.seen.sequence { return StaleReport; }
      if c.seen.lastInventory.Some? && r.observedAt < c.seen.lastInventory.value { return StaleReport; }
      if c.seen.source == Some(r.source) {
        clusters := clusters[id := c.(seen := Observed(c.seen, r, c.seen.generation))];
        return Ok;
      }
      var generation := c.seen.generation + 1;
      var rows := new Ingestion.ClusterCatalog(c.tables);
      rows.Replace(generation, r.pools, c.seen.generation);
      capacity := RefreshedCapacity(capacity, profiles, id, rows.View());
      clusters := clusters[id := Cluster(Observed(c.seen, r, generation), rows.View())];
      return Ok;
    }

    method CreateCapacityPool(id: string, cluster: string, nodePool: string, profile: string) returns (o: Outcome)
      requires SaneProfiles(View())
      modifies this
      ensures (View(), o) == DoCreateCapacity(old(View()), id, cluster, nodePool, profile)
      ensures Inv(old(View())) ==> Inv(View())
    {
      hide Inv;
      if Inv(View()) {
        CreateCapacityInv(View(), id, cluster, nodePool, profile);
      }
      if cluster !in clusters || profile !in profiles { return NotFound; }
      var tables := clusters[cluster].tables;
      if nodePool !in tables.pools { return NotFound; }
      if id in capacity { return Conflict; }
      var total := 0;
      if nodePool in tables.poolTotals { total := tables.poolTotals[nodePool].total / profiles[profile]; }
      capacity := capacity[id := CapacityPool(cluster, nodePool, profile, total, 0, 0, true, 1)];
      return Ok;
    }

    method CreatePlacement(id: string, projectKnown: bool, profile: string, quantity: int, visible: set<string>)
      returns (o: Outcome)
      modifies this
      ensures (View(), o) == DoPlace(old(View()), id, projectKnown, profile, quantity, visible)
      ensures Inv(old(View())) ==> Inv(View())
    {
      hide Inv, Less, Ahead;
      if Inv(View()) {
        PlaceInv(View(), id, projectKnown, profile, quantity, visible);
      }
      if quantity <= 0 || quantity > 1024 { return Invalid; }
      if !projectKnown { return NotFound; }
      var picked := SelectPool(capacity, visible, profile, quantity);
      if picked.None? { return NoCapacity; }
      if id in placements { return Conflict; }
      var k := picked.value;
      forall j | Best(capacity, visible, profile, quantity, j) ensures j == k {
        BestUnique(capacity, visible, profile, quantity, j, k);
      }
      capacity := capacity[k := capacity[k].(reserved := capacity[k].reserved + quantity,
                                             generation := capacity[k].generation + 1)];
      placements := placements[id := Placement(k, quantity)];
      return Ok;
    }
  }

  /** A placement is refused for capacity exactly when no visible pool fits, and it lands on the best one. */
  lemma PlacementChoice(s: State, id: string, profile: string, quantity: int, visible: set<string>)
    requires 1 <= quantity <= 1024 && id !in s.placements
    ensures var (s', o) := DoPlace(s, id, true, profile, quantity, visible);
      && (o == NoCapacity <==> forall k :: !Fits(s.capacity, visible, profile, quantity, k))
      && (o == Ok ==> id in s'.placements && Best(s.capacity, visible, profile, quantity, s'.placements[id].pool)
                      && s'.placements[id].quantity == quantity)
  {
    hide Less, Ahead;
    if exists k :: Fits(s.capacity, visible, profile, quantity, k) {
      BestExists(s.capacity, visible, profile, quantity);
    }
  }

  /** An accepted placement takes its quantity from one enabled pool of the profile that had room, and no other. */
  lemma PlacementMade(s: State, id: string, projectKnown: bool, profile: string, quantity: int, visible: set<string>)
    requires DoPlace(s, id, projectKnown, profile, quantity, visible).1 == Ok
    ensures var s' := DoPlace(s, id, projectKnown, profile, quantity, visible).0;
      && projectKnown && 1 <= quantity <= 1024 && id !in s.placements
      && id in s'.placements && s'.placements - {id} == s.placements && s'.placements[id].quantity == quantity
      && s'.clusters == s.clusters && s'.profiles == s.profiles
      && var k := s'.placements[id].pool;
         && k in visible && k in s.capacity && k in s'.capacity && s'.capacity - {k} == s.capacity - {k}
         && s.capacity[k].enabled && s.capacity[k].profile == profile
         && s.capacity[k].reserved + s.capacity[k].granted + quantity <= s.capacity[k].total
         && s'.capacity[k] == s.capacity[k].(reserved := s.capacity[k].reserved + quantity,
                                             generation := s.capacity[k].generation + 1)
  {
    hide Less, Ahead;
  }

  /** A new pool takes placements at once, up to its units. */
  lemma NewPoolPlaces(
    s: State, pool: string, cluster: string, nodePool: string, profile: string, id: string, quantity: int,
    visible: set<string>)
    requires SaneProfiles(s) && DoCreateCapacity(s, pool, cluster, nodePool, profile).1 == Ok
    requires pool in visible && 1 <= quantity <= 1024 && id !in s.placements
    requires quantity * s.profiles[profile] <= TotalOr0(s.clusters[cluster].tables.poolTotals, nodePool)
    ensures DoPlace(DoCreateCapacity(s, pool, cluster, nodePool, profile).0, id, true, profile, quantity, visible).1 ==
      Ok
  {
    CapacityCreatedIff(s, pool, cluster, nodePool, profile);
    var s1 := DoCreateCapacity(s, pool, cluster, nodePool, profile).0;
    Whole(quantity, s1.capacity[pool].total, s.profiles[profile]);
    hide Less, Ahead, DoCreateCapacity;
    assert Fits(s1.capacity, visible, profile, quantity, pool);
    BestExists(s1.capacity, visible, profile, quantity);
  }

  lemma Whole(quantity: int, total: int, per: int)
    requires per > 0 && quantity * per < (total + 1) * per
    ensures quantity <= total
  {
    if quantity > total { Scaled(total + 1, quantity, per); }
  }

  lemma Scaled(a: int, b: int, k: int)
    requires a <= b && k >= 0
    ensures a * k <= b * k
  {
  }

  /** Among the fitting rows of any set of rows, one comes first. */
  lemma {:induction false} BestExists(
    capacity: map<string, CapacityPool>, rows: set<string>, profile: string, quantity: int)
    requires exists k :: Fits(capacity, rows, profile, quantity, k)
    ensures exists k :: Best(capacity, rows, profile, quantity, k)
    decreases |rows|
  {
    hide Less;
    var k :| Fits(capacity, rows, profile, quantity, k);
    assert forall o :: Fits(capacity, rows, profile, quantity, o) && o != k
                       ==> Fits(capacity, rows - {k}, profile, quantity, o);
    if forall o :: !Fits(capacity, rows - {k}, profile, quantity, o) {
      assert Best(capacity, rows, profile, quantity, k);
    } else {
      BestExists(capacity, rows - {k}, profile, quantity);
      var b :| Best(capacity, rows - {k}, profile, quantity, b);
      var first := if Ahead(capacity, k, b) then k else b;
      AheadTotal(capacity, k, b);
      forall o | Fits(capacity, rows, profile, quantity, o) && o != first ensures Ahead(capacity, first, o) {
        if o != k {
          assert Fits(capacity, rows - {k}, profile, quantity, o);
          if first == k && o != b { AheadTransitive(capacity, k, b, o); }
        }
      }
      assert Best(capacity, rows, profile, quantity, first);
    }
  }
}
