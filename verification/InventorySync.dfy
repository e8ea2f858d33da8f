/**
 Reading a cluster's published inventory into the hub: a heartbeat for a legacy report, an idempotent
 replacement with one conflict retry for a detailed one.
 */
module InventorySync {
  import opened Text
  import opened Acceptance
  import opened Fleet

  const KIND := "cluster.inventory.replace"
  const PRINCIPAL := "system:inventory-sync"
  const PREFIX := "inventory-sync-"
  type Sha = string -> string

  type Hub = Store<State>

  /** What one read of the inventory object yields: its bytes and what they decode to. */
  datatype Reading = Reading(payload: string, detailed: bool, report: Report)

  datatype SyncResult = Done | Failure(response: Response<Outcome>)

  // ----- identity -----

  function Preimage(cluster: string, r: Report): string
    requires r.sequence >= 0
  {
    cluster + "\0" + (r.epoch + "\0" + Decimal(r.sequence))
  }

  /** Digests are 64 lower-case hexadecimal digits. */
  ghost predicate Digests(sha: Sha) {
    forall x :: |sha(x)| == 64 && LowerHex(sha(x))
  }

  function MutationOf(sha: Sha, cluster: string, reading: Reading): Mutation
    requires reading.report.sequence >= 0 && |sha(Preimage(cluster, reading.report))| == 64
  {
    var identity := sha(Preimage(cluster, reading.report));
    Mutation(PRINCIPAL, PREFIX + identity[..32], PREFIX + identity, sha(reading.payload))
  }

  function SpecOf(cluster: string): Spec {
    Spec(KIND, "cluster", cluster, "cluster.inventory.replaced", true)
  }

  lemma HexClean(s: string)
    requires LowerHex(s)
    ensures Trim(s) == s && Trim(PREFIX + s) == PREFIX + s
  {
    NothingToTrim(s);
    NothingToTrim(PREFIX + s);
  }

  lemma MutationValid(sha: Sha, cluster: string, reading: Reading)
    requires Digests(sha) && reading.report.sequence >= 0
    ensures ValidMutation(MutationOf(sha, cluster, reading))
  {
    var identity := sha(Preimage(cluster, reading.report));
    HexClean(identity);
    HexClean(identity[..32]);
    HexClean(sha(reading.payload));
    NothingToTrim(PRINCIPAL);
  }

  /**
   The idempotency key identifies the report: two readings share a record exactly when they carry the
   same cluster, agent epoch and sequence, whatever generation they expect.
   */
  lemma KeyIdentifiesReport(sha: Sha, c1: string, r1: Reading, c2: string, r2: Reading)
    requires Digests(sha) && r1.report.sequence >= 0 && r2.report.sequence >= 0
    requires '\0' !in c1 && '\0' !in c2
    requires sha(Preimage(c1, r1.report)) == sha(Preimage(c2, r2.report)) ==>
      Preimage(c1, r1.report) == Preimage(c2, r2.report)
    ensures RecordKeyOf(MutationOf(sha, c1, r1), SpecOf(c1)) == RecordKeyOf(MutationOf(sha, c2, r2), SpecOf(c2))
      <==> c1 == c2 && r1.report.epoch == r2.report.epoch && r1.report.sequence == r2.report.sequence
  {
    var k1, k2 := MutationOf(sha, c1, r1).key, MutationOf(sha, c2, r2).key;
    assert k1[|PREFIX|..] == sha(Preimage(c1, r1.report)) && k2[|PREFIX|..] == sha(Preimage(c2, r2.report));
    if k1 == k2 {
      var e1, e2, d1, d2 := r1.report.epoch, r2.report.epoch, Decimal(r1.report.sequence), Decimal(r2.report.sequence);
      SplitAtFirst('\0', c1, e1 + "\0" + d1, c2, e2 + "\0" + d2);
      SplitAtLast('\0', e1, d1, e2, d2);
      DecimalInjective(r1.report.sequence, r2.report.sequence);
    }
  }

  // ----- one replacement -----

  ghost function Change(cluster: string, expected: int, r: Report): State -> Acceptance.Result<State, Outcome> {
    (s: State) =>
      if !SaneProfiles(s) then Refused(Conflict)
      else
        var (s', o) := DoReplace(s, cluster, expected, r);
        if o == Ok then Applied(s') else Refused(o)
  }

  ghost function RequestOf(sha: Sha, cluster: string, expected: int, reading: Reading, operationId: string)
    : Request<State, Outcome>
    requires Digests(sha) && reading.report.sequence >= 0
  {
    Request(MutationOf(sha, cluster, reading), SpecOf(cluster), operationId, Change(cluster, expected, reading.report))
  }

  /** The repository call: the report is validated before its key is looked up. */
  ghost function DoReplaceInventory(
    sha: Sha, hub: Hub, cluster: string, expected: int, reading: Reading, operationId: string)
    : (Hub, Response<Outcome>)
    requires Digests(sha) && reading.report.sequence >= 0
  {
    if expected < 0 || !ValidReport(reading.report) then (hub, Failed(Invalid))
    else DoAccept(hub, RequestOf(sha, cluster, expected, reading, operationId))
  }

  function ResultOf(response: Response<Outcome>): SyncResult {
    if response.Accepted? || response == Failed(StaleReport) then Done else Failure(response)
  }

  // ----- a sync -----

  /** The hub at each call of one sync: other transactions run in between. */
  datatype Moments = Moments(first: Hub, reload: Hub, retry: Hub)

  /** The hub the sync last acted on. */
  ghost function Acted(
    sha: Sha, m: Moments, cluster: string, listed: nat, reading: Reading, operationId: string): Hub
    requires Digests(sha) && reading.report.sequence >= 0
  {
    if reading.detailed
       && DoReplaceInventory(sha, m.first, cluster, listed, reading, operationId).1 == Failed(GenerationConflict)
    then if cluster in m.reload.domain.clusters then m.retry else m.reload
    else m.first
  }

  /** `listed` is the generation the cluster listing showed; operation IDs are drawn per attempt. */
  ghost function Sync(
    sha: Sha, m: Moments, cluster: string, listed: nat, reading: Reading, id1: string, id2: string)
    : (Hub, SyncResult)
    requires Digests(sha) && reading.report.sequence >= 0
  {
    if !reading.detailed then
      var (domain, o) := DoHeartbeat(m.first.domain, cluster, HeartbeatOf(reading.report));
      if o == Ok then (m.first.(domain := domain), Done) else (m.first, ResultOf(Failed(o)))
    else
      var (hub, response) := DoReplaceInventory(sha, m.first, cluster, listed, reading, id1);
      if response == Failed(GenerationConflict) then
        if cluster !in m.reload.domain.clusters then (m.reload, Failure(Failed(NotFound)))
        else
          var current := m.reload.domain.clusters[cluster].seen.generation;
          var (hub2, response2) := DoReplaceInventory(sha, m.retry, cluster, current, reading, id2);
          (hub2, ResultOf(response2))
      else (hub, ResultOf(response))
  }

  function Alone(hub: Hub): Moments {
    Moments(hub, hub, hub)
  }

  /** What acceptance guarantees of any later hub: recorded keys stay as they are. */
  ghost predicate Follows(hub: Hub, later: Hub) {
    forall k :: k in hub.records ==> k in later.records && later.records[k] == hub.records[k]
  }

  ghost predicate Recorded(sha: Sha, hub: Hub, cluster: string, reading: Reading)
    requires Digests(sha) && reading.report.sequence >= 0
  {
    var mutation := MutationOf(sha, cluster, reading);
    var key := RecordKeyOf(mutation, SpecOf(cluster));
    key in hub.records && hub.records[key].hash == mutation.hash
  }

  /** What one attempt does, by cases of the hub it meets. */
  lemma AttemptCases(sha: Sha, hub: Hub, cluster: string, expected: nat, reading: Reading, id: string)
    requires Digests(sha) && ValidReport(reading.report) && SaneProfiles(hub.domain)
    ensures var (hub', response) := DoReplaceInventory(sha, hub, cluster, expected, reading, id);
      var key := RecordKeyOf(MutationOf(sha, cluster, reading), SpecOf(cluster));
      var (domain, o) := DoReplace(hub.domain, cluster, expected, reading.report);
      if Recorded(sha, hub, cluster, reading) then hub' == hub && response.Accepted? && response.replayed
      else if key in hub.records then hub' == hub && response == IdempotencyConflict
      else if o != Ok then hub' == hub && response == Failed(o)
      else if id in hub.operations then hub' == hub && response == DuplicateOperation
      else Fresh(response) && hub'.domain == domain && Recorded(sha, hub', cluster, reading)
  {
    MutationValid(sha, cluster, reading);
    hide DoReplace, ValidMutation, ValidReport, MutationOf;
  }

  /** The idempotency key of a report: its cluster, epoch and sequence under the digest. */
  function ReportKey(sha: Sha, cluster: string, r: Report): RecordKey
    requires r.sequence >= 0
  {
    ("cluster.inventory.replace:system:inventory-sync",
     "inventory-sync-" + sha(cluster + "\0" + (r.epoch + "\0" + Decimal(r.sequence))))
  }

  lemma KeyOfReport(sha: Sha, cluster: string, expected: int, reading: Reading, id: string)
    requires Digests(sha) && reading.report.sequence >= 0
    ensures var r := RequestOf(sha, cluster, expected, reading, id);
      && (r.spec.kind + ":" + r.mutation.principal, r.mutation.key) == ReportKey(sha, cluster, reading.report)
      && KeyOf(r) == ReportKey(sha, cluster, reading.report)
      && KeyOf(r) == RecordKeyOf(MutationOf(sha, cluster, reading), SpecOf(cluster))
      && r.mutation.hash == sha(reading.payload)
  {
    assert KIND + ":" + PRINCIPAL == "cluster.inventory.replace:system:inventory-sync";
  }

  /** What a new report writes beside the inventory. */
  ghost predicate Writes(sha: Sha, hub: Hub, hub': Hub, cluster: string, reading: Reading, id: string)
    requires reading.report.sequence >= 0
  {
    var key := ReportKey(sha, cluster, reading.report);
    && hub'.records == hub.records[key := Record(sha(reading.payload), cluster, id)]
    && |hub'.audit| == |hub.audit| + 1 && hub.audit <= hub'.audit
    && var a := hub'.audit[|hub.audit|];
    && a.principal == "system:inventory-sync" && a.action == "cluster.inventory.replace"
    && a.resourceType == "cluster" && a.resourceId == cluster
    && "inventory-sync-" <= a.requestId <= key.1 && |a.requestId| == 47
    && hub'.operations == hub.operations[id :=
         Operation("cluster.inventory.replace", "cluster", cluster, OperationStatus.Succeeded, a.requestId)]
    && hub'.outbox == hub.outbox
       + [Event("operation", id, "operation.queued", id, true),
          Event("cluster", cluster, "cluster.inventory.replaced", id, false)]
  }

  lemma AttemptWrites(sha: Sha, hub: Hub, cluster: string, expected: nat, reading: Reading, id: string)
    requires Digests(sha) && ValidReport(reading.report) && SaneProfiles(hub.domain)
    ensures var (hub', response) := DoReplaceInventory(sha, hub, cluster, expected, reading, id);
      var (domain, o) := DoReplace(hub.domain, cluster, expected, reading.report);
      Fresh(response) ==> o == Ok && hub'.domain == domain && Writes(sha, hub, hub', cluster, reading, id)
  {
    var r := RequestOf(sha, cluster, expected, reading, id);
    KeyOfReport(sha, cluster, expected, reading, id);
    FreshIff(hub, r);
    var m := r.mutation;
    assert |m.requestId| == 47 && m.requestId <= m.key;
    hide DoReplace, DoAccept, ValidReport, ReportKey;
  }

  /** One attempt, in terms of the key of the report. */
  lemma AttemptTakes(sha: Sha, hub: Hub, cluster: string, expected: nat, reading: Reading, id: string)
    requires Digests(sha) && ValidReport(reading.report) && SaneProfiles(hub.domain)
    ensures var (hub', response) := DoReplaceInventory(sha, hub, cluster, expected, reading, id);
      var key := ReportKey(sha, cluster, reading.report);
      var (domain, o) := DoReplace(hub.domain, cluster, expected, reading.report);
      if key in hub.records then
        hub' == hub && (if hub.records[key].hash == sha(reading.payload) then response.Accepted?
                        else response == IdempotencyConflict)
      else if o == Ok && id !in hub.operations then
        Fresh(response) && hub'.domain == domain && Writes(sha, hub, hub', cluster, reading, id)
      else
        hub' == hub && response == if o == Ok then DuplicateOperation else Failed(o)
  {
    KeyOfReport(sha, cluster, expected, reading, id);
    AttemptCases(sha, hub, cluster, expected, reading, id);
    AttemptWrites(sha, hub, cluster, expected, reading, id);
    hide DoReplaceInventory, DoReplace, ValidReport, ReportKey, Writes, MutationOf, RecordKeyOf;
  }

  /**
   A detailed report of a known cluster, synced with nothing in between: a used key is a replay of the same bytes
   or a conflict; a new one is taken at the current generation, or left alone if it is stale.
   */
  lemma SyncAlone(sha: Sha, hub: Hub, cluster: string, listed: nat, reading: Reading, id1: string, id2: string)
    requires Digests(sha) && ValidReport(reading.report) && reading.detailed
    requires SaneProfiles(hub.domain) && cluster in hub.domain.clusters
    ensures var (hub', result) := Sync(sha, Alone(hub), cluster, listed, reading, id1, id2);
      var generation := hub.domain.clusters[cluster].seen.generation;
      var id := if listed == generation then id1 else id2;
      var key := ReportKey(sha, cluster, reading.report);
      var (domain, o) := DoReplace(hub.domain, cluster, generation, reading.report);
      if key in hub.records then
        hub' == hub && result == (if hub.records[key].hash == sha(reading.payload) then Done
                                  else Failure(IdempotencyConflict))
      else if o == Ok && id !in hub.operations then
        result == Done && hub'.domain == domain && Writes(sha, hub, hub', cluster, reading, id)
      else
        hub' == hub && result == (if o == Ok then Failure(DuplicateOperation)
                                  else if o == StaleReport then Done else Failure(Failed(o)))
  {
    hide Sync, DoReplaceInventory, DoReplace, ValidReport, ReportKey, Writes;
    var generation := hub.domain.clusters[cluster].seen.generation;
    SyncUnfolds(sha, hub, cluster, listed, reading, id1, id2);
    AttemptTakes(sha, hub, cluster, listed, reading, id1);
    AttemptTakes(sha, hub, cluster, generation, reading, id2);
    if listed != generation { MovedOn(hub.domain, cluster, listed, reading.report); }
    NotMovedOn(hub.domain, cluster, reading.report);
  }

  lemma SyncUnfolds(sha: Sha, hub: Hub, cluster: string, listed: nat, reading: Reading, id1: string, id2: string)
    requires Digests(sha) && ValidReport(reading.report) && reading.detailed && cluster in hub.domain.clusters
    ensures var generation := hub.domain.clusters[cluster].seen.generation;
      var (hub1, response1) := DoReplaceInventory(sha, hub, cluster, listed, reading, id1);
      var (hub2, response2) := DoReplaceInventory(sha, hub, cluster, generation, reading, id2);
      Sync(sha, Alone(hub), cluster, listed, reading, id1, id2) ==
        if response1 == Failed(GenerationConflict) then (hub2, ResultOf(response2)) else (hub1, ResultOf(response1))
  {
    hide DoReplaceInventory;
  }

  lemma MovedOn(s: State, cluster: string, expected: nat, r: Report)
    requires SaneProfiles(s) && ValidReport(r) && cluster in s.clusters
    requires s.clusters[cluster].seen.generation != expected
    ensures DoReplace(s, cluster, expected, r) == (s, GenerationConflict)
  {
    hide ValidReport;
  }

  lemma NotMovedOn(s: State, cluster: string, r: Report)
    requires SaneProfiles(s) && cluster in s.clusters
    ensures DoReplace(s, cluster, s.clusters[cluster].seen.generation, r).1 != GenerationConflict
  {
    hide ValidReport;
  }

  /** A legacy report is a heartbeat; a stale one is no failure, and an unknown cluster is one for either kind. */
  lemma SyncElse(sha: Sha, hub: Hub, cluster: string, listed: nat, reading: Reading, id1: string, id2: string)
    requires Digests(sha) && ValidReport(reading.report) && SaneProfiles(hub.domain)
    requires !reading.detailed || cluster !in hub.domain.clusters
    requires ReportKey(sha, cluster, reading.report) !in hub.records
    ensures var (hub', result) := Sync(sha, Alone(hub), cluster, listed, reading, id1, id2);
      && (cluster !in hub.domain.clusters ==> hub' == hub && result == Failure(Failed(NotFound)))
      && (cluster in hub.domain.clusters ==>
            var (domain, o) := DoHeartbeat(hub.domain, cluster, HeartbeatOf(reading.report));
            && hub' == hub.(domain := domain) && result == Done)
  {
    if reading.detailed {
      KeyOfReport(sha, cluster, listed, reading, id1);
      AttemptCases(sha, hub, cluster, listed, reading, id1);
      hide DoReplaceInventory, ReportKey;
    }
  }

  /** A detailed report that the hub does not accept is a failure, whatever was recorded before. */
  lemma SyncInvalid(sha: Sha, m: Moments, cluster: string, listed: nat, reading: Reading, id1: string, id2: string)
    requires Digests(sha) && reading.report.sequence >= 0 && reading.detailed && !ValidReport(reading.report)
    ensures Sync(sha, m, cluster, listed, reading, id1, id2) == (m.first, Failure(Failed(Invalid)))
  {
    hide ValidReport;
  }

  /** A successful end on `hub` for a sync that last acted on `before`. */
  ghost predicate Settled(sha: Sha, before: Hub, hub: Hub, cluster: string, reading: Reading)
    requires Digests(sha) && reading.report.sequence >= 0
  {
    || Recorded(sha, hub, cluster, reading)
    || (hub == before && cluster in before.domain.clusters
        && var generation := before.domain.clusters[cluster].seen.generation;
           Refusal(before.domain, cluster, generation, reading.report) == StaleReport)
  }

  /** The only change a sync can make: a replacement at the generation the cluster has at that moment. */
  ghost predicate Replaced(before: Hub, hub: Hub, cluster: string, r: Report) {
    && cluster in before.domain.clusters && SaneProfiles(before.domain)
    && (hub.domain, Ok) == DoReplace(before.domain, cluster, before.domain.clusters[cluster].seen.generation, r)
  }

  lemma AttemptOutcome(sha: Sha, hub: Hub, cluster: string, expected: nat, reading: Reading, id: string)
    requires Digests(sha) && ValidReport(reading.report) && SaneProfiles(hub.domain)
    ensures var (hub', response) := DoReplaceInventory(sha, hub, cluster, expected, reading, id);
      && (ResultOf(response) == Done ==> Settled(sha, hub, hub', cluster, reading))
      && (hub' != hub ==> ResultOf(response) == Done && Replaced(hub, hub', cluster, reading.report))
  {
    AttemptCases(sha, hub, cluster, expected, reading, id);
    hide DoReplaceInventory, ValidReport, Rewrite, Touch, MutationOf, RecordKeyOf;
  }

  /**
   A sync that reports success has recorded its report, or met a hub in which the report was stale and
   left it alone. A sync changes the hub it last acted on only by succeeding, and then the change is the
   replacement at the generation the cluster had at that moment.
   */
  lemma SyncOutcome(sha: Sha, m: Moments, cluster: string, listed: nat, reading: Reading, id1: string, id2: string)
    requires Digests(sha) && ValidReport(reading.report) && reading.detailed
    requires SaneProfiles(m.first.domain) && SaneProfiles(m.retry.domain)
    ensures var (hub, result) := Sync(sha, m, cluster, listed, reading, id1, id2);
      var before := Acted(sha, m, cluster, listed, reading, id1);
      && (result == Done ==> Settled(sha, before, hub, cluster, reading))
      && (hub != before ==> result == Done && Replaced(before, hub, cluster, reading.report))
  {
    AttemptOutcome(sha, m.first, cluster, listed, reading, id1);
    if cluster in m.reload.domain.clusters {
      AttemptOutcome(sha, m.retry, cluster, m.reload.domain.clusters[cluster].seen.generation, reading, id2);
    }
    hide DoReplaceInventory, ValidReport, Settled, Replaced;
  }

  /**
   Reading the same detailed report again, at any later time, from any listed generation and whatever
   runs meanwhile, is a replay: it succeeds and changes nothing.
   */
  lemma ResyncIsReplay(
    sha: Sha, hub: Hub, later: Moments, cluster: string, reading: Reading, listed: nat, id1: string, id2: string)
    requires Digests(sha) && ValidReport(reading.report) && reading.detailed
    requires SaneProfiles(later.first.domain)
    requires Recorded(sha, hub, cluster, reading) && Follows(hub, later.first)
    ensures Sync(sha, later, cluster, listed, reading, id1, id2) == (later.first, Done)
  {
    AttemptCases(sha, later.first, cluster, listed, reading, id1);
  }

  /** In particular after any requests the hub accepted, replayed or refused since. */
  lemma ResyncAfterTraffic(
    sha: Sha, hub: Hub, rs: seq<Request<State, Outcome>>, cluster: string, reading: Reading, listed: nat,
    id1: string, id2: string)
    requires Digests(sha) && ValidReport(reading.report) && reading.detailed
    requires Recorded(sha, hub, cluster, reading) && SaneProfiles(Acceptance.Run(hub, rs).domain)
    ensures var later := Acceptance.Run(hub, rs);
      Sync(sha, Alone(later), cluster, listed, reading, id1, id2) == (later, Done)
  {
    RowsStay(hub, rs);
    ResyncIsReplay(sha, hub, Alone(Acceptance.Run(hub, rs)), cluster, reading, listed, id1, id2);
  }

  /** A second sync straight after a successful one finds nothing to do, for either kind of report. */
  lemma ResyncAtOnce(
    sha: Sha, hub: Hub, cluster: string, reading: Reading, listed: nat, again: nat,
    id1: string, id2: string, id3: string, id4: string)
    requires Digests(sha) && ValidReport(reading.report) && SaneProfiles(hub.domain)
    ensures var (hub', result) := Sync(sha, Alone(hub), cluster, listed, reading, id1, id2);
      result == Done ==> Sync(sha, Alone(hub'), cluster, again, reading, id3, id4) == (hub', Done)
  {
    if reading.detailed {
      var (hub', result) := Sync(sha, Alone(hub), cluster, listed, reading, id1, id2);
      SyncOutcome(sha, Alone(hub), cluster, listed, reading, id1, id2);
      if result == Done {
        assert Acted(sha, Alone(hub), cluster, listed, reading, id1) == hub;
        if Recorded(sha, hub', cluster, reading) {
          assert SaneProfiles(hub'.domain) by {
            if hub' != hub { ReplaceKeepsProfiles(hub.domain, cluster, reading.report); }
          }
          ResyncIsReplay(sha, hub', Alone(hub'), cluster, reading, again, id3, id4);
        } else {
          StaleAgain(sha, hub, cluster, reading, again, id3, id4);
        }
      }
    }
  }

  lemma ReplaceKeepsProfiles(s: State, cluster: string, r: Report)
    requires SaneProfiles(s) && cluster in s.clusters
    ensures DoReplace(s, cluster, s.clusters[cluster].seen.generation, r).0.profiles == s.profiles
  {
    hide ValidReport, Refusal;
  }

  lemma StaleAgain(sha: Sha, hub: Hub, cluster: string, reading: Reading, again: nat, id1: string, id2: string)
    requires Digests(sha) && ValidReport(reading.report) && reading.detailed && SaneProfiles(hub.domain)
    requires cluster in hub.domain.clusters && !Recorded(sha, hub, cluster, reading)
    requires RecordKeyOf(MutationOf(sha, cluster, reading), SpecOf(cluster)) !in hub.records
    requires Refusal(hub.domain, cluster, hub.domain.clusters[cluster].seen.generation, reading.report) == StaleReport
    ensures Sync(sha, Alone(hub), cluster, again, reading, id1, id2) == (hub, Done)
  {
    AttemptCases(sha, hub, cluster, again, reading, id1);
    AttemptCases(sha, hub, cluster, hub.domain.clusters[cluster].seen.generation, reading, id2);
    hide DoReplaceInventory, ValidReport, MutationOf, RecordKeyOf;
  }

  /** A generation conflict survives the retry only if the generation moved between reload and retry. */
  lemma ConflictNeedsRace(
    sha: Sha, m: Moments, cluster: string, listed: nat, reading: Reading, id1: string, id2: string)
    requires Digests(sha) && ValidReport(reading.report) && reading.detailed
    requires SaneProfiles(m.first.domain) && SaneProfiles(m.retry.domain)
    requires Sync(sha, m, cluster, listed, reading, id1, id2).1 == Failure(Failed(GenerationConflict))
    ensures cluster in m.reload.domain.clusters && cluster in m.retry.domain.clusters
    ensures m.reload.domain.clusters[cluster].seen.generation != m.retry.domain.clusters[cluster].seen.generation
  {
    if cluster in m.reload.domain.clusters {
      AttemptCases(sha, m.retry, cluster, m.reload.domain.clusters[cluster].seen.generation, reading, id2);
    }
    hide DoReplaceInventory, ValidReport, MutationOf, RecordKeyOf;
  }
}
