/**
 Project quotas, quota reservations and workspaces. Every transaction is one atomic step: `Do...`
 says what it does to the tables, and the class performs it row by row.
 */
module Quota {
  import opened Basics
  import opened Sums
  import opened Workspaces

  const GPU_CLASS := "gpu.nvidia.full"
  datatype Status = Pending | Committed | Released | Expired
  // `granted` is the column "allocated", a reserved word here.
  datatype Quota = Quota(hardLimit: int, reserved: int, granted: int, generation: nat)
  datatype Reservation = Reservation(key: Key, amount: int, status: Status, operation: string, expiresAt: int)
  datatype Outcome =
    | Ok | NotFound | Invalid | Conflict | QuotaExceeded | QuotaBelowUsage | InvalidTransition

  // The primary key of a quota row: project and resource class.
  type Key = (string, string)

  datatype State = State(
    projects: set<string>,
    profiles: map<string, int>,
    quotas: map<Key, Quota>,
    reservations: map<string, Reservation>,
    workspaces: map<string, Workspace>)

  const INITIAL := State({}, map[], map[], map[], map[])

  predicate ClassChar(c: char) {
    'a' <= c <= 'z' || '0' <= c <= '9'
  }

  predicate ValidClass(name: string) {
    && 1 <= |name| <= 64
    && ClassChar(name[0])
    && forall i :: 1 <= i < |name| ==> ClassChar(name[i]) || name[i] in "._-"
  }

  // ----- what each transaction does -----

  function DoCreateProfile(s: State, id: string, gpuCount: int): (State, Outcome) {
    if !(1 <= gpuCount <= 64) then (s, Invalid)
    else if id in s.profiles then (s, Conflict)
    else (s.(profiles := s.profiles[id := gpuCount]), Ok)
  }

  function DoSetQuota(s: State, key: Key, limit: int): (State, Outcome) {
    if !ValidClass(key.1) || limit < 0 then (s, Invalid)
    else if key.0 !in s.projects then (s, NotFound)
    else if key !in s.quotas then (s.(quotas := s.quotas[key := Quota(limit, 0, 0, 1)]), Ok)
    else
      var q := s.quotas[key];
      if q.reserved + q.granted > limit then (s, QuotaBelowUsage)
      else (s.(quotas := s.quotas[key := q.(hardLimit := limit, generation := q.generation + 1)]), Ok)
  }

  function DoReserve(s: State, now: int, id: string, key: Key, amount: int, operation: string, expiresAt: int)
    : (State, Outcome)
  {
    if !ValidClass(key.1) || amount <= 0 || expiresAt <= now then (s, Invalid)
    else if key !in s.quotas then (s, NotFound)
    else
      var q := s.quotas[key];
      if amount > q.hardLimit - q.reserved - q.granted then (s, QuotaExceeded)
      else if id in s.reservations then (s, Conflict)
      else
        (s.(quotas := s.quotas[key := q.(reserved := q.reserved + amount, generation := q.generation + 1)],
            reservations := s.reservations[id := Reservation(key, amount, Pending, operation, expiresAt)]), Ok)
  }

  predicate Allowed(from: Status, target: Status) {
    from == Pending || (from == Committed && target == Released)
  }

  function MoveQuota(q: Quota, from: Status, target: Status, amount: int): Quota {
    var q' := q.(generation := q.generation + 1);
    if from == Pending && target == Committed then
      q'.(reserved := q.reserved - amount, granted := q.granted + amount)
    else if from == Pending then q'.(reserved := q.reserved - amount)
    else q'.(granted := q.granted - amount)
  }

  function DoTransition(s: State, id: string, target: Status): (State, Outcome) {
    if id !in s.reservations then (s, NotFound)
    else
      var r := s.reservations[id];
      if r.status == target then (s, Ok)
      else if !Allowed(r.status, target) then (s, InvalidTransition)
      else
        var quotas := if r.key in s.quotas
                      then s.quotas[r.key := MoveQuota(s.quotas[r.key], r.status, target, r.amount)]
                      else s.quotas;
        (s.(quotas := quotas, reservations := s.reservations[id := r.(status := target)]), Ok)
  }

  function QuotaDelta(current: Desired, desired: Desired, gpuCount: int): int {
    if current == desired || gpuCount <= 0 then 0
    else if desired == Running then gpuCount
    else if current == Running then -gpuCount
    else 0
  }

  /** The new quota table, or the refusal; releasing clamps at zero and tolerates a missing row. */
  function AdjustQuota(quotas: map<Key, Quota>, project: string, delta: int): (map<Key, Quota>, Outcome) {
    var key := (project, GPU_CLASS);
    if delta == 0 then (quotas, Ok)
    else if delta > 0 then
      if key in quotas && quotas[key].granted + quotas[key].reserved + delta <= quotas[key].hardLimit then
        var q := quotas[key];
        (quotas[key := q.(granted := q.granted + delta, generation := q.generation + 1)], Ok)
      else (quotas, QuotaExceeded)
    else if key in quotas then
      var q := quotas[key];
      var left := q.granted + delta;
      (quotas[key := q.(granted := if left < 0 then 0 else left, generation := q.generation + 1)], Ok)
    else (quotas, Ok)
  }

  function DoCreateWorkspace(s: State, id: string, project: string, profile: string): (State, Outcome) {
    if project !in s.projects || profile !in s.profiles then (s, NotFound)
    else
      var (quotas, r) := AdjustQuota(s.quotas, project, s.profiles[profile]);
      if r != Ok then (s, r)
      else if id in s.workspaces then (s, Conflict)
      else
        (s.(quotas := quotas, workspaces := s.workspaces[id := Created(project, s.profiles[profile])]), Ok)
  }

  function DoSetDesired(s: State, id: string, desired: Desired): (State, Outcome) {
    if id !in s.workspaces then (s, NotFound)
    else
      var w := s.workspaces[id];
      var (quotas, r) := AdjustQuota(s.quotas, w.project, QuotaDelta(w.desired, desired, w.gpuCount));
      if r != Ok then (s, r)
      else (s.(quotas := quotas, workspaces := s.workspaces[id := WithDesired(w, desired)]), Ok)
  }

  /** The reconciler's statements: they never touch `desired` or `gpuCount`. */
  function DoReconcile(s: State, id: string, update: RowUpdate): (State, Outcome) {
    if id !in s.workspaces then (s, NotFound)
    else
      var w := s.workspaces[id];
      var w' := match update
        case Start(g) => Started(w, g)
        case Complete(g) => Completed(w, g)
        case Fail(g, terminal) => MarkedFailed(w, g, terminal);
      (s.(workspaces := s.workspaces[id := w']), Ok)
  }

  datatype RowUpdate = Start(g: int) | Complete(g: int) | Fail(g: int, terminal: bool)

  datatype Step =
    | CreateProject(project: string)
    | CreateProfile(profile: string, gpuCount: int)
    | SetQuota(key: Key, limit: int)
    | Reserve(now: int, id: string, rkey: Key, amount: int, operation: string, expiresAt: int)
    | Transition(rid: string, target: Status)
    | CreateWorkspace(wid: string, wproject: string, wprofile: string)
    | SetDesired(did: string, desired: Desired)
    | Reconcile(cid: string, update: RowUpdate)

  function Do(s: State, step: Step): (State, Outcome) {
    match step
    case CreateProject(p) => (s.(projects := s.projects + {p}), Ok)
    case CreateProfile(id, n) => DoCreateProfile(s, id, n)
    case SetQuota(key, limit) => DoSetQuota(s, key, limit)
    case Reserve(now, id, key, amount, op, at) => DoReserve(s, now, id, key, amount, op, at)
    case Transition(id, target) => DoTransition(s, id, target)
    case CreateWorkspace(id, p, profile) => DoCreateWorkspace(s, id, p, profile)
    case SetDesired(id, d) => DoSetDesired(s, id, d)
    case Reconcile(id, u) => DoReconcile(s, id, u)
  }

  function Run(s: State, steps: seq<Step>): State
    decreases |steps|
  {
    if steps == [] then s else Run(Do(s, steps[0]).0, steps[1..])
  }

  // ----- conservation -----

  ghost function Held(key: Key, status: Status): Reservation -> int {
    (r: Reservation) => if r.key == key && r.status == status then r.amount else 0
  }

  ghost function GpusRunning(key: Key): Workspace -> int {
    (w: Workspace) => if key == (w.project, GPU_CLASS) && w.desired == Running then w.gpuCount else 0
  }

  ghost function PendingTotal(s: State, key: Key): int { Sum(s.reservations, Held(key, Pending)) }

  ghost function CommittedTotal(s: State, key: Key): int { Sum(s.reservations, Held(key, Committed)) }

  ghost function RunningTotal(s: State, key: Key): int { Sum(s.workspaces, GpusRunning(key)) }

  ghost predicate RowConserved(s: State, key: Key)
    requires key in s.quotas
  {
    var q := s.quotas[key];
    && q.reserved == PendingTotal(s, key)
    && q.granted == CommittedTotal(s, key) + RunningTotal(s, key)
    && q.reserved + q.granted <= q.hardLimit
  }

  ghost predicate RowsSane(s: State) {
    && (forall p :: p in s.profiles ==> 1 <= s.profiles[p] <= 64)
    && (forall id :: id in s.reservations ==> s.reservations[id].amount > 0 && s.reservations[id].key in s.quotas)
    && (forall id :: id in s.workspaces ==>
          1 <= s.workspaces[id].gpuCount <= 64 && (s.workspaces[id].project, GPU_CLASS) in s.quotas)
  }

  ghost predicate Conserved(s: State) {
    && RowsSane(s)
    && forall key :: key in s.quotas ==> RowConserved(s, key)
  }

  lemma TotalsNonNegative(s: State, key: Key)
    requires RowsSane(s)
    ensures PendingTotal(s, key) >= 0 && CommittedTotal(s, key) >= 0 && RunningTotal(s, key) >= 0
  {
    SumNonNegative(s.reservations, Held(key, Pending));
    SumNonNegative(s.reservations, Held(key, Committed));
    SumNonNegative(s.workspaces, GpusRunning(key));
  }

  /** A fresh key has nothing recorded against it, so a new row may start from zero. */
  lemma NothingHeldWithoutRow(s: State, key: Key)
    requires RowsSane(s) && key !in s.quotas
    ensures PendingTotal(s, key) == CommittedTotal(s, key) == RunningTotal(s, key) == 0
  {
    SumZero(s.reservations, Held(key, Pending));
    SumZero(s.reservations, Held(key, Committed));
    SumZero(s.workspaces, GpusRunning(key));
  }

  lemma SetQuotaConserves(s: State, key: Key, limit: int)
    requires Conserved(s)
    ensures Conserved(DoSetQuota(s, key, limit).0)
  {
    var s' := DoSetQuota(s, key, limit).0;
    if key !in s.quotas {
      NothingHeldWithoutRow(s, key);
    }
    forall k | k in s'.quotas ensures RowConserved(s', k) {
      if k != key { assert RowConserved(s, k); }
    }
  }

  lemma ReserveConserves(s: State, now: int, id: string, key: Key, amount: int, op: string, at: int)
    requires Conserved(s)
    ensures Conserved(DoReserve(s, now, id, key, amount, op, at).0)
  {
    var (s', r) := DoReserve(s, now, id, key, amount, op, at);
    if r == Ok {
      forall k | k in s'.quotas ensures RowConserved(s', k) {
        assert RowConserved(s, k);
        SumInsert(s.reservations, Held(k, Pending), id, s'.reservations[id]);
        SumInsert(s.reservations, Held(k, Committed), id, s'.reservations[id]);
      }
    }
  }

  lemma TransitionRow(s: State, id: string, target: Status, key: Key)
    requires RowsSane(s) && key in s.quotas && RowConserved(s, key)
    requires id in s.reservations && s.reservations[id].status != target
    requires Allowed(s.reservations[id].status, target)
    ensures RowConserved(DoTransition(s, id, target).0, key)
  {
    var r := s.reservations[id];
    SumUpdate(s.reservations, Held(key, Pending), id, r.(status := target));
    SumUpdate(s.reservations, Held(key, Committed), id, r.(status := target));
  }

  lemma TransitionConserves(s: State, id: string, target: Status)
    requires Conserved(s)
    ensures Conserved(DoTransition(s, id, target).0)
  {
    var (s', r) := DoTransition(s, id, target);
    if r == Ok && s.reservations[id].status != target {
      forall k | k in s'.quotas ensures RowConserved(s', k) {
        assert RowConserved(s, k);
        TransitionRow(s, id, target, k);
      }
    }
  }

  lemma CreateWorkspaceConserves(s: State, id: string, project: string, profile: string)
    requires Conserved(s)
    ensures Conserved(DoCreateWorkspace(s, id, project, profile).0)
  {
    var (s', r) := DoCreateWorkspace(s, id, project, profile);
    if r == Ok {
      forall k | k in s'.quotas ensures RowConserved(s', k) {
        assert RowConserved(s, k);
        SumInsert(s.workspaces, GpusRunning(k), id, s'.workspaces[id]);
      }
    }
  }

  /** GREATEST(allocated + delta, 0) never clamps: the GPUs being released are part of `granted`. */
  lemma ClampNeverFires(s: State, id: string, desired: Desired)
    requires Conserved(s) && id in s.workspaces
    ensures var w := s.workspaces[id];
            s.quotas[(w.project, GPU_CLASS)].granted + QuotaDelta(w.desired, desired, w.gpuCount) >= 0
  {
    var w := s.workspaces[id];
    var key := (w.project, GPU_CLASS);
    assert RowConserved(s, key);
    TotalsNonNegative(s, key);
    SumAtLeast(s.workspaces, GpusRunning(key), id);
  }

  lemma SetDesiredConserves(s: State, id: string, desired: Desired)
    requires Conserved(s)
    ensures Conserved(DoSetDesired(s, id, desired).0)
  {
    var (s', r) := DoSetDesired(s, id, desired);
    if r == Ok {
      ClampNeverFires(s, id, desired);
      SetDesiredSane(s, id, desired);
      hide RowsSane, DoSetDesired, RowConserved;
      forall k | k in s'.quotas ensures RowConserved(s', k) { SetDesiredRow(s, id, desired, k); }
    }
  }

  lemma SetDesiredSane(s: State, id: string, desired: Desired)
    requires RowsSane(s)
    ensures RowsSane(DoSetDesired(s, id, desired).0)
  {
  }

  lemma SetDesiredRow(s: State, id: string, desired: Desired, k: Key)
    requires Conserved(s) && DoSetDesired(s, id, desired).1 == Ok && k in DoSetDesired(s, id, desired).0.quotas
    ensures RowConserved(DoSetDesired(s, id, desired).0, k)
  {
    hide Sum;
    var s' := DoSetDesired(s, id, desired).0;
    ClampNeverFires(s, id, desired);
    assert RowConserved(s, k);
    SumUpdate(s.workspaces, GpusRunning(k), id, s'.workspaces[id]);
    TotalsNonNegative(s, k);
  }

  lemma ReconcileConserves(s: State, id: string, update: RowUpdate)
    requires Conserved(s)
    ensures Conserved(DoReconcile(s, id, update).0)
  {
    var (s', r) := DoReconcile(s, id, update);
    if r == Ok {
      ReconcileSane(s, id, update);
      hide RowsSane, DoReconcile, RowConserved;
      forall k | k in s'.quotas ensures RowConserved(s', k) { ReconcileRow(s, id, update, k); }
    }
  }

  lemma ReconcileSane(s: State, id: string, update: RowUpdate)
    requires RowsSane(s)
    ensures RowsSane(DoReconcile(s, id, update).0) && DoReconcile(s, id, update).0.quotas == s.quotas
  {
  }

  lemma ReconcileRow(s: State, id: string, update: RowUpdate, k: Key)
    requires Conserved(s) && DoReconcile(s, id, update).1 == Ok && k in s.quotas
    ensures RowConserved(DoReconcile(s, id, update).0, k)
  {
    hide Sum;
    assert RowConserved(s, k);
    SumUpdate(s.workspaces, GpusRunning(k), id, DoReconcile(s, id, update).0.workspaces[id]);
  }

  lemma StepConserves(s: State, step: Step)
    requires Conserved(s)
    ensures Conserved(Do(s, step).0)
  {
    match step
    case CreateProject(p) =>
      forall k | k in s.quotas ensures RowConserved(Do(s, step).0, k) { assert RowConserved(s, k); }
    case CreateProfile(id, n) =>
      forall k | k in s.quotas ensures RowConserved(Do(s, step).0, k) { assert RowConserved(s, k); }
    case SetQuota(key, limit) => SetQuotaConserves(s, key, limit);
    case Reserve(now, id, key, amount, op, at) => ReserveConserves(s, now, id, key, amount, op, at);
    case Transition(id, target) => TransitionConserves(s, id, target);
    case CreateWorkspace(id, p, profile) => CreateWorkspaceConserves(s, id, p, profile);
    case SetDesired(id, d) => SetDesiredConserves(s, id, d);
    case Reconcile(id, u) => ReconcileConserves(s, id, u);
  }

  /** Quota conservation over every run from the empty database, limits changing underneath included. */
  lemma {:induction false} RunConserves(s: State, steps: seq<Step>)
    requires Conserved(s)
    ensures Conserved(Run(s, steps))
    decreases |steps|
  {
    if steps != [] {
      StepConserves(s, steps[0]);
      RunConserves(Do(s, steps[0]).0, steps[1..]);
    }
  }

  /**
   In every reachable state the counters lie between zero and the limit, so no CHECK of the table and
   no 64-bit bound can fail on them as long as every limit that was set fits 64 bits.
   */
  lemma ReachableWithinLimit(steps: seq<Step>, key: Key)
    ensures var s := Run(INITIAL, steps);
            key in s.quotas ==>
              var q := s.quotas[key];
              && q.reserved == PendingTotal(s, key)
              && q.granted == CommittedTotal(s, key) + RunningTotal(s, key)
              && 0 <= q.reserved && 0 <= q.granted && q.reserved + q.granted <= q.hardLimit
  {
    RunConserves(INITIAL, steps);
    var s := Run(INITIAL, steps);
    if key in s.quotas {
      assert RowConserved(s, key);
      TotalsNonNegative(s, key);
    }
  }

  /** Released and expired are final over every run; amounts and keys of reservations never change. */
  lemma {:induction false} ReservationsFinal(s: State, steps: seq<Step>, id: string)
    requires id in s.reservations
    ensures var s' := Run(s, steps);
            && id in s'.reservations
            && s'.reservations[id].key == s.reservations[id].key
            && s'.reservations[id].amount == s.reservations[id].amount
            && (s.reservations[id].status in {Released, Expired} ==> s'.reservations[id] == s.reservations[id])
            && (s.reservations[id].status == Committed ==> s'.reservations[id].status in {Committed, Released})
    decreases |steps|
  {
    if steps != [] {
      ReservationsFinal(Do(s, steps[0]).0, steps[1..], id);
    }
  }

  /**
   A transition that succeeded takes effect once: repeated at any later time it changes nothing. It succeeds
   again exactly while the reservation is still in the target status, and is refused afterwards.
   */
  lemma TransitionRetried(s: State, id: string, target: Status, steps: seq<Step>)
    requires DoTransition(s, id, target).1 == Ok
    ensures var later := Run(DoTransition(s, id, target).0, steps);
      && id in later.reservations
      && var now := later.reservations[id].status;
         DoTransition(later, id, target) == (later, if now == target then Ok else InvalidTransition)
         && (target in {Released, Expired} ==> now == target)
  {
    ReservationsFinal(DoTransition(s, id, target).0, steps, id);
    hide Run;
  }

  // ----- when a transaction is accepted, and what it then does -----

  /** Resource classes: lower-case letters and digits first, then also dots, underscores and dashes, 64 at most. */
  lemma ClassNames(name: string)
    ensures ValidClass(name) <==>
      && 0 < |name| < 65 && name[0] !in "._-"
      && forall i :: 0 <= i < |name| ==> 'a' <= name[i] <= 'z' || '0' <= name[i] <= '9' || name[i] in "-_."
  {
  }

  /** The row of a key, or one that allows nothing. */
  function RowOr0(s: State, key: Key): Quota {
    if key in s.quotas then s.quotas[key] else Quota(0, 0, 0, 0)
  }

  /** Only the row of `key` and its generation may differ. */
  ghost predicate OnlyRow(s: State, s': State, key: Key) {
    && s'.projects == s.projects && s'.profiles == s.profiles
    && s'.quotas - {key} == s.quotas - {key}
    && key in s'.quotas && s'.quotas[key].generation == RowOr0(s, key).generation + 1
  }

  /** A limit is accepted for a known project unless it is below what is in use, and then it is the limit. */
  lemma LimitSet(s: State, key: Key, limit: int)
    ensures var (s', o) := DoSetQuota(s, key, limit); var was, row := RowOr0(s, key), RowOr0(s', key);
      && (o == Ok <==>
            ValidClass(key.1) && limit >= 0 && key.0 in s.projects
            && (key in s.quotas ==> was.reserved + was.granted <= limit))
      && (o == Ok ==>
            && OnlyRow(s, s', key) && s'.reservations == s.reservations && s'.workspaces == s.workspaces
            && row.hardLimit == limit && row.reserved == was.reserved && row.granted == was.granted)
      && (o != Ok ==> s' == s)
      && (o == Invalid <==> !(ValidClass(key.1) && limit >= 0))
      && (o == NotFound <==> ValidClass(key.1) && limit >= 0 && key.0 !in s.projects)
      && o in {Ok, Invalid, NotFound, QuotaBelowUsage}
  {
  }

  /** A reservation is accepted exactly up to what the limit leaves, under an unused ID, and takes that much. */
  lemma ReservationMade(s: State, now: int, id: string, key: Key, amount: int, operation: string, expiresAt: int)
    ensures var (s', o) := DoReserve(s, now, id, key, amount, operation, expiresAt);
      var was, row := RowOr0(s, key), RowOr0(s', key);
      && (o == Ok <==>
            ValidClass(key.1) && amount > 0 && now < expiresAt && key in s.quotas && id !in s.reservations
            && amount <= was.hardLimit - was.reserved - was.granted)
      && (o == Ok ==>
            && OnlyRow(s, s', key) && s'.workspaces == s.workspaces
            && row.hardLimit == was.hardLimit && row.reserved == was.reserved + amount && row.granted == was.granted
            && s'.reservations == s.reservations[id := Reservation(key, amount, Pending, operation, expiresAt)])
      && (o != Ok ==> s' == s)
      && (o == Invalid <==> !(ValidClass(key.1) && amount > 0 && now < expiresAt))
      && (o == NotFound <==> o != Invalid && key !in s.quotas)
      && (o == QuotaExceeded <==>
            o != Invalid && key in s.quotas && amount > was.hardLimit - was.reserved - was.granted)
      && o in {Ok, Invalid, NotFound, QuotaExceeded, Conflict}
  {
  }

  /** In every reachable state that room is the limit less the open reservations and the running GPUs. */
  lemma ReservableIff(
    steps: seq<Step>, now: int, id: string, key: Key, amount: int, operation: string, expiresAt: int)
    ensures var s := Run(INITIAL, steps);
      DoReserve(s, now, id, key, amount, operation, expiresAt).1 == Ok <==>
        && ValidClass(key.1) && amount > 0 && now < expiresAt && key in s.quotas && id !in s.reservations
        && PendingTotal(s, key) + CommittedTotal(s, key) + RunningTotal(s, key) + amount <= s.quotas[key].hardLimit
  {
    var s := Run(INITIAL, steps);
    RunConserves(INITIAL, steps);
    ReservationMade(s, now, id, key, amount, operation, expiresAt);
    if key in s.quotas { assert RowConserved(s, key); }
    hide Run, DoReserve, Sum;
  }

  /** What a reservation holds, as (reserved, granted), in a given status. */
  function HeldAs(status: Status, amount: int): (int, int) {
    match status
    case Pending => (amount, 0)
    case Committed => (0, amount)
    case Released => (0, 0)
    case Expired => (0, 0)
  }

  /** Open reservations may go anywhere, committed ones only be released; the row moves by what they then hold. */
  lemma TransitionMade(s: State, id: string, target: Status)
    requires Conserved(s)
    ensures var (s', o) := DoTransition(s, id, target);
      && (o == Ok <==>
            id in s.reservations
            && (s.reservations[id].status == target || s.reservations[id].status == Pending
                || (s.reservations[id].status == Committed && target == Released)))
      && (o == Ok && s.reservations[id].status != target ==>
            var r := s.reservations[id];
            var was, row := RowOr0(s, r.key), RowOr0(s', r.key);
            && OnlyRow(s, s', r.key) && s'.workspaces == s.workspaces && row.hardLimit == was.hardLimit
            && s'.reservations - {id} == s.reservations - {id} && id in s'.reservations
            && s'.reservations[id] == Reservation(r.key, r.amount, target, r.operation, r.expiresAt)
            && row.reserved - was.reserved == HeldAs(target, r.amount).0 - HeldAs(r.status, r.amount).0
            && row.granted - was.granted == HeldAs(target, r.amount).1 - HeldAs(r.status, r.amount).1)
      && (o != Ok || s.reservations[id].status == target ==> s' == s)
      && (o == NotFound <==> id !in s.reservations) && o in {Ok, NotFound, InvalidTransition}
  {
    hide Sum, RowConserved;
  }

  /** On any table: taking needs room, giving back stops at zero or at a missing row, and nothing is no change. */
  lemma QuotaAdjusted(quotas: map<Key, Quota>, project: string, delta: int)
    ensures var (quotas', o) := AdjustQuota(quotas, project, delta); var key := (project, "gpu.nvidia.full");
      && (o == Ok <==>
            delta <= 0 || (key in quotas
              && delta <= quotas[key].hardLimit - quotas[key].reserved - quotas[key].granted))
      && o in {Ok, QuotaExceeded}
      && (o != Ok || delta == 0 || key !in quotas ==> quotas' == quotas)
      && (o == Ok && delta != 0 && key in quotas ==>
            && quotas' - {key} == quotas - {key} && key in quotas'
            && var q, q' := quotas[key], quotas'[key];
            && q'.hardLimit == q.hardLimit && q'.reserved == q.reserved && q'.generation == q.generation + 1
            && (q.granted + delta >= 0 ==> q'.granted == q.granted + delta)
            && (q.granted + delta < 0 && delta < 0 ==> q'.granted == 0))
  {
  }

  /** The GPUs that a workspace uses. */
  function Using(w: Workspace): int {
    if w.desired == Running then w.gpuCount else 0
  }

  lemma WorkspaceMade(s: State, id: string, project: string, profile: string)
    requires Conserved(s)
    ensures var (s', o) := DoCreateWorkspace(s, id, project, profile);
      var key := (project, "gpu.nvidia.full");
      var was, row := RowOr0(s, key), RowOr0(s', key);
      && (o == Ok <==>
            project in s.projects && profile in s.profiles && id !in s.workspaces && key in s.quotas
            && s.profiles[profile] <= was.hardLimit - was.reserved - was.granted)
      && (o == Ok ==>
            && OnlyRow(s, s', key) && s'.reservations == s.reservations && row.hardLimit == was.hardLimit
            && row.reserved == was.reserved && row.granted == was.granted + s.profiles[profile]
            && s'.workspaces - {id} == s.workspaces - {id} && id in s'.workspaces
            && s'.workspaces[id] ==
                 Workspace(project, s.profiles[profile], Running, ObservedPending, ProvisioningPending, 1, 0))
      && (o != Ok ==> s' == s)
      && (o == NotFound <==> project !in s.projects || profile !in s.profiles)
      && (o == Conflict ==> id in s.workspaces) && o in {Ok, NotFound, QuotaExceeded, Conflict}
  {
    hide Sum, RowConserved;
  }

  lemma UsageMoves(w: Workspace, desired: Desired)
    requires w.gpuCount >= 1
    ensures QuotaDelta(w.desired, desired, w.gpuCount) == Using(w.(desired := desired)) - Using(w)
  {
  }

  /** A workspace may always stop; it may run if its GPUs are still free. The row moves by what it then uses. */
  lemma DesiredSet(s: State, id: string, desired: Desired)
    requires Conserved(s)
    ensures var (s', o) := DoSetDesired(s, id, desired);
      && (o == Ok <==> id in s.workspaces && var w := s.workspaces[id];
            var was := RowOr0(s, (w.project, "gpu.nvidia.full"));
            desired == Running && w.desired != Running ==> w.gpuCount <= was.hardLimit - was.reserved - was.granted)
      && (o == Ok ==>
            var w := s.workspaces[id];
            var key := (w.project, "gpu.nvidia.full");
            && s' == s.(quotas := s'.quotas, workspaces := s'.workspaces)
            && s'.workspaces - {id} == s.workspaces - {id} && id in s'.workspaces
            && s'.workspaces[id] == Workspace(w.project, w.gpuCount, desired, w.observed, w.provisioning,
                                              w.generation + 1, w.observedGeneration)
            && s'.quotas - {key} == s.quotas - {key} && key in s'.quotas
            && s'.quotas[key].hardLimit == s.quotas[key].hardLimit
            && s'.quotas[key].reserved == s.quotas[key].reserved
            && s'.quotas[key].granted - s.quotas[key].granted == Using(s'.workspaces[id]) - Using(w))
      && (o != Ok ==> s' == s)
      && (o == NotFound <==> id !in s.workspaces) && o in {Ok, NotFound, QuotaExceeded}
  {
    if id in s.workspaces {
      var w := s.workspaces[id];
      ClampNeverFires(s, id, desired);
      UsageMoves(w, desired);
      QuotaAdjusted(s.quotas, w.project, QuotaDelta(w.desired, desired, w.gpuCount));
      assert GPU_CLASS == "gpu.nvidia.full" && w.gpuCount >= 1 && (w.project, GPU_CLASS) in s.quotas;
    }
    hide Sum, Conserved, AdjustQuota, QuotaDelta;
  }

  lemma ProjectMade(s: State, project: string)
    ensures var (s', o) := Do(s, CreateProject(project));
      o == Ok && s' == s.(projects := s'.projects) && forall p :: p in s'.projects <==> p == project || p in s.projects
  {
  }

  lemma ProfileMade(s: State, id: string, gpuCount: int)
    ensures var (s', o) := DoCreateProfile(s, id, gpuCount);
      && (o == Ok <==> 1 <= gpuCount <= 64 && id !in s.profiles)
      && s' == (if o == Ok then s.(profiles := s.profiles[id := gpuCount]) else s)
  {
  }

  function LimitOf(s: State, key: Key): Option<int> {
    if key in s.quotas then Some(s.quotas[key].hardLimit) else None
  }

  /** The limit of the last accepted limit transaction for a key, or what it was before. */
  ghost function LastLimit(s: State, steps: seq<Step>, key: Key, before: Option<int>): Option<int>
    decreases |steps|
  {
    if steps == [] then before
    else
      var (s', o) := Do(s, steps[0]);
      var accepted := steps[0].SetQuota? && steps[0].key == key && o == Ok;
      LastLimit(s', steps[1..], key, if accepted then Some(steps[0].limit) else before)
  }

  lemma StepLimit(s: State, step: Step, key: Key)
    ensures var (s', o) := Do(s, step);
      LimitOf(s', key) == if step.SetQuota? && step.key == key && o == Ok then Some(step.limit) else LimitOf(s, key)
  {
  }

  /** A row has the limit of the last accepted transaction that set it, whatever else happened. */
  lemma {:induction false} LimitIsLastSet(s: State, steps: seq<Step>, key: Key)
    ensures LimitOf(Run(s, steps), key) == LastLimit(s, steps, key, LimitOf(s, key))
    decreases |steps|
  {
    if steps != [] {
      StepLimit(s, steps[0], key);
      hide Do, LimitOf;
      LimitIsLastSet(Do(s, steps[0]).0, steps[1..], key);
    }
  }

  // ----- the transactions, performed on the tables in place -----

  class QuotaStore {
    var projects: set<string>
    var profiles: map<string, int>
    var quotas: map<Key, Quota>
    var reservations: map<string, Reservation>
    var workspaces: map<string, Workspace>

    ghost function View(): State
      reads this
    {
      State(projects, profiles, quotas, reservations, workspaces)
    }

    constructor ()
      ensures View() == INITIAL
    {
      projects, profiles, quotas, reservations, workspaces := {}, map[], map[], map[], map[];
    }

    method SetQuota(key: Key, limit: int) returns (r: Outcome)
      modifies this
      ensures (View(), r) == DoSetQuota(old(View()), key, limit)
      ensures r == Ok ==> key in quotas && quotas[key].hardLimit == limit
    {
      if !ValidClass(key.1) || limit < 0 { return Invalid; }
      if key.0 !in projects { return NotFound; }
      if key in quotas {
        if quotas[key].reserved + quotas[key].granted > limit { return QuotaBelowUsage; }
        quotas := quotas[key := quotas[key].(hardLimit := limit, generation := quotas[key].generation + 1)];
      } else {
        quotas := quotas[key := Quota(limit, 0, 0, 1)];
      }
      return Ok;
    }

    method ReserveQuota(now: int, id: string, key: Key, amount: int, operation: string, expiresAt: int)
      returns (r: Outcome)
      modifies this
      ensures (View(), r) == DoReserve(old(View()), now, id, key, amount, operation, expiresAt)
    {
      if !ValidClass(key.1) || amount <= 0 || expiresAt <= now { return Invalid; }
      if key !in quotas { return NotFound; }
      if amount > quotas[key].hardLimit - quotas[key].reserved - quotas[key].granted { return QuotaExceeded; }
      if id in reservations { return Conflict; }
      quotas := quotas[key := quotas[key].(reserved := quotas[key].reserved + amount,
                                           generation := quotas[key].generation + 1)];
      reservations := reservations[id := Reservation(key, amount, Pending, operation, expiresAt)];
      return Ok;
    }

    method TransitionReservation(id: string, target: Status) returns (r: Outcome)
      modifies this
      ensures (View(), r) == DoTransition(old(View()), id, target)
    {
      if id !in reservations { return NotFound; }
      var found := reservations[id];
      if found.status == target { return Ok; }
      if found.status != Pending && !(found.status == Committed && target == Released) { return InvalidTransition; }
      if found.key in quotas {
        var q := quotas[found.key];
        q := q.(generation := q.generation + 1);
        if found.status == Pending { q := q.(reserved := q.reserved - found.amount); }
        if target == Committed { q := q.(granted := q.granted + found.amount); }
        if found.status == Committed { q := q.(granted := q.granted - found.amount); }
        quotas := quotas[found.key := q];
      }
      reservations := reservations[id := found.(status := target)];
      return Ok;
    }

    method AdjustWorkspaceQuota(project: string, delta: int) returns (r: Outcome)
      modifies this`quotas
      ensures (quotas, r) == AdjustQuota(old(quotas), project, delta)
    {
      var key := (project, GPU_CLASS);
      if delta == 0 { return Ok; }
      if delta > 0 {
        if key !in quotas || quotas[key].granted + quotas[key].reserved + delta > quotas[key].hardLimit {
          return QuotaExceeded;
        }
      } else if key !in quotas {
        return Ok;
      }
      var sum := quotas[key].granted + delta;
      if delta < 0 && sum < 0 { sum := 0; }
      quotas := quotas[key := quotas[key].(granted := sum, generation := quotas[key].generation + 1)];
      return Ok;
    }

    /** A failed insert rolls the quota update back with the rest of the transaction. */
    method CreateWorkspace(id: string, project: string, profile: string) returns (r: Outcome)
      modifies this
      ensures (View(), r) == DoCreateWorkspace(old(View()), id, project, profile)
    {
      if project !in projects || profile !in profiles { return NotFound; }
      var before := quotas;
      r := AdjustWorkspaceQuota(project, profiles[profile]);
      if r != Ok { return; }
      if id in workspaces {
        quotas := before;
        return Conflict;
      }
      workspaces := workspaces[id := Created(project, profiles[profile])];
    }

    method SetWorkspaceDesiredState(id: string, desired: Desired) returns (r: Outcome)
      modifies this
      ensures (View(), r) == DoSetDesired(old(View()), id, desired)
    {
      if id !in workspaces { return NotFound; }
      var w := workspaces[id];
      var delta := QuotaDelta(w.desired, desired, w.gpuCount);
      if delta != 0 {
        r := AdjustWorkspaceQuota(w.project, delta);
        if r != Ok { return; }
      }
      workspaces := workspaces[id := WithDesired(w, desired)];
      return Ok;
    }
  }
}
