/**
 Reconciling one workspace: any number of workers load it, start, apply a manifest and complete or fail,
 one SQL statement at a time, while users change its desired state and request snapshots. Statements are
 keyed by workspace, so workspaces do not disturb each other.
 */
module Reconciliation {
  import opened Workspaces

  datatype SnapshotState = Pending | Taken

  /** A manifest sent to the fleet manager and reported applied and available. */
  datatype Work = Work(generation: nat, desired: Desired, snapshots: set<string>)

  datatype Worker =
    | Idle
    | RowRead(snapshotEvent: bool, terminal: bool, row: Workspace)
    | Loaded(snapshotEvent: bool, terminal: bool, row: Workspace, listed: set<string>)
    | Begun(terminal: bool, row: Workspace, listed: set<string>)
    | ApplyDone(row: Workspace, listed: set<string>)
    | ApplyFailed(terminal: bool, row: Workspace)
    | RowCompleted(covered: set<string>)

  /** `applied` only records what was sent; no step depends on it. */
  datatype State = State(
    row: Workspace, snapshots: map<string, SnapshotState>, workers: map<string, Worker>, applied: seq<Work>)

  datatype Step =
    | SetDesired(desired: Desired)
    | CreateSnapshot(id: string)
    | ReadRow(worker: string, snapshotEvent: bool, terminal: bool)
    | ReadSnapshots(worker: string)
    | Proceed(worker: string)
    | Apply(worker: string, ok: bool)
    | Conclude(worker: string)
    | CompleteSnapshots(worker: string)
    | Abandon(worker: string)

  function WorkerOf(s: State, w: string): Worker {
    if w in s.workers then s.workers[w] else Idle
  }

  function At(s: State, w: string, phase: Worker): State {
    s.(workers := s.workers[w := phase])
  }

  /** The branch that skips the apply: the row already reports this generation as reached. */
  predicate Settled(w: Workspace) {
    w.observedGeneration == w.generation && w.provisioning == Succeeded && ObservedMatchesDesired(w)
  }

  /** The branch without a manifest. */
  predicate Fast(snapshotEvent: bool, row: Workspace) {
    !snapshotEvent && Settled(row)
  }

  /** Manifests list the loaded snapshots unless the workspace is to be terminated. */
  function WorkFor(row: Workspace, listed: set<string>): Work {
    Work(row.generation, row.desired, if row.desired == Terminated then {} else listed)
  }

  function AllTaken(snapshots: map<string, SnapshotState>): map<string, SnapshotState> {
    map k | k in snapshots :: Taken
  }

  function PendingOf(snapshots: map<string, SnapshotState>): set<string> {
    set k | k in snapshots && snapshots[k] == Pending
  }

  function Do(s: State, step: Step): State {
    match step
    case SetDesired(d) => s.(row := WithDesired(s.row, d))
    case CreateSnapshot(id) =>
      if s.row.desired == Terminated || id in s.snapshots then s else s.(snapshots := s.snapshots[id := Pending])
    case ReadRow(w, snapshotEvent, terminal) =>
      if WorkerOf(s, w).Idle? then At(s, w, RowRead(snapshotEvent, terminal, s.row)) else s
    case ReadSnapshots(w) =>
      (match WorkerOf(s, w)
       case RowRead(snapshotEvent, terminal, row) => At(s, w, Loaded(snapshotEvent, terminal, row, s.snapshots.Keys))
       case _ => s)
    case Proceed(w) =>
      (match WorkerOf(s, w)
       case Loaded(snapshotEvent, terminal, row, listed) =>
         if Fast(snapshotEvent, row) then At(s, w, RowCompleted({})).(row := Completed(s.row, row.generation))
         else if s.row.generation != row.generation then At(s, w, Idle)
         else At(s, w, Begun(terminal, row, listed)).(row := Started(s.row, row.generation))
       case _ => s)
    case Apply(w, ok) =>
      (match WorkerOf(s, w)
       case Begun(terminal, row, listed) =>
         if ok then At(s, w, ApplyDone(row, listed)).(applied := s.applied + [WorkFor(row, listed)])
         else At(s, w, ApplyFailed(terminal, row))
       case _ => s)
    case Conclude(w) =>
      (match WorkerOf(s, w)
       case ApplyDone(row, listed) =>
         At(s, w, RowCompleted(WorkFor(row, listed).snapshots)).(row := Completed(s.row, row.generation))
       case ApplyFailed(terminal, row) => At(s, w, Idle).(row := MarkedFailed(s.row, row.generation, terminal))
       case _ => s)
    case CompleteSnapshots(w) =>
      if WorkerOf(s, w).RowCompleted? then At(s, w, Idle).(snapshots := AllTaken(s.snapshots)) else s
    case Abandon(w) => At(s, w, Idle)
  }

  function Run(s: State, steps: seq<Step>): State
    decreases |steps|
  {
    if steps == [] then s else Run(Do(s, steps[0]), steps[1..])
  }

  function Initial(project: string, gpuCount: int): State {
    State(Created(project, gpuCount), map[], map[], [])
  }

  // ----- invariants of every run -----

  predicate Carries(p: Worker) {
    !p.Idle? && !p.RowCompleted?
  }

  ghost predicate WasApplied(applied: seq<Work>, generation: nat, desired: Desired) {
    exists i :: 0 <= i < |applied| && applied[i].generation == generation && applied[i].desired == desired
  }

  ghost predicate Sent(applied: seq<Work>, snapshots: set<string>) {
    exists i :: 0 <= i < |applied| && applied[i].snapshots == snapshots
  }

  /** What a worker remembers of the row is still true if the generation has not moved. */
  ghost predicate WorkerOk(row: Workspace, applied: seq<Work>, p: Worker) {
    && (Carries(p) ==>
          && p.row.generation <= row.generation && p.row.observedGeneration <= p.row.generation
          && (p.row.generation == row.generation ==> p.row.desired == row.desired)
          && (Settled(p.row) ==> WasApplied(applied, p.row.generation, p.row.desired)))
    && (p.ApplyDone? ==>
          && WasApplied(applied, p.row.generation, p.row.desired)
          && Sent(applied, WorkFor(p.row, p.listed).snapshots))
    && (p.RowCompleted? ==> p.covered == {} || Sent(applied, p.covered))
  }

  ghost predicate RowOk(row: Workspace, applied: seq<Work>) {
    && 0 <= row.observedGeneration <= row.generation && row.generation >= 1
    && (row.observedGeneration == row.generation ==> WasApplied(applied, row.generation, row.desired))
    && (row.observedGeneration == row.generation && row.provisioning == Succeeded ==> ObservedMatchesDesired(row))
  }

  ghost predicate Inv(s: State) {
    RowOk(s.row, s.applied) && forall w :: w in s.workers ==> WorkerOk(s.row, s.applied, s.workers[w])
  }

  lemma AppliedStays(applied: seq<Work>, next: Work, generation: nat, desired: Desired)
    requires WasApplied(applied, generation, desired)
    ensures WasApplied(applied + [next], generation, desired)
  {
    var i :| 0 <= i < |applied| && applied[i].generation == generation && applied[i].desired == desired;
    assert (applied + [next])[i] == applied[i];
  }

  lemma SentStays(applied: seq<Work>, next: Work, snapshots: set<string>)
    requires Sent(applied, snapshots)
    ensures Sent(applied + [next], snapshots)
  {
    var i :| 0 <= i < |applied| && applied[i].snapshots == snapshots;
    assert (applied + [next])[i] == applied[i];
  }

  lemma ApplyInv(s: State, w: string, ok: bool)
    requires Inv(s)
    ensures Inv(Do(s, Apply(w, ok)))
  {
    var s' := Do(s, Apply(w, ok));
    if WorkerOf(s, w).Begun? && ok {
      var p := WorkerOf(s, w);
      var next := WorkFor(p.row, p.listed);
      assert s'.applied[|s.applied|] == next;
      assert RowOk(s'.row, s'.applied) by {
        if s.row.observedGeneration == s.row.generation {
          AppliedStays(s.applied, next, s.row.generation, s.row.desired);
        }
      }
      forall v | v in s'.workers ensures WorkerOk(s'.row, s'.applied, s'.workers[v]) {
        var q := WorkerOf(s, v);
        if Carries(q) && WasApplied(s.applied, q.row.generation, q.row.desired) {
          AppliedStays(s.applied, next, q.row.generation, q.row.desired);
        }
        if q.ApplyDone? { SentStays(s.applied, next, WorkFor(q.row, q.listed).snapshots); }
        if q.RowCompleted? && q.covered != {} { SentStays(s.applied, next, q.covered); }
      }
    }
  }

  lemma ProceedInv(s: State, w: string)
    requires Inv(s)
    ensures Inv(Do(s, Proceed(w)))
  {
    hide WasApplied, Sent;
  }

  lemma ConcludeInv(s: State, w: string)
    requires Inv(s)
    ensures Inv(Do(s, Conclude(w)))
  {
    hide WasApplied, Sent;
  }

  lemma StepInv(s: State, step: Step)
    requires Inv(s)
    ensures Inv(Do(s, step))
  {
    match step
    case Apply(w, ok) => ApplyInv(s, w, ok);
    case Proceed(w) => ProceedInv(s, w);
    case Conclude(w) => ConcludeInv(s, w);
    case _ => hide WasApplied, Sent;
  }

  lemma {:induction false} RunInv(s: State, steps: seq<Step>)
    requires Inv(s)
    ensures Inv(Run(s, steps))
    decreases |steps|
  {
    if steps != [] {
      StepInv(s, steps[0]);
      RunInv(Do(s, steps[0]), steps[1..]);
    }
  }

  /**
   In every reachable state the observed generation does not run ahead; a row that reports its current
   generation as succeeded shows the desired state, and a manifest of that generation with that desired
   state was applied.
   */
  lemma ReachableRow(project: string, gpuCount: int, steps: seq<Step>)
    ensures var s := Run(Initial(project, gpuCount), steps);
      && s.row.observedGeneration <= s.row.generation
      && (s.row.provisioning == Succeeded && s.row.observedGeneration == s.row.generation ==> Shows(s.row))
      && (s.row.observedGeneration == s.row.generation ==> WasApplied(s.applied, s.row.generation, s.row.desired))
  {
    RunInv(Initial(project, gpuCount), steps);
  }

  // ----- stale workers -----

  function ActorOf(step: Step): string {
    match step
    case SetDesired(_) => "" case CreateSnapshot(_) => ""
    case ReadRow(w, _, _) => w case ReadSnapshots(w) => w case Proceed(w) => w case Apply(w, _) => w
    case Conclude(w) => w case CompleteSnapshots(w) => w case Abandon(w) => w
  }

  predicate IsWorkerStep(step: Step) {
    !step.SetDesired? && !step.CreateSnapshot?
  }

  /** The worker loaded a generation that is no longer the current one. */
  predicate Stale(s: State, w: string) {
    Carries(WorkerOf(s, w)) && WorkerOf(s, w).row.generation < s.row.generation
  }

  /** A worker with an older generation never alters the row, and cannot begin. */
  lemma StaleStep(s: State, step: Step)
    requires IsWorkerStep(step) && Stale(s, ActorOf(step))
    ensures Do(s, step).row == s.row
    ensures WorkerOf(Do(s, step), ActorOf(step)).Begun? ==> WorkerOf(s, ActorOf(step)).Begun?
  {
  }

  lemma GenerationGrows(s: State, step: Step)
    ensures s.row.generation <= Do(s, step).row.generation
  {
  }

  /** Once stale, a worker stays stale until its reconcile ends. */
  lemma {:induction false} StaleForever(s: State, steps: seq<Step>, w: string)
    requires Stale(s, w)
    requires forall i :: 0 <= i < |steps| ==> !(steps[i].ReadRow? && steps[i].worker == w)
    ensures var p := WorkerOf(Run(s, steps), w); Stale(Run(s, steps), w) || p.Idle? || p.RowCompleted?
    decreases |steps|
  {
    if steps != [] {
      var s' := Do(s, steps[0]);
      GenerationGrows(s, steps[0]);
      if Stale(s', w) { StaleForever(s', steps[1..], w); } else { EndedStays(s', steps[1..], w); }
    }
  }

  lemma {:induction false} EndedStays(s: State, steps: seq<Step>, w: string)
    requires WorkerOf(s, w).Idle? || WorkerOf(s, w).RowCompleted?
    requires forall i :: 0 <= i < |steps| ==> !(steps[i].ReadRow? && steps[i].worker == w)
    ensures WorkerOf(Run(s, steps), w).Idle? || WorkerOf(Run(s, steps), w).RowCompleted?
    decreases |steps|
  {
    if steps != [] { EndedStays(Do(s, steps[0]), steps[1..], w); }
  }

  /** What the owner of a workspace asks for: a new desired state opens a generation, a snapshot waits to be taken. */
  lemma RequestsMade(s: State, desired: Desired, id: string)
    ensures var row, row' := s.row, Do(s, SetDesired(desired)).row;
      && Do(s, SetDesired(desired)) == s.(row := row')
      && row'.desired == desired && row'.generation == row.generation + 1
      && row'.observed == row.observed && row'.provisioning == row.provisioning
      && row'.observedGeneration == row.observedGeneration
      && row'.project == row.project && row'.gpuCount == row.gpuCount
    ensures var s' := Do(s, CreateSnapshot(id));
      && s' == s.(snapshots := s'.snapshots) && s'.snapshots - {id} == s.snapshots - {id}
      && (id in s'.snapshots <==> id in s.snapshots || s.row.desired != Terminated)
      && (id in s'.snapshots ==> s'.snapshots[id] == if id in s.snapshots then s.snapshots[id] else Pending)
  {
  }

  /** A settled row: the current generation is reported as succeeded and shows the desired state. */
  lemma SettledMeans(w: Workspace)
    ensures Settled(w) <==> w.provisioning == Succeeded && w.observedGeneration == w.generation && Shows(w)
  {
    MatchesIsShows(w);
  }

  // ----- a settled row -----

  /** Nobody is in the middle of applying; loaded rows are this settled row. */
  ghost predicate Quiet(s: State) {
    && Settled(s.row)
    && forall w :: w in s.workers ==>
         var p := s.workers[w];
         && !p.Begun? && !p.ApplyDone? && !p.ApplyFailed?
         && (Carries(p) ==> p.row == s.row && !(if p.RowRead? then p.snapshotEvent else p.Loaded? && p.snapshotEvent))
  }

  predicate Redelivery(step: Step) {
    !step.SetDesired? && (step.ReadRow? ==> !step.snapshotEvent)
  }

  lemma QuietStep(s: State, step: Step)
    requires Quiet(s) && Redelivery(step)
    ensures Quiet(Do(s, step)) && Do(s, step).row == s.row && Do(s, step).applied == s.applied
  {
  }

  /**
   A settled row is a fixpoint: events other than new snapshots, handled by any number of workers, leave
   the row alone and apply nothing.
   */
  lemma {:induction false} SettledIsFixpoint(s: State, steps: seq<Step>)
    requires Quiet(s) && forall i :: 0 <= i < |steps| ==> Redelivery(steps[i])
    ensures var s' := Run(s, steps); Quiet(s') && s'.row == s.row && s'.applied == s.applied
    decreases |steps|
  {
    if steps != [] {
      QuietStep(s, steps[0]);
      SettledIsFixpoint(Do(s, steps[0]), steps[1..]);
    }
  }

  /**
   One step unsettles a settled row exactly if it sets a desired state, or a worker that loaded this generation
   starts over on the apply path, or reports that its apply failed.
   */
  lemma UnsettledIff(s: State, step: Step)
    requires Settled(s.row)
    ensures !Settled(Do(s, step).row) <==>
      || step.SetDesired?
      || (step.Proceed? && var p := WorkerOf(s, step.worker);
            p.Loaded? && p.row.generation == s.row.generation && (p.snapshotEvent || !Settled(p.row)))
      || (step.Conclude? && var p := WorkerOf(s, step.worker);
            p.ApplyFailed? && p.row.generation == s.row.generation)
  {
  }

  /** A worker on the apply path for the row's generation. */
  predicate MayUnsettle(p: Worker, row: Workspace) {
    match p
    case RowRead(snapshotEvent, _, loaded) => loaded.generation == row.generation && !Fast(snapshotEvent, loaded)
    case Loaded(snapshotEvent, _, loaded, _) => loaded.generation == row.generation && !Fast(snapshotEvent, loaded)
    case Begun(_, loaded, _) => loaded.generation == row.generation
    case ApplyFailed(_, loaded) => loaded.generation == row.generation
    case _ => false
  }

  predicate Calm(s: State) {
    Settled(s.row) && forall w :: w in s.workers ==> !MayUnsettle(s.workers[w], s.row)
  }

  predicate Redeliveries(steps: seq<Step>) {
    forall i :: 0 <= i < |steps| ==> Redelivery(steps[i])
  }

  lemma CalmStep(s: State, step: Step)
    requires Calm(s) && Redelivery(step)
    ensures Calm(Do(s, step)) && Do(s, step).row == s.row
  {
    UnsettledIff(s, step);
  }

  lemma {:induction false} CalmRun(s: State, steps: seq<Step>)
    requires Calm(s) && Redeliveries(steps)
    ensures Calm(Run(s, steps)) && Run(s, steps).row == s.row
    decreases |steps|
  {
    if steps != [] {
      CalmStep(s, steps[0]);
      hide Do, Calm, Redelivery;
      CalmRun(Do(s, steps[0]), steps[1..]);
    }
  }

  lemma RunTwo(s: State, a: Step, b: Step)
    ensures Run(s, [a]) == Do(s, a) && Run(s, [a, b]) == Do(Do(s, a), b)
  {
    hide Do;
    RunOne(s, [a], a, []);
    RunOne(s, [a, b], a, [b]);
    RunOne(Do(s, a), [b], b, []);
  }

  /** What such a worker can still do. */
  lemma Unsettling(s: State, w: string) returns (steps: seq<Step>)
    requires Settled(s.row) && w in s.workers && MayUnsettle(s.workers[w], s.row)
    ensures Redeliveries(steps) && !Settled(Run(s, steps).row)
  {
    match s.workers[w]
    case RowRead(_, _, _) =>
      steps := [ReadSnapshots(w), Proceed(w)];
      RunTwo(s, ReadSnapshots(w), Proceed(w));
      UnsettledIff(Do(s, ReadSnapshots(w)), Proceed(w));
      hide Run;
    case Loaded(_, _, _, _) =>
      steps := [Proceed(w)];
      RunTwo(s, Proceed(w), Proceed(w));
      UnsettledIff(s, Proceed(w));
      hide Run;
    case Begun(_, _, _) =>
      steps := [Apply(w, false), Conclude(w)];
      RunTwo(s, Apply(w, false), Conclude(w));
      UnsettledIff(Do(s, Apply(w, false)), Conclude(w));
      hide Run;
    case ApplyFailed(_, _) =>
      steps := [Conclude(w)];
      RunTwo(s, Conclude(w), Conclude(w));
      UnsettledIff(s, Conclude(w));
      hide Run;
    case _ => assert false;
  }

  /**
   A settled row stays as it is under all later redeliveries, by any number of workers in any interleaving,
   exactly if no worker is on the apply path for its generation when they start.
   */
  lemma StaysSettledIff(s: State)
    requires Settled(s.row)
    ensures Calm(s) <==> forall steps :: Redeliveries(steps) ==> Settled(Run(s, steps).row)
    ensures Calm(s) ==> forall steps :: Redeliveries(steps) ==> Run(s, steps).row == s.row
  {
    hide Do, Run, Redelivery, MayUnsettle;
    if Calm(s) {
      forall steps | Redeliveries(steps) ensures Run(s, steps).row == s.row { CalmRun(s, steps); }
    } else {
      var w :| w in s.workers && MayUnsettle(s.workers[w], s.row);
      var steps := Unsettling(s, w);
    }
  }

  // ----- one undisturbed reconcile -----

  function Alone(w: string, snapshotEvent: bool, terminal: bool, ok: bool): seq<Step> {
    [ReadRow(w, snapshotEvent, terminal), ReadSnapshots(w), Proceed(w), Apply(w, ok), Conclude(w), CompleteSnapshots(w)]
  }

  lemma RunOne(s: State, steps: seq<Step>, first: Step, rest: seq<Step>)
    requires steps == [first] + rest
    ensures Run(s, steps) == Run(Do(s, first), rest)
  {
    assert steps[1..] == rest;
  }

  lemma RunSix(s: State, a: Step, b: Step, c: Step, d: Step, e: Step, f: Step)
    ensures Run(s, [a, b, c, d, e, f]) == Do(Do(Do(Do(Do(Do(s, a), b), c), d), e), f)
  {
    hide Do;
    RunOne(s, [a, b, c, d, e, f], a, [b, c, d, e, f]);
    var s1 := Do(s, a);
    RunOne(s1, [b, c, d, e, f], b, [c, d, e, f]);
    var s2 := Do(s1, b);
    RunOne(s2, [c, d, e, f], c, [d, e, f]);
    var s3 := Do(s2, c);
    RunOne(s3, [d, e, f], d, [e, f]);
    var s4 := Do(s3, d);
    RunOne(s4, [e, f], e, [f]);
    RunOne(Do(s4, e), [f], f, []);
  }

  lemma LoadAlone(s: State, w: string, snapshotEvent: bool, terminal: bool)
    requires WorkerOf(s, w).Idle?
    ensures var s' := Do(Do(s, ReadRow(w, snapshotEvent, terminal)), ReadSnapshots(w));
      && WorkerOf(s', w) == Loaded(snapshotEvent, terminal, s.row, s.snapshots.Keys)
      && s'.row == s.row && s'.snapshots == s.snapshots && s'.applied == s.applied
  {
  }

  lemma FastAlone(s: State, w: string, terminal: bool, listed: set<string>, ok: bool)
    requires Inv(s) && WorkerOf(s, w) == Loaded(false, terminal, s.row, listed) && Settled(s.row)
    ensures var s' := Do(Do(Do(Do(s, Proceed(w)), Apply(w, ok)), Conclude(w)), CompleteSnapshots(w));
      && WorkerOf(s', w).Idle? && s'.row == s.row && s'.applied == s.applied && s'.snapshots == AllTaken(s.snapshots)
  {
    hide Inv;
    var s1 := Do(s, Proceed(w));
    assert WorkerOf(s1, w) == RowCompleted({}) && s1.row == s.row;
    assert Do(Do(s1, Apply(w, ok)), Conclude(w)) == s1;
  }

  lemma SlowAlone(s: State, w: string, snapshotEvent: bool, terminal: bool, listed: set<string>, ok: bool)
    requires WorkerOf(s, w) == Loaded(snapshotEvent, terminal, s.row, listed) && (snapshotEvent || !Settled(s.row))
    ensures var s' := Do(Do(Do(Do(s, Proceed(w)), Apply(w, ok)), Conclude(w)), CompleteSnapshots(w));
      && WorkerOf(s', w).Idle?
      && s'.row == (if ok then Completed(Started(s.row, s.row.generation), s.row.generation)
                    else MarkedFailed(Started(s.row, s.row.generation), s.row.generation, terminal))
      && s'.snapshots == (if ok then AllTaken(s.snapshots) else s.snapshots)
      && s'.applied == (if ok then s.applied + [WorkFor(s.row, listed)] else s.applied)
  {
    var s1 := Do(s, Proceed(w));
    assert WorkerOf(s1, w) == Begun(terminal, s.row, listed) && s1.row == Started(s.row, s.row.generation);
    var s2 := Do(s1, Apply(w, ok));
    assert WorkerOf(s2, w) == if ok then ApplyDone(s.row, listed) else ApplyFailed(terminal, s.row);
    var s3 := Do(s2, Conclude(w));
    assert ok ==> WorkerOf(s3, w).RowCompleted?;
  }

  /** What an undisturbed reconcile leaves behind. */
  lemma AloneOutcome(s: State, w: string, snapshotEvent: bool, terminal: bool, ok: bool)
    requires Inv(s) && WorkerOf(s, w).Idle?
    ensures var s' := Run(s, Alone(w, snapshotEvent, terminal, ok)); var g := s.row.generation;
      && WorkerOf(s', w).Idle?
      && (if Fast(snapshotEvent, s.row) then
            s'.row == s.row && s'.snapshots == AllTaken(s.snapshots) && s'.applied == s.applied
          else if ok then
            s'.row == Completed(Started(s.row, g), g) && s'.snapshots == AllTaken(s.snapshots)
            && s'.applied == s.applied + [WorkFor(s.row, s.snapshots.Keys)]
          else
            s'.row == MarkedFailed(Started(s.row, g), g, terminal) && s'.snapshots == s.snapshots
            && s'.applied == s.applied)
  {
    RunSix(s, ReadRow(w, snapshotEvent, terminal), ReadSnapshots(w), Proceed(w), Apply(w, ok), Conclude(w),
      CompleteSnapshots(w));
    LoadAlone(s, w, snapshotEvent, terminal);
    var s1 := Do(Do(s, ReadRow(w, snapshotEvent, terminal)), ReadSnapshots(w));
    StepInv(s, ReadRow(w, snapshotEvent, terminal));
    StepInv(Do(s, ReadRow(w, snapshotEvent, terminal)), ReadSnapshots(w));
    if Fast(snapshotEvent, s.row) { FastAlone(s1, w, terminal, s.snapshots.Keys, ok); }
    else { SlowAlone(s1, w, snapshotEvent, terminal, s.snapshots.Keys, ok); }
    hide Inv, Run, Do;
  }

  /**
   The same, written out. The branch without a manifest only takes the snapshots; a successful apply sends one
   manifest of this generation and reports the desired state as reached; a failed one reports nothing as observed,
   and the workspace as failed only on the last attempt.
   */
  lemma AloneLeaves(s: State, w: string, snapshotEvent: bool, terminal: bool, ok: bool)
    requires Inv(s) && WorkerOf(s, w).Idle?
    ensures var s' := Run(s, Alone(w, snapshotEvent, terminal, ok)); var row, row' := s.row, s'.row;
      var listed := if row.desired == Terminated then {} else s.snapshots.Keys;
      && row'.desired == row.desired && row'.generation == row.generation
      && row'.project == row.project && row'.gpuCount == row.gpuCount
      && s'.snapshots.Keys == s.snapshots.Keys
      && (forall id :: id in s.snapshots ==>
            s'.snapshots[id] == if Fast(snapshotEvent, row) || ok then Taken else s.snapshots[id])
      && (if Fast(snapshotEvent, row) then row' == row && s'.applied == s.applied
          else if ok then
            && row'.provisioning == Succeeded && row'.observedGeneration == row.generation && Shows(row')
            && s'.applied == s.applied + [Work(row.generation, row.desired, listed)]
          else
            && row'.provisioning == (if terminal then Failed else InProgress) && row'.observed == ObservedUnknown
            && row'.observedGeneration == row.observedGeneration && s'.applied == s.applied)
  {
    AloneOutcome(s, w, snapshotEvent, terminal, ok);
    hide Inv, Run, Settled, Alone, WorkerOf;
  }

  /** Left alone, a reconcile settles the row exactly if it was settled or its apply succeeds. */
  lemma AloneSettles(s: State, w: string, snapshotEvent: bool, terminal: bool, ok: bool)
    requires Inv(s) && WorkerOf(s, w).Idle?
    ensures var s' := Run(s, Alone(w, snapshotEvent, terminal, ok));
      && (s'.row.provisioning == Succeeded && s'.row.observedGeneration == s'.row.generation && Shows(s'.row) <==>
            ok || Fast(snapshotEvent, s.row))
      && (Settled(s'.row) <==> ok || Fast(snapshotEvent, s.row))
      && s'.row.desired == s.row.desired && s'.row.generation == s.row.generation
  {
    AloneOutcome(s, w, snapshotEvent, terminal, ok);
    hide Inv, Run;
  }

  predicate OthersIdle(s: State, w: string) {
    forall v :: v in s.workers && v != w ==> s.workers[v].Idle?
  }

  lemma {:induction false} OthersStayIdle(s: State, w: string, steps: seq<Step>)
    requires OthersIdle(s, w) && forall i :: 0 <= i < |steps| ==> IsWorkerStep(steps[i]) && ActorOf(steps[i]) == w
    ensures OthersIdle(Run(s, steps), w)
    decreases |steps|
  {
    if steps != [] {
      assert OthersIdle(Do(s, steps[0]), w);
      OthersStayIdle(Do(s, steps[0]), w, steps[1..]);
    }
  }

  lemma AloneEndsIdle(s: State, w: string, snapshotEvent: bool, terminal: bool, ok: bool)
    requires Inv(s) && WorkerOf(s, w).Idle? && OthersIdle(s, w)
    ensures var s' := Run(s, Alone(w, snapshotEvent, terminal, ok)); WorkerOf(s', w).Idle? && OthersIdle(s', w)
  {
    AloneOutcome(s, w, snapshotEvent, terminal, ok);
    hide Run, Inv, OthersIdle, WorkerOf;
    OthersStayIdle(s, w, Alone(w, snapshotEvent, terminal, ok));
  }

  lemma QuietWhenIdle(s: State, w: string)
    requires Settled(s.row) && WorkerOf(s, w).Idle? && OthersIdle(s, w)
    ensures Quiet(s)
  {
  }

  /**
   With no other worker at it, a reconcile that settles the row settles it for good: redelivered events,
   handled by any number of workers, change nothing until a desired state is set or a snapshot event comes.
   */
  lemma SettledForGood(s: State, w: string, snapshotEvent: bool, terminal: bool, ok: bool, later: seq<Step>)
    requires Inv(s) && WorkerOf(s, w).Idle? && OthersIdle(s, w) && (ok || Fast(snapshotEvent, s.row))
    requires forall i :: 0 <= i < |later| ==> Redelivery(later[i])
    ensures var s1 := Run(s, Alone(w, snapshotEvent, terminal, ok)); var s2 := Run(s1, later);
      Settled(s1.row) && s2.row == s1.row && s2.applied == s1.applied
  {
    hide *;
    var s1 := Run(s, Alone(w, snapshotEvent, terminal, ok));
    AloneSettles(s, w, snapshotEvent, terminal, ok);
    AloneEndsIdle(s, w, snapshotEvent, terminal, ok);
    QuietWhenIdle(s1, w);
    SettledIsFixpoint(s1, later);
  }

  // ----- the repository calls, in place -----

  class Repository {
    var row: Workspace
    var snapshots: map<string, SnapshotState>
    var applied: seq<Work>

    ghost function View(): State
      reads this
    {
      State(row, snapshots, map[], applied)
    }

    constructor (project: string, gpuCount: int)
      ensures View() == Initial(project, gpuCount)
    {
      row, snapshots, applied := Created(project, gpuCount), map[], [];
    }

    method StartWorkspace(generation: int) returns (ok: bool)
      modifies this`row
      ensures row == Started(old(row), generation) && (ok <==> old(row).generation == generation)
    {
      ok := row.generation == generation;
      if ok { row := row.(provisioning := InProgress, observed := ObservedUnknown); }
    }

    /** Two statements; only the first is guarded by the generation. */
    method CompleteWorkspace(generation: int)
      modifies this`row, this`snapshots
      ensures row == Completed(old(row), generation) && snapshots == AllTaken(old(snapshots))
      ensures old(row).generation == generation ==>
        Shows(row) && row.provisioning == Succeeded && row.observedGeneration == generation
    {
      CompletionShows(row, generation);
      if row.generation == generation {
        row := row.(observed := match row.desired
                                case Running => ObservedRunning
                                case Stopped => ObservedStopped
                                case Terminated => ObservedTerminated,
                    provisioning := Succeeded, observedGeneration := row.generation);
      }
      var rest := PendingOf(snapshots);
      while rest != {}
        invariant snapshots.Keys == old(snapshots).Keys && row == Completed(old(row), generation)
        invariant rest == PendingOf(snapshots)
        invariant forall k :: k in snapshots && k !in rest ==> snapshots[k] == Taken
        decreases |rest|
      {
        var id :| id in rest;
        snapshots := snapshots[id := Taken];
        rest := rest - {id};
      }
      assert snapshots == AllTaken(old(snapshots));
    }

    method FailWorkspace(generation: int, terminal: bool)
      modifies this`row
      ensures row == MarkedFailed(old(row), generation, terminal)
    {
      if row.generation == generation { row := row.(provisioning := if terminal then Failed else InProgress); }
    }

    /** `fleetOk` is what the fleet manager answers to the manifest. */
    method Reconcile(snapshotEvent: bool, terminal: bool, fleetOk: bool) returns (ok: bool)
      requires Inv(View())
      modifies this
      ensures var s := Run(old(View()), Alone(FIRST, snapshotEvent, terminal, fleetOk));
        View() == s.(workers := map[])
      ensures ok <==> Settled(row)
    {
      AloneOutcome(View(), FIRST, snapshotEvent, terminal, fleetOk);
      AloneSettles(View(), FIRST, snapshotEvent, terminal, fleetOk);
      hide Run, Inv;
      var loaded, listed := row, snapshots.Keys;
      if !snapshotEvent && loaded.observedGeneration == loaded.generation && loaded.provisioning == Succeeded
         && ObservedMatchesDesired(loaded) {
        CompleteWorkspace(loaded.generation);
        return true;
      }
      var started := StartWorkspace(loaded.generation);
      if !started { return false; }
      if !fleetOk {
        FailWorkspace(loaded.generation, terminal);
        return false;
      }
      applied := applied + [WorkFor(loaded, listed)];
      CompleteWorkspace(loaded.generation);
      return true;
    }
  }

  // ----- snapshots -----

  predicate Listed(applied: seq<Work>, id: string) {
    exists i :: 0 <= i < |applied| && id in applied[i].snapshots
  }

  predicate NewlyTaken(before: State, after: State, id: string) {
    id in before.snapshots && before.snapshots[id] == Pending && id in after.snapshots && after.snapshots[id] == Taken
  }

  /** Every snapshot that became taken was listed in some applied manifest. */
  predicate TakenListed(before: State, after: State) {
    forall id :: id in before.snapshots && NewlyTaken(before, after, id) ==> Listed(after.applied, id)
  }

  predicate PendingListed(s: State, ids: set<string>) {
    forall id :: id in ids && id in PendingOf(s.snapshots) ==> Listed(s.applied, id)
  }

  lemma ListedAppend(applied: seq<Work>, next: Work, id: string)
    ensures Listed(applied + [next], id) <==> Listed(applied, id) || id in next.snapshots
  {
    if Listed(applied, id) {
      var i :| 0 <= i < |applied| && id in applied[i].snapshots;
      assert (applied + [next])[i] == applied[i];
    }
    if id in next.snapshots { assert (applied + [next])[|applied|] == next; }
  }

  /**
   An undisturbed reconcile takes listed snapshots only, exactly if every pending one was listed before, or it
   applies a manifest that may list them, or its apply fails and it takes none.
   */
  lemma AloneTakesListedIff(s: State, w: string, snapshotEvent: bool, terminal: bool, ok: bool)
    requires Inv(s) && WorkerOf(s, w).Idle?
    ensures TakenListed(s, Run(s, Alone(w, snapshotEvent, terminal, ok))) <==>
      || PendingListed(s, s.snapshots.Keys)
      || (!Fast(snapshotEvent, s.row) && (!ok || s.row.desired != Terminated))
  {
    AloneOutcome(s, w, snapshotEvent, terminal, ok);
    hide Inv, Run, Listed, Settled;
    var s' := Run(s, Alone(w, snapshotEvent, terminal, ok));
    forall id
      ensures Listed(s'.applied, id) <==>
        Listed(s.applied, id) || (s'.applied != s.applied && id in s'.applied[|s.applied|].snapshots)
    {
      if s'.applied != s.applied { ListedAppend(s.applied, WorkFor(s.row, s.snapshots.Keys), id); }
    }
    if !Fast(snapshotEvent, s.row) && !ok {
      assert TakenListed(s, s');
    } else {
      assert forall id :: id in s.snapshots ==> (NewlyTaken(s, s', id) <==> id in PendingOf(s.snapshots));
    }
  }

  // Interleaved: from reading the snapshots to completing them.

  /** What the worker's completion covers: the snapshots it read, if it goes on to list them. */
  function Covered(p: Worker): set<string>
    requires p.Loaded?
  {
    if Fast(p.snapshotEvent, p.row) || p.row.desired == Terminated then {} else p.listed
  }

  /** Where a worker that loaded `p` may be, until it reads a row again. */
  predicate From(p: Worker, now: Worker)
    requires p.Loaded?
  {
    match now
    case Loaded(_, _, _, _) => now == p
    case Begun(_, row, listed) => row == p.row && listed == p.listed && !Fast(p.snapshotEvent, p.row)
    case ApplyDone(row, listed) => row == p.row && listed == p.listed && !Fast(p.snapshotEvent, p.row)
    case RowCompleted(covered) => covered == Covered(p)
    case RowRead(_, _, _) => false
    case _ => true
  }

  predicate Reads(step: Step, w: string) {
    step.ReadRow? && step.worker == w
  }

  lemma FromStep(s: State, step: Step, w: string, p: Worker)
    requires p.Loaded? && From(p, WorkerOf(s, w)) && !Reads(step, w)
    ensures From(p, WorkerOf(Do(s, step), w)) && s.snapshots.Keys <= Do(s, step).snapshots.Keys
  {
    hide Settled;
  }

  lemma {:induction false} FromRun(s: State, steps: seq<Step>, w: string, p: Worker)
    requires p.Loaded? && From(p, WorkerOf(s, w)) && forall i :: 0 <= i < |steps| ==> !Reads(steps[i], w)
    ensures From(p, WorkerOf(Run(s, steps), w)) && s.snapshots.Keys <= Run(s, steps).snapshots.Keys
    decreases |steps|
  {
    if steps != [] {
      hide Do, From;
      FromStep(s, steps[0], w, p);
      FromRun(Do(s, steps[0]), steps[1..], w, p);
    }
  }

  /**
   Whatever runs between a worker's read of the snapshots and its completion of them: the completion takes
   every pending snapshot, and those are all listed exactly if the ones its own manifest could not list were
   listed by another worker: those created after the read, and all of them on the branch without a manifest
   or towards termination.
   */
  lemma CompletionTakesListedIff(s: State, w: string, steps: seq<Step>)
    requires Inv(s) && WorkerOf(s, w).RowRead? && forall i :: 0 <= i < |steps| ==> !Reads(steps[i], w)
    requires WorkerOf(Run(Do(s, ReadSnapshots(w)), steps), w).RowCompleted?
    ensures var p := WorkerOf(s, w);
      var s1 := Run(Do(s, ReadSnapshots(w)), steps);
      var s2 := Do(s1, CompleteSnapshots(w));
      var lists := !Fast(p.snapshotEvent, p.row) && p.row.desired != Terminated;
      && PendingOf(s2.snapshots) == {}
      && (TakenListed(s1, s2) <==>
        PendingListed(s1, if lists then s1.snapshots.Keys - s.snapshots.Keys else s1.snapshots.Keys))
  {
    var s0 := Do(s, ReadSnapshots(w));
    var s1 := Run(s0, steps);
    var p := WorkerOf(s0, w);
    assert p.Loaded? && p.listed == s.snapshots.Keys && From(p, p);
    FromRun(s0, steps, w, p);
    StepInv(s, ReadSnapshots(w));
    RunInv(s0, steps);
    CoveredListed(s1, w);
    hide Inv, Run, Listed, Settled, Sent;
    CompletionTakes(s1, w, Covered(p));
  }

  lemma CoveredListed(s: State, w: string)
    requires Inv(s) && WorkerOf(s, w).RowCompleted?
    ensures forall id :: id in WorkerOf(s, w).covered ==> Listed(s.applied, id)
  {
    var covered := WorkerOf(s, w).covered;
    if covered != {} {
      assert WorkerOk(s.row, s.applied, s.workers[w]);
      var i :| 0 <= i < |s.applied| && s.applied[i].snapshots == covered;
      assert forall id :: id in covered ==> id in s.applied[i].snapshots;
    }
  }

  lemma CompletionTakes(s: State, w: string, covered: set<string>)
    requires WorkerOf(s, w).RowCompleted? && forall id :: id in covered ==> Listed(s.applied, id)
    ensures var s' := Do(s, CompleteSnapshots(w));
      PendingOf(s'.snapshots) == {} && (TakenListed(s, s') <==> PendingListed(s, s.snapshots.Keys - covered))
  {
    hide Listed;
    var s' := Do(s, CompleteSnapshots(w));
    assert forall id :: id in s.snapshots ==> (NewlyTaken(s, s', id) <==> id in PendingOf(s.snapshots));
  }

  const FIRST := "worker-1"
  const SECOND := "worker-2"

  /** A snapshot can be reported taken although no manifest ever listed it: a redelivered event is enough. */
  lemma TakenWithoutApply(project: string, gpuCount: int)
    ensures var a, b := Alone(FIRST, false, false, true), Alone(SECOND, false, false, true);
      var steps := a + ([CreateSnapshot("late")] + b);
      var s := Run(Initial(project, gpuCount), steps);
      && "late" in s.snapshots && s.snapshots["late"] == Taken
      && forall i :: 0 <= i < |s.applied| ==> "late" !in s.applied[i].snapshots
  {
    var s0 := Initial(project, gpuCount);
    var a, b := Alone(FIRST, false, false, true), Alone(SECOND, false, false, true);
    RunAppend(s0, a, [CreateSnapshot("late")] + b);
    FirstReconcile(project, gpuCount);
    hide Inv, Run, Alone, Settled, WorkerOf;
    LateSnapshotTaken(Run(s0, a));
  }

  lemma FirstReconcile(project: string, gpuCount: int)
    ensures var s := Run(Initial(project, gpuCount), Alone(FIRST, false, false, true));
      && Inv(s) && Settled(s.row) && s.row.desired != Terminated && s.snapshots == map[]
      && WorkerOf(s, SECOND).Idle? && |s.applied| == 1 && "late" !in s.applied[0].snapshots
  {
    var s0, a := Initial(project, gpuCount), Alone(FIRST, false, false, true);
    AloneOutcome(s0, FIRST, false, false, true);
    AloneSettles(s0, FIRST, false, false, true);
    RunInv(s0, a);
    OtherWorkersUntouched(s0, FIRST, SECOND, a);
    hide Inv, Run;
  }

  lemma LateSnapshotTaken(s: State)
    requires Inv(s) && Settled(s.row) && s.row.desired != Terminated && "late" !in s.snapshots
    requires WorkerOf(s, SECOND).Idle?
    ensures var s' := Run(s, [CreateSnapshot("late")] + Alone(SECOND, false, false, true));
      "late" in s'.snapshots && s'.snapshots["late"] == Taken && s'.applied == s.applied
  {
    var step := CreateSnapshot("late");
    RunOne(s, [step] + Alone(SECOND, false, false, true), step, Alone(SECOND, false, false, true));
    StepInv(s, step);
    AloneOutcome(Do(s, step), SECOND, false, false, true);
    hide Run;
  }

  lemma {:induction false} RunAppend(s: State, a: seq<Step>, b: seq<Step>)
    ensures Run(s, a + b) == Run(Run(s, a), b)
    decreases |a|
  {
    if a == [] {
      assert a + b == b;
    } else {
      assert (a + b)[0] == a[0] && (a + b)[1..] == a[1..] + b;
      RunAppend(Do(s, a[0]), a[1..], b);
    }
  }

  lemma OneWorkerStep(s: State, w: string, v: string, step: Step)
    requires v != w && IsWorkerStep(step) && ActorOf(step) == w
    ensures var s' := Do(s, step);
      WorkerOf(s', v) == WorkerOf(s, v) && s'.snapshots.Keys == s.snapshots.Keys && s'.row.desired == s.row.desired
  {
  }

  lemma {:induction false} OtherWorkersUntouched(s: State, w: string, v: string, steps: seq<Step>)
    requires v != w && forall i :: 0 <= i < |steps| ==> IsWorkerStep(steps[i]) && ActorOf(steps[i]) == w
    ensures WorkerOf(Run(s, steps), v) == WorkerOf(s, v)
    ensures Run(s, steps).snapshots.Keys == s.snapshots.Keys
    ensures Run(s, steps).row.desired == s.row.desired
    decreases |steps|
  {
    if steps != [] {
      OneWorkerStep(s, w, v, steps[0]);
      hide Do;
      OtherWorkersUntouched(Do(s, steps[0]), w, v, steps[1..]);
    }
  }
}
