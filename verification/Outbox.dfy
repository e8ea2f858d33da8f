/**
 The transactional outbox: events are claimed under a lease, and the attempt count of a claim is the
 generation that fences its worker. Every statement is atomic; statements of any number of workers and
 clock ticks interleave freely.
 */
module Outbox {
  import opened Basics
  import opened Text

  // Times are milliseconds of the database clock.
  datatype Event = Event(
    eventType: string, occurredAt: int, availableAt: int,
    lockedBy: Option<string>, lockedUntil: Option<int>, attempts: nat,
    delivered: Option<int>, dead: Option<int>, lastError: Option<string>)

  type Table = map<string, Event>

  datatype Outcome = Ok | Invalid | LeaseLost

  // ----- claiming -----

  datatype Claim = Claim(worker: string, eventType: string, limit: int, lease: int)

  predicate ValidClaim(c: Claim) {
    !Blank(c.worker) && |c.eventType| <= 255 && 1 <= c.limit <= 1000 && c.lease >= 1
  }

  predicate Claimable(e: Event, now: int, eventType: string) {
    && e.delivered.None? && e.dead.None?
    && e.availableAt <= now
    && (e.lockedUntil.None? || e.lockedUntil.value <= now)
    && (eventType == "" || e.eventType == eventType)
  }

  /** `visible` are the rows no other transaction holds locked at this moment (SKIP LOCKED). */
  function Candidates(t: Table, now: int, eventType: string, visible: set<string>): set<string> {
    set k | k in t.Keys && k in visible && Claimable(t[k], now, eventType)
  }

  /** ORDER BY available_at, occurred_at, id. */
  predicate Before(t: Table, a: string, b: string)
    requires a in t && b in t
  {
    || t[a].availableAt < t[b].availableAt
    || (t[a].availableAt == t[b].availableAt
        && (t[a].occurredAt < t[b].occurredAt || (t[a].occurredAt == t[b].occurredAt && Less(a, b))))
  }

  lemma BeforeTotal(t: Table, a: string, b: string)
    requires a in t && b in t
    ensures a != b ==> (Before(t, a, b) <==> !Before(t, b, a))
    ensures !Before(t, a, a)
  {
    LessTotal(a, b);
    LessIrreflexive(a);
  }

  lemma BeforeTransitive(t: Table, a: string, b: string, c: string)
    requires a in t && b in t && c in t && Before(t, a, b) && Before(t, b, c)
    ensures Before(t, a, c)
  {
    if Less(a, b) && Less(b, c) { LessTransitive(a, b, c); }
  }

  /** Rows of the table, in the order of the query. */
  predicate InOrder(t: Table, s: seq<string>) {
    && (forall i :: 0 <= i < |s| ==> s[i] in t)
    && (forall i, j :: 0 <= i < j < |s| ==> Before(t, s[i], s[j]))
  }

  function Ahead(t: Table, cs: set<string>, k: string): set<string>
    requires k in t && cs <= t.Keys
  {
    set o | o in cs && Before(t, o, k)
  }

  /** The candidates with fewer than `limit` candidates ahead of them. */
  function Chosen(t: Table, cs: set<string>, limit: int): set<string>
    requires cs <= t.Keys
  {
    set k | k in cs && |Ahead(t, cs, k)| < limit
  }

  function Leased(e: Event, c: Claim, now: int): Event {
    e.(lockedBy := Some(c.worker), lockedUntil := Some(now + c.lease), attempts := e.attempts + 1)
  }

  function LeasedAll(t: Table, ids: set<string>, c: Claim, now: int): Table {
    map k | k in t :: if k in ids then Leased(t[k], c, now) else t[k]
  }

  function ClaimedIds(t: Table, now: int, c: Claim, visible: set<string>): set<string> {
    if ValidClaim(c) then Chosen(t, Candidates(t, now, c.eventType, visible), c.limit) else {}
  }

  function DoClaim(t: Table, now: int, c: Claim, visible: set<string>): Table {
    LeasedAll(t, ClaimedIds(t, now, c, visible), c, now)
  }

  // ----- marking -----

  datatype Verdict =
    | Delivered
    | Failed(error: string, backoff: int)
    | DeadLettered(reason: string)

  predicate ValidMark(worker: string, generation: int, v: Verdict) {
    !Blank(worker) && generation > 0 && (v.Failed? ==> v.backoff >= 1)
  }

  predicate HoldsLease(e: Event, now: int, worker: string, generation: int) {
    && e.delivered.None? && e.dead.None?
    && e.lockedBy == Some(worker)
    && e.lockedUntil.Some? && e.lockedUntil.value > now
    && e.attempts == generation
  }

  const MAX_ERROR_RUNES := 4096

  /** Failure texts are kept up to a number of characters; here a character is a rune, not a byte. */
  function Truncated(failure: string): (r: string)
    ensures r <= failure && |r| == if |failure| <= MAX_ERROR_RUNES then |failure| else MAX_ERROR_RUNES
  {
    if |failure| <= MAX_ERROR_RUNES then failure else failure[..MAX_ERROR_RUNES]
  }

  function Marked(e: Event, now: int, v: Verdict): Event {
    var free := e.(lockedBy := None, lockedUntil := None);
    match v
    case Delivered => free.(delivered := Some(now), lastError := None)
    case Failed(error, backoff) => free.(availableAt := now + backoff, lastError := Some(Truncated(error)))
    case DeadLettered(reason) => free.(dead := Some(now), lastError := Some(Truncated(reason)))
  }

  function DoMark(t: Table, now: int, id: string, worker: string, generation: int, v: Verdict): (Table, Outcome) {
    if !ValidMark(worker, generation, v) then (t, Invalid)
    else if id !in t || !HoldsLease(t[id], now, worker, generation) then (t, LeaseLost)
    else (t[id := Marked(t[id], now, v)], Ok)
  }

  // ----- runs, with the log of each event's leases -----

  datatype Entry =
    | Leasing(worker: string, generation: nat, start: int, until: int)
    | Release(of: nat, at: int, verdict: Verdict)

  /** `log` only records what happened; no step depends on it. */
  datatype State = State(now: int, events: Table, log: map<string, seq<Entry>>)

  datatype Step =
    | Tick(ms: nat)
    | Insert(newId: string, eventType: string, occurredAt: int, availableAt: int, delivered: bool)
    | Take(claim: Claim, visible: set<string>)
    | Mark(id: string, worker: string, generation: int, verdict: Verdict)

  function Inserted(now: int, step: Step): Event
    requires step.Insert?
  {
    Event(step.eventType, step.occurredAt, step.availableAt, None, None, 0,
          if step.delivered then Some(now) else None, None, None)
  }

  function Do(s: State, step: Step): State {
    match step
    case Tick(ms) => s.(now := s.now + ms)
    case Insert(id, _, _, _, _) =>
      if id in s.events then s
      else s.(events := s.events[id := Inserted(s.now, step)], log := s.log[id := []])
    case Take(c, visible) =>
      var ids := ClaimedIds(s.events, s.now, c, visible);
      s.(events := DoClaim(s.events, s.now, c, visible),
         log := map k | k in s.log ::
           if k in ids && k in s.events
           then s.log[k] + [Leasing(c.worker, s.events[k].attempts + 1, s.now, s.now + c.lease)]
           else s.log[k])
    case Mark(id, worker, generation, v) =>
      var (events, o) := DoMark(s.events, s.now, id, worker, generation, v);
      if o == Ok && id in s.log then
        s.(events := events, log := s.log[id := s.log[id] + [Release(s.events[id].attempts, s.now, v)]])
      else s.(events := events)
  }

  function Run(s: State, steps: seq<Step>): State
    decreases |steps|
  {
    if steps == [] then s else Run(Do(s, steps[0]), steps[1..])
  }

  function Initial(now: int): State {
    State(now, map[], map[])
  }

  // ----- what a log looks like -----

  function GenerationOf(a: Entry): nat {
    if a.Leasing? then a.generation else a.of
  }

  function When(a: Entry): int {
    if a.Leasing? then a.start else a.at
  }

  /** How an entry may follow another: a lease is released while it runs, or lapses before the next. */
  predicate Succeeds(a: Entry, b: Entry) {
    && When(a) <= When(b)
    && (match (a, b)
        case (Leasing(_, g, _, until), Release(of, at, _)) => of == g && at < until
        case (Leasing(_, g, _, until), Leasing(_, g', start, _)) => g' == g + 1 && until <= start
        case (Release(of, at, Failed(_, backoff)), Leasing(_, g', start, _)) => g' == of + 1 && at + backoff <= start
        case _ => false)
  }

  predicate LogOk(h: seq<Entry>) {
    && (h != [] ==> h[0].Leasing? && h[0].generation == 1)
    && (forall i :: 0 <= i < |h| && h[i].Leasing? ==> h[i].start < h[i].until)
    && (forall i :: 0 < i < |h| ==> Succeeds(h[i - 1], h[i]))
  }

  /** The row is what its log says. */
  predicate Matches(e: Event, h: seq<Entry>) {
    if h == [] then e.attempts == 0 && e.lockedBy.None? && e.lockedUntil.None? && e.dead.None?
    else
      match h[|h| - 1]
      case Leasing(worker, g, _, until) =>
        && e.attempts == g && e.lockedBy == Some(worker) && e.lockedUntil == Some(until)
        && e.delivered.None? && e.dead.None?
      case Release(g, at, v) =>
        && e.attempts == g && e.lockedBy.None? && e.lockedUntil.None?
        && (match v
            case Delivered => e.delivered == Some(at) && e.dead.None? && e.lastError.None?
            case DeadLettered(reason) =>
              && e.dead == Some(at) && e.delivered.None?
              && e.lastError == Some(Truncated(reason))
            case Failed(error, backoff) =>
              && e.delivered.None? && e.dead.None?
              && e.availableAt == at + backoff && e.lastError == Some(Truncated(error)))
  }

  predicate EventOk(now: int, e: Event, h: seq<Entry>) {
    && LogOk(h) && Matches(e, h) && (h != [] ==> When(h[|h| - 1]) <= now)
    && (e.lastError.Some? ==> |e.lastError.value| <= MAX_ERROR_RUNES)
  }

  ghost predicate Inv(s: State) {
    && s.log.Keys == s.events.Keys
    && forall id :: id in s.events ==> EventOk(s.now, s.events[id], s.log[id])
  }

  lemma LeasedOk(now: int, e: Event, h: seq<Entry>, c: Claim)
    requires EventOk(now, e, h) && Claimable(e, now, c.eventType) && c.lease >= 1
    ensures EventOk(now, Leased(e, c, now), h + [Leasing(c.worker, e.attempts + 1, now, now + c.lease)])
  {
    var next := Leasing(c.worker, e.attempts + 1, now, now + c.lease);
    if h != [] { assert Succeeds(h[|h| - 1], next); }
  }

  lemma MarkedOk(now: int, e: Event, h: seq<Entry>, worker: string, generation: int, v: Verdict)
    requires EventOk(now, e, h) && HoldsLease(e, now, worker, generation)
    ensures EventOk(now, Marked(e, now, v), h + [Release(e.attempts, now, v)])
  {
    assert h != [] && h[|h| - 1].Leasing?;
    assert Succeeds(h[|h| - 1], Release(e.attempts, now, v));
  }

  lemma TakeOk(s: State, c: Claim, visible: set<string>, id: string)
    requires Inv(s) && id in s.events
    ensures var s' := Do(s, Take(c, visible));
      id in s'.events && id in s'.log && EventOk(s'.now, s'.events[id], s'.log[id])
  {
    hide *;
    RowOfInv(s, id);
    ClaimedAreClaimable(s.events, s.now, c, visible);
    TakeRow(s, c, visible, id);
    if id in ClaimedIds(s.events, s.now, c, visible) { LeasedOk(s.now, s.events[id], s.log[id], c); }
  }

  lemma RowOfInv(s: State, id: string)
    requires Inv(s) && id in s.events
    ensures id in s.log && EventOk(s.now, s.events[id], s.log[id])
  {
  }

  /** What a claim does to one row and its log. */
  lemma TakeRow(s: State, c: Claim, visible: set<string>, id: string)
    requires id in s.events && id in s.log
    ensures var s' := Do(s, Take(c, visible)); var taken := id in ClaimedIds(s.events, s.now, c, visible);
      && s'.now == s.now && id in s'.events && id in s'.log
      && s'.events[id] == (if taken then Leased(s.events[id], c, s.now) else s.events[id])
      && s'.log[id] == (if taken then s.log[id] + [Leasing(c.worker, s.events[id].attempts + 1, s.now, s.now + c.lease)]
                        else s.log[id])
  {
    hide ClaimedIds, Leased;
  }

  lemma ClaimedAreClaimable(t: Table, now: int, c: Claim, visible: set<string>)
    ensures forall id :: id in ClaimedIds(t, now, c, visible) ==>
      id in t && Claimable(t[id], now, c.eventType) && c.lease >= 1
  {
    hide Claimable, Before;
  }

  lemma TakeInv(s: State, c: Claim, visible: set<string>)
    requires Inv(s)
    ensures Inv(Do(s, Take(c, visible)))
  {
    var s' := Do(s, Take(c, visible));
    forall id | id in s.events ensures EventOk(s'.now, s'.events[id], s'.log[id]) {
      TakeOk(s, c, visible, id);
    }
    hide EventOk, ClaimedIds;
  }

  lemma MarkInv(s: State, id: string, worker: string, generation: int, v: Verdict)
    requires Inv(s)
    ensures Inv(Do(s, Mark(id, worker, generation, v)))
  {
    if DoMark(s.events, s.now, id, worker, generation, v).1 == Ok {
      MarkedOk(s.now, s.events[id], s.log[id], worker, generation, v);
    }
    hide EventOk;
  }

  lemma StepInv(s: State, step: Step)
    requires Inv(s)
    ensures Inv(Do(s, step))
  {
    match step
    case Take(c, visible) => TakeInv(s, c, visible);
    case Mark(id, worker, generation, v) => MarkInv(s, id, worker, generation, v);
    case _ =>
      hide LogOk, Matches;
  }

  /** Every state of every run matches its logs. */
  lemma {:induction false} RunInv(s: State, steps: seq<Step>)
    requires Inv(s)
    ensures Inv(Run(s, steps))
    decreases |steps|
  {
    if steps != [] {
      StepInv(s, steps[0]);
      RunInv(Do(s, steps[0]), steps[1..]);
    }
  }

  lemma ReachableInv(now: int, steps: seq<Step>)
    ensures Inv(Run(Initial(now), steps))
  {
    RunInv(Initial(now), steps);
  }

  // ----- leases of one event -----

  /** When the lease at position i ended: at its release, or at its deadline if it lapsed. */
  function EndOf(h: seq<Entry>, i: nat): int
    requires i < |h| && h[i].Leasing?
  {
    if i + 1 < |h| && h[i + 1].Release? then h[i + 1].at else h[i].until
  }

  function Claims(h: seq<Entry>): nat {
    if h == [] then 0 else Claims(h[..|h| - 1]) + (if h[|h| - 1].Leasing? then 1 else 0)
  }

  lemma {:induction false} LogTimes(h: seq<Entry>, i: nat, j: nat)
    requires LogOk(h) && i <= j < |h|
    ensures When(h[i]) <= When(h[j])
    decreases j
  {
    if i < j { LogTimes(h, i, j - 1); }
  }

  lemma {:induction false} GenerationCounts(h: seq<Entry>)
    requires LogOk(h)
    ensures h != [] ==> Claims(h) == GenerationOf(h[|h| - 1])
    decreases |h|
  {
    if |h| > 1 {
      GenerationCounts(h[..|h| - 1]);
      assert Succeeds(h[|h| - 2], h[|h| - 1]);
    }
  }

  /** Two leases on one event never overlap: the earlier one has ended when the later one starts. */
  lemma LeasesDisjoint(now: int, steps: seq<Step>, id: string, i: nat, j: nat)
    requires var s := Run(Initial(now), steps);
      id in s.log && i < j < |s.log[id]| && s.log[id][i].Leasing? && s.log[id][j].Leasing?
    ensures var h := Run(Initial(now), steps).log[id];
      EndOf(h, i) <= h[j].start && h[i].generation < h[j].generation
  {
    ReachableInv(now, steps);
    var h := Run(Initial(now), steps).log[id];
    assert Succeeds(h[i], h[i + 1]);
    LogTimes(h, i + 1, j);
    GenerationsIncrease(h, i, j);
  }

  lemma {:induction false} GenerationsIncrease(h: seq<Entry>, i: nat, j: nat)
    requires LogOk(h) && i < j < |h|
    ensures GenerationOf(h[i]) <= GenerationOf(h[j])
    ensures h[j].Leasing? ==> GenerationOf(h[i]) < GenerationOf(h[j])
    decreases j
  {
    assert Succeeds(h[j - 1], h[j]);
    if i < j - 1 { GenerationsIncrease(h, i, j - 1); }
  }

  /** The attempt counter of a row is the number of times the event was ever claimed. */
  lemma AttemptsCountClaims(now: int, steps: seq<Step>, id: string)
    requires id in Run(Initial(now), steps).events
    ensures var s := Run(Initial(now), steps); id in s.log && s.events[id].attempts == Claims(s.log[id])
  {
    ReachableInv(now, steps);
    GenerationCounts(Run(Initial(now), steps).log[id]);
  }

  /**
   Fencing: a worker's mark takes effect exactly while the lease of that very generation is its own, the
   latest one and still running. An expired, superseded or released generation changes nothing, even
   when the same worker holds the event again.
   */
  lemma MarkTakesEffectIff(now: int, steps: seq<Step>, id: string, worker: string, generation: int, v: Verdict)
    requires ValidMark(worker, generation, v)
    ensures var s := Run(Initial(now), steps);
      var (events, o) := DoMark(s.events, s.now, id, worker, generation, v);
      && (o == Ok <==>
            && id in s.log && s.log[id] != []
            && var last := s.log[id][|s.log[id]| - 1];
               last.Leasing? && last.worker == worker && last.generation == generation && s.now < last.until)
      && (o != Ok ==> events == s.events)
  {
    ReachableInv(now, steps);
    var s := Run(Initial(now), steps);
    if id in s.events { assert EventOk(s.now, s.events[id], s.log[id]); }
  }

  /** A generation that once ended never marks anything again, whatever runs next. */
  lemma EndedGenerationFenced(
    now: int, steps: seq<Step>, id: string, i: nat, worker: string, v: Verdict)
    requires var s := Run(Initial(now), steps);
      id in s.log && i < |s.log[id]| && s.log[id][i].Leasing? && EndOf(s.log[id], i) <= s.now
    requires ValidMark(worker, Run(Initial(now), steps).log[id][i].generation, v)
    ensures var s := Run(Initial(now), steps);
      DoMark(s.events, s.now, id, worker, s.log[id][i].generation, v) == (s.events, LeaseLost)
  {
    ReachableInv(now, steps);
    var s := Run(Initial(now), steps);
    var h := s.log[id];
    if i < |h| - 1 { GenerationsIncrease(h, i, |h| - 1); }
    MarkTakesEffectIff(now, steps, id, worker, h[i].generation, v);
  }

  // ----- terminal rows -----

  predicate Finished(e: Event) {
    e.delivered.Some? || e.dead.Some?
  }

  lemma FinishedStep(s: State, step: Step, id: string)
    requires Inv(s) && id in s.events && Finished(s.events[id])
    ensures id in Do(s, step).events && Do(s, step).events[id] == s.events[id]
    ensures Do(s, step).log[id] == s.log[id]
  {
  }

  /** Delivered and dead-lettered are permanent: the row and its log never change again. */
  lemma {:induction false} FinishedForever(s: State, steps: seq<Step>, id: string)
    requires Inv(s) && id in s.events && Finished(s.events[id])
    ensures var s' := Run(s, steps);
      Inv(s') && id in s'.events && s'.events[id] == s.events[id] && s'.log[id] == s.log[id]
    decreases |steps|
  {
    if steps != [] {
      StepInv(s, steps[0]);
      FinishedStep(s, steps[0], id);
      FinishedForever(Do(s, steps[0]), steps[1..], id);
    }
  }

  /** No event is both delivered and dead-lettered, and neither state is leased. */
  lemma FinishedExclusive(now: int, steps: seq<Step>, id: string)
    requires id in Run(Initial(now), steps).events
    ensures var e := Run(Initial(now), steps).events[id];
      && !(e.delivered.Some? && e.dead.Some?)
      && (Finished(e) ==> e.lockedBy.None? && e.lockedUntil.None?)
  {
    ReachableInv(now, steps);
  }

  // ----- what a statement does to the rows -----

  /** Neither finished nor leased any more, due, and of a type asked for. */
  predicate Waits(e: Event, now: int, eventType: string) {
    && !Finished(e) && e.availableAt <= now && !(e.lockedUntil.Some? && now < e.lockedUntil.value)
    && eventType in {"", e.eventType}
  }

  predicate Earlier(a: Event, b: Event) {
    a.availableAt < b.availableAt || (a.availableAt == b.availableAt && a.occurredAt < b.occurredAt)
  }

  /** The visible waiting events that come before a row; the identifier decides between equal times. */
  function Queue(t: Table, now: int, c: Claim, visible: set<string>, k: string): set<string>
    requires k in t
  {
    set o | o in t.Keys && o in visible && Waits(t[o], now, c.eventType)
      && (Earlier(t[o], t[k]) || (!Earlier(t[k], t[o]) && Less(o, k)))
  }

  lemma QueueIsAhead(t: Table, now: int, c: Claim, visible: set<string>, k: string)
    requires k in t
    ensures var cs := Candidates(t, now, c.eventType, visible);
      Queue(t, now, c, visible, k) == Ahead(t, cs, k) && forall o :: o in cs <==>
        o in t && o in visible && Waits(t[o], now, c.eventType)
  {
  }

  /** A claim leases exactly the visible waiting events that have fewer than `limit` ahead of them. */
  lemma ClaimMade(t: Table, now: int, c: Claim, visible: set<string>, k: string)
    requires k in t
    ensures var t' := DoClaim(t, now, c, visible);
      var valid := !Blank(c.worker) && |c.eventType| <= 255 && 1 <= c.limit <= 1000 && c.lease >= 1;
      && t'.Keys == t.Keys
      && (if valid && k in visible && Waits(t[k], now, c.eventType) && |Queue(t, now, c, visible, k)| < c.limit
          then t'[k] == Event(t[k].eventType, t[k].occurredAt, t[k].availableAt, Some(c.worker), Some(now + c.lease),
                              t[k].attempts + 1, None, None, t[k].lastError)
          else t'[k] == t[k])
  {
    QueueIsAhead(t, now, c, visible, k);
    hide Waits, Blank, Queue, Ahead, Claimable, Before;
  }

  /** A mark of the holder of the lease writes its verdict and gives the lease up; any other changes nothing. */
  lemma MarkMade(t: Table, now: int, id: string, worker: string, generation: int, v: Verdict)
    ensures var (t', o) := DoMark(t, now, id, worker, generation, v);
      && (o == Ok <==>
            && !Blank(worker) && generation > 0 && (v.Failed? ==> v.backoff >= 1)
            && id in t && t[id].lockedBy == Some(worker) && t[id].attempts == generation && !Finished(t[id])
            && t[id].lockedUntil.Some? && now < t[id].lockedUntil.value)
      && (o == Invalid <==> Blank(worker) || generation <= 0 || (v.Failed? && v.backoff < 1))
      && (o != Ok ==> t' == t)
      && (o == Ok ==>
            && t'.Keys == t.Keys && t' - {id} == t - {id}
            && var e, row := t[id], t'[id];
            && row.eventType == e.eventType && row.occurredAt == e.occurredAt && row.attempts == e.attempts
            && row.lockedBy == None && row.lockedUntil == None
            && row.delivered == (if v.Delivered? then Some(now) else None)
            && row.dead == (if v.DeadLettered? then Some(now) else None)
            && row.availableAt == (if v.Failed? then now + v.backoff else e.availableAt)
            && row.lastError == (match v
                                 case Delivered => None
                                 case Failed(error, _) => Some(Truncated(error))
                                 case DeadLettered(reason) => Some(Truncated(reason))))
  {
    hide Truncated, Blank;
  }

  /** A new event waits from its time on, for a claim of its own type or of any. */
  lemma InsertMade(s: State, id: string, eventType: string, occurredAt: int, availableAt: int, delivered: bool)
    ensures var s' := Do(s, Insert(id, eventType, occurredAt, availableAt, delivered));
      && (id in s.events ==> s' == s)
      && (id !in s.events ==>
            && s' == s.(events := s'.events, log := s'.log) && s'.events - {id} == s.events - {id}
            && id in s'.events && id in s'.log && s'.log - {id} == s.log - {id} && s'.log[id] == []
            && forall now, wanted :: Waits(s'.events[id], now, wanted) <==>
                 !delivered && availableAt <= now && wanted in {"", eventType})
  {
  }

  /** In a reachable state an unfinished event waits if it is due and its last lease was released or has lapsed. */
  lemma WaitsIff(start: int, steps: seq<Step>, id: string, eventType: string)
    requires id in Run(Initial(start), steps).events
    ensures var s := Run(Initial(start), steps); var e := s.events[id];
      && id in s.log
      && (Waits(e, s.now, eventType) <==>
            && !Finished(e) && e.availableAt <= s.now && eventType in {"", e.eventType}
            && (s.log[id] == [] || EndOfLast(s.log[id]) <= s.now))
  {
    ReachableInv(start, steps);
    var s := Run(Initial(start), steps);
    assert EventOk(s.now, s.events[id], s.log[id]);
  }

  function EndOfLast(h: seq<Entry>): int
    requires h != []
  {
    var last := h[|h| - 1];
    if last.Leasing? then last.until else last.at
  }

  // ----- the claim query -----

  lemma BeforeDistinct(t: Table, claimed: seq<string>, i: nat)
    requires i < |claimed| && InOrder(t, claimed)
    ensures claimed[i] !in claimed[..i]
  {
    BeforeTotal(t, claimed[i], claimed[i]);
  }

  lemma {:induction false} SizeOfDistinct(s: seq<string>, ids: set<string>)
    requires forall k :: k in ids <==> k in s
    requires forall i, j :: 0 <= i < j < |s| ==> s[i] != s[j]
    ensures |ids| == |s|
    decreases |s|
  {
    if s == [] {
      assert ids == {};
    } else {
      var last := s[|s| - 1];
      assert s == s[..|s| - 1] + [last];
      SizeOfDistinct(s[..|s| - 1], ids - {last});
    }
  }

  lemma SmallerSubset(a: set<string>, b: set<string>)
    requires a <= b
    ensures |a| <= |b|
  {
    assert b == a + (b - a);
  }

  /** Taking the first candidates one by one, until the limit or the end, takes the chosen ones. */
  lemma ChosenIsPrefix(t: Table, candidates: set<string>, claimed: seq<string>, rest: set<string>, limit: int)
    requires candidates <= t.Keys && |claimed| <= limit && (|claimed| == limit || rest == {})
    requires forall k :: k in candidates <==> k in claimed || k in rest
    requires forall k :: k in claimed ==> k !in rest
    requires InOrder(t, claimed)
    requires forall i, k :: 0 <= i < |claimed| && k in rest ==> Before(t, claimed[i], k)
    ensures forall k :: k in claimed <==> k in Chosen(t, candidates, limit)
  {
    var taken := set k | k in claimed;
    forall i, j | 0 <= i < j < |claimed| ensures claimed[i] != claimed[j] {
      BeforeTotal(t, claimed[i], claimed[j]);
    }
    SizeOfDistinct(claimed, taken);
    forall k | k in candidates ensures k in claimed <==> |Ahead(t, candidates, k)| < limit {
      if k in claimed {
        forall o | o in Ahead(t, candidates, k) ensures o in taken - {k} {
          BeforeTotal(t, o, k);
        }
        SmallerSubset(Ahead(t, candidates, k), taken - {k});
      } else {
        SmallerSubset(taken, Ahead(t, candidates, k));
      }
    }
  }

  /** The first row of a non-empty set in the order of the query. */
  method First(t: Table, ids: set<string>) returns (first: string)
    requires ids != {} && ids <= t.Keys
    ensures first in ids && forall k :: k in ids && k != first ==> Before(t, first, k)
  {
    first :| first in ids;
    var rest := ids - {first};
    while rest != {}
      invariant rest <= ids && first in ids && first !in rest
      invariant forall k :: k in ids && k !in rest && k != first ==> Before(t, first, k)
      decreases |rest|
    {
      var k :| k in rest;
      rest := rest - {k};
      BeforeTotal(t, first, k);
      if Before(t, k, first) {
        forall o | o in ids && o !in rest && o != k ensures Before(t, k, o) {
          if o != first { BeforeTransitive(t, k, first, o); }
        }
        first := k;
      }
    }
  }

  /** ORDER BY ... LIMIT: the first candidates, one by one. */
  method Pick(t: Table, candidates: set<string>, limit: nat) returns (claimed: seq<string>)
    requires candidates <= t.Keys
    ensures |claimed| <= limit
    ensures forall k :: k in claimed <==> k in Chosen(t, candidates, limit)
    ensures InOrder(t, claimed)
  {
    claimed := [];
    var rest := candidates;
    while |claimed| < limit && rest != {}
      invariant |claimed| <= limit
      invariant rest <= candidates
      invariant forall k :: k in candidates <==> k in claimed || k in rest
      invariant forall k :: k in claimed ==> k !in rest
      invariant InOrder(t, claimed)
      invariant forall i, k :: 0 <= i < |claimed| && k in rest ==> Before(t, claimed[i], k)
      decreases |rest|
    {
      var first := First(t, rest);
      rest := rest - {first};
      claimed := claimed + [first];
    }
    ChosenIsPrefix(t, candidates, claimed, rest, limit);
  }

  // ----- the statements on the table -----

  class Repository {
    var now: int
    var events: Table

    constructor (start: int)
      ensures now == start && events == map[]
    {
      now, events := start, map[];
    }

    /** The candidate query and the update of the rows it returns. */
    method Claim(c: Claim, visible: set<string>) returns (claimed: seq<string>, ok: bool)
      modifies this`events
      ensures ok <==> ValidClaim(c)
      ensures events == DoClaim(old(events), now, c, visible)
      ensures |claimed| <= if ok then c.limit else 0
      ensures forall k :: k in claimed <==> k in ClaimedIds(old(events), now, c, visible)
      ensures InOrder(old(events), claimed)
    {
      claimed := [];
      if !ValidClaim(c) {
        assert events == DoClaim(old(events), now, c, visible);
        return claimed, false;
      }
      ok := true;
      var t := events;
      claimed := Pick(t, Candidates(t, now, c.eventType, visible), c.limit);
      var i := 0;
      while i < |claimed|
        invariant 0 <= i <= |claimed|
        invariant events.Keys == t.Keys
        invariant forall k :: k in t ==> events[k] == if k in claimed[..i] then Leased(t[k], c, now) else t[k]
      {
        BeforeDistinct(t, claimed, i);
        events := events[claimed[i] := Leased(events[claimed[i]], c, now)];
        assert claimed[..i + 1] == claimed[..i] + [claimed[i]];
        i := i + 1;
      }
      assert claimed[..i] == claimed;
      assert events == DoClaim(t, now, c, visible);
    }

    method Mark(id: string, worker: string, generation: int, v: Verdict) returns (o: Outcome)
      modifies this`events
      ensures (events, o) == DoMark(old(events), now, id, worker, generation, v)
    {
      if Blank(worker) || generation <= 0 || (v.Failed? && v.backoff < 1) { return Invalid; }
      if id !in events { return LeaseLost; }
      var e := events[id];
      if e.delivered.Some? || e.dead.Some? || e.lockedBy != Some(worker)
         || e.lockedUntil.None? || e.lockedUntil.value <= now || e.attempts != generation { return LeaseLost; }
      e := e.(lockedBy := None, lockedUntil := None);
      match v {
        case Delivered => e := e.(delivered := Some(now), lastError := None);
        case Failed(error, backoff) => e := e.(availableAt := now + backoff, lastError := Some(Truncated(error)));
        case DeadLettered(reason) => e := e.(dead := Some(now), lastError := Some(Truncated(reason)));
      }
      events := events[id := e];
      return Ok;
    }
  }
}
