/** The runner's retry policy over the outbox: bounded attempts with exponential backoff. */
module Retry {
  import opened Basics
  import opened Text
  import opened Outbox

  function Pow2(n: nat): (r: nat)
    ensures r >= 1
  {
    if n == 0 then 1 else 2 * Pow2(n - 1)
  }

  /** Seconds before the event is available again after a failed attempt. */
  function Backoff(attempt: int): nat {
    var a := if attempt < 1 then 1 else attempt;
    Pow2(if a - 1 > 5 then 5 else a - 1)
  }

  /** Seconds of backoff imposed before attempt n, over all earlier failures. */
  function TotalBackoff(n: nat): nat {
    if n <= 1 then 0 else TotalBackoff(n - 1) + Backoff(n - 1)
  }

  lemma {:induction false} EarlyBackoff(n: nat)
    requires 1 <= n <= 7
    ensures TotalBackoff(n) == Pow2(n - 1) - 1
  {
    if n > 1 { EarlyBackoff(n - 1); }
  }

  lemma {:induction false} LateBackoff(n: nat)
    requires n >= 7
    ensures TotalBackoff(n) == 63 + 32 * (n - 7)
  {
    if n == 7 {
      EarlyBackoff(7);
      assert Pow2(6) == 2 * Pow2(5) == 4 * Pow2(4) == 8 * Pow2(3) == 64;
    } else {
      LateBackoff(n - 1);
      assert Pow2(5) == 2 * Pow2(4) == 4 * Pow2(3) == 8 * Pow2(2) == 32;
    }
  }

  /** How a processed event is marked: `terminal` is decided by the attempt count of the claim. */
  function VerdictFor(succeeded: bool, attempt: int, maxAttempts: int, failure: string): Verdict {
    if succeeded then Delivered
    else if attempt >= maxAttempts then DeadLettered(failure)
    else Failed(failure, 1000 * Backoff(attempt))
  }

  predicate ValidLease(worker: string, attempt: int) {
    Trim(worker) != "" && attempt > 0
  }

  /**
   What becomes of an event whose attempt ended while its lease ran: success delivers it; the last failure
   dead-letters it; an earlier one makes it available again after the backoff. Its lease is over in any case.
   */
  predicate ProcessedAs(
    e: Event, e': Event, now: int, succeeded: bool, attempt: int, maxAttempts: int, failure: string)
  {
    && (e'.delivered.Some? <==> succeeded) && (succeeded ==> e'.delivered == Some(now) && e'.lastError.None?)
    && (e'.dead.Some? <==> !succeeded && attempt >= maxAttempts) && (e'.dead.Some? ==> e'.dead == Some(now))
    && (!succeeded ==> e'.lastError == Some(if |failure| <= 4096 then failure else failure[..4096]))
    && e'.availableAt == (if succeeded || attempt >= maxAttempts then e.availableAt else now + 1000 * Backoff(attempt))
    && e'.lockedBy.None? && e'.lockedUntil.None?
    && e'.attempts == e.attempts && e'.eventType == e.eventType && e'.occurredAt == e.occurredAt
  }

  lemma MarkedByRule(
    t: Table, now: int, id: string, worker: string, attempt: int, maxAttempts: int, succeeded: bool, failure: string)
    ensures var (t', o) := DoMark(t, now, id, worker, attempt, VerdictFor(succeeded, attempt, maxAttempts, failure));
      && (ValidLease(worker, attempt) ==> (o == Ok <==> id in t && HoldsLease(t[id], now, worker, attempt)))
      && (o == Ok ==>
            id in t && t'.Keys == t.Keys && t' - {id} == t - {id}
            && ProcessedAs(t[id], t'[id], now, succeeded, attempt, maxAttempts, failure))
      && (o != Ok ==> t' == t)
  {
  }

  /** Seconds of backoff: doubling from one up to 32. */
  lemma BackoffDoubles(attempt: int)
    ensures attempt <= 1 ==> Backoff(attempt) == 1
    ensures 1 <= attempt < 6 ==> Backoff(attempt + 1) == 2 * Backoff(attempt)
    ensures attempt >= 6 ==> Backoff(attempt) == 32
  {
    assert Pow2(5) == 2 * Pow2(4) == 4 * Pow2(3) == 8 * Pow2(2) == 16 * Pow2(1) == 32 * Pow2(0) == 32;
  }

  method Process(repository: Repository, id: string, worker: string, attempt: int, maxAttempts: int,
                 succeeded: bool, failure: string)
    modifies repository`events
    ensures repository.events ==
      DoMark(old(repository.events), repository.now, id, worker, attempt,
             VerdictFor(succeeded, attempt, maxAttempts, failure)).0
    ensures ValidLease(worker, attempt) && id in old(repository.events)
            && HoldsLease(old(repository.events)[id], repository.now, worker, attempt) ==>
      && repository.events.Keys == old(repository.events).Keys
      && repository.events - {id} == old(repository.events) - {id}
      && ProcessedAs(old(repository.events)[id], repository.events[id], repository.now,
                     succeeded, attempt, maxAttempts, failure)
  {
    MarkedByRule(repository.events, repository.now, id, worker, attempt, maxAttempts, succeeded, failure);
    var terminal := attempt >= maxAttempts;
    var o: Outcome;
    if succeeded {
      o := repository.Mark(id, worker, attempt, Delivered);
      return;
    }
    if terminal {
      o := repository.Mark(id, worker, attempt, DeadLettered(failure));
      return;
    }
    o := repository.Mark(id, worker, attempt, Failed(failure, 1000 * Backoff(attempt)));
  }

  ghost predicate ByRule(v: Verdict, attempt: int, maxAttempts: int) {
    exists succeeded, failure :: v == VerdictFor(succeeded, attempt, maxAttempts, failure)
  }

  // ----- the bound on attempts -----

  /** Whatever marks there are, the runner made them. */
  ghost predicate ReleasedByRule(h: seq<Entry>, maxAttempts: int) {
    forall i :: 0 <= i < |h| && h[i].Release? ==> ByRule(h[i].verdict, h[i].of, maxAttempts)
  }

  /** The claim of generation `n` did not lapse: it is marked, or the latest. */
  predicate NeverLapsed(h: seq<Entry>, n: int) {
    forall i :: 0 <= i < |h| - 1 && h[i].Leasing? && h[i].generation == n ==> h[i + 1].Release?
  }

  /** Every generation up to the last one was leased once. */
  lemma {:induction false} LeaseOf(h: seq<Entry>, g: nat, last: nat) returns (i: nat)
    requires LogOk(h) && last < |h| && 1 <= g <= GenerationOf(h[last])
    ensures i <= last && h[i].Leasing? && h[i].generation == g
    decreases last
  {
    if h[last].Leasing? && h[last].generation == g {
      i := last;
    } else {
      assert last > 0 && Succeeds(h[last - 1], h[last]);
      i := LeaseOf(h, g, last - 1);
    }
  }

  /** After the mark of an attempt that is the last by rule, the log ends. */
  lemma LastMarkEndsLog(h: seq<Entry>, maxAttempts: int, i: nat)
    requires LogOk(h) && ReleasedByRule(h, maxAttempts) && i < |h| && h[i].Release? && h[i].of >= maxAttempts
    ensures !h[i].verdict.Failed? && i == |h| - 1
  {
    if i < |h| - 1 { OnlyFailuresContinue(h, i); }
    assert ByRule(h[i].verdict, h[i].of, maxAttempts);
  }

  lemma OnlyFailuresContinue(h: seq<Entry>, i: nat)
    requires LogOk(h) && i < |h| - 1 && h[i].Release?
    ensures h[i].verdict.Failed?
  {
    assert Succeeds(h[i], h[i + 1]);
  }

  lemma BoundIff(h: seq<Entry>, maxAttempts: int)
    requires LogOk(h) && h != [] && ReleasedByRule(h, maxAttempts) && maxAttempts >= 1
    ensures GenerationOf(h[|h| - 1]) <= maxAttempts <==> NeverLapsed(h, maxAttempts)
  {
    var last := |h| - 1;
    if GenerationOf(h[last]) > maxAttempts {
      var i := LeaseOf(h, maxAttempts, last);
      if h[i + 1].Release? {
        assert Succeeds(h[i], h[i + 1]);
        LastMarkEndsLog(h, maxAttempts, i + 1);
      }
    } else {
      forall i | 0 <= i < last && h[i].Leasing? && h[i].generation == maxAttempts ensures h[i + 1].Release? {
        GenerationsIncrease(h, i, last);
        assert Succeeds(h[i], h[i + 1]);
        if i + 1 < last { GenerationsIncrease(h, i + 1, last); }
      }
    }
  }

  /**
   An event is claimed at most `maxAttempts` times exactly if its claim of that number did not lapse; earlier
   lapses only use attempts up. An event claimed that often is delivered or dead-lettered for good, or still
   held, and it is dead-lettered no sooner.
   */
  lemma RetriesEndIff(now: int, steps: seq<Step>, id: string, maxAttempts: int)
    requires maxAttempts >= 1 && id in Run(Initial(now), steps).events
    requires var s := Run(Initial(now), steps); id in s.log && ReleasedByRule(s.log[id], maxAttempts)
    ensures var s := Run(Initial(now), steps); var e := s.events[id];
      && (e.attempts <= maxAttempts <==> NeverLapsed(s.log[id], maxAttempts))
      && (e.attempts == maxAttempts ==> Finished(e) || e.lockedBy.Some?)
      && (e.dead.Some? ==> e.attempts >= maxAttempts)
  {
    ReachableInv(now, steps);
    var s := Run(Initial(now), steps);
    var h, e := s.log[id], s.events[id];
    assert EventOk(s.now, e, h);
    if h != [] {
      BoundIff(h, maxAttempts);
      var last := |h| - 1;
      if h[last].Release? {
        assert ByRule(h[last].verdict, h[last].of, maxAttempts);
        if h[last].of >= maxAttempts { LastMarkEndsLog(h, maxAttempts, last); }
      }
    }
  }

  /**
   An attempt that succeeds while its lease runs leaves the event delivered, whatever runs afterwards; the last
   attempt that fails in time leaves it dead-lettered.
   */
  lemma AttemptDecides(
    now: int, steps: seq<Step>, id: string, worker: string, attempt: nat, maxAttempts: int, succeeded: bool,
    failure: string, later: seq<Step>)
    requires ValidLease(worker, attempt) && (succeeded || attempt >= maxAttempts)
    requires var s := Run(Initial(now), steps);
      && id in s.log && s.log[id] != []
      && var last := s.log[id][|s.log[id]| - 1];
         last.Leasing? && last.worker == worker && last.generation == attempt && s.now < last.until
    ensures var s := Run(Initial(now), steps);
      var mark := Mark(id, worker, attempt, VerdictFor(succeeded, attempt, maxAttempts, failure));
      var e := Run(Do(s, mark), later).events;
      id in e && (e[id].delivered.Some? <==> succeeded) && (e[id].dead.Some? <==> !succeeded)
  {
    var s := Run(Initial(now), steps);
    var v := VerdictFor(succeeded, attempt, maxAttempts, failure);
    ReachableInv(now, steps);
    MarkTakesEffectIff(now, steps, id, worker, attempt, v);
    MarkedByRule(s.events, s.now, id, worker, attempt, maxAttempts, succeeded, failure);
    StepInv(s, Mark(id, worker, attempt, v));
    hide Run, Inv, DoMark, HoldsLease, VerdictFor;
    FinishedForever(Do(s, Mark(id, worker, attempt, v)), later, id);
  }

  // ----- the spacing of attempts -----

  /** Every earlier claim was marked by the runner's rule before its lease ended. */
  ghost predicate MarkedInTime(h: seq<Entry>, maxAttempts: int) {
    forall i :: 0 <= i < |h| - 1 && h[i].Leasing? ==>
      h[i + 1].Release? && ByRule(h[i + 1].verdict, h[i].generation, maxAttempts)
  }

  lemma {:induction false} PositionOf(h: seq<Entry>, maxAttempts: int, i: nat)
    requires LogOk(h) && MarkedInTime(h, maxAttempts) && maxAttempts >= 1 && i < |h|
    ensures h[i].Leasing? <==> i % 2 == 0
    ensures GenerationOf(h[i]) == i / 2 + 1
    ensures h[i].Leasing? ==> h[i].generation <= maxAttempts
    decreases i
  {
    if i > 0 {
      PositionOf(h, maxAttempts, i - 1);
      assert Succeeds(h[i - 1], h[i]);
      if h[i].Leasing? {
        assert h[i - 1].Release? && i >= 2;
        PositionOf(h, maxAttempts, i - 2);
        assert Succeeds(h[i - 2], h[i - 1]);
        assert ByRule(h[i - 1].verdict, h[i - 2].generation, maxAttempts);
      }
    }
  }

  /** With claims all marked in time, attempt n starts no sooner than its total backoff after the first one. */
  lemma {:induction false} AttemptSpacing(h: seq<Entry>, maxAttempts: int, i: nat)
    requires LogOk(h) && MarkedInTime(h, maxAttempts) && maxAttempts >= 1
    requires i < |h| && h[i].Leasing?
    ensures h[i].start >= When(h[0]) + 1000 * TotalBackoff(h[i].generation)
    decreases i
  {
    PositionOf(h, maxAttempts, i);
    if i > 0 {
      PositionOf(h, maxAttempts, i - 2);
      AttemptSpacing(h, maxAttempts, i - 2);
      var g := h[i - 2].generation;
      assert Succeeds(h[i - 2], h[i - 1]) && Succeeds(h[i - 1], h[i]);
      assert ByRule(h[i - 1].verdict, g, maxAttempts);
      assert h[i - 1].verdict.backoff == 1000 * Backoff(g);
      assert h[i].generation == g + 1;
    }
  }

  lemma BackoffSeparatesAttempts(now: int, steps: seq<Step>, id: string, maxAttempts: int, i: nat)
    requires maxAttempts >= 1
    requires var s := Run(Initial(now), steps);
      id in s.log && MarkedInTime(s.log[id], maxAttempts) && i < |s.log[id]| && s.log[id][i].Leasing?
    ensures var h := Run(Initial(now), steps).log[id]; var n := h[i].generation;
      && n >= 1
      && h[i].start >= When(h[0]) + 1000 * TotalBackoff(n)
      && (n <= 7 ==> TotalBackoff(n) == Pow2(n - 1) - 1)
      && (n > 7 ==> TotalBackoff(n) == 63 + 32 * (n - 7))
  {
    ReachableInv(now, steps);
    var h := Run(Initial(now), steps).log[id];
    PositionOf(h, maxAttempts, i);
    AttemptSpacing(h, maxAttempts, i);
    var n := h[i].generation;
    if n <= 7 { EarlyBackoff(n); } else { LateBackoff(n); }
  }

  // ----- without marks in time -----

  const WORKER := "worker-1"
  const CLAIM := Outbox.Claim(WORKER, "", 1, 1)

  /** A worker that dies in every attempt: n claims whose leases all lapse. */
  function Lapses(n: nat): seq<Step> {
    if n == 0 then [Insert("event", "workspace.created", 0, 0, false)]
    else Lapses(n - 1) + [Take(CLAIM, {"event"}), Tick(1)]
  }

  lemma {:induction false} RunAppend(s: State, a: seq<Step>, b: seq<Step>)
    ensures Run(s, a + b) == Run(Run(s, a), b)
    decreases |a|
  {
    if a == [] {
      assert a + b == b;
    } else {
      assert (a + b)[0] == a[0] && (a + b)[1..] == a[1..] + b;
      RunAppend(Do(s, a[0]), a[1..], b);
    }
  }

  ghost predicate OnlyEvent(s: State, attempts: nat) {
    && s.events.Keys == {"event"} && s.log.Keys == {"event"}
    && s.events["event"].attempts == attempts
    && Claimable(s.events["event"], s.now, "")
  }

  lemma LapseOnce(s: State, n: nat)
    requires OnlyEvent(s, n)
    ensures OnlyEvent(Do(Do(s, Take(CLAIM, {"event"})), Tick(1)), n + 1)
  {
    assert Candidates(s.events, s.now, "", {"event"}) == {"event"};
    assert Ahead(s.events, {"event"}, "event") == {} by { BeforeTotal(s.events, "event", "event"); }
    NothingToTrim(WORKER);
    assert ClaimedIds(s.events, s.now, CLAIM, {"event"}) == {"event"};
    hide ClaimedIds;
  }

  /** Attempts that are never marked are not bounded by any maximum. */
  lemma {:induction false} LapsesExceedAnyMaximum(n: nat)
    ensures var s := Run(Initial(0), Lapses(n));
      "event" in s.events && s.events["event"].attempts == n && !Finished(s.events["event"])
    ensures OnlyEvent(Run(Initial(0), Lapses(n)), n)
  {
    if n > 0 {
      LapsesExceedAnyMaximum(n - 1);
      var a, b := Take(CLAIM, {"event"}), Tick(1);
      var s := Run(Initial(0), Lapses(n - 1));
      RunAppend(Initial(0), Lapses(n - 1), [a, b]);
      LapseOnce(s, n - 1);
      hide Do, OnlyEvent;
      assert Run(s, [a, b]) == Run(Do(s, a), [b]) by { assert [a, b][1..] == [b]; }
      assert Run(Do(s, a), [b]) == Do(Do(s, a), b) by { assert [b][1..] == []; }
    }
    assert OnlyEvent(Run(Initial(0), Lapses(n)), n);
  }
}
