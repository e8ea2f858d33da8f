/**
 Billable time and cost of a rented instance, computed in two ways: the service accumulates uncapped run
 time and caps when it shows it, the browser demo caps at every stop and derives the hourly price from the
 maximum. Instants are milliseconds, money is whole cents, and arithmetic is exact.
 */
module Metering {
  import opened Basics

  const HOUR_MS := 3_600_000

  datatype Status = Running | Stopped | Terminated

  function Min(a: int, b: int): int {
    if a <= b then a else b
  }

  /** Math.ceil(ms / 1000) of a span that is not negative. */
  function CeilSeconds(ms: int): int {
    if ms >= 0 then (ms + 999) / 1000 else -((-ms) / 1000)
  }

  /** The running segment, in whole seconds, never negative. */
  function Segment(since: Option<int>, now: int): (r: int)
    ensures r >= 0
  {
    if since.None? || CeilSeconds(now - since.value) < 0 then 0 else CeilSeconds(now - since.value)
  }

  function Ceil(x: real): int {
    -((-x).Floor)
  }

  // ----- the service -----

  datatype ApiInstance = ApiInstance(
    startsAt: int, endsAt: int, hourly: int, maximum: int,
    status: Status, since: Option<int>, accumulated: int)

  function ApiBillable(i: ApiInstance, now: int): int {
    Min(CeilSeconds(i.endsAt - i.startsAt), i.accumulated + Segment(i.since, now))
  }

  function ApiCost(i: ApiInstance, now: int): int {
    Min(i.maximum, Ceil((i.hourly * ApiBillable(i, now)) as real / 3600.0))
  }

  function ApiAccumulated(i: ApiInstance, now: int): ApiInstance {
    i.(accumulated := i.accumulated + Segment(i.since, now), since := None)
  }

  /** A user's calls, any other call of the demo, and the service's sweep for expired instances. */
  datatype Event = Start | Stop | Terminate | Look | Sweep

  function ApiEnded(i: ApiInstance, now: int): ApiInstance {
    if i.status == Terminated then i else ApiAccumulated(i, now).(status := Terminated)
  }

  function ApiStep(i: ApiInstance, event: Event, now: int): ApiInstance {
    match event
    case Start =>
      if i.status != Stopped then i
      else if now >= i.endsAt then ApiEnded(i, now)
      else i.(status := Running, since := Some(now))
    case Stop => if i.status != Running then i else ApiAccumulated(i, now).(status := Stopped)
    case Terminate => ApiEnded(i, now)
    case Look => i
    case Sweep => if i.endsAt <= now then ApiEnded(i, now) else i
  }

  // ----- the demo -----

  datatype DemoInstance = DemoInstance(
    startsAt: int, endsAt: int, maximum: int,
    status: Status, since: Option<int>, billable: int, accrued: int)

  function DemoBillable(i: DemoInstance, now: int): int {
    Min(CeilSeconds(i.endsAt - i.startsAt), i.billable + Segment(i.since, now))
  }

  function DemoHours(i: DemoInstance): real {
    var hours := (i.endsAt - i.startsAt) as real / HOUR_MS as real;
    if hours < 1.0 then 1.0 else hours
  }

  function DemoCost(i: DemoInstance, now: int): int {
    Min(i.maximum, Ceil(i.maximum as real / DemoHours(i) * DemoBillable(i, now) as real / 3600.0))
  }

  /** The meter is read, then the clock is cleared and the cost taken from the new reading. */
  function DemoRead(i: DemoInstance, now: int): DemoInstance {
    var read := i.(billable := DemoBillable(i, now), since := None);
    read.(accrued := DemoCost(read, now))
  }

  function DemoEnded(i: DemoInstance, now: int): DemoInstance {
    if i.status == Terminated then i else DemoRead(i, now).(status := Terminated)
  }

  function Expired(i: DemoInstance, now: int): DemoInstance {
    if i.endsAt <= now then DemoEnded(i, now) else i
  }

  function DemoStep(i: DemoInstance, event: Event, now: int): DemoInstance {
    match event
    case Start =>
      if i.status != Stopped then i
      else if now >= i.endsAt then DemoEnded(i, now)
      else i.(status := Running, since := Some(now))
    case Stop => if i.status != Running then i else DemoRead(i, now).(status := Stopped)
    case Terminate => DemoEnded(i, now)
    case Look => i
    case Sweep => i
  }

  /** Every call of the demo first expires what is due. */
  function DemoCall(i: DemoInstance, event: Event, now: int): DemoInstance {
    if event.Sweep? then i else DemoStep(Expired(i, now), event, now)
  }

  // ----- both see the same history -----

  datatype Moment = Moment(event: Event, at: int)

  function ApiRun(i: ApiInstance, history: seq<Moment>): ApiInstance
    decreases |history|
  {
    if history == [] then i else ApiRun(ApiStep(i, history[0].event, history[0].at), history[1..])
  }

  function DemoRun(i: DemoInstance, history: seq<Moment>): DemoInstance
    decreases |history|
  {
    if history == [] then i else DemoRun(DemoCall(i, history[0].event, history[0].at), history[1..])
  }

  /** What the demo shows: reading is a call like any other. */
  function DemoShown(i: DemoInstance, history: seq<Moment>, now: int): DemoInstance {
    DemoCall(DemoRun(i, history), Look, now)
  }

  /** A new rental of whole hours at a price: running from `since`. */
  function NewApi(startsAt: int, hours: nat, price: nat, since: int): ApiInstance {
    ApiInstance(startsAt, startsAt + hours * HOUR_MS, price, price * hours, Running, Some(since), 0)
  }

  function NewDemo(startsAt: int, hours: nat, price: nat, since: int): DemoInstance {
    DemoInstance(startsAt, startsAt + hours * HOUR_MS, price * hours, Running, Some(since), 0, 0)
  }

  predicate Chronological(history: seq<Moment>, now: int) {
    && (forall i, j :: 0 <= i < j < |history| ==> history[i].at <= history[j].at)
    && (forall i :: 0 <= i < |history| ==> history[i].at <= now)
  }

  /** How many moments of the history precede the end of the lease. */
  function CountBefore(history: seq<Moment>, end: int): (n: nat)
    ensures n <= |history|
    ensures forall i :: 0 <= i < n ==> history[i].at < end
    ensures n < |history| ==> history[n].at >= end
  {
    if history == [] || history[0].at >= end then 0 else 1 + CountBefore(history[1..], end)
  }

  /** When the service's clock stops after the lease: at the first stop, termination or sweep, or not before `now`. */
  function ServiceEnd(late: seq<Moment>, now: int): int {
    if late == [] then now
    else if late[0].event.Stop? || late[0].event.Terminate? || late[0].event.Sweep? then late[0].at
    else ServiceEnd(late[1..], now)
  }

  /** When the demo's clock stops after the lease: at its first call, reading at `now` included. */
  function DemoEnd(late: seq<Moment>, now: int): int {
    if late == [] then now else if !late[0].event.Sweep? then late[0].at else DemoEnd(late[1..], now)
  }

  /** Whether the service ends an instance after the lease: by a termination, a sweep, or a start once stopped. */
  predicate ServiceEnds(stopped: bool, late: seq<Moment>)
    decreases |late|
  {
    late != []
    && (match late[0].event
        case Terminate => true
        case Sweep => true
        case Stop => ServiceEnds(true, late[1..])
        case Start => stopped || ServiceEnds(stopped, late[1..])
        case Look => ServiceEnds(stopped, late[1..]))
  }

  ghost predicate ApiOk(a: ApiInstance, hours: nat, price: nat) {
    && a.endsAt == a.startsAt + hours * HOUR_MS && a.hourly == price && a.maximum == price * hours
    && a.accumulated >= 0
    && (a.status == Running <==> a.since.Some?)
  }

  /** The demo's meter is the service's, capped by the lease. */
  ghost predicate Agree(a: ApiInstance, d: DemoInstance, hours: nat, price: nat) {
    && ApiOk(a, hours, price)
    && a.startsAt == d.startsAt && a.endsAt == d.endsAt && a.maximum == d.maximum
    && a.status == d.status && a.since == d.since
    && d.billable == Min(3600 * hours, a.accumulated)
  }

  lemma LeaseSeconds(startsAt: int, hours: nat)
    ensures CeilSeconds(startsAt + hours * HOUR_MS - startsAt) == 3600 * hours
  {
    assert startsAt + hours * HOUR_MS - startsAt == (3600 * hours) * 1000;
  }

  lemma {:induction false} ApiRunOk(a: ApiInstance, history: seq<Moment>, hours: nat, price: nat)
    requires ApiOk(a, hours, price)
    ensures ApiOk(ApiRun(a, history), hours, price)
    ensures ApiRun(a, history).startsAt == a.startsAt
    decreases |history|
  {
    if history != [] {
      hide CeilSeconds;
      ApiRunOk(ApiStep(a, history[0].event, history[0].at), history[1..], hours, price);
    }
  }

  lemma StepAgree(a: ApiInstance, d: DemoInstance, hours: nat, price: nat, event: Event, now: int)
    requires Agree(a, d, hours, price) && now < a.endsAt
    ensures Agree(ApiStep(a, event, now), DemoCall(d, event, now), hours, price)
  {
    LeaseSeconds(a.startsAt, hours);
    hide CeilSeconds, Ceil, DemoHours;
  }

  lemma {:induction false} EarlyAgree(a: ApiInstance, d: DemoInstance, hours: nat, price: nat, history: seq<Moment>)
    requires Agree(a, d, hours, price) && forall i :: 0 <= i < |history| ==> history[i].at < a.endsAt
    ensures Agree(ApiRun(a, history), DemoRun(d, history), hours, price) && ApiRun(a, history).endsAt == a.endsAt
    ensures ApiRun(a, history).startsAt == a.startsAt
    decreases |history|
  {
    if history != [] {
      var m := history[0];
      StepAgree(a, d, hours, price, m.event, m.at);
      EarlyAgree(ApiStep(a, m.event, m.at), DemoCall(d, m.event, m.at), hours, price, history[1..]);
    }
  }

  lemma {:induction false} RunsAppend(a: ApiInstance, d: DemoInstance, early: seq<Moment>, late: seq<Moment>)
    ensures ApiRun(a, early + late) == ApiRun(ApiRun(a, early), late)
    ensures DemoRun(d, early + late) == DemoRun(DemoRun(d, early), late)
    decreases |early|
  {
    if early == [] {
      assert early + late == late;
    } else {
      var m := early[0];
      assert (early + late)[0] == m && (early + late)[1..] == early[1..] + late;
      RunsAppend(ApiStep(a, m.event, m.at), DemoCall(d, m.event, m.at), early[1..], late);
    }
  }

  predicate Late(late: seq<Moment>, end: int) {
    forall i :: 0 <= i < |late| ==> late[i].at >= end
  }

  /** After the lease the service runs on until something stops it. */
  lemma {:induction false} ApiLate(a: ApiInstance, late: seq<Moment>, now: int, hours: nat, price: nat)
    requires ApiOk(a, hours, price) && Late(late, a.endsAt)
    ensures var a' := ApiRun(a, late);
      && ApiBillable(a', now) == Min(3600 * hours, a.accumulated + Segment(a.since, ServiceEnd(late, now)))
      && (a'.status == Terminated <==> a.status == Terminated || ServiceEnds(a.status == Stopped, late))
    decreases |late|
  {
    LeaseSeconds(a.startsAt, hours);
    if late != [] {
      var next := ApiStep(a, late[0].event, late[0].at);
      assert ApiOk(next, hours, price) && next.startsAt == a.startsAt by { hide CeilSeconds; }
      ApiLate(next, late[1..], now, hours, price);
      hide CeilSeconds;
    }
  }

  /** After the lease the first call of the demo ends the instance. */
  lemma {:induction false} DemoLate(d: DemoInstance, late: seq<Moment>, now: int, lease: int)
    requires Late(late, d.endsAt) && now >= d.endsAt && CeilSeconds(d.endsAt - d.startsAt) == lease
      && d.billable <= lease
    requires d.status == Running <==> d.since.Some?
    ensures var d' := DemoShown(d, late, now);
      && d'.status == Terminated && d'.startsAt == d.startsAt && d'.endsAt == d.endsAt && d'.maximum == d.maximum
      && DemoBillable(d', now) == Min(lease, d.billable + Segment(d.since, DemoEnd(late, now)))
    decreases |late|
  {
    hide CeilSeconds, DemoCost;
    if late != [] {
      var next := DemoCall(d, late[0].event, late[0].at);
      DemoLate(next, late[1..], now, lease);
    }
  }

  /** The derived hourly price is the price. */
  lemma DerivedPrice(d: DemoInstance, hours: nat, price: nat)
    requires d.endsAt == d.startsAt + hours * HOUR_MS && d.maximum == price * hours && hours >= 1
    ensures d.maximum as real / DemoHours(d) == price as real
  {
    var ms := (hours * HOUR_MS) as real;
    assert ms == hours as real * HOUR_MS as real;
    assert ms / HOUR_MS as real == hours as real;
    assert d.maximum as real == price as real * hours as real;
  }

  lemma ScaledPrice(price: nat, seconds: int)
    ensures price as real * seconds as real == (price * seconds) as real
  {
  }

  /** Equal seconds cost the same, however the price was obtained. */
  lemma SameSecondsSameCost(a: ApiInstance, d: DemoInstance, hours: nat, price: nat, now: int)
    requires ApiOk(a, hours, price) && a.startsAt == d.startsAt && a.endsAt == d.endsAt && a.maximum == d.maximum
    requires hours >= 1 && ApiBillable(a, now) == DemoBillable(d, now)
    ensures ApiCost(a, now) == DemoCost(d, now)
  {
    DerivedPrice(d, hours, price);
    ScaledPrice(price, DemoBillable(d, now));
    hide CeilSeconds, Ceil, DemoHours, Segment;
  }

  /** The seconds run by instant t, uncapped, for a meter that nothing stops before t. */
  function RunBy(a: ApiInstance, t: int): int {
    a.accumulated + Segment(a.since, t)
  }

  /** A running meter has used up the lease at exactly the instants after this one. */
  function UsedUpAfter(a: ApiInstance, hours: nat): int
    requires a.since.Some?
  {
    a.since.value + 1000 * (3600 * hours - a.accumulated - 1)
  }

  /** When two ends of a meter that ran at the end of the lease bill the same. */
  predicate EndsAlike(a: ApiInstance, hours: nat, u: int, v: int) {
    || a.since.None?
    || CeilSeconds(u - a.since.value) == CeilSeconds(v - a.since.value)
    || (u > UsedUpAfter(a, hours) && v > UsedUpAfter(a, hours))
  }

  lemma CappedAlike(a: ApiInstance, hours: nat, u: int, v: int)
    requires a.since.Some? ==> a.since.value <= u && a.since.value <= v
    ensures Min(3600 * hours, RunBy(a, u)) == Min(3600 * hours, RunBy(a, v)) <==> EndsAlike(a, hours, u, v)
  {
  }

  /**
   What both show at a reading, after any history of starts, stops, terminations, other calls and sweeps at
   the same instants. With `u` and `v` the instants at which service and demo stop their clocks after the
   lease, the seconds agree, and with them the cost, exactly before the end of the lease, or if the meter
   stood still when it ended, or `u` and `v` fall in the same second of its last run, or the lease was used
   up by both; the statuses agree exactly before the end of the lease and once the service has ended the
   instance.
   */
  lemma MetersAgreeIff(startsAt: int, hours: nat, price: nat, since: int, history: seq<Moment>, now: int)
    requires hours >= 1 && since <= startsAt + hours * HOUR_MS && Chronological(history, now)
    ensures var end := startsAt + hours * HOUR_MS; var n := CountBefore(history, end);
      var a0 := ApiRun(NewApi(startsAt, hours, price, since), history[..n]);
      var a := ApiRun(NewApi(startsAt, hours, price, since), history);
      var d := DemoShown(NewDemo(startsAt, hours, price, since), history, now);
      var u, v := ServiceEnd(history[n..], now), DemoEnd(history[n..], now);
      && (ApiBillable(a, now) == DemoBillable(d, now) <==> now < end || EndsAlike(a0, hours, u, v))
      && (ApiBillable(a, now) == DemoBillable(d, now) ==> ApiCost(a, now) == DemoCost(d, now))
      && (a.status == d.status <==>
            now < end || a0.status == Terminated || ServiceEnds(a0.status == Stopped, history[n..]))
  {
    var end := startsAt + hours * HOUR_MS;
    var n := CountBefore(history, end);
    AtLeaseEnd(startsAt, hours, price, since, history, n);
    var a1, d1 := NewApi(startsAt, hours, price, since), NewDemo(startsAt, hours, price, since);
    var early, late := history[..n], history[n..];
    var a0, d0 := ApiRun(a1, early), DemoRun(d1, early);
    hide CeilSeconds, ApiCost, DemoCost, ApiBillable, DemoBillable, Segment, EndsAlike, DemoCall, Late, ApiRun, DemoRun;
    if now < end {
      assert late == [] && early == history;
      EarlyReading(a0, d0, now, hours, price);
    } else {
      LateMoments(history, n, now, end);
      LateReading(a0, d0, late, now, hours, price);
    }
    var a, d := ApiRun(a1, history), DemoShown(d1, history, now);
    if ApiBillable(a, now) == DemoBillable(d, now) { SameSecondsSameCost(a, d, hours, price, now); }
  }

  /** The state of both as the lease ends, and what follows from there. */
  lemma AtLeaseEnd(startsAt: int, hours: nat, price: nat, since: int, history: seq<Moment>, n: nat)
    requires since <= startsAt + hours * HOUR_MS && n == CountBefore(history, startsAt + hours * HOUR_MS)
    ensures var end := startsAt + hours * HOUR_MS;
      var a1, d1 := NewApi(startsAt, hours, price, since), NewDemo(startsAt, hours, price, since);
      var a0, d0 := ApiRun(a1, history[..n]), DemoRun(d1, history[..n]);
      && Agree(a0, d0, hours, price) && a0.startsAt == startsAt && a0.endsAt == end
      && (a0.since.Some? ==> a0.since.value <= end)
      && ApiRun(a1, history) == ApiRun(a0, history[n..]) && DemoRun(d1, history) == DemoRun(d0, history[n..])
      && ApiOk(ApiRun(a1, history), hours, price) && ApiRun(a1, history).startsAt == startsAt
  {
    hide CeilSeconds, Segment, ApiStep, DemoCall;
    var end := startsAt + hours * HOUR_MS;
    var a1, d1 := NewApi(startsAt, hours, price, since), NewDemo(startsAt, hours, price, since);
    assert history == history[..n] + history[n..];
    EarlyAgree(a1, d1, hours, price, history[..n]);
    RunningBeforeEnd(a1, history[..n], end);
    RunsAppend(a1, d1, history[..n], history[n..]);
    ApiRunOk(a1, history, hours, price);
  }

  lemma EarlyReading(a: ApiInstance, d: DemoInstance, now: int, hours: nat, price: nat)
    requires Agree(a, d, hours, price) && now < a.endsAt
    ensures DemoCall(d, Look, now) == d && ApiBillable(a, now) == DemoBillable(d, now)
  {
    LeaseSeconds(a.startsAt, hours);
    hide CeilSeconds;
  }

  lemma LateReading(a0: ApiInstance, d0: DemoInstance, late: seq<Moment>, now: int, hours: nat, price: nat)
    requires Agree(a0, d0, hours, price) && Late(late, a0.endsAt) && now >= a0.endsAt
    requires ServiceEnd(late, now) >= a0.endsAt && DemoEnd(late, now) >= a0.endsAt
    requires a0.since.Some? ==> a0.since.value <= a0.endsAt
    ensures var a, d := ApiRun(a0, late), DemoShown(d0, late, now);
      && (ApiBillable(a, now) == DemoBillable(d, now) <==>
            EndsAlike(a0, hours, ServiceEnd(late, now), DemoEnd(late, now)))
      && (a.status == d.status <==> a0.status == Terminated || ServiceEnds(a0.status == Stopped, late))
      && d.startsAt == d0.startsAt && d.endsAt == d0.endsAt && d.maximum == d0.maximum
  {
    LeaseSeconds(a0.startsAt, hours);
    hide CeilSeconds, EndsAlike, ApiRun, DemoRun, DemoCall, Segment, ServiceEnds, ApiBillable, DemoBillable, Late;
    ApiLate(a0, late, now, hours, price);
    DemoLate(d0, late, now, 3600 * hours);
    CappedAlike(a0, hours, ServiceEnd(late, now), DemoEnd(late, now));
    CapTwice(3600 * hours, a0.accumulated, Segment(a0.since, DemoEnd(late, now)));
  }

  lemma CapTwice(cap: int, run: int, segment: nat)
    ensures Min(cap, Min(cap, run) + segment) == Min(cap, run + segment)
  {
  }

  lemma {:induction false} RunningBeforeEnd(a: ApiInstance, early: seq<Moment>, end: int)
    requires forall i :: 0 <= i < |early| ==> early[i].at < end
    requires a.since.Some? ==> a.since.value <= end
    ensures ApiRun(a, early).since.Some? ==> ApiRun(a, early).since.value <= end
    decreases |early|
  {
    if early != [] { RunningBeforeEnd(ApiStep(a, early[0].event, early[0].at), early[1..], end); }
  }

  lemma LateMoments(history: seq<Moment>, n: nat, now: int, end: int)
    requires Chronological(history, now) && n == CountBefore(history, end) && now >= end
    ensures Late(history[n..], end) && ServiceEnd(history[n..], now) >= end && DemoEnd(history[n..], now) >= end
  {
    EndsLate(history[n..], now, end);
  }

  lemma {:induction false} EndsLate(late: seq<Moment>, now: int, end: int)
    requires now >= end && Late(late, end)
    ensures ServiceEnd(late, now) >= end && DemoEnd(late, now) >= end
    decreases |late|
  {
    if late != [] { EndsLate(late[1..], now, end); }
  }

  /** Before the lease ends both show the same status, seconds and cost at every reading. */
  lemma MetersAgree(startsAt: int, hours: nat, price: nat, since: int, history: seq<Moment>, now: int)
    requires hours >= 1 && since <= startsAt + hours * HOUR_MS && Chronological(history, now)
    requires now < startsAt + hours * HOUR_MS
    ensures var a := ApiRun(NewApi(startsAt, hours, price, since), history);
      var d := DemoShown(NewDemo(startsAt, hours, price, since), history, now);
      && a.status == d.status
      && ApiBillable(a, now) == DemoBillable(d, now)
      && ApiCost(a, now) == DemoCost(d, now)
  {
    MetersAgreeIff(startsAt, hours, price, since, history, now);
  }

  /**
   They can differ afterwards: with a pause in the lease, a call that ends the demo's instance at the end of
   the lease and a sweep one minute later, the service bills one minute more.
   */
  lemma MetersDiffer()
    ensures var end := 12 * HOUR_MS;
      var history := [Moment(Stop, 1_000_000), Moment(Start, end - 1_000_000), Moment(Look, end),
        Moment(Sweep, end + 60_000)];
      var a := ApiRun(NewApi(0, 12, 3600, 0), history);
      var d := DemoShown(NewDemo(0, 12, 3600, 0), history, end + 60_000);
      && Chronological(history, end + 60_000)
      && a.status == d.status == Terminated
      && ApiBillable(a, end + 60_000) == 2060 && ApiCost(a, end + 60_000) == 2060
      && DemoBillable(d, end + 60_000) == 2000 && DemoCost(d, end + 60_000) == 2000
  {
    var end := 12 * HOUR_MS;
    var a, d := NewApi(0, 12, 3600, 0), NewDemo(0, 12, 3600, 0);
    FourMoments(a, d, Moment(Stop, 1_000_000), Moment(Start, end - 1_000_000), Moment(Look, end),
      Moment(Sweep, end + 60_000));
    hide DemoCost;
    var shown := DemoCall(DemoCall(DemoCall(DemoCall(d, Stop, 1_000_000), Start, end - 1_000_000), Look, end), Look,
      end + 60_000);
    assert shown.billable == 2000 && shown.status == Terminated;
    CostOfSeconds(shown, end + 60_000, 2000);
  }

  lemma CostOfSeconds(d: DemoInstance, now: int, seconds: nat)
    requires d.startsAt == 0 && d.endsAt == 12 * HOUR_MS && d.maximum == 43200
    requires seconds <= 43200 && DemoBillable(d, now) == seconds
    ensures DemoCost(d, now) == seconds
  {
    DerivedPrice(d, 12, 3600);
    hide DemoHours;
  }

  lemma FourMoments(a: ApiInstance, d: DemoInstance, m0: Moment, m1: Moment, m2: Moment, m3: Moment)
    ensures ApiRun(a, [m0, m1, m2, m3]) ==
      ApiStep(ApiStep(ApiStep(ApiStep(a, m0.event, m0.at), m1.event, m1.at), m2.event, m2.at), m3.event, m3.at)
    ensures DemoRun(d, [m0, m1, m2, m3]) ==
      DemoCall(DemoCall(DemoCall(DemoCall(d, m0.event, m0.at), m1.event, m1.at), m2.event, m2.at), m3.event, m3.at)
  {
    hide ApiStep, DemoCall;
    FirstMoment(a, d, [m0, m1, m2, m3], m0, [m1, m2, m3]);
    var a1, d1 := ApiStep(a, m0.event, m0.at), DemoCall(d, m0.event, m0.at);
    FirstMoment(a1, d1, [m1, m2, m3], m1, [m2, m3]);
    var a2, d2 := ApiStep(a1, m1.event, m1.at), DemoCall(d1, m1.event, m1.at);
    FirstMoment(a2, d2, [m2, m3], m2, [m3]);
    FirstMoment(ApiStep(a2, m2.event, m2.at), DemoCall(d2, m2.event, m2.at), [m3], m3, []);
  }

  lemma FirstMoment(a: ApiInstance, d: DemoInstance, history: seq<Moment>, first: Moment, rest: seq<Moment>)
    requires history == [first] + rest
    ensures ApiRun(a, history) == ApiRun(ApiStep(a, first.event, first.at), rest)
    ensures DemoRun(d, history) == DemoRun(DemoCall(d, first.event, first.at), rest)
  {
    assert history[1..] == rest;
  }

  // ----- the clamp -----

  lemma CeilAtMost(x: real, n: int)
    requires x <= n as real
    ensures Ceil(x) <= n
  {
  }

  lemma CeilLeast(x: real)
    ensures x <= Ceil(x) as real < x + 1.0
  {
  }

  lemma PlainCost(price: nat, seconds: nat, hours: nat)
    requires seconds <= 3600 * hours
    ensures 0 <= Ceil((price * seconds) as real / 3600.0) <= price * hours
  {
    MultiplyBound(price, seconds, 3600 * hours);
    assert price * (3600 * hours) == 3600 * (price * hours);
    var n, m := price * seconds, price * hours;
    CostBound(n, m);
  }

  lemma CostBound(n: nat, m: int)
    requires n <= 3600 * m
    ensures 0 <= Ceil(n as real / 3600.0) <= m
  {
    CeilAtMost(n as real / 3600.0, m);
    CeilLeast(n as real / 3600.0);
  }

  /** When the maximum is price times hours, the cost never reaches the clamp: it is the plain ceiling. */
  lemma ClampRedundant(startsAt: int, hours: nat, price: nat, since: int, history: seq<Moment>, now: int)
    ensures var a := ApiRun(NewApi(startsAt, hours, price, since), history);
      && 0 <= ApiBillable(a, now) <= 3600 * hours
      && ApiCost(a, now) == Ceil((price * ApiBillable(a, now)) as real / 3600.0)
      && 0 <= ApiCost(a, now) <= price * hours
      && 3600 * (ApiCost(a, now) - 1) < price * ApiBillable(a, now) <= 3600 * ApiCost(a, now)
  {
    ApiRunOk(NewApi(startsAt, hours, price, since), history, hours, price);
    LeaseSeconds(startsAt, hours);
    var a := ApiRun(NewApi(startsAt, hours, price, since), history);
    hide CeilSeconds, Ceil, Segment, ApiRun;
    assert 0 <= ApiBillable(a, now) <= 3600 * hours;
    PlainCost(price, ApiBillable(a, now), hours);
    HoursCovered(price * ApiBillable(a, now));
  }

  lemma HoursCovered(n: int)
    ensures 3600 * (Ceil(n as real / 3600.0) - 1) < n <= 3600 * Ceil(n as real / 3600.0)
  {
    var x := n as real / 3600.0;
    var c := Ceil(x);
    assert (c - 1) as real < x <= c as real;
    assert x * 3600.0 == n as real;
    assert (3600 * c) as real == 3600.0 * c as real && (3600 * (c - 1)) as real == 3600.0 * (c - 1) as real;
  }

  lemma MultiplyBound(k: nat, a: nat, b: nat)
    requires a <= b
    ensures 0 <= k * a <= k * b
  {
  }

  // ----- what one event does to a meter -----

  /** Seconds are the least whole number that covers a span. */
  lemma SecondsCover(ms: int)
    ensures 1000 * (CeilSeconds(ms) - 1) < ms <= 1000 * CeilSeconds(ms)
    ensures forall since, now :: Segment(Some(since), now) == if now <= since then 0 else CeilSeconds(now - since)
    ensures forall now :: Segment(None, now) == 0
  {
  }

  /** Which events leave a meter running, and which end it. */
  predicate RunsAfter(was: Status, event: Event, due: bool) {
    match was
    case Running => event in {Start, Look} || (event == Sweep && !due)
    case Stopped => event == Start && !due
    case Terminated => false
  }

  predicate EndedAfter(was: Status, event: Event, due: bool) {
    was == Terminated || event == Terminate || (due && (event == Sweep || (event == Start && was == Stopped)))
  }

  /** The service's meter: it runs from a start on, and what it ran is added once, when it stops. */
  lemma ServiceStep(i: ApiInstance, event: Event, now: int)
    requires i.status == Running <==> i.since.Some?
    ensures var i' := ApiStep(i, event, now); var due := i.endsAt <= now;
      && i'.startsAt == i.startsAt && i'.endsAt == i.endsAt && i'.hourly == i.hourly && i'.maximum == i.maximum
      && (i'.status == Running <==> RunsAfter(i.status, event, due))
      && (i'.status == Terminated <==> EndedAfter(i.status, event, due))
      && i'.since == (if i'.status != Running then None else if i.status == Running then i.since else Some(now))
      && i'.accumulated == i.accumulated + (if i'.status == Running then 0 else Segment(i.since, now))
  {
    hide CeilSeconds;
  }

  /** The demo's meter: any call ends it when it is due; a stop keeps the reading, cost included. */
  lemma DemoCallStep(i: DemoInstance, event: Event, now: int)
    requires i.status == Running <==> i.since.Some?
    ensures var i' := DemoCall(i, event, now); var due := i.endsAt <= now;
      && i'.startsAt == i.startsAt && i'.endsAt == i.endsAt && i'.maximum == i.maximum
      && (event == Sweep ==> i' == i)
      && (event != Sweep ==>
            && (i'.status == Running <==> !due && RunsAfter(i.status, event, due))
            && (i'.status == Terminated <==> due || EndedAfter(i.status, event, due))
            && i'.since == (if i'.status != Running then None else if i.status == Running then i.since else Some(now)))
      && (i'.status != Running && i.status == Running ==>
            i'.billable == DemoBillable(i, now)
              && i'.accrued == DemoCost(i.(billable := i'.billable, since := None), now))
      && (i'.status == Running ==> i'.billable == i.billable && i'.accrued == i.accrued)
  {
    hide CeilSeconds, DemoHours, Ceil;
  }

  /** No event changes the reading of its own moment: what ran before it is billed neither twice nor dropped. */
  lemma ReadingKept(a: ApiInstance, d: DemoInstance, event: Event, now: int)
    requires (a.status == Running <==> a.since.Some?) && (d.status == Running <==> d.since.Some?)
    requires d.billable <= CeilSeconds(d.endsAt - d.startsAt)
    ensures ApiBillable(ApiStep(a, event, now), now) == ApiBillable(a, now)
    ensures ApiCost(ApiStep(a, event, now), now) == ApiCost(a, now)
    ensures DemoBillable(DemoCall(d, event, now), now) == DemoBillable(d, now)
  {
    hide Ceil, DemoHours;
  }

  // ----- the service's methods, in place -----

  class Instance {
    var startsAt: int
    var endsAt: int
    var hourly: int
    var maximum: int
    var status: Status
    var since: Option<int>
    var accumulated: int

    ghost function View(): ApiInstance
      reads this
    {
      ApiInstance(startsAt, endsAt, hourly, maximum, status, since, accumulated)
    }

    constructor (orderStart: int, hours: nat, price: nat, now: int)
      ensures View() == NewApi(orderStart, hours, price, now)
    {
      startsAt, endsAt := orderStart, orderStart + hours * HOUR_MS;
      hourly, maximum := price, price * hours;
      status, since, accumulated := Running, Some(now), 0;
    }

    method AccumulateRunningTime(now: int)
      modifies this`accumulated, this`since
      ensures View() == ApiAccumulated(old(View()), now)
    {
      if since.Some? {
        var seconds := CeilSeconds(now - since.value);
        accumulated := accumulated + (if seconds < 0 then 0 else seconds);
        since := None;
      }
    }

    /** `orderActive`: an active order of the same user exists. Without one a start changes nothing. */
    method Begin(orderActive: bool, now: int) returns (ok: bool)
      modifies this
      ensures View() ==
        if orderActive || now >= old(endsAt) then ApiStep(old(View()), Start, now) else old(View())
      ensures ok <==> status == Running
    {
      if status == Running { return true; }
      if status == Terminated { return false; }
      if now >= endsAt {
        End(now);
        return false;
      }
      if !orderActive { return false; }
      status, since := Running, Some(now);
      return true;
    }

    method Halt(now: int) returns (ok: bool)
      modifies this
      ensures View() == ApiStep(old(View()), Stop, now)
      ensures ok <==> status == Stopped
    {
      if status == Stopped { return true; }
      if status == Terminated { return false; }
      AccumulateRunningTime(now);
      status := Stopped;
      return true;
    }

    method End(now: int)
      modifies this
      ensures View() == ApiStep(old(View()), Terminate, now)
    {
      if status != Terminated {
        AccumulateRunningTime(now);
        status := Terminated;
      }
    }

    /** The sweep's effect on one instance. */
    method EndIfExpired(now: int)
      modifies this
      ensures View() == ApiStep(old(View()), Sweep, now)
    {
      if status != Terminated && endsAt <= now { End(now); }
    }

    method Read(now: int) returns (billable: int, cost: int)
      ensures billable == ApiBillable(View(), now) && cost == ApiCost(View(), now)
    {
      var running := 0;
      if since.Some? {
        var seconds := CeilSeconds(now - since.value);
        if seconds > 0 { running := seconds; }
      }
      billable := Min(CeilSeconds(endsAt - startsAt), accumulated + running);
      cost := Min(maximum, Ceil((hourly * billable) as real / 3600.0));
    }
  }
}
