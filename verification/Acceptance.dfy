/**
 Idempotent acceptance of mutations: a change of the domain, an operation, its outbox events, an audit
 row and an idempotency record commit together or not at all.
 */
module Acceptance {
  import opened Text

  datatype Result<+S, +E> = Applied(state: S) | Refused(error: E)

  datatype Mutation = Mutation(principal: string, requestId: string, key: string, hash: string)

  datatype Spec = Spec(
    kind: string, resourceType: string, resourceId: string, eventType: string, completeImmediately: bool)

  /** A request: who asks, what it stands for, the operation ID drawn for it and the change itself. */
  datatype Request<!S, !E> = Request(
    mutation: Mutation, spec: Spec, operationId: string, apply: S -> Result<S, E>)

  datatype OperationStatus = Queued | Succeeded
  datatype Operation = Operation(
    kind: string, resourceType: string, resourceId: string, status: OperationStatus, requestId: string)
  datatype Event = Event(
    aggregateType: string, aggregateId: string, eventType: string, operationId: string, delivered: bool)
  datatype Audit = Audit(principal: string, action: string, resourceType: string, resourceId: string, requestId: string)
  datatype Record = Record(hash: string, resourceId: string, operationId: string)

  type RecordKey = (string, string)

  datatype Store<S> = Store(
    domain: S,
    operations: map<string, Operation>,
    outbox: seq<Event>,
    audit: seq<Audit>,
    records: map<RecordKey, Record>)

  datatype Response<+E> =
    | Accepted(resourceId: string, operationId: string, replayed: bool)
    | IdempotencyConflict | InvalidRequest | Failed(error: E) | DuplicateOperation

  // ----- one request -----

  predicate ValidMutation(m: Mutation) {
    && !Blank(m.principal) && |m.principal| <= 255
    && !Blank(m.requestId) && |m.requestId| <= 128
    && |Trim(m.key)| >= 8 && |m.key| <= 255
    && !Blank(m.hash) && |m.hash| <= 128
  }

  function RecordKeyOf(m: Mutation, spec: Spec): RecordKey {
    (spec.kind + ":" + m.principal, m.key)
  }

  function KeyOf<S, E>(r: Request<S, E>): RecordKey {
    RecordKeyOf(r.mutation, r.spec)
  }

  function OperationRow<S, E>(r: Request<S, E>): Operation {
    Operation(r.spec.kind, r.spec.resourceType, r.spec.resourceId,
              if r.spec.completeImmediately then Succeeded else Queued, r.mutation.requestId)
  }

  function EventRows<S, E>(r: Request<S, E>): seq<Event> {
    [Event("operation", r.operationId, "operation.queued", r.operationId, r.spec.completeImmediately),
     Event(r.spec.resourceType, r.spec.resourceId, r.spec.eventType, r.operationId, false)]
  }

  function AuditRow<S, E>(r: Request<S, E>): Audit {
    Audit(r.mutation.principal, r.spec.kind, r.spec.resourceType, r.spec.resourceId, r.mutation.requestId)
  }

  function RecordRow<S, E>(r: Request<S, E>): Record {
    Record(r.mutation.hash, r.spec.resourceId, r.operationId)
  }

  function DoAccept<S, E>(st: Store<S>, r: Request<S, E>): (Store<S>, Response<E>) {
    var key := KeyOf(r);
    if !ValidMutation(r.mutation) then (st, InvalidRequest)
    else if key in st.records then
      var record := st.records[key];
      if record.hash != r.mutation.hash then (st, IdempotencyConflict)
      else (st, Accepted(record.resourceId, record.operationId, true))
    else
      match r.apply(st.domain)
      case Refused(e) => (st, Failed(e))
      case Applied(domain) =>
        if r.operationId in st.operations then (st, DuplicateOperation)
        else
          (Store(domain,
                 st.operations[r.operationId := OperationRow(r)],
                 st.outbox + EventRows(r),
                 st.audit + [AuditRow(r)],
                 st.records[key := RecordRow(r)]),
           Accepted(r.spec.resourceId, r.operationId, false))
  }

  function Run<S, E>(st: Store<S>, rs: seq<Request<S, E>>): Store<S>
    decreases |rs|
  {
    if rs == [] then st else Run(DoAccept(st, rs[0]).0, rs[1..])
  }

  predicate Fresh<E>(response: Response<E>) {
    response.Accepted? && !response.replayed
  }

  /** The requests of a trace that are newly accepted: no replays, conflicts or failures. */
  function Effective<S, E>(st: Store<S>, rs: seq<Request<S, E>>): seq<Request<S, E>>
    decreases |rs|
  {
    if rs == [] then []
    else
      var (st', response) := DoAccept(st, rs[0]);
      (if Fresh(response) then [rs[0]] else []) + Effective(st', rs[1..])
  }

  // ----- traces -----

  /** A request that is not newly accepted leaves no trace at all. */
  lemma OnlyFreshChanges<S, E>(st: Store<S>, r: Request<S, E>)
    ensures !Fresh(DoAccept(st, r).1) ==> DoAccept(st, r).0 == st
  {
  }

  /** A new acceptance writes one operation, two events, one audit row and one record. */
  lemma FreshWrites<S, E>(st: Store<S>, r: Request<S, E>)
    requires Fresh(DoAccept(st, r).1)
    ensures var st' := DoAccept(st, r).0;
      && r.operationId !in st.operations && st'.operations == st.operations[r.operationId := OperationRow(r)]
      && KeyOf(r) !in st.records && st'.records == st.records[KeyOf(r) := RecordRow(r)]
      && st'.audit == st.audit + [AuditRow(r)]
      && st'.outbox == st.outbox + EventRows(r)
  {
  }

  /**
   A request is newly accepted exactly if its fields are in range, its kind and principal have not used the key,
   the change applies and the operation ID is new. It then writes the change, an operation, the event of the
   operation and the one of the change, an audit row and the record of the key. A used key is a replay for the
   same body, and a conflict for another.
   */
  lemma FreshIff<S, E>(st: Store<S>, r: Request<S, E>)
    ensures var (st', o) := DoAccept(st, r);
      var m, spec, key := r.mutation, r.spec, (r.spec.kind + ":" + r.mutation.principal, r.mutation.key);
      var valid := Trim(m.principal) != "" && |m.principal| <= 255 && Trim(m.requestId) != "" && |m.requestId| <= 128
                   && 8 <= |Trim(m.key)| && |m.key| <= 255 && Trim(m.hash) != "" && |m.hash| <= 128;
      && (Fresh(o) <==>
            valid && key !in st.records && r.apply(st.domain).Applied? && r.operationId !in st.operations)
      && (Fresh(o) ==>
            && o.resourceId == spec.resourceId && o.operationId == r.operationId
            && Applied(st'.domain) == r.apply(st.domain)
            && st'.operations == st.operations[r.operationId :=
                 Operation(spec.kind, spec.resourceType, spec.resourceId,
                           if spec.completeImmediately then Succeeded else Queued, m.requestId)]
            && st'.outbox == st.outbox
               + [Event("operation", r.operationId, "operation.queued", r.operationId, spec.completeImmediately),
                  Event(spec.resourceType, spec.resourceId, spec.eventType, r.operationId, false)]
            && st'.audit == st.audit + [Audit(m.principal, spec.kind, spec.resourceType, spec.resourceId, m.requestId)]
            && st'.records == st.records[key := Record(m.hash, spec.resourceId, r.operationId)])
      && (!Fresh(o) ==> st' == st)
      && (o.Accepted? && o.replayed <==> valid && key in st.records && st.records[key].hash == m.hash)
      && (o.Accepted? && o.replayed ==>
            o.resourceId == st.records[key].resourceId && o.operationId == st.records[key].operationId)
      && (o == IdempotencyConflict <==> valid && key in st.records && st.records[key].hash != m.hash)
      && (o == InvalidRequest <==> !valid)
      && (o.Failed? ==> valid && key !in st.records && r.apply(st.domain) == Refused(o.error))
      && (o == DuplicateOperation ==> r.operationId in st.operations)
  {
    hide Trim;
  }

  /** Removing replays, hash conflicts and failures from a trace does not change where it ends. */
  lemma {:induction false} RunEffective<S, E>(st: Store<S>, rs: seq<Request<S, E>>)
    ensures Run(st, Effective(st, rs)) == Run(st, rs)
    ensures Effective(st, Effective(st, rs)) == Effective(st, rs)
    decreases |rs|
  {
    if rs != [] {
      var (st', response) := DoAccept(st, rs[0]);
      RunEffective(st', rs[1..]);
      OnlyFreshChanges(st, rs[0]);
      var rest := Effective(st', rs[1..]);
      if Fresh(response) {
        assert Effective(st, rs)[1..] == rest;
      } else {
        assert Effective(st, rs) == rest;
      }
    }
  }

  function AuditRows<S, E>(rs: seq<Request<S, E>>): seq<Audit> {
    if rs == [] then [] else [AuditRow(rs[0])] + AuditRows(rs[1..])
  }

  function AllEventRows<S, E>(rs: seq<Request<S, E>>): seq<Event> {
    if rs == [] then [] else EventRows(rs[0]) + AllEventRows(rs[1..])
  }

  ghost predicate SameRequest<S, E>(st: Store<S>, e: Request<S, E>) {
    && e.operationId in st.operations && st.operations[e.operationId] == OperationRow(e)
    && KeyOf(e) in st.records && st.records[KeyOf(e)] == RecordRow(e)
  }

  /** Rows written by an acceptance are never rewritten by a later request. */
  lemma {:induction false} RowsStay<S, E>(st: Store<S>, rs: seq<Request<S, E>>)
    ensures var st' := Run(st, rs);
      && (forall o :: o in st.operations ==> o in st'.operations && st'.operations[o] == st.operations[o])
      && (forall k :: k in st.records ==> k in st'.records && st'.records[k] == st.records[k])
    decreases |rs|
  {
    if rs != [] {
      OnlyFreshChanges(st, rs[0]);
      if Fresh(DoAccept(st, rs[0]).1) { FreshWrites(st, rs[0]); }
      hide DoAccept, KeyOf;
      RowsStay(DoAccept(st, rs[0]).0, rs[1..]);
    }
  }

  /** How a trace unfolds at its first request. */
  lemma EffectiveStep<S, E>(st: Store<S>, rs: seq<Request<S, E>>)
    requires rs != []
    ensures Run(st, rs) == Run(DoAccept(st, rs[0]).0, rs[1..])
    ensures Fresh(DoAccept(st, rs[0]).1) ==> Effective(st, rs) == [rs[0]] + Effective(DoAccept(st, rs[0]).0, rs[1..])
    ensures !Fresh(DoAccept(st, rs[0]).1) ==>
      DoAccept(st, rs[0]).0 == st && Effective(st, rs) == Effective(st, rs[1..])
  {
    OnlyFreshChanges(st, rs[0]);
  }

  /** The log tables hold the rows of the accepted mutations, one audit row and two events each, in order. */
  lemma {:induction false} LogsOfTrace<S, E>(st: Store<S>, rs: seq<Request<S, E>>)
    ensures Run(st, rs).audit == st.audit + AuditRows(Effective(st, rs))
    ensures Run(st, rs).outbox == st.outbox + AllEventRows(Effective(st, rs))
    decreases |rs|
  {
    if rs != [] {
      EffectiveStep(st, rs);
      var st1 := DoAccept(st, rs[0]).0;
      LogsOfTrace(st1, rs[1..]);
      if Fresh(DoAccept(st, rs[0]).1) {
        FreshWrites(st, rs[0]);
        var rest := Effective(st1, rs[1..]);
        hide Run, DoAccept, Effective, AuditRow, EventRows, KeyOf;
        assert Effective(st, rs)[0] == rs[0] && Effective(st, rs)[1..] == rest;
      }
    }
  }

  ghost predicate NewRows<S, E>(st: Store<S>, es: seq<Request<S, E>>) {
    && (forall i :: 0 <= i < |es| ==> es[i].operationId !in st.operations && KeyOf(es[i]) !in st.records)
    && (forall i, j :: 0 <= i < j < |es| ==>
          es[i].operationId != es[j].operationId && KeyOf(es[i]) != KeyOf(es[j]))
  }

  lemma NewRowsStep<S, E>(st: Store<S>, r: Request<S, E>, es: seq<Request<S, E>>)
    requires Fresh(DoAccept(st, r).1) && NewRows(DoAccept(st, r).0, es)
    ensures NewRows(st, [r] + es)
  {
    var st1 := DoAccept(st, r).0;
    assert st1.operations == st.operations[r.operationId := OperationRow(r)];
    assert st1.records == st.records[KeyOf(r) := RecordRow(r)];
    forall i | 0 <= i < |es|
      ensures es[i].operationId !in st.operations && KeyOf(es[i]) !in st.records
      ensures es[i].operationId != r.operationId && KeyOf(es[i]) != KeyOf(r)
    {
      assert es[i].operationId !in st1.operations && KeyOf(es[i]) !in st1.records;
    }
  }

  /** No two accepted mutations of a trace share an operation ID or a key, and none reuses an earlier one. */
  lemma {:induction false} NewRowsOfTrace<S, E>(st: Store<S>, rs: seq<Request<S, E>>)
    ensures NewRows(st, Effective(st, rs))
    decreases |rs|
  {
    if rs != [] {
      EffectiveStep(st, rs);
      var st1 := DoAccept(st, rs[0]).0;
      NewRowsOfTrace(st1, rs[1..]);
      if Fresh(DoAccept(st, rs[0]).1) { NewRowsStep(st, rs[0], Effective(st1, rs[1..])); }
    }
  }

  /**
   Each accepted mutation of a trace has exactly one operation and one idempotency record, as first
   written, and no other operation or record is added.
   */
  lemma {:induction false} RowsOfTrace<S, E>(st: Store<S>, rs: seq<Request<S, E>>)
    ensures var st', es := Run(st, rs), Effective(st, rs);
      && |st'.operations| == |st.operations| + |es|
      && |st'.records| == |st.records| + |es|
      && (forall i :: 0 <= i < |es| ==> SameRequest(st', es[i]))
    decreases |rs|
  {
    if rs != [] {
      hide Run, Effective, SameRequest;
      EffectiveStep(st, rs);
      var st1 := DoAccept(st, rs[0]).0;
      RowsOfTrace(st1, rs[1..]);
      if Fresh(DoAccept(st, rs[0]).1) {
        FreshWrites(st, rs[0]);
        RowsStay(st1, rs[1..]);
        FirstRequestWritten(st, rs[0]);
        hide DoAccept;
        SameRequestStays(st1, Run(st, rs), rs[0]);
      }
    }
  }

  lemma FirstRequestWritten<S, E>(st: Store<S>, r: Request<S, E>)
    requires Fresh(DoAccept(st, r).1)
    ensures SameRequest(DoAccept(st, r).0, r)
  {
  }

  lemma SameRequestStays<S, E>(st: Store<S>, st': Store<S>, e: Request<S, E>)
    requires SameRequest(st, e)
    requires forall o :: o in st.operations ==> o in st'.operations && st'.operations[o] == st.operations[o]
    requires forall k :: k in st.records ==> k in st'.records && st'.records[k] == st.records[k]
    ensures SameRequest(st', e)
  {
  }

  /** The domain ends where applying only the accepted changes, in order, ends. */
  lemma {:induction false} DomainOfTrace<S, E>(st: Store<S>, rs: seq<Request<S, E>>)
    ensures FoldApply(st.domain, Effective(st, rs)) == Applied(Run(st, rs).domain)
    decreases |rs|
  {
    if rs != [] {
      var (st1, response) := DoAccept(st, rs[0]);
      DomainOfTrace(st1, rs[1..]);
      OnlyFreshChanges(st, rs[0]);
      if Fresh(response) {
        assert Effective(st, rs)[1..] == Effective(st1, rs[1..]);
      } else {
        assert Effective(st, rs) == Effective(st1, rs[1..]);
      }
    }
  }

  function FoldApply<S, E>(domain: S, rs: seq<Request<S, E>>): Result<S, E>
    decreases |rs|
  {
    if rs == [] then Applied(domain)
    else
      match rs[0].apply(domain)
      case Refused(e) => Refused(e)
      case Applied(next) => FoldApply(next, rs[1..])
  }

  /**
   A replay returns the IDs of the first acceptance however much happened in between, and a reused key
   with another body is a conflict; neither changes anything.
   */
  lemma ReplayReturnsFirst<S, E>(st: Store<S>, first: Request<S, E>, between: seq<Request<S, E>>, again: Request<S, E>)
    requires Fresh(DoAccept(st, first).1)
    requires ValidMutation(again.mutation) && KeyOf(again) == KeyOf(first)
    ensures var st' := Run(DoAccept(st, first).0, between);
      DoAccept(st', again) ==
        (st', if again.mutation.hash == first.mutation.hash
              then Accepted(DoAccept(st, first).1.resourceId, DoAccept(st, first).1.operationId, true)
              else IdempotencyConflict)
  {
    RowsStay(DoAccept(st, first).0, between);
  }

  /** A key and an operation ID that no request of a trace uses stay unused. */
  lemma {:induction false} UnusedStays<S, E>(st: Store<S>, rs: seq<Request<S, E>>, key: RecordKey, operationId: string)
    requires key !in st.records && operationId !in st.operations
    requires forall i :: 0 <= i < |rs| ==> KeyOf(rs[i]) != key && rs[i].operationId != operationId
    ensures key !in Run(st, rs).records && operationId !in Run(st, rs).operations
    decreases |rs|
  {
    if rs != [] {
      OnlyFreshChanges(st, rs[0]);
      if Fresh(DoAccept(st, rs[0]).1) { FreshWrites(st, rs[0]); }
      hide DoAccept, KeyOf;
      UnusedStays(DoAccept(st, rs[0]).0, rs[1..], key, operationId);
    }
  }

  /**
   A failed change leaves no trace, so its request is not burnt: after any other traffic the same request is
   accepted exactly if its change then applies, and fails again otherwise.
   */
  lemma FailedThenRetried<S, E>(st: Store<S>, r: Request<S, E>, between: seq<Request<S, E>>)
    requires DoAccept(st, r).1.Failed? && r.operationId !in st.operations
    requires forall i :: 0 <= i < |between| ==> KeyOf(between[i]) != KeyOf(r) && between[i].operationId != r.operationId
    ensures DoAccept(st, r).0 == st
    ensures var later := Run(st, between);
      match r.apply(later.domain)
      case Applied(domain) => Fresh(DoAccept(later, r).1) && DoAccept(later, r).0.domain == domain
      case Refused(e) => DoAccept(later, r) == (later, Failed(e))
  {
    UnusedStays(st, between, KeyOf(r), r.operationId);
    hide Run, KeyOf;
  }

  /** Kinds contain no colon, so a record scope belongs to one kind and one principal. */
  lemma ScopeInjective(m1: Mutation, spec1: Spec, m2: Mutation, spec2: Spec)
    requires ':' !in spec1.kind && ':' !in spec2.kind
    requires RecordKeyOf(m1, spec1) == RecordKeyOf(m2, spec2)
    ensures spec1.kind == spec2.kind && m1.principal == m2.principal && m1.key == m2.key
  {
    SplitAtFirst(':', spec1.kind, m1.principal, spec2.kind, m2.principal);
  }

  // ----- the transaction, statement by statement -----

  class AcceptanceStore<S> {
    var domain: S
    var operations: map<string, Operation>
    var outbox: seq<Event>
    var audit: seq<Audit>
    var records: map<RecordKey, Record>

    ghost function View(): Store<S>
      reads this
    {
      Store(domain, operations, outbox, audit, records)
    }

    /** Queued events belong to recorded operations. */
    ghost predicate Valid()
      reads this
    {
      forall i :: 0 <= i < |outbox| && outbox[i].aggregateType == "operation" ==> outbox[i].aggregateId in operations
    }

    constructor (initial: S)
      ensures Valid() && View() == Store(initial, map[], [], [], map[])
    {
      domain, operations, outbox, audit, records := initial, map[], [], [], map[];
    }

    /** UPDATE outbox_events SET delivered_at ... WHERE the event queues this operation. */
    method DeliverQueued(operationId: string)
      modifies this`outbox
      ensures |outbox| == |old(outbox)|
      ensures forall i :: 0 <= i < |outbox| ==>
        outbox[i] == if old(outbox)[i].aggregateType == "operation" && old(outbox)[i].aggregateId == operationId
                        && old(outbox)[i].eventType == "operation.queued"
                     then old(outbox)[i].(delivered := true) else old(outbox)[i]
    {
      for i := 0 to |outbox|
        invariant |outbox| == |old(outbox)|
        invariant forall j :: i <= j < |outbox| ==> outbox[j] == old(outbox)[j]
        invariant forall j :: 0 <= j < i ==>
          outbox[j] == if old(outbox)[j].aggregateType == "operation" && old(outbox)[j].aggregateId == operationId
                          && old(outbox)[j].eventType == "operation.queued"
                       then old(outbox)[j].(delivered := true) else old(outbox)[j]
      {
        var e := outbox[i];
        if e.aggregateType == "operation" && e.aggregateId == operationId && e.eventType == "operation.queued" {
          outbox := outbox[i := e.(delivered := true)];
        }
      }
    }

    method Accept<E>(r: Request<S, E>) returns (response: Response<E>)
      requires Valid() && r.spec.resourceType != "operation"
      modifies this
      ensures Valid()
      ensures (View(), response) == DoAccept(old(View()), r)
    {
      hide ValidMutation;
      if !ValidMutation(r.mutation) { return InvalidRequest; }
      var key := KeyOf(r);
      if key in records {
        if records[key].hash != r.mutation.hash { return IdempotencyConflict; }
        return Accepted(records[key].resourceId, records[key].operationId, true);
      }
      var applied := r.apply(domain);
      if applied.Refused? { return Failed(applied.error); }
      if r.operationId in operations { return DuplicateOperation; }
      domain := applied.state;
      var operation := Operation(r.spec.kind, r.spec.resourceType, r.spec.resourceId, Queued, r.mutation.requestId);
      operations := operations[r.operationId := operation];
      outbox := outbox + [Event("operation", r.operationId, "operation.queued", r.operationId, false)];
      if r.spec.completeImmediately {
        operations := operations[r.operationId := operation.(status := Succeeded)];
        DeliverQueued(r.operationId);
        assert outbox == old(outbox) + EventRows(r)[..1];
      }
      outbox := outbox + [Event(r.spec.resourceType, r.spec.resourceId, r.spec.eventType, r.operationId, false)];
      audit := audit + [AuditRow(r)];
      records := records[key := RecordRow(r)];
      assert outbox == old(outbox) + EventRows(r);
      assert operations == old(operations)[r.operationId := OperationRow(r)];
      return Accepted(r.spec.resourceId, r.operationId, false);
    }
  }
}
