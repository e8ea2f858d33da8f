/** What every call of the browser demo keeps: rentals, listings and wallets stay consistent. */
module DemoInvariants {
  import opened Basics
  import opened DemoGateway
  import M = Metering

  // ----- wallets -----

  /** Charges are taken from the wallet, everything else is added. */
  function Signed(e: Entry): int {
    if e.reference.Charge? then -e.amount else e.amount
  }

  function Balance(entries: seq<Entry>): int {
    if entries == [] then 0 else Signed(entries[0]) + Balance(entries[1..])
  }

  function Count(entries: seq<Entry>, r: Reference): nat {
    if entries == [] then 0 else (if entries[0].reference == r then 1 else 0) + Count(entries[1..], r)
  }

  function Amount(entries: seq<Entry>, r: Reference): int {
    if entries == [] then 0 else (if entries[0].reference == r then entries[0].amount else 0) + Amount(entries[1..], r)
  }

  predicate AccountOk(a: Account) {
    a.balance == Balance(a.entries) >= 0
  }

  lemma {:induction false} CountOfUnused(entries: seq<Entry>, r: Reference)
    ensures Count(entries, r) == 0 <==> !HasReference(entries, r)
    ensures Count(entries, r) == 0 ==> Amount(entries, r) == 0
    decreases |entries|
  {
    if entries != [] {
      CountOfUnused(entries[1..], r);
      if HasReference(entries[1..], r) {
        var i :| 0 <= i < |entries| - 1 && entries[1..][i].reference == r;
        assert entries[i + 1].reference == r;
      }
      if HasReference(entries, r) && entries[0].reference != r {
        var i :| 0 <= i < |entries| && entries[i].reference == r;
        assert entries[1..][i - 1].reference == r;
      }
    }
  }

  lemma Prepend(e: Entry, entries: seq<Entry>)
    ensures Balance([e] + entries) == Signed(e) + Balance(entries)
    ensures forall r :: Count([e] + entries, r) == (if e.reference == r then 1 else 0) + Count(entries, r)
    ensures forall r :: Amount([e] + entries, r) == (if e.reference == r then e.amount else 0) + Amount(entries, r)
  {
    assert ([e] + entries)[1..] == entries;
  }

  // ----- rentals -----

  /** An order, its instance, and what the customer's wallet records of it. */
  ghost predicate RentalOk(o: Order, n: Instance, a: Account) {
    && n.orderId == o.id && n.user == o.user
    && n.meter.maximum == o.total && n.meter.endsAt == o.endsAt
    && (o.status != Active ==> n.meter.status == M.Terminated)
    && n.meter.startsAt <= n.meter.endsAt && n.meter.billable >= 0 && 0 <= n.meter.accrued <= o.total
    && Count(a.entries, Charge(o.id)) == 1 && Amount(a.entries, Charge(o.id)) == o.total
    && Count(a.entries, Refund(o.id)) <= (if n.meter.status == M.Terminated then 1 else 0)
    && (n.meter.status == M.Terminated ==> Amount(a.entries, Refund(o.id)) + n.meter.accrued == o.total)
  }

  ghost predicate Paired(s: State) {
    && |s.orders| == |s.instances|
    && (forall i :: 0 <= i < |s.orders| ==> s.orders[i].user in s.accounts)
    && (forall i :: 0 <= i < |s.orders| ==> RentalOk(s.orders[i], s.instances[i], s.accounts[s.orders[i].user]))
  }

  /** Newer rows come first, and every number below the sequence was drawn before. */
  ghost predicate Numbered(s: State) {
    && |s.orders| == |s.instances|
    && (forall i :: 0 <= i < |s.orders| ==> s.orders[i].id < s.sequence && s.instances[i].id < s.sequence)
    && (forall i, j :: 0 <= i < j < |s.orders| ==>
          s.orders[i].id > s.orders[j].id && s.instances[i].id > s.instances[j].id)
    && (forall k :: 0 <= k < |s.resources| ==> s.resources[k].id < s.sequence)
    && (forall k, l :: 0 <= k < l < |s.resources| ==> s.resources[k].id != s.resources[l].id)
    && (forall u :: u in s.users ==> u < s.sequence)
  }

  /** An entry of an order lies in its customer's wallet only. */
  ghost predicate OwnEntries(s: State, u: nat, a: Account) {
    forall i :: 0 <= i < |a.entries| && (a.entries[i].reference.Charge? || a.entries[i].reference.Refund?) ==>
      && a.entries[i].reference.order < s.sequence
      && forall j :: 0 <= j < |s.orders| && s.orders[j].id == a.entries[i].reference.order ==> s.orders[j].user == u
  }

  ghost predicate Wallets(s: State) {
    && s.users.Keys == s.accounts.Keys
    && (s.current.Some? ==> s.current.value in s.users)
    && (forall u :: u in s.accounts ==> AccountOk(s.accounts[u]) && OwnEntries(s, u, s.accounts[u]))
  }

  predicate IsOnline(resources: seq<Resource>, id: nat) {
    exists k :: 0 <= k < |resources| && resources[k].id == id && resources[k].listing == Online
  }

  /** At most one active order per GPU, and that GPU is listed online. */
  ghost predicate Rentable(s: State) {
    && (forall i, j :: 0 <= i < j < |s.orders| && s.orders[i].status == Active && s.orders[j].status == Active ==>
          s.orders[i].resource != s.orders[j].resource)
    && (forall i :: 0 <= i < |s.orders| && s.orders[i].status == Active ==> IsOnline(s.resources, s.orders[i].resource))
  }

  /** What every call keeps, whenever it reads the clock. */
  ghost predicate Consistent(s: State) {
    Paired(s) && Numbered(s) && Wallets(s) && Rentable(s)
  }

  /** An active order still has its instance. */
  ghost predicate Synced(s: State) {
    && |s.orders| == |s.instances|
    && forall i :: 0 <= i < |s.orders| && s.orders[i].status == Active ==> s.instances[i].meter.status != M.Terminated
  }

  ghost predicate Inv(s: State) {
    Consistent(s) && Synced(s)
  }

  // ----- closing an order -----

  lemma MeterBounds(m: M.DemoInstance, now: int)
    requires m.maximum >= 0 && m.billable >= 0 && m.startsAt <= m.endsAt
    ensures var r := M.DemoRead(m, now); r.billable >= 0 && 0 <= r.accrued <= m.maximum
  {
  }

  function Closed(n: Instance, now: int): Instance {
    Metered(n, M.Terminate, now)
  }

  /** A terminated rental has nothing left to refund. */
  lemma SettledRental(o: Order, n: Instance, a: Account)
    requires RentalOk(o, n, a) && n.meter.status == M.Terminated
    ensures RefundDue(a, n) == 0
  {
    CountOfUnused(a.entries, Refund(o.id));
  }

  /** Ending a rental refunds exactly what its meter did not use. */
  lemma CloseRental(o: Order, n: Instance, a: Account, status: OrderStatus, now: int)
    requires RentalOk(o, n, a) && AccountOk(a)
    ensures var n', a' := Closed(n, now), RefundedAccount(a, Closed(n, now));
      RentalOk(o.(status := status), n', a') && AccountOk(a')
  {
    MeterBounds(n.meter, now);
    var n' := Closed(n, now);
    if n.meter.status == M.Terminated { SettledRental(o, n, a); }
    assert n.meter.status != M.Terminated ==> n'.meter.accrued == M.DemoRead(n.meter, now).accrued;
    CountOfUnused(a.entries, Refund(o.id));
    var due := RefundDue(a, n');
    Prepend(Entry(Refund(o.id), due), a.entries);
    hide M.DemoCost, M.DemoBillable;
  }

  /** Another entry in the same wallet does not concern this rental. */
  lemma OtherEntry(o: Order, n: Instance, a: Account, e: Entry)
    requires RentalOk(o, n, a) && e.reference != Charge(o.id) && e.reference != Refund(o.id)
    ensures RentalOk(o, n, Account(a.balance + Signed(e), [e] + a.entries))
  {
    Prepend(e, a.entries);
  }

  lemma OtherRental(o: Order, n: Instance, a: Account, closed: Instance)
    requires RentalOk(o, n, a) && closed.orderId != o.id
    ensures RentalOk(o, n, RefundedAccount(a, closed))
  {
    var due := RefundDue(a, closed);
    if due != 0 { OtherEntry(o, n, a, Entry(Refund(closed.orderId), due)); }
  }

  /** What closing the active order i changes: row i of both lists, and one wallet. */
  ghost predicate ClosedAt(s: State, s': State, i: nat, status: OrderStatus, now: int)
    requires i < |s.orders| == |s.instances| && s.orders[i].user in s.accounts
  {
    var o, n := s.orders[i], Closed(s.instances[i], now);
    && s'.orders == s.orders[i := o.(status := status)]
    && s'.instances == s.instances[i := n]
    && s'.accounts == s.accounts[o.user := RefundedAccount(s.accounts[o.user], n)]
    && s'.sequence >= s.sequence
    && s'.users == s.users && s'.current == s.current && s'.resources == s.resources
  }

  lemma FoundAt(s: State, i: nat)
    requires Paired(s) && Numbered(s) && i < |s.orders|
    ensures Find(s.orders, OrderIs(s.orders[i].id)) == Some(i)
    ensures Find(s.instances, InstanceOf(s.orders[i].id)) == Some(i)
  {
    hide RentalOk;
    assert RentalOk(s.orders[i], s.instances[i], s.accounts[s.orders[i].user]);
    assert OrderIs(s.orders[i].id)(s.orders[i]);
    assert s.instances[i].orderId == s.orders[i].id by {
      RentalPair(s.orders[i], s.instances[i], s.accounts[s.orders[i].user]);
    }
    assert InstanceOf(s.orders[i].id)(s.instances[i]);
    var k := Find(s.instances, InstanceOf(s.orders[i].id)).value;
    assert InstanceOf(s.orders[i].id)(s.instances[k]);
    RentalPair(s.orders[k], s.instances[k], s.accounts[s.orders[k].user]);
  }

  lemma RentalPair(o: Order, n: Instance, a: Account)
    requires RentalOk(o, n, a)
    ensures n.orderId == o.id && n.user == o.user && (o.status != Active ==> n.meter.status == M.Terminated)
    ensures n.meter.endsAt == o.endsAt
  {
  }

  lemma CloseShape(s: State, i: nat, status: OrderStatus, now: int)
    requires Consistent(s) && i < |s.orders| && s.orders[i].status == Active
    ensures ClosedAt(s, CloseOrder(s, i, status, now), i, status, now)
  {
    FoundAt(s, i);
    RentalPair(s.orders[i], s.instances[i], s.accounts[s.orders[i].user]);
    if s.instances[i].meter.status == M.Terminated {
      SettledRental(s.orders[i], s.instances[i], s.accounts[s.orders[i].user]);
    }
    hide Consistent, Find, RefundDue, RentalOk, TerminateAt;
    TerminateShape(WithStatus(s, i, status), i, now);
  }

  lemma TerminateShape(s: State, j: nat, now: int)
    requires j < |s.instances| && s.instances[j].user in s.accounts
    requires s.instances[j].meter.status == M.Terminated ==>
      RefundDue(s.accounts[s.instances[j].user], s.instances[j]) == 0
    ensures var s', n := TerminateAt(s, j, now), Closed(s.instances[j], now);
      && s'.instances == s.instances[j := n] && s'.orders == s.orders
      && s'.accounts == s.accounts[n.user := RefundedAccount(s.accounts[n.user], n)]
      && s'.sequence >= s.sequence
      && s'.users == s.users && s'.current == s.current && s'.resources == s.resources
  {
    hide RefundDue, M.DemoRead;
    var n := Closed(s.instances[j], now);
    var a := s.accounts[n.user];
    assert RefundDue(a, n) == 0 ==> s.accounts[n.user := a] == s.accounts;
  }

  lemma ClosePaired(s: State, s': State, i: nat, status: OrderStatus, now: int)
    requires Consistent(s) && i < |s.orders|
    requires ClosedAt(s, s', i, status, now)
    ensures Paired(s')
  {
    var u, n := s.orders[i].user, Closed(s.instances[i], now);
    CloseRental(s.orders[i], s.instances[i], s.accounts[u], status, now);
    forall j | 0 <= j < |s.orders| ensures RentalOk(s'.orders[j], s'.instances[j], s'.accounts[s'.orders[j].user]) {
      RentalPair(s.orders[i], s.instances[i], s.accounts[u]);
      if j != i && s.orders[j].user == u { OtherRental(s.orders[j], s.instances[j], s.accounts[u], n); }
      hide RentalOk, RefundedAccount, Closed, Wallets, Rentable;
    }
    hide RentalOk, RefundedAccount, Closed, Wallets, Rentable;
  }

  lemma CloseWallets(s: State, s': State, i: nat, status: OrderStatus, now: int)
    requires Consistent(s) && i < |s.orders|
    requires ClosedAt(s, s', i, status, now)
    ensures Wallets(s')
  {
    var u, n := s.orders[i].user, Closed(s.instances[i], now);
    CloseRental(s.orders[i], s.instances[i], s.accounts[u], status, now);
    RentalPair(s.orders[i], s.instances[i], s.accounts[u]);
    hide RentalOk, Closed, AccountOk, Rentable, RefundDue, RefundedAccount, Paired, Numbered, OwnEntries;
    RefundOwn(s, s', i, n);
    forall v | v in s.accounts && v != u ensures OwnEntries(s', v, s.accounts[v]) { OwnStays(s, s', v); }
  }

  lemma OwnStays(s: State, s': State, v: nat)
    requires v in s.accounts && OwnEntries(s, v, s.accounts[v]) && |s'.orders| == |s.orders|
      && s'.sequence >= s.sequence
    requires forall j :: 0 <= j < |s.orders| ==>
      s'.orders[j].id == s.orders[j].id && s'.orders[j].user == s.orders[j].user
    ensures OwnEntries(s', v, s.accounts[v])
  {
  }

  lemma RefundOwn(s: State, s': State, i: nat, n: Instance)
    requires Numbered(s) && i < |s.orders| && n.orderId == s.orders[i].id
    requires s.orders[i].user in s.accounts && OwnEntries(s, s.orders[i].user, s.accounts[s.orders[i].user])
    requires |s'.orders| == |s.orders| && s'.sequence >= s.sequence
    requires forall j :: 0 <= j < |s.orders| ==>
      s'.orders[j].id == s.orders[j].id && s'.orders[j].user == s.orders[j].user
    ensures OwnEntries(s', s.orders[i].user, RefundedAccount(s.accounts[s.orders[i].user], n))
  {
    hide RefundDue;
  }

  lemma CloseNumbered(s: State, s': State, i: nat, status: OrderStatus, now: int)
    requires Consistent(s) && i < |s.orders| && ClosedAt(s, s', i, status, now)
    ensures Numbered(s')
  {
    hide Paired, Wallets, Rentable, RefundedAccount, M.DemoStep;
  }

  lemma CloseRentable(s: State, s': State, i: nat, status: OrderStatus, now: int)
    requires Consistent(s) && i < |s.orders| && status != Active && ClosedAt(s, s', i, status, now)
    ensures Rentable(s')
  {
    hide Paired, Wallets, Numbered, RefundedAccount, Closed, IsOnline;
  }

  lemma CloseInv(s: State, i: nat, status: OrderStatus, now: int)
    requires Consistent(s) && i < |s.orders| && s.orders[i].status == Active && status != Active
    ensures var s' := CloseOrder(s, i, status, now);
      && Consistent(s') && SameSession(s, s')
      && s'.orders == s.orders[i := s.orders[i].(status := status)]
      && s'.instances == s.instances[i := Closed(s.instances[i], now)]
      && s.instances[i].meter.endsAt == s.orders[i].endsAt
  {
    var s' := CloseOrder(s, i, status, now);
    RentalPair(s.orders[i], s.instances[i], s.accounts[s.orders[i].user]);
    CloseShape(s, i, status, now);
    ClosePaired(s, s', i, status, now);
    CloseWallets(s, s', i, status, now);
    CloseNumbered(s, s', i, status, now);
    CloseRentable(s, s', i, status, now);
    hide Paired, Wallets, Numbered, Rentable, CloseOrder, RefundedAccount;
  }

  // ----- expiry -----

  /** Every order that was due has expired, and no other order has changed. */
  predicate DueExpired(before: seq<Order>, after: seq<Order>, now: int) {
    && |after| == |before|
    && forall k :: 0 <= k < |before| ==>
         after[k] == if Due(before[k], now) then before[k].(status := Expired) else before[k]
  }

  lemma DueExpiredStep(before: seq<Order>, i: nat, after: seq<Order>, now: int)
    requires i < |before| && Due(before[i], now)
    requires DueExpired(before[i := before[i].(status := Expired)], after, now)
    ensures DueExpired(before, after, now)
  {
  }

  /** Every meter has been read as by an expiring call. */
  ghost predicate MetersExpired(before: seq<Instance>, after: seq<Instance>, now: int) {
    && |after| == |before|
    && forall k :: 0 <= k < |before| ==> after[k] == before[k].(meter := M.Expired(before[k].meter, now))
  }

  lemma MetersExpiredStep(before: seq<Instance>, i: nat, after: seq<Instance>, now: int)
    requires i < |before| && before[i].meter.endsAt <= now
    requires MetersExpired(before[i := Closed(before[i], now)], after, now)
    ensures MetersExpired(before, after, now)
  {
    hide M.DemoRead;
  }

  lemma NothingDueMeters(s: State, now: int)
    requires Paired(s) && forall k :: 0 <= k < |s.orders| ==> !Due(s.orders[k], now)
    ensures MetersExpired(s.instances, s.instances, now)
  {
    forall k | 0 <= k < |s.instances|
      ensures s.instances[k] == s.instances[k].(meter := M.Expired(s.instances[k].meter, now))
    {
      RentalPair(s.orders[k], s.instances[k], s.accounts[s.orders[k].user]);
      hide RentalOk;
    }
  }

  predicate SameSession(s: State, s': State) {
    s'.users == s.users && s'.current == s.current && s'.resources == s.resources
  }

  /** Nothing before order i is due. */
  predicate CheckedUpTo(s: State, i: nat, now: int) {
    forall k :: 0 <= k < i && k < |s.orders| ==> !Due(s.orders[k], now)
  }

  lemma NothingLeft(s: State, i: nat, now: int)
    requires Consistent(s) && CheckedUpTo(s, i, now) && i >= |s.orders|
    ensures DueExpired(s.orders, s.orders, now) && MetersExpired(s.instances, s.instances, now)
  {
    NothingDueMeters(s, now);
    hide Paired, Wallets, Numbered, Rentable, MetersExpired;
  }

  /** One due order, closed on the way. */
  lemma ExpireStep(s: State, i: nat, now: int)
    requires Consistent(s) && CheckedUpTo(s, i, now) && i < |s.orders| && Due(s.orders[i], now)
    ensures var s1 := CloseOrder(s, i, Expired, now);
      && Consistent(s1) && SameSession(s, s1) && CheckedUpTo(s1, i + 1, now)
      && s1.orders == s.orders[i := s.orders[i].(status := Expired)] && i < |s.instances|
      && s1.instances == s.instances[i := Closed(s.instances[i], now)] && s.instances[i].meter.endsAt <= now
  {
    CloseInv(s, i, Expired, now);
    RentalPair(s.orders[i], s.instances[i], s.accounts[s.orders[i].user]);
    hide Paired, Wallets, Numbered, Rentable, CloseOrder, Closed, RentalOk;
  }

  lemma {:induction false} ExpireInv(s: State, i: nat, now: int)
    requires Consistent(s) && CheckedUpTo(s, i, now)
    ensures Consistent(ExpireFrom(s, i, now))
    ensures DueExpired(s.orders, ExpireFrom(s, i, now).orders, now)
    ensures MetersExpired(s.instances, ExpireFrom(s, i, now).instances, now)
    ensures SameSession(s, ExpireFrom(s, i, now))
    decreases |s.orders| - i
  {
    hide Consistent, CloseOrder, Closed, DueExpired, MetersExpired;
    if i >= |s.orders| {
      NothingLeft(s, i, now);
    } else if Due(s.orders[i], now) {
      ExpireStep(s, i, now);
      ExpireInv(CloseOrder(s, i, Expired, now), i + 1, now);
      DueExpiredStep(s.orders, i, ExpireFrom(s, i, now).orders, now);
      MetersExpiredStep(s.instances, i, ExpireFrom(s, i, now).instances, now);
    } else {
      ExpireInv(s, i + 1, now);
    }
  }

  // ----- the other calls -----

  /** A new wallet entry keeps the wallets consistent when it is affordable and its order is the user's own. */
  lemma EntryWallets(s: State, s': State, user: nat, e: Entry)
    requires Wallets(s) && user in s.accounts
    requires s'.users == s.users && s'.current == s.current && s'.sequence >= s.sequence
    requires var a := s.accounts[user];
      s'.accounts == s.accounts[user := Account(a.balance + Signed(e), [e] + a.entries)]
    requires s.accounts[user].balance + Signed(e) >= 0
    requires forall j :: 0 <= j < |s'.orders| ==>
      (exists k :: 0 <= k < |s.orders| && s.orders[k].id == s'.orders[j].id && s.orders[k].user == s'.orders[j].user)
      || (s'.orders[j].id >= s.sequence && s'.orders[j].user == user)
    requires e.reference.Charge? || e.reference.Refund? ==>
      && e.reference.order < s'.sequence
      && forall j :: 0 <= j < |s'.orders| && s'.orders[j].id == e.reference.order ==> s'.orders[j].user == user
    ensures Wallets(s')
  {
    Prepend(e, s.accounts[user].entries);
    forall u | u in s'.accounts ensures AccountOk(s'.accounts[u]) && OwnEntries(s', u, s'.accounts[u]) {
      assert AccountOk(s.accounts[u]) && OwnEntries(s, u, s.accounts[u]);
    }
  }

  /** A top-up is not checked: a negative one may overdraw the wallet. */
  predicate Overdraws(s: State, user: nat, amount: int) {
    user in s.accounts && s.accounts[user].balance + amount < 0
  }

  lemma TopUpInv(s: State, user: nat, amount: int)
    requires Consistent(s)
    ensures Consistent(DoTopUp(s, user, amount).0) <==> !Overdraws(s, user, amount)
  {
    if user in s.accounts && !Overdraws(s, user, amount) {
      TopUpKeeps(s, user, amount);
    } else if user in s.accounts {
      assert !AccountOk(DoTopUp(s, user, amount).0.accounts[user]);
    }
    hide Paired, Numbered, Rentable;
  }

  lemma TopUpKeeps(s: State, user: nat, amount: int)
    requires Consistent(s) && user in s.accounts && !Overdraws(s, user, amount)
    ensures Consistent(DoTopUp(s, user, amount).0)
  {
    var s', e := DoTopUp(s, user, amount).0, Entry(TopUpOf(s.sequence + 1), amount);
    assert AccountOk(s.accounts[user]);
    EntryRentals(s, user, e);
    SameRentable(s, s');
    hide Wallets, RentalOk, Rentable;
    TopUpWallets(s, s', user, e);
    assert Paired(s');
  }

  lemma TopUpWallets(s: State, s': State, user: nat, e: Entry)
    requires Consistent(s) && user in s.accounts && AccountOk(s.accounts[user])
    requires e.reference.TopUpOf? && s.accounts[user].balance + e.amount >= 0
    requires var a := s.accounts[user];
      s' == s.(accounts := s.accounts[user := Account(a.balance + Signed(e), [e] + a.entries)],
        sequence := s.sequence + 2)
    ensures Wallets(s')
  {
    hide Paired, Rentable, Numbered;
    EntryWallets(s, s', user, e);
  }

  lemma EntryRentals(s: State, user: nat, e: Entry)
    requires Paired(s) && user in s.accounts
    requires e.reference.Charge? || e.reference.Refund? ==>
      forall j :: 0 <= j < |s.orders| ==> s.orders[j].id != e.reference.order
    ensures var a := s.accounts[user];
      forall j :: 0 <= j < |s.orders| && s.orders[j].user == user ==>
        RentalOk(s.orders[j], s.instances[j], Account(a.balance + Signed(e), [e] + a.entries))
  {
    var a := s.accounts[user];
    forall j | 0 <= j < |s.orders| && s.orders[j].user == user
      ensures RentalOk(s.orders[j], s.instances[j], Account(a.balance + Signed(e), [e] + a.entries))
    {
      assert RentalOk(s.orders[j], s.instances[j], a);
      OtherEntry(s.orders[j], s.instances[j], a, e);
    }
  }

  /** A number not drawn yet occurs in no wallet. */
  lemma FreshNumberUnused(s: State, user: nat)
    requires Wallets(s) && user in s.accounts
    ensures Count(s.accounts[user].entries, Charge(s.sequence)) == 0
    ensures Count(s.accounts[user].entries, Refund(s.sequence)) == 0
  {
    var a := s.accounts[user];
    assert OwnEntries(s, user, a);
    CountOfUnused(a.entries, Charge(s.sequence));
    CountOfUnused(a.entries, Refund(s.sequence));
  }

  lemma NewRental(s: State, o: Order)
    requires Wallets(s) && o.user in s.accounts && o.id == s.sequence && o.status == Active
    requires o.startsAt <= o.endsAt && o.total >= 0
    ensures RentalOk(o, NewInstance(s, o), Booked(s, o).accounts[o.user])
  {
    FreshNumberUnused(s, o.user);
    CountOfUnused(s.accounts[o.user].entries, Charge(o.id));
    Prepend(Entry(Charge(o.id), o.total), s.accounts[o.user].entries);
  }

  lemma BookedPaired(s: State, o: Order)
    requires Consistent(s) && o.user in s.accounts && o.id == s.sequence && o.status == Active
    requires o.startsAt <= o.endsAt && o.total >= 0
    ensures Paired(Booked(s, o))
  {
    var s' := Booked(s, o);
    NewRental(s, o);
    EntryRentals(s, o.user, Entry(Charge(o.id), o.total));
    hide RentalOk, Wallets, Rentable, NewInstance;
    forall j | 0 <= j < |s'.orders| ensures RentalOk(s'.orders[j], s'.instances[j], s'.accounts[s'.orders[j].user]) {
      if j > 0 {
        assert s'.orders[j] == s.orders[j - 1] && s'.instances[j] == s.instances[j - 1];
      }
    }
  }

  lemma BookedWallets(s: State, o: Order)
    requires Consistent(s) && o.user in s.accounts && o.id == s.sequence && s.accounts[o.user].balance >= o.total
    ensures Wallets(Booked(s, o))
  {
    var s' := Booked(s, o);
    forall j | 0 <= j < |s'.orders|
      ensures (exists k ::
                 0 <= k < |s.orders| && s.orders[k].id == s'.orders[j].id && s.orders[k].user == s'.orders[j].user)
              || (s'.orders[j].id >= s.sequence && s'.orders[j].user == o.user)
      ensures s'.orders[j].id == o.id ==> s'.orders[j].user == o.user
    {
      if j > 0 { assert s'.orders[j] == s.orders[j - 1]; }
    }
    hide Paired, Wallets, Rentable, Numbered, NewInstance;
    EntryWallets(s, s', o.user, Entry(Charge(o.id), o.total));
  }

  lemma BookedNumbered(s: State, o: Order)
    requires Consistent(s) && o.user in s.accounts && o.id == s.sequence
    ensures Numbered(Booked(s, o))
  {
    var s' := Booked(s, o);
    hide Paired, Wallets, Rentable;
    assert forall j :: 0 < j < |s'.orders| ==> s'.orders[j] == s.orders[j - 1] && s'.instances[j] == s.instances[j - 1];
  }

  lemma BookedRentable(s: State, o: Order)
    requires Consistent(s) && o.user in s.accounts && !HasActiveOrder(s.orders, o.resource)
      && IsOnline(s.resources, o.resource)
    ensures Rentable(Booked(s, o))
  {
    var s' := Booked(s, o);
    hide Paired, Wallets, Numbered, IsOnline;
    assert forall j :: 0 < j < |s'.orders| ==> s'.orders[j] == s.orders[j - 1];
  }

  /** A booking that is accepted and lasts, or costs, less than nothing. */
  predicate BooksNegative(s: State, user: nat, resource: nat, hours: int, known: bool) {
    var k := Find(s.resources, ResourceIs(resource));
    && k.Some? && s.resources[k.value].listing == Online && !HasActiveOrder(s.orders, s.resources[k.value].id)
    && known && user in s.accounts
    && var total := s.resources[k.value].hourly * hours;
       total <= s.accounts[user].balance && (hours < 0 || total < 0)
  }

  /** A booking keeps the document consistent, or is refused, exactly unless it is such a one. */
  lemma CreateOrderInv(s: State, user: nat, resource: nat, hours: int, known: bool, now: int)
    requires Consistent(s)
    ensures Consistent(DoCreateOrder(s, user, resource, hours, known, now).0) <==>
      !BooksNegative(s, user, resource, hours, known)
  {
    var (s', out) := DoCreateOrder(s, user, resource, hours, known, now);
    if out == Ok {
      var k := Find(s.resources, ResourceIs(resource)).value;
      var o := NewOrder(s, user, s.resources[k], hours, now);
      if hours < 0 || o.total < 0 {
        NegativeRental(s, o);
      } else {
        BookedConsistent(s, o, k);
      }
    }
    hide Consistent, Booked;
  }

  lemma NegativeRental(s: State, o: Order)
    requires Consistent(s) && o.user in s.accounts && (o.endsAt < o.startsAt || o.total < 0)
    ensures !Consistent(Booked(s, o))
  {
    hide Wallets, Numbered, Rentable;
    var s' := Booked(s, o);
    assert !RentalOk(s'.orders[0], s'.instances[0], s'.accounts[o.user]);
  }

  lemma BookedConsistent(s: State, o: Order, k: nat)
    requires Consistent(s) && o.user in s.accounts && o.id == s.sequence && o.status == Active
    requires o.startsAt <= o.endsAt && 0 <= o.total <= s.accounts[o.user].balance
    requires k < |s.resources| && s.resources[k].id == o.resource && s.resources[k].listing == Online
    requires !HasActiveOrder(s.orders, o.resource)
    ensures Consistent(Booked(s, o))
  {
    hide Paired, Wallets, Numbered, Rentable, Booked;
    BookedPaired(s, o);
    BookedWallets(s, o);
    BookedNumbered(s, o);
    BookedRentable(s, o);
  }

  // ----- starting and stopping -----

  lemma MeterInv(s: State, j: nat, event: M.Event, now: int)
    requires Consistent(s) && j < |s.instances| && event in {M.Start, M.Stop}
      && s.instances[j].meter.status != M.Terminated
    requires event == M.Start ==> now < s.instances[j].meter.endsAt || s.instances[j].meter.status == M.Running
    ensures Consistent(s.(instances := s.instances[j := Metered(s.instances[j], event, now)],
      sequence := s.sequence + 1))
  {
    var s' := s.(instances := s.instances[j := Metered(s.instances[j], event, now)], sequence := s.sequence + 1);
    assert RentalOk(s.orders[j], s.instances[j], s.accounts[s.orders[j].user]);
    MeteredRental(s.orders[j], s.instances[j], s.accounts[s.orders[j].user], event, now);
    assert Wallets(s') by { SameWallets(s, s'); }
    hide RentalOk, Wallets, Rentable, M.DemoStep;
    assert Rentable(s') by { SameRentable(s, s'); }
  }

  lemma MeteredRental(o: Order, n: Instance, a: Account, event: M.Event, now: int)
    requires RentalOk(o, n, a) && event in {M.Start, M.Stop} && n.meter.status != M.Terminated
    requires event == M.Start ==> now < n.meter.endsAt || n.meter.status == M.Running
    ensures RentalOk(o, Metered(n, event, now), a)
  {
    MeterBounds(n.meter, now);
    hide M.DemoCost, M.DemoBillable;
  }

  lemma SameWallets(s: State, s': State)
    requires Wallets(s) && s'.users == s.users && s'.current == s.current && s'.accounts == s.accounts
    requires s'.orders == s.orders && s'.sequence >= s.sequence
    ensures Wallets(s')
  {
    hide AccountOk;
    forall u | u in s'.accounts ensures OwnEntries(s', u, s'.accounts[u]) { assert OwnEntries(s, u, s.accounts[u]); }
  }

  lemma SameRentable(s: State, s': State)
    requires Rentable(s) && s'.orders == s.orders && s'.resources == s.resources
    ensures Rentable(s')
  {
  }

  /** Ending an instance alone keeps the document consistent; its order stays as it is. */
  lemma TerminateAtInv(s: State, j: nat, now: int)
    requires Consistent(s) && j < |s.instances|
    ensures Consistent(TerminateAt(s, j, now))
  {
    var s', o := TerminateAt(s, j, now), s.orders[j];
    RentalPair(o, s.instances[j], s.accounts[o.user]);
    if s.instances[j].meter.status != M.Terminated {
      TerminateShape(s, j, now);
      hide TerminateAt;
      assert s.orders == s.orders[j := o.(status := o.status)];
      assert ClosedAt(s, s', j, o.status, now);
      ClosePaired(s, s', j, o.status, now);
      CloseWallets(s, s', j, o.status, now);
      CloseNumbered(s, s', j, o.status, now);
      SameRentable(s, s');
      hide Paired, Wallets, Numbered, Rentable;
    }
  }

  lemma DoStartInv(s: State, user: nat, id: nat, now: int)
    requires Consistent(s)
    ensures Consistent(DoStart(s, user, id, now).0)
  {
    hide Consistent, Metered, TerminateAt;
    var j := Find(s.instances, InstanceIs(id, user));
    if j.Some? && s.instances[j.value].meter.status == M.Stopped {
      if now < s.instances[j.value].meter.endsAt { MeterInv(s, j.value, M.Start, now); }
      else { TerminateAtInv(s, j.value, now); }
    }
  }

  lemma DoStopInv(s: State, user: nat, id: nat, now: int)
    requires Consistent(s)
    ensures Consistent(DoStop(s, user, id, now).0)
  {
    hide Consistent, Metered;
    var j := Find(s.instances, InstanceIs(id, user));
    if j.Some? && s.instances[j.value].meter.status == M.Running { MeterInv(s, j.value, M.Stop, now); }
  }

  // ----- terminating -----

  /** Terminating an instance returns its order: the same document as returning the order. */
  lemma TerminateIsReturn(s: State, user: nat, id: nat, now: int)
    requires Consistent(s) && Find(s.instances, InstanceIs(id, user)).Some?
    ensures var j := Find(s.instances, InstanceIs(id, user)).value;
      DoTerminate(s, user, id, now).0 == if s.orders[j].status == Active then CloseOrder(s, j, Returned, now) else s
  {
    hide Consistent, TerminateAt, WithStatus;
    var j := Find(s.instances, InstanceIs(id, user)).value;
    PairAt(s, j);
    StatusAside(s, j, now);
    hide Find, RentalOk;
  }

  lemma PairAt(s: State, j: nat)
    requires Consistent(s) && j < |s.instances|
    ensures j < |s.orders| && s.instances[j].orderId == s.orders[j].id
    ensures Find(s.orders, OrderIs(s.orders[j].id)) == Find(s.instances, InstanceOf(s.orders[j].id)) == Some(j)
    ensures s.orders[j].status != Active ==> s.instances[j].meter.status == M.Terminated
  {
    FoundAt(s, j);
    RentalPair(s.orders[j], s.instances[j], s.accounts[s.orders[j].user]);
    hide Wallets, Rentable, Numbered, Find;
  }

  /** Ending an instance and changing its order's status do not disturb each other. */
  lemma StatusAside(s: State, j: nat, now: int)
    requires j < |s.instances| && j < |s.orders|
    ensures TerminateAt(s, j, now).orders == s.orders
    ensures WithStatus(TerminateAt(s, j, now), j, Returned) == TerminateAt(WithStatus(s, j, Returned), j, now)
    ensures WithStatus(s, j, Returned).instances == s.instances
    ensures s.instances[j].meter.status == M.Terminated ==> TerminateAt(s, j, now) == s
  {
    hide Metered, RefundedAccount, RefundDue;
  }

  lemma DoTerminateInv(s: State, user: nat, id: nat, now: int)
    requires Consistent(s)
    ensures Consistent(DoTerminate(s, user, id, now).0)
  {
    var j := Find(s.instances, InstanceIs(id, user));
    if j.Some? {
      TerminateIsReturn(s, user, id, now);
      if s.orders[j.value].status == Active { CloseInv(s, j.value, Returned, now); }
    } else {
      TerminateMissing(s, user, id, now);
    }
    hide Consistent, CloseOrder, DoTerminate;
  }

  lemma TerminateMissing(s: State, user: nat, id: nat, now: int)
    requires Find(s.instances, InstanceIs(id, user)).None?
    ensures DoTerminate(s, user, id, now).0 == s
  {
  }

  // ----- resources and sessions -----

  lemma UpdateResourcesInv(s: State, k: nat, r: Resource)
    requires Consistent(s) && k < |s.resources| && r.id == s.resources[k].id
    requires r.listing != Online ==> s.resources[k].listing != Online || !HasActiveOrder(s.orders, r.id)
    ensures Consistent(s.(resources := s.resources[k := r]))
  {
    var s' := s.(resources := s.resources[k := r]);
    forall i | 0 <= i < |s.orders| && s.orders[i].status == Active
      ensures IsOnline(s'.resources, s.orders[i].resource)
    {
      var l :| 0 <= l < |s.resources| && s.resources[l].id == s.orders[i].resource && s.resources[l].listing == Online;
      assert s'.resources[l].id == s.orders[i].resource && s'.resources[l].listing == Online;
    }
    SameWallets(s, s');
    hide Wallets, RentalOk, IsOnline;
    assert Paired(s') && Numbered(s');
  }

  lemma CreateResourceInv(s: State, name: string, hourly: int, listing: Listing)
    requires Consistent(s)
    ensures Consistent(DoCreateResource(s, name, hourly, listing).0)
  {
    var (s', out) := DoCreateResource(s, name, hourly, listing);
    if out == Ok {
      forall i | 0 <= i < |s.orders| && s.orders[i].status == Active
        ensures IsOnline(s'.resources, s.orders[i].resource)
      {
        var l :| 0 <= l < |s.resources| && s.resources[l].id == s.orders[i].resource
          && s.resources[l].listing == Online;
        assert s'.resources[l + 1] == s.resources[l];
      }
      assert forall k :: 0 < k < |s'.resources| ==> s'.resources[k] == s.resources[k - 1];
      SameWallets(s, s');
      hide Wallets, RentalOk, IsOnline;
      assert Paired(s') && Numbered(s');
    }
  }

  lemma RegisterWallets(s: State, s': State)
    requires Wallets(s) && s.sequence !in s.users && AccountOk(OPENED) && s'.orders == s.orders
      && s'.sequence > s.sequence
    requires s'.users.Keys == s.users.Keys + {s.sequence} && s'.accounts == s.accounts[s.sequence := OPENED]
    requires s'.current == Some(s.sequence)
    ensures Wallets(s')
  {
    hide AccountOk;
    forall u | u in s'.accounts ensures AccountOk(s'.accounts[u]) && OwnEntries(s', u, s'.accounts[u]) {
      if u != s.sequence { assert AccountOk(s.accounts[u]) && OwnEntries(s, u, s.accounts[u]); }
    }
  }

  lemma MoreAccounts(s: State, s': State)
    requires Paired(s) && s'.orders == s.orders && s'.instances == s.instances
    requires forall u :: u in s.accounts ==> u in s'.accounts && s'.accounts[u] == s.accounts[u]
    ensures Paired(s')
  {
    hide RentalOk;
  }

  lemma RegisterInv(s: State, name: string)
    requires Consistent(s)
    ensures Consistent(DoRegister(s, name).0)
  {
    RegisteredInv(s, name);
    hide Consistent, Registered, Lower;
  }

  function Registered(s: State, name: string): State {
    s.(sequence := s.sequence + 1, users := s.users[s.sequence := User(name, Customer)],
       accounts := s.accounts[s.sequence := OPENED], current := Some(s.sequence))
  }

  lemma OpenedOk()
    ensures AccountOk(OPENED)
  {
    assert OPENED.entries[1..] == [];
  }

  lemma FreshUser(s: State)
    requires Consistent(s)
    ensures s.sequence !in s.users && s.sequence !in s.accounts
  {
    hide Paired, Rentable, AccountOk, OwnEntries;
  }

  lemma RegisteredNumbered(s: State, name: string)
    requires Numbered(s)
    ensures Numbered(Registered(s, name))
  {
  }

  lemma RegisteredInv(s: State, name: string)
    requires Consistent(s)
    ensures Consistent(Registered(s, name))
  {
    hide Paired, Wallets, Rentable, Numbered, AccountOk;
    var s' := Registered(s, name);
    FreshUser(s);
    OpenedOk();
    RegisterWallets(s, s');
    RegisteredNumbered(s, name);
    SameRentable(s, s');
    MoreAccounts(s, s');
  }

  lemma SessionInv(s: State, current: Option<nat>)
    requires Consistent(s) && (current.Some? ==> current.value in s.users)
    ensures Consistent(s.(current := current))
  {
    var s' := s.(current := current);
    assert forall u :: u in s.accounts ==> OwnEntries(s, u, s.accounts[u]) ==> OwnEntries(s', u, s'.accounts[u]);
    SameRentable(s, s');
    hide RentalOk, AccountOk, OwnEntries, Rentable;
  }

  lemma SeedRental(now: int)
    ensures var s := Initial(now); RentalOk(s.orders[0], s.instances[0], s.accounts[1]) && AccountOk(s.accounts[1])
  {
    var rest := [Entry(Opening, OPENING_CREDIT)];
    assert Initial(now).accounts[1].entries == [Entry(Charge(1), 27480)] + rest;
    Prepend(Entry(Charge(1), 27480), rest);
    assert rest[1..] == [];
    assert Count(rest, Charge(1)) == Count(rest, Refund(1)) == 0 && Amount(rest, Charge(1)) == 0;
  }

  lemma InitialInv(now: int)
    ensures Inv(Initial(now))
  {
    var s := Initial(now);
    SeedRental(now);
    assert AccountOk(OPENED) by { assert OPENED.entries[1..] == []; }
    hide RentalOk, AccountOk;
    assert IsOnline(s.resources, 2) by { assert s.resources[1].id == 2; }
    assert OwnEntries(s, 1, s.accounts[1]) && OwnEntries(s, 2, s.accounts[2]);
  }

  // ----- every call -----

  /** Starting a stopped instance at a reading of the clock at which its lease has ended. */
  predicate LateStart(s: State, user: nat, id: nat, now: int) {
    var j := Find(s.instances, InstanceIs(id, user));
    j.Some? && s.instances[j.value].meter.status == M.Stopped && now >= s.instances[j.value].meter.endsAt
  }

  predicate StartsLate(s: State, c: Call, now: int) {
    c.StartInstance? && SignedIn(s) && LateStart(s, s.current.value, c.instance, now)
  }

  predicate OnInstances(c: Call) {
    c.StartInstance? || c.StopInstance? || c.TerminateInstance?
  }

  predicate OnRentals(c: Call) {
    c.CreateOrder? || c.ReturnOrder? || c.CancelOrder? || OnInstances(c)
  }

  /** The demo does not check amounts: a call that overdraws a wallet or books less than nothing. */
  predicate Mischarges(s: State, c: Call) {
    && SignedIn(s)
    && (match c
        case TopUp(amount) => Overdraws(s, s.current.value, amount)
        case CreateOrder(r, hours, known) => BooksNegative(s, s.current.value, r, hours, known)
        case _ => false)
  }

  lemma ActInv(s: State, c: Call, now: int)
    requires Consistent(s)
    ensures Consistent(Act(s, c, now).0) <==> !Mischarges(s, c)
  {
    hide Consistent, Perform, Overdraws, BooksNegative;
    if NeedsUser(c) ==> SignedIn(s) {
      if OnInstances(c) {
        InstancesInv(s, c, now);
      } else if OnRentals(c) || c.TopUp? {
        ChargesInv(s, c, now);
      } else if ForAdmin(c) {
        ResourcesInv(s, c, now);
      } else {
        SessionsInv(s, c, now);
      }
    }
  }

  lemma InstancesInv(s: State, c: Call, now: int)
    requires Consistent(s) && OnInstances(c) && SignedIn(s)
    ensures Consistent(Perform(s, c, now).0)
  {
    hide Consistent, DoStart, DoStop, DoTerminate;
    match c
    case StartInstance(id) => DoStartInv(s, s.current.value, id, now);
    case StopInstance(id) => DoStopInv(s, s.current.value, id, now);
    case TerminateInstance(id) => DoTerminateInv(s, s.current.value, id, now);
  }

  lemma ChargesInv(s: State, c: Call, now: int)
    requires Consistent(s) && SignedIn(s) && (c.TopUp? || (OnRentals(c) && !OnInstances(c)))
    ensures Consistent(Perform(s, c, now).0) <==> !Mischarges(s, c)
  {
    hide Consistent, Overdraws, BooksNegative, DoTopUp, DoCreateOrder, DoReturnOrder, DoCancelOrder;
    match c
    case TopUp(amount) => TopUpInv(s, s.current.value, amount);
    case CreateOrder(r, hours, known) => CreateOrderInv(s, s.current.value, r, hours, known, now);
    case ReturnOrder(id) => ReturnInv(s, s.current.value, id, now);
    case CancelOrder(id) => CancelInv(s, id, now);
  }

  lemma ResourcesInv(s: State, c: Call, now: int)
    requires Consistent(s) && ForAdmin(c) && !c.CancelOrder? && SignedIn(s)
    ensures Consistent(Perform(s, c, now).0)
  {
    hide Consistent, DoCreateResource, DoUpdateResource, DoSetListing;
    match c
    case CreateResource(name, hourly, listing) => CreateResourceInv(s, name, hourly, listing);
    case UpdateResource(id, name, hourly) => UpdateInv(s, id, name, hourly);
    case SetListing(id, listing) => ListingInv(s, id, listing);
  }

  lemma SessionsInv(s: State, c: Call, now: int)
    requires Consistent(s) && !NeedsUser(c)
    ensures Consistent(Perform(s, c, now).0)
  {
    hide Consistent, DoRegister, Initial;
    match c
    case Login(v, accepted) => if v in s.users { SessionInv(s, Some(v)); }
    case Logout => SessionInv(s, None);
    case Register(name) => RegisterInv(s, name);
    case Reset => InitialInv(now);
  }

  lemma ReturnInv(s: State, user: nat, id: nat, now: int)
    requires Consistent(s)
    ensures Consistent(DoReturnOrder(s, user, id, now).0)
  {
    var i := Find(s.orders, OrderIs(id));
    if i.Some? && s.orders[i.value].status == Active { CloseInv(s, i.value, Returned, now); }
    hide Consistent, CloseOrder;
  }

  lemma CancelInv(s: State, id: nat, now: int)
    requires Consistent(s)
    ensures Consistent(DoCancelOrder(s, id, now).0)
  {
    var i := Find(s.orders, OrderIs(id));
    if i.Some? && s.orders[i.value].status == Active { CloseInv(s, i.value, Cancelled, now); }
    hide Consistent, CloseOrder;
  }

  lemma UpdateInv(s: State, id: nat, name: Option<string>, hourly: Option<int>)
    requires Consistent(s)
    ensures Consistent(DoUpdateResource(s, id, name, hourly).0)
  {
    var k := Find(s.resources, ResourceIs(id));
    if k.Some? {
      var s' := DoUpdateResource(s, id, name, hourly).0;
      UpdateResourcesInv(s, k.value, s'.resources[k.value]);
    }
    hide Consistent;
  }

  lemma ListingInv(s: State, id: nat, listing: Listing)
    requires Consistent(s)
    ensures Consistent(DoSetListing(s, id, listing).0)
  {
    var k := Find(s.resources, ResourceIs(id));
    if k.Some? && (listing == Online || !HasActiveOrder(s.orders, id)) {
      UpdateResourcesInv(s, k.value, s.resources[k.value].(listing := listing));
    }
    hide Consistent;
  }

  // ----- orders and their instances -----

  lemma ClosedSynced(s: State, i: nat, status: OrderStatus, now: int)
    requires Inv(s) && i < |s.orders| && s.orders[i].status == Active && status != Active
    ensures Synced(CloseOrder(s, i, status, now))
  {
    CloseInv(s, i, status, now);
    hide Consistent, CloseOrder, Closed;
  }

  lemma StartSynced(s: State, user: nat, id: nat, now: int)
    requires Inv(s)
    ensures Synced(DoStart(s, user, id, now).0) <==> !LateStart(s, user, id, now)
  {
    var j := Find(s.instances, InstanceIs(id, user));
    if j.Some? {
      var n := s.instances[j.value];
      RentalPair(s.orders[j.value], n, s.accounts[s.orders[j.value].user]);
      if LateStart(s, user, id, now) { EndedAlone(s, j.value, now); }
      hide Consistent, Find, RentalOk, TerminateAt;
    }
  }

  lemma EndedAlone(s: State, j: nat, now: int)
    requires j < |s.instances| && s.instances[j].meter.status != M.Terminated
    ensures var s' := TerminateAt(s, j, now);
      s'.orders == s.orders && |s'.instances| == |s.instances| && s'.instances[j].meter.status == M.Terminated
  {
    hide M.DemoRead;
  }

  lemma StopSynced(s: State, user: nat, id: nat, now: int)
    requires Inv(s)
    ensures Synced(DoStop(s, user, id, now).0)
  {
    hide Consistent, Find, M.DemoRead;
  }

  lemma TerminateSynced(s: State, user: nat, id: nat, now: int)
    requires Inv(s)
    ensures Synced(DoTerminate(s, user, id, now).0)
  {
    var j := Find(s.instances, InstanceIs(id, user));
    if j.Some? {
      TerminateIsReturn(s, user, id, now);
      if s.orders[j.value].status == Active { ClosedSynced(s, j.value, Returned, now); }
    } else {
      TerminateMissing(s, user, id, now);
    }
    hide Consistent, CloseOrder, DoTerminate;
  }

  lemma CreateOrderSynced(s: State, user: nat, resource: nat, hours: int, known: bool, now: int)
    requires Inv(s)
    ensures Synced(DoCreateOrder(s, user, resource, hours, known, now).0)
  {
    hide Consistent, Find, HasActiveOrder;
    var s' := DoCreateOrder(s, user, resource, hours, known, now).0;
    if |s'.orders| > |s.orders| {
      assert forall i :: 0 < i < |s'.orders| ==>
        s'.orders[i] == s.orders[i - 1] && s'.instances[i] == s.instances[i - 1];
    }
  }

  lemma ReturnSynced(s: State, user: nat, id: nat, now: int)
    requires Inv(s)
    ensures Synced(DoReturnOrder(s, user, id, now).0)
  {
    var i := Find(s.orders, OrderIs(id));
    if i.Some? && s.orders[i.value].status == Active { ClosedSynced(s, i.value, Returned, now); }
    hide Consistent, CloseOrder;
  }

  lemma CancelSynced(s: State, id: nat, now: int)
    requires Inv(s)
    ensures Synced(DoCancelOrder(s, id, now).0)
  {
    var i := Find(s.orders, OrderIs(id));
    if i.Some? && s.orders[i.value].status == Active { ClosedSynced(s, i.value, Cancelled, now); }
    hide Consistent, CloseOrder;
  }

  lemma SameRentalsSynced(s: State, c: Call, now: int)
    requires Synced(s) && !OnRentals(c) && (NeedsUser(c) ==> SignedIn(s))
    ensures Synced(Perform(s, c, now).0)
  {
    hide Find;
  }

  /** The one call that leaves an active order without its instance. */
  lemma ActSynced(s: State, c: Call, now: int)
    requires Inv(s)
    ensures Synced(Act(s, c, now).0) <==> !StartsLate(s, c, now)
  {
    hide Inv, Synced, Perform, LateStart;
    SyncedOfInv(s);
    if NeedsUser(c) ==> SignedIn(s) {
      if OnInstances(c) {
        InstancesSynced(s, c, now);
      } else if OnRentals(c) {
        OrdersSynced(s, c, now);
      } else {
        SameRentalsSynced(s, c, now);
      }
    }
  }

  lemma OrdersSynced(s: State, c: Call, now: int)
    requires Inv(s) && OnRentals(c) && !OnInstances(c) && SignedIn(s)
    ensures Synced(Perform(s, c, now).0)
  {
    hide Inv, Synced, DoCreateOrder, DoReturnOrder, DoCancelOrder;
    match c
    case CreateOrder(r, hours, known) => CreateOrderSynced(s, s.current.value, r, hours, known, now);
    case ReturnOrder(id) => ReturnSynced(s, s.current.value, id, now);
    case CancelOrder(id) => CancelSynced(s, id, now);
  }

  lemma InstancesSynced(s: State, c: Call, now: int)
    requires Inv(s) && OnInstances(c) && SignedIn(s)
    ensures Synced(Perform(s, c, now).0) <==> !StartsLate(s, c, now)
  {
    hide Inv, Synced, LateStart, DoStart, DoStop, DoTerminate;
    match c
    case StartInstance(id) => StartSynced(s, s.current.value, id, now);
    case StopInstance(id) => StopSynced(s, s.current.value, id, now);
    case TerminateInstance(id) => TerminateSynced(s, s.current.value, id, now);
  }

  lemma SyncedOfInv(s: State)
    requires Inv(s)
    ensures Synced(s)
  {
  }

  /** Expiry ends instances together with their orders. */
  lemma ExpireSynced(s: State, now: int)
    requires Inv(s)
    ensures Synced(ExpireFrom(s, 0, now))
  {
    ExpireInv(s, 0, now);
    var s' := ExpireFrom(s, 0, now);
    hide ExpireFrom, RentalOk;
    forall i | 0 <= i < |s'.orders| && s'.orders[i].status == Active
      ensures s'.instances[i].meter.status != M.Terminated
    {
      RentalPair(s.orders[i], s.instances[i], s.accounts[s.orders[i].user]);
      assert !Due(s.orders[i], now);
    }
  }

  /**
   A call keeps the document consistent exactly unless it overdraws a wallet or books less than nothing; then it
   also keeps every active order's instance exactly unless it starts an instance whose lease ended between the
   call's two clock readings.
   */
  lemma DoKeepsInvIff(s: State, c: Call, readAt: int, now: int)
    requires Inv(s)
    ensures var s0 := ExpireFrom(s, 0, readAt);
      && (Consistent(Do(s, c, readAt, now).0) <==> !Mischarges(s0, c))
      && (Inv(Do(s, c, readAt, now).0) <==> !Mischarges(s0, c) && !StartsLate(s0, c, now))
      && (StartsLate(s0, c, now) ==> readAt < now)
  {
    ExpireInv(s, 0, readAt);
    ExpireSynced(s, readAt);
    var s0 := ExpireFrom(s, 0, readAt);
    ActInv(s0, c, now);
    ActSynced(s0, c, now);
    if StartsLate(s0, c, now) { NotDueAnyMore(s, c, readAt, now); }
    hide Consistent, Synced, Act, ExpireFrom, StartsLate, Mischarges;
  }

  lemma NotDueAnyMore(s: State, c: Call, readAt: int, now: int)
    requires Inv(s) && StartsLate(ExpireFrom(s, 0, readAt), c, now)
    ensures readAt < now
  {
    ExpireInv(s, 0, readAt);
    var s0 := ExpireFrom(s, 0, readAt);
    hide ExpireFrom, RentalOk;
    var j := Find(s0.instances, InstanceIs(c.instance, s0.current.value)).value;
    RentalPair(s0.orders[j], s0.instances[j], s0.accounts[s0.orders[j].user]);
    assert !Due(s0.orders[j], readAt);
  }

  // ----- runs -----

  /** A call with its two clock readings. */
  datatype Timed = Timed(call: Call, readAt: int, at: int)

  predicate OneReading(calls: seq<Timed>) {
    forall i :: 0 <= i < |calls| ==> calls[i].readAt == calls[i].at
  }

  function Run(s: State, calls: seq<Timed>): State
    decreases |calls|
  {
    if calls == [] then s else Run(Do(s, calls[0].call, calls[0].readAt, calls[0].at).0, calls[1..])
  }

  /** No call of the run overdraws a wallet or books less than nothing, where it is made. */
  predicate Sound(s: State, calls: seq<Timed>)
    decreases |calls|
  {
    calls == []
    || (!Mischarges(ExpireFrom(s, 0, calls[0].readAt), calls[0].call)
        && Sound(Do(s, calls[0].call, calls[0].readAt, calls[0].at).0, calls[1..]))
  }

  lemma DoConsistentIff(s: State, c: Call, readAt: int, now: int)
    requires Consistent(s)
    ensures Consistent(Do(s, c, readAt, now).0) <==> !Mischarges(ExpireFrom(s, 0, readAt), c)
  {
    ExpireInv(s, 0, readAt);
    ActInv(ExpireFrom(s, 0, readAt), c, now);
    hide Consistent, Act, ExpireFrom, Mischarges;
  }

  lemma {:induction false} RunConsistent(s: State, calls: seq<Timed>)
    requires Consistent(s) && Sound(s, calls)
    ensures Consistent(Run(s, calls))
    decreases |calls|
  {
    if calls != [] {
      hide Consistent, Do, Mischarges;
      DoConsistentIff(s, calls[0].call, calls[0].readAt, calls[0].at);
      RunConsistent(Do(s, calls[0].call, calls[0].readAt, calls[0].at).0, calls[1..]);
    }
  }

  lemma {:induction false} RunInv(s: State, calls: seq<Timed>)
    requires Inv(s) && OneReading(calls) && Sound(s, calls)
    ensures Inv(Run(s, calls))
    decreases |calls|
  {
    if calls != [] {
      hide Inv, Do, Mischarges, StartsLate;
      DoKeepsInvIff(s, calls[0].call, calls[0].readAt, calls[0].at);
      RunInv(Do(s, calls[0].call, calls[0].readAt, calls[0].at).0, calls[1..]);
    }
  }

  /** The document stays consistent throughout a run exactly if the run is sound. */
  lemma {:induction false} RunConsistentIff(s: State, calls: seq<Timed>)
    requires Consistent(s)
    ensures Sound(s, calls) <==> forall k :: 0 <= k <= |calls| ==> Consistent(Run(s, calls[..k]))
    decreases |calls|
  {
    assert calls[..0] == [];
    if calls != [] {
      hide Consistent, Do, Mischarges;
      var s1 := Do(s, calls[0].call, calls[0].readAt, calls[0].at).0;
      DoConsistentIff(s, calls[0].call, calls[0].readAt, calls[0].at);
      forall k | 1 <= k <= |calls| ensures Run(s, calls[..k]) == Run(s1, calls[1..][..k - 1]) {
        assert calls[..k][1..] == calls[1..][..k - 1];
      }
      assert Run(s1, calls[1..][..0]) == s1;
      if Consistent(s1) {
        RunConsistentIff(s1, calls[1..]);
        forall k | 0 <= k < |calls| ensures Run(s1, calls[1..][..k]) == Run(s, calls[..k + 1]) {}
      } else {
        assert Run(s, calls[..1]) == s1;
      }
    }
  }

  // ----- amounts that are not negative -----

  predicate NonNegative(c: Call) {
    match c
    case TopUp(amount) => amount >= 0
    case CreateOrder(_, hours, _) => hours >= 0
    case CreateResource(_, hourly, _) => hourly >= 0
    case UpdateResource(_, _, hourly) => hourly.Some? ==> hourly.value >= 0
    case _ => true
  }

  predicate PricesOk(resources: seq<Resource>) {
    forall k :: 0 <= k < |resources| ==> resources[k].hourly >= 0
  }

  lemma Product(a: int, b: int)
    requires a >= 0 && b >= 0
    ensures a * b >= 0
  {
  }

  lemma NonNegativeCharges(s: State, c: Call)
    requires Consistent(s) && PricesOk(s.resources) && NonNegative(c)
    ensures !Mischarges(s, c)
  {
    if SignedIn(s) && c.TopUp? { assert AccountOk(s.accounts[s.current.value]); }
    if c.CreateOrder? {
      var k := Find(s.resources, ResourceIs(c.resource));
      if k.Some? { Product(s.resources[k.value].hourly, c.hours); }
    }
    hide Paired, Numbered, Rentable, Find, AccountOk;
  }

  lemma ActPrices(s: State, c: Call, now: int)
    requires PricesOk(s.resources) && NonNegative(c)
    ensures PricesOk(Act(s, c, now).0.resources)
  {
    hide Find;
  }

  /** Calls with no negative amount, duration or price make a sound run. */
  lemma {:induction false} NonNegativeSound(s: State, calls: seq<Timed>)
    requires Consistent(s) && PricesOk(s.resources) && forall i :: 0 <= i < |calls| ==> NonNegative(calls[i].call)
    ensures Sound(s, calls)
    decreases |calls|
  {
    if calls != [] {
      var m := calls[0];
      ExpireInv(s, 0, m.readAt);
      var s0 := ExpireFrom(s, 0, m.readAt);
      NonNegativeCharges(s0, m.call);
      ActPrices(s0, m.call, m.at);
      DoConsistentIff(s, m.call, m.readAt, m.at);
      hide Consistent, Act, ExpireFrom, Mischarges, PricesOk;
      NonNegativeSound(Do(s, m.call, m.readAt, m.at).0, calls[1..]);
    }
  }

  /** A negative top-up is accepted, and overdraws the wallet it is made to. */
  lemma NegativeTopUp()
    ensures var s := Run(Initial(0), [Timed(Login(1, true), 0, 0), Timed(TopUp(-OPENING_CREDIT), 0, 0)]);
      1 in s.accounts && s.accounts[1].balance == -27480
  {
    RunTwo(Initial(0), Timed(Login(1, true), 0, 0), Timed(TopUp(-OPENING_CREDIT), 0, 0));
    SeedLogin();
    NothingDue(Initial(0).(current := Some(1)), 0);
    hide ExpireFrom, Run;
  }

  lemma RunTwo(s: State, a: Timed, b: Timed)
    ensures Run(s, [a, b]) == Do(Do(s, a.call, a.readAt, a.at).0, b.call, b.readAt, b.at).0
  {
    hide Do;
    assert [a, b][1..] == [b] && [b][1..] == [];
    assert Run(s, [a, b]) == Run(Do(s, a.call, a.readAt, a.at).0, [b]);
  }

  lemma SeedLogin()
    ensures Do(Initial(0), Login(1, true), 0, 0).0 == Initial(0).(current := Some(1))
  {
    NothingDue(Initial(0), 0);
  }

  lemma SeedStop(s: State)
    requires s == Initial(0).(current := Some(1))
    ensures var s' := Do(s, StopInstance(1), 0, 0).0;
      && s'.current == Some(1) && s'.users == s.users && s'.orders == s.orders
      && |s'.instances| == 1 && s'.instances[0].id == 1 && s'.instances[0].user == 1
      && s'.instances[0].meter.status == M.Stopped && s'.instances[0].meter.endsAt == s.orders[0].endsAt
  {
    NothingDue(s, 0);
    assert InstanceIs(1, 1)(s.instances[0]);
    hide M.DemoCost, M.DemoBillable;
  }

  lemma SeedStartsLate(s: State)
    requires |s.orders| == 1 == |s.instances| && s.current == Some(1) && 1 in s.users
    requires s.instances[0].id == 1 && s.instances[0].user == 1 && s.instances[0].meter.status == M.Stopped
    requires s.instances[0].meter.endsAt == s.orders[0].endsAt
    ensures StartsLate(ExpireFrom(s, 0, s.orders[0].endsAt - 1), StartInstance(1), s.orders[0].endsAt)
  {
    NothingDue(s, s.orders[0].endsAt - 1);
    assert InstanceIs(1, 1)(s.instances[0]);
  }

  /** Such a start can happen: log in, stop the seeded instance, and start it as its lease runs out. */
  lemma LateStartReachable()
    ensures var s := Run(Initial(0), [Timed(Login(1, true), 0, 0), Timed(StopInstance(1), 0, 0)]);
      && |s.orders| == 1
      && var end := s.orders[0].endsAt;
         Inv(s) && !Inv(Do(s, StartInstance(1), end - 1, end).0)
  {
    var calls := [Timed(Login(1, true), 0, 0), Timed(StopInstance(1), 0, 0)];
    RunTwo(Initial(0), calls[0], calls[1]);
    SeedLogin();
    SeedStop(Initial(0).(current := Some(1)));
    SeedRunInv(calls);
    hide Inv, Do, Run, StartsLate, Initial, Mischarges;
    var s := Run(Initial(0), calls);
    SeedStartsLate(s);
    DoKeepsInvIff(s, StartInstance(1), s.orders[0].endsAt - 1, s.orders[0].endsAt);
  }

  lemma SeedRunInv(calls: seq<Timed>)
    requires OneReading(calls) && forall i :: 0 <= i < |calls| ==> NonNegative(calls[i].call)
    ensures Inv(Run(Initial(0), calls))
  {
    hide *;
    InitialInv(0);
    SeedPrices(0);
    ConsistentOfInv(Initial(0));
    NonNegativeSound(Initial(0), calls);
    RunInv(Initial(0), calls);
  }

  lemma SeedPrices(now: int)
    ensures PricesOk(Initial(now).resources)
  {
  }

  lemma ConsistentOfInv(s: State)
    requires Inv(s)
    ensures Consistent(s)
  {
  }

  lemma NothingDue(s: State, now: int)
    requires |s.orders| == 1 && !Due(s.orders[0], now)
    ensures ExpireFrom(s, 0, now) == s
  {
    assert ExpireFrom(s, 1, now) == s;
  }

  // ----- what it means -----

  /**
   After any calls, whenever each reads the clock: no GPU has two active orders, a rented GPU is online, and
   an order that is no longer active has its instance terminated; with one reading per call an order is active
   exactly while its instance is not terminated.
   */
  lemma ReachableRentals(start: int, calls: seq<Timed>, i: nat, j: nat)
    requires Sound(Initial(start), calls)
    requires var s := Run(Initial(start), calls); i < |s.orders| && j < |s.orders|
    ensures var s := Run(Initial(start), calls); var o := s.orders[i];
      && |s.instances| == |s.orders| && s.instances[i].orderId == o.id
      && (o.status != Active ==> s.instances[i].meter.status == M.Terminated)
      && (OneReading(calls) ==> (o.status == Active <==> s.instances[i].meter.status != M.Terminated))
      && (o.status == Active ==> IsOnline(s.resources, o.resource))
      && (i != j && o.status == Active && s.orders[j].status == Active ==> o.resource != s.orders[j].resource)
  {
    InitialInv(start);
    RunConsistent(Initial(start), calls);
    if OneReading(calls) { RunInv(Initial(start), calls); }
    var s := Run(Initial(start), calls);
    hide Run, Wallets;
    assert RentalOk(s.orders[i], s.instances[i], s.accounts[s.orders[i].user]);
  }

  /** Every wallet's balance is the signed sum of its entries and never negative. */
  lemma ReachableBalance(start: int, calls: seq<Timed>, user: nat)
    requires Sound(Initial(start), calls) && user in Run(Initial(start), calls).accounts
    ensures var a := Run(Initial(start), calls).accounts[user]; a.balance == Balance(a.entries) && a.balance >= 0
  {
    InitialInv(start);
    RunConsistent(Initial(start), calls);
    hide Run, Paired, Numbered, Rentable;
  }

  /**
   An order is charged once and refunded at most once, only in its customer's wallet, and once its instance
   is terminated refund plus accrued cost equals the charge.
   */
  lemma ReachableRefunds(start: int, calls: seq<Timed>, i: nat, other: nat)
    requires Sound(Initial(start), calls)
    requires var s := Run(Initial(start), calls); i < |s.orders| && other in s.accounts
    ensures var s := Run(Initial(start), calls); var o := s.orders[i];
      && |s.instances| == |s.orders| && o.user in s.accounts
      && var entries := s.accounts[o.user].entries;
      && Count(entries, Charge(o.id)) == 1 && Amount(entries, Charge(o.id)) == o.total
      && Count(entries, Refund(o.id)) <= 1
      && (s.instances[i].meter.status == M.Terminated ==>
            Amount(entries, Refund(o.id)) + s.instances[i].meter.accrued == o.total)
      && (other != o.user ==>
            Count(s.accounts[other].entries, Charge(o.id)) == 0 && Count(s.accounts[other].entries, Refund(o.id)) == 0)
  {
    InitialInv(start);
    RunConsistent(Initial(start), calls);
    var s := Run(Initial(start), calls);
    hide Run, Rentable;
    var o, a := s.orders[i], s.accounts[other];
    assert RentalOk(o, s.instances[i], s.accounts[o.user]);
    assert OwnEntries(s, other, a);
    CountOfUnused(a.entries, Charge(o.id));
    CountOfUnused(a.entries, Refund(o.id));
  }

  // ----- the meter of one instance -----

  /** What a call asks of the meter of one of the user's instances. */
  function EventOf(c: Call, id: nat): M.Event {
    match c
    case StartInstance(i) => if i == id then M.Start else M.Look
    case StopInstance(i) => if i == id then M.Stop else M.Look
    case TerminateInstance(i) => if i == id then M.Terminate else M.Look
    case _ => M.Look
  }

  lemma FindAfterExpiry(before: seq<Instance>, after: seq<Instance>, now: int, id: nat, user: nat)
    requires MetersExpired(before, after, now)
    ensures Find(after, InstanceIs(id, user)) == Find(before, InstanceIs(id, user))
  {
    var i, j := Find(before, InstanceIs(id, user)), Find(after, InstanceIs(id, user));
    if i.Some? { assert InstanceIs(id, user)(after[i.value]); }
    if j.Some? { assert InstanceIs(id, user)(before[j.value]); }
    hide M.Expired;
  }

  /**
   Read at one instant, a call that starts, stops or terminates an instance steps its meter as the meter of
   one rental steps, expiry included.
   */
  lemma CallStepsMeter(s: State, c: Call, at: int, user: nat)
    requires Consistent(s) && s.current == Some(user)
    requires OnInstances(c)
    requires Find(s.instances, InstanceIs(c.instance, user)).Some?
    ensures var j := Find(s.instances, InstanceIs(c.instance, user)).value; var s' := Do(s, c, at, at).0;
      |s'.instances| == |s.instances|
      && s'.instances[j].meter == M.DemoCall(s.instances[j].meter, EventOf(c, c.instance), at)
  {
    CurrentKnown(s);
    hide Consistent, ExpireFrom, Act, Find, DueExpired, M.DemoStep, M.Expired;
    ExpireInv(s, 0, at);
    var s0 := ExpireFrom(s, 0, at);
    FindAfterExpiry(s.instances, s0.instances, at, c.instance, user);
    ActStepsMeter(s0, c, at, user);
  }

  lemma CurrentKnown(s: State)
    requires Consistent(s)
    ensures s.current.Some? ==> s.current.value in s.users
  {
  }

  lemma ActStepsMeter(s: State, c: Call, at: int, user: nat)
    requires s.current == Some(user) && user in s.users
    requires OnInstances(c)
    requires Find(s.instances, InstanceIs(c.instance, user)).Some?
    ensures var j := Find(s.instances, InstanceIs(c.instance, user)).value; var s' := Act(s, c, at).0;
      |s'.instances| == |s.instances|
      && s'.instances[j].meter == M.DemoStep(s.instances[j].meter, EventOf(c, c.instance), at)
  {
    hide M.DemoRead, Find, RefundDue, RefundedAccount;
  }
}
