/** The browser demo's calls, performed on the document in place. */
module DemoStore {
  import opened Basics
  import opened DemoGateway
  import opened DemoInvariants
  import M = Metering

  class Gateway {
    var sequence: nat
    var users: map<nat, User>
    var current: Option<nat>
    var resources: seq<Resource>
    var orders: seq<Order>
    var instances: seq<Instance>
    var accounts: map<nat, Account>

    ghost function View(): State
      reads this
    {
      State(sequence, users, current, resources, orders, instances, accounts)
    }

    constructor (now: int)
      ensures View() == Initial(now)
    {
      var s := Initial(now);
      sequence, users, current := s.sequence, s.users, s.current;
      resources, orders, instances, accounts := s.resources, s.orders, s.instances, s.accounts;
    }

    // ----- ending an instance -----

    method RefundDemoOrder(n: Instance)
      modifies this`accounts, this`sequence
      ensures View() == RefundOrder(old(View()), n)
    {
      if n.user !in accounts { return; }
      var a := accounts[n.user];
      for i := 0 to |a.entries|
        invariant forall k :: 0 <= k < i ==> a.entries[k].reference != Refund(n.orderId)
      {
        if a.entries[i].reference == Refund(n.orderId) { return; }
      }
      var amount := if n.meter.maximum > n.meter.accrued then n.meter.maximum - n.meter.accrued else 0;
      if amount == 0 { return; }
      sequence := sequence + 1;
      accounts := accounts[n.user := Account(a.balance + amount, [Entry(Refund(n.orderId), amount)] + a.entries)];
      sequence := sequence + 1;
    }

    method TerminateDemoInstance(j: nat, now: int)
      requires j < |instances|
      modifies this
      ensures View() == TerminateAt(old(View()), j, now)
    {
      var n := instances[j];
      if n.meter.status == M.Terminated { return; }
      n := n.(meter := n.meter.(billable := M.DemoBillable(n.meter, now), since := None));
      n := n.(meter := n.meter.(accrued := M.DemoCost(n.meter, now), status := M.Terminated));
      instances := instances[j := n];
      RefundDemoOrder(n);
      sequence := sequence + 1;
    }

    method TerminateDemoInstanceByOrder(orderId: nat, now: int)
      modifies this
      ensures View() == TerminateByOrder(old(View()), orderId, now)
    {
      var j := FindFirst(instances, InstanceOf(orderId));
      if j.Some? { TerminateDemoInstance(j.value, now); }
    }

    /** The expiry pass of read(). */
    method ExpireDueOrders(now: int)
      modifies this
      ensures View() == ExpireFrom(old(View()), 0, now)
      ensures Consistent(old(View())) ==> Consistent(View())
    {
      hide Consistent;
      if Consistent(View()) {
        ExpireInv(View(), 0, now);
      }
      var i := 0;
      while i < |orders|
        invariant i <= |orders|
        invariant ExpireFrom(View(), i, now) == ExpireFrom(old(View()), 0, now)
        decreases |orders| - i
      {
        ghost var before := View();
        var o := orders[i];
        if o.status == Active && o.endsAt <= now {
          orders := orders[i := o.(status := Expired)];
          TerminateDemoInstanceByOrder(o.id, now);
          assert View() == CloseOrder(before, i, Expired, now);
        }
        i := i + 1;
      }
    }

    // ----- calls on the document just read -----

    /** The amount lands in the user's wallet under a reference of its own, and in no other wallet. */
    method TopUp(user: nat, amount: int) returns (o: Outcome)
      modifies this`accounts, this`sequence
      ensures (View(), o) == DoTopUp(old(View()), user, amount)
      ensures o == Ok <==> user in old(accounts)
      ensures accounts.Keys == old(accounts).Keys
      ensures forall u :: u in accounts && u != user ==> accounts[u] == old(accounts)[u]
      ensures o == Ok ==>
        && accounts[user].balance == old(accounts)[user].balance + amount
        && Balance(accounts[user].entries) == Balance(old(accounts)[user].entries) + amount
        && (AccountOk(old(accounts)[user]) ==> (AccountOk(accounts[user]) <==> !Overdraws(old(View()), user, amount)))
      ensures Consistent(old(View())) ==> (Consistent(View()) <==> !Overdraws(old(View()), user, amount))
    {
      hide Consistent;
      if Consistent(View()) {
        TopUpInv(View(), user, amount);
      }
      if user !in accounts { return NotFound; }
      var a := accounts[user];
      sequence := sequence + 1;
      var e := Entry(TopUpOf(sequence), amount);
      Prepend(e, a.entries);
      accounts := accounts[user := Account(a.balance + amount, [e] + a.entries)];
      sequence := sequence + 1;
      return Ok;
    }

    method CreateOrder(user: nat, resource: nat, hours: int, known: bool, now: int) returns (out: Outcome)
      modifies this
      ensures (View(), out) == DoCreateOrder(old(View()), user, resource, hours, known, now)
      ensures Consistent(old(View())) ==>
        (Consistent(View()) <==> !BooksNegative(old(View()), user, resource, hours, known))
    {
      hide Consistent;
      if Consistent(View()) {
        CreateOrderInv(View(), user, resource, hours, known, now);
      }
      var k := FindFirst(resources, ResourceIs(resource));
      if k.None? || resources[k.value].listing != Online { return Unavailable; }
      var r := resources[k.value];
      var rented := Rents(orders, r.id);
      if rented { return Rented; }
      if !known || user !in accounts { return NotFound; }
      var total := r.hourly * hours;
      if accounts[user].balance < total { return InsufficientBalance; }
      var o := Order(sequence, user, r.id, r.hourly, hours, total, Active, now, now + hours * M.HOUR_MS);
      sequence := sequence + 1;
      var a := accounts[user];
      accounts := accounts[user := Account(a.balance - total, [Entry(Charge(o.id), total)] + a.entries)];
      sequence := sequence + 2;
      orders := [o] + orders;
      var meter := M.DemoInstance(now, o.endsAt, total, M.Running, Some(now), 0, 0);
      instances := [Instance(sequence, o.id, user, meter)] + instances;
      sequence := sequence + 1;
      return Ok;
    }

    /** returnOrder and cancelOrder: `status` is the one they leave, `user` the owner asked for, if any. */
    method CloseActive(user: Option<nat>, id: nat, status: OrderStatus, now: int) returns (out: Outcome)
      requires status == (if user.Some? then Returned else Cancelled)
      modifies this
      ensures (View(), out) ==
        if user.Some? then DoReturnOrder(old(View()), user.value, id, now) else DoCancelOrder(old(View()), id, now)
      ensures Consistent(old(View())) ==> Consistent(View())
    {
      hide Consistent;
      if Consistent(View()) {
        if user.Some? { ReturnInv(View(), user.value, id, now); } else { CancelInv(View(), id, now); }
      }
      var i := FindFirst(orders, OrderIs(id));
      if i.None? || (user.Some? && orders[i.value].user != user.value) { return NotFound; }
      var o := orders[i.value];
      if o.status == status { return Ok; }
      if o.status != Active { return Terminal; }
      orders := orders[i.value := o.(status := status)];
      TerminateDemoInstanceByOrder(o.id, now);
      return Ok;
    }

    method StartInstance(user: nat, id: nat, now: int) returns (out: Outcome)
      modifies this
      ensures (View(), out) == DoStart(old(View()), user, id, now)
      ensures Consistent(old(View())) ==> Consistent(View())
    {
      hide Consistent;
      if Consistent(View()) {
        DoStartInv(View(), user, id, now);
      }
      var j := FindFirst(instances, InstanceIs(id, user));
      if j.None? { return NotFound; }
      var n := instances[j.value];
      if n.meter.status == M.Running { return Ok; }
      if n.meter.status == M.Terminated { return Terminal; }
      if now >= n.meter.endsAt {
        TerminateDemoInstance(j.value, now);
        return LeaseExpired;
      }
      instances := instances[j.value := n.(meter := n.meter.(status := M.Running, since := Some(now)))];
      sequence := sequence + 1;
      return Ok;
    }

    method StopInstance(user: nat, id: nat, now: int) returns (out: Outcome)
      modifies this
      ensures (View(), out) == DoStop(old(View()), user, id, now)
      ensures Consistent(old(View())) ==> Consistent(View())
    {
      hide Consistent;
      if Consistent(View()) {
        DoStopInv(View(), user, id, now);
      }
      var j := FindFirst(instances, InstanceIs(id, user));
      if j.None? { return NotFound; }
      var n := instances[j.value];
      if n.meter.status == M.Stopped { return Ok; }
      if n.meter.status == M.Terminated { return Terminal; }
      n := n.(meter := n.meter.(billable := M.DemoBillable(n.meter, now), since := None));
      n := n.(meter := n.meter.(accrued := M.DemoCost(n.meter, now), status := M.Stopped));
      instances := instances[j.value := n];
      sequence := sequence + 1;
      return Ok;
    }

    method TerminateInstance(user: nat, id: nat, now: int) returns (out: Outcome)
      modifies this
      ensures (View(), out) == DoTerminate(old(View()), user, id, now)
      ensures Consistent(old(View())) ==> Consistent(View())
    {
      hide Consistent;
      if Consistent(View()) {
        DoTerminateInv(View(), user, id, now);
      }
      var j := FindFirst(instances, InstanceIs(id, user));
      if j.None? { return NotFound; }
      var orderId := instances[j.value].orderId;
      TerminateDemoInstance(j.value, now);
      var i := FindFirst(orders, OrderIs(orderId));
      if i.Some? && orders[i.value].status == Active {
        orders := orders[i.value := orders[i.value].(status := Returned)];
      }
      return Ok;
    }

    method SetListingStatus(id: nat, listing: Listing) returns (out: Outcome)
      modifies this
      ensures (View(), out) == DoSetListing(old(View()), id, listing)
      ensures Consistent(old(View())) ==> Consistent(View())
    {
      hide Consistent;
      if Consistent(View()) {
        ListingInv(View(), id, listing);
      }
      var k := FindFirst(resources, ResourceIs(id));
      if k.None? { return NotFound; }
      if listing != Online {
        var rented := Rents(orders, id);
        if rented { return InUse; }
      }
      resources := resources[k.value := resources[k.value].(listing := listing)];
      return Ok;
    }
  }

  /** Array.find */
  method FindFirst<T>(s: seq<T>, p: T -> bool) returns (r: Option<nat>)
    ensures r == Find(s, p)
    ensures r.Some? ==> r.value < |s| && p(s[r.value])
  {
    for i := 0 to |s|
      invariant forall k :: 0 <= k < i ==> !p(s[k])
    {
      if p(s[i]) { return Some(i); }
    }
    return None;
  }

  method Rents(orders: seq<Order>, resource: nat) returns (r: bool)
    ensures r == HasActiveOrder(orders, resource)
  {
    for i := 0 to |orders|
      invariant forall k :: 0 <= k < i ==> !(orders[k].resource == resource && orders[k].status == Active)
    {
      if orders[i].resource == resource && orders[i].status == Active { return true; }
    }
    return false;
  }
}
