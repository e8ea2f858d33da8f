/** What a customer gets from each call of the demo: when it is accepted, and what it changes. */
module DemoCalls {
  import opened Basics
  import opened DemoGateway
  import opened DemoInvariants
  import M = Metering

  predicate FirstResource(s: State, k: nat, id: nat) {
    && k < |s.resources| && s.resources[k].id == id && forall l :: 0 <= l < k ==> s.resources[l].id != id
  }

  /** The first resource of that number, listed online and not rented. */
  predicate Offers(s: State, k: nat, resource: nat) {
    && FirstResource(s, k, resource) && s.resources[k].listing == Online
    && (forall i :: 0 <= i < |s.orders| && s.orders[i].resource == resource ==> s.orders[i].status != Active)
  }

  predicate AffordsAt(s: State, user: nat, k: nat, hours: int) {
    user in s.accounts && k < |s.resources| && s.resources[k].hourly * hours <= s.accounts[user].balance
  }

  lemma FindsFirst<T>(s: seq<T>, p: T -> bool, k: nat)
    requires k < |s| && p(s[k]) && forall l :: 0 <= l < k ==> !p(s[l])
    ensures Find(s, p) == Some(k)
  {
  }

  /** A booking is accepted exactly for an offered GPU, a known request and a wallet that covers it. */
  lemma BookingAcceptedIff(s: State, user: nat, resource: nat, hours: int, known: bool, now: int)
    ensures DoCreateOrder(s, user, resource, hours, known, now).1 == Ok <==>
      known && exists k :: 0 <= k < |s.resources| && Offers(s, k, resource) && AffordsAt(s, user, k, hours)
  {
    var k := Find(s.resources, ResourceIs(resource));
    if k.Some? && s.resources[k.value].listing == Online && !HasActiveOrder(s.orders, resource) {
      assert Offers(s, k.value, resource) by {
        assert forall l :: 0 <= l < k.value ==> !ResourceIs(resource)(s.resources[l]);
      }
    }
    if l :| 0 <= l < |s.resources| && Offers(s, l, resource) && AffordsAt(s, user, l, hours) {
      FindsFirst(s.resources, ResourceIs(resource), l);
    }
  }

  /** What a refusal of a booking says, of the first GPU of that number. */
  lemma BookingRefused(s: State, user: nat, resource: nat, hours: int, known: bool, now: int)
    ensures var (s', o) := DoCreateOrder(s, user, resource, hours, known, now);
      && (o != Ok ==> s' == s)
      && (o == Unavailable <==>
            forall k :: 0 <= k < |s.resources| && FirstResource(s, k, resource) ==> s.resources[k].listing != Online)
      && (o == Rented ==>
            exists i :: 0 <= i < |s.orders| && s.orders[i].resource == resource && s.orders[i].status == Active)
      && (o == NotFound ==> !known || user !in s.accounts)
      && (o == InsufficientBalance ==>
            exists k :: 0 <= k < |s.resources| && Offers(s, k, resource) && !AffordsAt(s, user, k, hours))
      && o in {Ok, Unavailable, Rented, NotFound, InsufficientBalance}
  {
    var k := Find(s.resources, ResourceIs(resource));
    if k.Some? {
      assert forall l :: 0 <= l < k.value ==> !ResourceIs(resource)(s.resources[l]);
    } else {
      assert forall l :: 0 <= l < |s.resources| ==> !ResourceIs(resource)(s.resources[l]);
    }
    if DoCreateOrder(s, user, resource, hours, known, now).1 == InsufficientBalance {
      assert Offers(s, k.value, resource) && !AffordsAt(s, user, k.value, hours);
    }
    hide Find;
  }

  /**
   An accepted booking rents the GPU at its price from now for the booked hours, charges the whole price at once,
   and starts an instance that may cost that much and ends when the order does.
   */
  lemma BookingMade(s: State, user: nat, resource: nat, hours: int, known: bool, now: int)
    requires DoCreateOrder(s, user, resource, hours, known, now).1 == Ok
    ensures var s' := DoCreateOrder(s, user, resource, hours, known, now).0;
      && |s'.orders| == |s.orders| + 1 && s'.orders[1..] == s.orders
      && |s'.instances| == |s.instances| + 1 && s'.instances[1..] == s.instances
      && s'.users == s.users && s'.current == s.current && s'.resources == s.resources
      && user in s.accounts && s'.accounts.Keys == s.accounts.Keys && s'.accounts - {user} == s.accounts - {user}
      && var o, n, a := s'.orders[0], s'.instances[0], s'.accounts[user];
      && o.id == s.sequence && o.user == user && o.resource == resource && o.status == Active
      && o.hours == hours && o.total == o.hourly * hours
      && (exists k :: 0 <= k < |s.resources| && Offers(s, k, resource) && o.hourly == s.resources[k].hourly)
      && o.startsAt == now && o.endsAt == now + 3_600_000 * hours
      && n.orderId == o.id && n.user == user && n.id > o.id && s'.sequence > n.id
      && n.meter == M.DemoInstance(now, o.endsAt, o.total, M.Running, Some(now), 0, 0)
      && a.balance == s.accounts[user].balance - o.total
      && |a.entries| == |s.accounts[user].entries| + 1 && a.entries[1..] == s.accounts[user].entries
      && a.entries[0] == Entry(Charge(o.id), o.total)
  {
    var s' := DoCreateOrder(s, user, resource, hours, known, now).0;
    var k := Find(s.resources, ResourceIs(resource)).value;
    assert Offers(s, k, resource) by {
      assert forall l :: 0 <= l < k ==> !ResourceIs(resource)(s.resources[l]);
    }
    assert s'.orders[1..] == s.orders && s'.instances[1..] == s.instances;
    assert s'.accounts[user].entries[1..] == s.accounts[user].entries;
    hide Find, Offers, HasActiveOrder;
  }

  /** A position in a list that is the first of its kind. */
  predicate FirstOrder(s: State, i: nat, id: nat) {
    i < |s.orders| && s.orders[i].id == id && forall l :: 0 <= l < i ==> s.orders[l].id != id
  }

  predicate FirstInstance(s: State, j: nat, id: nat, user: nat) {
    && j < |s.instances| && s.instances[j].id == id && s.instances[j].user == user
    && forall l :: 0 <= l < j ==> !(s.instances[l].id == id && s.instances[l].user == user)
  }

  lemma FoundOrder(s: State, id: nat)
    ensures var i := Find(s.orders, OrderIs(id));
      if i.Some? then FirstOrder(s, i.value, id) else forall l :: 0 <= l < |s.orders| ==> s.orders[l].id != id
  {
    var i := Find(s.orders, OrderIs(id));
    assert forall l :: 0 <= l < (if i.Some? then i.value else |s.orders|) ==> !OrderIs(id)(s.orders[l]);
  }

  lemma FoundInstance(s: State, id: nat, user: nat)
    ensures var j := Find(s.instances, InstanceIs(id, user));
      if j.Some? then FirstInstance(s, j.value, id, user)
      else forall l :: 0 <= l < |s.instances| ==> !(s.instances[l].id == id && s.instances[l].user == user)
  {
    var j := Find(s.instances, InstanceIs(id, user));
    assert forall l :: 0 <= l < (if j.Some? then j.value else |s.instances|) ==> !InstanceIs(id, user)(s.instances[l]);
  }

  /** The order's status becomes `status`, its instance has ended, and no other order or instance is touched. */
  ghost predicate Ended(s: State, s': State, i: nat, status: OrderStatus)
    requires i < |s.orders| == |s.instances|
  {
    && |s'.orders| == |s.orders| == |s'.instances|
    && s'.orders == s.orders[i := s.orders[i].(status := status)]
    && s'.instances[i].meter.status == M.Terminated
    && (forall j :: 0 <= j < |s.instances| && j != i ==> s'.instances[j] == s.instances[j])
    && s'.users == s.users && s'.current == s.current && s'.resources == s.resources
  }

  lemma EndedByClosing(s: State, i: nat, status: OrderStatus, now: int)
    requires Consistent(s) && i < |s.orders| && s.orders[i].status == Active && status != Active
    ensures |s.orders| == |s.instances| && Ended(s, CloseOrder(s, i, status, now), i, status)
  {
    CloseInv(s, i, status, now);
    ClosedEnds(s.instances[i], now);
    hide Consistent, CloseOrder, Closed;
  }

  lemma ClosedEnds(n: Instance, now: int)
    ensures Closed(n, now).meter.status == M.Terminated
  {
    hide M.DemoRead;
  }

  /** Returning needs one's own order, still active or already returned; only an active one changes anything. */
  lemma ReturnAcceptedIff(s: State, user: nat, id: nat, i: nat, now: int)
    requires Consistent(s) && FirstOrder(s, i, id)
    ensures |s.orders| == |s.instances| && var (s', o) := DoReturnOrder(s, user, id, now);
      var own, was := s.orders[i].user == user, s.orders[i].status;
      && (o == Ok <==> own && was in {Active, Returned}) && (o == Terminal <==> own && was in {Cancelled, Expired})
      && o in {Ok, Terminal, NotFound}
      && (o == Ok && was == Active ==> Ended(s, s', i, Returned)) && (o != Ok || was != Active ==> s' == s)
  {
    hide Consistent, CloseOrder, Find, Ended;
    FindsFirst(s.orders, OrderIs(id), i);
    SameLength(s);
    if s.orders[i].status == Active { EndedByClosing(s, i, Returned, now); }
  }

  lemma CancelAcceptedIff(s: State, id: nat, i: nat, now: int)
    requires Consistent(s) && FirstOrder(s, i, id)
    ensures |s.orders| == |s.instances| && var (s', o) := DoCancelOrder(s, id, now); var was := s.orders[i].status;
      && (o == Ok <==> was in {Active, Cancelled}) && (o == Terminal <==> was in {Returned, Expired})
      && (o == Ok && was == Active ==> Ended(s, s', i, Cancelled)) && (o != Ok || was != Active ==> s' == s)
  {
    hide Consistent, CloseOrder, Find, Ended;
    FindsFirst(s.orders, OrderIs(id), i);
    SameLength(s);
    if s.orders[i].status == Active { EndedByClosing(s, i, Cancelled, now); }
  }

  lemma SameLength(s: State)
    requires Consistent(s)
    ensures |s.orders| == |s.instances|
  {
  }

  lemma OrderUnknown(s: State, user: nat, id: nat, now: int)
    requires forall i :: 0 <= i < |s.orders| ==> s.orders[i].id != id
    ensures DoReturnOrder(s, user, id, now) == DoCancelOrder(s, id, now) == (s, NotFound)
  {
    FoundOrder(s, id);
    hide Find;
  }

  /** Starting, stopping and terminating need one's own instance; what they then leave. */
  lemma InstanceCalls(s: State, user: nat, id: nat, j: nat, now: int)
    requires FirstInstance(s, j, id, user)
    ensures var n := s.instances[j].meter;
      && (DoStart(s, user, id, now).1 == Ok <==>
            n.status == M.Running || (n.status == M.Stopped && now < n.endsAt))
      && (DoStart(s, user, id, now).1 == Terminal <==> n.status == M.Terminated)
      && (DoStart(s, user, id, now).1 == LeaseExpired <==> n.status == M.Stopped && n.endsAt <= now)
      && (DoStop(s, user, id, now).1 == Terminal <==> n.status == M.Terminated)
      && (DoStart(s, user, id, now).1 == Ok ==>
            RunsFrom(s.instances[j], DoStart(s, user, id, now).0.instances, j, now))
      && (DoStop(s, user, id, now).1 == Ok <==> n.status != M.Terminated)
      && (DoStop(s, user, id, now).1 == Ok ==>
            StopsFrom(s.instances[j], DoStop(s, user, id, now).0.instances, j, now))
      && OnlyInstance(s, DoStart(s, user, id, now), j) && OnlyInstance(s, DoStop(s, user, id, now), j)
      && DoTerminate(s, user, id, now).1 == Ok
      && j < |DoTerminate(s, user, id, now).0.instances|
      && DoTerminate(s, user, id, now).0.instances[j].meter.status == M.Terminated
  {
    FindsFirst(s.instances, InstanceIs(id, user), j);
    hide M.DemoRead, RefundDue, RefundedAccount, Find;
  }

  predicate RunsFrom(was: Instance, after: seq<Instance>, j: nat, now: int) {
    && j < |after| && after[j].meter.status == M.Running
    && (was.meter.status == M.Stopped ==>
          after[j] == was.(meter := was.meter.(status := M.Running, since := Some(now))))
    && (was.meter.status == M.Running ==> after[j] == was)
  }

  /** Stopping keeps what was read at that moment; an instance that had stopped before stays as it was. */
  predicate StopsFrom(was: Instance, after: seq<Instance>, j: nat, now: int) {
    && j < |after| && after[j].meter.status == M.Stopped
    && (was.meter.status == M.Stopped ==> after[j] == was)
    && (was.meter.status == M.Running ==>
          after[j].meter.since == None && after[j].meter.billable == M.DemoBillable(was.meter, now))
  }

  /** An accepted call touches this instance alone, and numbers only grow. */
  ghost predicate OnlyInstance(s: State, done: (State, Outcome), j: nat)
    requires j < |s.instances|
  {
    var (s', o) := done;
    o == Ok ==>
      && s' == s.(instances := s'.instances, sequence := s'.sequence) && s'.sequence >= s.sequence
      && |s'.instances| == |s.instances| && s'.instances == s.instances[j := s'.instances[j]]
      && s'.instances[j] == s.instances[j].(meter := s'.instances[j].meter)
  }

  /** Listing status changes freely, but a rented GPU stays online. */
  lemma ListingAcceptedIff(s: State, id: nat, listing: Listing)
    ensures var (s', o) := DoSetListing(s, id, listing);
      && (o == Ok <==>
            && (exists k :: 0 <= k < |s.resources| && s.resources[k].id == id)
            && (listing == Online
                || forall i :: 0 <= i < |s.orders| && s.orders[i].resource == id ==> s.orders[i].status != Active))
      && (o == Ok ==>
            && s' == s.(resources := s'.resources) && |s'.resources| == |s.resources|
            && exists k :: 0 <= k < |s.resources| && s.resources[k].id == id
                 && (forall l :: 0 <= l < k ==> s.resources[l].id != id)
                 && s'.resources == s.resources[k := s.resources[k].(listing := listing)])
      && (o == InUse <==>
            && (exists k :: 0 <= k < |s.resources| && s.resources[k].id == id) && listing != Online
            && exists i :: 0 <= i < |s.orders| && s.orders[i].resource == id && s.orders[i].status == Active)
      && o in {Ok, NotFound, InUse}
      && (o != Ok ==> s' == s)
  {
    var k := Find(s.resources, ResourceIs(id));
    if k.Some? {
      assert s.resources[k.value].id == id;
      assert forall l :: 0 <= l < k.value ==> !ResourceIs(id)(s.resources[l]);
    } else {
      assert forall l :: 0 <= l < |s.resources| ==> !ResourceIs(id)(s.resources[l]);
    }
    hide Find;
  }

  /** Names are compared with capital letters as small ones. */
  lemma LowerFolds(name: string, i: nat)
    requires i < |name|
    ensures |Lower(name)| == |name|
    ensures 'A' <= name[i] <= 'Z' ==>
      'a' <= Lower(name)[i] <= 'z' && Lower(name)[i] as int - 'a' as int == name[i] as int - 'A' as int
    ensures !('A' <= name[i] <= 'Z') ==> Lower(name)[i] == name[i]
  {
  }

  /** A new customer gets a name that no one has, whatever its case, and a wallet with the opening credit. */
  lemma RegistrationAcceptedIff(s: State, name: string)
    ensures var (s', o) := DoRegister(s, name);
      && (o == Ok <==> forall u :: u in s.users ==> Lower(s.users[u].name) != Lower(name))
      && (o == Ok ==>
            && s.sequence in s'.users && s'.users - {s.sequence} == s.users - {s.sequence}
            && s'.users[s.sequence] == User(name, Customer) && s'.current == Some(s.sequence)
            && s.sequence in s'.accounts && s'.accounts - {s.sequence} == s.accounts - {s.sequence}
            && s'.accounts[s.sequence].balance == 100_000 == Balance(s'.accounts[s.sequence].entries)
            && s'.sequence > s.sequence
            && s'.orders == s.orders && s'.instances == s.instances && s'.resources == s.resources)
      && o in {Ok, NameTaken}
      && (o != Ok ==> s' == s)
  {
    OpenedOk();
    hide Lower;
  }

  /** Without an instance of one's own under that number, nothing happens. */
  lemma InstanceUnknown(s: State, user: nat, id: nat, now: int)
    requires forall l :: 0 <= l < |s.instances| ==> !(s.instances[l].id == id && s.instances[l].user == user)
    ensures DoStart(s, user, id, now) == DoStop(s, user, id, now) == DoTerminate(s, user, id, now) == (s, NotFound)
  {
    FoundInstance(s, id, user);
    hide Find;
  }

  /** A top-up adds its amount to the caller's balance and one entry to the wallet; no other wallet changes. */
  lemma TopUpMade(s: State, user: nat, amount: int)
    ensures var (s', o) := DoTopUp(s, user, amount);
      && (o == Ok <==> user in s.accounts)
      && (o == Ok ==>
            && s' == s.(accounts := s'.accounts, sequence := s'.sequence) && s'.sequence > s.sequence
            && s'.accounts - {user} == s.accounts - {user} && user in s'.accounts
            && var a, a' := s.accounts[user], s'.accounts[user];
            && a'.balance == a.balance + amount && Balance(a'.entries) == Balance(a.entries) + amount
            && |a'.entries| == |a.entries| + 1 && a'.entries[1..] == a.entries && a'.entries[0].reference.TopUpOf?)
      && o in {Ok, NotFound}
      && (o != Ok ==> s' == s)
  {
    if user in s.accounts {
      var s' := DoTopUp(s, user, amount).0;
      assert s'.accounts[user].entries[1..] == s.accounts[user].entries;
    }
  }

  /** A new GPU needs a new name; a change of name or price leaves orders as they were made. */
  lemma ResourceMade(s: State, name: string, hourly: int, listing: Listing)
    ensures var (s', o) := DoCreateResource(s, name, hourly, listing);
      && (o == Ok <==> forall k :: 0 <= k < |s.resources| ==> s.resources[k].name != name)
      && (o == Ok ==>
            && s' == s.(resources := s'.resources, sequence := s'.sequence) && s'.sequence > s.sequence
            && |s'.resources| == |s.resources| + 1 && s'.resources[1..] == s.resources
            && s'.resources[0] == Resource(s.sequence, name, hourly, listing))
      && o in {Ok, NameTaken}
      && (o != Ok ==> s' == s)
  {
    assert DoCreateResource(s, name, hourly, listing).1 == Ok ==>
      DoCreateResource(s, name, hourly, listing).0.resources[1..] == s.resources;
  }

  lemma ResourceChanged(s: State, id: nat, name: Option<string>, hourly: Option<int>)
    ensures var (s', o) := DoUpdateResource(s, id, name, hourly);
      && (o == Ok <==> exists k :: 0 <= k < |s.resources| && s.resources[k].id == id)
      && (o == Ok ==>
            && s' == s.(resources := s'.resources) && |s'.resources| == |s.resources|
            && exists k :: 0 <= k < |s.resources| && s.resources[k].id == id
                 && (forall l :: 0 <= l < |s.resources| && l != k ==> s'.resources[l] == s.resources[l])
                 && s'.resources[k].id == id && s'.resources[k].listing == s.resources[k].listing
                 && s'.resources[k].name == (match name case Some(n) => n case None => s.resources[k].name)
                 && s'.resources[k].hourly == (match hourly case Some(p) => p case None => s.resources[k].hourly))
      && o in {Ok, NotFound}
      && (o != Ok ==> s' == s)
  {
    var k := Find(s.resources, ResourceIs(id));
    if k.None? {
      assert forall l :: 0 <= l < |s.resources| ==> !ResourceIs(id)(s.resources[l]);
    } else {
      assert s.resources[k.value].id == id;
    }
    hide Find;
  }

  /**
   Due orders expire before anything else. Only login, logout, registration and reset need no session; orders are
   cancelled and GPUs managed by operators of the demo alone.
   */
  lemma CallerRights(s: State, c: Call, readAt: int, now: int)
    ensures var s1 := ExpireFrom(s, 0, readAt);
      var someone := s1.current.Some? && s1.current.value in s1.users;
      if !(c.Login? || c.Logout? || c.Register? || c.Reset?)
        && !someone then Do(s, c, readAt, now) == (s1, Unauthorized)
      else if (c.CancelOrder? || c.CreateResource? || c.UpdateResource? || c.SetListing?)
              && s1.users[s1.current.value].role == Customer then Do(s, c, readAt, now) == (s1, Forbidden)
      else Do(s, c, readAt, now) == Perform(s1, c, now)
  {
    hide ExpireFrom, Perform;
  }

  lemma SessionCalls(s: State, user: nat, accepted: bool, now: int)
    ensures Perform(s, Login(user, accepted), now).1 == Ok <==> accepted && user in s.users
    ensures Perform(s, Login(user, accepted), now).0 ==
      s.(current := if accepted && user in s.users then Some(user) else s.current)
    ensures Perform(s, Logout, now) == (s.(current := None), Ok)
  {
  }

  /** A fresh document has one rental, begun 45 minutes ago for twelve hours, and five GPUs to book. */
  lemma SeedOffers(now: int)
    ensures var s := Initial(now);
      && |s.orders| == 1 && s.orders[0].status == Active && s.orders[0].user == 1 && s.orders[0].resource == 2
      && s.orders[0].startsAt == now - 2_700_000 && s.orders[0].endsAt == s.orders[0].startsAt + 43_200_000
      && s.orders[0].hours == 12 && s.orders[0].total == 12 * s.orders[0].hourly == 27480
      && |s.instances| == 1 && s.instances[0].orderId == s.orders[0].id
      && s.instances[0].meter ==
           M.DemoInstance(now - 2_700_000, now + 40_500_000, 27480, M.Running, Some(now - 2_700_000), 0, 0)
      && |s.resources| == 6 && s.resources[1].hourly == s.orders[0].hourly
      && (forall k :: 0 <= k < 6 && k != 1 ==> Offers(s, k, s.resources[k].id))
  {
    var s := Initial(now);
    assert forall k :: 0 <= k < 6 ==> s.resources[k].id == k + 1 && s.resources[k].listing == Online;
  }
}
