/**
 The browser demo: GPU listings, orders with their instances, and prepaid wallets, kept in one document.
 Every call first expires the orders that are due. IDs are the numbers drawn from one sequence.
 */
module DemoGateway {
  import opened Basics
  import M = Metering

  datatype Role = Customer | Admin
  datatype User = User(name: string, role: Role)

  datatype Listing = Online | Offline | Maintenance
  datatype Resource = Resource(id: nat, name: string, hourly: int, listing: Listing)

  datatype OrderStatus = Active | Returned | Cancelled | Expired
  datatype Order = Order(
    id: nat, user: nat, resource: nat, hourly: int, hours: int, total: int,
    status: OrderStatus, startsAt: int, endsAt: int)

  datatype Instance = Instance(id: nat, orderId: nat, user: nat, meter: M.DemoInstance)

  datatype Reference = Opening | TopUpOf(n: nat) | Charge(order: nat) | Refund(order: nat)
  datatype Entry = Entry(reference: Reference, amount: int)
  datatype Account = Account(balance: int, entries: seq<Entry>)

  datatype State = State(
    sequence: nat, users: map<nat, User>, current: Option<nat>,
    resources: seq<Resource>, orders: seq<Order>, instances: seq<Instance>, accounts: map<nat, Account>)

  datatype Outcome =
    | Ok | Unauthorized | Forbidden | NotFound | Unavailable | Rented | InsufficientBalance
    | Terminal | LeaseExpired | NameTaken | InUse

  // ----- lookups: Array.find -----

  function Find<T>(s: seq<T>, p: T -> bool): (r: Option<nat>)
    ensures r.Some? ==> r.value < |s| && p(s[r.value]) && forall i :: 0 <= i < r.value ==> !p(s[i])
    ensures r.None? ==> forall i :: 0 <= i < |s| ==> !p(s[i])
  {
    if s == [] then None
    else if p(s[0]) then Some(0)
    else
      match Find(s[1..], p)
      case None => None
      case Some(i) => Some(i + 1)
  }

  function OrderIs(id: nat): Order -> bool {
    (o: Order) => o.id == id
  }

  function InstanceOf(orderId: nat): Instance -> bool {
    (n: Instance) => n.orderId == orderId
  }

  function InstanceIs(id: nat, user: nat): Instance -> bool {
    (n: Instance) => n.id == id && n.user == user
  }

  function ResourceIs(id: nat): Resource -> bool {
    (r: Resource) => r.id == id
  }

  predicate HasActiveOrder(orders: seq<Order>, resource: nat) {
    exists i :: 0 <= i < |orders| && orders[i].resource == resource && orders[i].status == Active
  }

  predicate HasReference(entries: seq<Entry>, r: Reference) {
    exists i :: 0 <= i < |entries| && entries[i].reference == r
  }

  // ----- wallet -----

  function Max(a: int, b: int): int {
    if a < b then b else a
  }

  function RefundDue(a: Account, n: Instance): int {
    if HasReference(a.entries, Refund(n.orderId)) then 0 else Max(0, n.meter.maximum - n.meter.accrued)
  }

  function RefundedAccount(a: Account, n: Instance): Account {
    var due := RefundDue(a, n);
    if due == 0 then a else Account(a.balance + due, [Entry(Refund(n.orderId), due)] + a.entries)
  }

  /** Every wallet entry and every notification draws a number. */
  function RefundOrder(s: State, n: Instance): State {
    if n.user !in s.accounts || RefundDue(s.accounts[n.user], n) == 0 then s
    else s.(accounts := s.accounts[n.user := RefundedAccount(s.accounts[n.user], n)], sequence := s.sequence + 2)
  }

  // ----- ending an instance -----

  function Metered(n: Instance, event: M.Event, now: int): Instance {
    n.(meter := M.DemoStep(n.meter, event, now))
  }

  function TerminateAt(s: State, j: nat, now: int): State
    requires j < |s.instances|
  {
    if s.instances[j].meter.status == M.Terminated then s
    else
      var n := Metered(s.instances[j], M.Terminate, now);
      var s1 := RefundOrder(s.(instances := s.instances[j := n]), n);
      s1.(sequence := s1.sequence + 1)
  }

  function TerminateByOrder(s: State, orderId: nat, now: int): State {
    match Find(s.instances, InstanceOf(orderId))
    case None => s
    case Some(j) => TerminateAt(s, j, now)
  }

  function WithStatus(s: State, i: nat, status: OrderStatus): State
    requires i < |s.orders|
  {
    s.(orders := s.orders[i := s.orders[i].(status := status)])
  }

  function CloseOrder(s: State, i: nat, status: OrderStatus, now: int): State
    requires i < |s.orders|
  {
    TerminateByOrder(WithStatus(s, i, status), s.orders[i].id, now)
  }

  predicate Due(o: Order, now: int) {
    o.status == Active && o.endsAt <= now
  }

  function ExpireFrom(s: State, i: nat, now: int): State
    decreases |s.orders| - i
  {
    if i >= |s.orders| then s
    else ExpireFrom(if Due(s.orders[i], now) then CloseOrder(s, i, Expired, now) else s, i + 1, now)
  }

  // ----- calls -----

  function DoTopUp(s: State, user: nat, amount: int): (State, Outcome) {
    if user !in s.accounts then (s, NotFound)
    else
      var a := s.accounts[user];
      var a' := Account(a.balance + amount, [Entry(TopUpOf(s.sequence + 1), amount)] + a.entries);
      (s.(accounts := s.accounts[user := a'],
          sequence := s.sequence + 2), Ok)
  }

  function NewOrder(s: State, user: nat, r: Resource, hours: int, now: int): Order {
    Order(s.sequence, user, r.id, r.hourly, hours, r.hourly * hours, Active, now, now + hours * M.HOUR_MS)
  }

  /** The instance of a new order runs at once; its number is drawn after the two of the charge. */
  function NewInstance(s: State, o: Order): Instance {
    Instance(s.sequence + 3, o.id, o.user,
             M.DemoInstance(o.startsAt, o.endsAt, o.total, M.Running, Some(o.startsAt), 0, 0))
  }

  function Booked(s: State, o: Order): State
    requires o.user in s.accounts
  {
    var a := s.accounts[o.user];
    s.(sequence := s.sequence + 4,
       accounts := s.accounts[o.user := Account(a.balance - o.total, [Entry(Charge(o.id), o.total)] + a.entries)],
       orders := [o] + s.orders,
       instances := [NewInstance(s, o)] + s.instances)
  }

  /** `known`: the template and the project named in the request exist. */
  function DoCreateOrder(s: State, user: nat, resource: nat, hours: int, known: bool, now: int): (State, Outcome) {
    match Find(s.resources, ResourceIs(resource))
    case None => (s, Unavailable)
    case Some(k) =>
      var r := s.resources[k];
      if r.listing != Online then (s, Unavailable)
      else if HasActiveOrder(s.orders, r.id) then (s, Rented)
      else if !known || user !in s.accounts then (s, NotFound)
      else if s.accounts[user].balance < r.hourly * hours then (s, InsufficientBalance)
      else (Booked(s, NewOrder(s, user, r, hours, now)), Ok)
  }

  function DoReturnOrder(s: State, user: nat, id: nat, now: int): (State, Outcome) {
    match Find(s.orders, OrderIs(id))
    case None => (s, NotFound)
    case Some(i) =>
      if s.orders[i].user != user then (s, NotFound)
      else if s.orders[i].status == Returned then (s, Ok)
      else if s.orders[i].status != Active then (s, Terminal)
      else (CloseOrder(s, i, Returned, now), Ok)
  }

  function DoCancelOrder(s: State, id: nat, now: int): (State, Outcome) {
    match Find(s.orders, OrderIs(id))
    case None => (s, NotFound)
    case Some(i) =>
      if s.orders[i].status == Cancelled then (s, Ok)
      else if s.orders[i].status != Active then (s, Terminal)
      else (CloseOrder(s, i, Cancelled, now), Ok)
  }

  function DoStart(s: State, user: nat, id: nat, now: int): (State, Outcome) {
    match Find(s.instances, InstanceIs(id, user))
    case None => (s, NotFound)
    case Some(j) =>
      var n := s.instances[j];
      if n.meter.status == M.Running then (s, Ok)
      else if n.meter.status == M.Terminated then (s, Terminal)
      else if now >= n.meter.endsAt then (TerminateAt(s, j, now), LeaseExpired)
      else (s.(instances := s.instances[j := Metered(n, M.Start, now)], sequence := s.sequence + 1), Ok)
  }

  function DoStop(s: State, user: nat, id: nat, now: int): (State, Outcome) {
    match Find(s.instances, InstanceIs(id, user))
    case None => (s, NotFound)
    case Some(j) =>
      var n := s.instances[j];
      if n.meter.status == M.Stopped then (s, Ok)
      else if n.meter.status == M.Terminated then (s, Terminal)
      else (s.(instances := s.instances[j := Metered(n, M.Stop, now)], sequence := s.sequence + 1), Ok)
  }

  function DoTerminate(s: State, user: nat, id: nat, now: int): (State, Outcome) {
    match Find(s.instances, InstanceIs(id, user))
    case None => (s, NotFound)
    case Some(j) =>
      var s1 := TerminateAt(s, j, now);
      (match Find(s1.orders, OrderIs(s.instances[j].orderId))
       case None => (s1, Ok)
       case Some(i) => (if s1.orders[i].status == Active then WithStatus(s1, i, Returned) else s1, Ok))
  }

  function DoCreateResource(s: State, name: string, hourly: int, listing: Listing): (State, Outcome) {
    if exists i :: 0 <= i < |s.resources| && s.resources[i].name == name then (s, NameTaken)
    else (s.(sequence := s.sequence + 1, resources := [Resource(s.sequence, name, hourly, listing)] + s.resources), Ok)
  }

  function DoUpdateResource(s: State, id: nat, name: Option<string>, hourly: Option<int>): (State, Outcome) {
    match Find(s.resources, ResourceIs(id))
    case None => (s, NotFound)
    case Some(k) =>
      var r := s.resources[k];
      var r' := r.(name := if name.Some? then name.value else r.name,
                   hourly := if hourly.Some? then hourly.value else r.hourly);
      (s.(resources := s.resources[k := r']), Ok)
  }

  function DoSetListing(s: State, id: nat, listing: Listing): (State, Outcome) {
    match Find(s.resources, ResourceIs(id))
    case None => (s, NotFound)
    case Some(k) =>
      if listing != Online && HasActiveOrder(s.orders, id) then (s, InUse)
      else (s.(resources := s.resources[k := s.resources[k].(listing := listing)]), Ok)
  }

  function Lower(name: string): string {
    seq(|name|, i requires 0 <= i < |name| => if 'A' <= name[i] <= 'Z' then name[i] - 'A' + 'a' else name[i])
  }

  const OPENING_CREDIT := 100_000
  const OPENED := Account(OPENING_CREDIT, [Entry(Opening, OPENING_CREDIT)])

  function DoRegister(s: State, name: string): (State, Outcome) {
    if exists u :: u in s.users && Lower(s.users[u].name) == Lower(name) then (s, NameTaken)
    else
      (s.(sequence := s.sequence + 1, users := s.users[s.sequence := User(name, Customer)],
          accounts := s.accounts[s.sequence := OPENED], current := Some(s.sequence)), Ok)
  }

  const SEED_ORDER := Order(1, 1, 2, 2290, 12, 27480, Active, 0, 0)

  function Initial(now: int): State {
    var startsAt := now - 45 * 60_000;
    var endsAt := startsAt + 12 * M.HOUR_MS;
    State(
      102, map[1 := User("operator", Customer), 2 := User("dispatcher", Admin)], None,
      [Resource(1, "CN-EAST / BAY 04", 3290, Online), Resource(2, "CN-EAST / BAY 11", 2290, Online),
       Resource(3, "AP-NE / BAY 03", 1290, Online), Resource(4, "CN-SOUTH / BAY 08", 690, Online),
       Resource(5, "EU-CENTRAL / BAY 06", 2790, Online), Resource(6, "US-EAST / BAY 12", 1190, Online)],
      [SEED_ORDER.(startsAt := startsAt, endsAt := endsAt)],
      [Instance(1, 1, 1, M.DemoInstance(startsAt, endsAt, 27480, M.Running, Some(startsAt), 0, 0))],
      map[1 := Account(OPENING_CREDIT - 27480, [Entry(Charge(1), 27480), Entry(Opening, OPENING_CREDIT)]), 2 := OPENED])
  }

  datatype Call =
    | Login(user: nat, accepted: bool) | Logout | Register(name: string) | TopUp(amount: int)
    | CreateOrder(resource: nat, hours: int, known: bool)
    | ReturnOrder(order: nat) | CancelOrder(order: nat)
    | StartInstance(instance: nat) | StopInstance(instance: nat) | TerminateInstance(instance: nat)
    | CreateResource(rname: string, hourly: int, listing: Listing)
    | UpdateResource(id: nat, newName: Option<string>, newHourly: Option<int>)
    | SetListing(id: nat, listing: Listing)
    | Reset

  predicate ForAdmin(c: Call) {
    c.CancelOrder? || c.CreateResource? || c.UpdateResource? || c.SetListing?
  }

  predicate NeedsUser(c: Call) {
    !(c.Login? || c.Logout? || c.Register? || c.Reset?)
  }

  predicate SignedIn(s: State) {
    s.current.Some? && s.current.value in s.users
  }

  /** What a permitted call does to a document that was just read. */
  function Perform(s: State, c: Call, now: int): (State, Outcome)
    requires NeedsUser(c) ==> SignedIn(s)
  {
    match c
    case Login(u, accepted) =>
      if accepted && u in s.users then (s.(current := Some(u)), Ok) else (s, Unauthorized)
    case Logout => (s.(current := None), Ok)
    case Register(name) => DoRegister(s, name)
    case TopUp(amount) => DoTopUp(s, s.current.value, amount)
    case CreateOrder(r, hours, known) => DoCreateOrder(s, s.current.value, r, hours, known, now)
    case ReturnOrder(id) => DoReturnOrder(s, s.current.value, id, now)
    case CancelOrder(id) => DoCancelOrder(s, id, now)
    case StartInstance(id) => DoStart(s, s.current.value, id, now)
    case StopInstance(id) => DoStop(s, s.current.value, id, now)
    case TerminateInstance(id) => DoTerminate(s, s.current.value, id, now)
    case CreateResource(name, hourly, listing) => DoCreateResource(s, name, hourly, listing)
    case UpdateResource(id, name, hourly) => DoUpdateResource(s, id, name, hourly)
    case SetListing(id, listing) => DoSetListing(s, id, listing)
    case Reset => (Initial(now), Ok)
  }

  function Act(s: State, c: Call, now: int): (State, Outcome) {
    if NeedsUser(c) && !SignedIn(s) then (s, Unauthorized)
    else if ForAdmin(c) && s.users[s.current.value].role != Admin then (s, Forbidden)
    else Perform(s, c, now)
  }

  /** `readAt` and `now` are the clock readings of the expiry check and of the call itself. */
  function Do(s: State, c: Call, readAt: int, now: int): (State, Outcome) {
    Act(ExpireFrom(s, 0, readAt), c, now)
  }
}
