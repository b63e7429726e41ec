/** The documents of each collection, with the constraints their schemas
    declare (required paths, enums, bounds, unique indexes) as predicates,
    and the schema defaults applied when a document is created.

    A required string path rejects both a missing value and the empty
    string; a required number path rejects only a missing value. Enum and
    bound constraints are enforced when a document is created or saved,
    not by `findByIdAndUpdate`, so updates can break them: validity is an
    invariant of creation, not of the whole store. */
module Models {
  import opened Common

  // ---------------------------------------------------------------------
  // Reservation

  const ReservationStatuses: set<string> := {"Pending", "Confirmed", "Cancelled", "Waiting"}

  datatype Reservation = Reservation(
    id: Id,
    user: Id,
    customerName: string,
    phone: string,
    date: string,          // YYYY-MM-DD
    time: string,          // HH:mm
    guests: int,
    tableNo: Option<int>,  // None is the schema's null default
    notes: string,
    status: string,
    createdAt: Time)

  ghost predicate ReservationValid(r: Reservation) {
    r.user != "" && r.customerName != "" && r.date != "" && r.time != ""
    && r.status in ReservationStatuses
  }

  /** `Reservation.create` with the paths a handler supplies; None when
      schema validation rejects the document. */
  function NewReservation(id: Id, user: Option<Id>, customerName: Option<string>, phone: Option<string>,
                          date: Option<string>, time: Option<string>, guests: Option<int>,
                          notes: Option<string>, now: Time): (r: Option<Reservation>)
    ensures r.Some? <==> Truthy(user) && Truthy(customerName) && Truthy(date) && Truthy(time) && guests.Some?
    ensures r.Some? ==> ReservationValid(r.value)
    ensures r.Some? ==> r.value.tableNo.None? && r.value.status == "Pending"
    ensures r.Some? ==> r.value.phone == phone.GetOr("") && r.value.notes == notes.GetOr("")
  {
    if Truthy(user) && Truthy(customerName) && Truthy(date) && Truthy(time) && guests.Some? then
      Some(Reservation(id, user.value, customerName.value, phone.GetOr(""), date.value, time.value,
                       guests.value, None, notes.GetOr(""), "Pending", now))
    else None
  }

  // ---------------------------------------------------------------------
  // Order

  datatype OrderItem = OrderItem(name: string, price: int, quantity: int)

  datatype Order = Order(
    id: Id,
    user: Id,
    customerName: string,
    phone: string,
    items: seq<OrderItem>,
    totalAmount: int,
    status: string,
    orderType: string,
    deliveryAddress: string,
    scheduledTime: string,
    paymentStatus: string,
    paymentMethod: string,
    gatewayOrderId: string,
    gatewayPaymentId: string,
    paidAt: Option<Time>,
    refundId: string,
    refundedAt: Option<Time>,
    invoiceNumber: string,
    invoiceUrl: string,
    createdAt: Time,
    updatedAt: Time)

  /** The state of an order no payment, refund or invoice has touched yet. */
  ghost predicate FreshOrder(o: Order) {
    o.status == "Pending" && o.paymentStatus == "Unpaid" && o.paymentMethod == "Cash"
    && o.gatewayOrderId == "" && o.gatewayPaymentId == "" && o.paidAt.None?
    && o.refundId == "" && o.refundedAt.None? && o.invoiceNumber == "" && o.invoiceUrl == ""
  }

  /** The `findById` query on orders. */
  function OrderById(id: Id): Order -> bool {
    (o: Order) => o.id == id
  }

  /** The validators `save` runs on an order: the required string paths
      `user` and `customerName` are non-empty (the required `totalAmount`
      is always a number here). */
  predicate OrderValid(o: Order) {
    o.user != "" && o.customerName != ""
  }

  /** `Order.create`; None when a required path (user, customerName,
      totalAmount) is missing. Paths left out take their schema defaults. */
  function NewOrder(id: Id, user: Id, customerName: Option<string>, phone: string, items: Option<seq<OrderItem>>,
                    totalAmount: Option<int>, orderType: string, deliveryAddress: string,
                    scheduledTime: string, now: Time): (r: Option<Order>)
    ensures r.Some? <==> user != "" && Truthy(customerName) && totalAmount.Some?
    ensures r.Some? ==> FreshOrder(r.value) && OrderValid(r.value) && r.value.user == user
    ensures r.Some? ==> r.value.totalAmount == totalAmount.value && r.value.items == items.GetOr([])
  {
    if user != "" && Truthy(customerName) && totalAmount.Some? then
      Some(Order(id, user, customerName.value, phone, items.GetOr([]), totalAmount.value, "Pending",
                 orderType, deliveryAddress, scheduledTime, "Unpaid", "Cash", "", "", None,
                 "", None, "", "", now, now))
    else None
  }

  // ---------------------------------------------------------------------
  // Customer

  datatype Customer = Customer(
    id: Id,
    customerName: string,
    phone: string,
    totalOrders: int,
    totalReservations: int,
    totalSpent: int,
    loyaltyPoints: int,
    updatedAt: Time)

  /** The unique index on customerName. */
  ghost predicate CustomerNamesUnique(cs: seq<Customer>) {
    forall i, j :: 0 <= i < j < |cs| ==> cs[i].customerName != cs[j].customerName
  }

  /** The documented loyalty rule: one point per order. */
  ghost predicate LoyaltyMatchesOrders(cs: seq<Customer>) {
    forall i :: 0 <= i < |cs| ==> cs[i].loyaltyPoints == cs[i].totalOrders
  }

  // ---------------------------------------------------------------------
  // Review

  datatype Review = Review(id: Id, user: Id, menuItem: Id, rating: int, comment: string, createdAt: Time)

  ghost predicate ReviewValid(r: Review) {
    r.user != "" && r.menuItem != "" && 1 <= r.rating <= 5
  }

  /** The unique index on (user, menuItem). */
  ghost predicate ReviewsUnique(rs: seq<Review>) {
    forall i, j :: 0 <= i < j < |rs| ==> !(rs[i].user == rs[j].user && rs[i].menuItem == rs[j].menuItem)
  }

  // ---------------------------------------------------------------------
  // Menu item

  const SpiceLevels: set<string> := {"none", "mild", "medium", "hot"}

  datatype MenuItem = MenuItem(
    id: Id,
    name: string,
    description: string,
    price: int,
    category: string,
    image: string,
    isAvailable: bool,
    dietaryTags: seq<string>,
    spiceLevel: string,
    ordersCount: int,
    createdAt: Time)

  /** The white space `String.prototype.trim` strips (the WhiteSpace and
      LineTerminator productions of ECMAScript): tab, vertical tab, form
      feed, the byte order mark, the Unicode space separators (category Zs)
      and the four line terminators. */
  predicate IsSpace(c: char) {
    c == '\t' || c == '\U{000B}' || c == '\U{000C}' || c == '\U{FEFF}'
    || c == ' ' || c == '\U{00A0}' || c == '\U{1680}' || '\U{2000}' <= c <= '\U{200A}'
    || c == '\U{202F}' || c == '\U{205F}' || c == '\U{3000}'
    || c == '\n' || c == '\r' || c == '\U{2028}' || c == '\U{2029}'
  }

  /** A name made of one no-break space trims to the empty string, so the
      required validator refuses it. */
  lemma NoBreakSpaceTrimsAway()
    ensures Trim("\U{00A0}") == ""
    ensures Trim("\U{3000}a\U{FEFF}") == "a"
  {
    assert TrimStart("\U{00A0}") == 1;
    var s := "\U{3000}a\U{FEFF}";
    assert TrimStart(s[1..]) == 0;
    assert TrimStart(s) == 1;
    assert TrimEnd(s[..2], 1) == 2;
    assert TrimEnd(s, 1) == 2;
  }

  /** The number of leading white-space characters of `s`. */
  function TrimStart(s: string): (k: nat)
    ensures k <= |s|
    ensures forall i :: 0 <= i < k ==> IsSpace(s[i])
    ensures k == |s| || !IsSpace(s[k])
  {
    if |s| == 0 || !IsSpace(s[0]) then 0 else 1 + TrimStart(s[1..])
  }

  /** Where the trailing white space of `s` begins, looking no further left than `from`. */
  function TrimEnd(s: string, from: nat): (k: nat)
    requires from <= |s|
    ensures from <= k <= |s|
    ensures forall i :: k <= i < |s| ==> IsSpace(s[i])
    ensures k == from || !IsSpace(s[k - 1])
    decreases |s|
  {
    if |s| == from || !IsSpace(s[|s| - 1]) then |s| else TrimEnd(s[..|s| - 1], from)
  }

  /** The schema's `trim: true` setter: `s` without its leading and trailing
      white space. */
  function Trim(s: string): (r: string)
    ensures r == "" || (!IsSpace(r[0]) && !IsSpace(r[|r| - 1]))
  {
    s[TrimStart(s)..TrimEnd(s, TrimStart(s))]
  }

  /** Trimming is idempotent. */
  lemma TrimTwice(s: string)
    ensures Trim(Trim(s)) == Trim(s)
  {
    var r := Trim(s);
    assert TrimStart(r) == 0;
    assert TrimEnd(r, 0) == |r|;
    assert r[0..|r|] == r;
  }

  ghost predicate MenuItemValid(m: MenuItem) {
    m.name != "" && m.description != "" && m.category != ""
    && Trim(m.name) == m.name && Trim(m.description) == m.description && Trim(m.category) == m.category
    && m.price >= 0 && m.spiceLevel in SpiceLevels
  }

  // ---------------------------------------------------------------------
  // Task (staff routes)

  const TaskPriorities: set<string> := {"High", "Medium", "Low"}
  const TaskStatuses: set<string> := {"Pending", "In Progress", "Completed"}

  datatype Task = Task(
    id: Id,
    staff: Id,
    title: string,
    description: string,
    priority: string,
    dueDate: Option<string>,
    status: string,
    assignedBy: Option<Id>,
    createdAt: Time)

  ghost predicate TaskValid(t: Task) {
    t.staff != "" && t.title != "" && t.priority in TaskPriorities && t.status in TaskStatuses
  }

  // ---------------------------------------------------------------------
  // StaffTask (staff controller)

  const StaffTaskStatuses: set<string> := {"pending", "in_progress", "done"}

  /** A StaffTask as its schema defines it; the schema has no `staff` path. */
  datatype StaffTask = StaffTask(
    id: Id,
    staffId: Id,
    title: string,
    description: string,
    status: string,
    dueDate: Option<string>,
    createdAt: Time)

  predicate StaffTaskValid(t: StaffTask) {
    t.staffId != "" && t.title != "" && t.status in StaffTaskStatuses
  }

  // ---------------------------------------------------------------------
  // Attendance

  const AttendanceStatuses: set<string> := {"Present", "Absent", "Leave"}

  datatype Attendance = Attendance(
    id: Id,
    staff: Id,
    date: string,          // YYYY-MM-DD
    checkIn: Option<Time>,
    checkOut: Option<Time>,
    status: string,
    notes: string,
    markedBy: Id,
    createdAt: Time)

  predicate AttendanceValid(a: Attendance) {
    a.staff != "" && a.date != "" && a.markedBy != "" && a.status in AttendanceStatuses
  }

  /** The unique index on (staff, date). */
  ghost predicate AttendanceUnique(s: seq<Attendance>) {
    forall i, j :: 0 <= i < j < |s| ==> !(s[i].staff == s[j].staff && s[i].date == s[j].date)
  }

  /** Whether a record already exists for (staff, date), as the unique index sees it. */
  predicate HasAttendance(s: seq<Attendance>, staff: Id, date: string) {
    exists i :: 0 <= i < |s| && s[i].staff == staff && s[i].date == date
  }

  // ---------------------------------------------------------------------
  // Staff member (the staff routes' own collection; every path optional)

  datatype Staff = Staff(id: Id, name: string, email: string, role: string, createdAt: Time)

  // ---------------------------------------------------------------------
  // Payment ledger

  datatype Payment = Payment(id: Id, order: Id, amount: int, payMethod: string, status: string, createdAt: Time)

  // ---------------------------------------------------------------------
  // The `createdAt` sort keys of `.sort({createdAt: -1})`

  function ReservationCreated(r: Reservation): int { r.createdAt }
  function OrderCreated(o: Order): int { o.createdAt }
  function ReviewCreated(r: Review): int { r.createdAt }
  function MenuItemCreated(m: MenuItem): int { m.createdAt }
  function TaskCreated(t: Task): int { t.createdAt }
  function AttendanceCreated(a: Attendance): int { a.createdAt }
}
