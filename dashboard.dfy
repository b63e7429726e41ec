/** The dashboard controller's reports. The local time zone is an offset in
    milliseconds added to UTC, so local midnight is the instant whose local
    time is a multiple of a day (daylight-saving changes are not modelled);
    `$dateToString` groups by UTC day. Durations and amounts are integers:
    the two-decimal rounding of averages is not modelled, and averages are
    given as their sum and their count. */
module Dashboard {
  import opened Common
  import opened Models
  import opened Sorting
  import opened Grouping
  import opened Aggregation

  const DayMs: int := 86400000

  /** The local clock: the instant, the zone offset, the day of the month. */
  datatype Clock = Clock(now: Time, offset: int, dayOfMonth: nat)

  ghost predicate ClockValid(c: Clock) {
    1 <= c.dayOfMonth <= 31
  }

  /** `startOfDay`: the last local midnight not after `now`. */
  function StartOfDay(c: Clock): (t: Time)
    ensures t <= c.now < t + DayMs
    ensures (t + c.offset) % DayMs == 0
  {
    c.now - (c.now + c.offset) % DayMs
  }

  /** `startOfMonth`: local midnight of the first of the month, the
      midnight `dayOfMonth - 1` days before today's. */
  function StartOfMonth(c: Clock): (t: Time)
    requires ClockValid(c)
    ensures t <= StartOfDay(c) && (t + c.offset) % DayMs == 0
    ensures t + (c.dayOfMonth - 1) * DayMs <= c.now < t + c.dayOfMonth * DayMs
  {
    StartOfDay(c) - (c.dayOfMonth - 1) * DayMs
  }

  /** The start of the trend window: local midnight six days back, so the
      window holds today and the six days before it. */
  function TrendStart(c: Clock): (t: Time)
    ensures (t + c.offset) % DayMs == 0
    ensures t + 6 * DayMs <= c.now < t + 7 * DayMs
  {
    StartOfDay(c) - 6 * DayMs
  }

  // -----------------------------------------------------------------------
  // Summary

  function OrderSince(t: Time): Order -> bool {
    (o: Order) => o.createdAt >= t
  }

  function IsPaid(o: Order): bool {
    o.paymentStatus == "Paid"
  }

  function PaidSince(t: Time): Order -> bool {
    (o: Order) => o.paymentStatus == "Paid" && o.createdAt >= t
  }

  function ReservationSince(t: Time): Reservation -> bool {
    (r: Reservation) => r.createdAt >= t
  }

  function Amount(o: Order): int {
    o.totalAmount
  }

  /** Revenue over the orders selected by `p`: the `$sum` of an empty
      match is no document, which `|| 0` turns into 0. */
  function Revenue(os: seq<Order>, p: Order -> bool): int {
    SumOf(Filter(os, p), Amount)
  }

  datatype Summary = Summary(
    totalOrders: nat,
    todayOrders: nat,
    monthOrders: nat,
    totalRevenue: int,
    todayRevenue: int,
    monthRevenue: int,
    totalReservations: nat,
    todayReservations: nat)

  lemma {:induction false} FilterMonotone<T>(s: seq<T>, p: T -> bool, q: T -> bool)
    requires forall i :: 0 <= i < |s| && p(s[i]) ==> q(s[i])
    ensures |Filter(s, p)| <= |Filter(s, q)|
    decreases |s|
  {
    if |s| > 0 {
      assert forall i :: 0 <= i < |s| - 1 ==> s[1..][i] == s[i + 1];
      FilterMonotone(s[1..], p, q);
    }
  }

  lemma {:induction false} FilterSumMonotone<T>(s: seq<T>, p: T -> bool, q: T -> bool, val: T -> int)
    requires forall i :: 0 <= i < |s| && p(s[i]) ==> q(s[i])
    requires forall i :: 0 <= i < |s| ==> val(s[i]) >= 0
    ensures SumOf(Filter(s, p), val) <= SumOf(Filter(s, q), val)
    decreases |s|
  {
    if |s| > 0 {
      assert forall i :: 0 <= i < |s| - 1 ==> s[1..][i] == s[i + 1];
      FilterSumMonotone(s[1..], p, q, val);
      if p(s[0]) {
        assert Filter(s, p) == [s[0]] + Filter(s[1..], p);
        assert Filter(s, q) == [s[0]] + Filter(s[1..], q);
      }
    }
  }

  lemma {:induction false} FilterNone<T>(s: seq<T>, p: T -> bool)
    requires forall i :: 0 <= i < |s| ==> !p(s[i])
    ensures Filter(s, p) == []
    decreases |s|
  {
    if |s| > 0 {
      assert forall i :: 0 <= i < |s| - 1 ==> s[1..][i] == s[i + 1];
      FilterNone(s[1..], p);
    }
  }

  lemma {:induction false} FilterAll<T>(s: seq<T>, p: T -> bool)
    requires forall i :: 0 <= i < |s| ==> p(s[i])
    ensures Filter(s, p) == s
    decreases |s|
  {
    if |s| > 0 {
      assert forall i :: 0 <= i < |s| - 1 ==> s[1..][i] == s[i + 1];
      FilterAll(s[1..], p);
      assert s == [s[0]] + s[1..];
    }
  }

  /** `getSummary`: order counts since local midnight and since the first
      of the month, revenue over Paid orders in the same windows, and the
      reservation counts. The windows nest, so today's count is at most the
      month's, which is at most the total. */
  function GetSummary(os: seq<Order>, rs: seq<Reservation>, c: Clock): (s: Summary)
    requires ClockValid(c)
    ensures s.totalOrders == |os| && s.totalReservations == |rs|
    ensures s.todayOrders == |Filter(os, OrderSince(StartOfDay(c)))|
    ensures s.monthOrders == |Filter(os, OrderSince(StartOfMonth(c)))|
    ensures s.todayRevenue == Revenue(os, PaidSince(StartOfDay(c)))
    ensures s.monthRevenue == Revenue(os, PaidSince(StartOfMonth(c)))
    ensures s.todayReservations == |Filter(rs, ReservationSince(StartOfDay(c)))|
    ensures s.todayOrders <= s.monthOrders <= s.totalOrders
    ensures s.todayReservations <= s.totalReservations
    ensures s.totalRevenue == Revenue(os, IsPaid)
    ensures (forall i :: 0 <= i < |os| ==> os[i].paymentStatus != "Paid") ==>
              s.totalRevenue == 0 && s.todayRevenue == 0 && s.monthRevenue == 0
    ensures (forall i :: 0 <= i < |os| ==> os[i].totalAmount >= 0) ==>
              0 <= s.todayRevenue <= s.monthRevenue <= s.totalRevenue
  {
    var today := StartOfDay(c);
    var month := StartOfMonth(c);
    FilterMonotone(os, OrderSince(today), OrderSince(month));
    FilterMonotone(os, OrderSince(month), (o: Order) => true);
    FilterAll(os, (o: Order) => true);
    FilterMonotone(rs, ReservationSince(today), (r: Reservation) => true);
    FilterAll(rs, (r: Reservation) => true);
    NoPaidNoRevenue(os, today);
    NoPaidNoRevenue(os, month);
    RevenueNests(os, month, today);
    Summary(|os|, |Filter(os, OrderSince(today))|, |Filter(os, OrderSince(month))|,
            Revenue(os, IsPaid), Revenue(os, PaidSince(today)), Revenue(os, PaidSince(month)),
            |rs|, |Filter(rs, ReservationSince(today))|)
  }

  lemma NoPaidNoRevenue(os: seq<Order>, t: Time)
    ensures (forall i :: 0 <= i < |os| ==> os[i].paymentStatus != "Paid") ==>
              Revenue(os, IsPaid) == 0 && Revenue(os, PaidSince(t)) == 0
  {
    if forall i :: 0 <= i < |os| ==> os[i].paymentStatus != "Paid" {
      FilterNone(os, IsPaid);
      FilterNone(os, PaidSince(t));
    }
  }

  /** Paid revenue over nested windows nests, when no amount is negative. */
  lemma RevenueNests(os: seq<Order>, month: Time, today: Time)
    requires month <= today
    ensures (forall i :: 0 <= i < |os| ==> os[i].totalAmount >= 0) ==>
              0 <= Revenue(os, PaidSince(today)) <= Revenue(os, PaidSince(month)) <= Revenue(os, IsPaid)
  {
    if forall i :: 0 <= i < |os| ==> os[i].totalAmount >= 0 {
      FilterSumMonotone(os, PaidSince(today), PaidSince(month), Amount);
      FilterSumMonotone(os, PaidSince(month), IsPaid, Amount);
      var f := Filter(os, PaidSince(today));
      assert forall i :: 0 <= i < |f| ==> Amount(f[i]) >= 0 by {
        forall i | 0 <= i < |f| ensures Amount(f[i]) >= 0 {
          var j :| 0 <= j < |os| && os[j] == f[i];
        }
      }
      NonNegSum(Filter(os, PaidSince(today)), Amount);
    }
  }

  // -----------------------------------------------------------------------
  // Revenue by service type

  function TypeOf(o: Order): string {
    o.orderType
  }

  function OneOrder(o: Order): int {
    1
  }

  /** `x._id || "Unknown"`: a missing or empty type is reported as Unknown. */
  function TypeLabel(t: string): string {
    if t == "" then "Unknown" else t
  }

  datatype TypeRow = TypeRow(orderType: string, revenue: int, orders: int)

  function TypeRowOf(t: Tally<string>): TypeRow {
    TypeRow(TypeLabel(t.key), Column(0)(t), Column(1)(t))
  }

  function RowRevenue(r: TypeRow): int {
    r.revenue
  }

  function RowOrders(r: TypeRow): int {
    r.orders
  }

  function PaidOrders(os: seq<Order>): seq<Order> {
    Filter(os, IsPaid)
  }

  /** The accumulators: `$sum` of the total, `$sum: 1`. */
  function TypeVals(): seq<Order -> int> {
    [Amount, OneOrder]
  }

  /** `$group` by `orderType` over the Paid orders, `$sort` by revenue. */
  function TypeGroups(os: seq<Order>): seq<Tally<string>> {
    SortedGroups(PaidOrders(os), TypeOf, TypeVals(), 0)
  }

  /** A paid order type's row: its revenue and its order count. */
  function TypeRowFor(os: seq<Order>, t: string): TypeRow {
    TypeRow(TypeLabel(t), SumKey(PaidOrders(os), TypeOf, t, Amount), CountKey(PaidOrders(os), TypeOf, t))
  }

  lemma TypeRowFacts(os: seq<Order>, j: nat)
    requires j < |TypeGroups(os)|
    ensures TypeRowOf(TypeGroups(os)[j]) == TypeRowFor(os, TypeGroups(os)[j].key)
    ensures TypeRowOf(TypeGroups(os)[j]).orders >= 1
  {
    var paid := PaidOrders(os);
    var g := TypeGroups(os);
    RowFacts(paid, TypeOf, TypeVals(), g, j);
    assert TypeVals()[0] == Amount && TypeVals()[1] == OneOrder;
    SumKeyOnes(paid, TypeOf, g[j].key, OneOrder);
    CountKeyPositive(paid, TypeOf, g[j].key);
  }

  lemma TypeRowsAddUp(os: seq<Order>)
    ensures SumOf(Map(TypeGroups(os), TypeRowOf), RowRevenue) == Revenue(os, IsPaid)
    ensures SumOf(Map(TypeGroups(os), TypeRowOf), RowOrders) == |PaidOrders(os)|
  {
    var paid := PaidOrders(os);
    var g := TypeGroups(os);
    SortedGroupsColumn(paid, TypeOf, TypeVals(), 0, 0);
    SortedGroupsColumn(paid, TypeOf, TypeVals(), 0, 1);
    assert TypeVals()[0] == Amount && TypeVals()[1] == OneOrder;
    SumOfMap(g, TypeRowOf, Column(0), RowRevenue);
    SumOfMap(g, TypeRowOf, Column(1), RowOrders);
    SumOfOnes(paid, OneOrder);
  }

  lemma TypeRowsCover(os: seq<Order>, i: nat)
    requires i < |PaidOrders(os)|
    ensures TypeRowFor(os, PaidOrders(os)[i].orderType) in Map(TypeGroups(os), TypeRowOf)
  {
    var paid := PaidOrders(os);
    var g := TypeGroups(os);
    assert KeyListed(g, TypeOf(paid[i]));
    var j :| 0 <= j < |g| && g[j].key == paid[i].orderType;
    TypeRowFacts(os, j);
    assert Map(g, TypeRowOf)[j] == TypeRowOf(g[j]);
  }

  lemma TypeRowsOrdered(os: seq<Order>)
    ensures Descending(Map(TypeGroups(os), TypeRowOf), RowRevenue)
    ensures var rows := Map(TypeGroups(os), TypeRowOf);
            forall j, k :: 0 <= j < k < |rows| && rows[j].orderType == rows[k].orderType ==> rows[j].orderType == "Unknown"
  {
    var g := TypeGroups(os);
    var rows := Map(g, TypeRowOf);
    forall j, k | 0 <= j < k < |rows| ensures RowRevenue(rows[j]) >= RowRevenue(rows[k]) {
      assert Column(0)(g[j]) >= Column(0)(g[k]);
    }
    forall j, k | 0 <= j < k < |rows| && rows[j].orderType == rows[k].orderType
      ensures rows[j].orderType == "Unknown"
    {
      assert rows[j].orderType == TypeLabel(g[j].key) && rows[k].orderType == TypeLabel(g[k].key);
      assert g[j].key != g[k].key;
    }
  }

  /** Every row counts at least one Paid order. */
  lemma TypeRowsNonEmpty(os: seq<Order>)
    ensures forall j :: 0 <= j < |Map(TypeGroups(os), TypeRowOf)| ==> Map(TypeGroups(os), TypeRowOf)[j].orders >= 1
  {
    forall j | 0 <= j < |Map(TypeGroups(os), TypeRowOf)| ensures Map(TypeGroups(os), TypeRowOf)[j].orders >= 1 {
      TypeRowFacts(os, j);
    }
  }

  /** Every Paid order's type has its row. */
  lemma TypeRowsCoverAll(os: seq<Order>)
    ensures forall i :: 0 <= i < |PaidOrders(os)| ==> TypeRowFor(os, PaidOrders(os)[i].orderType) in Map(TypeGroups(os), TypeRowOf)
  {
    forall i | 0 <= i < |PaidOrders(os)| ensures TypeRowFor(os, PaidOrders(os)[i].orderType) in Map(TypeGroups(os), TypeRowOf) {
      TypeRowsCover(os, i);
    }
  }

  /** `getRevenueByType`: one row per order type among the Paid orders,
      highest revenue first; the rows add up to the Paid revenue and to the
      number of Paid orders, and each paid type's row holds its revenue and
      its count. Only the empty type, relabelled Unknown, can share a label. */
  function RevenueByType(os: seq<Order>): (rows: seq<TypeRow>)
    ensures Descending(rows, RowRevenue)
    ensures SumOf(rows, RowRevenue) == Revenue(os, IsPaid)
    ensures SumOf(rows, RowOrders) == |PaidOrders(os)|
    ensures forall j :: 0 <= j < |rows| ==> rows[j].orders >= 1
    ensures forall i :: 0 <= i < |PaidOrders(os)| ==> TypeRowFor(os, PaidOrders(os)[i].orderType) in rows
    ensures forall j, k :: 0 <= j < k < |rows| && rows[j].orderType == rows[k].orderType ==> rows[j].orderType == "Unknown"
  {
    TypeRowsAddUp(os);
    TypeRowsOrdered(os);
    TypeRowsNonEmpty(os);
    TypeRowsCoverAll(os);
    Map(TypeGroups(os), TypeRowOf)
  }

  // -----------------------------------------------------------------------
  // Reservation trends and table turnover

  /** `$dateToString` of `createdAt`: the UTC day, as a day number. */
  function DayOf(r: Reservation): int {
    r.createdAt / DayMs
  }

  function OneReservation(r: Reservation): int {
    1
  }

  function IsConfirmed(r: Reservation): int {
    if r.status == "Confirmed" then 1 else 0
  }

  function IsWaiting(r: Reservation): int {
    if r.status == "Waiting" then 1 else 0
  }

  function IsCancelled(r: Reservation): int {
    if r.status == "Cancelled" then 1 else 0
  }

  datatype TrendRow = TrendRow(day: int, total: int, confirmed: int, waiting: int, cancelled: int)

  function TrendRowOf(t: Tally<int>): TrendRow {
    TrendRow(t.key, Column(0)(t), Column(1)(t), Column(2)(t), Column(3)(t))
  }

  function TrendTotal(r: TrendRow): int {
    r.total
  }

  function TrendVals(): seq<Reservation -> int> {
    [OneReservation, IsConfirmed, IsWaiting, IsCancelled]
  }

  /** The reservations created since the start of the trend window. */
  function Recent(rs: seq<Reservation>, c: Clock): seq<Reservation> {
    Filter(rs, ReservationSince(TrendStart(c)))
  }

  function TrendGroups(rs: seq<Reservation>, c: Clock): seq<Tally<int>> {
    GroupsByKey(Recent(rs, c), DayOf, TrendVals())
  }

  lemma DivMonotone(a: int, b: int)
    requires a <= b
    ensures a / DayMs <= b / DayMs
  {
  }

  /** The counts a day's row should hold: the reservations of that day and,
      by status, the Confirmed, Waiting and Cancelled ones among them. */
  ghost predicate DayCounted(recent: seq<Reservation>, row: TrendRow) {
    row.total == CountKey(recent, DayOf, row.day)
    && row.confirmed == SumKey(recent, DayOf, row.day, IsConfirmed)
    && row.waiting == SumKey(recent, DayOf, row.day, IsWaiting)
    && row.cancelled == SumKey(recent, DayOf, row.day, IsCancelled)
  }

  /** A genuine day row holds that day's counts: at least one reservation,
      and no more by status than in all. */
  lemma StatusCountsBounded(recent: seq<Reservation>, g: seq<Tally<int>>, j: nat)
    requires Genuine(recent, DayOf, TrendVals(), g) && j < |g|
    ensures var row := TrendRowOf(g[j]);
            row.day == g[j].key && DayCounted(recent, row)
            && row.total >= 1 && row.confirmed + row.waiting + row.cancelled <= row.total
  {
    var k := g[j].key;
    RowFacts(recent, DayOf, TrendVals(), g, j);
    assert TrendVals()[0] == OneReservation && TrendVals()[1] == IsConfirmed;
    assert TrendVals()[2] == IsWaiting && TrendVals()[3] == IsCancelled;
    SumKeyOnes(recent, DayOf, k, OneReservation);
    GroupAtLeastOne(recent, DayOf, k, OneReservation);
    SumKeyBound(recent, DayOf, k, IsConfirmed, IsWaiting, IsCancelled, OneReservation);
  }

  /** Each trend row holds its day's counts over the window. */
  lemma TrendRowCounts(rs: seq<Reservation>, c: Clock, j: nat)
    requires j < |TrendGroups(rs, c)|
    ensures var row := TrendRowOf(TrendGroups(rs, c)[j]);
            DayCounted(Recent(rs, c), row)
            && row.total >= 1 && row.confirmed + row.waiting + row.cancelled <= row.total
  {
    StatusCountsBounded(Recent(rs, c), TrendGroups(rs, c), j);
  }

  /** Every reservation in the window has its day's row. */
  lemma TrendCoversWindow(rs: seq<Reservation>, c: Clock, i: nat)
    requires i < |Recent(rs, c)|
    ensures exists j :: 0 <= j < |TrendGroups(rs, c)| && TrendRowOf(TrendGroups(rs, c)[j]).day == DayOf(Recent(rs, c)[i])
  {
    var g := TrendGroups(rs, c);
    assert KeyListed(g, DayOf(Recent(rs, c)[i]));
    var j :| 0 <= j < |g| && g[j].key == DayOf(Recent(rs, c)[i]);
    assert TrendRowOf(g[j]).day == g[j].key;
  }

  lemma TrendRowDay(rs: seq<Reservation>, c: Clock, j: nat)
    requires j < |TrendGroups(rs, c)|
    ensures TrendGroups(rs, c)[j].key >= TrendStart(c) / DayMs
  {
    var recent := Recent(rs, c);
    var g := TrendGroups(rs, c);
    RowFacts(recent, DayOf, TrendVals(), g, j);
    var i :| 0 <= i < |recent| && DayOf(recent[i]) == g[j].key;
    assert ReservationSince(TrendStart(c))(recent[i]);
    DivMonotone(TrendStart(c), recent[i].createdAt);
  }

  lemma TrendAddsUp(rs: seq<Reservation>, c: Clock)
    ensures SumOf(Map(TrendGroups(rs, c), TrendRowOf), TrendTotal) == |Recent(rs, c)|
  {
    var recent := Recent(rs, c);
    GroupsByKeyColumn(recent, DayOf, TrendVals(), 0);
    assert TrendVals()[0] == OneReservation;
    SumOfMap(TrendGroups(rs, c), TrendRowOf, Column(0), TrendTotal);
    SumOfOnes(recent, OneReservation);
  }

  /** `last7Days`: per UTC day of the reservations created since the window
      start, the total and the Confirmed, Waiting and Cancelled counts, one
      row for every such day, in strictly ascending day order; the totals
      add up to the reservations in the window. */
  function Trend(rs: seq<Reservation>, c: Clock): (rows: seq<TrendRow>)
    ensures forall j, k :: 0 <= j < k < |rows| ==> rows[j].day < rows[k].day
    ensures forall j :: 0 <= j < |rows| ==>
              DayCounted(Recent(rs, c), rows[j]) && rows[j].total >= 1
              && rows[j].confirmed + rows[j].waiting + rows[j].cancelled <= rows[j].total
    ensures forall i :: 0 <= i < |Recent(rs, c)| ==>
              exists j :: 0 <= j < |rows| && rows[j].day == DayOf(Recent(rs, c)[i])
    ensures forall j :: 0 <= j < |rows| ==> rows[j].day >= TrendStart(c) / DayMs
    ensures SumOf(rows, TrendTotal) == |Recent(rs, c)|
  {
    var rows := Map(TrendGroups(rs, c), TrendRowOf);
    TrendAddsUp(rs, c);
    forall j | 0 <= j < |rows|
      ensures DayCounted(Recent(rs, c), rows[j]) && rows[j].total >= 1
              && rows[j].confirmed + rows[j].waiting + rows[j].cancelled <= rows[j].total
      ensures rows[j].day >= TrendStart(c) / DayMs
    {
      TrendRowCounts(rs, c, j);
      TrendRowDay(rs, c, j);
    }
    forall i | 0 <= i < |Recent(rs, c)|
      ensures exists j :: 0 <= j < |rows| && rows[j].day == DayOf(Recent(rs, c)[i])
    {
      TrendCoversWindow(rs, c, i);
    }
    rows
  }

  function TableOf(r: Reservation): int {
    r.tableNo.GetOr(0)
  }

  function IsSeated(r: Reservation): bool {
    r.status == "Confirmed" && r.tableNo.Some?
  }

  datatype TableRow = TableRow(tableNo: int, confirmedReservations: int)

  function TableRowOf(t: Tally<int>): TableRow {
    TableRow(t.key, Column(0)(t))
  }

  function TableCount(r: TableRow): int {
    r.confirmedReservations
  }

  function Seated(rs: seq<Reservation>): seq<Reservation> {
    Filter(rs, IsSeated)
  }

  function TableVals(): seq<Reservation -> int> {
    [OneReservation]
  }

  function TableGroups(rs: seq<Reservation>): (g: seq<Tally<int>>)
    ensures |g| == if 10 < |DistinctKeys(Seated(rs), TableOf)| then 10 else |DistinctKeys(Seated(rs), TableOf)|
  {
    TopGroups(Seated(rs), TableOf, TableVals(), 0, 10)
  }

  lemma TableRowFacts(rs: seq<Reservation>, j: nat)
    requires j < |TableGroups(rs)|
    ensures TableRowOf(TableGroups(rs)[j]).confirmedReservations == CountKey(Seated(rs), TableOf, TableGroups(rs)[j].key)
    ensures TableRowOf(TableGroups(rs)[j]).confirmedReservations >= 1
  {
    var g := TableGroups(rs);
    RowFacts(Seated(rs), TableOf, TableVals(), g, j);
    assert TableVals()[0] == OneReservation;
    SumKeyOnes(Seated(rs), TableOf, g[j].key, OneReservation);
    CountKeyPositive(Seated(rs), TableOf, g[j].key);
  }

  /** `topTablesByTurnover`: the Confirmed reservations that hold a table,
      counted per table, most first, at most ten tables. */
  function Turnover(rs: seq<Reservation>): (rows: seq<TableRow>)
    ensures |rows| == if 10 < |DistinctKeys(Seated(rs), TableOf)| then 10 else |DistinctKeys(Seated(rs), TableOf)|
    ensures Descending(rows, TableCount)
    ensures forall j :: 0 <= j < |rows| ==>
              rows[j].confirmedReservations == CountKey(Seated(rs), TableOf, rows[j].tableNo)
              && rows[j].confirmedReservations >= 1
    ensures forall j, k :: 0 <= j < k < |rows| ==> rows[j].tableNo != rows[k].tableNo
  {
    var g := TableGroups(rs);
    var rows := Map(g, TableRowOf);
    assert |rows| == |g|;
    forall j | 0 <= j < |rows|
      ensures rows[j].confirmedReservations == CountKey(Seated(rs), TableOf, rows[j].tableNo)
      ensures rows[j].confirmedReservations >= 1
    {
      TableRowFacts(rs, j);
    }
    forall j, k | 0 <= j < k < |rows| ensures TableCount(rows[j]) >= TableCount(rows[k]) {
      assert Column(0)(g[j]) >= Column(0)(g[k]);
    }
    rows
  }

  /** A table left out is left out because ten tables are listed, each
      with no fewer Confirmed reservations than it. */
  lemma TurnoverKeepsBusiest(rs: seq<Reservation>, x: nat)
    requires x < |Seated(rs)|
    requires forall j :: 0 <= j < |Turnover(rs)| ==> Turnover(rs)[j].tableNo != TableOf(Seated(rs)[x])
    ensures |Turnover(rs)| == 10
    ensures forall j :: 0 <= j < |Turnover(rs)| ==>
              Turnover(rs)[j].confirmedReservations >= CountKey(Seated(rs), TableOf, TableOf(Seated(rs)[x]))
  {
    var seated := Seated(rs);
    var g := TableGroups(rs);
    var k := TableOf(seated[x]);
    MissingTableUnlisted(Turnover(rs), g, k);
    TopGroupsCut(seated, TableOf, TableVals(), 0, 10, x);
    assert TableVals()[0] == OneReservation;
    SumKeyOnes(seated, TableOf, k, OneReservation);
    RowsFollowGroups(Turnover(rs), g, CountKey(seated, TableOf, k));
  }

  /** A table no row names has no group. */
  lemma MissingTableUnlisted(rows: seq<TableRow>, g: seq<Tally<int>>, k: int)
    requires rows == Map(g, TableRowOf)
    requires forall j :: 0 <= j < |rows| ==> rows[j].tableNo != k
    ensures !KeyListed(g, k)
  {
    forall j | 0 <= j < |g| ensures g[j].key != k {
      assert rows[j].tableNo == g[j].key;
    }
  }

  /** A bound on every group's count is a bound on every row's. */
  lemma RowsFollowGroups(rows: seq<TableRow>, g: seq<Tally<int>>, lo: int)
    requires rows == Map(g, TableRowOf)
    requires forall j :: 0 <= j < |g| ==> |g[j].sums| > 0 && g[j].sums[0] >= lo
    ensures forall j :: 0 <= j < |rows| ==> rows[j].confirmedReservations >= lo
  {
    forall j | 0 <= j < |rows| ensures rows[j].confirmedReservations >= lo {
      assert rows[j] == TableRowOf(g[j]);
    }
  }

  // -----------------------------------------------------------------------
  // Top items

  function ItemCount(o: Order): int {
    |o.items|
  }

  /** Some order of `os` has the line `it`. */
  ghost predicate LineOf(os: seq<Order>, it: OrderItem) {
    exists i :: 0 <= i < |os| && it in os[i].items
  }

  /** `$unwind: "$items"`: every line of every order, in order, and nothing
      else: one document per line. */
  function Lines(os: seq<Order>): (r: seq<OrderItem>)
    ensures |r| == SumOf(os, ItemCount)
    ensures forall i, k :: 0 <= i < |os| && 0 <= k < |os[i].items| ==> os[i].items[k] in r
    ensures forall x :: 0 <= x < |r| ==> LineOf(os, r[x])
  {
    if |os| == 0 then []
    else
      var rest := Lines(os[1..]);
      assert forall i :: 1 <= i < |os| ==> os[i] == os[1..][i - 1];
      var r := os[0].items + rest;
      forall x | 0 <= x < |r| ensures LineOf(os, r[x]) {
        if x >= |os[0].items| {
          assert r[x] == rest[x - |os[0].items|];
          var i :| 0 <= i < |os[1..]| && r[x] in os[1..][i].items;
          assert os[1..][i] == os[i + 1];
        } else {
          assert r[x] in os[0].items;
        }
      }
      assert |r| == SumOf(os, ItemCount);
      r
  }

  /** Unwinding one order gives its lines, in order. */
  lemma LinesOfOne(o: Order)
    ensures Lines([o]) == o.items
  {
    assert [o][1..] == [];
  }

  /** Unwinding two runs of orders one after the other is unwinding each:
      together with `LinesOfOne`, every line occurs exactly as often, and in
      the same place, as it does in the orders. */
  lemma {:induction false} LinesConcat(a: seq<Order>, b: seq<Order>)
    ensures Lines(a + b) == Lines(a) + Lines(b)
    decreases |a|
  {
    if |a| == 0 {
      assert a + b == b;
    } else {
      assert (a + b)[0] == a[0] && (a + b)[1..] == a[1..] + b;
      LinesConcat(a[1..], b);
    }
  }

  /** How often an order holds the line `it`. */
  function CopiesOf(it: OrderItem): Order -> int {
    (o: Order) => multiset(o.items)[it]
  }

  /** Each line occurs in the unwound lines as often as in all the orders. */
  lemma {:induction false} LinesCount(os: seq<Order>, it: OrderItem)
    ensures multiset(Lines(os))[it] == SumOf(os, CopiesOf(it))
    decreases |os|
  {
    if |os| > 0 {
      LinesCount(os[1..], it);
      assert Lines(os) == os[0].items + Lines(os[1..]);
    }
  }

  function ItemName(it: OrderItem): string {
    it.name
  }

  function Quantity(it: OrderItem): int {
    it.quantity
  }

  function LineRevenue(it: OrderItem): int {
    it.price * it.quantity
  }

  datatype ItemRow = ItemRow(itemName: string, quantitySold: int, revenue: int)

  function ItemRowOf(t: Tally<string>): ItemRow {
    ItemRow(t.key, Column(0)(t), Column(1)(t))
  }

  function Sold(r: ItemRow): int {
    r.quantitySold
  }

  function ItemVals(): seq<OrderItem -> int> {
    [Quantity, LineRevenue]
  }

  function ItemGroups(lines: seq<OrderItem>): (g: seq<Tally<string>>)
    ensures |g| == if 10 < |DistinctKeys(lines, ItemName)| then 10 else |DistinctKeys(lines, ItemName)|
  {
    TopGroups(lines, ItemName, ItemVals(), 0, 10)
  }

  lemma ItemRowFacts(lines: seq<OrderItem>, j: nat)
    requires j < |ItemGroups(lines)|
    ensures var t := ItemGroups(lines)[j];
            ItemRowOf(t) == ItemRow(t.key, SumKey(lines, ItemName, t.key, Quantity),
                                    SumKey(lines, ItemName, t.key, LineRevenue))
  {
    RowFacts(lines, ItemName, ItemVals(), ItemGroups(lines), j);
    assert ItemVals()[0] == Quantity && ItemVals()[1] == LineRevenue;
  }

  /** The `$group`, `$sort` and `$limit` stages over the unwound lines. */
  function ItemRows(lines: seq<OrderItem>): (rows: seq<ItemRow>)
    ensures |rows| == if 10 < |DistinctKeys(lines, ItemName)| then 10 else |DistinctKeys(lines, ItemName)|
    ensures Descending(rows, Sold)
    ensures forall j :: 0 <= j < |rows| ==>
              rows[j].quantitySold == SumKey(lines, ItemName, rows[j].itemName, Quantity)
              && rows[j].revenue == SumKey(lines, ItemName, rows[j].itemName, LineRevenue)
    ensures forall j, k :: 0 <= j < k < |rows| ==> rows[j].itemName != rows[k].itemName
  {
    var g := ItemGroups(lines);
    var rows := Map(g, ItemRowOf);
    forall j | 0 <= j < |rows|
      ensures rows[j].quantitySold == SumKey(lines, ItemName, rows[j].itemName, Quantity)
      ensures rows[j].revenue == SumKey(lines, ItemName, rows[j].itemName, LineRevenue)
    {
      ItemRowFacts(lines, j);
    }
    forall j, k | 0 <= j < k < |rows| ensures Sold(rows[j]) >= Sold(rows[k]) {
      assert Column(0)(g[j]) >= Column(0)(g[k]);
    }
    rows
  }

  /** A line whose item has no row: ten rows are kept, each selling at
      least as much. */
  lemma ItemRowsKeepBestSellers(lines: seq<OrderItem>, x: nat)
    requires x < |lines|
    requires forall j :: 0 <= j < |ItemRows(lines)| ==> ItemRows(lines)[j].itemName != lines[x].name
    ensures |ItemRows(lines)| == 10
    ensures forall j :: 0 <= j < |ItemRows(lines)| ==>
              ItemRows(lines)[j].quantitySold >= SumKey(lines, ItemName, lines[x].name, Quantity)
  {
    var g := ItemGroups(lines);
    var k := ItemName(lines[x]);
    MissingItemUnlisted(ItemRows(lines), g, k);
    TopGroupsCut(lines, ItemName, ItemVals(), 0, 10, x);
    assert ItemVals()[0] == Quantity;
    ItemRowsFollowGroups(ItemRows(lines), g, SumKey(lines, ItemName, k, Quantity));
  }

  /** `getTopItems`: per item name over all order lines, the quantity sold
      and the sum of price times quantity, most sold first, ten rows or one
      per item name when there are fewer. */
  function TopItems(os: seq<Order>): (rows: seq<ItemRow>)
    ensures |rows| == if 10 < |DistinctKeys(Lines(os), ItemName)| then 10 else |DistinctKeys(Lines(os), ItemName)|
    ensures Descending(rows, Sold)
    ensures forall j :: 0 <= j < |rows| ==>
              rows[j].quantitySold == SumKey(Lines(os), ItemName, rows[j].itemName, Quantity)
              && rows[j].revenue == SumKey(Lines(os), ItemName, rows[j].itemName, LineRevenue)
    ensures forall j, k :: 0 <= j < k < |rows| ==> rows[j].itemName != rows[k].itemName
  {
    ItemRows(Lines(os))
  }

  /** An item left out is left out because ten items are listed, each
      sold no less than it. */
  lemma TopItemsKeepBestSellers(os: seq<Order>, x: nat)
    requires x < |Lines(os)|
    requires forall j :: 0 <= j < |TopItems(os)| ==> TopItems(os)[j].itemName != Lines(os)[x].name
    ensures |TopItems(os)| == 10
    ensures forall j :: 0 <= j < |TopItems(os)| ==>
              TopItems(os)[j].quantitySold >= SumKey(Lines(os), ItemName, Lines(os)[x].name, Quantity)
  {
    var lines := Lines(os);
    assert TopItems(os) == ItemRows(lines);
    ItemRowsKeepBestSellers(lines, x);
  }

  /** An item no row names has no group. */
  lemma MissingItemUnlisted(rows: seq<ItemRow>, g: seq<Tally<string>>, k: string)
    requires rows == Map(g, ItemRowOf)
    requires forall j :: 0 <= j < |rows| ==> rows[j].itemName != k
    ensures !KeyListed(g, k)
  {
    forall j | 0 <= j < |g| ensures g[j].key != k {
      assert rows[j].itemName == g[j].key;
    }
  }

  /** A bound on every group's quantity is a bound on every row's. */
  lemma ItemRowsFollowGroups(rows: seq<ItemRow>, g: seq<Tally<string>>, lo: int)
    requires rows == Map(g, ItemRowOf)
    requires forall j :: 0 <= j < |g| ==> |g[j].sums| > 0 && g[j].sums[0] >= lo
    ensures forall j :: 0 <= j < |rows| ==> rows[j].quantitySold >= lo
  {
    forall j | 0 <= j < |rows| ensures rows[j].quantitySold >= lo {
      assert rows[j] == ItemRowOf(g[j]);
    }
  }

  // -----------------------------------------------------------------------
  // Customer satisfaction

  function Rating(r: Review): int {
    r.rating
  }

  function OneReview(r: Review): int {
    1
  }

  function RatingVals(): seq<Review -> int> {
    [OneReview]
  }

  function RatingGroups(rs: seq<Review>): seq<Tally<int>> {
    GroupBy(rs, Rating, RatingVals())
  }

  /** Some review has rating `k`. */
  ghost predicate Rated(rs: seq<Review>, k: int) {
    exists i :: 0 <= i < |rs| && rs[i].rating == k
  }

  /** The breakdown's keys: 1 to 5, and any other rating that occurs. */
  ghost predicate BreakdownKey(rs: seq<Review>, k: int) {
    (1 <= k <= 5) || Rated(rs, k)
  }

  lemma RatingGroupFacts(rs: seq<Review>, j: nat)
    requires j < |RatingGroups(rs)|
    ensures |RatingGroups(rs)[j].sums| == 1
    ensures RatingGroups(rs)[j].sums[0] == CountKey(rs, Rating, RatingGroups(rs)[j].key)
  {
    RowFacts(rs, Rating, RatingVals(), RatingGroups(rs), j);
    assert RatingVals()[0] == OneReview;
    SumKeyOnes(rs, Rating, RatingGroups(rs)[j].key, OneReview);
  }

  /** A rating has a group exactly when some review has it. */
  lemma RatingListedIffRated(rs: seq<Review>, k: int)
    ensures KeyListed(RatingGroups(rs), k) <==> Rated(rs, k)
  {
    var g := RatingGroups(rs);
    if KeyListed(g, k) {
      var j :| 0 <= j < |g| && g[j].key == k;
      RowFacts(rs, Rating, RatingVals(), g, j);
    }
    if Rated(rs, k) {
      var i :| 0 <= i < |rs| && rs[i].rating == k;
      assert KeyListed(g, Rating(rs[i]));
    }
  }

  lemma UnratedCountsZero(rs: seq<Review>, k: int)
    requires !Rated(rs, k)
    ensures CountKey(rs, Rating, k) == 0
  {
    CountKeyAbsent(rs, Rating, k);
  }

  lemma ListedPrefix<K>(r: seq<Tally<K>>, i: nat, k: K)
    requires i < |r|
    ensures KeyListed(r[..i + 1], k) <==> KeyListed(r[..i], k) || k == r[i].key
  {
    if KeyListed(r[..i + 1], k) {
      var j :| 0 <= j < i + 1 && r[..i + 1][j].key == k;
      if j < i { assert r[..i][j].key == k; }
    }
    if KeyListed(r[..i], k) {
      var j :| 0 <= j < i && r[..i][j].key == k;
      assert r[..i + 1][j].key == k;
    }
    if k == r[i].key { assert r[..i + 1][i].key == k; }
  }

  /** After the first `i` groups of `agg`: the keys are 1 to 5 and the
      ratings seen, a rating seen holds its count and the others hold 0. */
  ghost predicate BreakdownSoFar(rs: seq<Review>, agg: seq<Tally<int>>, m: map<int, int>, i: nat)
    requires i <= |agg|
  {
    (forall k :: k in m <==> (1 <= k <= 5) || KeyListed(agg[..i], k))
    && forall k :: k in m ==> m[k] == if KeyListed(agg[..i], k) then CountKey(rs, Rating, k) else 0
  }

  lemma BreakdownStart(rs: seq<Review>, agg: seq<Tally<int>>)
    ensures BreakdownSoFar(rs, agg, map[1 := 0, 2 := 0, 3 := 0, 4 := 0, 5 := 0], 0)
  {
    assert agg[..0] == [];
    forall k ensures !KeyListed(agg[..0], k) {
    }
  }

  /** Writing the count of group `i` over the breakdown extends it to `i + 1` groups. */
  lemma BreakdownStep(rs: seq<Review>, agg: seq<Tally<int>>, m: map<int, int>, i: nat)
    requires i < |agg| && BreakdownSoFar(rs, agg, m, i)
    requires |agg[i].sums| > 0 && agg[i].sums[0] == CountKey(rs, Rating, agg[i].key)
    ensures BreakdownSoFar(rs, agg, m[agg[i].key := agg[i].sums[0]], i + 1)
  {
    var g := agg[i].key;
    var m' := m[g := agg[i].sums[0]];
    forall k ensures k in m' <==> (1 <= k <= 5) || KeyListed(agg[..i + 1], k) {
      ListedPrefix(agg, i, k);
    }
    forall k | k in m'
      ensures m'[k] == if KeyListed(agg[..i + 1], k) then CountKey(rs, Rating, k) else 0
    {
      ListedPrefix(agg, i, k);
      if k != g {
        assert m'[k] == m[k];
      }
    }
  }

  lemma BreakdownDone(rs: seq<Review>, m: map<int, int>)
    requires BreakdownSoFar(rs, RatingGroups(rs), m, |RatingGroups(rs)|)
    ensures forall k :: k in m <==> BreakdownKey(rs, k)
    ensures forall k :: k in m ==> m[k] == CountKey(rs, Rating, k)
  {
    var agg := RatingGroups(rs);
    assert agg[..|agg|] == agg;
    forall k ensures k in m <==> BreakdownKey(rs, k) {
      RatingListedIffRated(rs, k);
    }
    forall k | k in m ensures m[k] == CountKey(rs, Rating, k) {
      RatingListedIffRated(rs, k);
      if !Rated(rs, k) {
        UnratedCountsZero(rs, k);
      }
    }
  }

  /** `ratingBreakdown`: starts from 0 for each of 1 to 5, then writes the
      count of every rating group over it. */
  method RatingBreakdown(rs: seq<Review>) returns (m: map<int, int>)
    ensures forall k :: k in m <==> BreakdownKey(rs, k)
    ensures forall k :: k in m ==> m[k] == CountKey(rs, Rating, k)
  {
    var agg := RatingGroups(rs);
    forall j | 0 <= j < |agg| ensures |agg[j].sums| > 0 && agg[j].sums[0] == CountKey(rs, Rating, agg[j].key) {
      RatingGroupFacts(rs, j);
    }
    m := WriteCounts(rs, agg);
    BreakdownDone(rs, m);
  }

  /** The loop of `ratingBreakdown`: from 0 for each of 1 to 5, the count
      of each group in turn is written under its rating. */
  method WriteCounts(rs: seq<Review>, agg: seq<Tally<int>>) returns (m: map<int, int>)
    requires forall j :: 0 <= j < |agg| ==> |agg[j].sums| > 0 && agg[j].sums[0] == CountKey(rs, Rating, agg[j].key)
    ensures BreakdownSoFar(rs, agg, m, |agg|)
  {
    m := map[1 := 0, 2 := 0, 3 := 0, 4 := 0, 5 := 0];
    BreakdownStart(rs, agg);
    var i := 0;
    while i < |agg|
      invariant 0 <= i <= |agg|
      invariant BreakdownSoFar(rs, agg, m, i)
    {
      BreakdownStep(rs, agg, m, i);
      m := m[agg[i].key := agg[i].sums[0]];
      i := i + 1;
    }
  }

  /** `getCustomerSatisfaction`: the rating total and count (their ratio is
      `averageRating`; 0 without reviews), and the breakdown. */
  datatype Satisfaction = Satisfaction(ratingSum: int, totalReviews: nat, ratingBreakdown: map<int, int>)

  method CustomerSatisfaction(rs: seq<Review>) returns (s: Satisfaction)
    ensures s.totalReviews == |rs| && s.ratingSum == SumOf(rs, Rating)
    ensures forall k :: k in s.ratingBreakdown <==> BreakdownKey(rs, k)
    ensures forall k :: k in s.ratingBreakdown ==> s.ratingBreakdown[k] == CountKey(rs, Rating, k)
  {
    var breakdown := RatingBreakdown(rs);
    s := Satisfaction(SumOf(rs, Rating), |rs|, breakdown);
  }

  /** With the schema's rating bounds the average lies between 1 and 5. */
  lemma {:induction false} AverageWithinBounds(rs: seq<Review>)
    requires forall i :: 0 <= i < |rs| ==> 1 <= rs[i].rating <= 5
    ensures |rs| <= SumOf(rs, Rating) <= 5 * |rs|
    decreases |rs|
  {
    if |rs| > 0 {
      assert forall i :: 0 <= i < |rs| - 1 ==> rs[1..][i] == rs[i + 1];
      AverageWithinBounds(rs[1..]);
    }
  }

  /** With the schema's rating bounds the breakdown has exactly the keys 1
      to 5. */
  lemma BreakdownKeysFixed(rs: seq<Review>)
    requires forall i :: 0 <= i < |rs| ==> 1 <= rs[i].rating <= 5
    ensures forall k :: BreakdownKey(rs, k) <==> 1 <= k <= 5
  {
  }

  /** With the schema's rating bounds the five counts of the breakdown add
      up to the number of reviews. */
  lemma {:induction false} BreakdownCountsAll(rs: seq<Review>)
    requires forall i :: 0 <= i < |rs| ==> 1 <= rs[i].rating <= 5
    ensures CountKey(rs, Rating, 1) + CountKey(rs, Rating, 2) + CountKey(rs, Rating, 3)
            + CountKey(rs, Rating, 4) + CountKey(rs, Rating, 5) == |rs|
    decreases |rs|
  {
    if |rs| > 0 {
      var tail := rs[1..];
      assert forall i :: 0 <= i < |tail| ==> tail[i] == rs[i + 1];
      BreakdownCountsAll(tail);
      assert 1 <= Rating(rs[0]) <= 5;
    }
  }

  // -----------------------------------------------------------------------
  // Delivery performance

  function IsCompletedDelivery(o: Order): bool {
    o.orderType == "Delivery" && o.status == "Completed"
  }

  /** `updatedAt - createdAt` in milliseconds. */
  function Duration(o: Order): int {
    o.updatedAt - o.createdAt
  }

  function MinDuration(s: seq<Order>): (m: int)
    requires |s| > 0
    ensures forall i :: 0 <= i < |s| ==> m <= Duration(s[i])
    ensures exists i :: 0 <= i < |s| && Duration(s[i]) == m
  {
    if |s| == 1 then Duration(s[0])
    else
      var rest := MinDuration(s[1..]);
      assert forall i :: 1 <= i < |s| ==> s[i] == s[1..][i - 1];
      if Duration(s[0]) <= rest then Duration(s[0]) else rest
  }

  function MaxDuration(s: seq<Order>): (m: int)
    requires |s| > 0
    ensures forall i :: 0 <= i < |s| ==> Duration(s[i]) <= m
    ensures exists i :: 0 <= i < |s| && Duration(s[i]) == m
  {
    if |s| == 1 then Duration(s[0])
    else
      var rest := MaxDuration(s[1..]);
      assert forall i :: 1 <= i < |s| ==> s[i] == s[1..][i - 1];
      if Duration(s[0]) >= rest then Duration(s[0]) else rest
  }

  /** The delivery report: the count of completed deliveries, the total of
      their durations (the average is its ratio to the count), the shortest
      and the longest. */
  datatype DeliveryStats = DeliveryStats(completedDeliveries: nat, totalMs: int, minMs: int, maxMs: int)

  /** `getDeliveryPerformance`: over the Completed Delivery orders only; all
      zero when there is none. */
  function DeliveryPerformance(os: seq<Order>): (d: DeliveryStats)
    ensures d.completedDeliveries == |Filter(os, IsCompletedDelivery)|
    ensures d.totalMs == SumOf(Filter(os, IsCompletedDelivery), Duration)
    ensures d.completedDeliveries == 0 ==> d == DeliveryStats(0, 0, 0, 0)
    ensures d.completedDeliveries > 0 ==>
              var done := Filter(os, IsCompletedDelivery);
              d.minMs <= d.maxMs
              && (forall i :: 0 <= i < |done| ==> d.minMs <= Duration(done[i]) <= d.maxMs)
              && (exists i :: 0 <= i < |done| && Duration(done[i]) == d.minMs)
              && (exists i :: 0 <= i < |done| && Duration(done[i]) == d.maxMs)
  {
    var done := Filter(os, IsCompletedDelivery);
    if |done| == 0 then DeliveryStats(0, 0, 0, 0)
    else DeliveryStats(|done|, SumOf(done, Duration), MinDuration(done), MaxDuration(done))
  }

  /** Orders of another type or status never affect the report. */
  lemma OtherOrdersIgnored(os: seq<Order>, o: Order)
    requires !IsCompletedDelivery(o)
    ensures DeliveryPerformance(os + [o]) == DeliveryPerformance(os)
  {
    FilterAppendSkip(os, o, IsCompletedDelivery);
  }

  lemma {:induction false} FilterAppendSkip<T>(s: seq<T>, x: T, p: T -> bool)
    requires !p(x)
    ensures Filter(s + [x], p) == Filter(s, p)
    decreases |s|
  {
    if |s| > 0 {
      assert (s + [x])[1..] == s[1..] + [x];
      FilterAppendSkip(s[1..], x, p);
    } else {
      assert s + [x] == [x];
    }
  }
}
