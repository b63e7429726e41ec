/** `GET /api/analytics/summary`: collection counts, the revenue of the
    Payment ledger, and the order counts of the last seven days that have
    orders. `$substr` of a date reads its UTC ISO string, whose first ten
    characters name the UTC day; the model keys groups by the UTC day
    number, which orders exactly as those strings do. */
module Analytics {
  import opened Common
  import opened Models
  import opened Sorting
  import opened Grouping
  import opened Aggregation
  import Dashboard
  import PaymentRoutes

  // -----------------------------------------------------------------------
  // Revenue over the Payment ledger

  /** The `$in` list of statuses counted as paid. */
  const PaidStatuses: set<string> := {"Paid", "Success", "paid", "success"}

  function IsSettled(p: Payment): bool {
    p.status in PaidStatuses
  }

  function PaymentAmount(p: Payment): int {
    p.amount
  }

  /** `$sum` of `amount` over the settled payments; `|| 0` covers the empty match. */
  function LedgerRevenue(ps: seq<Payment>): int {
    SumOf(Filter(ps, IsSettled), PaymentAmount)
  }

  lemma {:induction false} SumOfAppend<T>(s: seq<T>, x: T, val: T -> int)
    ensures SumOf(s + [x], val) == SumOf(s, val) + val(x)
    decreases |s|
  {
    if |s| == 0 {
      assert s + [x] == [x];
    } else {
      assert (s + [x])[1..] == s[1..] + [x];
      SumOfAppend(s[1..], x, val);
    }
  }

  lemma {:induction false} FilterAppend<T>(s: seq<T>, x: T, p: T -> bool)
    ensures Filter(s + [x], p) == Filter(s, p) + (if p(x) then [x] else [])
    decreases |s|
  {
    if |s| == 0 {
      assert s + [x] == [x];
    } else {
      assert (s + [x])[1..] == s[1..] + [x];
      FilterAppend(s[1..], x, p);
    }
  }

  /** Appending a payment adds its amount to the revenue exactly when its
      status is one of the four paid spellings. */
  lemma RevenueOfAppended(ps: seq<Payment>, p: Payment)
    ensures LedgerRevenue(ps + [p]) == LedgerRevenue(ps) + (if p.status in PaidStatuses then p.amount else 0)
  {
    FilterAppend(ps, p, IsSettled);
    if IsSettled(p) {
      SumOfAppend(Filter(ps, IsSettled), p, PaymentAmount);
    } else {
      assert Filter(ps, IsSettled) + [] == Filter(ps, IsSettled);
    }
  }

  /** A payment verified through the payment routes adds its order's total
      to the revenue. */
  lemma VerifiedPaymentAddsTotal(ps: seq<Payment>, id: Id, o: Order, now: Time)
    ensures LedgerRevenue(ps + [PaymentRoutes.LedgerEntry(id, o, now)]) == LedgerRevenue(ps) + o.totalAmount
  {
    RevenueOfAppended(ps, PaymentRoutes.LedgerEntry(id, o, now));
  }

  /** With no settled payment the revenue is 0. */
  lemma {:induction false} NoSettledNoRevenue(ps: seq<Payment>)
    requires forall i :: 0 <= i < |ps| ==> ps[i].status !in PaidStatuses
    ensures LedgerRevenue(ps) == 0
    decreases |ps|
  {
    if |ps| > 0 {
      assert forall i :: 0 <= i < |ps| - 1 ==> ps[1..][i] == ps[i + 1];
      NoSettledNoRevenue(ps[1..]);
    }
  }

  // -----------------------------------------------------------------------
  // Orders per day

  /** The UTC day of an order's creation. */
  function OrderDay(o: Order): int {
    o.createdAt / Dashboard.DayMs
  }

  function OneOrder(o: Order): int {
    1
  }

  function DayVals(): seq<Order -> int> {
    [OneOrder]
  }

  /** `$group` by day with `count: {$sum: 1}`. */
  function DayGroups(os: seq<Order>): seq<Tally<int>> {
    GroupBy(os, OrderDay, DayVals())
  }

  /** `$sort: {_id: -1}` then `$limit: 7`: the seven latest days. */
  function LatestDays(os: seq<Order>): seq<Tally<int>> {
    Take(SortDesc(DayGroups(os), KeyOf), 7)
  }

  /** Then `$sort: {_id: 1}`. */
  function LatestDaysAscending(os: seq<Order>): seq<Tally<int>> {
    SortAsc(LatestDays(os), KeyOf)
  }

  datatype DayCount = DayCount(day: int, count: int)

  function DayCountOf(t: Tally<int>): DayCount {
    DayCount(t.key, Column(0)(t))
  }

  function DayCountValue(d: DayCount): int {
    d.count
  }

  lemma LatestDaysFacts(os: seq<Order>)
    ensures |LatestDays(os)| <= 7
    ensures |LatestDays(os)| == if 7 < |DistinctKeys(os, OrderDay)| then 7 else |DistinctKeys(os, OrderDay)|
    ensures Genuine(os, OrderDay, DayVals(), LatestDays(os)) && KeysDistinct(LatestDays(os))
    ensures LatestDays(os) == SortDesc(DayGroups(os), KeyOf)[..|LatestDays(os)|]
    ensures Descending(SortDesc(DayGroups(os), KeyOf), KeyOf)
    ensures Genuine(os, OrderDay, DayVals(), SortDesc(DayGroups(os), KeyOf))
    ensures KeysDistinct(SortDesc(DayGroups(os), KeyOf)) && Covers(os, OrderDay, SortDesc(DayGroups(os), KeyOf))
  {
    var g := DayGroups(os);
    var sorted := SortDesc(g, KeyOf);
    SortDescFacts(g, KeyOf);
    PermutedKeysDistinct(os, OrderDay, DayVals(), g, sorted);
    PermutedCovers(os, OrderDay, g, sorted);
    PrefixGroupRows(os, OrderDay, DayVals(), sorted, |LatestDays(os)|);
  }

  /** Re-sorting distinct group rows by ascending key keeps them genuine,
      makes the keys strictly ascending and keeps the same rows. */
  lemma ResortedAscending(os: seq<Order>, top: seq<Tally<int>>)
    requires Genuine(os, OrderDay, DayVals(), top) && KeysDistinct(top)
    ensures |SortAsc(top, KeyOf)| == |top|
    ensures Genuine(os, OrderDay, DayVals(), SortAsc(top, KeyOf))
    ensures forall i, j :: 0 <= i < j < |SortAsc(top, KeyOf)| ==> SortAsc(top, KeyOf)[i].key < SortAsc(top, KeyOf)[j].key
    ensures forall t :: t in SortAsc(top, KeyOf) <==> t in top
  {
    var r := SortAsc(top, KeyOf);
    SortAscFacts(top, KeyOf);
    PermutedKeysDistinct(os, OrderDay, DayVals(), top, r);
    StrictlyAscending(r);
    SameMembers(r, top);
  }

  lemma AscendingFacts(os: seq<Order>)
    ensures |LatestDaysAscending(os)| <= 7
    ensures |LatestDaysAscending(os)| == if 7 < |DistinctKeys(os, OrderDay)| then 7 else |DistinctKeys(os, OrderDay)|
    ensures Genuine(os, OrderDay, DayVals(), LatestDaysAscending(os))
    ensures forall i, j :: 0 <= i < j < |LatestDaysAscending(os)| ==>
              LatestDaysAscending(os)[i].key < LatestDaysAscending(os)[j].key
    ensures forall t :: t in LatestDaysAscending(os) <==> t in LatestDays(os)
  {
    LatestDaysFacts(os);
    ResortedAscending(os, LatestDays(os));
  }

  lemma DayCountFacts(os: seq<Order>, j: nat)
    requires j < |LatestDaysAscending(os)|
    ensures DayCountOf(LatestDaysAscending(os)[j]).count == CountKey(os, OrderDay, LatestDaysAscending(os)[j].key)
    ensures DayCountOf(LatestDaysAscending(os)[j]).count >= 1
  {
    var r := LatestDaysAscending(os);
    AscendingFacts(os);
    RowFacts(os, OrderDay, DayVals(), r, j);
    assert DayVals()[0] == OneOrder;
    SumKeyOnes(os, OrderDay, r[j].key, OneOrder);
    CountKeyPositive(os, OrderDay, r[j].key);
  }

  /** The kept counts add up to at most the number of orders. */
  lemma DayCountsAtMostOrders(os: seq<Order>)
    ensures SumOf(Map(LatestDaysAscending(os), DayCountOf), DayCountValue) <= |os|
  {
    var g := DayGroups(os);
    var sorted := SortDesc(g, KeyOf);
    var top := LatestDays(os);
    LatestDaysFacts(os);
    SumOfMap(LatestDaysAscending(os), DayCountOf, Column(0), DayCountValue);
    SortAscSum(top, KeyOf, Column(0));
    forall i | 0 <= i < |sorted| ensures Column(0)(sorted[i]) >= 0 {
      RowFacts(os, OrderDay, DayVals(), sorted, i);
      assert DayVals()[0] == OneOrder;
      NonNegSumKey(os, OrderDay, sorted[i].key, OneOrder);
    }
    PrefixSum(sorted, |top|, Column(0));
    SortAscSum(g, Negated(KeyOf), Column(0));
    GroupByColumn(os, OrderDay, DayVals(), 0);
    SumOfOnes(os, OneOrder);
  }

  /** `ordersPerDay`: at most seven days, in strictly ascending order, each
      with the number of orders created that day (never 0), together at
      most the number of orders. */
  function OrdersPerDay(os: seq<Order>): (rows: seq<DayCount>)
    ensures |rows| == if 7 < |DistinctKeys(os, OrderDay)| then 7 else |DistinctKeys(os, OrderDay)|
    ensures forall i, j :: 0 <= i < j < |rows| ==> rows[i].day < rows[j].day
    ensures forall j :: 0 <= j < |rows| ==> rows[j].count == CountKey(os, OrderDay, rows[j].day) && rows[j].count >= 1
    ensures SumOf(rows, DayCountValue) <= |os|
  {
    DayRowsLength(os);
    DayRowsAscending(os);
    DayCountsAtMostOrders(os);
    DayRowsCount(os);
    Map(LatestDaysAscending(os), DayCountOf)
  }

  lemma DayRowsLength(os: seq<Order>)
    ensures |Map(LatestDaysAscending(os), DayCountOf)| == if 7 < |DistinctKeys(os, OrderDay)| then 7 else |DistinctKeys(os, OrderDay)|
  {
    LatestDaysFacts(os);
    SortAscFacts(LatestDays(os), KeyOf);
  }

  lemma DayRowsAscending(os: seq<Order>)
    ensures var rows := Map(LatestDaysAscending(os), DayCountOf);
            forall i, j :: 0 <= i < j < |rows| ==> rows[i].day < rows[j].day
  {
    var r := LatestDaysAscending(os);
    var rows := Map(r, DayCountOf);
    AscendingFacts(os);
    forall i, j | 0 <= i < j < |rows| ensures rows[i].day < rows[j].day {
      assert rows[i].day == r[i].key && rows[j].day == r[j].key;
    }
  }

  lemma DayRowsCount(os: seq<Order>)
    ensures var rows := Map(LatestDaysAscending(os), DayCountOf);
            forall j :: 0 <= j < |rows| ==> rows[j].count == CountKey(os, OrderDay, rows[j].day) && rows[j].count >= 1
  {
    var rows := Map(LatestDaysAscending(os), DayCountOf);
    forall j | 0 <= j < |rows| ensures rows[j].count == CountKey(os, OrderDay, rows[j].day) && rows[j].count >= 1 {
      DayCountFacts(os, j);
    }
  }

  /** A day missing from the reply is missing from the seven kept. */
  lemma UnlistedNotKept(os: seq<Order>, d: int)
    requires forall j :: 0 <= j < |OrdersPerDay(os)| ==> OrdersPerDay(os)[j].day != d
    ensures forall i :: 0 <= i < |LatestDays(os)| ==> LatestDays(os)[i].key != d
  {
    var top := LatestDays(os);
    var r := LatestDaysAscending(os);
    var rows := OrdersPerDay(os);
    AscendingFacts(os);
    assert forall j :: 0 <= j < |r| ==> rows[j] == DayCountOf(r[j]);
    forall i | 0 <= i < |top| ensures top[i].key != d {
      assert top[i] in r;
      var j :| 0 <= j < |r| && r[j] == top[i];
      assert rows[j].day == top[i].key;
    }
  }

  /** In a descending list of distinct keys, a row past the cut has a
      smaller key than any row before it. */
  lemma DescendingCut(sorted: seq<Tally<int>>, n: nat, c: nat, i: nat)
    requires Descending(sorted, KeyOf) && KeysDistinct(sorted)
    requires i < n <= c < |sorted|
    ensures sorted[c].key < sorted[i].key
  {
    assert KeyOf(sorted[i]) >= KeyOf(sorted[c]);
  }

  /** The days kept are the latest ones: a day with orders that is not
      listed is left out because seven days are listed, all later. */
  lemma OrdersPerDayKeepsLatest(os: seq<Order>, x: nat)
    requires x < |os|
    requires forall j :: 0 <= j < |OrdersPerDay(os)| ==> OrdersPerDay(os)[j].day != OrderDay(os[x])
    ensures |OrdersPerDay(os)| == 7
    ensures forall j :: 0 <= j < |OrdersPerDay(os)| ==> OrderDay(os[x]) < OrdersPerDay(os)[j].day
  {
    var d := OrderDay(os[x]);
    var sorted := SortDesc(DayGroups(os), KeyOf);
    LatestDaysFacts(os);
    AscendingFacts(os);
    UnlistedNotKept(os, d);
    assert KeyListed(sorted, d);
    TakeMissesOnlyWhenFull(sorted, 7, d);
    LaterThanCut(sorted, LatestDays(os), LatestDaysAscending(os), d);
  }

  /** Rows drawn from a prefix of distinct keys sorted descending, a prefix
      that misses `d` while the whole lists it, all have keys above `d`. */
  lemma LaterThanCut(sorted: seq<Tally<int>>, top: seq<Tally<int>>, r: seq<Tally<int>>, d: int)
    requires Descending(sorted, KeyOf) && KeysDistinct(sorted) && KeyListed(sorted, d)
    requires |top| <= |sorted| && top == sorted[..|top|]
    requires forall i :: 0 <= i < |top| ==> top[i].key != d
    requires forall t :: t in r ==> t in top
    ensures forall j :: 0 <= j < |Map(r, DayCountOf)| ==> d < Map(r, DayCountOf)[j].day
  {
    var rows := Map(r, DayCountOf);
    var c :| 0 <= c < |sorted| && sorted[c].key == d;
    assert forall i :: 0 <= i < |top| ==> top[i] == sorted[i];
    assert c >= |top|;
    forall j | 0 <= j < |rows| ensures d < rows[j].day {
      assert rows[j] == DayCountOf(r[j]);
      assert r[j] in top;
      var i :| 0 <= i < |top| && top[i] == r[j];
      DescendingCut(sorted, |top|, c, i);
    }
  }

  // -----------------------------------------------------------------------
  // The summary

  datatype AnalyticsSummary = AnalyticsSummary(
    totalOrders: nat,
    totalReservations: nat,
    totalStaff: nat,
    totalMenuItems: nat,
    totalPayments: nat,
    totalRevenue: int,
    ordersPerDay: seq<DayCount>)

  /** The whole reply: each total is the size of its collection. */
  function Summary(os: seq<Order>, rs: seq<Reservation>, staff: seq<Staff>, menu: seq<MenuItem>,
                   ps: seq<Payment>): (s: AnalyticsSummary)
    ensures s.totalOrders == |os| && s.totalReservations == |rs| && s.totalStaff == |staff|
    ensures s.totalMenuItems == |menu| && s.totalPayments == |ps|
    ensures s.totalRevenue == LedgerRevenue(ps) && s.ordersPerDay == OrdersPerDay(os)
    ensures SumOf(s.ordersPerDay, DayCountValue) <= s.totalOrders
  {
    AnalyticsSummary(|os|, |rs|, |staff|, |menu|, |ps|, LedgerRevenue(ps), OrdersPerDay(os))
  }
}
