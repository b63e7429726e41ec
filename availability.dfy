/** `GET /api/reservations/availability`: the tables booked for a date and
    time. The handler reads the paths `tableNumber` and `table`, which the
    reservation schema does not define (it stores `tableNo`). */
module Availability {
  import opened Common
  import opened Models
  import opened Reservations

  /** A reservation as the availability handler reads it: the queried paths
      and the two selected paths, each possibly missing. */
  datatype RawReservation = RawReservation(
    date: Option<string>,
    time: Option<string>,
    status: Option<string>,
    tableNumber: JsValue,
    table: JsValue)

  /** `{date, time, status: {$ne: "Cancelled"}}`: a missing status is not "Cancelled". */
  predicate SlotMatch(r: RawReservation, date: string, time: string) {
    r.date == Some(date) && r.time == Some(time) && r.status != Some("Cancelled")
  }

  /** `r.tableNumber || r.table`. */
  function Pick(r: RawReservation): JsValue {
    if JsTruthy(r.tableNumber) then r.tableNumber else r.table
  }

  /** The slot query as a predicate. */
  function InSlot(date: string, time: string): RawReservation -> bool {
    (r: RawReservation) => SlotMatch(r, date, time)
  }

  /** The truthy picks of the matching reservations, in store order, repeats
      kept: at most one per matching reservation. */
  function Picks(docs: seq<RawReservation>, date: string, time: string): (r: seq<JsValue>)
    ensures |r| <= |Filter(docs, InSlot(date, time))| <= |docs|
    ensures forall i :: 0 <= i < |r| ==> JsTruthy(r[i])
    ensures forall i :: 0 <= i < |r| ==> exists j :: 0 <= j < |docs| && SlotMatch(docs[j], date, time) && Pick(docs[j]) == r[i]
    ensures forall j :: 0 <= j < |docs| && SlotMatch(docs[j], date, time) && JsTruthy(Pick(docs[j])) ==> Pick(docs[j]) in r
  {
    if |docs| == 0 then []
    else
      var rest := Picks(docs[1..], date, time);
      assert forall j :: 1 <= j < |docs| ==> docs[j] == docs[1..][j - 1];
      if SlotMatch(docs[0], date, time) && JsTruthy(Pick(docs[0])) then [Pick(docs[0])] + rest else rest
  }

  /** One document contributes its pick exactly when it matches the slot
      and the pick is truthy. */
  lemma PicksOfOne(x: RawReservation, date: string, time: string)
    ensures Picks([x], date, time) == if SlotMatch(x, date, time) && JsTruthy(Pick(x)) then [Pick(x)] else []
  {
    assert [x][1..] == [];
  }

  /** Mapping and filtering two runs of documents is doing so to each, one
      after the other: with `PicksOfOne`, the list keeps the store order and
      every repeat. */
  lemma {:induction false} PicksConcat(a: seq<RawReservation>, b: seq<RawReservation>, date: string, time: string)
    ensures Picks(a + b, date, time) == Picks(a, date, time) + Picks(b, date, time)
    decreases |a|
  {
    if |a| == 0 {
      assert a + b == b;
    } else {
      assert (a + b)[0] == a[0] && (a + b)[1..] == a[1..] + b;
      PicksConcat(a[1..], b, date, time);
    }
  }

  /** The handler: 400 unless both date and time are given, else the picks. */
  function BookedTables(docs: seq<RawReservation>, date: Option<string>, time: Option<string>): (reply: Reply<seq<JsValue>>)
    ensures !Truthy(date) || !Truthy(time) <==> reply == Fail(400, "date and time are required")
    ensures reply.Ok? ==> reply.code == 200 && reply.value == Picks(docs, date.value, time.value)
  {
    if !Truthy(date) || !Truthy(time) then Fail(400, "date and time are required")
    else Ok(200, Picks(docs, date.value, time.value))
  }

  /** A stored reservation as the handler sees it: the selected paths are
      not schema paths, so they read as missing. */
  function AsRaw(r: Reservation): RawReservation {
    RawReservation(Some(r.date), Some(r.time), Some(r.status), JsUndefined, JsUndefined)
  }

  /** The stored reservations as the handler reads them: each still answers
      the slot query as the stored document would, but none yields a truthy
      pick. */
  function AllAsRaw(rs: seq<Reservation>): (docs: seq<RawReservation>)
    ensures |docs| == |rs|
    ensures forall i :: 0 <= i < |rs| ==> !JsTruthy(Pick(docs[i]))
    ensures forall i, date, time :: 0 <= i < |rs| ==>
              (SlotMatch(docs[i], date, time) <==> rs[i].date == date && rs[i].time == time && rs[i].status != "Cancelled")
  {
    seq(|rs|, i requires 0 <= i < |rs| => AsRaw(rs[i]))
  }

  /** As written, the list is empty for every store of schema documents,
      however many reservations hold tables. */
  lemma BookedTablesAlwaysEmpty(rs: seq<Reservation>, date: string, time: string)
    requires date != "" && time != ""
    ensures BookedTables(AllAsRaw(rs), Some(date), Some(time)) == Ok(200, [])
  {
    NoTruthyPicks(AllAsRaw(rs), date, time);
  }

  lemma {:induction false} NoTruthyPicks(docs: seq<RawReservation>, date: string, time: string)
    requires forall j :: 0 <= j < |docs| ==> !JsTruthy(Pick(docs[j]))
    ensures Picks(docs, date, time) == []
    decreases |docs|
  {
    if |docs| > 0 {
      assert forall j :: 0 <= j < |docs| - 1 ==> docs[1..][j] == docs[j + 1];
      NoTruthyPicks(docs[1..], date, time);
    }
  }

  /** The availability query reading the schema's `tableNo`: the truthy
      table numbers of the non-Cancelled reservations for the slot. */
  function BookedTableNumbers(rs: seq<Reservation>, date: string, time: string): (r: seq<int>)
    ensures |r| <= |rs|
    ensures forall i :: 0 <= i < |r| ==> r[i] != 0
    ensures forall n :: n in r <==> exists j :: 0 <= j < |rs| && rs[j].date == date && rs[j].time == time
                                                 && rs[j].status != "Cancelled" && rs[j].tableNo == Some(n) && n != 0
  {
    if |rs| == 0 then []
    else
      var rest := BookedTableNumbers(rs[1..], date, time);
      assert forall j :: 1 <= j < |rs| ==> rs[j] == rs[1..][j - 1];
      var h := rs[0];
      if h.date == date && h.time == time && h.status != "Cancelled" && h.tableNo.Some? && h.tableNo.value != 0
      then [h.tableNo.value] + rest
      else rest
  }

  /** One reservation contributes its table exactly when it holds a non-zero
      table of the slot and is not Cancelled. */
  lemma TableNumbersOfOne(x: Reservation, date: string, time: string)
    ensures BookedTableNumbers([x], date, time)
            == if x.date == date && x.time == time && x.status != "Cancelled" && x.tableNo.Some? && x.tableNo.value != 0
               then [x.tableNo.value] else []
  {
    assert [x][1..] == [];
  }

  /** The corrected list over two runs of reservations is the two lists one
      after the other: store order and repeats are kept. */
  lemma {:induction false} TableNumbersConcat(a: seq<Reservation>, b: seq<Reservation>, date: string, time: string)
    ensures BookedTableNumbers(a + b, date, time) == BookedTableNumbers(a, date, time) + BookedTableNumbers(b, date, time)
    decreases |a|
  {
    if |a| == 0 {
      assert a + b == b;
    } else {
      assert (a + b)[0] == a[0] && (a + b)[1..] == a[1..] + b;
      TableNumbersConcat(a[1..], b, date, time);
    }
  }

  /** With `tableNo` read, every table the booking guard would refuse for the
      slot is reported as booked. */
  lemma GuardedTablesAreReported(rs: seq<Reservation>, date: string, time: string, n: int)
    requires n != 0 && SlotTaken(rs, Some(date), Some(time), Some(n))
    ensures n in BookedTableNumbers(rs, date, time)
  {
    var j :| 0 <= j < |rs| && Blocks(rs[j], Some(date), Some(time), Some(n));
    assert rs[j].status != "Cancelled";
  }
}
