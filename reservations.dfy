/** The reservation controller: booking with its double-booking guard, the
    admin's status update and table assignment, and the caller's own list.

    A query on a path whose value is missing from the request matches
    documents where that path is null or absent, as the MongoDB driver
    serialises `undefined` as null by default. */
module Reservations {
  import opened Common
  import opened Models
  import opened Store
  import opened Auth
  import opened Queries
  import opened Sorting

  /** The request body of a booking. `tableNo` is read by the guard only. */
  datatype BookingBody = BookingBody(
    customerName: Option<string>,
    phone: Option<string>,
    date: Option<string>,
    time: Option<string>,
    guests: Option<int>,
    notes: Option<string>,
    tableNo: Option<int>)

  /** The statuses that hold a table. */
  const Holding: set<string> := {"Pending", "Confirmed"}

  /** Whether `r` answers the guard's query for this slot. */
  predicate Blocks(r: Reservation, date: Option<string>, time: Option<string>, tableNo: Option<int>) {
    date == Some(r.date) && time == Some(r.time) && r.tableNo == tableNo && r.status in Holding
  }

  /** The guard's `findOne` finds a reservation. */
  predicate SlotTaken(rs: seq<Reservation>, date: Option<string>, time: Option<string>, tableNo: Option<int>) {
    exists i :: 0 <= i < |rs| && Blocks(rs[i], date, time, tableNo)
  }

  /** No reservation carries a table. */
  ghost predicate AllTableless(rs: seq<Reservation>) {
    forall i :: 0 <= i < |rs| ==> rs[i].tableNo.None?
  }

  ghost predicate AllValid(rs: seq<Reservation>) {
    forall i :: 0 <= i < |rs| ==> ReservationValid(rs[i])
  }

  /** The document a booking creates; the requested `tableNo` is not part of it. */
  function Booked(body: BookingBody, caller: Caller, newId: Id, now: Time): Option<Reservation> {
    NewReservation(newId, caller.claims.id, body.customerName, body.phone, body.date, body.time,
                   body.guests, body.notes, now)
  }

  /** `createReservation`: 400 when a Pending or Confirmed reservation holds the
      same date, time and tableNo; otherwise the new reservation (owned by the
      `id` claim, no table, Pending) is appended, or schema validation fails. */
  method CreateReservation(db: Db, caller: Caller, body: BookingBody, newId: Id, now: Time)
    returns (reply: Reply<Reservation>)
    modifies db`reservations
    ensures SlotTaken(old(db.reservations), body.date, body.time, body.tableNo) ==>
              reply == Fail(400, "Table already booked at this time") && db.reservations == old(db.reservations)
    ensures !SlotTaken(old(db.reservations), body.date, body.time, body.tableNo) ==>
              match Booked(body, caller, newId, now)
              case None => reply == Thrown(500) && db.reservations == old(db.reservations)
              case Some(r) => reply == Ok(201, r) && db.reservations == old(db.reservations) + [r]
    ensures reply.Ok? ==> reply.value.tableNo.None? && reply.value.status == "Pending"
                          && Some(reply.value.user) == caller.claims.id
    ensures AllTableless(old(db.reservations)) ==> AllTableless(db.reservations)
    ensures AllValid(old(db.reservations)) ==> AllValid(db.reservations)
  {
    if SlotTaken(db.reservations, body.date, body.time, body.tableNo) {
      return Fail(400, "Table already booked at this time");
    }
    var made := Booked(body, caller, newId, now);
    if made.None? {
      return Thrown(500);
    }
    db.reservations := db.reservations + [made.value];
    reply := Ok(201, made.value);
  }

  /** `updateReservationStatus`: `findByIdAndUpdate` without validators. An
      unknown id answers 200 with null; a missing status changes nothing;
      any status string is written, inside the enum or not. */
  method UpdateReservationStatus(db: Db, id: Id, status: Option<string>)
    returns (reply: Reply<Option<Reservation>>)
    modifies db`reservations
    ensures match FindFirst(old(db.reservations), (r: Reservation) => r.id == id)
            case None => reply == Ok(200, None) && db.reservations == old(db.reservations)
            case Some(i) =>
              var updated := if status.Some? then old(db.reservations)[i].(status := status.value)
                             else old(db.reservations)[i];
              reply == Ok(200, Some(updated)) && db.reservations == old(db.reservations)[i := updated]
  {
    var found := FindFirst(db.reservations, (r: Reservation) => r.id == id);
    if found.None? {
      return Ok(200, None);
    }
    var i := found.value;
    var updated := db.reservations[i];
    if status.Some? {
      updated := updated.(status := status.value);
    }
    db.reservations := db.reservations[i := updated];
    reply := Ok(200, Some(updated));
  }

  /** The reservation with a table seated: the table set, the status Confirmed. */
  function Assigned(r: Reservation, tableNo: Option<int>): Reservation {
    r.(tableNo := tableNo, status := "Confirmed")
  }

  /** `assignTable`: 404 for an unknown id; otherwise the table is set and the
      status forced to Confirmed, with no check against other reservations. */
  method AssignTable(db: Db, id: Id, tableNo: Option<int>) returns (reply: Reply<Reservation>)
    modifies db`reservations
    ensures match FindFirst(old(db.reservations), (r: Reservation) => r.id == id)
            case None => reply == Fail(404, "Reservation not found") && db.reservations == old(db.reservations)
            case Some(i) =>
              reply == Ok(200, Assigned(old(db.reservations)[i], tableNo))
              && db.reservations == old(db.reservations)[i := Assigned(old(db.reservations)[i], tableNo)]
  {
    var found := FindFirst(db.reservations, (r: Reservation) => r.id == id);
    if found.None? {
      return Fail(404, "Reservation not found");
    }
    var i := found.value;
    var seated := Assigned(db.reservations[i], tableNo);
    db.reservations := db.reservations[i := seated];
    reply := Ok(200, seated);
  }

  /** The query `{user: req.user.id}`. */
  function OwnedBy(caller: Caller): Reservation -> bool {
    (x: Reservation) => Some(x.user) == caller.claims.id
  }

  /** `getMyReservations`: the reservations owned by the `id` claim, each as
      often as stored, newest first. */
  function MyReservations(rs: seq<Reservation>, caller: Caller): (r: seq<Reservation>)
    ensures multiset(r) == multiset(Filter(rs, OwnedBy(caller)))
    ensures Descending(r, ReservationCreated)
    ensures forall i :: 0 <= i < |r| ==> Some(r[i].user) == caller.claims.id && r[i] in rs
    ensures forall i :: 0 <= i < |rs| && Some(rs[i].user) == caller.claims.id ==> rs[i] in r
    ensures |r| <= |rs|
  {
    FindSortedDesc(rs, OwnedBy(caller), ReservationCreated)
  }

  // -----------------------------------------------------------------------
  // Properties of the double-booking guard

  /** A Cancelled or Waiting reservation never blocks a booking. */
  lemma NonHoldingNeverBlocks(rs: seq<Reservation>, r: Reservation, date: Option<string>, time: Option<string>,
                              tableNo: Option<int>)
    requires r.status !in Holding
    ensures SlotTaken(rs + [r], date, time, tableNo) <==> SlotTaken(rs, date, time, tableNo)
  {
    var s := rs + [r];
    if SlotTaken(s, date, time, tableNo) {
      var i :| 0 <= i < |s| && Blocks(s[i], date, time, tableNo);
      assert i < |rs| && rs[i] == s[i];
    }
    if SlotTaken(rs, date, time, tableNo) {
      var i :| 0 <= i < |rs| && Blocks(rs[i], date, time, tableNo);
      assert s[i] == rs[i];
    }
  }

  /** While no reservation holds a table, a booking that names a table is
      never refused: a table only becomes bookable-out through `assignTable`. */
  lemma TablelessStoreNeverBlocksTable(rs: seq<Reservation>, date: Option<string>, time: Option<string>, n: int)
    requires AllTableless(rs)
    ensures !SlotTaken(rs, date, time, Some(n))
  {
  }

  /** Two bookings that name no table (as the customer page sends them) for
      the same date and time collide: once the first is made, the second is
      refused while the first is Pending. */
  lemma TablelessBookingsCollide(rs: seq<Reservation>, body: BookingBody, caller: Caller, newId: Id, now: Time)
    requires body.tableNo.None? && Booked(body, caller, newId, now).Some?
    ensures SlotTaken(rs + [Booked(body, caller, newId, now).value], body.date, body.time, None)
  {
    var r := Booked(body, caller, newId, now).value;
    var s := rs + [r];
    assert s[|rs|] == r;
    assert Blocks(s[|rs|], body.date, body.time, None);
  }

  /** After `assignTable`, a booking for the same date, time and table is refused. */
  lemma AssignedTableBlocks(rs: seq<Reservation>, i: nat, tableNo: Option<int>)
    requires i < |rs|
    ensures SlotTaken(rs[i := Assigned(rs[i], tableNo)], Some(rs[i].date), Some(rs[i].time), tableNo)
  {
    var a := Assigned(rs[i], tableNo);
    assert rs[i := a][i] == a;
    assert Blocks(a, Some(a.date), Some(a.time), tableNo);
  }

  /** `assignTable` does not consult other reservations: two reservations on
      the same slot can both be Confirmed on the same table. */
  lemma AssignTableAllowsDoubleBooking(a: Reservation, b: Reservation, n: int)
    requires a.id != b.id && a.date == b.date && a.time == b.time
    ensures Blocks(Assigned(a, Some(n)), Some(a.date), Some(a.time), Some(n))
    ensures Blocks(Assigned(b, Some(n)), Some(a.date), Some(a.time), Some(n))
  {
  }
}
