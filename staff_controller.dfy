/** The staff controller: the admin assigns StaffTask records and marks
    attendance; a staff member updates their task's status and checks in
    and out. `req.userId` is the caller's id from `protect`. The calendar
    parts of the local date and the time are parameters; the User
    collection is a parameter giving the role of each existing user. */
module StaffController {
  import opened Common
  import opened Models
  import opened Store
  import opened Auth
  import opened Queries
  import opened Sorting
  import opened StaffRoutes

  // -----------------------------------------------------------------------
  // todayStr

  predicate IsDigit(c: char) {
    '0' <= c <= '9'
  }

  predicate AllDigits(s: string) {
    forall i :: 0 <= i < |s| ==> IsDigit(s[i])
  }

  function DigitChar(d: nat): (c: char)
    requires d < 10
    ensures IsDigit(c) && c as int - '0' as int == d
  {
    ('0' as int + d) as char
  }

  /** `String(n)` for a natural number: its decimal digits, no leading zero. */
  function Decimal(n: nat): (s: string)
    ensures |s| >= 1 && AllDigits(s)
  {
    if n < 10 then [DigitChar(n)] else Decimal(n / 10) + [DigitChar(n % 10)]
  }

  /** The number a string of decimal digits denotes. */
  function DecimalValue(s: string): nat
    requires AllDigits(s)
  {
    if |s| == 0 then 0 else DecimalValue(s[..|s| - 1]) * 10 + (s[|s| - 1] as int - '0' as int)
  }

  lemma {:induction false} DecimalRoundTrip(n: nat)
    ensures DecimalValue(Decimal(n)) == n
  {
    if n >= 10 {
      var s := Decimal(n);
      assert s[..|s| - 1] == Decimal(n / 10);
      DecimalRoundTrip(n / 10);
    }
  }

  lemma {:induction false} DecimalLength(n: nat, k: nat)
    requires Pow10(k) <= n < Pow10(k + 1)
    ensures |Decimal(n)| == k + 1
  {
    if k > 0 {
      DecimalLength(n / 10, k - 1);
    }
  }

  function Pow10(k: nat): nat {
    if k == 0 then 1 else 10 * Pow10(k - 1)
  }

  /** A leading zero does not change the value. */
  lemma {:induction false} LeadingZero(s: string)
    requires AllDigits(s)
    ensures AllDigits("0" + s) && DecimalValue("0" + s) == DecimalValue(s)
    decreases |s|
  {
    if |s| > 0 {
      var t := "0" + s;
      assert t[..|t| - 1] == "0" + s[..|s| - 1];
      LeadingZero(s[..|s| - 1]);
    }
  }

  /** `String(n).padStart(2, "0")`. */
  function Pad2(n: nat): string {
    var s := Decimal(n);
    if |s| >= 2 then s else "0" + s
  }

  lemma Pad2Facts(n: nat)
    requires n < 100
    ensures |Pad2(n)| == 2 && AllDigits(Pad2(n)) && DecimalValue(Pad2(n)) == n
  {
    DecimalRoundTrip(n);
    if n < 10 {
      LeadingZero(Decimal(n));
    } else {
      DecimalLength(n, 1);
    }
  }

  /** `todayStr()` for local calendar year, 0-based month and day of month. */
  function TodayStr(year: nat, month0: nat, day: nat): string {
    Decimal(year) + "-" + Pad2(month0 + 1) + "-" + Pad2(day)
  }

  /** For a four-digit year the date is YYYY-MM-DD: ten characters, dashes at
      4 and 7, and the fields read back as the year, the 1-based month and
      the day. */
  lemma TodayStrFormat(year: nat, month0: nat, day: nat)
    requires 1000 <= year <= 9999 && month0 < 12 && 1 <= day <= 31
    ensures var s := TodayStr(year, month0, day);
            |s| == 10 && s[4] == '-' && s[7] == '-'
            && AllDigits(s[..4]) && AllDigits(s[5..7]) && AllDigits(s[8..])
            && DecimalValue(s[..4]) == year && DecimalValue(s[5..7]) == month0 + 1 && DecimalValue(s[8..]) == day
  {
    var y := Decimal(year);
    DecimalLength(year, 3);
    DecimalRoundTrip(year);
    Pad2Facts(month0 + 1);
    Pad2Facts(day);
    var s := TodayStr(year, month0, day);
    assert s[..4] == y;
    assert s[5..7] == Pad2(month0 + 1);
    assert s[8..] == Pad2(day);
  }

  /** Distinct calendar days give distinct date strings. */
  lemma TodayStrInjective(y1: nat, m1: nat, d1: nat, y2: nat, m2: nat, d2: nat)
    requires 1000 <= y1 <= 9999 && m1 < 12 && 1 <= d1 <= 31
    requires 1000 <= y2 <= 9999 && m2 < 12 && 1 <= d2 <= 31
    requires TodayStr(y1, m1, d1) == TodayStr(y2, m2, d2)
    ensures y1 == y2 && m1 == m2 && d1 == d2
  {
    TodayStrFormat(y1, m1, d1);
    TodayStrFormat(y2, m2, d2);
  }

  // -----------------------------------------------------------------------
  // Tasks

  /** The body of `assignTask`. */
  datatype AssignBody = AssignBody(
    staffId: Option<Id>,
    title: Option<string>,
    description: Option<string>,
    priority: Option<string>,
    dueDate: Option<string>)

  /** The StaffTask schema paths of the object given to `StaffTask.create`;
      paths outside the schema are dropped in strict mode. */
  datatype TaskDoc = TaskDoc(staffId: Option<Id>, title: string, description: string, dueDate: Option<string>)

  /** `StaffTask.create(doc)`: the default status, then the validators. */
  function CreateStaffTask(doc: TaskDoc, newId: Id, now: Time): (r: Option<StaffTask>)
    ensures r.Some? <==> Truthy(doc.staffId) && doc.title != ""
    ensures r.Some? ==> StaffTaskValid(r.value) && r.value.status == "pending" && Some(r.value.staffId) == doc.staffId
  {
    if Truthy(doc.staffId) && doc.title != "" then
      Some(StaffTask(newId, doc.staffId.value, doc.title, doc.description, "pending", doc.dueDate, now))
    else None
  }

  /** What `assignTask` hands to `create` as written: the owner under
      `staff`, which is not a schema path, so `staffId` is missing. */
  function AsWrittenDoc(body: AssignBody): TaskDoc
    requires Truthy(body.title)
  {
    TaskDoc(None, body.title.value, OrElse(body.description, ""), if Truthy(body.dueDate) then body.dueDate else None)
  }

  /** The intended document: the owner under the schema's `staffId`. */
  function IntendedDoc(body: AssignBody): TaskDoc
    requires Truthy(body.staffId) && Truthy(body.title)
  {
    TaskDoc(body.staffId, body.title.value, OrElse(body.description, ""),
            if Truthy(body.dueDate) then body.dueDate else None)
  }

  /** The guards of `assignTask`: 400 without staffId or title, 404 unless
      the user exists with role staff. */
  function AssignGuard(body: AssignBody, roleOf: Id -> Option<string>): (g: Gate<()>)
    ensures g.Pass? <==> Truthy(body.staffId) && Truthy(body.title) && roleOf(body.staffId.value) == Some("staff")
    ensures !Truthy(body.staffId) || !Truthy(body.title) ==> g == Deny(400, "staffId and title are required")
    ensures Truthy(body.staffId) && Truthy(body.title) && roleOf(body.staffId.value) != Some("staff") ==>
              g == Deny(404, "Staff user not found")
  {
    if !Truthy(body.staffId) || !Truthy(body.title) then Deny(400, "staffId and title are required")
    else if roleOf(body.staffId.value) != Some("staff") then Deny(404, "Staff user not found")
    else Pass(())
  }

  /** `assignTask` as written: past its guards, creation always fails validation. */
  function AssignTaskAsWritten(body: AssignBody, roleOf: Id -> Option<string>, newId: Id, now: Time)
    : (reply: Reply<StaffTask>)
    ensures AssignGuard(body, roleOf).Deny? ==>
              reply == Fail(AssignGuard(body, roleOf).code, AssignGuard(body, roleOf).message)
  {
    match AssignGuard(body, roleOf)
    case Deny(code, message) => Fail(code, message)
    case Pass(_) =>
      match CreateStaffTask(AsWrittenDoc(body), newId, now)
      case None => Thrown(500)
      case Some(t) => Ok(201, t)
  }

  /** As written no task can ever be assigned: every request that passes
      the guards is answered 500. */
  lemma AssignTaskAsWrittenNeverSucceeds(body: AssignBody, roleOf: Id -> Option<string>, newId: Id, now: Time)
    ensures !AssignTaskAsWritten(body, roleOf, newId, now).Ok?
    ensures AssignGuard(body, roleOf).Pass? ==> AssignTaskAsWritten(body, roleOf, newId, now) == Thrown(500)
  {
  }

  /** `assignTask` with the owner written to `staffId`: past the guards the
      task is stored, owned by the given staff member, status "pending". */
  method AssignTask(db: Db, body: AssignBody, roleOf: Id -> Option<string>, newId: Id, now: Time)
    returns (reply: Reply<StaffTask>)
    modifies db`staffTasks
    ensures AssignGuard(body, roleOf).Deny? ==>
              reply == Fail(AssignGuard(body, roleOf).code, AssignGuard(body, roleOf).message)
              && db.staffTasks == old(db.staffTasks)
    ensures AssignGuard(body, roleOf).Pass? ==>
              reply.Ok? && reply.code == 201 && reply.value.staffId == body.staffId.value
              && reply.value.title == body.title.value && reply.value.status == "pending"
              && reply.value.description == OrElse(body.description, "")
              && db.staffTasks == old(db.staffTasks) + [reply.value]
    ensures reply.Ok? ==> StaffTaskValid(reply.value)
  {
    var gate := AssignGuard(body, roleOf);
    if gate.Deny? {
      return Fail(gate.code, gate.message);
    }
    var made := CreateStaffTask(IntendedDoc(body), newId, now);
    var t := made.value;
    db.staffTasks := db.staffTasks + [t];
    reply := Ok(201, t);
  }

  /** A property of a StaffTask document read by name: the schema's string
      paths hold their values, and any other name reads as `undefined`
      (None). */
  function TaskPath(t: StaffTask, name: string): Option<string> {
    if name == "_id" then Some(t.id)
    else if name == "staffId" then Some(t.staffId)
    else if name == "title" then Some(t.title)
    else if name == "description" then Some(t.description)
    else if name == "status" then Some(t.status)
    else None
  }

  /** `String(v)` of a property read: `undefined` prints as "undefined". */
  function JsStringOf(v: Option<string>): string {
    if v.Some? then v.value else "undefined"
  }

  /** The owner check as written: `String(task.staff) === String(req.userId)`. */
  predicate OwnsAsWritten(t: StaffTask, userId: Id) {
    JsStringOf(TaskPath(t, "staff")) == userId
  }

  /** The intended owner check, on the schema's `staffId`. */
  predicate Owns(t: StaffTask, userId: Id) {
    JsStringOf(TaskPath(t, "staffId")) == userId
  }

  /** The intended check compares the stored owner. */
  lemma OwnsIsStaffId(t: StaffTask, userId: Id)
    ensures Owns(t, userId) <==> t.staffId == userId
  {
  }

  /** As written the owner of a task is refused, and a token whose id is the
      string "undefined" may update every task: `staff` is not a schema
      path, so the check reads `undefined` whatever the task holds. */
  lemma OwnerRefusedAsWritten(t: StaffTask, userId: Id)
    ensures Owns(t, userId) && userId != "undefined" ==> !OwnsAsWritten(t, userId)
    ensures OwnsAsWritten(t, "undefined")
  {
    assert TaskPath(t, "staff").None?;
  }

  function StaffTaskById(id: Id): StaffTask -> bool {
    (t: StaffTask) => t.id == id
  }

  /** `updateMyTaskStatus` with the owner check on `staffId`: 404 for an
      unknown task, 403 for another member's task; a missing or empty
      status keeps the old one; a status outside the schema's lower-case
      enum fails on save. */
  method UpdateMyTaskStatus(db: Db, caller: Caller, id: Id, status: Option<string>) returns (reply: Reply<StaffTask>)
    modifies db`staffTasks
    ensures match FindFirst(old(db.staffTasks), StaffTaskById(id))
            case None => reply == Fail(404, "Task not found") && db.staffTasks == old(db.staffTasks)
            case Some(i) =>
              var t := old(db.staffTasks)[i];
              var u := t.(status := OrElse(status, t.status));
              if !Owns(t, caller.userId) then reply == Fail(403, "Not allowed") && db.staffTasks == old(db.staffTasks)
              else if !StaffTaskValid(u) then reply == Thrown(500) && db.staffTasks == old(db.staffTasks)
              else reply == Ok(200, u) && db.staffTasks == old(db.staffTasks)[i := u]
    ensures reply.Ok? ==> reply.value.staffId == caller.userId
  {
    var found := FindFirst(db.staffTasks, StaffTaskById(id));
    if found.None? {
      return Fail(404, "Task not found");
    }
    var i := found.value;
    var t := db.staffTasks[i];
    if !Owns(t, caller.userId) {
      return Fail(403, "Not allowed");
    }
    var u := t.(status := OrElse(status, t.status));
    if !StaffTaskValid(u) {
      return Thrown(500);
    }
    db.staffTasks := db.staffTasks[i := u];
    reply := Ok(200, u);
  }

  /** A status update changes nothing but the status, and without a status
      changes nothing at all. */
  lemma StatusUpdateOnlyStatus(t: StaffTask, status: Option<string>)
    ensures t.(status := OrElse(status, t.status)).(status := t.status) == t
    ensures !Truthy(status) ==> t.(status := OrElse(status, t.status)) == t
  {
  }

  // -----------------------------------------------------------------------
  // Attendance upserts

  /** The record an upsert inserts: the schema defaults for what it does not set. */
  function Inserted(staff: Id, date: string, checkIn: Option<Time>, status: string, notes: string, markedBy: Id,
                    newId: Id, now: Time): (a: Attendance)
    ensures a.staff == staff && a.date == date && a.checkOut.None? && a.markedBy == markedBy
  {
    Attendance(newId, staff, date, checkIn, None, status, notes, markedBy, now)
  }

  /** `checkIn`: the day's record of the caller is upserted with the check-in
      time, status Present and markedBy the caller. */
  method CheckIn(db: Db, caller: Caller, year: nat, month0: nat, day: nat, newId: Id, now: Time)
    returns (reply: Reply<Attendance>)
    modifies db`attendance
    ensures var date := TodayStr(year, month0, day);
            match FindFirst(old(db.attendance), TodaysRecord(Some(caller.userId), date))
            case None =>
              var a := Inserted(caller.userId, date, Some(now), "Present", "", caller.userId, newId, now);
              reply == Ok(200, a) && db.attendance == old(db.attendance) + [a]
            case Some(i) =>
              var a := CheckedInAgain(old(db.attendance)[i], caller.userId, now);
              reply == Ok(200, a) && db.attendance == old(db.attendance)[i := a]
    ensures reply.Ok? && reply.value.status == "Present" && reply.value.checkIn == Some(now)
            && reply.value.staff == caller.userId && reply.value.date == TodayStr(year, month0, day)
    ensures AttendanceUnique(old(db.attendance)) ==> AttendanceUnique(db.attendance)
  {
    var date := TodayStr(year, month0, day);
    var found := FindFirst(db.attendance, TodaysRecord(Some(caller.userId), date));
    var before := db.attendance;
    if found.None? {
      var a := Inserted(caller.userId, date, Some(now), "Present", "", caller.userId, newId, now);
      NotFoundIsAbsent(before, caller.userId, date);
      db.attendance := db.attendance + [a];
      reply := Ok(200, a);
      AppendKeepsUnique(before, a);
    } else {
      var i := found.value;
      var a := CheckedInAgain(db.attendance[i], caller.userId, now);
      db.attendance := db.attendance[i := a];
      reply := Ok(200, a);
      ReplaceKeepsUnique(before, i, a);
    }
  }

  /** `checkOut`: 404 without a record for today; otherwise checkOut and
      markedBy are set; the save fails when the record breaks a validator. */
  method CheckOut(db: Db, caller: Caller, year: nat, month0: nat, day: nat, now: Time) returns (reply: Reply<Attendance>)
    modifies db`attendance
    ensures var date := TodayStr(year, month0, day);
            match FindFirst(old(db.attendance), TodaysRecord(Some(caller.userId), date))
            case None => reply == Fail(404, "No check-in record found for today") && db.attendance == old(db.attendance)
            case Some(i) =>
              var a := CheckedOut(old(db.attendance)[i], caller.userId, now);
              if AttendanceValid(a) then reply == Ok(200, a) && db.attendance == old(db.attendance)[i := a]
              else reply == Thrown(500) && db.attendance == old(db.attendance)
    ensures AttendanceUnique(old(db.attendance)) ==> AttendanceUnique(db.attendance)
  {
    var date := TodayStr(year, month0, day);
    var found := FindFirst(db.attendance, TodaysRecord(Some(caller.userId), date));
    if found.None? {
      return Fail(404, "No check-in record found for today");
    }
    var i := found.value;
    var a := CheckedOut(db.attendance[i], caller.userId, now);
    if !AttendanceValid(a) {
      return Thrown(500);
    }
    var before := db.attendance;
    db.attendance := db.attendance[i := a];
    reply := Ok(200, a);
    ReplaceKeepsUnique(before, i, a);
  }

  /** The admin's mark on an existing record: status, notes and markedBy;
      checkIn and checkOut are kept. */
  function Marked(a: Attendance, status: string, notes: string, markedBy: Id): (m: Attendance)
    ensures m.checkIn == a.checkIn && m.checkOut == a.checkOut && m.staff == a.staff && m.date == a.date
    ensures m.status == status && m.notes == notes && m.markedBy == markedBy
  {
    a.(status := status, notes := notes, markedBy := markedBy)
  }

  /** `adminMarkAttendance`: 400 unless staffId, date and status are all
      given; otherwise the (staffId, date) record is upserted without
      validators, so any status string is stored. */
  method AdminMarkAttendance(db: Db, caller: Caller, staffId: Option<Id>, date: Option<string>, status: Option<string>,
                             notes: Option<string>, newId: Id, now: Time)
    returns (reply: Reply<Attendance>)
    modifies db`attendance
    ensures !(Truthy(staffId) && Truthy(date) && Truthy(status)) ==>
              reply == Fail(400, "staffId, date, status are required") && db.attendance == old(db.attendance)
    ensures Truthy(staffId) && Truthy(date) && Truthy(status) ==>
              match FindFirst(old(db.attendance), TodaysRecord(staffId, date.value))
              case None =>
                var a := Inserted(staffId.value, date.value, None, status.value, OrElse(notes, ""), caller.userId,
                                  newId, now);
                reply == Ok(200, a) && db.attendance == old(db.attendance) + [a]
              case Some(i) =>
                var a := Marked(old(db.attendance)[i], status.value, OrElse(notes, ""), caller.userId);
                reply == Ok(200, a) && db.attendance == old(db.attendance)[i := a]
    ensures AttendanceUnique(old(db.attendance)) ==> AttendanceUnique(db.attendance)
  {
    if !(Truthy(staffId) && Truthy(date) && Truthy(status)) {
      return Fail(400, "staffId, date, status are required");
    }
    var found := FindFirst(db.attendance, TodaysRecord(staffId, date.value));
    var before := db.attendance;
    if found.None? {
      var a := Inserted(staffId.value, date.value, None, status.value, OrElse(notes, ""), caller.userId, newId, now);
      NotFoundIsAbsent(before, staffId.value, date.value);
      db.attendance := db.attendance + [a];
      reply := Ok(200, a);
      AppendKeepsUnique(before, a);
    } else {
      var i := found.value;
      var a := Marked(db.attendance[i], status.value, OrElse(notes, ""), caller.userId);
      db.attendance := db.attendance[i := a];
      reply := Ok(200, a);
      ReplaceKeepsUnique(before, i, a);
    }
  }

  /** The query `getAttendance` builds: an absent filter imposes nothing. */
  function AttendanceFilter(date: Option<string>, staffId: Option<Id>): Attendance -> bool {
    (a: Attendance) => (Truthy(date) ==> a.date == date.value) && (Truthy(staffId) ==> a.staff == staffId.value)
  }

  /** `getAttendance`: the records matching the given filters, each as often
      as stored, newest first. */
  function AttendanceQuery(s: seq<Attendance>, date: Option<string>, staffId: Option<Id>): (r: seq<Attendance>)
    ensures multiset(r) == multiset(Filter(s, AttendanceFilter(date, staffId)))
    ensures Descending(r, AttendanceCreated)
    ensures forall i :: 0 <= i < |r| ==> r[i] in s
    ensures forall a :: a in r <==> a in s && (Truthy(date) ==> a.date == date.value)
                                            && (Truthy(staffId) ==> a.staff == staffId.value)
  {
    var r := FindSortedDesc(s, AttendanceFilter(date, staffId), AttendanceCreated);
    assert forall a :: a in s ==> exists i :: 0 <= i < |s| && s[i] == a;
    r
  }
}
