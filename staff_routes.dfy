/** The staff routes: the admin creates staff members, attendance records
    and tasks; a caller with the `staff` role lists and progresses their
    own tasks and checks in and out. `req.user._id` is the token's `_id`
    claim, which may be missing; `today` is the UTC calendar date given
    as a parameter. */
module StaffRoutes {
  import opened Common
  import opened Models
  import opened Store
  import opened Auth
  import opened Queries
  import opened Sorting

  // -----------------------------------------------------------------------
  // Admin side

  /** `POST /api/staff`: 400 unless name, email and role are all given;
      the schema has no validators, so the member is then stored. */
  method CreateStaff(db: Db, name: Option<string>, email: Option<string>, role: Option<string>, newId: Id, now: Time)
    returns (reply: Reply<Staff>)
    modifies db`staff
    ensures !(Truthy(name) && Truthy(email) && Truthy(role)) <==> reply == Fail(400, "All fields required")
    ensures reply.Fail? ==> db.staff == old(db.staff)
    ensures reply.Ok? ==> reply == Ok(201, Staff(newId, name.value, email.value, role.value, now))
                          && db.staff == old(db.staff) + [reply.value]
  {
    if !(Truthy(name) && Truthy(email) && Truthy(role)) {
      return Fail(400, "All fields required");
    }
    var member := Staff(newId, name.value, email.value, role.value, now);
    db.staff := db.staff + [member];
    reply := Ok(201, member);
  }

  /** The body of `POST /api/staff/attendance`. */
  datatype AttendanceBody = AttendanceBody(
    staff: Option<Id>,
    date: Option<string>,
    status: Option<string>,
    notes: Option<string>,
    checkIn: Option<Time>,
    checkOut: Option<Time>)

  /** The record the admin's attendance request builds, before validation:
      status "Present" and notes "" by default, `markedBy` the caller's `_id`. */
  function MarkedRecord(body: AttendanceBody, caller: Caller, newId: Id, now: Time): (a: Attendance)
    requires Truthy(body.staff) && Truthy(body.date)
    ensures a.staff == body.staff.value && a.date == body.date.value
    ensures a.status == OrElse(body.status, "Present") && a.notes == OrElse(body.notes, "")
    ensures a.checkIn == body.checkIn && a.checkOut == body.checkOut
    ensures a.markedBy == caller.claims.mongoId.GetOr("")
  {
    Attendance(newId, body.staff.value, body.date.value, body.checkIn, body.checkOut,
               OrElse(body.status, "Present"), OrElse(body.notes, ""), caller.claims.mongoId.GetOr(""), now)
  }

  /** `POST /api/staff/attendance`: 400 without staff or date; 500 when the
      record fails validation (a status outside the enum, a token without
      `_id`) or a record for that staff member and date exists. */
  method MarkAttendance(db: Db, caller: Caller, body: AttendanceBody, newId: Id, now: Time)
    returns (reply: Reply<Attendance>)
    modifies db`attendance
    ensures !Truthy(body.staff) || !Truthy(body.date) ==>
              reply == Fail(400, "staff and date are required") && db.attendance == old(db.attendance)
    ensures Truthy(body.staff) && Truthy(body.date) ==>
              var a := MarkedRecord(body, caller, newId, now);
              if !AttendanceValid(a) || HasAttendance(old(db.attendance), a.staff, a.date) then
                reply == Fail(500, "Failed to save attendance") && db.attendance == old(db.attendance)
              else reply == Ok(201, a) && db.attendance == old(db.attendance) + [a]
    ensures AttendanceUnique(old(db.attendance)) ==> AttendanceUnique(db.attendance)
  {
    if !Truthy(body.staff) || !Truthy(body.date) {
      return Fail(400, "staff and date are required");
    }
    var a := MarkedRecord(body, caller, newId, now);
    if !AttendanceValid(a) || HasAttendance(db.attendance, a.staff, a.date) {
      return Fail(500, "Failed to save attendance");
    }
    var before := db.attendance;
    db.attendance := db.attendance + [a];
    reply := Ok(201, a);
    AppendKeepsUnique(before, a);
  }

  /** Appending a record for a new (staff, date) keeps the index unique. */
  lemma AppendKeepsUnique(s: seq<Attendance>, a: Attendance)
    requires !HasAttendance(s, a.staff, a.date)
    ensures AttendanceUnique(s) ==> AttendanceUnique(s + [a])
  {
    var t := s + [a];
    if AttendanceUnique(s) {
      forall i, j | 0 <= i < j < |t| ensures !(t[i].staff == t[j].staff && t[i].date == t[j].date) {
        if j == |s| {
          assert t[i] == s[i];
        } else {
          assert t[i] == s[i] && t[j] == s[j];
        }
      }
    }
  }

  /** The body of `POST /api/staff/assign-task`. */
  datatype TaskBody = TaskBody(
    staff: Option<Id>,
    title: Option<string>,
    description: Option<string>,
    priority: Option<string>,
    dueDate: Option<string>)

  /** The task an assignment creates, before validation. */
  function AssignedTask(body: TaskBody, caller: Caller, newId: Id, now: Time): (t: Task)
    requires Truthy(body.staff) && Truthy(body.title)
    ensures t.staff == body.staff.value && t.title == body.title.value
    ensures t.description == OrElse(body.description, "") && t.priority == OrElse(body.priority, "Medium")
    ensures t.dueDate == (if Truthy(body.dueDate) then body.dueDate else None)
    ensures t.status == "Pending" && t.assignedBy == caller.claims.mongoId
  {
    Task(newId, body.staff.value, body.title.value, OrElse(body.description, ""), OrElse(body.priority, "Medium"),
         if Truthy(body.dueDate) then body.dueDate else None, "Pending", caller.claims.mongoId, now)
  }

  /** `POST /api/staff/assign-task`: 400 without staff or title; 500 for a
      priority outside the enum; otherwise the Pending task is stored. */
  method AssignTask(db: Db, caller: Caller, body: TaskBody, newId: Id, now: Time) returns (reply: Reply<Task>)
    modifies db`tasks
    ensures !Truthy(body.staff) || !Truthy(body.title) ==>
              reply == Fail(400, "Staff and title are required") && db.tasks == old(db.tasks)
    ensures Truthy(body.staff) && Truthy(body.title) ==>
              var t := AssignedTask(body, caller, newId, now);
              if t.priority !in TaskPriorities then
                reply == Fail(500, "Failed to assign task") && db.tasks == old(db.tasks)
              else reply == Ok(201, t) && db.tasks == old(db.tasks) + [t]
    ensures reply.Ok? ==> TaskValid(reply.value)
    ensures AllTasksValid(old(db.tasks)) ==> AllTasksValid(db.tasks)
  {
    if !Truthy(body.staff) || !Truthy(body.title) {
      return Fail(400, "Staff and title are required");
    }
    var t := AssignedTask(body, caller, newId, now);
    if t.priority !in {"High", "Medium", "Low"} {
      return Fail(500, "Failed to assign task");
    }
    db.tasks := db.tasks + [t];
    reply := Ok(201, t);
  }

  ghost predicate AllTasksValid(ts: seq<Task>) {
    forall i :: 0 <= i < |ts| ==> TaskValid(ts[i])
  }

  // -----------------------------------------------------------------------
  // Staff side

  /** A task assigned to the caller's `_id`. */
  predicate Mine(t: Task, caller: Caller) {
    Some(t.staff) == caller.claims.mongoId
  }

  /** The query `{staff: req.user._id}`. */
  function MineOf(caller: Caller): Task -> bool {
    (t: Task) => Mine(t, caller)
  }

  /** `GET /api/staff/my/tasks`: 403 for any role but staff; otherwise
      exactly the tasks whose `staff` is the caller's `_id`, newest first. */
  function MyTasks(ts: seq<Task>, caller: Caller): (reply: Reply<seq<Task>>)
    ensures !IsStaff(caller.claims) <==> reply == Fail(403, "Only staff can view tasks")
    ensures reply.Ok? ==> multiset(reply.value) == multiset(Filter(ts, MineOf(caller)))
                          && Descending(reply.value, TaskCreated)
    ensures reply.Ok? ==> reply.code == 200
                          && (forall i :: 0 <= i < |reply.value| ==> Mine(reply.value[i], caller) && reply.value[i] in ts)
                          && (forall i :: 0 <= i < |ts| && Mine(ts[i], caller) ==> ts[i] in reply.value)
  {
    if !IsStaff(caller.claims) then Fail(403, "Only staff can view tasks")
    else Ok(200, FindSortedDesc(ts, MineOf(caller), TaskCreated))
  }

  /** A token without `_id` sees no task. */
  lemma NoMongoIdNoTasks(ts: seq<Task>, caller: Caller)
    requires IsStaff(caller.claims) && caller.claims.mongoId.None?
    ensures MyTasks(ts, caller) == Ok(200, [])
  {
  }

  /** `findOneAndUpdate({_id: taskId, staff: req.user._id})`'s query. */
  function MyTaskById(taskId: Id, caller: Caller): Task -> bool {
    (t: Task) => t.id == taskId && Mine(t, caller)
  }

  /** `PATCH /api/staff/my/tasks/:taskId/status`: 403 for any role but
      staff, 400 for a status outside Pending / In Progress / Completed, 404
      when the task is not the caller's; otherwise only the status changes. */
  method UpdateMyTaskStatus(db: Db, caller: Caller, taskId: Id, status: Option<string>) returns (reply: Reply<Task>)
    modifies db`tasks
    ensures !IsStaff(caller.claims) ==> reply == Fail(403, "Only staff can update tasks") && db.tasks == old(db.tasks)
    ensures IsStaff(caller.claims) && (status.None? || status.value !in TaskStatuses) ==>
              reply == Fail(400, "Invalid status") && db.tasks == old(db.tasks)
    ensures IsStaff(caller.claims) && status.Some? && status.value in TaskStatuses ==>
              match FindFirst(old(db.tasks), MyTaskById(taskId, caller))
              case None => reply == Fail(404, "Task not found or not yours") && db.tasks == old(db.tasks)
              case Some(i) =>
                reply == Ok(200, old(db.tasks)[i].(status := status.value))
                && db.tasks == old(db.tasks)[i := old(db.tasks)[i].(status := status.value)]
    ensures AllTasksValid(old(db.tasks)) ==> AllTasksValid(db.tasks)
  {
    if !IsStaff(caller.claims) {
      return Fail(403, "Only staff can update tasks");
    }
    if status.None? || status.value !in {"Pending", "In Progress", "Completed"} {
      return Fail(400, "Invalid status");
    }
    var found := FindFirst(db.tasks, MyTaskById(taskId, caller));
    if found.None? {
      return Fail(404, "Task not found or not yours");
    }
    var i := found.value;
    var updated := db.tasks[i].(status := status.value);
    db.tasks := db.tasks[i := updated];
    reply := Ok(200, updated);
  }

  /** The record for (staff, date), as `Attendance.findOne` finds it. */
  function TodaysRecord(staffId: Option<Id>, today: string): Attendance -> bool {
    (a: Attendance) => Some(a.staff) == staffId && a.date == today
  }

  /** A failed lookup means no record exists for the pair. */
  lemma NotFoundIsAbsent(s: seq<Attendance>, staffId: Id, today: string)
    requires FindFirst(s, TodaysRecord(Some(staffId), today)).None?
    ensures !HasAttendance(s, staffId, today)
  {
    forall k | 0 <= k < |s| ensures !(s[k].staff == staffId && s[k].date == today) {
      assert !TodaysRecord(Some(staffId), today)(s[k]);
    }
  }

  /** Under the unique index the lookup finds the one record for the pair. */
  lemma UniqueRecordIsFound(s: seq<Attendance>, staffId: Option<Id>, today: string, i: nat)
    requires AttendanceUnique(s) && i < |s| && TodaysRecord(staffId, today)(s[i])
    ensures FindFirst(s, TodaysRecord(staffId, today)) == Some(i)
  {
    forall j | 0 <= j < |s| && j != i ensures !TodaysRecord(staffId, today)(s[j]) {
      if j < i {
        assert !(s[j].staff == s[i].staff && s[j].date == s[i].date);
      } else {
        assert !(s[i].staff == s[j].staff && s[i].date == s[j].date);
      }
    }
  }

  /** The record a first check-in creates. */
  function FirstCheckIn(staffId: Option<Id>, today: string, newId: Id, now: Time): (a: Attendance)
    ensures a.status == "Present" && a.checkIn == Some(now) && a.checkOut.None? && a.notes == ""
    ensures a.date == today && (staffId.Some? ==> a.staff == staffId.value && a.markedBy == staffId.value)
  {
    Attendance(newId, staffId.GetOr(""), today, Some(now), None, "Present", "", staffId.GetOr(""), now)
  }

  /** An existing record on a later check-in: only checkIn, status and markedBy change. */
  function CheckedInAgain(a: Attendance, staffId: Id, now: Time): Attendance {
    a.(checkIn := Some(now), status := "Present", markedBy := staffId)
  }

  /** `POST /api/staff/my/attendance/check-in`: 403 for any role but
      staff; with no record for today one is created, otherwise the record
      is refreshed; 500 when the record fails validation. */
  method CheckIn(db: Db, caller: Caller, today: string, newId: Id, now: Time) returns (reply: Reply<Attendance>)
    modifies db`attendance
    ensures !IsStaff(caller.claims) ==> reply == Fail(403, "Only staff can check-in") && db.attendance == old(db.attendance)
    ensures IsStaff(caller.claims) ==>
              var staffId := caller.claims.mongoId;
              match FindFirst(old(db.attendance), TodaysRecord(staffId, today))
              case None =>
                var a := FirstCheckIn(staffId, today, newId, now);
                if AttendanceValid(a) then reply == Ok(200, a) && db.attendance == old(db.attendance) + [a]
                else reply == Fail(500, "Check-in failed") && db.attendance == old(db.attendance)
              case Some(i) =>
                var a := CheckedInAgain(old(db.attendance)[i], staffId.value, now);
                if AttendanceValid(a) then reply == Ok(200, a) && db.attendance == old(db.attendance)[i := a]
                else reply == Fail(500, "Check-in failed") && db.attendance == old(db.attendance)
    ensures reply.Ok? ==> reply.value.status == "Present" && reply.value.checkIn == Some(now)
                          && reply.value.date == today && Some(reply.value.staff) == caller.claims.mongoId
    ensures AttendanceUnique(old(db.attendance)) ==> AttendanceUnique(db.attendance)
  {
    if !IsStaff(caller.claims) {
      return Fail(403, "Only staff can check-in");
    }
    var staffId := caller.claims.mongoId;
    var found := FindFirst(db.attendance, TodaysRecord(staffId, today));
    var before := db.attendance;
    if found.None? {
      var a := FirstCheckIn(staffId, today, newId, now);
      if !AttendanceValid(a) {
        return Fail(500, "Check-in failed");
      }
      NotFoundIsAbsent(before, staffId.value, today);
      db.attendance := db.attendance + [a];
      reply := Ok(200, a);
      AppendKeepsUnique(before, a);
    } else {
      var i := found.value;
      var a := CheckedInAgain(db.attendance[i], staffId.value, now);
      if !AttendanceValid(a) {
        return Fail(500, "Check-in failed");
      }
      db.attendance := db.attendance[i := a];
      reply := Ok(200, a);
      ReplaceKeepsUnique(before, i, a);
    }
  }

  /** Rewriting a record in place without changing its (staff, date) keeps the index unique. */
  lemma ReplaceKeepsUnique(s: seq<Attendance>, i: nat, a: Attendance)
    requires i < |s| && a.staff == s[i].staff && a.date == s[i].date
    ensures AttendanceUnique(s) ==> AttendanceUnique(s[i := a])
  {
    var t := s[i := a];
    if AttendanceUnique(s) {
      forall j, k | 0 <= j < k < |t| ensures !(t[j].staff == t[k].staff && t[j].date == t[k].date) {
        assert t[j].staff == s[j].staff && t[j].date == s[j].date;
        assert t[k].staff == s[k].staff && t[k].date == s[k].date;
      }
    }
  }

  /** A record on check-out: only checkOut and markedBy change. */
  function CheckedOut(a: Attendance, staffId: Id, now: Time): Attendance {
    a.(checkOut := Some(now), markedBy := staffId)
  }

  /** `POST /api/staff/my/attendance/check-out`: 403 for any role but
      staff, 400 with no record for today; otherwise checkOut and markedBy
      are set and checkIn is kept. */
  method CheckOut(db: Db, caller: Caller, today: string, now: Time) returns (reply: Reply<Attendance>)
    modifies db`attendance
    ensures !IsStaff(caller.claims) ==>
              reply == Fail(403, "Only staff can check-out") && db.attendance == old(db.attendance)
    ensures IsStaff(caller.claims) ==>
              var staffId := caller.claims.mongoId;
              match FindFirst(old(db.attendance), TodaysRecord(staffId, today))
              case None => reply == Fail(400, "No check-in found for today") && db.attendance == old(db.attendance)
              case Some(i) =>
                var a := CheckedOut(old(db.attendance)[i], staffId.value, now);
                if AttendanceValid(a) then reply == Ok(200, a) && db.attendance == old(db.attendance)[i := a]
                else reply == Fail(500, "Check-out failed") && db.attendance == old(db.attendance)
    ensures AttendanceUnique(old(db.attendance)) ==> AttendanceUnique(db.attendance)
  {
    if !IsStaff(caller.claims) {
      return Fail(403, "Only staff can check-out");
    }
    var staffId := caller.claims.mongoId;
    var found := FindFirst(db.attendance, TodaysRecord(staffId, today));
    if found.None? {
      return Fail(400, "No check-in found for today");
    }
    var i := found.value;
    var a := CheckedOut(db.attendance[i], staffId.value, now);
    if !AttendanceValid(a) {
      return Fail(500, "Check-out failed");
    }
    var before := db.attendance;
    db.attendance := db.attendance[i := a];
    reply := Ok(200, a);
    ReplaceKeepsUnique(before, i, a);
  }

  /** Check-out keeps the check-in time and the status. */
  lemma CheckOutKeepsCheckIn(a: Attendance, staffId: Id, now: Time)
    ensures CheckedOut(a, staffId, now).checkIn == a.checkIn && CheckedOut(a, staffId, now).status == a.status
    ensures CheckedOut(a, staffId, now).checkOut == Some(now)
  {
  }

  /** A second check-in on the same day refreshes the record the first
      created instead of adding one: the lookup finds it again. */
  lemma SecondCheckInFindsFirst(s: seq<Attendance>, staffId: Id, today: string, newId: Id, t1: Time, t2: Time)
    requires AttendanceUnique(s) && !HasAttendance(s, staffId, today)
    requires AttendanceValid(FirstCheckIn(Some(staffId), today, newId, t1))
    ensures var s1 := s + [FirstCheckIn(Some(staffId), today, newId, t1)];
            FindFirst(s1, TodaysRecord(Some(staffId), today)) == Some(|s|)
            && CheckedInAgain(s1[|s|], staffId, t2).checkIn == Some(t2)
            && CheckedInAgain(s1[|s|], staffId, t2).status == "Present"
  {
    var a := FirstCheckIn(Some(staffId), today, newId, t1);
    var s1 := s + [a];
    AppendKeepsUnique(s, a);
    assert s1[|s|] == a;
    UniqueRecordIsFound(s1, Some(staffId), today, |s|);
  }
}
