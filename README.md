# Restaurant management backend and customer page, modelled in Dafny

The system is a restaurant's web application. An Express/Mongoose backend
keeps reservations, orders, customers, reviews, the menu, staff, staff
tasks, attendance and payments in MongoDB collections, behind bearer-token
middleware (`protect`, `adminOnly`). A React front end lets a customer fill
a cart, place orders and book tables, and guards every page by the role of
the stored user.

The model:

- `Store.Db` is a class with one `seq` field per collection, in insertion
  order. Every request handler is a method that `modifies` exactly the
  collections it writes and states its reply and the whole new state.
  Invariants the schemas' unique indexes and the loyalty rule promise are
  stated as `old(P) ==> P` and preserved.
- Request fields are `Option` values. JavaScript truthiness of a string is
  "present and not empty" (`Common.Truthy`) and `a || b` is
  `Common.OrElse`.
- A handler's reply is `Ok(code, value)`, `Fail(code, message)` for the
  explicit error responses, or `Thrown(500)` for a rejected write (schema
  validation), which the handlers' `catch` turns into a 500.
- Identifiers are strings. Times are integers of milliseconds since the
  epoch. Money amounts are integers.
- Calls the model cannot see are parameters: the payment gateway
  (`orders.create`), HMAC-SHA256, the JWT verifier, the clock, the local
  calendar date, `JSON.parse`, the User collection's roles (`roleOf`) and
  whether the order POST of the customer page succeeds.
- Aggregation pipelines (`$group`, `$sort`, `$limit`) are specified by
  per-key counts and sums (`Grouping.CountKey`, `Grouping.SumKey`) over
  the matched documents; each result row is proved to hold the count or
  sum of its key, rows are proved to have distinct keys and to cover
  every key, and the `$limit` cut is proved to keep the largest groups.
- A day key of the dashboards is the UTC day number `createdAt / 86400000`.
  It stands for both `$dateToString` with `%Y-%m-%d` and
  `$substr(createdAt, 0, 10)`: both give the UTC calendar day, and their
  order is the order of the day numbers.

## Model

| member | source | states |
|---|---|---|
| Common.FindFirst | backend/controllers/reservationController.js:83-84 | `findById`/`findOne`: the first matching document's index, or none exactly when no document matches |
| Common.Filter | backend/controllers/menuController.js:29 | `find(filter)`: the matching documents, each from the collection, every matching document kept, never more than the collection |
| Common.FilterCounts | backend/controllers/menuController.js:29 | `find(filter)` returns each matching document as often as it is stored and no other |
| Common.FilterKeepsOrder | backend/controllers/menuController.js:29 | two matching documents come back in their stored order |
| Common.RemoveAt | backend/controllers/orderController.js:95 | `findByIdAndDelete`: the collection without the deleted document, the others in order |
| Queries.FindSortedDesc | backend/controllers/orderController.js:106 | `find(filter).sort({createdAt: -1})`: a permutation of the matching documents, newest first |
| Sorting.Take | backend/controllers/dashboardController.js:120 | `$limit: n`: the first n documents, or all of them when there are fewer |
| Aggregation.GroupBy | backend/controllers/dashboardController.js:98-110 | `$group`: one row per distinct key, every key of the input covered, each row holding its key's sums |
| Aggregation.SortedGroups | backend/controllers/dashboardController.js:118-119 | `$group` then `$sort` on a sum, descending: a permutation of the groups |
| Aggregation.TopGroups | backend/controllers/dashboardController.js:118-120 | then `$limit: n`: a prefix of the sorted groups with n rows, or one per distinct key when there are fewer; a key is missing only when n rows are kept |
| Aggregation.TopGroupsCut | backend/controllers/dashboardController.js:119-120 | a key cut off by `$limit` ranks no higher than any kept row, and n rows are kept |
| Aggregation.GroupsByKey | backend/controllers/dashboardController.js:98-112 | `$group` then `$sort: {_id: 1}`: the groups in strictly ascending key order |
| Models.NewReservation | backend/models/Reservation.js:3-32 | creation succeeds exactly when user, name, date, time and guests are given; the new reservation is Pending, has no table, and takes the phone and notes defaults |
| Models.NewOrder | backend/models/Order.js:3-41 | creation succeeds exactly when the user, the name and the total are given; the order takes every payment default (Unpaid, Cash, no gateway ids) |
| Models.OrderValid | backend/models/Order.js:6-17 | the validators `save()` runs on a loaded order: a non-empty owner and customer name (the required total is always a number here) |
| Models.ReservationValid | backend/models/Reservation.js:6-29 | the owner, the name, the date and the time are given and the status is one of the four listed |
| Models.ReviewValid | backend/models/Review.js:6-24 | the owner and the menu item are given and the rating is within 1..5 |
| Models.MenuItemValid | backend/models/Menu.js:5-24 | a menu item's trimmed required strings are non-blank, its price is at least 0 and its spice level is listed |
| Models.StaffTaskValid | backend/models/StaffTask.js:5-8 | an owner under `staffId`, a title, and one of the three listed statuses |
| Models.TaskValid | backend/models/Task.js:6-24 | an owner under `staff`, a title, a listed priority and a listed status |
| Models.AttendanceValid | backend/models/Attendance.js:5-28 | the staff member, the date and the marker are given and the status is Present, Absent or Leave |
| Models.Trim | backend/models/Menu.js:5-10 | the `trim` setter: the result neither starts nor ends with white space, counting every character `String.prototype.trim` strips (the Unicode space separators, the no-break space, the byte order mark and the line terminators as well as ASCII white space) |
| Models.NoBreakSpaceTrimsAway | backend/models/Menu.js:5 | a lone no-break space trims to the empty string, and ideographic space and the byte order mark are stripped from the ends |
| Models.TrimStart | backend/models/Menu.js:5 | the leading white space, in the full ECMAScript sense, is exactly the first k characters |
| Models.TrimEnd | backend/models/Menu.js:5 | the trailing white space, in the full ECMAScript sense, starts exactly at k |
| Models.TrimTwice | backend/models/Menu.js:5-10 | trimming is idempotent |
| Auth.IndexOf | backend/middleware/authMiddleware.js:7 | the first position of the separator, or none when it does not occur |
| Auth.Split | backend/middleware/authMiddleware.js:7 | `split(" ")`: at least one piece, no piece contains the separator |
| Auth.JoinSplit | backend/middleware/authMiddleware.js:7 | joining the pieces of a split gives back the string |
| Auth.IndexOfFirst | backend/middleware/authMiddleware.js:7 | the first occurrence is found wherever it is |
| Auth.BearerToken | backend/middleware/authMiddleware.js:4-8 | a token is read only from a header starting with "Bearer" and never contains a space |
| Auth.BearerTokenOfHeader | backend/middleware/authMiddleware.js:6-7 | the header "Bearer <t>" yields exactly t |
| Auth.Protect | backend/middleware/authMiddleware.js:3-27 | 401 without a token, for a rejected token, and for claims without `id` or `_id`; passes exactly otherwise, with the caller's id being `id` or else `_id` |
| Auth.AdminOnly | backend/middleware/authMiddleware.js:29-32 | passes exactly when the role claim is "admin", otherwise 403 |
| Reservations.CreateReservation | backend/controllers/reservationController.js:5-35 | 400 when a Pending or Confirmed reservation holds the same date, time and table; otherwise the new reservation is appended, owned by the caller, Pending and without a table; keeps "no reservation holds a table" and schema validity |
| Reservations.Blocks | backend/controllers/reservationController.js:10-15 | a reservation blocks a booking when it is Pending or Confirmed on the same date, time and table |
| Reservations.SlotTaken | backend/controllers/reservationController.js:10-19 | some stored reservation blocks the booking |
| Reservations.Booked | backend/controllers/reservationController.js:21-29 | the reservation `create` builds from the body and the caller |
| Reservations.UpdateReservationStatus | backend/controllers/reservationController.js:61-75 | an unknown id answers 200 with null; otherwise only the status changes, to any string, and a missing status changes nothing |
| Reservations.AssignTable | backend/controllers/reservationController.js:79-95 | 404 for an unknown id; otherwise that one reservation gets the table and Confirmed, the rest untouched |
| Reservations.MyReservations | backend/controllers/reservationController.js:39-46 | a permutation of the caller's reservations, newest first, each from the store |
| Reservations.NonHoldingNeverBlocks | backend/controllers/reservationController.js:10-15 | a Cancelled or Waiting reservation never changes whether a booking is refused |
| Reservations.TablelessStoreNeverBlocksTable | backend/controllers/reservationController.js:10-19 | while no reservation holds a table, a booking naming a table is never refused |
| Reservations.TablelessBookingsCollide | backend/controllers/reservationController.js:10-29 | after a booking without a table, a second one for the same date and time is refused |
| Reservations.AssignedTableBlocks | backend/controllers/reservationController.js:86-87 | after `assignTable`, a booking for that slot and table is refused |
| Reservations.AssignTableAllowsDoubleBooking | backend/controllers/reservationController.js:79-95 | two reservations for the same slot can both be Confirmed on the same table |
| Availability.Picks | backend/routes/reservationRoutes.js:44-51 | the truthy picks (`tableNumber`, else `table`) of the non-Cancelled reservations of the slot, every such pick, and no more picks than such reservations |
| Availability.PicksOfOne | backend/routes/reservationRoutes.js:51 | one document yields its pick exactly when it matches the slot and the pick is truthy |
| Availability.PicksConcat | backend/routes/reservationRoutes.js:51 | the list over two runs of documents is the two lists one after the other, so store order and repeats are kept |
| Availability.SlotMatch | backend/routes/reservationRoutes.js:44-47 | the query: the slot's date and time and a status other than Cancelled |
| Availability.Pick | backend/routes/reservationRoutes.js:51 | `tableNumber` when truthy, otherwise `table` |
| Availability.AsRaw | backend/routes/reservationRoutes.js:48 | a stored reservation read through the selected paths, both missing from the schema |
| Availability.BookedTables | backend/routes/reservationRoutes.js:35-58 | 400 exactly when date or time is missing, otherwise 200 with the picks |
| Availability.AllAsRaw | backend/routes/reservationRoutes.js:44-48 | reading the selected paths of schema documents: one document per reservation, none with a truthy pick, and the slot query matching exactly the stored date, time and a status other than Cancelled |
| Availability.NoTruthyPicks | backend/routes/reservationRoutes.js:51 | without a truthy pick the list is empty |
| Availability.BookedTablesAlwaysEmpty | backend/routes/reservationRoutes.js:44-53 | as written, the booked-table list is empty for every store of schema documents |
| Availability.BookedTableNumbers | backend/routes/reservationRoutes.js:44-51 | reading `tableNo`: a number is listed exactly when a non-Cancelled reservation of the slot holds that non-zero table |
| Availability.TableNumbersOfOne | backend/routes/reservationRoutes.js:44-51 | reading `tableNo`: one reservation yields its table exactly when it is a non-Cancelled reservation of the slot holding a non-zero table |
| Availability.TableNumbersConcat | backend/routes/reservationRoutes.js:44-51 | reading `tableNo`: the list over two runs of reservations is the two lists one after the other, store order and repeats kept |
| Availability.GuardedTablesAreReported | backend/routes/reservationRoutes.js:44-51 | every non-zero table the booking guard refuses for a slot is reported as booked |
| Orders.Placed | backend/controllers/orderController.js:25-48 | an order is created exactly when the caller, the name and the total are present; it belongs to the caller and takes the `||` defaults for phone, type, address and time |
| Orders.CustomerUpsert | backend/controllers/orderController.js:51-62 | the customer of that name is bumped in place, or one is appended when none has the name; other customers unchanged; name uniqueness and one loyalty point per order kept |
| Orders.NoGroupMembers | backend/controllers/orderController.js:51-62 | a name no order carries has count 0 and sum 0 |
| Orders.UpsertTracksOrders | backend/controllers/orderController.js:38-62 | after an order, every customer's order count and amount spent still equal the count and sum of the orders under its name |
| Orders.CreateOrder | backend/controllers/orderController.js:25-68 | 201 with the order appended and the customer upserted, or 500 with nothing written; keeps customer counters in step with the orders |
| Orders.Bumped | backend/controllers/orderController.js:51-62 | the upsert's `$set` and `$inc`: the phone replaced, one more order and loyalty point, the total added to the amount spent |
| Orders.MarkOrderPaid | backend/controllers/orderController.js:5-22 | 404 for an unknown id; 500 with nothing written when the saved order fails validation; otherwise Paid, the given method or else the old one, and the payment time |
| Orders.EmptyPatchKeepsOrder | backend/controllers/orderController.js:81-90 | an empty body changes only the modification time |
| Orders.Patched | backend/controllers/orderController.js:81-90 | the order with every path present in the body replaced and the modification time stamped |
| Orders.PatchCanInvalidate | backend/controllers/orderController.js:83-86 | an update may store an empty customer name, leaving an order that fails validation on its next save |
| Orders.PatchIdempotent | backend/controllers/orderController.js:81-90 | the same update applied twice equals it applied once |
| Orders.PatchKeepsOtherPaths | backend/controllers/orderController.js:81-90 | an update never changes the id or the creation time, and stamps the modification time |
| Orders.UpdateOrder | backend/controllers/orderController.js:81-90 | an unknown id answers 200 with null; otherwise only that order is patched, on any of its schema paths |
| Orders.DeleteOrder | backend/controllers/orderController.js:93-100 | the reply is the same whether or not the order existed; the order is removed when it did |
| Orders.MyOrders | backend/controllers/orderController.js:103-111 | a permutation of the caller's orders, newest first, each from the store |
| Payments.GatewayRequestFor | backend/controllers/paymentController.js:18-23 | the gateway is asked for the total in paise, in INR, with receipt "rcpt_<id>" |
| Payments.Paise | backend/controllers/paymentController.js:19 | `Math.round(total * 100)` on an integral total |
| Payments.ExpectedSignature | backend/controllers/paymentController.js:56-60 | the HMAC-SHA256, under the key secret, of the gateway order id and payment id joined by a vertical bar |
| Payments.SignatureValid | backend/controllers/paymentController.js:56-62 | the signature sent is the expected one |
| Payments.Paid | backend/controllers/paymentController.js:66-71 | Paid, Razorpay, the payment time and both gateway ids are set, and no other path of the order changes |
| Payments.ReverifyRefreshesTime | backend/controllers/paymentController.js:66-71 | verifying again with the same ids only refreshes the payment time |
| Payments.CreateGatewayOrder | backend/controllers/paymentController.js:5-39 | 400, 404, 403 for another user's order, 500 for a gateway failure or an order that fails validation on save; otherwise the gateway order id and method are stored on that order only |
| Payments.VerifyPayment | backend/controllers/paymentController.js:41-77 | 400, 404 and 403 before the signature; 400 for a wrong signature; 500 when the paid order fails validation on save; otherwise exactly that order is marked paid |
| PaymentRoutes.LedgerEntry | backend/routes/paymentRoutes.js:95-100 | the ledger record carries the order, its total, Razorpay and Success |
| PaymentRoutes.CreateGatewayOrder | backend/routes/paymentRoutes.js:28-61 | 400, 404, 500 for a gateway failure or an order that fails validation on save, no ownership check; otherwise the gateway order id and method are stored |
| PaymentRoutes.VerifyPayment | backend/routes/paymentRoutes.js:64-107 | 400 for a missing field or a wrong signature before the lookup, then 404; 500 with nothing written when the paid order fails validation; otherwise the order is marked paid and exactly one Payment of its total is appended |
| Customers.CustomerList | backend/routes/customerRoutes.js:10-17 | a permutation of all customers, most recently updated first |
| Customers.CustomerHistory | backend/routes/customerRoutes.js:20-32 | 404 exactly for an unknown id; otherwise the customer with a permutation of exactly the orders and of the reservations made under its name, each list newest first |
| Reviews.CreateReview | backend/controllers/reviewController.js:5-30 | 400 without an item or with a falsy rating, 404 for an unknown item, 500 for a rating outside 1..5, 400 for a second review by the same user; otherwise appended; keeps the (user, item) index unique |
| Reviews.MyReviews | backend/controllers/reviewController.js:33-43 | a permutation of the caller's reviews, newest first |
| Reviews.ReviewsOfItem | backend/controllers/reviewController.js:46-56 | a permutation of the reviews of that menu item, newest first |
| Reviews.DeleteReview | backend/controllers/reviewController.js:73-82 | 404 when no review has the id; otherwise removed, uniqueness kept |
| Reviews.RemovePreservesUnique | backend/models/Review.js:32 | removing a review keeps the (user, item) index unique |
| Menu.Lower | backend/controllers/menuController.js:19-20 | the case-folded string: as long as the input, with no capital letter left, and unchanged when it had none |
| Menu.ContainsOccurs | backend/controllers/menuController.js:19-20 | the search finds the query exactly when it occurs at some index |
| Menu.Contains | backend/controllers/menuController.js:19-20 | the case-insensitive substring search |
| Menu.LowerIdempotent | backend/controllers/menuController.js:19-20 | folding twice equals folding once |
| Menu.SearchIgnoresQueryCase | backend/controllers/menuController.js:19-20 | the `i` option: the query's letter case does not matter |
| Menu.FilterIsConjunctive | backend/controllers/menuController.js:8-27 | an item matches exactly when it meets every given filter: category, availability, name or description search, tag |
| Menu.BuildFilter | backend/controllers/menuController.js:8-27 | the query object built from the query string |
| Menu.MatchesFilter | backend/controllers/menuController.js:8-29 | an item meets every condition of the query object |
| Menu.EmptyQueryMatchesAll | backend/controllers/menuController.js:8-27 | with no query parameters every item is listed |
| Menu.OtherAvailabilityIgnored | backend/controllers/menuController.js:13-14 | an `available` value other than "true" or "false" imposes nothing |
| Menu.MenuList | backend/controllers/menuController.js:4-34 | a permutation of exactly the matching items, newest first, each from the menu |
| Menu.NewMenuItem | backend/models/Menu.js:3-29 | creation succeeds exactly when name, description and category are non-blank after trimming, a price ≥ 0 is given and a listed spice level is used; the item is trimmed and takes the defaults |
| Menu.NoBreakSpaceNameRefused | backend/models/Menu.js:5 | a name of one no-break space is blank after the trim setter, so creation is refused |
| Menu.CreateMenuItem | backend/controllers/menuController.js:37-44 | 201 with the item appended, or 400 with nothing written; keeps every item valid |
| Menu.MenuPatchFacts | backend/controllers/menuController.js:47-55 | an update never changes the id or the creation time, is idempotent, and an empty one changes nothing |
| Menu.PatchSkipsValidation | backend/controllers/menuController.js:49 | an update can store a negative price, an unlisted spice level or any order count |
| Menu.UpdateMenuItem | backend/controllers/menuController.js:47-55 | 404 for an unknown id; otherwise only that item is patched |
| Menu.DeleteMenuItem | backend/controllers/menuController.js:58-66 | 404 for an unknown id; otherwise removed, validity kept |
| Menu.ToggleAvailability | backend/controllers/menuController.js:69-84 | 404 for an unknown id; otherwise only `isAvailable` changes, to the truthiness of the body value |
| Menu.Toggled | backend/controllers/menuController.js:73-77 | the item with `isAvailable` set to `Boolean` of the body value |
| Menu.ToggleDecidesListing | backend/controllers/menuController.js:69-84 | after a toggle the item is listed under available=true exactly when the value was truthy, and a missing value hides it |
| StaffRoutes.CreateStaff | backend/routes/staffRoutes.js:25-40 | 400 exactly unless name, email and role are given; otherwise the member is appended |
| StaffRoutes.MarkedRecord | backend/routes/staffRoutes.js:68-76 | the record built from the body with the `||` defaults and markedBy the `_id` claim |
| StaffRoutes.MarkAttendance | backend/routes/staffRoutes.js:60-82 | 400 without staff or date; 500 for an invalid record or a second record for (staff, date); otherwise appended; the unique index kept |
| StaffRoutes.AppendKeepsUnique | backend/models/Attendance.js:34 | appending a record for a new (staff, date) keeps the index unique |
| StaffRoutes.AssignedTask | backend/routes/staffRoutes.js:95-103 | the task built from the body: the `||` defaults, Pending, assigned by the `_id` claim |
| StaffRoutes.AssignTask | backend/routes/staffRoutes.js:87-110 | 400 without staff or title; 500 for a priority outside High, Medium and Low; otherwise the Pending task is appended; every task valid |
| StaffRoutes.MyTasks | backend/routes/staffRoutes.js:133-146 | 403 exactly for any role but staff; otherwise a permutation of exactly the tasks of the `_id` claim, newest first |
| StaffRoutes.NoMongoIdNoTasks | backend/routes/staffRoutes.js:140 | a token without `_id` sees no task |
| StaffRoutes.UpdateMyTaskStatus | backend/routes/staffRoutes.js:149-178 | 403 for any role but staff, 400 for a status outside the three allowed, 404 unless the task is the caller's; otherwise only its status changes |
| StaffRoutes.NotFoundIsAbsent | backend/routes/staffRoutes.js:190 | a failed lookup means no record exists for (staff, date) |
| StaffRoutes.UniqueRecordIsFound | backend/routes/staffRoutes.js:190 | under the unique index the lookup finds the one record for (staff, date) |
| StaffRoutes.FirstCheckIn | backend/routes/staffRoutes.js:193-201 | a first check-in creates a Present record with the check-in time and no check-out |
| StaffRoutes.CheckIn | backend/routes/staffRoutes.js:181-214 | 403 for any role but staff; otherwise the day's record is created or refreshed; the unique index kept |
| StaffRoutes.TodaysRecord | backend/routes/staffRoutes.js:190 | the lookup of the caller's record for today |
| StaffRoutes.CheckedInAgain | backend/routes/staffRoutes.js:203-207 | a second check-in: Present, the new check-in time, marked by the caller |
| StaffRoutes.ReplaceKeepsUnique | backend/models/Attendance.js:34 | rewriting a record without changing (staff, date) keeps the index unique |
| StaffRoutes.CheckOut | backend/routes/staffRoutes.js:217-241 | 403 for any role but staff, 400 without today's record; otherwise only check-out and markedBy change |
| StaffRoutes.CheckedOut | backend/routes/staffRoutes.js:232-233 | the record with the check-out time and marked by the caller |
| StaffRoutes.CheckOutKeepsCheckIn | backend/routes/staffRoutes.js:232-233 | check-out keeps the check-in time and the status |
| StaffRoutes.SecondCheckInFindsFirst | backend/routes/staffRoutes.js:190-207 | a second check-in the same day refreshes the first day's record instead of adding one |
| StaffController.DigitChar | backend/controllers/staffController.js:9-10 | the digit character of a number below ten |
| StaffController.Decimal | backend/controllers/staffController.js:8-11 | `String(n)` is a non-empty string of digits |
| StaffController.DecimalRoundTrip | backend/controllers/staffController.js:8-11 | the digits of `String(n)` denote n |
| StaffController.DecimalLength | backend/controllers/staffController.js:8 | a number with k+1 digits prints as k+1 characters |
| StaffController.LeadingZero | backend/controllers/staffController.js:9-10 | a leading "0" does not change the value |
| StaffController.Pad2Facts | backend/controllers/staffController.js:9-10 | `padStart(2, "0")` of a number below 100 is two digits denoting it |
| StaffController.Pad2 | backend/controllers/staffController.js:9-10 | `padStart(2, "0")` of a number |
| StaffController.TodayStr | backend/controllers/staffController.js:6-12 | the year, the 1-based month and the day, padded and joined with dashes |
| StaffController.TodayStrFormat | backend/controllers/staffController.js:6-12 | YYYY-MM-DD: ten characters, dashes at 4 and 7, digits denoting the year, the 1-based month and the day |
| StaffController.TodayStrInjective | backend/controllers/staffController.js:6-12 | distinct days give distinct date strings |
| StaffController.CreateStaffTask | backend/models/StaffTask.js:3-12 | a StaffTask is created exactly when `staffId` and a title are given; it is valid and pending |
| StaffController.AssignGuard | backend/controllers/staffController.js:29-36 | passes exactly when staffId and title are given and the user's role is staff; 400 and 404 otherwise |
| StaffController.AssignTaskAsWritten | backend/controllers/staffController.js:25-51 | the handler as written: the guards' replies, then the owner under `staff` |
| StaffController.AssignTaskAsWrittenNeverSucceeds | backend/controllers/staffController.js:38-45 | as written no request ever gets 201; every request past the guards gets 500 |
| StaffController.AssignTask | backend/controllers/staffController.js:25-51 | the corrected handler: the guards' replies, else the task owned through `staffId` is appended; every created task is valid |
| StaffController.OwnerRefusedAsWritten | backend/controllers/staffController.js:88-90 | as written, reading `task.staff` from a schema document gives `String(undefined)`, so the task's owner is refused and only a token whose id is "undefined" passes |
| StaffController.OwnsIsStaffId | backend/controllers/staffController.js:88-90 | the corrected check lets exactly the task's `staffId` through |
| StaffController.UpdateMyTaskStatus | backend/controllers/staffController.js:81-99 | the corrected handler: 404, 403 unless the caller owns the task through `staffId`, 500 for a status outside the enum; otherwise only the status changes |
| StaffController.StatusUpdateOnlyStatus | backend/controllers/staffController.js:92 | a status update changes nothing but the status, and none without a status |
| StaffController.Inserted | backend/controllers/staffController.js:117-124 | an upsert inserts the queried pair with no check-out |
| StaffController.CheckIn | backend/controllers/staffController.js:113-131 | today's record of the caller is created or refreshed to Present with the check-in time; the unique index kept |
| StaffController.CheckOut | backend/controllers/staffController.js:134-149 | 404 without today's record; otherwise only check-out and markedBy change, or 500 from a validator |
| StaffController.Marked | backend/controllers/staffController.js:178-185 | the admin's mark sets status, notes and markedBy and keeps the times |
| StaffController.AdminMarkAttendance | backend/controllers/staffController.js:170-191 | 400 unless staffId, date and status are given; otherwise the record is upserted with any status; the unique index kept |
| StaffController.AttendanceQuery | backend/controllers/staffController.js:152-167 | a permutation of exactly the records matching the given date and staff filters, newest first |
| Dashboard.StartOfDay | backend/controllers/dashboardController.js:6-10 | the local midnight at or before now, less than a day earlier |
| Dashboard.StartOfMonth | backend/controllers/dashboardController.js:12-16 | the local midnight `dayOfMonth - 1` days before today's: now falls on the day-of-month'th day after it |
| Dashboard.TrendStart | backend/controllers/dashboardController.js:91-93 | a local midnight with now in the seventh day after it, so the window is today and the six days before |
| Dashboard.FilterMonotone | backend/controllers/dashboardController.js:26-27 | a weaker match selects at least as many documents |
| Dashboard.FilterSumMonotone | backend/controllers/dashboardController.js:31-33 | with non-negative amounts a weaker match sums to at least as much |
| Dashboard.NoPaidNoRevenue | backend/controllers/dashboardController.js:31-38 | without a Paid order every revenue is 0 |
| Dashboard.Revenue | backend/controllers/dashboardController.js:30-38 | the `$sum` of the totals of the selected orders, 0 for none |
| Dashboard.RevenueNests | backend/controllers/dashboardController.js:30-38 | today's revenue ≤ month's ≤ total, with non-negative amounts |
| Dashboard.GetSummary | backend/controllers/dashboardController.js:19-58 | each count is the number of orders or reservations created since local midnight or the month's start, each revenue the sum over the Paid orders of that window; today ≤ month ≤ total; zero revenue without a Paid order |
| Dashboard.TypeRowFacts | backend/controllers/dashboardController.js:63-80 | each row holds the Paid revenue and count of its type |
| Dashboard.TypeRowsAddUp | backend/controllers/dashboardController.js:63-80 | the rows' revenues add up to the Paid revenue and their counts to the Paid orders |
| Dashboard.TypeRowsCover | backend/controllers/dashboardController.js:63-80 | every Paid order's type has its row |
| Dashboard.TypeRowsOrdered | backend/controllers/dashboardController.js:72-78 | rows are in descending revenue, and two rows share a label only when it is "Unknown" |
| Dashboard.TypeRowsNonEmpty | backend/controllers/dashboardController.js:63-80 | every row counts at least one Paid order |
| Dashboard.RevenueByType | backend/controllers/dashboardController.js:61-85 | descending by revenue, summing to the Paid revenue and Paid count, every Paid type covered, only "Unknown" possibly repeated |
| Dashboard.TrendRowCounts | backend/controllers/dashboardController.js:98-110 | each day row's total is the number of that day's reservations in the window and its Confirmed, Waiting and Cancelled counts are those statuses' counts; at least one, statuses within the total |
| Dashboard.StatusCountsBounded | backend/controllers/dashboardController.js:98-110 | a genuine day row holds its day's total and Confirmed, Waiting and Cancelled counts |
| Dashboard.TrendCoversWindow | backend/controllers/dashboardController.js:95-112 | every reservation in the window has its day's row |
| Dashboard.TrendRowDay | backend/controllers/dashboardController.js:96-99 | every row's day is at or after the window start's day |
| Dashboard.TrendAddsUp | backend/controllers/dashboardController.js:95-113 | the day totals add up to the reservations in the window |
| Dashboard.Trend | backend/controllers/dashboardController.js:91-130 | days strictly ascending, one row for every day with a reservation in the window, each holding that day's counts, all at or after the window start, the totals adding up to the window |
| Dashboard.TableRowFacts | backend/controllers/dashboardController.js:116-121 | each row holds its table's number of Confirmed reservations |
| Dashboard.Turnover | backend/controllers/dashboardController.js:116-134 | ten rows, or one per seated table when fewer: distinct tables, busiest first, each with its count |
| Dashboard.TurnoverKeepsBusiest | backend/controllers/dashboardController.js:119-120 | a seated table is left out only when ten tables are listed, each at least as busy |
| Dashboard.Lines | backend/controllers/dashboardController.js:145 | `$unwind`: one document per order line, every item of every order and nothing else |
| Dashboard.LinesOfOne | backend/controllers/dashboardController.js:145 | unwinding one order gives exactly its lines, in order |
| Dashboard.LinesConcat | backend/controllers/dashboardController.js:145 | unwinding two runs of orders is unwinding each, one after the other, so each line keeps its place and its multiplicity |
| Dashboard.LinesCount | backend/controllers/dashboardController.js:145 | each line occurs in the unwound lines exactly as often as in all the orders together |
| Dashboard.ItemRowFacts | backend/controllers/dashboardController.js:147-151 | each row holds its item's quantity and price times quantity sums |
| Dashboard.ItemRows | backend/controllers/dashboardController.js:146-155 | the grouped, sorted and limited rows over any sequence of lines |
| Dashboard.ItemRowsKeepBestSellers | backend/controllers/dashboardController.js:153-154 | a line whose item is cut off leaves ten rows, each selling at least as much |
| Dashboard.TopItems | backend/controllers/dashboardController.js:142-167 | ten rows, or one per item name when fewer: distinct items, best-selling first, each with its sums |
| Dashboard.TopItemsKeepBestSellers | backend/controllers/dashboardController.js:153-154 | an item is left out only when ten items are listed, each selling at least as much |
| Dashboard.RatingGroupFacts | backend/controllers/dashboardController.js:183 | each rating group holds the number of reviews with that rating |
| Dashboard.RatingListedIffRated | backend/controllers/dashboardController.js:183 | a rating has a group exactly when some review has it |
| Dashboard.UnratedCountsZero | backend/controllers/dashboardController.js:187-190 | a rating no review has counts 0 |
| Dashboard.RatingBreakdown | backend/controllers/dashboardController.js:187-190 | the keys are 1..5 and every rating some review has, each mapped to its number of reviews |
| Dashboard.WriteCounts | backend/controllers/dashboardController.js:186-189 | after the loop over the groups, the keys are 1..5 and every listed rating, a listed rating holding its group count and the others 0 |
| Dashboard.CustomerSatisfaction | backend/controllers/dashboardController.js:170-200 | the rating sum, the review count and the breakdown of the reviews |
| Dashboard.AverageWithinBounds | backend/controllers/dashboardController.js:182-193 | for ratings in 1..5 the sum is between 1 and 5 times the count |
| Dashboard.BreakdownKeysFixed | backend/controllers/dashboardController.js:187 | for ratings in 1..5 the keys are exactly 1..5 |
| Dashboard.BreakdownCountsAll | backend/controllers/dashboardController.js:187-190 | for ratings in 1..5 the five counts add up to the reviews |
| Dashboard.MinDuration | backend/controllers/dashboardController.js:220 | a duration no completed delivery is under, attained by one |
| Dashboard.MaxDuration | backend/controllers/dashboardController.js:221 | a duration no completed delivery exceeds, attained by one |
| Dashboard.DeliveryPerformance | backend/controllers/dashboardController.js:203-243 | the count and total duration of Completed Delivery orders, min ≤ each ≤ max, all zero without any |
| Dashboard.OtherOrdersIgnored | backend/controllers/dashboardController.js:208 | an order that is not a Completed Delivery changes nothing |
| Analytics.NoSettledNoRevenue | backend/routes/analyticsRoutes.js:31-36 | without a settled payment the revenue is 0 |
| Analytics.LedgerRevenue | backend/routes/analyticsRoutes.js:31-36 | the sum of the amounts of the settled payments |
| Analytics.RevenueOfAppended | backend/routes/analyticsRoutes.js:31-36 | a new settled payment adds its amount; any other adds nothing |
| Analytics.VerifiedPaymentAddsTotal | backend/routes/paymentRoutes.js:95-100 | a verified payment raises the analytics revenue by the order's total |
| Analytics.DayCountFacts | backend/routes/analyticsRoutes.js:39-45 | each day row holds its number of orders |
| Analytics.LatestDays | backend/routes/analyticsRoutes.js:39-47 | the seven latest day groups |
| Analytics.DayCountsAtMostOrders | backend/routes/analyticsRoutes.js:39-49 | the listed counts add up to at most the orders |
| Analytics.OrdersPerDay | backend/routes/analyticsRoutes.js:39-49 | seven days, or every day with orders when fewer, strictly ascending, each with its positive count |
| Analytics.OrdersPerDayKeepsLatest | backend/routes/analyticsRoutes.js:46-48 | a day with orders is left out only when seven days are listed, all later |
| Analytics.Summary | backend/routes/analyticsRoutes.js:14-63 | the five counts are the collections' sizes, the revenue is the settled payments' sum |
| CustomerPage.Bumped | frontend/src/pages/CustomerDashboard.jsx:80-83 | the entry with the id gets one more, every other entry unchanged |
| CustomerPage.CartTotal | frontend/src/pages/CustomerDashboard.jsx:40-48 | the sum of price times quantity over the cart |
| CustomerPage.AddedToCart | frontend/src/pages/CustomerDashboard.jsx:77-90 | the cart after adding an item |
| CustomerPage.Removed | frontend/src/pages/CustomerDashboard.jsx:98-100 | no entry with the id is left, every other entry is kept |
| CustomerPage.AddToCartFacts | frontend/src/pages/CustomerDashboard.jsx:77-90 | an item in the cart is bumped, a new item is appended with quantity 1 |
| CustomerPage.AddKeepsValid | frontend/src/pages/CustomerDashboard.jsx:77-90 | adding keeps ids distinct and quantities at least 1 |
| CustomerPage.UpdateKeepsValid | frontend/src/pages/CustomerDashboard.jsx:92-96 | a quantity of at least 1 keeps the cart valid |
| CustomerPage.FilterKeepsValid | frontend/src/pages/CustomerDashboard.jsx:98-100 | filtering keeps the cart valid |
| CustomerPage.RemoveKeepsValid | frontend/src/pages/CustomerDashboard.jsx:98-100 | removing keeps the cart valid |
| CustomerPage.SumForUniqueId | frontend/src/pages/CustomerDashboard.jsx:40-48 | in a valid cart, an id's entries are its one entry |
| CustomerPage.SumForAbsentId | frontend/src/pages/CustomerDashboard.jsx:40-48 | an absent id contributes nothing |
| CustomerPage.BumpedTotal | frontend/src/pages/CustomerDashboard.jsx:40-48 | bumping adds one unit price per bumped entry to the total |
| CustomerPage.UpdateQtyTotal | frontend/src/pages/CustomerDashboard.jsx:92-96 | setting an entry's quantity changes the total by its unit price times the change |
| CustomerPage.TotalSplits | frontend/src/pages/CustomerDashboard.jsx:40-48 | the total is the id's lines plus the rest of the cart |
| CustomerPage.AddRaisesTotal | frontend/src/pages/CustomerDashboard.jsx:77-90 | adding raises the total by the item's price (0 without one) |
| CustomerPage.SumOfAppendOne | frontend/src/pages/CustomerDashboard.jsx:40-48 | appending an entry adds its line to the total |
| CustomerPage.RemoveLowersTotal | frontend/src/pages/CustomerDashboard.jsx:98-100 | removing an entry lowers the total by its line |
| CustomerPage.RemoveKeepsOrder | frontend/src/pages/CustomerDashboard.jsx:98-100 | the entries left keep their order |
| CustomerPage.OrderRejection | frontend/src/pages/CustomerDashboard.jsx:106-117 | each message exactly when its check is the first to fail |
| CustomerPage.OrderPayloadOf | frontend/src/pages/CustomerDashboard.jsx:120-134 | the address only for Delivery, Unpaid, the cart total, one item per entry |
| CustomerPage.PayloadSum | frontend/src/pages/CustomerDashboard.jsx:128-133 | the posted lines add up to the cart total |
| CustomerPage.PayloadTotalMatchesItems | frontend/src/pages/CustomerDashboard.jsx:120-134 | the posted total is the sum of the posted lines |
| CustomerPage.BookingRequest | frontend/src/pages/CustomerDashboard.jsx:180-197 | refused exactly when a field is empty (a typed guests field only when it is ""); otherwise the body carries the fields, `Number` of the guests text, and no table |
| CustomerPage.NumberOfText | frontend/src/pages/CustomerDashboard.jsx:195 | `Number(text)`: 0 for the empty text, the decimal value of a digit string |
| CustomerPage.TypedGuestsRoundTrip | frontend/src/pages/CustomerDashboard.jsx:195 | a typed number of guests is posted as that number |
| CustomerPage.GuestsCheckOnlyEmpty | frontend/src/pages/CustomerDashboard.jsx:184-195 | an empty guests field is refused, a typed "0" is posted as 0, and the initial 2 is posted |
| CustomerPage.PageBookingsCollide | frontend/src/pages/CustomerDashboard.jsx:190-197 | a second booking from the page for the same date and time is refused while the first is Pending |
| CustomerPage.Cart.AddToCart | frontend/src/pages/CustomerDashboard.jsx:77-90 | the cart becomes the added cart, validity kept |
| CustomerPage.Cart.UpdateQty | frontend/src/pages/CustomerDashboard.jsx:92-96 | a NaN or below-1 quantity changes nothing, otherwise the entry's quantity is set; validity kept |
| CustomerPage.Cart.RemoveFromCart | frontend/src/pages/CustomerDashboard.jsx:98-100 | the cart becomes the cart without the id, validity kept |
| CustomerPage.Cart.PlaceOrder | frontend/src/pages/CustomerDashboard.jsx:103-144 | a failed check reports its message, a posted order empties the cart, a failed post keeps it |
| AppGuard.GetUser | frontend/src/App.jsx:27-33 | no stored text or a throwing parse gives null, otherwise the parsed value |
| AppGuard.HomeOf | frontend/src/App.jsx:42-46 | admin to /dashboard, staff to /staff, anyone else to /customer |
| AppGuard.RouteRole | frontend/src/App.jsx:62-142 | the role the three home pages require: admin for /dashboard, staff for /staff, customer for /customer |
| AppGuard.RequireRole | frontend/src/App.jsx:35-49 | no token or no role goes to the login page; it renders exactly for the required role; another role goes to its home |
| AppGuard.MalformedUserLogsOut | frontend/src/App.jsx:27-40 | malformed stored text sends the browser to the login page |
| AppGuard.RedirectReachesHome | frontend/src/App.jsx:42-46 | an admin, staff or customer on another role's page is sent to a page that renders for them |
| AppGuard.UnknownRoleLoops | frontend/src/App.jsx:45 | any other role is sent to /customer, which sends it there again |

## Left out

- Floating point: averages are given as a sum and a count, durations in whole milliseconds, and `toFixed(2)`, `$avg` and the division into minutes are not modelled.
- Money is integral, so `Math.round(total * 100)` is `total * 100`; fractional prices and totals are not modelled.
- Time zones and daylight saving: the local offset is a fixed parameter of `Dashboard.Clock`, and the calendar date parts behind `todayStr` are parameters.
- Dashboard.StartOfMonth: the local day of the month is a parameter of the clock, required to be within 1..31, and the first of the month is the local midnight that many days, less one, before today's; calendar months are not computed.
- Day keys are UTC day numbers; the formatted `%Y-%m-%d` strings are not built.
- Regular expressions: the menu search reads the query as a literal, case-insensitive substring; metacharacters are not interpreted.
- Menu.SearchIgnoresQueryCase: case folding is ASCII only (`Menu.LowerChar` folds A-Z); the `i` flag also folds other letters, such as É to é, and that is not modelled.
- Sort ties: a `sort` or `$sort` on equal keys may return those documents in any order; the contracts state the order only by key.
- Invalid ObjectIds (CastError) and database failures are not modelled; the handlers answer them with 500, except createMenuItem, updateMenuItem and toggleAvailability, whose catch blocks answer 400; nor are `null` values or values of the wrong type in an update body, which the update's casting refuses.
- Concurrency: handlers run one at a time; the race between two bookings, two upserts or two check-ins is not modelled.
- MongoDB semantics are fixed: an undefined query value matches null or missing paths, strict schemas drop unknown paths, updates skip validators, and a duplicate key is refused.
- `populate` is not modelled, so the admin list routes that only return populated lists (`getAllReservations`, `getOrders`, `getAllReviews`, `GET /api/payments`, the staff and attendance lists, `GET /api/staff/all-tasks`) are not separately modelled; their filtering and order are `Queries.FindSortedDesc`.
- getStaffList, getAllTasks, getMyTasks and adminUpdateTask in staffController.js are not modelled: they only read or patch StaffTask documents whose owner paths, as written, are not in the schema.
- The `!Review` branch of getCustomerSatisfaction cannot be taken (the model is always loaded) and is not modelled.
- Orders.MarkOrderPaid: does not keep `transactionId`, because it is not an Order schema path and strict mode drops it.
- A `null` orderType is modelled as the empty string, which `|| "Unknown"` also labels "Unknown".
- CustomerPage.Cart.UpdateQty: fractional quantities are not modelled; `Number(qty)` is an integer or, for NaN, nothing.
- CustomerPage.NumberOfText: only the empty text, digit strings and a minus sign before digits are read as numbers; white space, a plus sign, fractions, exponents and hexadecimal, which `Number` also reads, give NaN here.
- A missing item price is carried as `None` and counts as 0 in the total.
- The `trim` setter is not modelled on updates (updates are stored as given).
- `JSON.parse`, `localStorage`, the HTTP client and the gateway's checkout widget are parameters or left out; rendering, the other pages, payNow, reviews and availability checks from the page are not modelled.
- backend/models/User.js is not part of this model; the users' roles are the parameter `roleOf`.
- The JWT signature and expiry check is the parameter `verify`; HMAC-SHA256 is the parameter `hmac`.
- The invoice generator, the auth routes and the server's static files are not modelled.

## Findings

| source | as written | input that shows it | evidently intended | confidence | as-written member | corrected member |
|---|---|---|---|---|---|---|
| backend/routes/reservationRoutes.js:48-51 | the availability query selects and reads `tableNumber` and `table`, paths the reservation schema does not have | an assigned reservation (table 4) for 2025-01-10 19:00; the list for that slot is empty | report the `tableNo` of every non-Cancelled reservation of the slot | not executed | Availability.BookedTablesAlwaysEmpty | Availability.GuardedTablesAreReported |
| backend/controllers/staffController.js:38-45 | `assignTask` creates the StaffTask with the owner under `staff`, but the schema requires `staffId` | any request with a staff user's id and a title: validation fails and the reply is 500 | write the owner to `staffId` | not executed | StaffController.AssignTaskAsWrittenNeverSucceeds | StaffController.AssignTask |
| backend/controllers/staffController.js:88-90 | `updateMyTaskStatus` compares `String(task.staff)`, which is "undefined" for every schema document | the task's owner updating its status gets 403 | compare the task's `staffId` with the caller | not executed | StaffController.OwnerRefusedAsWritten | StaffController.UpdateMyTaskStatus |
