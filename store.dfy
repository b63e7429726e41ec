/** The database: one in-memory collection per Mongoose model the handlers
    use, each held as a sequence in insertion order. Handlers are methods
    over a `Db` that name in their `modifies` clause exactly the
    collections they write. */
module Store {
  import opened Models

  class Db {
    var reservations: seq<Reservation>
    var orders: seq<Order>
    var customers: seq<Customer>
    var reviews: seq<Review>
    var menu: seq<MenuItem>
    var tasks: seq<Task>
    var staffTasks: seq<StaffTask>
    var attendance: seq<Attendance>
    var payments: seq<Payment>
    var staff: seq<Staff>

    /** An empty database. */
    constructor ()
      ensures reservations == [] && orders == [] && customers == [] && reviews == [] && menu == []
      ensures tasks == [] && staffTasks == [] && attendance == [] && payments == []
      ensures staff == []
    {
      reservations := [];
      orders := [];
      customers := [];
      reviews := [];
      menu := [];
      tasks := [];
      staffTasks := [];
      attendance := [];
      payments := [];
      staff := [];
    }
  }
}
