/** The customer routes: the admin's customer list and a customer's
    history, matched to orders and reservations by name. */
module Customers {
  import opened Common
  import opened Models
  import opened Sorting
  import opened Queries

  /** `GET /api/customers`: every customer, most recently updated first. */
  function CustomerList(cs: seq<Customer>): (r: seq<Customer>)
    ensures multiset(r) == multiset(cs)
    ensures Descending(r, (c: Customer) => c.updatedAt)
  {
    SortDescFacts(cs, (c: Customer) => c.updatedAt);
    SortDesc(cs, (c: Customer) => c.updatedAt)
  }

  function OrderInName(name: string): Order -> bool {
    (o: Order) => o.customerName == name
  }

  function ReservationInName(name: string): Reservation -> bool {
    (r: Reservation) => r.customerName == name
  }

  datatype History = History(customer: Customer, orders: seq<Order>, reservations: seq<Reservation>)

  /** `GET /api/customers/:id`: 404 for an unknown id; otherwise the
      customer with the orders and the reservations made under its name,
      newest first. */
  function CustomerHistory(cs: seq<Customer>, orders: seq<Order>, rs: seq<Reservation>, id: Id)
    : (reply: Reply<History>)
    ensures FindFirst(cs, (c: Customer) => c.id == id).None? <==> reply == Fail(404, "Customer not found")
    ensures reply.Ok? ==> reply.code == 200 && reply.value.customer in cs && reply.value.customer.id == id
    ensures reply.Ok? ==>
              var name := reply.value.customer.customerName;
              (forall i :: 0 <= i < |reply.value.orders| ==>
                 reply.value.orders[i].customerName == name && reply.value.orders[i] in orders)
              && (forall i :: 0 <= i < |orders| && orders[i].customerName == name ==> orders[i] in reply.value.orders)
              && (forall i :: 0 <= i < |reply.value.reservations| ==>
                    reply.value.reservations[i].customerName == name && reply.value.reservations[i] in rs)
              && (forall i :: 0 <= i < |rs| && rs[i].customerName == name ==> rs[i] in reply.value.reservations)
    ensures reply.Ok? ==>
              var name := reply.value.customer.customerName;
              multiset(reply.value.orders) == multiset(Filter(orders, OrderInName(name)))
              && Descending(reply.value.orders, OrderCreated)
              && multiset(reply.value.reservations) == multiset(Filter(rs, ReservationInName(name)))
              && Descending(reply.value.reservations, ReservationCreated)
  {
    match FindFirst(cs, (c: Customer) => c.id == id)
    case None => Fail(404, "Customer not found")
    case Some(i) =>
      var c := cs[i];
      Ok(200, History(c,
                      FindSortedDesc(orders, OrderInName(c.customerName), OrderCreated),
                      FindSortedDesc(rs, ReservationInName(c.customerName), ReservationCreated)))
  }
}
