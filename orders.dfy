/** Pharmacy orders as the invoice and pharmacy services see them: an order
    starts PENDING_PAYMENT, is linked to its invoice, and is COMPLETED when a
    payment settles that invoice. */
module Orders {
  import opened Common

  datatype OrderStatus = PendingPayment | Completed

  datatype OrderItem = OrderItem(medicineId: nat, medicineName: string, quantity: int,
                                 pricePerItem: Money, lineTotal: Money)

  datatype Order = Order(id: nat, patient: nat, status: OrderStatus, items: seq<OrderItem>,
                         totalAmount: Money, invoice: Option<nat>)

  /** `findByInvoice(invoice).ifPresent(order -> setStatus(COMPLETED))`:
      the orders linked to the invoice become COMPLETED and nothing else changes.
      The repository's lookup returns at most one order and fails when several
      are linked to one invoice; every flow that links an order creates a new
      invoice for it, so at most one order ever matches and completing all
      matches is the same as completing the one found. */
  function CompleteLinked(orders: map<nat, Order>, invoiceId: nat): (r: map<nat, Order>)
    ensures r.Keys == orders.Keys
    ensures forall id :: id in orders && orders[id].invoice == Some(invoiceId) ==>
              r[id] == orders[id].(status := Completed)
    ensures forall id :: id in orders && orders[id].invoice != Some(invoiceId) ==> r[id] == orders[id]
  {
    map id | id in orders :: if orders[id].invoice == Some(invoiceId) then orders[id].(status := Completed) else orders[id]
  }

  /** The order table, keyed by generated id. */
  class OrderRepository {
    var orders: map<nat, Order>
    var nextId: nat

    ghost predicate Valid()
      reads this
    {
      forall id :: id in orders ==> orders[id].id == id && id < nextId
    }

    constructor()
      ensures Valid() && orders == map[]
    {
      orders := map[];
      nextId := 1;
    }

    /** `orderRepository.save(newOrder)`: stores the order under a fresh id. */
    method Insert(o: Order) returns (saved: Order)
      requires Valid()
      modifies this
      ensures Valid()
      ensures saved == o.(id := old(nextId)) && saved.id !in old(orders)
      ensures orders == old(orders)[saved.id := saved]
    {
      saved := o.(id := nextId);
      orders := orders[nextId := saved];
      nextId := nextId + 1;
    }

    /** `savedOrder.setInvoice(invoice); save(savedOrder)`. */
    method LinkInvoice(orderId: nat, invoiceId: nat)
      requires Valid() && orderId in orders
      modifies this
      ensures Valid()
      ensures orders == old(orders)[orderId := old(orders)[orderId].(invoice := Some(invoiceId))]
    {
      orders := orders[orderId := orders[orderId].(invoice := Some(invoiceId))];
    }

    /** The order-completion step of `applyPayment`. */
    method CompleteOrdersOf(invoiceId: nat)
      requires Valid()
      modifies this
      ensures Valid()
      ensures orders == CompleteLinked(old(orders), invoiceId)
    {
      orders := CompleteLinked(orders, invoiceId);
    }
  }
}
