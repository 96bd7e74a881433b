/** Pharmacy dispensing: fulfilling a prescription and checking out a cart.
    Both walk their lines in order, check each medicine's stock against what
    earlier lines already took, decrement it, price the line, and then record
    an order and an invoice that mirrors the order's lines. Both run in one
    transaction, so any failing line leaves stock, orders, invoices and the
    prescription untouched. */
module Pharmacy {
  import opened Common
  import Orders
  import Invoices

  datatype Medicine = Medicine(id: nat, name: string, genericName: Option<string>, brand: Option<string>,
                               category: Option<string>, description: Option<string>,
                               price: Money, stock: int)

  /** Why a line could not be dispensed. */
  datatype DispenseError =
    | Unresolved(message: string)                           // no usable medicine selection
    | UnknownMedicine(id: int)                              // no medicine with this id
    | InsufficientStock(name: string, required: int, available: int)

  /** A line to dispense: the medicine it names (or why it names none) and a quantity. */
  datatype Request = Request(selection: Result<nat, DispenseError>, quantity: int)

  /** The state after some lines: the stock table, the order lines so far and their total. */
  datatype Dispensed = Dispensed(stock: map<nat, Medicine>, items: seq<Orders.OrderItem>, total: Money)

  /** One line: unknown medicine and short stock fail; otherwise the stock
      drops by the quantity and an order line priced price × quantity is added. */
  function DispenseOne(d: Dispensed, req: Request): Result<Dispensed, DispenseError>
  {
    match req.selection
    case Err(e) => Err(e)
    case Ok(id) =>
      if id !in d.stock then Err(UnknownMedicine(id))
      else
        var m := d.stock[id];
        if m.stock < req.quantity then Err(InsufficientStock(m.name, req.quantity, m.stock))
        else
          var lineTotal := m.price * req.quantity;
          Ok(Dispensed(d.stock[id := m.(stock := m.stock - req.quantity)],
                       d.items + [Orders.OrderItem(id, m.name, req.quantity, m.price, lineTotal)],
                       d.total + lineTotal))
  }

  /** The lines processed left to right, stopping at the first failure. */
  function Dispense(stock: map<nat, Medicine>, reqs: seq<Request>): Result<Dispensed, DispenseError>
  {
    if reqs == [] then Ok(Dispensed(stock, [], 0))
    else
      match Dispense(stock, reqs[..|reqs| - 1])
      case Err(e) => Err(e)
      case Ok(d) => DispenseOne(d, reqs[|reqs| - 1])
  }

  /** The total quantity the lines ask of one medicine. */
  function Demand(reqs: seq<Request>, id: nat): int
  {
    if reqs == [] then 0
    else Demand(reqs[..|reqs| - 1], id) + (if reqs[|reqs| - 1].selection == Ok(id) then reqs[|reqs| - 1].quantity else 0)
  }

  function ItemsTotal(items: seq<Orders.OrderItem>): Money
  {
    if items == [] then 0 else ItemsTotal(items[..|items| - 1]) + items[|items| - 1].lineTotal
  }

  /** A failure on a prefix is the failure of the whole, with the same error. */
  lemma {:induction false} DispensePrefixFails(stock: map<nat, Medicine>, reqs: seq<Request>, i: nat)
    requires i <= |reqs| && Dispense(stock, reqs[..i]).Err?
    ensures Dispense(stock, reqs) == Dispense(stock, reqs[..i])
    decreases |reqs| - i
  {
    if i < |reqs| {
      assert reqs[..i + 1][..i] == reqs[..i];
      DispensePrefixFails(stock, reqs, i + 1);
    } else {
      assert reqs[..i] == reqs;
    }
  }

  /** Every medicine's stock drops by exactly what the lines took of it, and
      nothing else about any medicine changes. */
  lemma {:induction false} DispenseConservesStock(stock: map<nat, Medicine>, reqs: seq<Request>)
    requires Dispense(stock, reqs).Ok?
    ensures Dispense(stock, reqs).value.stock.Keys == stock.Keys
    ensures forall id :: id in stock ==>
              Dispense(stock, reqs).value.stock[id] == stock[id].(stock := stock[id].stock - Demand(reqs, id))
  {
    if reqs != [] {
      DispenseConservesStock(stock, reqs[..|reqs| - 1]);
    }
  }

  /** Every line becomes one order line, in order, for the named medicine at its
      price, and the running total is the sum of price × quantity. */
  lemma {:induction false} DispenseLines(stock: map<nat, Medicine>, reqs: seq<Request>)
    requires Dispense(stock, reqs).Ok?
    ensures var d := Dispense(stock, reqs).value;
            |d.items| == |reqs| && d.total == ItemsTotal(d.items) &&
            forall k :: 0 <= k < |reqs| ==>
              reqs[k].selection == Ok(d.items[k].medicineId) && d.items[k].medicineId in stock &&
              d.items[k].quantity == reqs[k].quantity &&
              d.items[k].medicineName == stock[d.items[k].medicineId].name &&
              d.items[k].pricePerItem == stock[d.items[k].medicineId].price &&
              d.items[k].lineTotal == d.items[k].pricePerItem * d.items[k].quantity
  {
    if reqs != [] {
      var init := reqs[..|reqs| - 1];
      DispenseLines(stock, init);
      DispenseConservesStock(stock, init);
      var d0 := Dispense(stock, init).value;
      var d := Dispense(stock, reqs).value;
      assert d.items[..|d.items| - 1] == d0.items;
      forall k | 0 <= k < |init|
        ensures reqs[k] == init[k]
      {
      }
    }
  }

  /** With no negative quantities, the lines go through exactly when every
      line names a known medicine and no medicine is asked for more than it
      has in stock, in total over all lines that name it (stock levels are
      never negative, as the medicine entity requires). */
  lemma DispenseSucceedsIff(stock: map<nat, Medicine>, reqs: seq<Request>)
    requires forall k :: 0 <= k < |reqs| ==> reqs[k].quantity >= 0
    requires forall id :: id in stock ==> stock[id].stock >= 0
    ensures Dispense(stock, reqs).Ok? <==>
              (forall k :: 0 <= k < |reqs| ==> reqs[k].selection.Ok? && reqs[k].selection.value in stock) &&
              (forall id :: id in stock ==> Demand(reqs, id) <= stock[id].stock)
  {
    if Dispense(stock, reqs).Ok? {
      DispensedLinesWereFeasible(stock, reqs);
    } else if (forall k :: 0 <= k < |reqs| ==> reqs[k].selection.Ok? && reqs[k].selection.value in stock) &&
              (forall id :: id in stock ==> Demand(reqs, id) <= stock[id].stock) {
      FeasibleLinesDispense(stock, reqs);
    }
  }

  /** Lines that went through named known medicines and asked no more than the stock held. */
  lemma DispensedLinesWereFeasible(stock: map<nat, Medicine>, reqs: seq<Request>)
    requires Dispense(stock, reqs).Ok?
    requires forall id :: id in stock ==> stock[id].stock >= 0
    ensures forall k :: 0 <= k < |reqs| ==> reqs[k].selection.Ok? && reqs[k].selection.value in stock
    ensures forall id :: id in stock ==> Demand(reqs, id) <= stock[id].stock
  {
    var d := Dispense(stock, reqs).value;
    DispenseLines(stock, reqs);
    DispenseConservesStock(stock, reqs);
    DispenseKeepsStockNonNegative(stock, reqs);
    forall id | id in stock
      ensures Demand(reqs, id) <= stock[id].stock
    {
      assert d.stock[id].stock >= 0;
    }
  }

  /** Lines with no negative quantity that name known medicines and ask no
      more of each than its stock go through. */
  lemma {:induction false} FeasibleLinesDispense(stock: map<nat, Medicine>, reqs: seq<Request>)
    requires forall k :: 0 <= k < |reqs| ==> reqs[k].quantity >= 0
    requires forall k :: 0 <= k < |reqs| ==> reqs[k].selection.Ok? && reqs[k].selection.value in stock
    requires forall id :: id in stock ==> Demand(reqs, id) <= stock[id].stock
    ensures Dispense(stock, reqs).Ok?
  {
    if reqs != [] {
      var init := reqs[..|reqs| - 1];
      var last := reqs[|reqs| - 1];
      assert reqs == init + [last];
      DemandMonotone(init, last);
      forall k | 0 <= k < |init|
        ensures init[k].selection.Ok? && init[k].selection.value in stock && init[k].quantity >= 0
      {
        assert reqs[k] == init[k];
      }
      assert forall id :: id in stock ==> Demand(init, id) <= stock[id].stock;
      FeasibleLinesDispense(stock, init);
      DispenseConservesStock(stock, init);
      var d0 := Dispense(stock, init).value;
      assert Dispense(stock, reqs) == DispenseOne(d0, last);
      assert d0.stock[last.selection.value].stock >= last.quantity;
    }
  }

  lemma DemandMonotone(init: seq<Request>, last: Request)
    requires last.quantity >= 0
    ensures forall id: nat :: Demand(init, id) <= Demand(init + [last], id)
    ensures forall id: nat :: last.selection != Ok(id) ==> Demand(init + [last], id) == Demand(init, id)
    ensures forall id: nat :: last.selection == Ok(id) ==> Demand(init + [last], id) == Demand(init, id) + last.quantity
  {
    assert (init + [last])[..|init|] == init;
  }

  /** Starting from non-negative stock, dispensing never drives stock negative. */
  lemma {:induction false} DispenseKeepsStockNonNegative(stock: map<nat, Medicine>, reqs: seq<Request>)
    requires Dispense(stock, reqs).Ok?
    requires forall id :: id in stock ==> stock[id].stock >= 0
    ensures forall id :: id in Dispense(stock, reqs).value.stock ==> Dispense(stock, reqs).value.stock[id].stock >= 0
  {
    if reqs != [] {
      DispenseKeepsStockNonNegative(stock, reqs[..|reqs| - 1]);
    }
  }

  /** The lines of the dispensing loop, run over a working copy of the stock. */
  method RunDispense(stock: map<nat, Medicine>, reqs: seq<Request>) returns (r: Result<Dispensed, DispenseError>)
    ensures r == Dispense(stock, reqs)
  {
    var current := stock;
    var items: seq<Orders.OrderItem> := [];
    var total: Money := 0;
    for i := 0 to |reqs|
      invariant Dispense(stock, reqs[..i]) == Ok(Dispensed(current, items, total))
    {
      assert reqs[..i + 1][..i] == reqs[..i];
      var req := reqs[i];
      if req.selection.Err? {
        DispensePrefixFails(stock, reqs, i + 1);
        return Err(req.selection.error);
      }
      var id := req.selection.value;
      if id !in current {
        DispensePrefixFails(stock, reqs, i + 1);
        return Err(UnknownMedicine(id));
      }
      var m := current[id];
      if m.stock < req.quantity {
        DispensePrefixFails(stock, reqs, i + 1);
        return Err(InsufficientStock(m.name, req.quantity, m.stock));
      }
      current := current[id := m.(stock := m.stock - req.quantity)];
      var lineTotal := m.price * req.quantity;
      items := items + [Orders.OrderItem(id, m.name, req.quantity, m.price, lineTotal)];
      total := total + lineTotal;
    }
    assert reqs[..|reqs|] == reqs;
    r := Ok(Dispensed(current, items, total));
  }

  /** The invoice lines copied from the order lines: name, quantity, unit price, line total. */
  function MirrorItems(items: seq<Orders.OrderItem>): (r: seq<Invoices.InvoiceItem>)
    ensures |r| == |items|
    ensures forall k :: 0 <= k < |items| ==>
              r[k] == Invoices.InvoiceItem(items[k].medicineName, items[k].quantity,
                                           items[k].pricePerItem, items[k].lineTotal)
  {
    seq(|items|, k requires 0 <= k < |items| =>
      Invoices.InvoiceItem(items[k].medicineName, items[k].quantity, items[k].pricePerItem, items[k].lineTotal))
  }

  /** The medicine table; every stock level is non-negative. */
  class MedicineRepository {
    var medicines: map<nat, Medicine>

    ghost predicate Valid()
      reads this
    {
      WellKeyed(medicines)
    }

    constructor(medicines: map<nat, Medicine>)
      requires WellKeyed(medicines)
      ensures Valid() && this.medicines == medicines
    {
      this.medicines := medicines;
    }

    /** Saves the stock levels a successful dispensing left. */
    method Commit(table: map<nat, Medicine>)
      requires WellKeyed(table)
      modifies this
      ensures Valid() && medicines == table
    {
      medicines := table;
    }
  }

  /** Every medicine sits under its own id with a non-negative stock level. */
  predicate WellKeyed(table: map<nat, Medicine>)
  {
    forall id :: id in table ==> table[id].id == id && table[id].stock >= 0
  }

  /** Dispensing from a well-keyed table leaves a well-keyed table. */
  lemma DispenseKeepsWellKeyed(stock: map<nat, Medicine>, reqs: seq<Request>)
    requires WellKeyed(stock) && Dispense(stock, reqs).Ok?
    ensures WellKeyed(Dispense(stock, reqs).value.stock)
  {
    DispenseConservesStock(stock, reqs);
    DispenseKeepsStockNonNegative(stock, reqs);
  }

  /** The first writes of a successful sale: the stock the dispensing left
      replaces the table, and a PENDING_PAYMENT order holding its priced lines
      and no invoice yet is stored under a fresh id. */
  method StoreOrder(medicines: MedicineRepository, orders: Orders.OrderRepository, patient: nat, d: Dispensed)
    returns (order: Orders.Order)
    requires orders.Valid() && WellKeyed(d.stock)
    modifies medicines, orders
    ensures medicines.Valid() && orders.Valid() && medicines.medicines == d.stock
    ensures order == Orders.Order(old(orders.nextId), patient, Orders.PendingPayment, d.items, d.total, None)
    ensures orders.orders == old(orders.orders)[order.id := order]
  {
    medicines.Commit(d.stock);
    order := orders.Insert(Orders.Order(0, patient, Orders.PendingPayment, d.items, d.total, None));
  }

  // ---------------------------------------------------------------------------
  // Checkout from the shop cart

  datatype CartLine = CartLine(medicineId: nat, quantity: int)

  function CartRequests(cart: seq<CartLine>): (reqs: seq<Request>)
    ensures |reqs| == |cart|
    ensures forall k :: 0 <= k < |cart| ==> reqs[k] == Request(Ok(cart[k].medicineId), cart[k].quantity)
  {
    seq(|cart|, k requires 0 <= k < |cart| => Request(Ok(cart[k].medicineId), cart[k].quantity))
  }

  function DispenseMessage(e: DispenseError): string
  {
    match e
    case Unresolved(msg) => msg
    case UnknownMedicine(id) => "Medicine not found with ID: " + JavaInt(id)
    case InsufficientStock(name, _, _) => "Insufficient stock for " + name
  }

  /** The invoice draft of a checkout: PENDING, due in seven days, no tax or
      discount, subtotal the order total, lines mirroring the order. */
  function CartDraft(patient: nat, orderId: nat, d: Dispensed, today: Day): Invoices.InvoiceDraft
  {
    Invoices.NewDraft(patient, today, Some(today + 7)).(
      description := Some("Pharmacy Order - #" + NatToString(orderId)),
      subtotal := Some(d.total), items := MirrorItems(d.items))
  }

  class PharmacyOrderService {
    const medicines: MedicineRepository
    const invoices: Invoices.InvoiceService

    ghost predicate Valid()
      reads this, medicines, invoices, invoices.orders
    {
      medicines.Valid() && invoices.Valid()
    }

    constructor(medicines: MedicineRepository, invoices: Invoices.InvoiceService)
      requires medicines.Valid() && invoices.Valid()
      ensures Valid() && this.medicines == medicines && this.invoices == invoices
    {
      this.medicines := medicines;
      this.invoices := invoices;
    }

    /** `createOrderAndInvoiceFromCart`. An empty cart or a failing line leaves
        everything as it was. Otherwise the stock is decremented, a
        PENDING_PAYMENT order holding the priced lines is stored, an invoice
        mirroring it is created and numbered, and the order is linked to it.
        A receipt or e-mail failure afterwards changes nothing. */
    method CreateOrderAndInvoiceFromCart(patient: nat, cart: seq<CartLine>, now: Invoices.Now)
      returns (r: Result<Invoices.Invoice, string>)
      requires Valid() && now.Valid()
      modifies medicines, invoices, invoices.orders
      ensures Valid()
      ensures r.Err? <==> cart == [] || Dispense(old(medicines.medicines), CartRequests(cart)).Err?
      ensures r.Err? ==> medicines.medicines == old(medicines.medicines) && invoices.invoices == old(invoices.invoices)
                         && invoices.orders.orders == old(invoices.orders.orders)
      ensures r.Ok? ==>
                var d := Dispense(old(medicines.medicines), CartRequests(cart)).value;
                var orderId := old(invoices.orders.nextId);
                medicines.medicines == d.stock &&
                invoices.orders.orders == old(invoices.orders.orders)[orderId :=
                  Orders.Order(orderId, patient, Orders.PendingPayment, d.items, d.total, Some(r.value.id))] &&
                r.value.id == old(invoices.nextId) &&
                invoices.invoices == old(invoices.invoices)[r.value.id := r.value] &&
                r.value == Invoices.CalculateTotals(CartDraft(patient, orderId, d, now.today), r.value.id,
                                                    Some(Invoices.ServiceInvoiceNumber(now.year, now.month, |old(invoices.invoices)| + 1)),
                                                    Invoices.Pending)
    {
      if cart == [] {
        return Err("Cart cannot be empty.");
      }
      var reqs := CartRequests(cart);
      var dispensed := RunDispense(medicines.medicines, reqs);
      if dispensed.Err? {
        return Err(DispenseMessage(dispensed.error));
      }
      DispenseKeepsWellKeyed(medicines.medicines, reqs);
      var inv := RecordCheckout(patient, dispensed.value, now);
      r := Ok(inv);
    }

    /** The writes of a checkout whose lines all dispensed: stock, order,
        invoice, and the order's link to the invoice. */
    method RecordCheckout(patient: nat, d: Dispensed, now: Invoices.Now) returns (inv: Invoices.Invoice)
      requires Valid() && now.Valid() && WellKeyed(d.stock)
      modifies medicines, invoices, invoices.orders
      ensures Valid()
      ensures var orderId := old(invoices.orders.nextId);
              medicines.medicines == d.stock &&
              invoices.orders.orders == old(invoices.orders.orders)[orderId :=
                Orders.Order(orderId, patient, Orders.PendingPayment, d.items, d.total, Some(inv.id))] &&
              inv.id == old(invoices.nextId) &&
              invoices.invoices == old(invoices.invoices)[inv.id := inv] &&
              inv == Invoices.CalculateTotals(CartDraft(patient, orderId, d, now.today), inv.id,
                                              Some(Invoices.ServiceInvoiceNumber(now.year, now.month, |old(invoices.invoices)| + 1)),
                                              Invoices.Pending)
    {
      var order := StoreOrder(medicines, invoices.orders, patient, d);
      var draft := CartDraft(patient, order.id, d, now.today);
      assert draft.number.None? && draft.status == Some(Invoices.Pending);
      inv := invoices.CreateInvoice(draft, now);
      invoices.orders.LinkInvoice(order.id, inv.id);
      assert invoices.orders.orders == old(invoices.orders.orders)[order.id := order.(invoice := Some(inv.id))];
    }
  }

  /** What a checkout's invoice says: its lines mirror the order's, subtotal
      and total are the sum of the line totals, tax and discount are zero, the
      balance is that sum (zero if negative), it is PENDING and due in a week. */
  lemma CartInvoiceMirrorsOrder(stock: map<nat, Medicine>, cart: seq<CartLine>, patient: nat,
                                orderId: nat, today: Day, id: nat, number: Option<string>)
    requires Dispense(stock, CartRequests(cart)).Ok?
    ensures var d := Dispense(stock, CartRequests(cart)).value;
            var inv := Invoices.CalculateTotals(CartDraft(patient, orderId, d, today), id, number, Invoices.Pending);
            inv.items == MirrorItems(d.items) && |inv.items| == |cart| &&
            inv.subtotal == ItemsTotal(d.items) && inv.total == ItemsTotal(d.items) &&
            inv.tax == 0 && inv.discount == 0 && inv.amountPaid == 0 &&
            inv.balanceDue == Max0(ItemsTotal(d.items)) &&
            inv.status == Invoices.Pending && inv.dueDate == Some(today + 7) && inv.issueDate == today
  {
    DispenseLines(stock, CartRequests(cart));
  }

  // ---------------------------------------------------------------------------
  // Prescription fulfilment

  datatype PrescriptionStatus = PrescriptionPending | Fulfilled | PrescriptionCancelled

  /** The enum constant's name, as string concatenation prints it. */
  function StatusName(s: PrescriptionStatus): string
  {
    match s
      case PrescriptionPending => "PENDING"
      case Fulfilled => "FULFILLED"
      case PrescriptionCancelled => "CANCELLED"
  }

  datatype PrescriptionItem = PrescriptionItem(id: nat, medicineName: string, quantity: int, medicine: Option<nat>)

  datatype Prescription = Prescription(id: nat, patient: Option<nat>, status: PrescriptionStatus,
                                       items: seq<PrescriptionItem>)

  /** The form field naming the medicine chosen for an item. */
  function FormKey(item: PrescriptionItem): string
  {
    "item_" + NatToString(item.id) + "_medicineId"
  }

  /** The medicine the pharmacist chose for an item: a missing or blank field
      fails, text that is not a number fails as Java's parser does, and a
      negative number names no medicine. */
  function Selection(form: map<string, string>, item: PrescriptionItem): (r: Result<nat, DispenseError>)
    ensures (FormKey(item) !in form || IsBlank(form[FormKey(item)])) ==>
              r == Err(Unresolved("No medicine selected for item: '" + item.medicineName + "'"))
    ensures r.Ok? ==> FormKey(item) in form && ParseLong(form[FormKey(item)]) == Some(r.value as int)
  {
    var key := FormKey(item);
    if key !in form || IsBlank(form[key]) then Err(Unresolved("No medicine selected for item: '" + item.medicineName + "'"))
    else match ParseLong(form[key])
      case None => Err(Unresolved("For input string: \"" + form[key] + "\""))
      case Some(v) => if v < 0 then Err(UnknownMedicine(v)) else Ok(v as nat)
  }

  function PrescriptionRequests(form: map<string, string>, items: seq<PrescriptionItem>): (reqs: seq<Request>)
    ensures |reqs| == |items|
    ensures forall k :: 0 <= k < |items| ==> reqs[k] == Request(Selection(form, items[k]), items[k].quantity)
  {
    seq(|items|, k requires 0 <= k < |items| => Request(Selection(form, items[k]), items[k].quantity))
  }

  /** The items after fulfilment, each linked to the medicine chosen for it. */
  function LinkMedicines(form: map<string, string>, items: seq<PrescriptionItem>): (r: seq<PrescriptionItem>)
    requires forall k :: 0 <= k < |items| ==> Selection(form, items[k]).Ok?
    ensures |r| == |items|
    ensures forall k :: 0 <= k < |items| ==> r[k] == items[k].(medicine := Some(Selection(form, items[k]).value))
  {
    seq(|items|, k requires 0 <= k < |items| => items[k].(medicine := Some(Selection(form, items[k]).value)))
  }

  /** Items whose requests all dispensed each had a usable selection. */
  lemma SelectionsResolved(stock: map<nat, Medicine>, form: map<string, string>, items: seq<PrescriptionItem>)
    requires Dispense(stock, PrescriptionRequests(form, items)).Ok?
    ensures forall k :: 0 <= k < |items| ==> Selection(form, items[k]).Ok?
  {
    var reqs := PrescriptionRequests(form, items);
    DispenseLines(stock, reqs);
    forall k | 0 <= k < |items|
      ensures Selection(form, items[k]).Ok?
    {
      assert reqs[k].selection == Selection(form, items[k]);
    }
  }

  function InsufficientMessage(e: DispenseError): string
  {
    match e
    case Unresolved(msg) => msg
    case UnknownMedicine(id) => "Medicine not found with ID: " + JavaInt(id)
    case InsufficientStock(name, required, available) =>
      "Insufficient stock for " + name + ". Required: " + JavaInt(required) + ", Available: " + JavaInt(available)
  }

  function JavaInt(i: int): string
  {
    if i < 0 then "-" + NatToString(-i) else NatToString(i)
  }

  /** The invoice draft of a fulfilment: PENDING, due in thirty days, lines
      mirroring the order, subtotal the order total. */
  function PrescriptionDraft(patient: nat, prescriptionId: nat, d: Dispensed, today: Day): Invoices.InvoiceDraft
  {
    Invoices.NewDraft(patient, today, Some(today + 30)).(
      description := Some("Pharmacy medication order from prescription #" + NatToString(prescriptionId)),
      subtotal := Some(d.total), items := MirrorItems(d.items))
  }

  class PrescriptionService {
    var prescriptions: map<nat, Prescription>
    const medicines: MedicineRepository
    const invoices: Invoices.InvoiceService

    ghost predicate Valid()
      reads this, medicines, invoices, invoices.orders
    {
      medicines.Valid() && invoices.Valid() &&
      forall id :: id in prescriptions ==> prescriptions[id].id == id
    }

    constructor(prescriptions: map<nat, Prescription>, medicines: MedicineRepository, invoices: Invoices.InvoiceService)
      requires medicines.Valid() && invoices.Valid()
      requires forall id :: id in prescriptions ==> prescriptions[id].id == id
      ensures Valid() && this.prescriptions == prescriptions
      ensures this.medicines == medicines && this.invoices == invoices
    {
      this.prescriptions := prescriptions;
      this.medicines := medicines;
      this.invoices := invoices;
    }

    /** `fulfillPrescription`. A missing prescription, one that is not PENDING
        or one without a patient fails first, in that order; then any item
        without a usable selection, naming an unknown medicine or asking for
        more than is left fails. Any failure changes nothing. On success the
        stock is decremented, a PENDING_PAYMENT order is stored and linked to
        a saved invoice mirroring it, each item is linked to its medicine and
        the prescription becomes FULFILLED. */
    method FulfillPrescription(id: nat, form: map<string, string>, now: Invoices.Now) returns (r: Outcome<string>)
      requires Valid() && now.Valid()
      modifies this, medicines, invoices, invoices.orders
      ensures Valid()
      ensures r.Fail? ==> prescriptions == old(prescriptions) && medicines.medicines == old(medicines.medicines)
                          && invoices.invoices == old(invoices.invoices) && invoices.orders.orders == old(invoices.orders.orders)
      ensures id !in old(prescriptions) ==> r == Fail("Prescription not found with ID: " + NatToString(id))
      ensures id in old(prescriptions) && old(prescriptions)[id].status != PrescriptionPending ==>
                r == Fail("Only PENDING prescriptions can be fulfilled. Current status: " + StatusName(old(prescriptions)[id].status))
      ensures id in old(prescriptions) && old(prescriptions)[id].patient.None? ==> r.Fail?
      ensures r.Pass? <==>
                id in old(prescriptions) && old(prescriptions)[id].status == PrescriptionPending &&
                old(prescriptions)[id].patient.Some? &&
                Dispense(old(medicines.medicines), PrescriptionRequests(form, old(prescriptions)[id].items)).Ok?
      ensures r.Pass? ==>
                var p := old(prescriptions)[id];
                var d := Dispense(old(medicines.medicines), PrescriptionRequests(form, p.items)).value;
                var orderId := old(invoices.orders.nextId);
                var invId := old(invoices.nextId);
                (forall k :: 0 <= k < |p.items| ==> Selection(form, p.items[k]).Ok?) &&
                medicines.medicines == d.stock &&
                prescriptions == old(prescriptions)[id := p.(status := Fulfilled, items := LinkMedicines(form, p.items))] &&
                invoices.orders.orders == old(invoices.orders.orders)[orderId :=
                  Orders.Order(orderId, p.patient.value, Orders.PendingPayment, d.items, d.total, Some(invId))] &&
                invId in invoices.invoices &&
                invoices.invoices == old(invoices.invoices)[invId := invoices.invoices[invId]] &&
                invoices.invoices[invId] ==
                  Invoices.AssignNumberOnPersist(
                    Invoices.CalculateTotals(PrescriptionDraft(p.patient.value, id, d, now.today), invId, None, Invoices.Pending), now)
    {
      if id !in prescriptions {
        return Fail("Prescription not found with ID: " + NatToString(id));
      }
      var p := prescriptions[id];
      if p.status != PrescriptionPending {
        return Fail("Only PENDING prescriptions can be fulfilled. Current status: " + StatusName(p.status));
      }
      if p.patient.None? {
        return Fail("Prescription is not linked to a valid patient.");
      }
      var reqs := PrescriptionRequests(form, p.items);
      var dispensed := RunDispense(medicines.medicines, reqs);
      if dispensed.Err? {
        return Fail(InsufficientMessage(dispensed.error));
      }
      DispenseKeepsWellKeyed(medicines.medicines, reqs);
      SelectionsResolved(medicines.medicines, form, p.items);
      RecordFulfilment(id, form, dispensed.value, now);
      r := Pass;
    }

    /** The writes of a fulfilment whose items all dispensed: stock, order,
        invoice, the order's link to it, and the prescription itself. */
    method RecordFulfilment(id: nat, form: map<string, string>, d: Dispensed, now: Invoices.Now)
      requires Valid() && now.Valid() && id in prescriptions && prescriptions[id].patient.Some?
      requires WellKeyed(d.stock)
      requires forall k :: 0 <= k < |prescriptions[id].items| ==> Selection(form, prescriptions[id].items[k]).Ok?
      modifies this, medicines, invoices, invoices.orders
      ensures Valid()
      ensures var p := old(prescriptions)[id];
              var orderId := old(invoices.orders.nextId);
              var invId := old(invoices.nextId);
              medicines.medicines == d.stock &&
              prescriptions == old(prescriptions)[id := p.(status := Fulfilled, items := LinkMedicines(form, p.items))] &&
              invoices.orders.orders == old(invoices.orders.orders)[orderId :=
                Orders.Order(orderId, p.patient.value, Orders.PendingPayment, d.items, d.total, Some(invId))] &&
              invId in invoices.invoices &&
              invoices.invoices == old(invoices.invoices)[invId := invoices.invoices[invId]] &&
              invoices.invoices[invId] ==
                Invoices.AssignNumberOnPersist(
                  Invoices.CalculateTotals(PrescriptionDraft(p.patient.value, id, d, now.today), invId, None, Invoices.Pending), now)
    {
      var p := prescriptions[id];
      var linked := LinkMedicines(form, p.items);
      var order := StoreOrder(medicines, invoices.orders, p.patient.value, d);
      var draft := PrescriptionDraft(p.patient.value, id, d, now.today);
      assert draft.number.None? && draft.status == Some(Invoices.Pending);
      var inv := invoices.SaveInvoice(draft, now);
      invoices.orders.LinkInvoice(order.id, inv.id);
      assert invoices.orders.orders == old(invoices.orders.orders)[order.id := order.(invoice := Some(inv.id))];
      prescriptions := prescriptions[id := p.(status := Fulfilled, items := linked)];
    }
  }
}
