/** The invoice engine: totals, payment crediting and status, the two invoice
    number formats, the overdue / outstanding / aging reports, and the service
    that owns the invoice table. */
module Invoices {
  import opened Common
  import Orders

  datatype InvoiceStatus = Draft | Pending | Sent | Paid | PartiallyPaid | Overdue | Cancelled | Refunded

  datatype InvoiceItem = InvoiceItem(description: string, quantity: int, unitPrice: Money, lineTotal: Money)

  /** The parts of `LocalDate.now()` the invoice code reads: the day for due-date
      comparisons, and the year and month for invoice numbers. */
  datatype Now = Now(today: Day, year: int, month: int)
  {
    predicate Valid() { 1 <= year <= 9999 && 1 <= month <= 12 }
  }

  /** An invoice as callers fill it in before it is saved; `None` is a null field. */
  datatype InvoiceDraft = InvoiceDraft(
    number: Option<string>, patient: nat, appointment: Option<nat>, description: Option<string>,
    issueDate: Day, dueDate: Option<Day>, notes: Option<string>,
    subtotal: Option<Money>, tax: Option<Money>, discount: Option<Money>, amountPaid: Option<Money>,
    status: Option<InvoiceStatus>, items: seq<InvoiceItem>)

  /** A stored invoice. */
  datatype Invoice = Invoice(
    id: nat, number: Option<string>, patient: nat, appointment: Option<nat>, description: Option<string>,
    issueDate: Day, dueDate: Option<Day>, notes: Option<string>,
    subtotal: Money, tax: Money, discount: Money, total: Money, amountPaid: Money, balanceDue: Money,
    status: InvoiceStatus, items: seq<InvoiceItem>)
  {
    /** What `calculateInvoiceTotals` establishes: the total is derived from
        its parts and the balance is what is left to pay, never negative. */
    predicate Consistent()
    {
      total == subtotal + tax - discount && balanceDue == Max0(total - amountPaid)
    }

    /** The `@DecimalMin("0.00")` constraints on the money fields. */
    predicate NonNegative()
    {
      subtotal >= 0 && tax >= 0 && discount >= 0 && total >= 0 && amountPaid >= 0 && balanceDue >= 0
    }
  }

  /** `new Invoice()`: tax, discount and amount paid start at zero and the status at PENDING. */
  function NewDraft(patient: nat, issueDate: Day, dueDate: Option<Day>): (d: InvoiceDraft)
    ensures d.tax == Some(0) && d.discount == Some(0) && d.amountPaid == Some(0)
    ensures d.status == Some(Pending)
    ensures d.number.None? && d.subtotal.None? && d.items == []
    ensures d.patient == patient && d.issueDate == issueDate && d.dueDate == dueDate
  {
    InvoiceDraft(None, patient, None, None, issueDate, dueDate, None,
                 None, Some(0), Some(0), Some(0), Some(Pending), [])
  }

  /** `calculateInvoiceTotals` applied to a draft that is being stored: null
      amounts become zero, then the total and the balance are derived. */
  function CalculateTotals(d: InvoiceDraft, id: nat, number: Option<string>, status: InvoiceStatus): (inv: Invoice)
    ensures inv.Consistent()
    ensures inv.subtotal == d.subtotal.GetOr(0) && inv.tax == d.tax.GetOr(0)
    ensures inv.discount == d.discount.GetOr(0) && inv.amountPaid == d.amountPaid.GetOr(0)
    ensures inv.balanceDue >= 0 && (inv.balanceDue == 0 <==> inv.total <= inv.amountPaid)
    ensures inv.id == id && inv.number == number && inv.status == status && inv.items == d.items
    ensures inv.patient == d.patient && inv.appointment == d.appointment && inv.description == d.description
    ensures inv.issueDate == d.issueDate && inv.dueDate == d.dueDate && inv.notes == d.notes
  {
    var subtotal := d.subtotal.GetOr(0);
    var tax := d.tax.GetOr(0);
    var discount := d.discount.GetOr(0);
    var paid := d.amountPaid.GetOr(0);
    var total := subtotal + tax - discount;
    Invoice(id, number, d.patient, d.appointment, d.description, d.issueDate, d.dueDate, d.notes,
            subtotal, tax, discount, total, paid, Max0(total - paid), status, d.items)
  }

  /** Amounts that satisfy the field constraints yield an invoice that does too,
      provided the discount does not exceed subtotal plus tax. */
  lemma CalculateTotalsNonNegative(d: InvoiceDraft, id: nat, number: Option<string>, status: InvoiceStatus)
    requires d.subtotal.GetOr(0) >= 0 && d.tax.GetOr(0) >= 0 && d.amountPaid.GetOr(0) >= 0
    requires 0 <= d.discount.GetOr(0) <= d.subtotal.GetOr(0) + d.tax.GetOr(0)
    ensures CalculateTotals(d, id, number, status).NonNegative()
  {
  }

  // ---------------------------------------------------------------------------
  // Payments against an invoice

  /** The effect of `applyPayment` on one invoice: the amount paid grows by the
      payment, the balance is what remains (floored at zero), and the status is
      overwritten with PAID when nothing remains and PARTIALLY_PAID otherwise. */
  function Credit(inv: Invoice, amount: Money): (r: Invoice)
    ensures r.amountPaid == inv.amountPaid + amount
    ensures r.balanceDue == Max0(inv.total - r.amountPaid)
    ensures r.status == Paid <==> inv.total <= r.amountPaid
    ensures r.status == Paid || r.status == PartiallyPaid
    ensures r == inv.(amountPaid := r.amountPaid, balanceDue := r.balanceDue, status := r.status)
  {
    var newPaid := inv.amountPaid + amount;
    var newBalance := inv.total - newPaid;
    inv.(amountPaid := newPaid, balanceDue := Max0(newBalance),
         status := if newBalance <= 0 then Paid else PartiallyPaid)
  }

  /** Crediting keeps the totals consistent, and afterwards the invoice is PAID
      exactly when its balance is zero. */
  lemma CreditKeepsConsistent(inv: Invoice, amount: Money)
    requires inv.Consistent()
    ensures Credit(inv, amount).Consistent()
    ensures Credit(inv, amount).status == Paid <==> Credit(inv, amount).balanceDue == 0
  {
  }

  /** A payment no larger than the balance lowers the balance by exactly that payment. */
  lemma CreditWithinBalance(inv: Invoice, amount: Money)
    requires inv.Consistent() && inv.NonNegative()
    requires 0 <= amount <= inv.balanceDue
    ensures Credit(inv, amount).balanceDue == inv.balanceDue - amount
    ensures Credit(inv, amount).NonNegative()
  {
  }

  /** Two payments in a row leave the invoice as one payment of their sum would. */
  lemma CreditTwice(inv: Invoice, a: Money, b: Money)
    ensures Credit(Credit(inv, a), b) == Credit(inv, a + b)
  {
  }

  // ---------------------------------------------------------------------------
  // Invoice numbers

  lemma FieldWidths(year: nat, month: nat)
    requires 1 <= year <= 9999 && 1 <= month <= 12
    ensures |ZeroPad(year, 4)| == 4 && |ZeroPad(month, 2)| == 2
    ensures 1 <= |NatToString(year)| <= 4
  {
    assert Pow10(2) == 100;
    assert Pow10(4) == 10000;
    ZeroPadExactWidth(year, 4);
    ZeroPadExactWidth(month, 2);
    NatToStringLength(year, 4, 10000);
  }

  /** A five-digit padded field is exactly five wide below 100000 and wider from there on. */
  lemma SequenceWidth(n: nat)
    ensures |ZeroPad(n, 5)| >= 5
    ensures |ZeroPad(n, 5)| == 5 <==> n < 100000
  {
    assert Pow10(5) == 100000;
    if n < 100000 {
      ZeroPadExactWidth(n, 5);
    } else {
      NatToStringLengthAtLeast(n, 5);
    }
  }

  /** The number the `@PostPersist` hook assigns: "INV-", the year and month
      as yyyyMM, "-", and the id padded to at least five digits. Padding never
      truncates: ids from 100000 on take more than five digits. */
  function PostPersistNumber(year: nat, month: nat, id: nat): (s: string)
    requires 1 <= year <= 9999 && 1 <= month <= 12
    ensures |s| >= 16
    ensures |s| == 16 <==> id < 100000
    ensures s[..4] == "INV-" && AllDigits(s[4..10]) && s[10] == '-' && AllDigits(s[11..])
  {
    FieldWidths(year, month);
    SequenceWidth(id);
    NumberLayout(ZeroPad(year, 4), ZeroPad(month, 2), ZeroPad(id, 5));
    "INV-" + ZeroPad(year, 4) + ZeroPad(month, 2) + "-" + ZeroPad(id, 5)
  }

  /** Where the fields of "INV-" + yyyy + MM + "-" + sequence sit. */
  lemma NumberLayout(y: string, m: string, q: string)
    requires |y| == 4 && |m| == 2 && AllDigits(y) && AllDigits(m) && AllDigits(q)
    ensures var s := "INV-" + y + m + "-" + q;
            |s| == 11 + |q| && s[..4] == "INV-" && s[4..10] == y + m && AllDigits(s[4..10]) &&
            s[10] == '-' && s[11..] == q
  {
    var s := "INV-" + y + m + "-" + q;
    assert s[4..10] == y + m;
    assert s[11..] == q;
  }

  /** Distinct ids, years or months never share a hook-assigned number. */
  lemma PostPersistNumberInjective(y1: nat, m1: nat, id1: nat, y2: nat, m2: nat, id2: nat)
    requires 1 <= y1 <= 9999 && 1 <= m1 <= 12 && 1 <= y2 <= 9999 && 1 <= m2 <= 12
    requires PostPersistNumber(y1, m1, id1) == PostPersistNumber(y2, m2, id2)
    ensures y1 == y2 && m1 == m2 && id1 == id2
  {
    FieldWidths(y1, m1);
    FieldWidths(y2, m2);
    var a1, a2 := "INV-" + ZeroPad(y1, 4), "INV-" + ZeroPad(y2, 4);
    var b1, b2 := a1 + ZeroPad(m1, 2), a2 + ZeroPad(m2, 2);
    var c1, c2 := b1 + "-", b2 + "-";
    assert c1 + ZeroPad(id1, 5) == c2 + ZeroPad(id2, 5);
    SplitConcat(c1, ZeroPad(id1, 5), c2, ZeroPad(id2, 5));
    SplitConcat(b1, "-", b2, "-");
    SplitConcat(a1, ZeroPad(m1, 2), a2, ZeroPad(m2, 2));
    SplitConcat("INV-", ZeroPad(y1, 4), "INV-", ZeroPad(y2, 4));
    ZeroPadInjective(y1, y2, 4);
    ZeroPadInjective(m1, m2, 2);
    ZeroPadInjective(id1, id2, 5);
  }

  /** The number `InvoiceService.generateInvoiceNumber` builds: "INV-", the
      year, "-", the two-digit month, and then directly the sequence
      (table size plus one) padded to at least five digits. */
  function ServiceInvoiceNumber(year: nat, month: nat, sequence: nat): (s: string)
    requires 1 <= year <= 9999 && 1 <= month <= 12
    ensures |s| >= 4 + |NatToString(year)| + 1 + 2 + 5
    ensures s[..4] == "INV-" && s[4..4 + |NatToString(year)|] == NatToString(year)
    ensures s[4 + |NatToString(year)|] == '-'
  {
    FieldWidths(year, month);
    SequenceWidth(sequence);
    var head := "INV-" + NatToString(year);
    var s := head + "-" + ZeroPad(month, 2) + ZeroPad(sequence, 5);
    assert s[..|head|] == head;
    assert s[4..4 + |NatToString(year)|] == head[4..];
    assert s[4 + |NatToString(year)|] == '-';
    s
  }

  /** Distinct sequences, years or months never share a service-built number. */
  lemma ServiceInvoiceNumberInjective(y1: nat, m1: nat, c1: nat, y2: nat, m2: nat, c2: nat)
    requires 1 <= y1 <= 9999 && 1 <= m1 <= 12 && 1 <= y2 <= 9999 && 1 <= m2 <= 12
    requires ServiceInvoiceNumber(y1, m1, c1) == ServiceInvoiceNumber(y2, m2, c2)
    ensures y1 == y2 && m1 == m2 && c1 == c2
  {
    FieldWidths(y1, m1);
    FieldWidths(y2, m2);
    var t1, t2 := NatToString(y1), NatToString(y2);
    var s := ServiceInvoiceNumber(y1, m1, c1);
    var a1, a2 := "INV-" + t1, "INV-" + t2;
    var b1, b2 := a1 + "-", a2 + "-";
    var d1, d2 := b1 + ZeroPad(m1, 2), b2 + ZeroPad(m2, 2);
    // The year ends at the first dash after "INV-", so both years have the same length.
    assert |t1| == |t2| by {
      if |t1| < |t2| {
        assert false;
      } else if |t2| < |t1| {
        assert false;
      }
    }
    assert d1 == d2 && ZeroPad(c1, 5) == ZeroPad(c2, 5) by {
      assert d1 + ZeroPad(c1, 5) == d2 + ZeroPad(c2, 5);
      SplitConcat(d1, ZeroPad(c1, 5), d2, ZeroPad(c2, 5));
    }
    assert a1 == a2 && ZeroPad(m1, 2) == ZeroPad(m2, 2) by {
      SplitConcat(b1, ZeroPad(m1, 2), b2, ZeroPad(m2, 2));
      SplitConcat(a1, "-", a2, "-");
    }
    assert y1 == y2 by {
      SplitConcat("INV-", t1, "INV-", t2);
      NatToStringValue(y1);
      NatToStringValue(y2);
    }
    ZeroPadInjective(m1, m2, 2);
    ZeroPadInjective(c1, c2, 5);
  }

  /** The two formats never produce the same string: the hook's number has six
      digits after "INV-" where the service's has at most four before a dash. */
  lemma NumberFormatsDisjoint(y1: nat, m1: nat, id: nat, y2: nat, m2: nat, c: nat)
    requires 1 <= y1 <= 9999 && 1 <= m1 <= 12 && 1 <= y2 <= 9999 && 1 <= m2 <= 12
    ensures PostPersistNumber(y1, m1, id) != ServiceInvoiceNumber(y2, m2, c)
  {
    FieldWidths(y2, m2);
    var s1 := PostPersistNumber(y1, m1, id);
    var s2 := ServiceInvoiceNumber(y2, m2, c);
    var k := 4 + |NatToString(y2)|;
    assert s1[k] == s1[4..10][k - 4];
  }

  /** `Invoice.generateInvoiceNumber` (`@PostPersist`): a number is assigned only
      when there is none yet, so an existing number, even an empty one, is kept. */
  function AssignNumberOnPersist(inv: Invoice, now: Now): (r: Invoice)
    requires now.Valid()
    ensures inv.number.Some? ==> r == inv
    ensures inv.number.None? ==> r == inv.(number := Some(PostPersistNumber(now.year, now.month, inv.id)))
  {
    if inv.number.None? then inv.(number := Some(PostPersistNumber(now.year, now.month, inv.id))) else inv
  }

  // ---------------------------------------------------------------------------
  // Reports over the invoice table

  /** `getOverdueInvoices`: a due date before today and a status still awaiting payment. */
  predicate IsOverdue(inv: Invoice, today: Day)
  {
    inv.dueDate.Some? && inv.status in {Pending, PartiallyPaid, Sent} && inv.dueDate.value < today
  }

  function OverdueInvoices(invs: seq<Invoice>, today: Day): (r: seq<Invoice>)
    ensures forall inv :: inv in r <==> inv in invs && IsOverdue(inv, today)
  {
    Filter(invs, inv => IsOverdue(inv, today))
  }

  /** Statuses whose balance `getTotalOutstandingBalance` adds up. */
  predicate IsOutstanding(inv: Invoice)
  {
    inv.status in {Pending, PartiallyPaid, Overdue, Sent}
  }

  function OutstandingBalance(invs: seq<Invoice>): Money
  {
    if invs == [] then 0
    else OutstandingBalance(invs[..|invs| - 1]) + (if IsOutstanding(invs[|invs| - 1]) then invs[|invs| - 1].balanceDue else 0)
  }

  /** The summed balance of the overdue invoices (an overdue invoice is always outstanding). */
  function OverdueBalance(invs: seq<Invoice>, today: Day): Money
  {
    if invs == [] then 0
    else OverdueBalance(invs[..|invs| - 1], today) + (if IsOverdue(invs[|invs| - 1], today) then invs[|invs| - 1].balanceDue else 0)
  }

  /** The outstanding total of two lists of invoices is the sum of their totals. */
  lemma {:induction false} OutstandingBalanceConcat(a: seq<Invoice>, b: seq<Invoice>)
    ensures OutstandingBalance(a + b) == OutstandingBalance(a) + OutstandingBalance(b)
    decreases |b|
  {
    if b == [] {
      assert a + b == a;
    } else {
      var b' := b[..|b| - 1];
      assert (a + b)[..|a + b| - 1] == a + b';
      OutstandingBalanceConcat(a, b');
    }
  }

  /** With non-negative balances, what is overdue never exceeds what is outstanding. */
  lemma {:induction false} OverdueWithinOutstanding(invs: seq<Invoice>, today: Day)
    requires forall inv :: inv in invs ==> inv.balanceDue >= 0
    ensures 0 <= OverdueBalance(invs, today) <= OutstandingBalance(invs)
  {
    if invs != [] {
      var prefix := invs[..|invs| - 1];
      assert forall inv :: inv in prefix ==> inv in invs;
      OverdueWithinOutstanding(prefix, today);
    }
  }

  datatype AgingBucket = Current | Days30 | Days60 | Days90Plus

  /** `getAgingReport`'s classification by days past due. */
  function BucketOf(daysPastDue: int): (b: AgingBucket)
    ensures b == Current <==> daysPastDue <= 0
    ensures b == Days30 <==> 1 <= daysPastDue <= 30
    ensures b == Days60 <==> 31 <= daysPastDue <= 60
    ensures b == Days90Plus <==> daysPastDue > 60
  {
    if daysPastDue <= 0 then Current
    else if daysPastDue <= 30 then Days30
    else if daysPastDue <= 60 then Days60
    else Days90Plus
  }

  /** The aging report considers invoices with a positive balance and a due date. */
  predicate InAgingReport(inv: Invoice)
  {
    inv.balanceDue > 0 && inv.dueDate.Some?
  }

  function BucketTotal(invs: seq<Invoice>, today: Day, b: AgingBucket): (t: Money)
    ensures t >= 0
  {
    if invs == [] then 0
    else
      var inv := invs[|invs| - 1];
      BucketTotal(invs[..|invs| - 1], today, b)
        + (if InAgingReport(inv) && BucketOf(today - inv.dueDate.value) == b then inv.balanceDue else 0)
  }

  function AgingTotal(invs: seq<Invoice>): Money
  {
    if invs == [] then 0
    else AgingTotal(invs[..|invs| - 1]) + (if InAgingReport(invs[|invs| - 1]) then invs[|invs| - 1].balanceDue else 0)
  }

  /** Every included invoice falls in exactly one bucket, so the buckets add up
      to the total balance of the included invoices. */
  lemma {:induction false} BucketsPartitionAging(invs: seq<Invoice>, today: Day)
    ensures BucketTotal(invs, today, Current) + BucketTotal(invs, today, Days30)
            + BucketTotal(invs, today, Days60) + BucketTotal(invs, today, Days90Plus) == AgingTotal(invs)
  {
    if invs != [] {
      BucketsPartitionAging(invs[..|invs| - 1], today);
    }
  }

  /** `getAgingReport`: one pass over the invoices accumulating four buckets. */
  method AgingReport(invs: seq<Invoice>, today: Day)
    returns (current: Money, thirtyDays: Money, sixtyDays: Money, ninetyDaysPlus: Money)
    ensures current == BucketTotal(invs, today, Current) && thirtyDays == BucketTotal(invs, today, Days30)
    ensures sixtyDays == BucketTotal(invs, today, Days60) && ninetyDaysPlus == BucketTotal(invs, today, Days90Plus)
    ensures current + thirtyDays + sixtyDays + ninetyDaysPlus == AgingTotal(invs)
  {
    current, thirtyDays, sixtyDays, ninetyDaysPlus := 0, 0, 0, 0;
    for i := 0 to |invs|
      invariant current == BucketTotal(invs[..i], today, Current)
      invariant thirtyDays == BucketTotal(invs[..i], today, Days30)
      invariant sixtyDays == BucketTotal(invs[..i], today, Days60)
      invariant ninetyDaysPlus == BucketTotal(invs[..i], today, Days90Plus)
    {
      assert invs[..i + 1][..i] == invs[..i];
      var inv := invs[i];
      if inv.balanceDue > 0 && inv.dueDate.Some? {
        var daysPastDue := today - inv.dueDate.value;
        if daysPastDue <= 0 {
          current := current + inv.balanceDue;
        } else if daysPastDue <= 30 {
          thirtyDays := thirtyDays + inv.balanceDue;
        } else if daysPastDue <= 60 {
          sixtyDays := sixtyDays + inv.balanceDue;
        } else {
          ninetyDaysPlus := ninetyDaysPlus + inv.balanceDue;
        }
      }
    }
    assert invs[..|invs|] == invs;
    BucketsPartitionAging(invs, today);
  }

  // ---------------------------------------------------------------------------
  // Editing an invoice

  /** `updateInvoice` on the stored invoice: description, due date and notes are
      copied; the amounts are replaced and recomputed only when the submitted
      subtotal differs from the stored one, so a changed tax or discount with an
      unchanged subtotal is ignored. */
  function Updated(existing: Invoice, upd: InvoiceDraft): (r: Invoice)
    ensures r.description == upd.description && r.dueDate == upd.dueDate && r.notes == upd.notes
    ensures upd.subtotal == Some(existing.subtotal) ==>
              r == existing.(description := upd.description, dueDate := upd.dueDate, notes := upd.notes)
    ensures upd.subtotal != Some(existing.subtotal) ==>
              r.subtotal == upd.subtotal.GetOr(0) && r.tax == upd.tax.GetOr(0) && r.discount == upd.discount.GetOr(0)
              && r.Consistent()
    ensures existing.Consistent() ==> r.Consistent()
    ensures r.id == existing.id && r.number == existing.number && r.status == existing.status
    ensures r.amountPaid == existing.amountPaid && r.items == existing.items && r.patient == existing.patient
  {
    var copied := existing.(description := upd.description, dueDate := upd.dueDate, notes := upd.notes);
    if upd.subtotal == Some(existing.subtotal) then copied
    else
      var subtotal := upd.subtotal.GetOr(0);
      var tax := upd.tax.GetOr(0);
      var discount := upd.discount.GetOr(0);
      var total := subtotal + tax - discount;
      copied.(subtotal := subtotal, tax := tax, discount := discount, total := total,
              balanceDue := Max0(total - copied.amountPaid))
  }

  // ---------------------------------------------------------------------------
  // The service owning the invoice table

  class InvoiceService {
    var invoices: map<nat, Invoice>
    var nextId: nat
    const orders: Orders.OrderRepository

    /** Every stored invoice sits under its own id, below the next id, with
        totals consistent: every write path recomputes or preserves them. */
    ghost predicate Valid()
      reads this, orders
    {
      orders.Valid() &&
      forall id :: id in invoices ==> invoices[id].id == id && id < nextId && invoices[id].Consistent()
    }

    constructor(orders: Orders.OrderRepository)
      requires orders.Valid()
      ensures Valid() && invoices == map[] && this.orders == orders
    {
      this.orders := orders;
      invoices := map[];
      nextId := 1;
    }

    /** `createInvoice`: a missing or empty number is replaced by the
        service-built one with sequence `count() + 1`, totals are computed,
        a null status becomes PENDING, and the invoice is stored under a new id. */
    method CreateInvoice(d: InvoiceDraft, now: Now) returns (inv: Invoice)
      requires Valid() && now.Valid()
      modifies this
      ensures Valid()
      ensures inv.id == old(nextId) && inv.id !in old(invoices) && invoices == old(invoices)[inv.id := inv]
      ensures inv.number == if d.number.None? || d.number == Some("")
                            then Some(ServiceInvoiceNumber(now.year, now.month, |old(invoices)| + 1))
                            else d.number
      ensures inv == CalculateTotals(d, inv.id, inv.number, d.status.GetOr(Pending))
    {
      var number := d.number;
      if number.None? || number == Some("") {
        number := Some(ServiceInvoiceNumber(now.year, now.month, |invoices| + 1));
      }
      var status := if d.status.None? then Pending else d.status.value;
      inv := CalculateTotals(d, nextId, number, status);
      inv := AssignNumberOnPersist(inv, now);
      invoices := invoices[nextId := inv];
      nextId := nextId + 1;
    }

    /** `saveInvoice` on a new invoice: totals are recomputed, it is stored
        under a new id, and the persist hook numbers it if it has no number. */
    method SaveInvoice(d: InvoiceDraft, now: Now) returns (inv: Invoice)
      requires Valid() && now.Valid() && d.status.Some?
      modifies this
      ensures Valid()
      ensures inv.id == old(nextId) && inv.id !in old(invoices) && invoices == old(invoices)[inv.id := inv]
      ensures inv == AssignNumberOnPersist(CalculateTotals(d, inv.id, d.number, d.status.value), now)
    {
      inv := CalculateTotals(d, nextId, d.number, d.status.value);
      inv := AssignNumberOnPersist(inv, now);
      invoices := invoices[nextId := inv];
      nextId := nextId + 1;
    }

    /** `updateInvoice`: fails on an unknown id, otherwise stores `Updated`. */
    method UpdateInvoice(id: nat, upd: InvoiceDraft) returns (r: Result<Invoice, string>)
      requires Valid()
      modifies this
      ensures Valid() && nextId == old(nextId)
      ensures id !in old(invoices) ==> r.Err? && invoices == old(invoices)
      ensures id in old(invoices) ==>
                r == Ok(Updated(old(invoices)[id], upd)) && invoices == old(invoices)[id := r.value]
    {
      if id !in invoices {
        return Err("Invoice not found with ID: " + NatToString(id));
      }
      var updated := Updated(invoices[id], upd);
      invoices := invoices[id := updated];
      r := Ok(updated);
    }

    /** `updateInvoiceStatus`: sets the status of an existing invoice. */
    method UpdateInvoiceStatus(id: nat, status: InvoiceStatus) returns (r: Outcome<string>)
      requires Valid()
      modifies this
      ensures Valid() && nextId == old(nextId)
      ensures id !in old(invoices) ==> r.Fail? && invoices == old(invoices)
      ensures id in old(invoices) ==> r.Pass? && invoices == old(invoices)[id := old(invoices)[id].(status := status)]
    {
      if id !in invoices {
        return Fail("Invoice not found with ID: " + NatToString(id));
      }
      invoices := invoices[id := invoices[id].(status := status)];
      r := Pass;
    }

    /** `applyPayment`: credits the invoice and, when that settles it, completes
        the order linked to it. */
    method ApplyPayment(id: nat, amount: Money) returns (r: Outcome<string>)
      requires Valid()
      modifies this, orders
      ensures Valid() && nextId == old(nextId)
      ensures id !in old(invoices) ==> r.Fail? && invoices == old(invoices) && orders.orders == old(orders.orders)
      ensures id in old(invoices) ==>
                r.Pass? && invoices == old(invoices)[id := Credit(old(invoices)[id], amount)]
                && orders.orders == if invoices[id].status == Paid
                                    then Orders.CompleteLinked(old(orders.orders), id)
                                    else old(orders.orders)
    {
      if id !in invoices {
        return Fail("Invoice not found with ID: " + NatToString(id));
      }
      var credited := Credit(invoices[id], amount);
      CreditKeepsConsistent(invoices[id], amount);
      invoices := invoices[id := credited];
      if credited.status == Paid {
        orders.CompleteOrdersOf(id);
      }
      r := Pass;
    }
  }
}
