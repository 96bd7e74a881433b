/** The payment engine: card, bank-transfer and point-of-sale payments, the
    accountant's verification of bank slips, and the revenue total. Every
    service method runs in one transaction, so a method that fails leaves the
    payment table, the invoices and the orders as they were. */
module Payments {
  import opened Common
  import Invoices
  import Orders

  datatype PaymentMethod = CreditCard | DebitCard | BankTransfer | Cash | Check | Insurance

  datatype PaymentStatus = Pending | Completed | Failed | Cancelled | Refunded

  /** A payment row. Timestamps are opaque clock readings passed in by the caller. */
  datatype Payment = Payment(id: nat, invoice: Option<nat>, patient: Option<nat>, amount: Money,
                             paymentMethod: PaymentMethod, status: PaymentStatus, transactionId: string,
                             paymentDate: int, notes: string, referenceNumber: Option<string>,
                             bankSlipPath: Option<string>, verificationNotes: Option<string>,
                             verificationDate: Option<int>)

  /** What the file store did with an uploaded bank slip. */
  datatype SlipUpload =
    | NoFile                      // no file, or an empty one
    | Stored(fileName: string)    // stored under this name
    | Rejected(message: string)   // the store refused the file as invalid
    | StoreFailed(message: string) // any other storage error

  /** `validatePaymentAmount`: the amount must be positive and at most the balance. */
  function ValidateAmount(balanceDue: Money, amount: Money): (r: Outcome<string>)
    ensures r.Pass? <==> 0 < amount <= balanceDue
  {
    if amount <= 0 then Fail("Payment amount must be greater than zero")
    else if amount > balanceDue then Fail("Payment amount cannot exceed invoice balance")
    else Pass
  }

  /** A validated payment never overpays: the credited invoice keeps a
      non-negative balance reduced by exactly the amount, and it is PAID
      exactly when the amount clears the balance. */
  lemma ValidatedCreditSettlesBalance(inv: Invoices.Invoice, amount: Money)
    requires inv.Consistent() && inv.NonNegative()
    requires ValidateAmount(inv.balanceDue, amount).Pass?
    ensures Invoices.Credit(inv, amount).balanceDue == inv.balanceDue - amount
    ensures Invoices.Credit(inv, amount).NonNegative()
    ensures Invoices.Credit(inv, amount).status == Invoices.Paid <==> amount == inv.balanceDue
  {
    Invoices.CreditWithinBalance(inv, amount);
  }

  /** `createBasePayment` followed by the status and notes of each path. */
  function NewPayment(id: nat, inv: Invoices.Invoice, amount: Money, paymentMethod: PaymentMethod,
                      status: PaymentStatus, txn: string, now: int, notes: string): (p: Payment)
    ensures p.id == id && p.invoice == Some(inv.id) && p.patient == Some(inv.patient)
    ensures p.amount == amount && p.paymentMethod == paymentMethod && p.status == status && p.notes == notes
  {
    Payment(id, Some(inv.id), Some(inv.patient), amount, paymentMethod, status, txn, now, notes,
            None, None, None, None)
  }

  /** The notes of a bank transfer before the slip is handled. */
  function TransferNotes(reference: string, transferNotes: Option<string>): (s: string)
    ensures |s| >= |"Bank transfer - Reference: " + reference|
    ensures s[..|"Bank transfer - Reference: " + reference|] == "Bank transfer - Reference: " + reference
  {
    var base := "Bank transfer - Reference: " + reference;
    if transferNotes.Some? && transferNotes.value != "" then base + " | Notes: " + transferNotes.value else base
  }

  /** Sum of the amounts of COMPLETED payments, in list order. */
  function Revenue(ps: seq<Payment>): Money
  {
    if ps == [] then 0
    else Revenue(ps[..|ps| - 1]) + (if ps[|ps| - 1].status == Completed then ps[|ps| - 1].amount else 0)
  }

  /** Revenue is additive over any split of the payment list. */
  lemma {:induction false} RevenueConcat(a: seq<Payment>, b: seq<Payment>)
    ensures Revenue(a + b) == Revenue(a) + Revenue(b)
    decreases |b|
  {
    if b == [] {
      assert a + b == a;
    } else {
      var b' := b[..|b| - 1];
      assert (a + b)[..|a + b| - 1] == a + b';
      RevenueConcat(a, b');
    }
  }

  /** Revenue counts completed payments only, so it equals the revenue of the
      completed ones, and it is never negative when no amount is. */
  lemma {:induction false} RevenueOfCompleted(ps: seq<Payment>)
    ensures Revenue(ps) == Revenue(Filter(ps, (p: Payment) => p.status == Completed))
    ensures (forall p :: p in ps ==> p.amount >= 0) ==> Revenue(ps) >= 0
  {
    if ps != [] {
      var init := ps[..|ps| - 1];
      RevenueOfCompleted(init);
      var f := Filter(init, (p: Payment) => p.status == Completed);
      if ps[|ps| - 1].status == Completed {
        assert (f + [ps[|ps| - 1]])[..|f|] == f;
      }
      assert forall p :: p in init ==> p in ps;
    }
  }

  /** The payments of a table as a list, in the order given by `ids`. */
  function Listed(table: map<nat, Payment>, ids: seq<nat>): (ps: seq<Payment>)
    requires forall id :: id in ids ==> id in table
    ensures |ps| == |ids| && forall i :: 0 <= i < |ids| ==> ps[i] == table[ids[i]]
  {
    seq(|ids|, i requires 0 <= i < |ids| => table[ids[i]])
  }

  /** `ids` lists every payment of the table exactly once, as `findAll` and
      `findByStatus` enumerate it. */
  predicate Enumerates(table: map<nat, Payment>, ids: seq<nat>)
  {
    (forall id :: id in ids ==> id in table) &&
    (forall i, j :: 0 <= i < j < |ids| ==> ids[i] != ids[j]) &&
    (forall id :: id in table ==> id in ids)
  }

  /** The revenue of a table is the same whichever order the repository
      enumerates it in. */
  lemma RevenueOrderFree(table: map<nat, Payment>, a: seq<nat>, b: seq<nat>)
    requires Enumerates(table, a) && Enumerates(table, b)
    ensures Revenue(Listed(table, a)) == Revenue(Listed(table, b))
  {
    forall x
      ensures multiset(a)[x] == multiset(b)[x]
    {
      DistinctCount(a, x);
      DistinctCount(b, x);
    }
    assert multiset(a) == multiset(b);
    RevenuePermuted(table, a, b);
  }

  /** In a list without repetitions every element occurs once. */
  lemma {:induction false} DistinctCount(s: seq<nat>, x: nat)
    requires forall i, j :: 0 <= i < j < |s| ==> s[i] != s[j]
    ensures multiset(s)[x] == if x in s then 1 else 0
  {
    if s != [] {
      var init := s[..|s| - 1];
      assert s == init + [s[|s| - 1]];
      DistinctCount(init, x);
      assert s[|s| - 1] !in init by {
        forall i | 0 <= i < |init| ensures init[i] != s[|s| - 1] {
          assert s[i] != s[|s| - 1];
        }
      }
      assert forall y :: y in s <==> y in init || y == s[|s| - 1];
    }
  }

  lemma ListedConcat(table: map<nat, Payment>, u: seq<nat>, v: seq<nat>)
    requires forall id :: id in u ==> id in table
    requires forall id :: id in v ==> id in table
    ensures forall id :: id in u + v ==> id in table
    ensures Listed(table, u + v) == Listed(table, u) + Listed(table, v)
  {
  }

  /** Revenue depends only on which payments are listed, not on their order. */
  lemma {:induction false} RevenuePermuted(table: map<nat, Payment>, a: seq<nat>, b: seq<nat>)
    requires forall id :: id in a ==> id in table
    requires forall id :: id in b ==> id in table
    requires multiset(a) == multiset(b)
    ensures Revenue(Listed(table, a)) == Revenue(Listed(table, b))
    decreases |a|
  {
    if a == [] {
      assert |b| == |multiset(b)| == 0;
    } else {
      var x := a[|a| - 1];
      var a' := a[..|a| - 1];
      assert a == a' + [x];
      assert x in multiset(b);
      assert x in b;
      var k :| 0 <= k < |b| && b[k] == x;
      var u, v := b[..k], b[k + 1..];
      assert b == u + [x] + v;
      MultisetDrop(a', x, u, v);
      RevenuePermuted(table, a', u + v);
      RevenueListedSplit(table, a', [x], []);
      assert a' + [x] + [] == a && a' + [] == a';
      RevenueListedSplit(table, u, [x], v);
    }
  }

  /** Taking the same element out of two equal multisets leaves equal multisets. */
  lemma MultisetDrop(a: seq<nat>, x: nat, u: seq<nat>, v: seq<nat>)
    requires multiset(a + [x]) == multiset(u + [x] + v)
    ensures multiset(a) == multiset(u + v)
  {
    assert multiset(a) == multiset(a + [x]) - multiset{x};
    assert multiset(u + [x] + v) == multiset(u) + multiset{x} + multiset(v);
    assert multiset(u + v) == multiset(u) + multiset(v);
  }

  /** The revenue of `u + [x] + v` listed is that of `u + v` plus what `x` earns. */
  lemma RevenueListedSplit(table: map<nat, Payment>, u: seq<nat>, xs: seq<nat>, v: seq<nat>)
    requires |xs| == 1 && xs[0] in table
    requires forall id :: id in u ==> id in table
    requires forall id :: id in v ==> id in table
    ensures forall id :: id in u + xs + v ==> id in table
    ensures forall id :: id in u + v ==> id in table
    ensures Revenue(Listed(table, u + xs + v)) ==
            Revenue(Listed(table, u + v)) + (if table[xs[0]].status == Completed then table[xs[0]].amount else 0)
  {
    ListedConcat(table, u, v);
    ListedConcat(table, u, xs);
    ListedConcat(table, u + xs, v);
    var p := table[xs[0]];
    assert Listed(table, xs) == [p];
    RevenueConcat(Listed(table, u), Listed(table, v));
    RevenueConcat(Listed(table, u), [p]);
    RevenueConcat(Listed(table, u) + [p], Listed(table, v));
    assert [p][..0] == [];
  }

  /** The state after a bank slip is approved for `amount`: the payment is
      COMPLETED for that amount with the verification notes and date, its
      invoice (if any) is credited the amount, and the pharmacy orders linked
      to that invoice are completed when it becomes PAID. */
  ghost predicate ApprovedBy(p: Payment, notes: string, now: int, amount: Money,
                             payments0: map<nat, Payment>, invoices0: map<nat, Invoices.Invoice>,
                             orders0: map<nat, Orders.Order>,
                             payments1: map<nat, Payment>, invoices1: map<nat, Invoices.Invoice>,
                             orders1: map<nat, Orders.Order>)
  {
    payments1 == payments0[p.id := p.(status := Completed, amount := amount,
                                      verificationNotes := Some(notes), verificationDate := Some(now))] &&
    match p.invoice
      case None => invoices1 == invoices0 && orders1 == orders0
      case Some(i) =>
        i in invoices0 &&
        invoices1 == invoices0[i := Invoices.Credit(invoices0[i], amount)] &&
        orders1 == if invoices1[i].status == Invoices.Paid then Orders.CompleteLinked(orders0, i) else orders0
  }

  /** The payment table and the service's view of the invoice service. */
  class PaymentService {
    var payments: map<nat, Payment>
    var nextId: nat
    const invoices: Invoices.InvoiceService

    ghost predicate Valid()
      reads this, invoices, invoices.orders
    {
      invoices.Valid() &&
      forall id :: id in payments ==> payments[id].id == id && id < nextId
    }

    constructor(invoices: Invoices.InvoiceService)
      requires invoices.Valid()
      ensures Valid() && payments == map[] && this.invoices == invoices
    {
      this.invoices := invoices;
      payments := map[];
      nextId := 1;
    }

    /** `processCardPayment`. `authorised` stands for the simulated gateway's
        coin flip. An unknown invoice or an invalid amount fails with no change;
        an authorised payment is stored COMPLETED and credits the invoice; a
        declined one is stored FAILED and leaves the invoice alone. */
    method ProcessCardPayment(invoiceId: nat, amount: Money, authorised: bool, txn: string, now: int)
      returns (r: Result<Payment, string>)
      requires Valid()
      modifies this, invoices, invoices.orders
      ensures Valid()
      ensures invoiceId !in old(invoices.invoices) ==>
                r.Err? && payments == old(payments) && invoices.invoices == old(invoices.invoices)
                && invoices.orders.orders == old(invoices.orders.orders)
      ensures invoiceId in old(invoices.invoices) &&
              ValidateAmount(old(invoices.invoices)[invoiceId].balanceDue, amount).Fail? ==>
                r.Err? && payments == old(payments) && invoices.invoices == old(invoices.invoices)
                && invoices.orders.orders == old(invoices.orders.orders)
      ensures r.Ok? ==>
                invoiceId in old(invoices.invoices) &&
                ValidateAmount(old(invoices.invoices)[invoiceId].balanceDue, amount).Pass? &&
                r.value == NewPayment(old(nextId), old(invoices.invoices)[invoiceId], amount, CreditCard,
                                      if authorised then Completed else Failed, txn, now,
                                      if authorised then "Card payment processed successfully" else "Card payment failed") &&
                payments == old(payments)[r.value.id := r.value] && r.value.id !in old(payments)
      ensures r.Ok? && authorised ==>
                invoices.invoices == old(invoices.invoices)[invoiceId := Invoices.Credit(old(invoices.invoices)[invoiceId], amount)]
                && invoices.orders.orders == if invoices.invoices[invoiceId].status == Invoices.Paid
                                             then Orders.CompleteLinked(old(invoices.orders.orders), invoiceId)
                                             else old(invoices.orders.orders)
      ensures r.Ok? && !authorised ==>
                invoices.invoices == old(invoices.invoices) && invoices.orders.orders == old(invoices.orders.orders)
      ensures (invoiceId in old(invoices.invoices) &&
               ValidateAmount(old(invoices.invoices)[invoiceId].balanceDue, amount).Pass?)
              ==> r.Ok?
    {
      if invoiceId !in invoices.invoices {
        return Err("Card payment failed: Invoice not found");
      }
      var inv := invoices.invoices[invoiceId];
      var check := ValidateAmount(inv.balanceDue, amount);
      if check.Fail? {
        return Err("Card payment failed: " + check.error);
      }
      var p := NewPayment(nextId, inv, amount, CreditCard,
                          if authorised then Completed else Failed, txn, now,
                          if authorised then "Card payment processed successfully" else "Card payment failed");
      payments := payments[nextId := p];
      nextId := nextId + 1;
      if authorised {
        var applied := invoices.ApplyPayment(invoiceId, amount);
      }
      r := Ok(p);
    }

    /** `processBankTransferPayment`: after validation a PENDING transfer is
        recorded and the invoice is never credited. A slip the store rejects
        as invalid aborts the whole call; a slip that fails to store for any
        other reason, or a missing slip, is noted on the payment. */
    method ProcessBankTransferPayment(invoiceId: nat, amount: Money, reference: string,
                                      slip: SlipUpload, transferNotes: Option<string>, txn: string, now: int)
      returns (r: Result<Payment, string>)
      requires Valid()
      modifies this
      ensures Valid()
      ensures r.Err? ==> payments == old(payments) && nextId == old(nextId)
      ensures r.Ok? <==> invoiceId in invoices.invoices &&
                         ValidateAmount(invoices.invoices[invoiceId].balanceDue, amount).Pass? && !slip.Rejected?
      ensures r.Ok? ==>
                r.value.id == old(nextId) && r.value.id !in old(payments) && payments == old(payments)[r.value.id := r.value] &&
                r.value == NewPayment(r.value.id, invoices.invoices[invoiceId], amount, BankTransfer, Pending, txn, now, r.value.notes)
                             .(referenceNumber := Some(reference),
                               bankSlipPath := if slip.Stored? then Some(slip.fileName) else None) &&
                r.value.notes == TransferNotes(reference, transferNotes) +
                                 match slip
                                 case NoFile => " | WARNING: No bank slip uploaded"
                                 case Stored(name) => " | Bank slip uploaded: " + name
                                 case Rejected(_) => ""
                                 case StoreFailed(msg) => " | Bank slip upload failed: " + msg
    {
      if invoiceId !in invoices.invoices {
        return Err("Bank transfer failed: Invoice not found");
      }
      var inv := invoices.invoices[invoiceId];
      var check := ValidateAmount(inv.balanceDue, amount);
      if check.Fail? {
        return Err("Bank transfer failed: " + check.error);
      }
      var notes := TransferNotes(reference, transferNotes);
      var p := NewPayment(nextId, inv, amount, BankTransfer, Pending, txn, now, notes).(referenceNumber := Some(reference));
      match slip {
        case NoFile =>
          p := p.(notes := p.notes + " | WARNING: No bank slip uploaded");
        case Stored(name) =>
          p := p.(bankSlipPath := Some(name), notes := p.notes + " | Bank slip uploaded: " + name);
        case Rejected(msg) =>
          return Err("Bank transfer failed: File validation failed: " + msg);
        case StoreFailed(msg) =>
          p := p.(notes := p.notes + " | Bank slip upload failed: " + msg);
      }
      payments := payments[nextId := p];
      nextId := nextId + 1;
      r := Ok(p);
    }

    /** `processPOSPayment`: always stored COMPLETED, with no amount validation.
        A non-empty invoice reference is read as a numeric id when it parses as
        one, and as an invoice number otherwise; a found invoice is linked and
        credited the full amount, a missing one is recorded in the notes. */
    method ProcessPOSPayment(customerName: string, customerPhone: string, invoiceRef: string,
                             description: string, amount: Money, paymentMethod: PaymentMethod, txn: string, now: int)
      returns (p: Payment)
      requires Valid()
      modifies this, invoices, invoices.orders
      ensures Valid()
      ensures p.id == old(nextId) && p.id !in old(payments) && payments == old(payments)[p.id := p]
      ensures p.status == Completed && p.amount == amount && p.paymentMethod == paymentMethod
      ensures invoiceRef == "" ==>
                p.invoice == None && p.notes == "POS Payment: " + description
                && invoices.invoices == old(invoices.invoices)
      ensures p.invoice.Some? ==>
                p.invoice.value in old(invoices.invoices) &&
                p.patient == Some(old(invoices.invoices)[p.invoice.value].patient) &&
                p.notes == "POS Payment: " + description &&
                invoices.invoices == old(invoices.invoices)[p.invoice.value := Invoices.Credit(old(invoices.invoices)[p.invoice.value], amount)] &&
                (ParseLong(invoiceRef).Some? ==> p.invoice.value == ParseLong(invoiceRef).value) &&
                (ParseLong(invoiceRef).None? ==> old(invoices.invoices)[p.invoice.value].number == Some(invoiceRef))
      ensures p.invoice.Some? ==>
                invoices.orders.orders == if invoices.invoices[p.invoice.value].status == Invoices.Paid
                                          then Orders.CompleteLinked(old(invoices.orders.orders), p.invoice.value)
                                          else old(invoices.orders.orders)
      ensures p.invoice.None? ==> invoices.orders.orders == old(invoices.orders.orders)
      ensures p.invoice.None? && invoiceRef != "" ==>
                invoices.invoices == old(invoices.invoices) &&
                p.notes == "POS Payment: " + description + " | Invoice " + invoiceRef + " not found" +
                           " | Customer: " + customerName + " | Phone: " + customerPhone &&
                (ParseLong(invoiceRef).Some? ==> ParseLong(invoiceRef).value !in old(invoices.invoices)) &&
                (ParseLong(invoiceRef).None? ==>
                   forall id :: id in old(invoices.invoices) ==> old(invoices.invoices)[id].number != Some(invoiceRef))
    {
      p := Payment(nextId, None, None, amount, paymentMethod, Completed, txn, now, "POS Payment: " + description,
                   None, None, None, None);
      if invoiceRef != "" {
        var found: Option<nat> := None;
        var parsed := ParseLong(invoiceRef);
        if parsed.Some? {
          if parsed.value >= 0 && parsed.value as nat in invoices.invoices {
            found := Some(parsed.value as nat);
          }
        } else if exists id :: id in invoices.invoices && invoices.invoices[id].number == Some(invoiceRef) {
          var id :| id in invoices.invoices && invoices.invoices[id].number == Some(invoiceRef);
          found := Some(id);
        }
        if found.Some? {
          p := p.(invoice := found, patient := Some(invoices.invoices[found.value].patient));
          var applied := invoices.ApplyPayment(found.value, amount);
        } else {
          p := p.(notes := p.notes + " | Invoice " + invoiceRef + " not found" +
                           " | Customer: " + customerName + " | Phone: " + customerPhone);
        }
      }
      payments := payments[nextId := p];
      nextId := nextId + 1;
    }

    /** `approveBankSlipPayment`: only bank transfers can be approved; the
        payment becomes COMPLETED and its invoice is credited its amount. The
        current status is not checked, so approving twice credits twice. */
    method ApproveBankSlipPayment(id: nat, notes: string, now: int) returns (r: Result<Payment, string>)
      requires Valid()
      modifies this, invoices, invoices.orders
      ensures Valid() && nextId == old(nextId)
      ensures r.Err? ==> payments == old(payments) && invoices.invoices == old(invoices.invoices)
                         && invoices.orders.orders == old(invoices.orders.orders)
      ensures r.Ok? <==> id in old(payments) && old(payments)[id].paymentMethod == BankTransfer &&
                         (old(payments)[id].invoice.Some? ==> old(payments)[id].invoice.value in old(invoices.invoices))
      ensures r.Ok? ==>
                id in old(payments) && old(payments)[id].paymentMethod == BankTransfer &&
                r.value == old(payments)[id].(status := Completed, verificationNotes := Some(notes),
                                              verificationDate := Some(now)) &&
                (r.value.invoice.Some? ==> r.value.invoice.value in old(invoices.invoices)) &&
                payments == old(payments)[id := r.value]
      ensures r.Ok? && r.value.invoice.Some? ==>
                invoices.invoices == old(invoices.invoices)[r.value.invoice.value :=
                                       Invoices.Credit(old(invoices.invoices)[r.value.invoice.value], r.value.amount)]
                && invoices.orders.orders == if invoices.invoices[r.value.invoice.value].status == Invoices.Paid
                                             then Orders.CompleteLinked(old(invoices.orders.orders), r.value.invoice.value)
                                             else old(invoices.orders.orders)
      ensures r.Ok? && r.value.invoice.None? ==>
                invoices.invoices == old(invoices.invoices) && invoices.orders.orders == old(invoices.orders.orders)
    {
      if id !in payments {
        return Err("Payment not found with ID: " + NatToString(id));
      }
      var p := payments[id];
      if p.paymentMethod != BankTransfer {
        return Err("Payment is not a bank transfer");
      }
      if p.invoice.Some? && p.invoice.value !in invoices.invoices {
        return Err("Invoice not found with ID: " + NatToString(p.invoice.value));
      }
      p := p.(status := Completed, verificationNotes := Some(notes), verificationDate := Some(now));
      payments := payments[id := p];
      if p.invoice.Some? {
        var applied := invoices.ApplyPayment(p.invoice.value, p.amount);
      }
      r := Ok(p);
    }

    /** `rejectBankSlipPayment`: marks any payment FAILED, whatever its method,
        and never touches the invoice. */
    method RejectBankSlipPayment(id: nat, reason: string, now: int) returns (r: Result<Payment, string>)
      requires Valid()
      modifies this
      ensures Valid() && nextId == old(nextId)
      ensures id !in old(payments) ==> r.Err? && payments == old(payments)
      ensures id in old(payments) ==>
                r == Ok(old(payments)[id].(status := Failed, verificationNotes := Some(reason),
                                           verificationDate := Some(now))) &&
                payments == old(payments)[id := r.value]
    {
      if id !in payments {
        return Err("Payment not found with ID: " + NatToString(id));
      }
      var p := payments[id].(status := Failed, verificationNotes := Some(reason), verificationDate := Some(now));
      payments := payments[id := p];
      r := Ok(p);
    }

    /** `approvePartialBankSlipPayment`: a verified amount above the payment's
        amount fails with no change; otherwise the payment is COMPLETED for the
        verified amount and the invoice is credited that amount. Neither the
        method nor the status is checked here. */
    method ApprovePartialBankSlipPayment(id: nat, verified: Money, notes: string, now: int)
      returns (r: Result<Payment, string>)
      requires Valid()
      modifies this, invoices, invoices.orders
      ensures Valid() && nextId == old(nextId)
      ensures r.Err? ==> payments == old(payments) && invoices.invoices == old(invoices.invoices)
                         && invoices.orders.orders == old(invoices.orders.orders)
      ensures r.Ok? <==> id in old(payments) && verified <= old(payments)[id].amount &&
                         (old(payments)[id].invoice.Some? ==> old(payments)[id].invoice.value in old(invoices.invoices))
      ensures r.Ok? ==>
                id in old(payments) && verified <= old(payments)[id].amount &&
                r.value == old(payments)[id].(status := Completed, amount := verified,
                                              verificationNotes := Some(notes), verificationDate := Some(now)) &&
                (r.value.invoice.Some? ==> r.value.invoice.value in old(invoices.invoices)) &&
                payments == old(payments)[id := r.value]
      ensures r.Ok? && r.value.invoice.Some? ==>
                invoices.invoices == old(invoices.invoices)[r.value.invoice.value :=
                                       Invoices.Credit(old(invoices.invoices)[r.value.invoice.value], verified)]
                && invoices.orders.orders == if invoices.invoices[r.value.invoice.value].status == Invoices.Paid
                                             then Orders.CompleteLinked(old(invoices.orders.orders), r.value.invoice.value)
                                             else old(invoices.orders.orders)
      ensures r.Ok? && r.value.invoice.None? ==>
                invoices.invoices == old(invoices.invoices) && invoices.orders.orders == old(invoices.orders.orders)
    {
      if id !in payments {
        return Err("Payment not found with ID: " + NatToString(id));
      }
      var p := payments[id];
      if verified > p.amount {
        return Err("Verified amount cannot exceed payment amount");
      }
      if p.invoice.Some? && p.invoice.value !in invoices.invoices {
        return Err("Invoice not found with ID: " + NatToString(p.invoice.value));
      }
      p := p.(status := Completed, amount := verified, verificationNotes := Some(notes), verificationDate := Some(now));
      payments := payments[id := p];
      if p.invoice.Some? {
        var applied := invoices.ApplyPayment(p.invoice.value, verified);
      }
      r := Ok(p);
    }

    /** The accountant's verification form: "approve", "reject" or "partial";
        a partial approval without a positive amount is refused before the
        service is called, and any other action does nothing. */
    method VerifyBankSlip(id: nat, action: string, verified: Option<Money>, notes: string, now: int)
      returns (r: Outcome<string>)
      requires Valid()
      modifies this, invoices, invoices.orders
      ensures Valid() && nextId == old(nextId)
      ensures action !in {"approve", "reject", "partial"} ==>
                r.Pass? && payments == old(payments) && invoices.invoices == old(invoices.invoices)
                && invoices.orders.orders == old(invoices.orders.orders)
      ensures action == "partial" && (verified.None? || verified.value <= 0) ==>
                r == Fail("Please enter a valid verified amount.") && payments == old(payments)
                && invoices.invoices == old(invoices.invoices) && invoices.orders.orders == old(invoices.orders.orders)
      ensures r.Fail? ==> payments == old(payments) && invoices.invoices == old(invoices.invoices)
                          && invoices.orders.orders == old(invoices.orders.orders)
      ensures action == "reject" ==>
                (r.Pass? <==> id in old(payments)) &&
                (r.Pass? ==> payments == old(payments)[id := old(payments)[id].(status := Failed,
                                verificationNotes := Some(notes), verificationDate := Some(now))]
                             && invoices.invoices == old(invoices.invoices)
                             && invoices.orders.orders == old(invoices.orders.orders))
      ensures action == "approve" ==>
                (r.Pass? <==> id in old(payments) && old(payments)[id].paymentMethod == BankTransfer &&
                              (old(payments)[id].invoice.Some? ==> old(payments)[id].invoice.value in old(invoices.invoices))) &&
                (r.Pass? ==> ApprovedBy(old(payments)[id], notes, now, old(payments)[id].amount,
                                        old(payments), old(invoices.invoices), old(invoices.orders.orders),
                                        payments, invoices.invoices, invoices.orders.orders))
      ensures action == "partial" && verified.Some? && verified.value > 0 ==>
                (r.Pass? <==> id in old(payments) && verified.value <= old(payments)[id].amount &&
                              (old(payments)[id].invoice.Some? ==> old(payments)[id].invoice.value in old(invoices.invoices))) &&
                (r.Pass? ==> ApprovedBy(old(payments)[id], notes, now, verified.value,
                                        old(payments), old(invoices.invoices), old(invoices.orders.orders),
                                        payments, invoices.invoices, invoices.orders.orders))
    {
      if action == "approve" {
        var res := ApproveBankSlipPayment(id, notes, now);
        r := if res.Ok? then Pass else Fail(res.error);
      } else if action == "reject" {
        var res := RejectBankSlipPayment(id, notes, now);
        r := if res.Ok? then Pass else Fail(res.error);
      } else if action == "partial" {
        if verified.None? || verified.value <= 0 {
          return Fail("Please enter a valid verified amount.");
        }
        var res := ApprovePartialBankSlipPayment(id, verified.value, notes, now);
        r := if res.Ok? then Pass else Fail(res.error);
      } else {
        r := Pass;
      }
    }

    /** `getTotalRevenue`: the sum of the COMPLETED payments of the whole
        table, enumerated once each in the repository's order `ids`; by
        `RevenueOrderFree` the order does not change the sum. */
    method TotalRevenue(ids: seq<nat>) returns (total: Money)
      requires Enumerates(payments, ids)
      ensures total == Revenue(Listed(payments, ids))
    {
      total := 0;
      for i := 0 to |ids|
        invariant total == Revenue(Listed(payments, ids)[..i])
      {
        assert Listed(payments, ids)[..i + 1] == Listed(payments, ids)[..i] + [payments[ids[i]]];
        var p := payments[ids[i]];
        if p.status == Completed {
          total := total + p.amount;
        }
      }
      assert Listed(payments, ids)[..|ids|] == Listed(payments, ids);
    }
  }
}
