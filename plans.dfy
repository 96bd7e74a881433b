/** Instalment plans: a plan snapshots an invoice's balance, spreads it with
    interest over `n` monthly instalments rounded half up to the cent, and
    lays out due dates a month apart. Its status moves by named actions, and
    an adjustment replaces the duration, the instalment amount and the whole
    schedule. */
module PaymentPlans {
  import opened Common
  import opened Calendar
  import Invoices

  datatype PlanStatus = Active | PlanCompleted | Suspended | PlanCancelled | Defaulted

  datatype InstallmentStatus = Pending | Paid | Overdue | Partial | InstallmentCancelled

  /** A plan row. The interest rate is a fraction in units of 1/10000. */
  datatype PaymentPlan = PaymentPlan(
    id: nat, planNumber: string, invoice: nat, patient: nat,
    totalAmount: Money, monthlyPayment: Money, numberOfPayments: int, interestRate: int,
    startDate: Date, endDate: Date, nextPaymentDate: Date, status: PlanStatus,
    paymentsMade: int, amountPaid: Money, remainingBalance: Money, notes: Option<string>)
  {
    /** What remains is what was financed minus what has been paid. */
    predicate Balanced()
    {
      remainingBalance == totalAmount - amountPaid
    }
  }

  datatype Installment = Installment(plan: nat, number: int, dueDate: Date, amount: Money,
                                     status: InstallmentStatus, amountPaid: Money, reminderSent: bool)

  // ---------------------------------------------------------------------------
  // Monthly payment

  /** `divide(den, 2, HALF_UP)` on an exact quotient, in cents: the nearest
      integer to num/den, halves rounded away from zero. */
  function RoundHalfUpDiv(num: int, den: int): (q: int)
    requires den > 0
    ensures num >= 0 ==> q >= 0 && 2 * num - den < 2 * den * q <= 2 * num + den
    ensures num < 0 ==> q <= 0 && 2 * num - den <= 2 * den * q < 2 * num + den
  {
    if num >= 0 then HalfUpBounds(num, den); (2 * num + den) / (2 * den)
    else HalfUpBounds(-num, den); -((2 * -num + den) / (2 * den))
  }

  lemma HalfUpBounds(num: nat, den: int)
    requires den > 0
    ensures var q := (2 * num + den) / (2 * den);
            q >= 0 && 2 * num - den < 2 * den * q <= 2 * num + den
  {
    var q := (2 * num + den) / (2 * den);
    var r := (2 * num + den) % (2 * den);
    assert 2 * den * q + r == 2 * num + den;
  }

  /** `calculateMonthlyPayment` in cents: a zero rate divides the total by `n`,
      any other rate divides total × (1 + rate) by `n`, both rounded half up.
      `n` is positive: a zero divisor throws. */
  function MonthlyPayment(total: Money, n: int, rate: int): (m: Money)
    requires n >= 1
    ensures var owed := total * (10000 + rate);
            owed >= 0 ==>
              m >= 0 && 2 * owed - 10000 * n < 20000 * (n * m) <= 2 * owed + 10000 * n
  {
    var m := if rate == 0 then RoundHalfUpDiv(total, n) else RoundHalfUpDiv(total * (10000 + rate), 10000 * n);
    ZeroRateScales(total, n);
    assert 2 * (10000 * n) * m == 20000 * (n * m);
    m
  }

  /** Rounding `total / n` to the cent is rounding `total × 10000 / (n × 10000)`. */
  lemma ZeroRateScales(total: Money, n: int)
    requires n >= 1
    ensures RoundHalfUpDiv(total, n) == RoundHalfUpDiv(total * (10000 + 0), 10000 * n)
  {
    var t := if total >= 0 then total else -total;
    ScaledQuotient(2 * t + n, 2 * n, 10000);
    assert 10000 * (2 * t + n) == 2 * (t * 10000) + 10000 * n;
    assert 10000 * (2 * n) == 2 * (10000 * n);
  }

  /** Scaling dividend and divisor by the same positive factor keeps the quotient. */
  lemma ScaledQuotient(x: nat, y: int, c: int)
    requires y > 0 && c > 0
    ensures (c * x) / (c * y) == x / y
  {
    var q := x / y;
    var r := x % y;
    assert c * x == (c * y) * q + c * r;
    MulStrictlyBelow(c, r, y);
    DivUnique(c * x, c * y, q, c * r);
  }

  lemma MulStrictlyBelow(c: int, r: int, y: int)
    requires c > 0 && 0 <= r < y
    ensures 0 <= c * r < c * y
  {
    MulAtLeast(c, y - r);
    assert c * y == c * r + c * (y - r);
    MulNonNegative(c, r);
  }

  lemma {:induction false} MulNonNegative(c: int, r: int)
    requires c > 0 && r >= 0
    ensures c * r >= 0
    decreases r
  {
    if r > 0 {
      MulNonNegative(c, r - 1);
      assert c * r == c * (r - 1) + c;
    }
  }

  lemma MulNonNegativeOrZero(a: int, b: int)
    requires a >= 0 && b >= 0
    ensures a * b >= 0
  {
    if a > 0 {
      MulNonNegative(a, b);
    }
  }

  lemma {:induction false} MulAtLeast(y: int, d: int)
    requires y > 0 && d >= 1
    ensures y * d >= y
    decreases d
  {
    if d > 1 {
      MulAtLeast(y, d - 1);
      assert y * d == y * (d - 1) + y;
    }
  }

  /** Euclidean division has exactly one quotient and remainder. */
  lemma DivUnique(x: int, y: int, q: int, r: int)
    requires y > 0 && x == y * q + r && 0 <= r < y
    ensures x / y == q
  {
    var q' := x / y;
    var r' := x % y;
    assert y * (q - q') == r' - r;
    if q - q' >= 1 {
      MulAtLeast(y, q - q');
    } else if q' - q >= 1 {
      MulAtLeast(y, q' - q);
    }
  }

  /** The zero-rate shortcut computes what the general formula would. */
  lemma ZeroRateBranchAgrees(total: Money, n: int)
    requires n >= 1
    ensures MonthlyPayment(total, n, 0) == RoundHalfUpDiv(total * (10000 + 0), 10000 * n)
  {
    ZeroRateScales(total, n);
  }

  /** There is no remainder reconciliation: 100.00 over three instalments
      is three payments of 33.33, one cent short of the total. */
  lemma NoRemainderReconciliation()
    ensures MonthlyPayment(10000, 3, 0) == 3333
    ensures 3 * MonthlyPayment(10000, 3, 0) == 10000 - 1
  {
    assert RoundHalfUpDiv(10000, 3) == (2 * 10000 + 3) / (2 * 3);
  }

  // ---------------------------------------------------------------------------
  // Instalment schedule

  /** `createInstallmentSchedule` for a plan of `n` payments: instalments
      numbered 1..n, each for the monthly amount, PENDING, nothing paid, no
      reminder sent, due on the chained due dates. */
  predicate IsSchedule(insts: seq<Installment>, plan: nat, start: Date, n: int, monthly: Money)
  {
    |insts| == Max0(n) &&
    forall k :: 0 <= k < |insts| ==>
      insts[k] == Installment(plan, k + 1, ChainedDue(start, k + 1), monthly, Pending, 0, false)
  }

  method CreateInstallmentSchedule(plan: nat, start: Date, n: int, monthly: Money)
    returns (insts: seq<Installment>)
    ensures IsSchedule(insts, plan, start, n, monthly)
  {
    insts := [];
    var paymentDate := start;
    var i := 1;
    while i <= n
      invariant 1 <= i <= Max0(n) + 1
      invariant |insts| == i - 1
      invariant paymentDate == ChainedDue(start, i)
      invariant forall k :: 0 <= k < |insts| ==>
                  insts[k] == Installment(plan, k + 1, ChainedDue(start, k + 1), monthly, Pending, 0, false)
    {
      insts := insts + [Installment(plan, i, paymentDate, monthly, Pending, 0, false)];
      paymentDate := PlusMonths(paymentDate, 1);
      i := i + 1;
    }
  }

  /** Every instalment falls in its own month after the start, in order, on a
      valid date no later in the month than the start day. */
  lemma ScheduleMonths(insts: seq<Installment>, plan: nat, start: Date, n: int, monthly: Money, k: nat)
    requires start.Valid() && IsSchedule(insts, plan, start, n, monthly) && k < |insts|
    ensures insts[k].dueDate.Valid()
    ensures insts[k].dueDate.MonthIndex() == start.MonthIndex() + k
    ensures insts[k].dueDate.day <= start.day
  {
    ChainedDueMonth(start, k + 1);
  }

  /** For start days 1..28 the last instalment falls on the plan's end date. */
  lemma ScheduleEndsOnEndDate(insts: seq<Installment>, plan: nat, start: Date, n: int, monthly: Money)
    requires start.Valid() && start.day <= 28 && n >= 1
    requires IsSchedule(insts, plan, start, n, monthly)
    ensures insts[|insts| - 1].dueDate == PlusMonths(start, n - 1)
  {
    ChainedDueIsDirect(start, n);
  }

  function ScheduledTotal(insts: seq<Installment>): Money
  {
    if insts == [] then 0 else ScheduledTotal(insts[..|insts| - 1]) + insts[|insts| - 1].amount
  }

  lemma {:induction false} ScheduledTotalIsProduct(insts: seq<Installment>, monthly: Money)
    requires forall k :: 0 <= k < |insts| ==> insts[k].amount == monthly
    ensures ScheduledTotal(insts) == |insts| * monthly
  {
    if insts != [] {
      ScheduledTotalIsProduct(insts[..|insts| - 1], monthly);
    }
  }

  /** The schedule charges n × monthly, which is within half a cent per
      instalment of total × (1 + rate), and no closer adjustment is made. */
  lemma ScheduleTotalDrift(insts: seq<Installment>, plan: nat, start: Date, n: int, total: Money, rate: int)
    requires n >= 1 && total >= 0 && rate >= 0
    requires IsSchedule(insts, plan, start, n, MonthlyPayment(total, n, rate))
    ensures ScheduledTotal(insts) == n * MonthlyPayment(total, n, rate)
    ensures -5000 * n < 10000 * ScheduledTotal(insts) - total * (10000 + rate) <= 5000 * n
  {
    var m := MonthlyPayment(total, n, rate);
    ScheduledTotalIsProduct(insts, m);
    assert total * (10000 + rate) >= 0 by {
      MulNonNegativeOrZero(total, 10000 + rate);
    }
  }

  /** The cancel action: PENDING instalments become CANCELLED, others keep theirs. */
  function CancelPending(insts: seq<Installment>): (r: seq<Installment>)
    ensures |r| == |insts|
    ensures forall k :: 0 <= k < |insts| ==>
              r[k] == if insts[k].status == Pending then insts[k].(status := InstallmentCancelled) else insts[k]
  {
    seq(|insts|, k requires 0 <= k < |insts| =>
      if insts[k].status == Pending then insts[k].(status := InstallmentCancelled) else insts[k])
  }

  /** No PENDING instalment survives a cancel, and paid ones are kept. */
  lemma CancelLeavesNothingPending(insts: seq<Installment>)
    ensures forall k :: 0 <= k < |insts| ==> CancelPending(insts)[k].status != Pending
    ensures forall k :: 0 <= k < |insts| && insts[k].status == Paid ==> CancelPending(insts)[k] == insts[k]
    ensures CancelPending(CancelPending(insts)) == CancelPending(insts)
  {
  }

  // ---------------------------------------------------------------------------
  // Plan numbers and status actions

  /** `generatePlanNumber`: "PLAN", the year, and `count + 1` padded to six digits. */
  function PlanNumber(year: nat, count: nat): (s: string)
    ensures |s| >= 4 + |NatToString(year)| + 6
    ensures s[..4] == "PLAN" && s[4..4 + |NatToString(year)|] == NatToString(year)
  {
    "PLAN" + NatToString(year) + ZeroPad(count + 1, 6)
  }

  /** Within one year, distinct counts give distinct plan numbers. */
  lemma PlanNumberInjective(year: nat, a: nat, b: nat)
    requires PlanNumber(year, a) == PlanNumber(year, b)
    ensures a == b
  {
    var prefix := "PLAN" + NatToString(year);
    SplitConcat(prefix, ZeroPad(a + 1, 6), prefix, ZeroPad(b + 1, 6));
    ZeroPadInjective(a + 1, b + 1, 6);
  }

  /** The status an action leads to, matched after lower-casing; None for an
      unknown action. The current status plays no part. */
  function ActionStatus(action: string): (r: Option<PlanStatus>)
    ensures r == Some(Suspended) <==> ToLower(action) == "suspend"
    ensures r == Some(Active) <==> ToLower(action) == "resume"
    ensures r == Some(PlanCancelled) <==> ToLower(action) == "cancel"
    ensures r == Some(PlanCompleted) <==> ToLower(action) == "complete"
    ensures r.None? <==> ToLower(action) !in {"suspend", "resume", "cancel", "complete"}
  {
    var a := ToLower(action);
    if a == "suspend" then Some(Suspended)
    else if a == "resume" then Some(Active)
    else if a == "cancel" then Some(PlanCancelled)
    else if a == "complete" then Some(PlanCompleted)
    else None
  }

  /** Upper- or mixed-case spellings select the same transition. */
  lemma ActionIgnoresCase()
    ensures ActionStatus("SUSPEND") == Some(Suspended)
    ensures ActionStatus("Resume") == Some(Active)
    ensures ActionStatus("pause").None?
  {
    assert ToLower("SUSPEND") == "suspend";
    assert ToLower("Resume") == "resume";
  }

  /** Java string concatenation of a possibly null string. */
  function JavaText(s: Option<string>): string
  {
    match s
    case Some(t) => t
    case None => "null"
  }

  /** The plan and instalment tables. */
  class PaymentPlanService {
    var plans: map<nat, PaymentPlan>
    var installments: map<nat, seq<Installment>>
    var nextId: nat
    const invoices: Invoices.InvoiceService

    /** Every plan sits under its own id with a schedule, and its remaining
        balance is what was financed minus what was paid. */
    ghost predicate Valid()
      reads this, invoices, invoices.orders
    {
      invoices.Valid() &&
      forall id :: id in plans ==>
        plans[id].id == id && id < nextId && id in installments && plans[id].Balanced()
    }

    constructor(invoices: Invoices.InvoiceService)
      requires invoices.Valid()
      ensures Valid() && plans == map[] && installments == map[] && this.invoices == invoices
    {
      this.invoices := invoices;
      plans := map[];
      installments := map[];
      nextId := 1;
    }

    /** `createPaymentPlan`. The request has already been validated: at least
        two instalments, a valid start date and a non-negative rate. An unknown
        or PAID invoice fails with no change. Otherwise the plan finances the
        invoice's balance due, its schedule is stored, and the invoice is set
        PARTIALLY_PAID; an invoice that already has a plan gets another. */
    method CreatePaymentPlan(invoiceId: nat, n: int, start: Date, rate: Option<int>,
                             notes: Option<string>, year: nat)
      returns (r: Result<PaymentPlan, string>)
      requires Valid()
      requires n >= 2 && start.Valid() && (rate.Some? ==> rate.value >= 0)
      modifies this, invoices
      ensures Valid()
      ensures r.Err? <==> invoiceId !in old(invoices.invoices) || old(invoices.invoices)[invoiceId].status == Invoices.Paid
      ensures r.Err? ==> plans == old(plans) && installments == old(installments)
                         && invoices.invoices == old(invoices.invoices)
      ensures r.Ok? ==>
                var inv := old(invoices.invoices)[invoiceId];
                var p := r.value;
                p.id == old(nextId) && p.id !in old(plans) && plans == old(plans)[p.id := p] &&
                p.planNumber == PlanNumber(year, |old(plans)|) &&
                p.invoice == invoiceId && p.patient == inv.patient &&
                p.totalAmount == inv.balanceDue && p.interestRate == rate.GetOr(0) &&
                p.numberOfPayments == n && p.monthlyPayment == MonthlyPayment(inv.balanceDue, n, rate.GetOr(0)) &&
                p.startDate == start && p.nextPaymentDate == start && p.endDate == PlusMonths(start, n - 1) &&
                p.status == Active && p.notes == notes &&
                p.amountPaid == 0 && p.paymentsMade == 0 && p.remainingBalance == p.totalAmount &&
                p.id in installments && installments == old(installments)[p.id := installments[p.id]] &&
                IsSchedule(installments[p.id], p.id, start, n, p.monthlyPayment) &&
                invoices.invoices == old(invoices.invoices)[invoiceId := inv.(status := Invoices.PartiallyPaid)]
    {
      if invoiceId !in invoices.invoices {
        return Err("Error creating payment plan: Invoice not found with ID: " + NatToString(invoiceId));
      }
      var inv := invoices.invoices[invoiceId];
      if inv.status == Invoices.Paid {
        return Err("Error creating payment plan: Cannot create payment plan for a paid invoice");
      }
      var interest := rate.GetOr(0);
      var monthly := MonthlyPayment(inv.balanceDue, n, interest);
      var p := PaymentPlan(nextId, PlanNumber(year, |plans|), invoiceId, inv.patient,
                           inv.balanceDue, monthly, n, interest, start, PlusMonths(start, n - 1), start,
                           Active, 0, 0, inv.balanceDue, notes);
      plans := plans[nextId := p];
      nextId := nextId + 1;
      var schedule := CreateInstallmentSchedule(p.id, start, n, monthly);
      installments := installments[p.id := schedule];
      var updated := invoices.UpdateInvoiceStatus(invoiceId, Invoices.PartiallyPaid);
      r := Ok(p);
    }

    /** `updatePaymentPlanStatus`: the lower-cased action picks the new status
        whatever the current one; cancel also cancels the plan's PENDING
        instalments and complete marks the invoice PAID. The notes are then
        overwritten. An unknown plan or action fails with no change. */
    method UpdatePaymentPlanStatus(planId: nat, action: string, notes: Option<string>)
      returns (r: Result<PaymentPlan, string>)
      requires Valid()
      modifies this, invoices
      ensures Valid() && nextId == old(nextId)
      ensures r.Err? ==> plans == old(plans) && installments == old(installments)
                         && invoices.invoices == old(invoices.invoices)
      ensures planId !in old(plans) || ActionStatus(action).None? ==> r.Err?
      ensures r.Ok? ==>
                planId in old(plans) && ActionStatus(action).Some? &&
                r.value == old(plans)[planId].(status := ActionStatus(action).value, notes := notes) &&
                plans == old(plans)[planId := r.value]
      ensures r.Ok? && r.value.status == PlanCancelled ==>
                installments == old(installments)[planId := CancelPending(old(installments)[planId])]
      ensures r.Ok? && r.value.status != PlanCancelled ==> installments == old(installments)
      ensures r.Ok? && r.value.status == PlanCompleted ==>
                r.value.invoice in old(invoices.invoices) &&
                invoices.invoices == old(invoices.invoices)[r.value.invoice :=
                                       old(invoices.invoices)[r.value.invoice].(status := Invoices.Paid)]
      ensures r.Ok? && r.value.status != PlanCompleted ==> invoices.invoices == old(invoices.invoices)
    {
      if planId !in plans {
        return Err("Payment plan not found with ID: " + NatToString(planId));
      }
      var plan := plans[planId];
      var next := ActionStatus(action);
      if next.None? {
        return Err("Invalid action: " + action);
      }
      if next.value == PlanCompleted && plan.invoice !in invoices.invoices {
        return Err("Invoice not found with ID: " + NatToString(plan.invoice));
      }
      if next.value == PlanCancelled {
        installments := installments[planId := CancelPending(installments[planId])];
      } else if next.value == PlanCompleted {
        var updated := invoices.UpdateInvoiceStatus(plan.invoice, Invoices.Paid);
      }
      plan := plan.(status := next.value, notes := notes);
      plans := plans[planId := plan];
      r := Ok(plan);
    }

    /** `adjustPaymentPlan`: a new duration and instalment amount, the reason
        appended to the notes, the end date recomputed from the original start,
        and the schedule deleted and rebuilt. What was financed, paid and
        remains is left as it was. */
    method AdjustPaymentPlan(planId: nat, newDuration: int, newMonthly: Money, reason: Option<string>)
      returns (r: Result<PaymentPlan, string>)
      requires Valid()
      modifies this
      ensures Valid() && nextId == old(nextId)
      ensures planId !in old(plans) ==> r.Err? && plans == old(plans) && installments == old(installments)
      ensures planId in old(plans) ==>
                var old_p := old(plans)[planId];
                r.Ok? &&
                r.value == old_p.(numberOfPayments := newDuration, monthlyPayment := newMonthly,
                                  notes := Some(JavaText(old_p.notes) + " | Adjusted: " + JavaText(reason)),
                                  endDate := PlusMonths(old_p.startDate, newDuration - 1)) &&
                plans == old(plans)[planId := r.value] &&
                installments.Keys == old(installments).Keys &&
                installments == old(installments)[planId := installments[planId]] &&
                IsSchedule(installments[planId], planId, old_p.startDate, newDuration, newMonthly)
      ensures r.Ok? ==>
                r.value.totalAmount == old(plans)[planId].totalAmount &&
                r.value.amountPaid == old(plans)[planId].amountPaid &&
                r.value.remainingBalance == old(plans)[planId].remainingBalance
    {
      if planId !in plans {
        return Err("Payment plan not found with ID: " + NatToString(planId));
      }
      var plan := plans[planId];
      plan := plan.(numberOfPayments := newDuration, monthlyPayment := newMonthly,
                    notes := Some(JavaText(plan.notes) + " | Adjusted: " + JavaText(reason)),
                    endDate := PlusMonths(plan.startDate, newDuration - 1));
      var schedule := CreateInstallmentSchedule(planId, plan.startDate, newDuration, newMonthly);
      installments := installments[planId := schedule];
      plans := plans[planId := plan];
      r := Ok(plan);
    }
  }
}
