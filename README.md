# Hospital billing, pharmacy and card-entry core in Dafny

This project models the logic of a hospital management system that is more
than plumbing. It covers five areas:

- **Booking to payment.** Doctor-availability slots, appointment booking and
  cancellation against a per-date counter, and the consultation invoice that
  booking creates. The invoice engine (totals, numbering, crediting payments,
  overdue/outstanding/aging classification). The payment engine (card,
  bank-transfer, point-of-sale, bank-slip verification). The instalment-plan
  engine (monthly amount, schedule, status machine, adjustment).
- **Pharmacy.** Prescription fulfilment and shop checkout. Both check and
  decrement medicine stock, total the lines, store an order and mirror it
  into an invoice.
- **The shop page's cart** (pharmacy.js): add, update and remove keep
  stock plus cart quantity constant for every medicine; the filter and
  category counts.
- **The card-entry page** (card.js): Luhn check, number grouping, masking,
  brand detection, the expiry/name/CVV sanitisers and the form validator.
- **Calendar arithmetic** behind instalment due dates (java.time's
  `plusMonths`, which clamps the day to the end of the month).

Representation:

- Money is an integer number of cents (`Common.Money`). Interest rates are
  integers in units of 1/10000 (scale 4). Days are day numbers. Times of day
  are minutes since midnight. Plan dates are `Calendar.Date` values, so the
  month-end clamping can be stated.
- Each service (`InvoiceService`, `PaymentService`, `PaymentPlanService`,
  `AppointmentService`, `PharmacyOrderService`, `PrescriptionService`) is a
  Dafny `class` whose fields are the repositories it writes. Each repository
  is a `map` from id to record plus a next-id counter. The order and medicine
  repositories are classes of their own, shared by the services that write
  them.
- A `@Transactional` method is modelled all-or-nothing: every failing path
  returns an error and its `ensures` says that nothing changed.
- The clock (`Invoices.Now`, `today`, `now`), UUID transaction ids, the
  simulated card gateway's random approval (`authorised`), repository counts
  used in numbers (`year`, `sequence`) and the file-store outcome of a bank
  slip (`SlipUpload`) are parameters.
- The shop page's state is a `PharmacyPage` object with `medicines` and
  `cart` sequences. Each handler is proved equal to a pure function of the
  old page (`AddedToCart`, `RemovedFromCart`, `QuantityUpdated`). The
  conservation lemmas are stated over those functions.
- Java's truncating integer division is written out as `Slots.TruncDiv`,
  JavaScript's `%` inside `Card.GradientIndex`, and JavaScript's `.trim()` and
  `toLowerCase` as `Common.JsTrim` and `Common.ToLower`.

Three behaviours of the code that are easy to miss:

- The slot list fails only when `end - start <= -30`. Integer division
  truncates toward zero, so a window ending less than 30 minutes before its
  start yields an empty list instead of an exception (`Slots.FreeSlotsFailure`).
- The last instalment's due date is built by chaining `plusMonths(1)`. It is
  not always the plan's `endDate`: for a start on 31 January, the third
  instalment falls on 28 March while `endDate` is 31 March
  (`Calendar.ChainedDueDivergesFromEndDate`).
- `updatePaymentPlanStatus` lower-cases the action before matching it
  (`PaymentPlans.ActionIgnoresCase`).

## Model

| member | source | states |
|---|---|---|
| Appointments.NewAppointment | src/main/java/com/hospital/hospitalmanagementsystem/model/Appointment.java:46 | a new appointment carries the given patient, doctor, date and time, with status SCHEDULED |
| Appointments.FirstWindow | src/main/java/com/hospital/hospitalmanagementsystem/service/AppointmentService.java:51-56 | returns the index of the first availability record for the doctor and date, with no earlier record matching; None exactly when no record matches |
| Appointments.TryBook | src/main/java/com/hospital/hospitalmanagementsystem/service/AppointmentService.java:48-60 | booking succeeds iff some record for the doctor and date is flagged available and the first record's booked count is below its maximum; the failure is "not available" or "fully booked" accordingly; on success only the first record's count rises by exactly 1 |
| Appointments.TryCancel | src/main/java/com/hospital/hospitalmanagementsystem/service/AppointmentService.java:149-160 | cancelling lowers the first record's count by 1, never below 0, changes no other record, and changes nothing when there is no record |
| Appointments.BookingKeepsCapacity | src/main/java/com/hospital/hospitalmanagementsystem/service/AppointmentService.java:56-60 | after a successful booking the first record's booked count is at most its maximum |
| Appointments.CancelUndoesBooking | src/main/java/com/hospital/hospitalmanagementsystem/service/AppointmentService.java:149-160 | cancelling right after a successful booking restores the availability records exactly |
| Appointments.BookingsBoundedByCapacity | src/main/java/com/hospital/hospitalmanagementsystem/service/AppointmentService.java:56-60 | n consecutive successful bookings on one date raise the first record's count by exactly n and need its old count plus n to be at most its maximum |
| Appointments.ParseDecimal | src/main/java/com/hospital/hospitalmanagementsystem/service/AppointmentService.java:72-81 | a parsed fee is never negative |
| Appointments.ConsultationFee | src/main/java/com/hospital/hospitalmanagementsystem/service/AppointmentService.java:72-81 | the fee is the doctor's fee text parsed to cents; an absent or unparsable fee is 0 |
| Appointments.ParseDecimalRoundTrip | src/main/java/com/hospital/hospitalmanagementsystem/service/AppointmentService.java:74-78 | every amount written with two decimals parses back to the same number of cents |
| Appointments.ParseDecimalWhole | src/main/java/com/hospital/hospitalmanagementsystem/service/AppointmentService.java:74-78 | a whole number of currency units parses to 100 times its value in cents |
| Appointments.ConsultationDraft | src/main/java/com/hospital/hospitalmanagementsystem/service/AppointmentService.java:65-97 | the consultation invoice is PENDING, for the appointment's patient and appointment, issued and due today, subtotal = fee, no tax, discount or payment, and has exactly one "Doctor Consultation" line of quantity 1 priced at the fee |
| Appointments.SortByDateTime | src/main/java/com/hospital/hospitalmanagementsystem/service/AppointmentService.java:170-175 | the result is ordered by (date, time), ascending or descending, and is a permutation of the input |
| Appointments.UpcomingAppointments | src/main/java/com/hospital/hospitalmanagementsystem/service/AppointmentService.java:166-178 | exactly the patient's non-cancelled appointments dated today or later, each as often as in the input, ascending by (date, time) |
| Appointments.RecentAppointments | src/main/java/com/hospital/hospitalmanagementsystem/service/AppointmentService.java:180-191 | at most 5 of the patient's appointments dated before today, cancelled ones included, descending by (date, time), each taken no more often than it occurs among them; fewer than 5 only when fewer exist |
| Appointments.RecentAreLatest | src/main/java/com/hospital/hospitalmanagementsystem/service/AppointmentService.java:180-191 | a past appointment left out of the recent list is no later than every appointment in it, and the list is full |
| Appointments.FilteredAppointments | src/main/java/com/hospital/hospitalmanagementsystem/service/AppointmentService.java:217-256 | exactly the appointments matching the case-insensitive patient and doctor name substrings, the date and the status filters, as a permutation of the matches, descending by (date, time) |
| Appointments.AppointmentService.constructor | src/main/java/com/hospital/hospitalmanagementsystem/service/AppointmentService.java:34-45 | a service over the given availability records and invoice service, with no appointments |
| Appointments.AppointmentService.BookAppointment | src/main/java/com/hospital/hospitalmanagementsystem/service/AppointmentService.java:48-114 | a failed booking returns the counter step's message and changes nothing; a successful one applies TryBook to the records, stores the appointment under a fresh id and saves its consultation invoice: PENDING, subtotal = total = balance due = the fee, one "Doctor Consultation" line, issued and due today |
| Appointments.AppointmentService.CancelAppointment | src/main/java/com/hospital/hospitalmanagementsystem/service/AppointmentService.java:149-160 | an unknown id changes nothing; otherwise the appointment becomes CANCELLED and the availability records become TryCancel of the old ones |
| Slots.CandidateSlots | src/main/java/com/hospital/hospitalmanagementsystem/controller/AppointmentController.java:116-121 | the k-th candidate is start + 30·k, for exactly `count` candidates |
| Slots.DoctorAvailability | src/main/java/com/hospital/hospitalmanagementsystem/controller/AppointmentController.java:89-124 | an unknown doctor, a date with no availability record, or a first record not flagged available all give an empty list; otherwise the result is the free slots of the first record (a failure for a window ending 30 or more minutes before its start) |
| Slots.FreeSlotsFailure | src/main/java/com/hospital/hospitalmanagementsystem/controller/AppointmentController.java:121 | slot generation fails exactly when end − start ≤ −30, and a window shorter than 30 minutes that does not fail has no slots |
| Slots.FreeSlotsMembership | src/main/java/com/hospital/hospitalmanagementsystem/controller/AppointmentController.java:116-122 | a time is offered iff it is start + 30·k with start ≤ time and time + 30 ≤ end, and no appointment of the doctor on that date has that time |
| Slots.FreeSlotsAscending | src/main/java/com/hospital/hospitalmanagementsystem/controller/AppointmentController.java:120-123 | the offered times are strictly ascending, hence free of duplicates |
| Slots.CancelledAppointmentBlocksSlot | src/main/java/com/hospital/hospitalmanagementsystem/controller/AppointmentController.java:110-113 | a cancelled appointment still removes its time from the offered slots |
| Calendar.PlusMonths | src/main/java/com/hospital/hospitalmanagementsystem/service/PaymentPlanService.java:62 | adding k months moves the month index by exactly k, keeps the day when it exists in the target month and otherwise clamps it to the month's last day, and keeps dates valid |
| Calendar.ChainedDueMonth | src/main/java/com/hospital/hospitalmanagementsystem/service/PaymentPlanService.java:160-177 | the i-th chained due date is valid, falls i − 1 months after the start, on a day no later than the start day |
| Calendar.ChainedDueIsDirect | src/main/java/com/hospital/hospitalmanagementsystem/service/PaymentPlanService.java:61-62 | for start days up to 28, chaining one month at a time gives the same date as adding the months at once |
| Calendar.ChainedDueDivergesFromEndDate | src/main/java/com/hospital/hospitalmanagementsystem/service/PaymentPlanService.java:172-174 | from 31 January, the third chained due date is 28 March while start plus two months is 31 March |
| Invoices.NewDraft | src/main/java/com/hospital/hospitalmanagementsystem/model/Invoice.java:69-89 | a new invoice has tax, discount and amount paid 0, status PENDING, no number, no subtotal and no items |
| Invoices.CalculateTotals | src/main/java/com/hospital/hospitalmanagementsystem/service/InvoiceService.java:259-273 | missing amounts become 0, total = subtotal + tax − discount, balance due = max(0, total − paid), so the balance is 0 exactly when paid covers the total; all other fields are carried over |
| Invoices.CalculateTotalsNonNegative | src/main/java/com/hospital/hospitalmanagementsystem/model/Invoice.java:63-86 | with non-negative inputs and a discount no larger than subtotal + tax, every computed amount is non-negative |
| Invoices.Credit | src/main/java/com/hospital/hospitalmanagementsystem/service/InvoiceService.java:137-150 | crediting raises amount paid by exactly the amount, resets the balance to max(0, total − paid), and sets PAID iff paid covers the total, else PARTIALLY_PAID; nothing else changes |
| Invoices.CreditKeepsConsistent | src/main/java/com/hospital/hospitalmanagementsystem/service/InvoiceService.java:137-150 | a credited consistent invoice stays consistent, and it is PAID exactly when its balance is 0 |
| Invoices.CreditWithinBalance | src/main/java/com/hospital/hospitalmanagementsystem/service/InvoiceService.java:137-150 | crediting at most the balance lowers the balance by exactly the amount and keeps all amounts non-negative |
| Invoices.CreditTwice | src/main/java/com/hospital/hospitalmanagementsystem/service/InvoiceService.java:133-160 | two credits in a row equal one credit of their sum |
| Invoices.PostPersistNumber | src/main/java/com/hospital/hospitalmanagementsystem/model/Invoice.java:114-117 | the number reads "INV-", six digits, "-", then the id with at least 5 digits; it is 16 characters exactly when the id is below 100000, so padding never truncates |
| Invoices.PostPersistNumberInjective | src/main/java/com/hospital/hospitalmanagementsystem/model/Invoice.java:116 | distinct (year, month, id) triples get distinct numbers |
| Invoices.ServiceInvoiceNumber | src/main/java/com/hospital/hospitalmanagementsystem/service/InvoiceService.java:275-282 | the number reads "INV-", the year, "-", the two-digit month, then the sequence with at least 5 digits |
| Invoices.ServiceInvoiceNumberInjective | src/main/java/com/hospital/hospitalmanagementsystem/service/InvoiceService.java:275-282 | distinct (year, month, sequence) triples get distinct numbers |
| Invoices.NumberFormatsDisjoint | src/main/java/com/hospital/hospitalmanagementsystem/service/InvoiceService.java:275-282 | no number of the entity's format equals a number of the service's format |
| Invoices.AssignNumberOnPersist | src/main/java/com/hospital/hospitalmanagementsystem/model/Invoice.java:111-119 | an existing number is never overwritten; a missing one becomes the entity-format number of the current month and the id |
| Invoices.OverdueInvoices | src/main/java/com/hospital/hospitalmanagementsystem/service/InvoiceService.java:188-199 | exactly the invoices with a due date before today and status PENDING, PARTIALLY_PAID or SENT |
| Invoices.OutstandingBalanceConcat | src/main/java/com/hospital/hospitalmanagementsystem/service/InvoiceService.java:206-217 | the outstanding total of two lists is the sum of their totals |
| Invoices.OverdueWithinOutstanding | src/main/java/com/hospital/hospitalmanagementsystem/service/InvoiceService.java:188-217 | with non-negative balances, the overdue balance lies between 0 and the outstanding balance |
| Invoices.BucketOf | src/main/java/com/hospital/hospitalmanagementsystem/service/InvoiceService.java:239-249 | the aging bucket is current for ≤ 0 days past due, 30 for 1–30, 60 for 31–60 and 90+ above 60, each iff |
| Invoices.BucketsPartitionAging | src/main/java/com/hospital/hospitalmanagementsystem/service/InvoiceService.java:220-252 | the four bucket totals add up to the total balance of the invoices in the report |
| Invoices.AgingReport | src/main/java/com/hospital/hospitalmanagementsystem/service/InvoiceService.java:220-252 | the loop's four sums are the bucket totals, and together they are the report's whole balance |
| Invoices.Updated | src/main/java/com/hospital/hospitalmanagementsystem/service/InvoiceService.java:63-81 | an update copies description, due date and notes; it takes the new subtotal, tax and discount and recomputes only when the subtotal changed; identity, number, status, payment and items are kept, and consistency is preserved |
| Invoices.InvoiceService.constructor | src/main/java/com/hospital/hospitalmanagementsystem/service/InvoiceService.java:33-37 | an empty invoice store over the given order repository |
| Invoices.InvoiceService.CreateInvoice | src/main/java/com/hospital/hospitalmanagementsystem/service/InvoiceService.java:41-55 | stores one new invoice under a fresh id: totals computed, a missing or empty number generated, a missing status defaulted to PENDING |
| Invoices.InvoiceService.SaveInvoice | src/main/java/com/hospital/hospitalmanagementsystem/service/InvoiceService.java:57-61 | stores one new invoice under a fresh id with its totals recomputed and a number assigned on persist |
| Invoices.InvoiceService.UpdateInvoice | src/main/java/com/hospital/hospitalmanagementsystem/service/InvoiceService.java:63-81 | an unknown id fails with no change; otherwise the stored invoice becomes Updated of the old one |
| Invoices.InvoiceService.UpdateInvoiceStatus | src/main/java/com/hospital/hospitalmanagementsystem/service/InvoiceService.java:125-131 | an unknown id fails with no change; otherwise only that invoice's status changes |
| Invoices.InvoiceService.ApplyPayment | src/main/java/com/hospital/hospitalmanagementsystem/service/InvoiceService.java:133-160 | an unknown id fails with no change; otherwise the invoice becomes Credit of the old one and, when it is now PAID, every order linked to it becomes COMPLETED |
| Orders.CompleteLinked | src/main/java/com/hospital/hospitalmanagementsystem/service/InvoiceService.java:153-158 | orders linked to the invoice become COMPLETED, all other orders are unchanged, and no order is added or dropped |
| Orders.OrderRepository.constructor | src/main/java/com/hospital/hospitalmanagementsystem/repository/OrderRepository.java:11-12 | an empty order store |
| Orders.OrderRepository.Insert | src/main/java/com/hospital/hospitalmanagementsystem/service/PharmacyOrderService.java:82 | saving a new order gives it a fresh id and adds it without touching other orders |
| Orders.OrderRepository.LinkInvoice | src/main/java/com/hospital/hospitalmanagementsystem/service/PharmacyOrderService.java:123-124 | only the order's invoice link changes |
| Orders.OrderRepository.CompleteOrdersOf | src/main/java/com/hospital/hospitalmanagementsystem/service/InvoiceService.java:153-158 | the store becomes CompleteLinked of the old store |
| Payments.ValidateAmount | src/main/java/com/hospital/hospitalmanagementsystem/service/PaymentService.java:429-437 | an amount passes iff 0 < amount ≤ balance due |
| Payments.ValidatedCreditSettlesBalance | src/main/java/com/hospital/hospitalmanagementsystem/service/PaymentService.java:429-437 | crediting a validated amount lowers the balance by exactly the amount, keeps every amount non-negative, and makes the invoice PAID iff the amount was the whole balance |
| Payments.NewPayment | src/main/java/com/hospital/hospitalmanagementsystem/service/PaymentService.java:417-427 | a new payment carries the invoice, its patient, the amount, the method, the status and the notes given |
| Payments.TransferNotes | src/main/java/com/hospital/hospitalmanagementsystem/service/PaymentService.java:93-145 | bank-transfer notes always begin with "Bank transfer - Reference: " and the reference |
| Payments.RevenueConcat | src/main/java/com/hospital/hospitalmanagementsystem/service/PaymentService.java:305-310 | revenue of two lists is the sum of their revenues |
| Payments.RevenueOfCompleted | src/main/java/com/hospital/hospitalmanagementsystem/service/PaymentService.java:305-310 | revenue counts COMPLETED payments only, and is non-negative when amounts are |
| Payments.RevenueOrderFree | src/main/java/com/hospital/hospitalmanagementsystem/service/PaymentService.java:305-310 | any two enumerations of the whole payment table give the same revenue, so the repository's order does not matter |
| Payments.RevenuePermuted | src/main/java/com/hospital/hospitalmanagementsystem/service/PaymentService.java:305-310 | revenue depends only on which payments are listed, each as often, not on their order |
| Payments.PaymentService.constructor | src/main/java/com/hospital/hospitalmanagementsystem/service/PaymentService.java:29-40 | an empty payment store over the given invoice service |
| Payments.PaymentService.ProcessCardPayment | src/main/java/com/hospital/hospitalmanagementsystem/service/PaymentService.java:45-89 | an unknown invoice or an amount that fails validation changes nothing; otherwise a payment is stored, COMPLETED with the invoice credited when the gateway authorises, FAILED with the invoice untouched when it declines |
| Payments.PaymentService.ProcessBankTransferPayment | src/main/java/com/hospital/hospitalmanagementsystem/service/PaymentService.java:93-150 | succeeds iff the invoice exists, the amount validates and the slip file is not refused; the payment is stored PENDING with the reference, the slip path and notes recording the upload outcome; the invoice is untouched |
| Payments.PaymentService.ProcessPOSPayment | src/main/java/com/hospital/hospitalmanagementsystem/service/PaymentService.java:152-195 | always stores a COMPLETED payment; the invoice is looked up by numeric id, then by number; a found invoice is credited the amount without validation; a missing one is noted with the customer's name and phone; the pharmacy orders linked to a credited invoice are completed when it becomes PAID, and no order changes otherwise |
| Payments.PaymentService.ApproveBankSlipPayment | src/main/java/com/hospital/hospitalmanagementsystem/service/PaymentService.java:200-222 | approval succeeds exactly for an existing bank-transfer payment whose invoice, if any, exists; it becomes COMPLETED with the notes and date, its invoice is credited its amount and the invoice's pharmacy orders are completed when it becomes PAID; failures change nothing |
| Payments.PaymentService.RejectBankSlipPayment | src/main/java/com/hospital/hospitalmanagementsystem/service/PaymentService.java:224-233 | an existing payment becomes FAILED with the reason and date, whatever its method; no invoice changes |
| Payments.PaymentService.ApprovePartialBankSlipPayment | src/main/java/com/hospital/hospitalmanagementsystem/service/PaymentService.java:235-257 | succeeds exactly for an existing payment whose amount is at least the verified amount and whose invoice, if any, exists; the payment becomes COMPLETED for the verified amount, the invoice is credited that amount and its pharmacy orders are completed when it becomes PAID; failures change nothing |
| Payments.PaymentService.VerifyBankSlip | src/main/java/com/hospital/hospitalmanagementsystem/controller/AccountantDashboardController.java:115-147 | "reject" succeeds exactly for an existing payment and marks it FAILED with the notes and date; "approve" and "partial" (with a positive amount) succeed exactly when the service's approval does and then leave the state `ApprovedBy` describes (payment COMPLETED for the amount, invoice credited, linked orders completed when PAID); a partial approval without a positive amount and an unknown action change nothing; any failure changes nothing |
| Payments.PaymentService.TotalRevenue | src/main/java/com/hospital/hospitalmanagementsystem/service/PaymentService.java:305-310 | given an enumeration of the whole table, each payment once, the loop's sum is the total of the COMPLETED payments' amounts |
| PaymentPlans.RoundHalfUpDiv | src/main/java/com/hospital/hospitalmanagementsystem/service/PaymentPlanService.java:152-158 | the quotient is within half a unit of num/den, rounding halves away from zero |
| PaymentPlans.MonthlyPayment | src/main/java/com/hospital/hospitalmanagementsystem/service/PaymentPlanService.java:152-158 | the monthly amount is total × (1 + rate) / n rounded half up to a cent |
| PaymentPlans.ZeroRateBranchAgrees | src/main/java/com/hospital/hospitalmanagementsystem/service/PaymentPlanService.java:153-154 | the zero-rate branch gives the same amount as the general formula at rate 0 |
| PaymentPlans.NoRemainderReconciliation | src/main/java/com/hospital/hospitalmanagementsystem/service/PaymentPlanService.java:152-158 | 100.00 over 3 payments is 33.33 each, one cent short of the total |
| PaymentPlans.CreateInstallmentSchedule | src/main/java/com/hospital/hospitalmanagementsystem/service/PaymentPlanService.java:160-177 | n instalments numbered 1..n, each for the monthly amount, PENDING, nothing paid, due on the chained due dates |
| PaymentPlans.ScheduleMonths | src/main/java/com/hospital/hospitalmanagementsystem/service/PaymentPlanService.java:160-177 | instalment k is due in the k-th month after the start, on a valid date no later in the month than the start day |
| PaymentPlans.ScheduleEndsOnEndDate | src/main/java/com/hospital/hospitalmanagementsystem/service/PaymentPlanService.java:160-177 | for start days up to 28 the last instalment is due on the plan's end date |
| PaymentPlans.ScheduleTotalDrift | src/main/java/com/hospital/hospitalmanagementsystem/service/PaymentPlanService.java:152-177 | the scheduled total is n × monthly and differs from total × (1 + rate) by at most half a cent per instalment |
| PaymentPlans.CancelPending | src/main/java/com/hospital/hospitalmanagementsystem/service/PaymentPlanService.java:117-123 | PENDING instalments become CANCELLED and every other instalment is unchanged |
| PaymentPlans.CancelLeavesNothingPending | src/main/java/com/hospital/hospitalmanagementsystem/service/PaymentPlanService.java:117-123 | after cancelling nothing is PENDING, paid instalments are kept, and cancelling again changes nothing |
| PaymentPlans.PlanNumber | src/main/java/com/hospital/hospitalmanagementsystem/service/PaymentPlanService.java:255-260 | the number reads "PLAN", the year, then the count + 1 with at least 6 digits |
| PaymentPlans.PlanNumberInjective | src/main/java/com/hospital/hospitalmanagementsystem/service/PaymentPlanService.java:255-260 | within a year, different counts give different plan numbers |
| PaymentPlans.ActionStatus | src/main/java/com/hospital/hospitalmanagementsystem/service/PaymentPlanService.java:105-131 | suspend, resume, cancel and complete, in any case, map to SUSPENDED, ACTIVE, CANCELLED and COMPLETED, each iff; any other action maps to nothing |
| PaymentPlans.ActionIgnoresCase | src/main/java/com/hospital/hospitalmanagementsystem/service/PaymentPlanService.java:105 | "SUSPEND" and "Resume" are accepted and "pause" is not |
| PaymentPlans.PaymentPlanService.constructor | src/main/java/com/hospital/hospitalmanagementsystem/service/PaymentPlanService.java:23-31 | empty plan and instalment stores over the given invoice service |
| PaymentPlans.PaymentPlanService.CreatePaymentPlan | src/main/java/com/hospital/hospitalmanagementsystem/service/PaymentPlanService.java:34-77 | fails with no change iff the invoice is unknown or PAID; otherwise a new ACTIVE plan finances the invoice's balance due at the monthly amount, ends n − 1 months after the start, gets its schedule, and the invoice becomes PARTIALLY_PAID |
| PaymentPlans.PaymentPlanService.UpdatePaymentPlanStatus | src/main/java/com/hospital/hospitalmanagementsystem/service/PaymentPlanService.java:101-132 | an unknown plan or action fails with no change; otherwise the plan takes the action's status and the notes; cancel also cancels its pending instalments; complete also marks its invoice PAID |
| PaymentPlans.PaymentPlanService.AdjustPaymentPlan | src/main/java/com/hospital/hospitalmanagementsystem/service/PaymentPlanService.java:134-148 | an unknown plan fails with no change; otherwise the plan takes the new duration and monthly amount, the reason is appended to its notes, its end date is recomputed, its schedule rebuilt, and what was financed, paid and remains is kept |
| Pharmacy.DispensePrefixFails | src/main/java/com/hospital/hospitalmanagementsystem/service/PharmacyOrderService.java:58-64 | once a prefix of the lines fails, the whole request fails with the same error |
| Pharmacy.DispenseConservesStock | src/main/java/com/hospital/hospitalmanagementsystem/service/PharmacyOrderService.java:62-66 | a successful dispense lowers each medicine's stock by exactly the total quantity requested of it and adds or removes no medicine |
| Pharmacy.DispenseLines | src/main/java/com/hospital/hospitalmanagementsystem/service/PrescriptionService.java:157-175 | each line becomes one order item with the requested quantity, the medicine's price and line total price × quantity, and the total is the sum of the line totals |
| Pharmacy.DispenseSucceedsIff | src/main/java/com/hospital/hospitalmanagementsystem/service/PharmacyOrderService.java:57-79 | with non-negative quantities and stock, dispensing succeeds iff every line names a known medicine and no medicine is asked for more than its stock |
| Pharmacy.DispensedLinesWereFeasible | src/main/java/com/hospital/hospitalmanagementsystem/service/PharmacyOrderService.java:57-79 | after a success every line named a known medicine and no medicine's demand exceeded its stock |
| Pharmacy.FeasibleLinesDispense | src/main/java/com/hospital/hospitalmanagementsystem/service/PharmacyOrderService.java:57-79 | lines naming known medicines with demand within stock always dispense |
| Pharmacy.DispenseKeepsStockNonNegative | src/main/java/com/hospital/hospitalmanagementsystem/service/PharmacyOrderService.java:62-65 | starting from non-negative stock, a successful dispense leaves every stock non-negative |
| Pharmacy.RunDispense | src/main/java/com/hospital/hospitalmanagementsystem/service/PharmacyOrderService.java:57-79 | the loop's outcome is the functional Dispense of the stock and lines |
| Pharmacy.MirrorItems | src/main/java/com/hospital/hospitalmanagementsystem/service/PharmacyOrderService.java:100-114 | one invoice line per order item, with the medicine's name, the quantity, the unit price and the line total |
| Pharmacy.MedicineRepository.constructor | src/main/java/com/hospital/hospitalmanagementsystem/service/PharmacyOrderService.java:24 | a medicine store holding the given table |
| Pharmacy.MedicineRepository.Commit | src/main/java/com/hospital/hospitalmanagementsystem/service/PharmacyOrderService.java:66 | the store becomes the given table |
| Pharmacy.DispenseKeepsWellKeyed | src/main/java/com/hospital/hospitalmanagementsystem/service/PharmacyOrderService.java:58-66 | dispensing keeps every medicine stored under its own id |
| Pharmacy.StoreOrder | src/main/java/com/hospital/hospitalmanagementsystem/service/PharmacyOrderService.java:48-82 | the reduced stock is written back and one PENDING_PAYMENT order with the dispensed items and total is added under a fresh id |
| Pharmacy.CartRequests | src/main/java/com/hospital/hospitalmanagementsystem/service/PharmacyOrderService.java:57-58 | each cart line asks for its medicine id and quantity, in order |
| Pharmacy.PharmacyOrderService.constructor | src/main/java/com/hospital/hospitalmanagementsystem/service/PharmacyOrderService.java:21-26 | a service over the given medicine store and invoice service |
| Pharmacy.PharmacyOrderService.CreateOrderAndInvoiceFromCart | src/main/java/com/hospital/hospitalmanagementsystem/service/PharmacyOrderService.java:41-135 | fails iff the cart is empty or some line cannot be dispensed, and then changes no stock, order or invoice; otherwise the stock is reduced, the order stored and linked, and its invoice created and returned |
| Pharmacy.PharmacyOrderService.RecordCheckout | src/main/java/com/hospital/hospitalmanagementsystem/service/PharmacyOrderService.java:81-124 | writes the reduced stock, one new order and one new invoice for it through the invoice service, and links the order to that invoice |
| Pharmacy.CartInvoiceMirrorsOrder | src/main/java/com/hospital/hospitalmanagementsystem/service/PharmacyOrderService.java:87-119 | the checkout invoice's lines mirror the order's, its subtotal is the order total, tax and discount are 0, it is PENDING and due seven days after issue |
| Pharmacy.Selection | src/main/java/com/hospital/hospitalmanagementsystem/service/PrescriptionService.java:145-154 | a missing or blank form value fails; a selected id is the one the form value parses to |
| Pharmacy.PrescriptionRequests | src/main/java/com/hospital/hospitalmanagementsystem/service/PrescriptionService.java:145-162 | each prescription item asks for its form selection and its prescribed quantity, in order |
| Pharmacy.LinkMedicines | src/main/java/com/hospital/hospitalmanagementsystem/service/PrescriptionService.java:171 | each item is linked to the medicine the form selected for it, and is otherwise unchanged |
| Pharmacy.SelectionsResolved | src/main/java/com/hospital/hospitalmanagementsystem/service/PrescriptionService.java:145-171 | when fulfilment dispenses, every item's form selection was resolved |
| Pharmacy.PrescriptionService.constructor | src/main/java/com/hospital/hospitalmanagementsystem/service/PrescriptionService.java:29-48 | a service over the given prescriptions, medicine store and invoice service |
| Pharmacy.PrescriptionService.FulfillPrescription | src/main/java/com/hospital/hospitalmanagementsystem/service/PrescriptionService.java:120-210 | a missing prescription, a non-PENDING status (failing with a message naming the current status), a missing patient, a bad selection or short stock each fail with no change; success happens exactly when all checks pass, and then stock, order, invoice and prescription status are written |
| Pharmacy.PrescriptionService.RecordFulfilment | src/main/java/com/hospital/hospitalmanagementsystem/service/PrescriptionService.java:174-209 | writes the reduced stock, one PENDING_PAYMENT order linked to one new invoice (the prescription's draft with totals computed and a number assigned on persist), and marks the prescription FULFILLED with each item linked to its selected medicine |
| Cart.FindMedicine | src/main/resources/static/js/pharmacy.js:345 | the index of the first medicine with the id, or None when no medicine has it |
| Cart.FindEntry | src/main/resources/static/js/pharmacy.js:348 | the index of the first cart entry for the id, or None when there is none |
| Cart.QtyOfSingleLine | src/main/resources/static/js/pharmacy.js:348-353 | in a cart with one entry per medicine, a medicine's cart quantity is that entry's quantity, or 0 without one |
| Cart.ItemCountAtLeastLines | src/main/resources/static/js/pharmacy.js:373 | when every entry holds at least one unit, the item count is at least the number of entries |
| Cart.ItemCountUpdate | src/main/resources/static/js/pharmacy.js:373 | changing one entry's quantity changes the item count by exactly the difference |
| Cart.FilterMedicines | src/main/resources/static/js/pharmacy.js:87-98 | a medicine is shown iff the trimmed lower-cased term is empty or occurs in its lower-cased name, generic name, brand or description, and the category is "all" or equal to its own |
| Cart.UnfilteredShowsAll | src/main/resources/static/js/pharmacy.js:87-98 | with no term and category "all" every medicine is shown, in order |
| Cart.CategoryNarrows | src/main/resources/static/js/pharmacy.js:87-98 | choosing a category only hides medicines |
| Cart.CategoryCountsSumToTotal | src/main/resources/static/js/pharmacy.js:224-237 | every listed category, a missing one counted as "Uncategorized", has at least one medicine, and the counts add up to the number of medicines |
| Cart.AddToCartKeepsUnits | src/main/resources/static/js/pharmacy.js:344-357 | adding keeps stock + cart quantity for every listed medicine, one entry per medicine, positive entries and non-negative stock; it is a no-op for a missing or out-of-stock medicine, and otherwise puts exactly one more unit of it in the cart |
| Cart.RemoveFromCartKeepsUnits | src/main/resources/static/js/pharmacy.js:419-431 | removing keeps stock + cart quantity for every listed medicine and one entry per medicine, leaves none of the medicine in the cart, so its whole quantity goes back to stock, and keeps entries positive and stock non-negative |
| Cart.UpdateKeepsUnits | src/main/resources/static/js/pharmacy.js:399-416 | a quantity change keeps stock + cart quantity for every listed medicine, one entry per medicine and every entry positive, and keeps stock non-negative for changes of at most one unit upwards |
| Cart.UpdateEmptiesLine | src/main/resources/static/js/pharmacy.js:408-413 | a change that takes an entry to 0 or below returns its units to stock and removes the entry |
| Cart.PharmacyPage.constructor | src/main/resources/static/js/pharmacy.js:177-220 | a page over the loaded medicines with an empty cart |
| Cart.PharmacyPage.AddToCart | src/main/resources/static/js/pharmacy.js:344-357 | the new page is AddedToCart of the old one, and the page invariant is kept |
| Cart.PharmacyPage.RemoveFromCart | src/main/resources/static/js/pharmacy.js:419-431 | the new page is RemovedFromCart of the old one |
| Cart.PharmacyPage.UpdateCartItemQuantity | src/main/resources/static/js/pharmacy.js:399-416 | the new page is QuantityUpdated of the old one, and the page invariant is kept |
| Card.StripSpaces | src/main/resources/static/js/card.js:129-133 | the result contains no whitespace |
| Card.DigitsOf | src/main/resources/static/js/card.js:129-133 | the result contains only digits and is no longer than the input |
| Card.DigitsOfDigits | src/main/resources/static/js/card.js:129-133 | keeping the digits of a digit string changes nothing |
| Card.DigitsIgnoreSpaces | src/main/resources/static/js/card.js:129-133 | removing whitespace first does not change the digits kept |
| Card.Groups | src/main/resources/static/js/card.js:131 | a string splits into ⌈n/4⌉ groups of 1 to 4 characters whose concatenation is the string |
| Card.GroupsAt | src/main/resources/static/js/card.js:131 | group i holds characters 4i onwards, min(4, n − 4i) of them |
| Card.FormatCardNumberShape | src/main/resources/static/js/card.js:129-133 | the formatted number is the digit groups joined by single spaces, of length digits + groups − 1 |
| Card.FormatCardNumberRoundTrip | src/main/resources/static/js/card.js:129-133 | removing the spaces from a formatted number gives back exactly its digits |
| Card.FormatCardNumberIdempotent | src/main/resources/static/js/card.js:129-133 | formatting a formatted number changes nothing |
| Card.LuhnContribution | src/main/resources/static/js/card.js:235-240 | a digit contributes itself, or its double less 9 when that exceeds 9, always below 10 |
| Card.LuhnCheck | src/main/resources/static/js/card.js:226-245 | the loop's verdict is the Luhn mod-10 check of ISO/IEC 7812-1 Annex B on a digit string, and false on any other string |
| Card.LuhnSumAppend | src/main/resources/static/js/card.js:226-245 | the Luhn sum of a number ending in digit c is the sum of the same number ending in 0, plus c: the last digit is never doubled |
| Card.CheckDigitCompletes | src/main/resources/static/js/card.js:226-245 | every digit string has exactly one check digit that makes it pass |
| Card.LuhnDetectsSingleDigitErrors | src/main/resources/static/js/card.js:226-245 | changing any single digit of a passing number makes it fail |
| Card.MaskCardNumber | src/main/resources/static/js/card.js:138-158 | the display is the masked groups of the spaceless input, joined by spaces |
| Card.MaskOfNothing | src/main/resources/static/js/card.js:139-141 | an empty number shows four hidden groups |
| Card.MaskedGroupsShape | src/main/resources/static/js/card.js:138-158 | there are at least four groups, as many as the digits need beyond 16, each exactly four characters |
| Card.MaskHidesMiddle | src/main/resources/static/js/card.js:138-158 | every group other than the first and last is fully hidden |
| Card.MaskShowsEnds | src/main/resources/static/js/card.js:138-158 | the first and last groups show their digits, padded with bullets to four |
| Card.MaskSixteenDigits | src/main/resources/static/js/card.js:138-158 | a 16-digit number shows its first and last four digits around two hidden groups |
| Card.DetectCardType | src/main/resources/static/js/card.js:108-124 | a named brand is returned only when its prefix rule matches, and the default exactly when no rule matches |
| Card.DetectCardTypeExact | src/main/resources/static/js/card.js:108-124 | each named brand is detected exactly when its prefix rule matches |
| Card.OnCardNumberInput | src/main/resources/static/js/card.js:163-172 | the field shows the formatted number, the card face the masked digits, and the brand is detected from the digits |
| Card.ExpiryVerdict | src/main/resources/static/js/card.js:250-270 | for a real current month, an expiry is accepted iff it is MM/YY with a month 1–12 not before the current month of the current two-digit year; a malformed field and a bad month get their own messages, each iff |
| Card.ExpiryAcceptedEarlier | src/main/resources/static/js/card.js:250-270 | an expiry accepted on some day is accepted on every earlier day of the same century |
| Card.FormatExpiryDigits | src/main/resources/static/js/card.js:195-204 | the expiry field keeps the first four digits typed |
| Card.FormatExpiryShape | src/main/resources/static/js/card.js:195-204 | the field is a full MM/YY exactly when at least four digits were typed |
| Card.FormatExpiryIdempotent | src/main/resources/static/js/card.js:195-204 | reformatting the expiry field changes nothing |
| Card.SanitizeName | src/main/resources/static/js/card.js:177-190 | the name field holds at most 26 characters, each a letter, space, hyphen or apostrophe |
| Card.SanitizeNameIdempotent | src/main/resources/static/js/card.js:177-190 | sanitising a sanitised name changes nothing |
| Card.NameDisplayCapitals | src/main/resources/static/js/card.js:177-190 | the card face shows the name with no lower-case letters, same length when it is not empty |
| Card.SanitizeCvv | src/main/resources/static/js/card.js:217-221 | the CVV field holds only digits |
| Card.CvvDisplay | src/main/resources/static/js/card.js:217-221 | the card back shows one bullet per CVV digit, or three when it is empty |
| Card.GradientIndex | src/main/resources/static/js/card.js:96 | the fallback gradient index is (n − 1) mod 8 for positive n, with JavaScript's remainder for the rest |
| Card.BackgroundNumber | src/main/resources/static/js/card.js:59-65 | the background number is between 1 and the number of backgrounds |
| Card.GradientForEveryBackground | src/main/resources/static/js/card.js:59-96 | every background number picks a gradient in range, the draw mod 8 |
| Card.ValidateForm | src/main/resources/static/js/card.js:275-334 | the submission verdict is the decision on the form's check results |
| Card.DecisionMeaning | src/main/resources/static/js/card.js:275-334 | the form passes iff every check passes; a failure reports a failing check with every earlier check passing |
| Card.FormattedNumberChecks | src/main/resources/static/js/card.js:275-290 | on a formatted number field, the length check holds iff 13–19 digits were typed, and the Luhn check iff the typed digits pass Luhn |
| Common.JsTrimBlank | src/main/resources/static/js/pharmacy.js:33 | trimming gives the empty string iff the input is all whitespace |
| Common.JsTrimIdempotent | src/main/resources/static/js/pharmacy.js:33 | trimming twice is trimming once |
| Common.ParseLongRoundTrip | src/main/java/com/hospital/hospitalmanagementsystem/service/PaymentService.java:166-172 | decimal text of a number, with an optional sign, parses back to that number |
| Common.ZeroPadValue | src/main/java/com/hospital/hospitalmanagementsystem/model/Invoice.java:116 | zero-padding keeps the number's value |
| Common.ZeroPadInjective | src/main/java/com/hospital/hospitalmanagementsystem/model/Invoice.java:116 | different numbers pad to different texts |

## Left out

- Persistence, transactions and concurrency: repositories are maps in memory, a transaction is one sequential method that either finishes or changes nothing, and concurrent bookings or payments are not modelled.
- Bean Validation constraints other than the ones a modelled method relies on, and database unique constraints, are not checked at run time in the model; the invoice amounts' non-negativity is stated as `Invoices.Invoice.NonNegative` and proved where the source guarantees it.
- BigDecimal scale: amounts are whole cents; the interest rate is in units of 1/10000; 64-bit overflow of ids and counts is not modelled (integers are unbounded). `updateInvoice` compares the old and new subtotal with the scale-sensitive `Objects.equals` (InvoiceService.java:72), so in Java 100.00 against 100 counts as a change and recomputes the totals with the new tax; `Invoices.Updated` compares cents, sees no change and keeps the old tax and totals.
- Document rendering, e-mail and notifications (receipts, PDFs, confirmation mails): their failures are caught by the source and change nothing, so the model leaves the calls out.
- Time, randomness and counters are parameters: the current date and time, UUID transaction ids, the card gateway's random approval (`authorised`), the repository counts that feed invoice and plan numbers, and the outcome of storing a bank-slip file.
- `getUpcomingAppointmentsForNextWeek` and the three-argument `findFilteredAppointments` are not modelled; they are further list filters of the kind `UpcomingAppointments` and `FilteredAppointments` already cover.
- Seconds in appointment times are ignored: times are whole minutes.
- Case mapping (`toLowerCase`, `toUpperCase`) is ASCII only, so non-ASCII case pairs are not modelled. JavaScript white space (`trim`, `\s`) is modelled exactly by `Common.IsJsSpace`: tab, line feed, vertical tab, form feed, carriage return, space, U+00A0, U+1680, U+2000–U+200A, U+2028, U+2029, U+202F, U+205F, U+3000 and U+FEFF. Java's `trim` is "code point ≤ space".
- Order.java is not part of this model; the `Orders.Order` record holds the fields the services read and write.
- Dashboard and report aggregation (statistics, month grouping, on-time rates) and the web layer (request mapping, sessions, redirects) are outside the modelled core.
- pharmacy.js: the 8% tax and `toFixed` display are floating point, and rendering, notifications and the checkout request are DOM and network work; medicine ids are compared as natural numbers rather than with JavaScript's loose `==`.
- card.js: the card flip, background loading, focus handling and alerts are DOM work; `ValidateForm` returns the failing check, and `Card.Alert`/`Card.Message` give its text.
- Medicines are stored by value (a map from id to record), so aliasing between the copy a service reads and the one it saves is not modelled; the source saves the same object it read.
- The point-of-sale lookup by invoice number takes any invoice with that number; a duplicate number, which makes the source's lookup throw, is not modelled. The inner exception path of the point-of-sale method is not modelled because no modelled step of it can fail.
- Payments.PaymentService.ProcessPOSPayment: takes the payment method as an enum value, so the failure of `PaymentMethod.valueOf` on an unknown or missing method name (PaymentService.java:158), which the source wraps in a `PaymentProcessingException`, is not modelled.
- Card.SanitizeName: the 26-character cut counts Unicode characters, whereas the page's `value.length` counts UTF-16 code units, so a name with characters outside the Basic Multilingual Plane is cut later than on the page; the length checks of `Card.ValidateForm` likewise count characters.
- Invoices.InvoiceService.SaveInvoice: requires a status to be set, because every caller sets one before saving.
- PaymentPlans.PaymentPlanService.CreatePaymentPlan: requires at least two instalments and a non-negative rate, because the request's validation rejects anything else before the service runs.
- Cart.UpdateKeepsUnits: states that stock stays non-negative only for changes of at most one unit, because the source checks stock before an increase but not its size, so a larger increase can make stock negative.
- Pharmacy.DispenseSucceedsIff: states the if-and-only-if only for non-negative quantities and stock, because the source does not validate the sign of a cart quantity and a negative line adds stock.
