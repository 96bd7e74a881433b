/** Appointment booking and cancellation against a doctor's per-date
    availability windows, the consultation invoice a booking creates, and the
    patient and staff appointment listings. Dates are day numbers and times
    are minutes since midnight. */
module Appointments {
  import opened Common
  import Invoices

  type Minute = int

  datatype AppointmentStatus = Scheduled | Completed | Cancelled | NoShow

  datatype Person = Person(id: nat, firstName: string, lastName: string)

  /** A doctor; the consultation fee is free text restricted to digits and dots. */
  datatype Doctor = Doctor(id: nat, firstName: string, lastName: string, consultationFee: Option<string>)

  datatype Appointment = Appointment(id: nat, patient: Person, doctor: Doctor, date: Day, time: Minute,
                                     status: AppointmentStatus)

  /** One availability window of a doctor on a date. Nothing keeps
      `bookedAppointments <= maxAppointments`: editing a window may lower the maximum. */
  datatype Availability = Availability(doctorId: nat, date: Day, startTime: Minute, endTime: Minute,
                                       maxAppointments: int, bookedAppointments: int, available: bool)

  /** `new Appointment()` starts SCHEDULED. */
  function NewAppointment(patient: Person, doctor: Doctor, date: Day, time: Minute): (a: Appointment)
    ensures a.status == Scheduled && a.patient == patient && a.doctor == doctor && a.date == date && a.time == time
  {
    Appointment(0, patient, doctor, date, time, Scheduled)
  }

  // ---------------------------------------------------------------------------
  // The per-date counter

  predicate IsWindowOf(w: Availability, doctorId: nat, date: Day)
  {
    w.doctorId == doctorId && w.date == date
  }

  /** `findByDoctorAndAvailableDate(...).get(0)` / `.findFirst()`: the first window of the doctor on the date. */
  function FirstWindow(avs: seq<Availability>, doctorId: nat, date: Day): (r: Option<nat>)
    ensures r.Some? ==> r.value < |avs| && IsWindowOf(avs[r.value], doctorId, date)
    ensures r.Some? ==> forall j :: 0 <= j < r.value ==> !IsWindowOf(avs[j], doctorId, date)
    ensures r.None? ==> forall j :: 0 <= j < |avs| ==> !IsWindowOf(avs[j], doctorId, date)
  {
    if avs == [] then None
    else if IsWindowOf(avs[0], doctorId, date) then Some(0)
    else match FirstWindow(avs[1..], doctorId, date)
      case None => None
      case Some(k) => Some(k + 1)
  }

  /** Some window of the doctor on the date is flagged available. */
  predicate AnyAvailable(avs: seq<Availability>, doctorId: nat, date: Day)
  {
    exists j :: 0 <= j < |avs| && IsWindowOf(avs[j], doctorId, date) && avs[j].available
  }

  const NotAvailable := "Doctor is not available on this date"
  const FullyBooked := "No more appointments available for this date"

  /** The counter step of `bookAppointment`: refused when no window of the
      date is available; otherwise the first window of the date (even if it is
      not the available one) is checked against its maximum and incremented.
      The appointment time plays no part. */
  function TryBook(avs: seq<Availability>, doctorId: nat, date: Day): (r: Result<seq<Availability>, string>)
    ensures r.Ok? <==> AnyAvailable(avs, doctorId, date)
                       && avs[FirstWindow(avs, doctorId, date).value].bookedAppointments
                          < avs[FirstWindow(avs, doctorId, date).value].maxAppointments
    ensures r.Err? ==> r.error == (if AnyAvailable(avs, doctorId, date) then FullyBooked else NotAvailable)
    ensures r.Ok? ==> var k := FirstWindow(avs, doctorId, date).value;
              r.value == avs[k := avs[k].(bookedAppointments := avs[k].bookedAppointments + 1)]
  {
    if !AnyAvailable(avs, doctorId, date) then Err(NotAvailable)
    else
      var k := FirstWindow(avs, doctorId, date).value;
      if avs[k].bookedAppointments >= avs[k].maxAppointments then Err(FullyBooked)
      else Ok(avs[k := avs[k].(bookedAppointments := avs[k].bookedAppointments + 1)])
  }

  /** The counter step of `cancelAppointment`: the first window of the date is
      decremented, never below zero; without a window nothing changes. */
  function TryCancel(avs: seq<Availability>, doctorId: nat, date: Day): (r: seq<Availability>)
    ensures |r| == |avs|
    ensures FirstWindow(avs, doctorId, date).None? ==> r == avs
    ensures FirstWindow(avs, doctorId, date).Some? ==> var k := FirstWindow(avs, doctorId, date).value;
              r == avs[k := avs[k].(bookedAppointments := Max0(avs[k].bookedAppointments - 1))]
  {
    match FirstWindow(avs, doctorId, date)
    case None => avs
    case Some(k) => avs[k := avs[k].(bookedAppointments := Max0(avs[k].bookedAppointments - 1))]
  }

  /** Booking keeps `booked <= max` on the window it counts against, when that held before. */
  lemma BookingKeepsCapacity(avs: seq<Availability>, doctorId: nat, date: Day)
    requires TryBook(avs, doctorId, date).Ok?
    ensures var k := FirstWindow(avs, doctorId, date).value;
      TryBook(avs, doctorId, date).value[k].bookedAppointments <= avs[k].maxAppointments
  {
  }

  /** Cancelling undoes a booking on the same doctor and date. */
  lemma CancelUndoesBooking(avs: seq<Availability>, doctorId: nat, date: Day)
    requires TryBook(avs, doctorId, date).Ok?
    requires avs[FirstWindow(avs, doctorId, date).value].bookedAppointments >= 0
    ensures TryCancel(TryBook(avs, doctorId, date).value, doctorId, date) == avs
  {
    var booked := TryBook(avs, doctorId, date).value;
    var k := FirstWindow(avs, doctorId, date).value;
    FirstWindowUnchanged(avs, booked, doctorId, date, k);
    assert booked[k := avs[k]] == avs;
  }

  /** Changing only counters leaves the first window of every date where it was. */
  lemma {:induction false} FirstWindowUnchanged(avs: seq<Availability>, avs': seq<Availability>, doctorId: nat, date: Day, k: nat)
    requires |avs| == |avs'| && k < |avs|
    requires forall j :: 0 <= j < |avs| && j != k ==> avs'[j] == avs[j]
    requires avs'[k].doctorId == avs[k].doctorId && avs'[k].date == avs[k].date
    ensures FirstWindow(avs', doctorId, date) == FirstWindow(avs, doctorId, date)
    decreases |avs|
  {
    if avs != [] && !IsWindowOf(avs[0], doctorId, date) {
      if k == 0 {
        assert avs'[1..] == avs[1..];
      } else {
        FirstWindowUnchanged(avs[1..], avs'[1..], doctorId, date, k - 1);
      }
    }
  }

  /** `n` bookings in a row on the same doctor and date. */
  function BookTimes(avs: seq<Availability>, doctorId: nat, date: Day, n: nat): Result<seq<Availability>, string>
  {
    if n == 0 then Ok(avs)
    else match BookTimes(avs, doctorId, date, n - 1)
      case Err(e) => Err(e)
      case Ok(avs') => TryBook(avs', doctorId, date)
  }

  /** Successive bookings raise the counter of the first window one by one and
      all succeed only while it stays within the maximum: from a counter `b`,
      at most `max - b` bookings of that date succeed. */
  lemma {:induction false} BookingsBoundedByCapacity(avs: seq<Availability>, doctorId: nat, date: Day, n: nat)
    requires BookTimes(avs, doctorId, date, n).Ok?
    requires FirstWindow(avs, doctorId, date).Some?
    ensures var k := FirstWindow(avs, doctorId, date).value;
      FirstWindow(BookTimes(avs, doctorId, date, n).value, doctorId, date) == Some(k)
      && BookTimes(avs, doctorId, date, n).value[k].bookedAppointments == avs[k].bookedAppointments + n
      && BookTimes(avs, doctorId, date, n).value[k].maxAppointments == avs[k].maxAppointments
      && (n > 0 ==> avs[k].bookedAppointments + n <= avs[k].maxAppointments)
  {
    if n > 0 {
      BookingsBoundedByCapacity(avs, doctorId, date, n - 1);
      var k := FirstWindow(avs, doctorId, date).value;
      var prev := BookTimes(avs, doctorId, date, n - 1).value;
      FirstWindowUnchanged(prev, TryBook(prev, doctorId, date).value, doctorId, date, k);
    }
  }

  // ---------------------------------------------------------------------------
  // The consultation fee

  /** The first character of `s` that is not a digit. */
  function FirstNonDigit(s: string): (k: nat)
    requires !AllDigits(s)
    ensures k < |s| && !IsDigit(s[k]) && AllDigits(s[..k])
  {
    if !IsDigit(s[0]) then 0
    else
      assert s[1..][..FirstNonDigit(s[1..])] == s[1..FirstNonDigit(s[1..]) + 1];
      FirstNonDigit(s[1..]) + 1
  }

  /** The cents of a fraction part, rounded half up after the second digit. */
  function FractionCents(f: string): (c: nat)
    requires AllDigits(f)
    ensures c <= 100
  {
    if |f| == 0 then 0
    else if |f| == 1 then DigitValue(f[0]) * 10
    else DigitValue(f[0]) * 10 + DigitValue(f[1]) + (if |f| > 2 && DigitValue(f[2]) >= 5 then 1 else 0)
  }

  /** `new BigDecimal(fee)` for the texts a fee can hold (digits and dots):
      digits with at most one dot and at least one digit parse; anything else
      is a NumberFormatException (`None`). */
  function ParseDecimal(s: string): (r: Option<Money>)
    ensures r.Some? ==> r.value >= 0
  {
    if AllDigits(s) then (if s == [] then None else Some(DecimalValue(s) * 100))
    else
      var k := FirstNonDigit(s);
      var whole, fraction := s[..k], s[k + 1..];
      if s[k] != '.' || !AllDigits(fraction) || (whole == [] && fraction == []) then None
      else Some(DecimalValue(whole) * 100 + FractionCents(fraction))
  }

  /** The fee charged by a booking: an absent or unparsable fee is zero. */
  function ConsultationFee(d: Doctor): (fee: Money)
    ensures fee >= 0
    ensures d.consultationFee.None? ==> fee == 0
    ensures d.consultationFee.Some? ==> fee == ParseDecimal(d.consultationFee.value).GetOr(0)
  {
    match d.consultationFee
    case None => 0
    case Some(s) => ParseDecimal(s).GetOr(0)
  }

  /** The fee as a plain decimal with two fraction digits. */
  function CentsText(c: nat): string
  {
    NatToString(c / 100) + "." + ZeroPad(c % 100, 2)
  }

  lemma TwoDigitValue(f: string)
    requires |f| == 2 && AllDigits(f)
    ensures DecimalValue(f) == DigitValue(f[0]) * 10 + DigitValue(f[1])
  {
    assert f[..1][..0] == [] && f[..1][0] == f[0];
    assert DecimalValue(f[..1]) == DigitValue(f[0]);
  }

  /** Writing an amount with two decimals and parsing it gives the amount back. */
  lemma ParseDecimalRoundTrip(c: nat)
    ensures ParseDecimal(CentsText(c)) == Some(c)
  {
    var whole, fraction := NatToString(c / 100), ZeroPad(c % 100, 2);
    var s := CentsText(c);
    assert Pow10(2) == 100;
    ZeroPadExactWidth(c % 100, 2);
    assert s[|whole|] == '.';
    assert !AllDigits(s);
    var k := FirstNonDigit(s);
    assert s[..|whole|] == whole;
    assert k == |whole|;
    assert s[..k] == whole && s[k + 1..] == fraction;
    NatToStringValue(c / 100);
    ZeroPadValue(c % 100, 2);
    TwoDigitValue(fraction);
  }

  /** A whole number of currency units parses to that many hundred cents. */
  lemma ParseDecimalWhole(n: nat)
    ensures ParseDecimal(NatToString(n)) == Some(n * 100)
  {
    NatToStringValue(n);
  }

  /** The invoice `bookAppointment` builds before saving it. */
  function ConsultationDraft(a: Appointment, today: Day): (d: Invoices.InvoiceDraft)
    ensures d.subtotal == Some(ConsultationFee(a.doctor)) && d.tax == Some(0) && d.discount == Some(0)
    ensures d.amountPaid == Some(0) && d.status == Some(Invoices.Pending) && d.number.None?
    ensures d.issueDate == today && d.dueDate == Some(today) && d.patient == a.patient.id
    ensures d.appointment == Some(a.id)
    ensures d.items == [Invoices.InvoiceItem("Doctor Consultation", 1, ConsultationFee(a.doctor), ConsultationFee(a.doctor))]
  {
    var fee := ConsultationFee(a.doctor);
    Invoices.NewDraft(a.patient.id, today, Some(today)).(
      appointment := Some(a.id),
      description := Some("Consultation fee for Dr. " + a.doctor.firstName + " " + a.doctor.lastName),
      subtotal := Some(fee),
      items := [Invoices.InvoiceItem("Doctor Consultation", 1, fee, fee)])
  }

  // ---------------------------------------------------------------------------
  // Listings

  /** Chronological order on (date, time). */
  predicate Before(a: Appointment, b: Appointment)
  {
    a.date < b.date || (a.date == b.date && a.time < b.time)
  }

  /** `a` comes strictly before `b` in the requested direction. */
  predicate Precedes(a: Appointment, b: Appointment, descending: bool)
  {
    if descending then Before(b, a) else Before(a, b)
  }

  predicate Sorted(s: seq<Appointment>, descending: bool)
  {
    forall i, j :: 0 <= i < j < |s| ==> !Precedes(s[j], s[i], descending)
  }

  /** Appending an element that precedes nothing before it keeps a list sorted. */
  lemma AppendSorted(t: seq<Appointment>, y: Appointment, descending: bool)
    requires Sorted(t, descending)
    requires forall e :: e in t ==> !Precedes(y, e, descending)
    ensures Sorted(t + [y], descending)
  {
    forall i, j | 0 <= i < j < |t + [y]|
      ensures !Precedes((t + [y])[j], (t + [y])[i], descending)
    {
      if j == |t| {
        assert t[i] in t;
      }
    }
  }

  /** In a sorted list nothing precedes the last element, so an element the
      last one does not precede precedes nothing in the list either. */
  lemma NotPrecedingLast(t: seq<Appointment>, x: Appointment, descending: bool)
    requires Sorted(t, descending) && (|t| > 0 ==> !Precedes(x, t[|t| - 1], descending))
    ensures forall e :: e in t ==> !Precedes(x, e, descending)
  {
    forall e | e in t
      ensures !Precedes(x, e, descending)
    {
      var i :| 0 <= i < |t| && t[i] == e;
      if i < |t| - 1 {
        assert !Precedes(t[|t| - 1], t[i], descending);
      }
    }
  }

  /** The last element of a sorted list, when preceded by `x`, precedes neither
      `x` nor anything before it. */
  lemma LastPrecedesNothing(init: seq<Appointment>, last: Appointment, x: Appointment, descending: bool)
    requires Sorted(init + [last], descending) && Precedes(x, last, descending)
    ensures !Precedes(last, x, descending)
    ensures forall e :: e in init ==> !Precedes(last, e, descending)
  {
    forall e | e in init
      ensures !Precedes(last, e, descending)
    {
      var i :| 0 <= i < |init| && init[i] == e;
      assert (init + [last])[i] == e && (init + [last])[|init|] == last;
    }
  }

  /** Inserts `x` after every element it does not strictly precede. */
  function Insert(t: seq<Appointment>, x: Appointment, descending: bool): (r: seq<Appointment>)
    requires Sorted(t, descending)
    ensures Sorted(r, descending) && multiset(r) == multiset(t) + multiset{x}
  {
    if t == [] || !Precedes(x, t[|t| - 1], descending) then
      NotPrecedingLast(t, x, descending);
      AppendSorted(t, x, descending);
      t + [x]
    else
      var last := t[|t| - 1];
      var init := t[..|t| - 1];
      assert t == init + [last];
      assert Sorted(init, descending);
      var front := Insert(init, x, descending);
      LastPrecedesNothing(init, last, x, descending);
      assert forall e :: e in front ==> e in multiset(init) + multiset{x};
      assert forall e :: e in front ==> e in init || e == x;
      AppendSorted(front, last, descending);
      front + [last]
  }

  /** The sort `stream().sorted(...)` performs, by (date, time). */
  function SortByDateTime(s: seq<Appointment>, descending: bool): (r: seq<Appointment>)
    ensures Sorted(r, descending) && multiset(r) == multiset(s)
  {
    if s == [] then []
    else
      assert s == s[..|s| - 1] + [s[|s| - 1]];
      Insert(SortByDateTime(s[..|s| - 1], descending), s[|s| - 1], descending)
  }

  predicate IsUpcoming(a: Appointment, patientId: nat, today: Day)
  {
    a.patient.id == patientId && a.status != Cancelled && a.date >= today
  }

  /** `getUpcomingAppointments`: the patient's appointments that are not
      cancelled and dated today or later, earliest first. */
  function UpcomingAppointments(appts: seq<Appointment>, patientId: nat, today: Day): (r: seq<Appointment>)
    ensures Sorted(r, false)
    ensures multiset(r) == multiset(Filter(appts, a => IsUpcoming(a, patientId, today)))
    ensures forall a :: a in r <==> a in appts && IsUpcoming(a, patientId, today)
  {
    var kept := Filter(appts, a => IsUpcoming(a, patientId, today));
    var r := SortByDateTime(kept, false);
    assert forall a :: a in r <==> a in multiset(r);
    assert forall a :: a in kept <==> a in multiset(kept);
    r
  }

  predicate IsPast(a: Appointment, patientId: nat, today: Day)
  {
    a.patient.id == patientId && a.date < today
  }

  /** `getRecentAppointments`: at most five of the patient's appointments
      dated before today (cancelled ones included), latest first. */
  function RecentAppointments(appts: seq<Appointment>, patientId: nat, today: Day): (r: seq<Appointment>)
    ensures |r| <= 5 && Sorted(r, true)
    ensures forall a :: a in r ==> a in appts && IsPast(a, patientId, today)
    ensures |r| == Min(5, |Filter(appts, a => IsPast(a, patientId, today))|)
    ensures multiset(r) <= multiset(Filter(appts, a => IsPast(a, patientId, today)))
  {
    var past := Filter(appts, a => IsPast(a, patientId, today));
    var sorted := SortByDateTime(past, true);
    assert |sorted| == |multiset(sorted)| == |past|;
    var r := if |sorted| <= 5 then sorted else sorted[..5];
    PrefixOfPermutation(sorted, past, |r|);
    assert r == sorted[..|r|];
    r
  }

  /** A prefix of a permutation of `ys` takes each element of `ys` at most
      as often as `ys` holds it. */
  lemma PrefixOfPermutation(xs: seq<Appointment>, ys: seq<Appointment>, n: nat)
    requires multiset(xs) == multiset(ys) && n <= |xs|
    ensures forall a :: a in xs[..n] ==> a in ys
    ensures multiset(xs[..n]) <= multiset(ys)
  {
    assert xs == xs[..n] + xs[n..];
    assert multiset(xs) == multiset(xs[..n]) + multiset(xs[n..]);
    forall a | a in xs[..n]
      ensures a in ys
    {
      assert a in xs;
      assert a in multiset(xs);
    }
  }

  /** No past appointment left out of the recent list is later than the last one shown. */
  lemma RecentAreLatest(appts: seq<Appointment>, patientId: nat, today: Day, a: Appointment)
    requires a in appts && IsPast(a, patientId, today)
    requires a !in RecentAppointments(appts, patientId, today)
    ensures var r := RecentAppointments(appts, patientId, today);
      |r| == 5 && !Before(r[4], a)
  {
    var past := Filter(appts, x => IsPast(x, patientId, today));
    var sorted := SortByDateTime(past, true);
    assert a in multiset(sorted);
    var j :| 0 <= j < |sorted| && sorted[j] == a;
    assert |sorted| == |multiset(sorted)| == |past|;
  }

  /** A name criterion of `findFilteredAppointments` applies when the text is
      not blank; it then asks for a case-insensitive substring of "first last". */
  predicate NameMatches(first: string, last: string, name: Option<string>)
  {
    name.None? || IsBlank(name.value) || Contains(ToLower(first + " " + last), ToLower(name.value))
  }

  predicate MatchesFilter(a: Appointment, patientName: Option<string>, doctorName: Option<string>,
                          date: Option<Day>, status: Option<AppointmentStatus>)
  {
    NameMatches(a.patient.firstName, a.patient.lastName, patientName)
    && NameMatches(a.doctor.firstName, a.doctor.lastName, doctorName)
    && (date.None? || a.date == date.value)
    && (status.None? || a.status == status.value)
  }

  /** `findFilteredAppointments`: the appointments meeting every criterion given,
      latest first. */
  function FilteredAppointments(appts: seq<Appointment>, patientName: Option<string>, doctorName: Option<string>,
                                date: Option<Day>, status: Option<AppointmentStatus>): (r: seq<Appointment>)
    ensures Sorted(r, true)
    ensures multiset(r) == multiset(Filter(appts, a => MatchesFilter(a, patientName, doctorName, date, status)))
    ensures forall a :: a in r <==> a in appts && MatchesFilter(a, patientName, doctorName, date, status)
  {
    var kept := Filter(appts, a => MatchesFilter(a, patientName, doctorName, date, status));
    var r := SortByDateTime(kept, true);
    assert forall a :: a in r <==> a in multiset(r);
    assert forall a :: a in kept <==> a in multiset(kept);
    r
  }

  // ---------------------------------------------------------------------------
  // The service

  class AppointmentService {
    var availabilities: seq<Availability>
    var appointments: map<nat, Appointment>
    var nextAppointmentId: nat
    const invoices: Invoices.InvoiceService

    ghost predicate Valid()
      reads this, invoices, invoices.orders
    {
      invoices.Valid() &&
      forall id :: id in appointments ==> appointments[id].id == id && id < nextAppointmentId
    }

    constructor(availabilities: seq<Availability>, invoices: Invoices.InvoiceService)
      requires invoices.Valid()
      ensures Valid() && this.availabilities == availabilities && appointments == map[]
      ensures this.invoices == invoices
    {
      this.availabilities := availabilities;
      this.invoices := invoices;
      appointments := map[];
      nextAppointmentId := 1;
    }

    /** `bookAppointment`: on a refused booking nothing changes; otherwise the
        counter is raised, the appointment stored, and a one-line consultation
        invoice for the doctor's fee saved and returned. Receipt and e-mail
        failures are swallowed, so they do not appear here. */
    method BookAppointment(a: Appointment, now: Invoices.Now) returns (r: Result<Invoices.Invoice, string>)
      requires Valid() && now.Valid()
      modifies this, invoices
      ensures Valid()
      ensures TryBook(old(availabilities), a.doctor.id, a.date).Err? ==>
                r == Err(TryBook(old(availabilities), a.doctor.id, a.date).error)
                && availabilities == old(availabilities) && appointments == old(appointments)
                && invoices.invoices == old(invoices.invoices)
      ensures TryBook(old(availabilities), a.doctor.id, a.date).Ok? ==>
                var saved := a.(id := old(nextAppointmentId));
                availabilities == TryBook(old(availabilities), a.doctor.id, a.date).value
                && appointments == old(appointments)[saved.id := saved]
                && r.Ok? && invoices.invoices == old(invoices.invoices)[r.value.id := r.value]
                && r.value.id !in old(invoices.invoices)
                && r.value == Invoices.AssignNumberOnPersist(
                     Invoices.CalculateTotals(ConsultationDraft(saved, now.today), r.value.id, None, Invoices.Pending), now)
      ensures r.Ok? ==> var fee := ConsultationFee(a.doctor);
                r.value.subtotal == fee && r.value.total == fee && r.value.balanceDue == fee
                && r.value.items == [Invoices.InvoiceItem("Doctor Consultation", 1, fee, fee)]
                && r.value.issueDate == now.today && r.value.dueDate == Some(now.today)
                && r.value.status == Invoices.Pending
    {
      var booked := TryBook(availabilities, a.doctor.id, a.date);
      if booked.Err? {
        return Err(booked.error);
      }
      availabilities := booked.value;
      var saved := a.(id := nextAppointmentId);
      appointments := appointments[nextAppointmentId := saved];
      nextAppointmentId := nextAppointmentId + 1;
      var invoice := invoices.SaveInvoice(ConsultationDraft(saved, now.today), now);
      r := Ok(invoice);
    }

    /** `cancelAppointment`: an unknown id changes nothing; otherwise the
        appointment is CANCELLED (even if it already was) and the counter of
        the first window of its date drops by one, not below zero. */
    method CancelAppointment(id: nat)
      requires Valid()
      modifies this
      ensures Valid() && nextAppointmentId == old(nextAppointmentId)
      ensures id !in old(appointments) ==> appointments == old(appointments) && availabilities == old(availabilities)
      ensures id in old(appointments) ==>
                var a := old(appointments)[id];
                appointments == old(appointments)[id := a.(status := Cancelled)]
                && availabilities == TryCancel(old(availabilities), a.doctor.id, a.date)
    {
      if id in appointments {
        var a := appointments[id];
        appointments := appointments[id := a.(status := Cancelled)];
        availabilities := TryCancel(availabilities, a.doctor.id, a.date);
      }
    }
  }
}
