/** The free 30-minute slots offered for a doctor on a date: every slot start
    of the first availability window that fits entirely inside it, minus the
    times already taken by any appointment of that doctor on that date. */
module Slots {
  import opened Common
  import A = Appointments

  const SlotMinutes: int := 30

  /** Java `long` division, which truncates toward zero. */
  function TruncDiv(a: int, b: int): (q: int)
    requires b > 0
    ensures a >= 0 ==> q == a / b
    ensures q < 0 <==> a <= -b
  {
    if a >= 0 then a / b else -((-a) / b)
  }

  /** `Stream.iterate(start, t -> t + 30 min).limit(count)`. */
  function CandidateSlots(start: A.Minute, count: nat): (r: seq<A.Minute>)
    ensures |r| == count
    ensures forall k :: 0 <= k < count ==> r[k] == start + SlotMinutes * k
  {
    if count == 0 then [] else CandidateSlots(start, count - 1) + [start + SlotMinutes * (count - 1)]
  }

  /** The times of every appointment of the doctor on the date, whatever its status. */
  function BookedTimes(appts: seq<A.Appointment>, doctorId: nat, date: Day): set<A.Minute>
  {
    set a | a in appts && a.doctor.id == doctorId && a.date == date :: a.time
  }

  /** The slots of one window that are not booked. A window ending 30 or more
      minutes before it starts makes the stream limit negative, which throws. */
  function FreeSlots(w: A.Availability, booked: set<A.Minute>): (r: Result<seq<A.Minute>, string>)
  {
    var count := TruncDiv(w.endTime - w.startTime, SlotMinutes);
    if count < 0 then Err("IllegalArgumentException")
    else Ok(Filter(CandidateSlots(w.startTime, count), s => s !in booked))
  }

  /** `getDoctorAvailability`: empty for an unknown doctor, for a date without
      windows, and when the first window of the date is not flagged available;
      otherwise the free slots of that first window. */
  function DoctorAvailability(doctors: set<nat>, doctorId: nat, date: Day,
                              avs: seq<A.Availability>, appts: seq<A.Appointment>): (r: Result<seq<A.Minute>, string>)
    ensures doctorId !in doctors ==> r == Ok([])
    ensures A.FirstWindow(avs, doctorId, date).None? ==> r == Ok([])
    ensures A.FirstWindow(avs, doctorId, date).Some? && !avs[A.FirstWindow(avs, doctorId, date).value].available
            ==> r == Ok([])
    ensures doctorId in doctors && A.FirstWindow(avs, doctorId, date).Some?
            && avs[A.FirstWindow(avs, doctorId, date).value].available
            ==> r == FreeSlots(avs[A.FirstWindow(avs, doctorId, date).value], BookedTimes(appts, doctorId, date))
  {
    if doctorId !in doctors then Ok([])
    else match A.FirstWindow(avs, doctorId, date)
      case None => Ok([])
      case Some(k) =>
        if !avs[k].available then Ok([])
        else FreeSlots(avs[k], BookedTimes(appts, doctorId, date))
  }

  /** The request fails only for a window whose end lies 30 minutes or more
      before its start; a shorter inverted or empty window yields no slots. */
  lemma FreeSlotsFailure(w: A.Availability, booked: set<A.Minute>)
    ensures FreeSlots(w, booked).Err? <==> w.endTime - w.startTime <= -SlotMinutes
    ensures w.endTime - w.startTime < SlotMinutes && FreeSlots(w, booked).Ok? ==> FreeSlots(w, booked).value == []
  {
  }

  /** A time is offered exactly when a whole slot starting there fits in the
      window, it lies on the 30-minute grid from the start, and it is not booked. */
  lemma FreeSlotsMembership(w: A.Availability, booked: set<A.Minute>, s: A.Minute)
    requires FreeSlots(w, booked).Ok?
    ensures s in FreeSlots(w, booked).value <==>
              w.startTime <= s && s + SlotMinutes <= w.endTime
              && (s - w.startTime) % SlotMinutes == 0 && s !in booked
  {
    var count := TruncDiv(w.endTime - w.startTime, SlotMinutes);
    var cands := CandidateSlots(w.startTime, count);
    if s in cands {
      var k :| 0 <= k < count && cands[k] == s;
      assert SlotMinutes * (k + 1) <= SlotMinutes * count;
    }
    if w.startTime <= s && s + SlotMinutes <= w.endTime && (s - w.startTime) % SlotMinutes == 0 {
      var k := (s - w.startTime) / SlotMinutes;
      assert s == w.startTime + SlotMinutes * k;
      assert k < count;
      assert cands[k] == s;
    }
  }

  predicate StrictlyIncreasing(s: seq<int>)
  {
    forall i, j :: 0 <= i < j < |s| ==> s[i] < s[j]
  }

  lemma {:induction false} FilterKeepsIncreasing(s: seq<int>, p: int -> bool)
    requires StrictlyIncreasing(s)
    ensures StrictlyIncreasing(Filter(s, p))
  {
    if s != [] {
      var prefix := s[..|s| - 1];
      FilterKeepsIncreasing(prefix, p);
      if p(s[|s| - 1]) {
        var f := Filter(prefix, p);
        forall i | 0 <= i < |f|
          ensures f[i] < s[|s| - 1]
        {
          assert f[i] in prefix;
        }
      }
    }
  }

  /** The offered slots are strictly ascending, hence free of duplicates. */
  lemma FreeSlotsAscending(w: A.Availability, booked: set<A.Minute>)
    requires FreeSlots(w, booked).Ok?
    ensures StrictlyIncreasing(FreeSlots(w, booked).value)
  {
    var count := TruncDiv(w.endTime - w.startTime, SlotMinutes);
    FilterKeepsIncreasing(CandidateSlots(w.startTime, count), s => s !in booked);
  }

  /** A cancelled appointment still blocks its slot: status is not consulted. */
  lemma CancelledAppointmentBlocksSlot(doctors: set<nat>, avs: seq<A.Availability>,
                                       appts: seq<A.Appointment>, a: A.Appointment)
    requires a in appts && a.status == A.Cancelled
    requires DoctorAvailability(doctors, a.doctor.id, a.date, avs, appts).Ok?
    ensures a.time !in DoctorAvailability(doctors, a.doctor.id, a.date, avs, appts).value
  {
    assert a.time in BookedTimes(appts, a.doctor.id, a.date);
  }
}
