/** The patient's dashboard: queue registration, own history, feedback. */
module DashboardPasien {
  import opened Schema
  import opened Query
  import opened Store
  import opened Badges

  // ---------------------------------------------------------------- lookups

  function OfProfile(profileId: Id): Row<Patient> -> bool
  {
    (p: Row<Patient>) => p.data.profileId == profileId
  }

  /** `patients.select("id").eq("profile_id", …).single()`: a patient id only when
      exactly one row belongs to the profile; otherwise the lookup yields nothing. */
  function PatientOf(patients: seq<Row<Patient>>, profileId: Id): (r: Option<Id>)
    ensures r.Some? <==> |Filter(patients, OfProfile(profileId))| == 1
    ensures r.Some? ==> exists p :: p in patients && p.id == r.value && p.data.profileId == profileId
  {
    var matches := Filter(patients, OfProfile(profileId));
    if |matches| == 1 then
      assert matches[0] in matches;
      Some(matches[0].id)
    else None
  }

  function OfPatient(patientId: Id): Row<QueueEntry> -> bool
  {
    (q: Row<QueueEntry>) => q.data.patientId == patientId
  }

  /** `fetchQueues`: the patient's own queue rows, newest first; nothing when the
      patient row is missing (the view then keeps what it had). */
  function OwnQueues(patients: seq<Row<Patient>>, queue: seq<Row<QueueEntry>>, profileId: Id)
    : (r: Option<seq<Row<QueueEntry>>>)
    ensures r.Some? <==> PatientOf(patients, profileId).Some?
    ensures r.Some? ==> forall q :: q in r.value <==> q in queue && q.data.patientId == PatientOf(patients, profileId).value
    ensures r.Some? ==> multiset(r.value) == multiset(Filter(queue, OfPatient(PatientOf(patients, profileId).value)))
    ensures r.Some? ==> SortedBy(r.value, NewestFirst())
  {
    match PatientOf(patients, profileId)
    case None => None
    case Some(pid) => Some(Select(queue, OfPatient(pid), NewestFirst()))
  }

  function ExamOfPatient(patientId: Id): Row<Examination> -> bool
  {
    (e: Row<Examination>) => e.data.patientId == patientId
  }

  /** `order("examination_date", { ascending: false })`. */
  function LatestExaminationFirst(): (le: (Row<Examination>, Row<Examination>) -> bool)
    ensures TotalPreorder(le)
  {
    (a: Row<Examination>, b: Row<Examination>) => a.data.examinationDate >= b.data.examinationDate
  }

  /** `fetchExaminations`: the patient's own examinations, latest first. */
  function OwnExaminations(patients: seq<Row<Patient>>, exams: seq<Row<Examination>>, profileId: Id)
    : (r: Option<seq<Row<Examination>>>)
    ensures r.Some? <==> PatientOf(patients, profileId).Some?
    ensures r.Some? ==> forall e :: e in r.value <==> e in exams && e.data.patientId == PatientOf(patients, profileId).value
    ensures r.Some? ==> multiset(r.value) == multiset(Filter(exams, ExamOfPatient(PatientOf(patients, profileId).value)))
    ensures r.Some? ==> SortedBy(r.value, LatestExaminationFirst())
  {
    match PatientOf(patients, profileId)
    case None => None
    case Some(pid) => Some(Select(exams, ExamOfPatient(pid), LatestExaminationFirst()))
  }

  // ---------------------------------------------------------------- queue numbers

  /** `order("queue_number", { ascending: false }).limit(1)` over the rows of day `d`:
      the largest number handed out that day, if any. */
  function TopNumber(qs: seq<Row<QueueEntry>>, d: Date): (r: Option<int>)
    ensures r.None? <==> forall i :: 0 <= i < |qs| ==> qs[i].data.queueDate != d
    ensures r.Some? ==> exists i :: 0 <= i < |qs| && qs[i].data.queueDate == d && qs[i].data.queueNumber == r.value
    ensures r.Some? ==> forall i :: 0 <= i < |qs| && qs[i].data.queueDate == d ==> qs[i].data.queueNumber <= r.value
  {
    if qs == [] then None
    else
      var last := qs[|qs| - 1];
      var earlier := TopNumber(qs[..|qs| - 1], d);
      assert forall i :: 0 <= i < |qs| - 1 ==> qs[..|qs| - 1][i] == qs[i];
      if last.data.queueDate != d then earlier
      else if earlier.Some? && earlier.value >= last.data.queueNumber then earlier
      else Some(last.data.queueNumber)
  }

  /** The number a registration on day `d` receives when the read succeeds:
      one more than the day's largest, or 1 on a day without rows. */
  function NextQueueNumber(qs: seq<Row<QueueEntry>>, d: Date): (n: int)
    ensures forall i :: 0 <= i < |qs| && qs[i].data.queueDate == d ==> qs[i].data.queueNumber < n
    ensures (forall i :: 0 <= i < |qs| ==> qs[i].data.queueDate != d) ==> n == 1
    ensures (exists i :: 0 <= i < |qs| && qs[i].data.queueDate == d) ==>
              exists i :: 0 <= i < |qs| && qs[i].data.queueDate == d && qs[i].data.queueNumber == n - 1
  {
    match TopNumber(qs, d)
    case None => 1
    case Some(top) => top + 1
  }

  /** The numbers handed out on day `d`, in registration order. */
  function NumbersOn(qs: seq<Row<QueueEntry>>, d: Date): (r: seq<int>)
    ensures forall n :: n in r <==> exists i :: 0 <= i < |qs| && qs[i].data.queueDate == d && qs[i].data.queueNumber == n
  {
    if qs == [] then []
    else
      assert forall i :: 0 <= i < |qs| - 1 ==> qs[..|qs| - 1][i] == qs[i];
      NumbersOn(qs[..|qs| - 1], d) +
        (if qs[|qs| - 1].data.queueDate == d then [qs[|qs| - 1].data.queueNumber] else [])
  }

  /** 1, 2, …, n. */
  function Iota(n: nat): (r: seq<int>)
    ensures |r| == n && forall k :: 0 <= k < n ==> r[k] == k + 1
  {
    seq(n, k => k + 1)
  }

  /** When a day's numbers so far are exactly 1..n, the next registration gets n + 1. */
  lemma NextAfterIota(qs: seq<Row<QueueEntry>>, d: Date, n: nat)
    requires NumbersOn(qs, d) == Iota(n)
    ensures NextQueueNumber(qs, d) == n + 1
  {
    var next := NextQueueNumber(qs, d);
    if n > 0 {
      assert Iota(n)[n - 1] == n;
      assert n in NumbersOn(qs, d);
      var i :| 0 <= i < |qs| && qs[i].data.queueDate == d && qs[i].data.queueNumber == n;
      var j :| 0 <= j < |qs| && qs[j].data.queueDate == d && qs[j].data.queueNumber == next - 1;
      assert next - 1 in NumbersOn(qs, d);
      assert next - 1 <= n;
    }
  }

  /** Serialized registrations on one day hand out 1, 2, …, N with no gap and no repeat:
      if the day holds exactly 1..n and a registration appends a row for that day with the
      computed number, the day holds exactly 1..n+1. */
  lemma {:induction false} SerialRegistration(qs: seq<Row<QueueEntry>>, d: Date, n: nat, row: Row<QueueEntry>)
    requires NumbersOn(qs, d) == Iota(n)
    requires row.data.queueDate == d && row.data.queueNumber == NextQueueNumber(qs, d)
    ensures NumbersOn(qs + [row], d) == Iota(n + 1)
  {
    NextAfterIota(qs, d, n);
    assert (qs + [row])[..|qs|] == qs;
    assert NumbersOn(qs + [row], d) == Iota(n) + [n + 1];
  }

  /** Rows of other days never change a day's numbering. */
  lemma OtherDayRegistration(qs: seq<Row<QueueEntry>>, d: Date, row: Row<QueueEntry>)
    requires row.data.queueDate != d
    ensures NumbersOn(qs + [row], d) == NumbersOn(qs, d)
    ensures NextQueueNumber(qs + [row], d) == NextQueueNumber(qs, d)
  {
    assert (qs + [row])[..|qs|] == qs;
    var a, b := NextQueueNumber(qs + [row], d), NextQueueNumber(qs, d);
    if exists i :: 0 <= i < |qs| && qs[i].data.queueDate == d {
      var i :| 0 <= i < |qs| && qs[i].data.queueDate == d && qs[i].data.queueNumber == b - 1;
      assert (qs + [row])[i] == qs[i];
      var j :| 0 <= j < |qs + [row]| && (qs + [row])[j].data.queueDate == d && (qs + [row])[j].data.queueNumber == a - 1;
      assert j < |qs|;
    } else {
      assert forall i :: 0 <= i < |qs + [row]| ==> (qs + [row])[i].data.queueDate != d;
    }
  }

  // ---------------------------------------------------------------- derived values

  function IsWaiting(): Row<QueueEntry> -> bool
  {
    (q: Row<QueueEntry>) => q.data.status == Waiting
  }

  /** "Antrian Aktif": how many listed queue rows are still waiting. */
  function ActiveQueueCount(queues: seq<Row<QueueEntry>>): (n: nat)
    ensures n <= |queues|
    ensures n == 0 <==> forall q :: q in queues ==> q.data.status != Waiting
  {
    var waiting := Filter(queues, IsWaiting());
    assert waiting != [] ==> waiting[0] in waiting;
    |waiting|
  }

  /** The active count on screen is the number of this patient's waiting rows in the
      table, whatever order the listing puts them in. */
  lemma ActiveCountMatchesTable(patients: seq<Row<Patient>>, queue: seq<Row<QueueEntry>>, profileId: Id)
    requires PatientOf(patients, profileId).Some?
    ensures ActiveQueueCount(OwnQueues(patients, queue, profileId).value) ==
            |Filter(Filter(queue, OfPatient(PatientOf(patients, profileId).value)), IsWaiting())|
  {
    var pid := PatientOf(patients, profileId).value;
    FilterCountPermutation(Select(queue, OfPatient(pid), NewestFirst()), Filter(queue, OfPatient(pid)), IsWaiting());
  }

  function OnDate(d: Date): Row<QueueEntry> -> bool
  {
    (q: Row<QueueEntry>) => q.data.queueDate == d
  }

  /** The "Daftar Antrian" card lists the patient's rows dated today. */
  function TodaysQueues(queues: seq<Row<QueueEntry>>, today: Date): (r: seq<Row<QueueEntry>>)
    ensures forall q :: q in r <==> q in queues && q.data.queueDate == today
  {
    Filter(queues, OnDate(today))
  }

  /** `getStatusBadge` for queue rows: an unknown status keeps the default style and shows no text. */
  function QueueStatusBadge(status: string): (b: Badge)
    ensures b.variant.Some?
    ensures b.variant == Some(Secondary) <==> status == InProgress
    ensures b.variant == Some(Outline) <==> status == Completed || status == Cancelled
    ensures b.text != "" <==> status in {Waiting, InProgress, Completed, Cancelled}
    ensures (status == Waiting) == (b.text == "Menunggu")
    ensures (status == InProgress) == (b.text == "Sedang Diperiksa")
    ensures (status == Completed) == (b.text == "Selesai")
    ensures (status == Cancelled) == (b.text == "Dibatalkan")
  {
    if status == Waiting then Badge(Some(Default), "Menunggu")
    else if status == InProgress then Badge(Some(Secondary), "Sedang Diperiksa")
    else if status == Completed then Badge(Some(Outline), "Selesai")
    else if status == Cancelled then Badge(Some(Outline), "Dibatalkan")
    else Badge(Some(Default), "")
  }

  // ---------------------------------------------------------------- handlers

  /** What `handleRegisterQueue` reports. */
  datatype Registration = PatientMissing | RegistrationRejected | Registered(queueNumber: int)

  /** What `handleSubmitFeedback` reports. */
  datatype FeedbackOutcome = FeedbackPatientMissing | FeedbackRejected | FeedbackSent

  const DefaultRating := 5

  class PatientDashboard {
    const store: ClinicStore
    const profileId: Id
    var loading: bool
    var complaint: string
    var rating: int
    var feedbackText: string

    constructor (store: ClinicStore, profileId: Id)
      ensures this.store == store && this.profileId == profileId
      ensures !loading && complaint == "" && rating == DefaultRating && feedbackText == ""
    {
      this.store := store;
      this.profileId := profileId;
      loading, complaint, rating, feedbackText := false, "", DefaultRating, "";
    }

    /** `handleRegisterQueue`. `numberReadOk` is whether the read of today's largest number
        returned rows at all; when it does not, the source falls back to number 1. */
    method RegisterQueue(today: Date, now: Timestamp, numberReadOk: bool, accepted: bool)
      returns (outcome: Registration)
      requires store.Valid()
      modifies this`loading, this`complaint, store`queue, store`nextId
      ensures store.Valid() && !loading
      ensures PatientOf(store.patients, profileId).None? ==>
        outcome == PatientMissing && store.queue == old(store.queue) && store.nextId == old(store.nextId) &&
        complaint == old(complaint)
      ensures PatientOf(store.patients, profileId).Some? && !accepted ==>
        outcome == RegistrationRejected && store.queue == old(store.queue) && store.nextId == old(store.nextId) &&
        complaint == old(complaint)
      ensures PatientOf(store.patients, profileId).Some? && accepted ==>
        var number := if numberReadOk then NextQueueNumber(old(store.queue), today) else 1;
        && outcome == Registered(number)
        && store.queue == old(store.queue) +
             [Row(old(store.nextId), now,
                  QueueEntry(PatientOf(store.patients, profileId).value, number, today, old(complaint), DefaultQueueStatus))]
        && complaint == ""
    {
      loading := true;
      var patient := PatientOf(store.patients, profileId);
      if patient.None? {
        loading := false;
        return PatientMissing;
      }
      var top := if numberReadOk then TopNumber(store.queue, today) else None;
      var nextNumber := if top.Some? then top.value + 1 else 1;
      var id := store.InsertQueueEntry(patient.value, nextNumber, complaint, today, now, accepted);
      if id.None? {
        outcome := RegistrationRejected;
      } else {
        outcome := Registered(nextNumber);
        complaint := "";
      }
      loading := false;
    }

    /** `handleSubmitFeedback`. */
    method SubmitFeedback(now: Timestamp, accepted: bool) returns (outcome: FeedbackOutcome)
      requires store.Valid()
      modifies this`loading, this`rating, this`feedbackText, store`feedback, store`nextId
      ensures store.Valid() && !loading
      ensures PatientOf(store.patients, profileId).None? ==>
        outcome == FeedbackPatientMissing && store.feedback == old(store.feedback) &&
        store.nextId == old(store.nextId) && rating == old(rating) && feedbackText == old(feedbackText)
      ensures PatientOf(store.patients, profileId).Some? && !accepted ==>
        outcome == FeedbackRejected && store.feedback == old(store.feedback) &&
        store.nextId == old(store.nextId) && rating == old(rating) && feedbackText == old(feedbackText)
      ensures PatientOf(store.patients, profileId).Some? && accepted ==>
        && outcome == FeedbackSent
        && store.feedback == old(store.feedback) +
             [Row(old(store.nextId), now,
                  Feedback(PatientOf(store.patients, profileId).value, old(rating), Some(old(feedbackText))))]
        && rating == DefaultRating && feedbackText == ""
    {
      loading := true;
      var patient := PatientOf(store.patients, profileId);
      if patient.None? {
        loading := false;
        return FeedbackPatientMissing;
      }
      var id := store.InsertFeedback(Feedback(patient.value, rating, Some(feedbackText)), now, accepted);
      if id.None? {
        outcome := FeedbackRejected;
      } else {
        outcome := FeedbackSent;
        rating, feedbackText := DefaultRating, "";
      }
      loading := false;
    }
  }
}
