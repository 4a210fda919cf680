/** The doctor's dashboard: today's queue, starting an examination, and the ordered
    write sequence that records it. */
module DashboardDokter {
  import opened Schema
  import opened Query
  import opened Store
  import opened Badges

  // ---------------------------------------------------------------- listings

  /** `.eq("queue_date", today).in("status", ["waiting", "in_progress"])`. */
  function ActiveToday(today: Date): Row<QueueEntry> -> bool
  {
    (q: Row<QueueEntry>) => q.data.queueDate == today && (q.data.status == Waiting || q.data.status == InProgress)
  }

  /** `order("queue_number", { ascending: true })`. */
  function ByQueueNumber(): (le: (Row<QueueEntry>, Row<QueueEntry>) -> bool)
    ensures TotalPreorder(le)
  {
    (a: Row<QueueEntry>, b: Row<QueueEntry>) => a.data.queueNumber <= b.data.queueNumber
  }

  /** `fetchQueues`: exactly today's waiting or in-progress rows, by ascending number. */
  function DoctorQueue(queue: seq<Row<QueueEntry>>, today: Date): (r: seq<Row<QueueEntry>>)
    ensures forall q :: q in r <==> q in queue && q.data.queueDate == today && q.data.status in {Waiting, InProgress}
    ensures multiset(r) == multiset(Filter(queue, ActiveToday(today)))
    ensures forall i, j :: 0 <= i < j < |r| ==> r[i].data.queueNumber <= r[j].data.queueNumber
  {
    Select(queue, ActiveToday(today), ByQueueNumber())
  }

  function ByDoctor(doctorId: Id): (keep: Row<Examination> -> bool)
    ensures forall e :: keep(e) == (e.data.doctorId == doctorId)
  {
    (e: Row<Examination>) => e.data.doctorId == doctorId
  }

  /** `order("examination_date", { ascending: false })`. */
  function LatestFirst(): (le: (Row<Examination>, Row<Examination>) -> bool)
    ensures TotalPreorder(le)
    ensures forall a, b :: le(a, b) == (a.data.examinationDate >= b.data.examinationDate)
  {
    (a: Row<Examination>, b: Row<Examination>) => a.data.examinationDate >= b.data.examinationDate
  }

  /** `fetchExaminations`: the doctor's ten latest examinations, latest first. */
  function DoctorExaminations(exams: seq<Row<Examination>>, doctorId: Id): (r: seq<Row<Examination>>)
    ensures |r| == if |Filter(exams, ByDoctor(doctorId))| <= 10 then |Filter(exams, ByDoctor(doctorId))| else 10
    ensures forall e :: e in r ==> e in exams && e.data.doctorId == doctorId
    ensures multiset(r) <= multiset(Filter(exams, ByDoctor(doctorId)))
    ensures forall i, j :: 0 <= i < j < |r| ==> r[i].data.examinationDate >= r[j].data.examinationDate
    ensures forall e, o :: e in r && o in exams && o.data.doctorId == doctorId && o !in r ==>
              e.data.examinationDate >= o.data.examinationDate
  {
    TopBy(exams, ByDoctor(doctorId), LatestFirst(), 10)
  }

  /** The "Mulai Pemeriksaan" button is offered only on waiting rows, exactly beside a
      "Menunggu" badge. */
  predicate StartOffered(q: Row<QueueEntry>)
    ensures StartOffered(q) <==> QueueBadge(q.data.status).text == "Menunggu"
  {
    q.data.status == Waiting
  }

  /** Starting an examination withdraws the "Mulai Pemeriksaan" button from that row only: the
      row now reads "Sedang Diperiksa", stays on today's list when it was there, and every other
      row keeps its button as it was. */
  lemma StartWithdrawsOffer(queue: seq<Row<QueueEntry>>, bound: Id, i: nat, today: Date)
    requires WellKeyed(queue, bound) && i < |queue|
    ensures !StartOffered(UpdateById(queue, queue[i].id, QueueStatusTo(InProgress))[i])
    ensures QueueBadge(UpdateById(queue, queue[i].id, QueueStatusTo(InProgress))[i].data.status).text == "Sedang Diperiksa"
    ensures ActiveToday(today)(UpdateById(queue, queue[i].id, QueueStatusTo(InProgress))[i])
            <==> queue[i].data.queueDate == today
    ensures forall k :: 0 <= k < |queue| && k != i ==>
              StartOffered(UpdateById(queue, queue[i].id, QueueStatusTo(InProgress))[k]) == StartOffered(queue[k])
  {
    var u := UpdateById(queue, queue[i].id, QueueStatusTo(InProgress));
    forall k | 0 <= k < |queue| && k != i ensures u[k] == queue[k] {
      assert queue[k].id != queue[i].id;
    }
  }

  /** The queue row's badge: "Menunggu" for a waiting row, "Sedang Diperiksa" for any other
      (the list holds only waiting and in-progress rows). */
  function QueueBadge(status: string): (b: Badge)
    ensures b.text == "Menunggu" <==> status == Waiting
    ensures b.text == "Sedang Diperiksa" <==> status != Waiting
    ensures b.variant == if status == Waiting then Some(Default) else Some(Secondary)
  {
    if status == Waiting then Badge(Some(Default), "Menunggu") else Badge(Some(Secondary), "Sedang Diperiksa")
  }

  // ---------------------------------------------------------------- forms

  datatype ExamForm = ExamForm(physicalExamination: string, diagnosis: string, notes: string)

  const EmptyExamForm := ExamForm("", "", "")

  /** One prescription line as typed into the dialog. */
  datatype ItemForm = ItemForm(medicineName: string, dosage: string, frequency: string, duration: string,
                               instructions: string)

  const EmptyItem := ItemForm("", "", "", "", "")

  function HasMedicineName(): ItemForm -> bool
  {
    (item: ItemForm) => item.medicineName != ""
  }

  /** `prescriptionItems.filter((item) => item.medicine_name)`: lines whose medicine name is not empty. */
  function ValidItems(items: seq<ItemForm>): (r: seq<ItemForm>)
    ensures forall x :: x in r <==> x in items && x.medicineName != ""
    ensures |r| > 0 <==> exists i :: 0 <= i < |items| && items[i].medicineName != ""
  {
    var r := Filter(items, HasMedicineName());
    assert r != [] ==> r[0] in r;
    r
  }

  /** `validItems.map(...)`: each kept line becomes an item row of the new prescription. */
  function ItemRows(valid: seq<ItemForm>, prescriptionId: Id): (r: seq<PrescriptionItem>)
    ensures |r| == |valid|
    ensures forall k :: 0 <= k < |r| ==> r[k].prescriptionId == prescriptionId
    ensures forall k :: 0 <= k < |r| ==>
              && r[k].medicineName == valid[k].medicineName && r[k].dosage == valid[k].dosage
              && r[k].frequency == valid[k].frequency && r[k].duration == valid[k].duration
              && r[k].instructions == Some(valid[k].instructions)
  {
    seq(|valid|, k requires 0 <= k < |valid| =>
      PrescriptionItem(prescriptionId, valid[k].medicineName, valid[k].dosage, valid[k].frequency,
                       valid[k].duration, Some(valid[k].instructions)))
  }

  /** The examination row recorded for queue entry `q`; its date takes the column default, now. */
  function ExaminationFor(q: Row<QueueEntry>, doctorId: Id, form: ExamForm, now: Timestamp): (e: Examination)
    ensures e.chiefComplaint == q.data.complaint
    ensures e.patientId == q.data.patientId && e.doctorId == doctorId && e.queueId == Some(q.id)
    ensures e.diagnosis == form.diagnosis
  {
    Examination(q.data.patientId, doctorId, Some(q.id), q.data.complaint, Some(form.physicalExamination),
                form.diagnosis, Some(form.notes), now)
  }

  /** The bill opened for every recorded examination. */
  function OpeningPayment(q: Row<QueueEntry>, examinationId: Id): (p: Payment)
    ensures p.amount == 0 && p.paymentMethod == "cash" && p.status == Pending && p.paidAt.None?
    ensures p.examinationId == Some(examinationId) && p.patientId == q.data.patientId
  {
    Payment(q.data.patientId, Some(examinationId), 0, "cash", Pending, None)
  }

  // ---------------------------------------------------------------- handlers

  /** The backend's verdict on each write of the examination sequence. */
  datatype SubmitVerdicts = SubmitVerdicts(
    examination: bool, prescription: bool, items: bool, payment: bool, queueUpdate: bool)

  /** `ExaminationRejected` is the early return; otherwise the ids the handler received. */
  datatype Submission = ExaminationRejected | Submitted(examinationId: Id, prescriptionId: Option<Id>)

  /** Recording an examination keeps the references intact and makes its id a valid target. */
  lemma ExaminationAppended(e: seq<Row<Examination>>, e': seq<Row<Examination>>, eid: Id, now: Timestamp,
                            exam: Examination, p: seq<Row<Prescription>>, i: seq<Row<PrescriptionItem>>,
                            pay: seq<Row<Payment>>)
    requires e' == e + [Row(eid, now, exam)]
    ensures Appended(e', e, [exam], now) && e'[|e|].id == eid
    ensures HasRow(e', eid)
    ensures Intact(e, p, i, pay) ==> Intact(e', p, i, pay)
  {
    assert e'[|e|].id == eid;
    if Intact(e, p, i, pay) {
      IntactExtends(e, p, i, pay, e', p, i, pay);
    }
  }

  class DoctorDashboard {
    const store: ClinicStore
    const doctorId: Id
    var selectedQueue: Option<Row<QueueEntry>>
    var dialogOpen: bool
    var examForm: ExamForm
    var prescriptionItems: seq<ItemForm>

    constructor (store: ClinicStore, doctorId: Id)
      ensures this.store == store && this.doctorId == doctorId
      ensures selectedQueue.None? && !dialogOpen && examForm == EmptyExamForm && prescriptionItems == [EmptyItem]
    {
      this.store := store;
      this.doctorId := doctorId;
      selectedQueue, dialogOpen := None, false;
      examForm, prescriptionItems := EmptyExamForm, [EmptyItem];
    }

    /** `handleStartExamination`: the row goes to "in_progress"; the dialog opens only on success. */
    method StartExamination(q: Row<QueueEntry>, accepted: bool) returns (ok: bool)
      requires store.Valid()
      modifies this`selectedQueue, this`dialogOpen, store`queue
      ensures store.Valid() && ok == accepted
      ensures accepted ==>
        store.queue == UpdateById(old(store.queue), q.id, QueueStatusTo(InProgress)) &&
        selectedQueue == Some(q) && dialogOpen
      ensures !accepted ==>
        store.queue == old(store.queue) && selectedQueue == old(selectedQueue) && dialogOpen == old(dialogOpen)
    {
      ok := store.SetQueueStatus(q.id, InProgress, accepted);
      if ok {
        selectedQueue, dialogOpen := Some(q), true;
      }
    }

    /** `addPrescriptionItem`. */
    method AddPrescriptionItem()
      modifies this`prescriptionItems
      ensures prescriptionItems == old(prescriptionItems) + [EmptyItem]
    {
      prescriptionItems := prescriptionItems + [EmptyItem];
    }

    /** `handleSubmitExamination`: examination first; a prescription and its items only when
        some line names a medicine (items only once the prescription is in); then always a
        zero-amount pending payment; then the queue row goes to "completed". Only a rejected
        examination stops the sequence; later failures are not checked and nothing is undone. */
    method SubmitExamination(now: Timestamp, v: SubmitVerdicts) returns (outcome: Submission)
      requires store.Valid() && selectedQueue.Some?
      modifies this`selectedQueue, this`dialogOpen, this`examForm, this`prescriptionItems
      modifies store`examinations, store`prescriptions, store`prescriptionItems, store`payments
      modifies store`queue, store`nextId
      ensures store.Valid()
      ensures old(store.ReferencesIntact()) ==> store.ReferencesIntact()
      ensures !v.examination ==>
        && outcome == ExaminationRejected
        && store.examinations == old(store.examinations) && store.prescriptions == old(store.prescriptions)
        && store.prescriptionItems == old(store.prescriptionItems) && store.payments == old(store.payments)
        && store.queue == old(store.queue) && store.nextId == old(store.nextId)
        && selectedQueue == old(selectedQueue) && dialogOpen == old(dialogOpen)
        && examForm == old(examForm) && prescriptionItems == old(prescriptionItems)
      ensures v.examination ==> outcome.Submitted?
      ensures v.examination ==>
        && Appended(store.examinations, old(store.examinations),
                    [ExaminationFor(old(selectedQueue).value, doctorId, old(examForm), now)], now)
        && store.examinations[|old(store.examinations)|].id == outcome.examinationId
      ensures v.examination ==>
        (outcome.prescriptionId.Some? <==> |ValidItems(old(prescriptionItems))| > 0 && v.prescription)
      ensures v.examination && outcome.prescriptionId.Some? ==>
        && Appended(store.prescriptions, old(store.prescriptions),
                    [Prescription(outcome.examinationId, old(selectedQueue).value.data.patientId, doctorId, Pending, None)],
                    now)
        && store.prescriptions[|old(store.prescriptions)|].id == outcome.prescriptionId.value
        && Appended(store.prescriptionItems, old(store.prescriptionItems),
                    if v.items then ItemRows(ValidItems(old(prescriptionItems)), outcome.prescriptionId.value) else [],
                    now)
      ensures v.examination && outcome.prescriptionId.None? ==>
        store.prescriptions == old(store.prescriptions) && store.prescriptionItems == old(store.prescriptionItems)
      ensures v.examination ==>
        Appended(store.payments, old(store.payments),
                 if v.payment then [OpeningPayment(old(selectedQueue).value, outcome.examinationId)] else [], now)
      ensures v.examination ==>
        store.queue == if v.queueUpdate then UpdateById(old(store.queue), old(selectedQueue).value.id,
                                                        QueueStatusTo(Completed))
                       else old(store.queue)
      ensures v.examination ==>
        selectedQueue.None? && !dialogOpen && examForm == EmptyExamForm && prescriptionItems == [EmptyItem]
    {
      outcome := Record(selectedQueue.value, examForm, ValidItems(prescriptionItems), now, v);
      if outcome.Submitted? {
        dialogOpen, selectedQueue := false, None;
        examForm, prescriptionItems := EmptyExamForm, [EmptyItem];
      }
    }

    /** The writes of one submission, in the order the handler issues them; the first
        rejected write that the handler checks ends it. */
    method Record(q: Row<QueueEntry>, form: ExamForm, valid: seq<ItemForm>, now: Timestamp, v: SubmitVerdicts)
      returns (outcome: Submission)
      requires store.Valid()
      modifies store`examinations, store`prescriptions, store`prescriptionItems, store`payments
      modifies store`queue, store`nextId
      ensures store.Valid()
      ensures old(store.ReferencesIntact()) ==> store.ReferencesIntact()
      ensures outcome.Submitted? <==> v.examination
      ensures !v.examination ==>
        && store.examinations == old(store.examinations) && store.prescriptions == old(store.prescriptions)
        && store.prescriptionItems == old(store.prescriptionItems) && store.payments == old(store.payments)
        && store.queue == old(store.queue) && store.nextId == old(store.nextId)
      ensures v.examination ==>
        && Appended(store.examinations, old(store.examinations), [ExaminationFor(q, doctorId, form, now)], now)
        && store.examinations[|old(store.examinations)|].id == outcome.examinationId
        && (outcome.prescriptionId.Some? <==> |valid| > 0 && v.prescription)
      ensures v.examination && outcome.prescriptionId.Some? ==>
        && Appended(store.prescriptions, old(store.prescriptions),
                    [Prescription(outcome.examinationId, q.data.patientId, doctorId, Pending, None)], now)
        && store.prescriptions[|old(store.prescriptions)|].id == outcome.prescriptionId.value
        && Appended(store.prescriptionItems, old(store.prescriptionItems),
                    if v.items then ItemRows(valid, outcome.prescriptionId.value) else [], now)
      ensures v.examination && outcome.prescriptionId.None? ==>
        store.prescriptions == old(store.prescriptions) && store.prescriptionItems == old(store.prescriptionItems)
      ensures v.examination ==>
        && Appended(store.payments, old(store.payments), if v.payment then [OpeningPayment(q, outcome.examinationId)] else [], now)
        && store.queue == if v.queueUpdate then UpdateById(old(store.queue), q.id, QueueStatusTo(Completed))
                          else old(store.queue)
    {
      var examId := RecordExamination(ExaminationFor(q, doctorId, form, now), now, v.examination);
      if examId.None? {
        return ExaminationRejected;
      }
      var prescriptionId := RecordFollowUps(q, examId.value, valid, now, v);
      outcome := Submitted(examId.value, prescriptionId);
    }

    /** The examination insert; the new id is a valid target for the rows that follow. */
    method RecordExamination(e: Examination, now: Timestamp, accepted: bool) returns (id: Option<Id>)
      requires store.Valid()
      modifies store`examinations, store`nextId
      ensures store.Valid()
      ensures id.Some? <==> accepted
      ensures id.Some? ==>
        Appended(store.examinations, old(store.examinations), [e], now) &&
        store.examinations[|old(store.examinations)|].id == id.value && HasRow(store.examinations, id.value)
      ensures id.None? ==> store.examinations == old(store.examinations) && store.nextId == old(store.nextId)
      ensures old(store.ReferencesIntact()) ==> store.ReferencesIntact()
    {
      id := store.InsertExamination(e, now, accepted);
      if id.Some? {
        ExaminationAppended(old(store.examinations), store.examinations, id.value, now, e, store.prescriptions,
                            store.prescriptionItems, store.payments);
      }
    }

    /** Everything after the examination: prescription and items, the bill, the queue row. */
    method RecordFollowUps(q: Row<QueueEntry>, eid: Id, valid: seq<ItemForm>, now: Timestamp, v: SubmitVerdicts)
      returns (pid: Option<Id>)
      requires store.Valid()
      modifies store`prescriptions, store`prescriptionItems, store`payments, store`queue, store`nextId
      ensures store.Valid()
      ensures pid.Some? <==> |valid| > 0 && v.prescription
      ensures pid.Some? ==>
        && Appended(store.prescriptions, old(store.prescriptions),
                    [Prescription(eid, q.data.patientId, doctorId, Pending, None)], now)
        && store.prescriptions[|old(store.prescriptions)|].id == pid.value
        && Appended(store.prescriptionItems, old(store.prescriptionItems),
                    if v.items then ItemRows(valid, pid.value) else [], now)
      ensures pid.None? ==>
        store.prescriptions == old(store.prescriptions) && store.prescriptionItems == old(store.prescriptionItems)
      ensures Appended(store.payments, old(store.payments), if v.payment then [OpeningPayment(q, eid)] else [], now)
      ensures store.queue == if v.queueUpdate then UpdateById(old(store.queue), q.id, QueueStatusTo(Completed))
                             else old(store.queue)
      ensures old(store.ReferencesIntact()) && HasRow(store.examinations, eid) ==> store.ReferencesIntact()
    {
      pid := RecordPrescription(eid, q.data.patientId, valid, now, v.prescription, v.items);
      OpenBill(q, eid, now, v.payment);
      var _ := store.SetQueueStatus(q.id, Completed, v.queueUpdate);
    }

    /** When some line names a medicine: the prescription insert and, once its id is back,
        the one batch insert of its items. */
    method RecordPrescription(eid: Id, patientId: Id, valid: seq<ItemForm>, now: Timestamp,
                              prescriptionAccepted: bool, itemsAccepted: bool) returns (pid: Option<Id>)
      requires store.Valid()
      modifies store`prescriptions, store`prescriptionItems, store`nextId
      ensures store.Valid()
      ensures pid.Some? <==> |valid| > 0 && prescriptionAccepted
      ensures pid.Some? ==>
        && Appended(store.prescriptions, old(store.prescriptions),
                    [Prescription(eid, patientId, doctorId, Pending, None)], now)
        && store.prescriptions[|old(store.prescriptions)|].id == pid.value
        && Appended(store.prescriptionItems, old(store.prescriptionItems),
                    if itemsAccepted then ItemRows(valid, pid.value) else [], now)
      ensures pid.None? ==>
        store.prescriptions == old(store.prescriptions) && store.prescriptionItems == old(store.prescriptionItems)
      ensures old(store.ReferencesIntact()) && HasRow(store.examinations, eid) ==> store.ReferencesIntact()
    {
      if |valid| == 0 {
        return None;
      }
      ghost var p0, i0 := store.prescriptions, store.prescriptionItems;
      ghost var intact := old(store.ReferencesIntact()) && HasRow(store.examinations, eid);
      pid := store.InsertPrescription(eid, patientId, doctorId, now, prescriptionAccepted);
      if pid.Some? {
        if intact {
          PrescriptionAppendedIntact(store.examinations, p0, i0, store.payments, store.prescriptions[|p0|]);
        }
        RecordItems(pid.value, valid, now, itemsAccepted);
      }
    }

    /** The one batch insert of the prescription's items: all rows or none. */
    method RecordItems(pid: Id, valid: seq<ItemForm>, now: Timestamp, accepted: bool)
      requires store.Valid()
      modifies store`prescriptionItems, store`nextId
      ensures store.Valid()
      ensures Appended(store.prescriptionItems, old(store.prescriptionItems),
                       if accepted then ItemRows(valid, pid) else [], now)
      ensures old(store.ReferencesIntact()) && HasRow(store.prescriptions, pid) ==> store.ReferencesIntact()
    {
      var rows := ItemRows(valid, pid);
      ghost var i0, n := store.prescriptionItems, store.nextId;
      var _ := store.InsertPrescriptionItems(rows, now, accepted);
      if accepted && old(store.ReferencesIntact()) && HasRow(store.prescriptions, pid) {
        ItemsAppendedIntact(store.examinations, store.prescriptions, i0, store.payments, RowsFrom(rows, n, now), pid);
      }
    }

    /** The zero-amount pending payment opened for examination `eid`. */
    method OpenBill(q: Row<QueueEntry>, eid: Id, now: Timestamp, accepted: bool)
      requires store.Valid()
      modifies store`payments, store`nextId
      ensures store.Valid()
      ensures Appended(store.payments, old(store.payments), if accepted then [OpeningPayment(q, eid)] else [], now)
      ensures old(store.ReferencesIntact()) && HasRow(store.examinations, eid) ==> store.ReferencesIntact()
    {
      ghost var pay0 := store.payments;
      var _ := store.InsertPayment(OpeningPayment(q, eid), now, accepted);
      if accepted && old(store.ReferencesIntact()) && HasRow(store.examinations, eid) {
        PaymentAppendedIntact(store.examinations, store.prescriptions, store.prescriptionItems, pay0,
                              store.payments[|pay0|]);
      }
    }
  }
}
