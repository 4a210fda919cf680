/** The clinic database as an in-memory store: one sequence of rows per table,
    and the writes the dashboards issue against it. Each write takes the backend's
    verdict `accepted`; a rejected write changes nothing. */
module Store {
  import opened Schema
  import opened Query

  /** Column defaults the database applies when an insert leaves the status out. */
  const DefaultQueueStatus := Waiting
  const DefaultPrescriptionStatus := Pending

  /** The row rewrite of `update({ status })` on `patient_queue`. */
  function QueueStatusTo(status: string): QueueEntry -> QueueEntry
  {
    (e: QueueEntry) => e.(status := status)
  }

  /** The row rewrite of `update({ status })` on `prescriptions`. */
  function PrescriptionStatusTo(status: string): Prescription -> Prescription
  {
    (p: Prescription) => p.(status := status)
  }

  /** Some row of `t` has primary key `id`. */
  ghost predicate HasRow<T>(t: seq<Row<T>>, id: Id)
  {
    exists j :: 0 <= j < |t| && t[j].id == id
  }

  /** See `ClinicStore.ReferencesIntact`. */
  ghost predicate Intact(examinations: seq<Row<Examination>>, prescriptions: seq<Row<Prescription>>,
                         items: seq<Row<PrescriptionItem>>, payments: seq<Row<Payment>>)
  {
    && (forall i :: 0 <= i < |prescriptions| ==> HasRow(examinations, prescriptions[i].data.examinationId))
    && (forall i :: 0 <= i < |items| ==> HasRow(prescriptions, items[i].data.prescriptionId))
    && (forall i :: 0 <= i < |payments| ==>
          payments[i].data.examinationId.Some? && HasRow(examinations, payments[i].data.examinationId.value))
  }

  lemma HasRowExtends<T>(t: seq<Row<T>>, u: seq<Row<T>>, id: Id)
    requires |t| <= |u| && u[..|t|] == t && HasRow(t, id)
    ensures HasRow(u, id)
  {
    var j :| 0 <= j < |t| && t[j].id == id;
    assert u[j] == t[j];
  }

  /** Appending rows keeps the references intact when every new row points at a row
      present afterwards. */
  lemma IntactExtends(e: seq<Row<Examination>>, p: seq<Row<Prescription>>, i: seq<Row<PrescriptionItem>>,
                      pay: seq<Row<Payment>>, e': seq<Row<Examination>>, p': seq<Row<Prescription>>,
                      i': seq<Row<PrescriptionItem>>, pay': seq<Row<Payment>>)
    requires Intact(e, p, i, pay)
    requires |e| <= |e'| && e'[..|e|] == e
    requires |p| <= |p'| && p'[..|p|] == p
    requires |i| <= |i'| && i'[..|i|] == i
    requires |pay| <= |pay'| && pay'[..|pay|] == pay
    requires forall k :: |p| <= k < |p'| ==> HasRow(e', p'[k].data.examinationId)
    requires forall k :: |i| <= k < |i'| ==> HasRow(p', i'[k].data.prescriptionId)
    requires forall k :: |pay| <= k < |pay'| ==>
               pay'[k].data.examinationId.Some? && HasRow(e', pay'[k].data.examinationId.value)
    ensures Intact(e', p', i', pay')
  {
    forall k | 0 <= k < |p| ensures HasRow(e', p'[k].data.examinationId) {
      assert p'[k] == p[k];
      HasRowExtends(e, e', p[k].data.examinationId);
    }
    forall k | 0 <= k < |i| ensures HasRow(p', i'[k].data.prescriptionId) {
      assert i'[k] == i[k];
      HasRowExtends(p, p', i[k].data.prescriptionId);
    }
    forall k | 0 <= k < |pay| ensures pay'[k].data.examinationId.Some? && HasRow(e', pay'[k].data.examinationId.value) {
      assert pay'[k] == pay[k];
      HasRowExtends(e, e', pay[k].data.examinationId.value);
    }
  }

  /** A new prescription that points at a recorded examination keeps the references intact. */
  lemma PrescriptionAppendedIntact(e: seq<Row<Examination>>, p: seq<Row<Prescription>>,
                                   i: seq<Row<PrescriptionItem>>, pay: seq<Row<Payment>>, row: Row<Prescription>)
    requires Intact(e, p, i, pay) && HasRow(e, row.data.examinationId)
    ensures Intact(e, p + [row], i, pay) && HasRow(p + [row], row.id)
  {
    assert (p + [row])[|p|] == row;
    IntactExtends(e, p, i, pay, e, p + [row], i, pay);
  }

  /** New items that all point at a recorded prescription keep the references intact. */
  lemma ItemsAppendedIntact(e: seq<Row<Examination>>, p: seq<Row<Prescription>>, i: seq<Row<PrescriptionItem>>,
                            pay: seq<Row<Payment>>, rows: seq<Row<PrescriptionItem>>, pid: Id)
    requires Intact(e, p, i, pay) && HasRow(p, pid)
    requires forall k :: 0 <= k < |rows| ==> rows[k].data.prescriptionId == pid
    ensures Intact(e, p, i + rows, pay)
  {
    assert forall k :: |i| <= k < |i + rows| ==> (i + rows)[k] == rows[k - |i|];
    IntactExtends(e, p, i, pay, e, p, i + rows, pay);
  }

  /** A new payment that bills a recorded examination keeps the references intact. */
  lemma PaymentAppendedIntact(e: seq<Row<Examination>>, p: seq<Row<Prescription>>, i: seq<Row<PrescriptionItem>>,
                              pay: seq<Row<Payment>>, row: Row<Payment>)
    requires Intact(e, p, i, pay)
    requires row.data.examinationId.Some? && HasRow(e, row.data.examinationId.value)
    ensures Intact(e, p, i, pay + [row])
  {
    assert (pay + [row])[|pay|] == row;
    IntactExtends(e, p, i, pay, e, p, i, pay + [row]);
  }

  /** Rewriting a payment without touching the examination it bills keeps the references intact. */
  lemma PaymentUpdateIntact(e: seq<Row<Examination>>, p: seq<Row<Prescription>>, i: seq<Row<PrescriptionItem>>,
                            pay: seq<Row<Payment>>, id: Id, change: Payment -> Payment)
    requires Intact(e, p, i, pay)
    requires forall x :: change(x).examinationId == x.examinationId
    ensures Intact(e, p, i, UpdateById(pay, id, change))
  {
    var pay' := UpdateById(pay, id, change);
    forall k | 0 <= k < |pay'|
      ensures pay'[k].data.examinationId.Some? && HasRow(e, pay'[k].data.examinationId.value)
    {
      assert pay'[k].data.examinationId == pay[k].data.examinationId;
    }
  }

  /** Changing a prescription's status keeps its id and the examination it belongs to, so the
      references into and out of the prescriptions table survive it. */
  lemma PrescriptionStatusIntact(e: seq<Row<Examination>>, p: seq<Row<Prescription>>, i: seq<Row<PrescriptionItem>>,
                                 pay: seq<Row<Payment>>, id: Id, status: string)
    requires Intact(e, p, i, pay)
    ensures Intact(e, UpdateById(p, id, PrescriptionStatusTo(status)), i, pay)
  {
    var p' := UpdateById(p, id, PrescriptionStatusTo(status));
    forall k | 0 <= k < |p'| ensures HasRow(e, p'[k].data.examinationId) {
      assert p'[k].data.examinationId == p[k].data.examinationId;
    }
    forall k | 0 <= k < |i| ensures HasRow(p', i[k].data.prescriptionId) {
      var j :| 0 <= j < |p| && p[j].id == i[k].data.prescriptionId;
      assert p'[j].id == p[j].id;
    }
  }

  class ClinicStore {
    var patients: seq<Row<Patient>>
    var queue: seq<Row<QueueEntry>>
    var examinations: seq<Row<Examination>>
    var prescriptions: seq<Row<Prescription>>
    var prescriptionItems: seq<Row<PrescriptionItem>>
    var payments: seq<Row<Payment>>
    var medicineStock: seq<Row<MedicineStock>>
    var feedback: seq<Row<Feedback>>
    /** The next primary key the database will hand out. */
    var nextId: Id

    /** Every table's ids were handed out by the store and are unique within it. */
    ghost predicate Valid()
      reads this
    {
      && WellKeyed(patients, nextId)
      && WellKeyed(queue, nextId)
      && WellKeyed(examinations, nextId)
      && WellKeyed(prescriptions, nextId)
      && WellKeyed(prescriptionItems, nextId)
      && WellKeyed(payments, nextId)
      && WellKeyed(medicineStock, nextId)
      && WellKeyed(feedback, nextId)
    }

    /** The references the examination sequence creates point at existing rows: a
        prescription at its examination, an item at its prescription, and a payment
        at the examination it bills. */
    ghost predicate ReferencesIntact()
      reads this`examinations, this`prescriptions, this`prescriptionItems, this`payments
    {
      Intact(examinations, prescriptions, prescriptionItems, payments)
    }

    /** A store holding the patients registered at sign-up and nothing else. */
    constructor (registered: seq<Patient>, now: Timestamp)
      ensures Valid() && ReferencesIntact()
      ensures patients == RowsFrom(registered, 0, now) && nextId == |registered|
      ensures queue == [] && examinations == [] && prescriptions == [] && prescriptionItems == []
      ensures payments == [] && medicineStock == [] && feedback == []
    {
      patients := RowsFrom(registered, 0, now);
      queue, examinations, prescriptions, prescriptionItems := [], [], [], [];
      payments, medicineStock, feedback := [], [], [];
      nextId := |registered|;
      new;
      WellKeyedAppend([], 0, patients, |registered|);
    }

    /** `insert` into `patient_queue`; the status column takes its default. */
    method InsertQueueEntry(patientId: Id, queueNumber: int, complaint: string, queueDate: Date,
                            now: Timestamp, accepted: bool) returns (id: Option<Id>)
      requires Valid()
      modifies this`queue, this`nextId
      ensures Valid()
      ensures accepted ==> (id == Some(old(nextId)) && nextId == old(nextId) + 1 &&
        queue == old(queue) + [Row(old(nextId), now,
                                   QueueEntry(patientId, queueNumber, queueDate, complaint, DefaultQueueStatus))])
      ensures !accepted ==> id == None && queue == old(queue) && nextId == old(nextId)
    {
      id := None;
      if accepted {
        var row := Row(nextId, now, QueueEntry(patientId, queueNumber, queueDate, complaint, DefaultQueueStatus));
        WellKeyedAppend(queue, nextId, [row], 1);
        queue := queue + [row];
        id := Some(nextId);
        nextId := nextId + 1;
      }
    }

    /** `update({ status }).eq("id", id)` on `patient_queue`. */
    method SetQueueStatus(id: Id, status: string, accepted: bool) returns (ok: bool)
      requires Valid()
      modifies this`queue
      ensures Valid() && ok == accepted
      ensures queue == if accepted then UpdateById(old(queue), id, QueueStatusTo(status))
                       else old(queue)
    {
      ok := accepted;
      if accepted {
        WellKeyedUpdate(queue, nextId, id, QueueStatusTo(status));
        queue := UpdateById(queue, id, QueueStatusTo(status));
      }
    }

    /** `insert(...).select().single()` on `examinations`: the new row's id comes back. */
    method InsertExamination(e: Examination, now: Timestamp, accepted: bool) returns (id: Option<Id>)
      requires Valid()
      modifies this`examinations, this`nextId
      ensures Valid()
      ensures accepted ==> (id == Some(old(nextId)) && nextId == old(nextId) + 1 &&
        examinations == old(examinations) + [Row(old(nextId), now, e)])
      ensures !accepted ==> id == None && examinations == old(examinations) && nextId == old(nextId)
    {
      id := None;
      if accepted {
        WellKeyedAppend(examinations, nextId, [Row(nextId, now, e)], 1);
        examinations := examinations + [Row(nextId, now, e)];
        id := Some(nextId);
        nextId := nextId + 1;
      }
    }

    /** `insert(...).select().single()` on `prescriptions`; the status column takes its default. */
    method InsertPrescription(examinationId: Id, patientId: Id, doctorId: Id, now: Timestamp, accepted: bool)
      returns (id: Option<Id>)
      requires Valid()
      modifies this`prescriptions, this`nextId
      ensures Valid()
      ensures accepted ==> (id == Some(old(nextId)) && nextId == old(nextId) + 1 &&
        prescriptions == old(prescriptions) +
          [Row(old(nextId), now, Prescription(examinationId, patientId, doctorId, DefaultPrescriptionStatus, None))])
      ensures !accepted ==> id == None && prescriptions == old(prescriptions) && nextId == old(nextId)
    {
      id := None;
      if accepted {
        var row := Row(nextId, now, Prescription(examinationId, patientId, doctorId, DefaultPrescriptionStatus, None));
        WellKeyedAppend(prescriptions, nextId, [row], 1);
        prescriptions := prescriptions + [row];
        id := Some(nextId);
        nextId := nextId + 1;
      }
    }

    /** One `insert(items)` call on `prescription_items`: all rows or none. */
    method InsertPrescriptionItems(items: seq<PrescriptionItem>, now: Timestamp, accepted: bool) returns (ok: bool)
      requires Valid()
      modifies this`prescriptionItems, this`nextId
      ensures Valid() && ok == accepted
      ensures accepted ==> (nextId == old(nextId) + |items| &&
        prescriptionItems == old(prescriptionItems) + RowsFrom(items, old(nextId), now))
      ensures !accepted ==> prescriptionItems == old(prescriptionItems) && nextId == old(nextId)
    {
      ok := accepted;
      if accepted {
        var rows := RowsFrom(items, nextId, now);
        WellKeyedAppend(prescriptionItems, nextId, rows, |items|);
        prescriptionItems := prescriptionItems + rows;
        nextId := nextId + |items|;
      }
    }

    /** `update({ status }).eq("id", id)` on `prescriptions`. */
    method SetPrescriptionStatus(id: Id, status: string, accepted: bool) returns (ok: bool)
      requires Valid()
      modifies this`prescriptions
      ensures Valid() && ok == accepted
      ensures prescriptions == if accepted then UpdateById(old(prescriptions), id, PrescriptionStatusTo(status))
                               else old(prescriptions)
    {
      ok := accepted;
      if accepted {
        WellKeyedUpdate(prescriptions, nextId, id, PrescriptionStatusTo(status));
        prescriptions := UpdateById(prescriptions, id, PrescriptionStatusTo(status));
      }
    }

    /** `insert` into `payments`. */
    method InsertPayment(p: Payment, now: Timestamp, accepted: bool) returns (id: Option<Id>)
      requires Valid()
      modifies this`payments, this`nextId
      ensures Valid()
      ensures accepted ==> (id == Some(old(nextId)) && nextId == old(nextId) + 1 &&
        payments == old(payments) + [Row(old(nextId), now, p)])
      ensures !accepted ==> id == None && payments == old(payments) && nextId == old(nextId)
    {
      id := None;
      if accepted {
        WellKeyedAppend(payments, nextId, [Row(nextId, now, p)], 1);
        payments := payments + [Row(nextId, now, p)];
        id := Some(nextId);
        nextId := nextId + 1;
      }
    }

    /** `update({ amount, payment_method, status, paid_at }).eq("id", id)` on `payments`. */
    method UpdatePayment(id: Id, change: Payment -> Payment, accepted: bool) returns (ok: bool)
      requires Valid()
      modifies this`payments
      ensures Valid() && ok == accepted
      ensures payments == if accepted then UpdateById(old(payments), id, change) else old(payments)
    {
      ok := accepted;
      if accepted {
        WellKeyedUpdate(payments, nextId, id, change);
        payments := UpdateById(payments, id, change);
      }
    }

    /** `insert` into `medicine_stock`. */
    method InsertMedicineStock(m: MedicineStock, now: Timestamp, accepted: bool) returns (id: Option<Id>)
      requires Valid()
      modifies this`medicineStock, this`nextId
      ensures Valid()
      ensures accepted ==> (id == Some(old(nextId)) && nextId == old(nextId) + 1 &&
        medicineStock == old(medicineStock) + [Row(old(nextId), now, m)])
      ensures !accepted ==> id == None && medicineStock == old(medicineStock) && nextId == old(nextId)
    {
      id := None;
      if accepted {
        WellKeyedAppend(medicineStock, nextId, [Row(nextId, now, m)], 1);
        medicineStock := medicineStock + [Row(nextId, now, m)];
        id := Some(nextId);
        nextId := nextId + 1;
      }
    }

    /** `insert` into `patient_feedback`. */
    method InsertFeedback(f: Feedback, now: Timestamp, accepted: bool) returns (id: Option<Id>)
      requires Valid()
      modifies this`feedback, this`nextId
      ensures Valid()
      ensures accepted ==> (id == Some(old(nextId)) && nextId == old(nextId) + 1 &&
        feedback == old(feedback) + [Row(old(nextId), now, f)])
      ensures !accepted ==> id == None && feedback == old(feedback) && nextId == old(nextId)
    {
      id := None;
      if accepted {
        WellKeyedAppend(feedback, nextId, [Row(nextId, now, f)], 1);
        feedback := feedback + [Row(nextId, now, f)];
        id := Some(nextId);
        nextId := nextId + 1;
      }
    }
  }
}
