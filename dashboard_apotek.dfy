/** The pharmacy dashboard: stock and prescription listings, adding stock, filling a prescription. */
module DashboardApotek {
  import opened Schema
  import opened Query
  import opened Store
  import opened Badges

  // ---------------------------------------------------------------- derived values

  /** A medicine is low on stock below this quantity. */
  const LowStockThreshold := 10

  function IsLow(): Row<MedicineStock> -> bool
  {
    (m: Row<MedicineStock>) => m.data.quantity < LowStockThreshold
  }

  /** `getLowStockMedicines`: exactly the rows holding fewer than ten units, in listing order. */
  function LowStock(ms: seq<Row<MedicineStock>>): (r: seq<Row<MedicineStock>>)
    ensures |r| <= |ms|
    ensures forall m :: m in r <==> m in ms && m.data.quantity < 10
    ensures forall m :: m in r ==> m.data.quantity <= 9
  {
    Filter(ms, IsLow())
  }

  /** Stock is only ever added as a new row: the low-stock list gains that row when it is
      low and otherwise keeps its length; no earlier row ever leaves it. */
  lemma LowStockAppend(ms: seq<Row<MedicineStock>>, row: Row<MedicineStock>)
    ensures |LowStock(ms + [row])| == |LowStock(ms)| + (if row.data.quantity < 10 then 1 else 0)
    ensures forall m :: m in LowStock(ms) ==> m in LowStock(ms + [row])
  {
    FilterAppend(ms, [row], IsLow());
    assert Filter([row], IsLow()) == Filter([], IsLow()) + (if IsLow()(row) then [row] else []) by {
      assert [row][1..] == [];
    }
  }

  /** A prescription still to be filled: counted on the "Resep Pending" card and the only kind
      offered the "Isi Resep" button, which appears exactly beside a "Pending" badge. */
  predicate IsPendingPrescription(p: Row<Prescription>)
    ensures IsPendingPrescription(p) <==> PrescriptionBadge(p.data.status).text == "Pending"
  {
    p.data.status == Pending
  }

  /** The "Resep Pending" card. */
  function PendingPrescriptions(ps: seq<Row<Prescription>>): (n: nat)
    ensures n <= |ps|
    ensures n == 0 <==> forall i :: 0 <= i < |ps| ==> ps[i].data.status != Pending
    ensures n == |ps| <==> forall i :: 0 <= i < |ps| ==> ps[i].data.status == Pending
  {
    Count(ps, IsPendingPrescription)
  }

  /** The status badge: "Pending" for a pending prescription, "Terisi" for any other status. */
  function PrescriptionBadge(status: string): (b: Badge)
    ensures b.text == "Pending" <==> status == Pending
    ensures b.text == "Terisi" <==> status != Pending
    ensures b.variant == if status == Pending then Some(Default) else Some(Secondary)
  {
    if status == Pending then Badge(Some(Default), "Pending") else Badge(Some(Secondary), "Terisi")
  }

  // ---------------------------------------------------------------- listings

  function MedicineName(): Row<MedicineStock> -> string
  {
    (m: Row<MedicineStock>) => m.data.medicineName
  }

  /** `order("medicine_name", { ascending: true })`. */
  function ByName(): (le: (Row<MedicineStock>, Row<MedicineStock>) -> bool)
    ensures TotalPreorder(le)
    ensures forall a, b :: le(a, b) == TextLe(a.data.medicineName, b.data.medicineName)
  {
    var le := (a: Row<MedicineStock>, b: Row<MedicineStock>) => TextLe(a.data.medicineName, b.data.medicineName);
    TextKeyPreorder(MedicineName(), le);
    le
  }

  /** `fetchMedicines`: every stock row, by name ascending. */
  function MedicineList(ms: seq<Row<MedicineStock>>): (r: seq<Row<MedicineStock>>)
    ensures multiset(r) == multiset(ms)
    ensures forall i, j :: 0 <= i < j < |r| ==> TextLe(r[i].data.medicineName, r[j].data.medicineName)
  {
    FilterTrue(ms);
    Select(ms, All(), ByName())
  }

  // ---------------------------------------------------------------- filling

  /** Filling is unguarded and idempotent: filling a filled prescription changes nothing. */
  lemma FillIdempotent(ps: seq<Row<Prescription>>, id: Id)
    ensures UpdateById(UpdateById(ps, id, PrescriptionStatusTo(Filled)), id, PrescriptionStatusTo(Filled))
         == UpdateById(ps, id, PrescriptionStatusTo(Filled))
  {
    var f := PrescriptionStatusTo(Filled);
    forall x ensures f(f(x)) == f(x) {
      assert f(x).status == Filled;
    }
    UpdateIdempotent(ps, id, f);
  }

  /** Filling a pending prescription lowers the pending count by one; filling any other
      leaves it as it was. */
  lemma FillLowersPending(ps: seq<Row<Prescription>>, bound: Id, i: nat)
    requires WellKeyed(ps, bound) && i < |ps|
    ensures PendingPrescriptions(UpdateById(ps, ps[i].id, PrescriptionStatusTo(Filled)))
         == PendingPrescriptions(ps) - (if ps[i].data.status == Pending then 1 else 0)
  {
    FilterCountUpdate(ps, bound, ps[i].id, PrescriptionStatusTo(Filled), i, IsPendingPrescription);
  }

  // ---------------------------------------------------------------- handlers

  /** The add-stock form; an empty numeric field is `None`. */
  datatype MedicineForm = MedicineForm(medicineName: string, quantity: Option<int>, unit: string,
                                       price: Option<int>, supplier: string, expiryDate: string)

  const EmptyMedicineForm := MedicineForm("", None, "", None, "", "")

  /** `value || null`: an empty text is stored as null. */
  function NullIfEmpty(s: string): (r: Option<string>)
    ensures r.None? <==> s == ""
    ensures r.Some? ==> r.value == s
  {
    if s == "" then None else Some(s)
  }

  /** The stock row the form describes. */
  function StockRow(form: MedicineForm): (m: MedicineStock)
    requires form.quantity.Some? && form.price.Some?
    ensures m.medicineName == form.medicineName && m.unit == form.unit
    ensures m.quantity == form.quantity.value && m.price == form.price
    ensures m.supplier.None? <==> form.supplier == ""
    ensures m.expiryDate.None? <==> form.expiryDate == ""
  {
    MedicineStock(form.medicineName, form.quantity.value, form.unit, form.price,
                  NullIfEmpty(form.supplier), NullIfEmpty(form.expiryDate))
  }

  class PharmacyDashboard {
    const store: ClinicStore
    var medicineForm: MedicineForm

    constructor (store: ClinicStore)
      ensures this.store == store && medicineForm == EmptyMedicineForm
    {
      this.store := store;
      medicineForm := EmptyMedicineForm;
    }

    /** `handleAddMedicine`: always one new row, never merged into a row of the same name;
        the form is cleared only on success. Quantity and price are required form fields. */
    method AddMedicine(now: Timestamp, accepted: bool) returns (ok: bool)
      requires store.Valid() && medicineForm.quantity.Some? && medicineForm.price.Some?
      modifies this`medicineForm, store`medicineStock, store`nextId
      ensures store.Valid() && ok == accepted
      ensures accepted ==>
        store.medicineStock == old(store.medicineStock) + [Row(old(store.nextId), now, StockRow(old(medicineForm)))] &&
        medicineForm == EmptyMedicineForm
      ensures !accepted ==>
        store.medicineStock == old(store.medicineStock) && store.nextId == old(store.nextId) &&
        medicineForm == old(medicineForm)
    {
      var id := store.InsertMedicineStock(StockRow(medicineForm), now, accepted);
      ok := id.Some?;
      if ok {
        medicineForm := EmptyMedicineForm;
      }
    }

    /** `handleFillPrescription`: the prescription becomes "filled" whatever its status was;
        no stock row is touched. */
    method FillPrescription(id: Id, accepted: bool) returns (ok: bool)
      requires store.Valid()
      modifies store`prescriptions
      ensures store.Valid() && ok == accepted
      ensures store.prescriptions == if accepted then UpdateById(old(store.prescriptions), id, PrescriptionStatusTo(Filled))
                                     else old(store.prescriptions)
      ensures store.medicineStock == old(store.medicineStock)
      ensures old(store.ReferencesIntact()) ==> store.ReferencesIntact()
    {
      ghost var p0 := store.prescriptions;
      ok := store.SetPrescriptionStatus(id, Filled, accepted);
      if ok && old(store.ReferencesIntact()) {
        PrescriptionStatusIntact(store.examinations, p0, store.prescriptionItems, store.payments, id, Filled);
      }
    }
  }
}
