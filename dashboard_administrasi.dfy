/** The administration dashboard: the payment list, total revenue and processing a payment. */
module DashboardAdministrasi {
  import opened Schema
  import opened Query
  import opened Store
  import opened Badges

  // ---------------------------------------------------------------- derived values

  /** `filter(status === "completed").reduce(sum + amount, 0)`, folded left to right. Revenue
      is never negative while no amount is, and only completed payments count: without one,
      revenue is 0. */
  function TotalRevenue(ps: seq<Row<Payment>>): (r: int)
    ensures (forall i :: 0 <= i < |ps| ==> ps[i].data.amount >= 0) ==> r >= 0
    ensures (forall i :: 0 <= i < |ps| ==> ps[i].data.status != Completed) ==> r == 0
  {
    if ps == [] then 0
    else
      var init, last := ps[..|ps| - 1], ps[|ps| - 1];
      TotalRevenue(init) + (if last.data.status == Completed then last.data.amount else 0)
  }

  /** Revenue adds up over consecutive parts of the table. */
  lemma {:induction false} TotalRevenueConcat(a: seq<Row<Payment>>, b: seq<Row<Payment>>)
    ensures TotalRevenue(a + b) == TotalRevenue(a) + TotalRevenue(b)
    decreases |b|
  {
    if b == [] {
      assert a + b == a;
    } else {
      var b' := b[..|b| - 1];
      assert (a + b)[..|a + b| - 1] == a + b';
      assert (a + b)[|a + b| - 1] == b[|b| - 1];
      TotalRevenueConcat(a, b');
    }
  }

  /** One more payment raises revenue by its amount when it is completed, and not at all otherwise. */
  lemma RevenueAppend(ps: seq<Row<Payment>>, row: Row<Payment>)
    ensures TotalRevenue(ps + [row]) == TotalRevenue(ps) + (if row.data.status == Completed then row.data.amount else 0)
  {
    assert (ps + [row])[..|ps|] == ps;
  }

  /** The rewrite `handleProcessPayment` sends: amount, method, status "completed" and the payment
      time; the patient and the examination billed are left alone. */
  function ProcessedChange(amount: int, paymentMethod: string, paidAt: Timestamp): (change: Payment -> Payment)
    ensures forall p :: change(p).status == Completed && change(p).amount == amount
    ensures forall p :: change(p).paymentMethod == paymentMethod && change(p).paidAt == Some(paidAt)
    ensures forall p :: change(p).patientId == p.patientId && change(p).examinationId == p.examinationId
  {
    (p: Payment) => p.(amount := amount, paymentMethod := paymentMethod, status := Completed, paidAt := Some(paidAt))
  }

  /** Revenue seen around one row: what comes before it, the row itself, what comes after. */
  lemma RevenueAround(ps: seq<Row<Payment>>, i: nat)
    requires i < |ps|
    ensures TotalRevenue(ps) == TotalRevenue(ps[..i]) + TotalRevenue([ps[i]]) + TotalRevenue(ps[i + 1..])
  {
    var front, here, back := ps[..i], [ps[i]], ps[i + 1..];
    SplitAround(ps, i);
    TotalRevenueConcat(front + here, back);
    TotalRevenueConcat(front, here);
  }

  /** Revenue of a single row: its amount when it is completed. */
  lemma RevenueOfOne(row: Row<Payment>)
    ensures TotalRevenue([row]) == if row.data.status == Completed then row.data.amount else 0
  {
    assert [row][..0] == [];
  }

  /** Two tables that differ in one row differ in revenue by what that row contributes. */
  lemma RevenueReplace(ps: seq<Row<Payment>>, u: seq<Row<Payment>>, i: nat)
    requires i < |ps| == |u| && u[..i] == ps[..i] && u[i + 1..] == ps[i + 1..]
    ensures TotalRevenue(u) - TotalRevenue(ps) == TotalRevenue([u[i]]) - TotalRevenue([ps[i]])
  {
    RevenueAround(ps, i);
    RevenueAround(u, i);
  }

  /** Processing a payment that was not yet completed raises revenue by exactly the amount entered. */
  lemma ProcessRaisesRevenue(ps: seq<Row<Payment>>, bound: Id, i: nat, amount: int, paymentMethod: string,
                             paidAt: Timestamp)
    requires WellKeyed(ps, bound) && i < |ps| && ps[i].data.status != Completed
    ensures TotalRevenue(UpdateById(ps, ps[i].id, ProcessedChange(amount, paymentMethod, paidAt)))
         == TotalRevenue(ps) + amount
  {
    var change := ProcessedChange(amount, paymentMethod, paidAt);
    var u := UpdateById(ps, ps[i].id, change);
    UpdateSplit(ps, bound, ps[i].id, change, i);
    assert u[..i] == ps[..i] && u[i + 1..] == ps[i + 1..];
    RevenueReplace(ps, u, i);
    RevenueOfOne(u[i]);
    RevenueOfOne(ps[i]);
  }

  /** A payment still to be paid: counted on the "Pembayaran Pending" card and the only kind
      offered the "Proses Bayar" button, which appears exactly beside a "Belum Lunas" badge. */
  predicate IsPendingPayment(p: Row<Payment>)
    ensures IsPendingPayment(p) <==> PaymentStatusBadge(p.data.status).text == "Belum Lunas"
  {
    p.data.status == Pending
  }

  /** The "Pembayaran Pending" card. */
  function PendingPayments(ps: seq<Row<Payment>>): (n: nat)
    ensures n <= |ps|
    ensures n == 0 <==> forall i :: 0 <= i < |ps| ==> ps[i].data.status != Pending
    ensures n == |ps| <==> forall i :: 0 <= i < |ps| ==> ps[i].data.status == Pending
  {
    Count(ps, IsPendingPayment)
  }

  /** Processing a pending payment takes it off the pending count. */
  lemma ProcessLowersPending(ps: seq<Row<Payment>>, bound: Id, i: nat, amount: int, paymentMethod: string,
                             paidAt: Timestamp)
    requires WellKeyed(ps, bound) && i < |ps| && ps[i].data.status == Pending
    ensures PendingPayments(UpdateById(ps, ps[i].id, ProcessedChange(amount, paymentMethod, paidAt)))
         == PendingPayments(ps) - 1
  {
    FilterCountUpdate(ps, bound, ps[i].id, ProcessedChange(amount, paymentMethod, paidAt), i, IsPendingPayment);
  }

  /** `getStatusBadge`: three known statuses with their labels; any other status finds
      neither a variant nor a label. */
  function PaymentStatusBadge(status: string): (b: Badge)
    ensures b.variant.None? <==> status !in {Pending, Completed, Cancelled}
    ensures b.text == "" <==> status !in {Pending, Completed, Cancelled}
    ensures (status == Pending) == (b.text == "Belum Lunas")
    ensures (status == Completed) == (b.text == "Lunas")
    ensures (status == Cancelled) == (b.text == "Dibatalkan")
  {
    if status == Pending then Badge(Some(Default), "Belum Lunas")
    else if status == Completed then Badge(Some(Secondary), "Lunas")
    else if status == Cancelled then Badge(Some(Outline), "Dibatalkan")
    else Badge(None, "")
  }

  // ---------------------------------------------------------------- handlers

  /** The payment methods the form's select offers. */
  const PaymentMethods := ["cash", "debit", "credit", "transfer"]

  /** The processing form; an empty amount is `None`. */
  datatype PaymentForm = PaymentForm(amount: Option<int>, paymentMethod: string)

  const EmptyPaymentForm := PaymentForm(None, "cash")

  class AdminDashboard {
    const store: ClinicStore
    var selectedPayment: Option<Row<Payment>>
    var dialogOpen: bool
    var paymentForm: PaymentForm

    constructor (store: ClinicStore)
      ensures this.store == store && selectedPayment.None? && !dialogOpen && paymentForm == EmptyPaymentForm
      ensures MethodOffered()
    {
      this.store := store;
      selectedPayment, dialogOpen, paymentForm := None, false, EmptyPaymentForm;
    }

    /** The form holds one of the methods the select offers. */
    predicate MethodOffered()
      reads this
    {
      paymentForm.paymentMethod in PaymentMethods
    }

    /** The method select: only an offered method can be chosen; the amount is kept. */
    method ChooseMethod(m: string)
      requires m in PaymentMethods
      modifies this`paymentForm
      ensures paymentForm == old(paymentForm).(paymentMethod := m) && MethodOffered()
    {
      paymentForm := paymentForm.(paymentMethod := m);
    }

    /** The "Proses Bayar" button: select the payment and open the dialog. */
    method SelectPayment(p: Row<Payment>)
      requires IsPendingPayment(p)
      modifies this`selectedPayment, this`dialogOpen
      ensures selectedPayment == Some(p) && dialogOpen
    {
      selectedPayment, dialogOpen := Some(p), true;
    }

    /** `handleProcessPayment`: only the selected payment is rewritten; on success the dialog
        closes, the selection is dropped and the form resets; on error all three are kept.
        The amount field is required and a method is always chosen. */
    method ProcessPayment(now: Timestamp, accepted: bool) returns (ok: bool)
      requires store.Valid() && selectedPayment.Some? && paymentForm.amount.Some?
      modifies this`selectedPayment, this`dialogOpen, this`paymentForm, store`payments
      ensures store.Valid() && ok == accepted
      ensures store.payments ==
        if accepted then UpdateById(old(store.payments), old(selectedPayment).value.id,
                                    ProcessedChange(old(paymentForm).amount.value, old(paymentForm).paymentMethod, now))
        else old(store.payments)
      ensures old(store.ReferencesIntact()) ==> store.ReferencesIntact()
      ensures accepted ==> !dialogOpen && selectedPayment.None? && paymentForm == EmptyPaymentForm
      ensures old(MethodOffered()) ==> MethodOffered()
      ensures !accepted ==>
        dialogOpen == old(dialogOpen) && selectedPayment == old(selectedPayment) && paymentForm == old(paymentForm)
    {
      var change := ProcessedChange(paymentForm.amount.value, paymentForm.paymentMethod, now);
      ghost var pay0 := store.payments;
      ok := store.UpdatePayment(selectedPayment.value.id, change, accepted);
      if ok {
        if old(store.ReferencesIntact()) {
          PaymentUpdateIntact(store.examinations, store.prescriptions, store.prescriptionItems, pay0,
                              old(selectedPayment).value.id, change);
        }
        dialogOpen, selectedPayment, paymentForm := false, None, EmptyPaymentForm;
      }
    }
  }
}
