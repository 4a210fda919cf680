/** The owner's dashboard: read-only figures over the whole clinic. */
module DashboardPemilik {
  import opened Schema
  import opened Query
  import DashboardAdministrasi

  // ---------------------------------------------------------------- revenue

  /** `.eq("status", "completed")`, applied by the server. */
  function IsCompletedPayment(): Row<Payment> -> bool
  {
    (p: Row<Payment>) => p.data.status == Completed
  }

  /** `reduce((sum, p) => sum + p.amount, 0)` over the rows returned, folded left to right. */
  function SumAmounts(ps: seq<Row<Payment>>): (r: int)
    ensures (forall i :: 0 <= i < |ps| ==> ps[i].data.amount >= 0) ==> r >= 0
  {
    if ps == [] then 0
    else
      var init := ps[..|ps| - 1];
      SumAmounts(init) + ps[|ps| - 1].data.amount
  }

  /** The owner's revenue, summed over the completed rows the server returns, is the
      administration dashboard's total, filtered and summed on the client. */
  lemma {:induction false} RevenueAgrees(ps: seq<Row<Payment>>)
    ensures SumAmounts(Filter(ps, IsCompletedPayment())) == DashboardAdministrasi.TotalRevenue(ps)
  {
    if ps != [] {
      var init, last := ps[..|ps| - 1], ps[|ps| - 1];
      assert ps == init + [last];
      RevenueAgrees(init);
      FilterSnoc(init, last, IsCompletedPayment());
      DashboardAdministrasi.RevenueAppend(init, last);
      if last.data.status == Completed {
        SumAmountsSnoc(Filter(init, IsCompletedPayment()), last);
      } else {
        assert Filter(init, IsCompletedPayment()) + [] == Filter(init, IsCompletedPayment());
      }
    }
  }

  lemma SumAmountsSnoc(ps: seq<Row<Payment>>, row: Row<Payment>)
    ensures SumAmounts(ps + [row]) == SumAmounts(ps) + row.data.amount
  {
    assert (ps + [row])[..|ps|] == ps;
  }

  /** One more completed payment of amount X raises the owner's revenue by X; any other
      payment leaves it as it was. */
  lemma RevenueAddPayment(ps: seq<Row<Payment>>, row: Row<Payment>)
    ensures SumAmounts(Filter(ps + [row], IsCompletedPayment()))
         == SumAmounts(Filter(ps, IsCompletedPayment())) + (if row.data.status == Completed then row.data.amount else 0)
  {
    RevenueAgrees(ps);
    RevenueAgrees(ps + [row]);
    DashboardAdministrasi.RevenueAppend(ps, row);
  }

  // ---------------------------------------------------------------- rating

  /** The total of the star ratings; with ratings from one to five stars it lies between one
      and five stars per row. */
  function SumRatings(fb: seq<Row<Feedback>>): (r: int)
    ensures (forall i :: 0 <= i < |fb| ==> 1 <= fb[i].data.rating <= 5) ==> |fb| <= r <= 5 * |fb|
  {
    if fb == [] then 0
    else
      var init := fb[..|fb| - 1];
      SumRatings(init) + fb[|fb| - 1].data.rating
  }

  /** The mean rating, 0 when there is no feedback. */
  function AverageRating(fb: seq<Row<Feedback>>): (r: real)
    ensures |fb| == 0 ==> r == 0.0
    ensures |fb| > 0 ==> r * (|fb| as real) == SumRatings(fb) as real
  {
    if |fb| > 0 then (SumRatings(fb) as real) / (|fb| as real) else 0.0
  }

  /** With ratings from one to five stars, a non-empty average lies between one and five. */
  lemma AverageRatingBounds(fb: seq<Row<Feedback>>)
    requires |fb| > 0
    requires forall i :: 0 <= i < |fb| ==> 1 <= fb[i].data.rating <= 5
    ensures 1.0 <= AverageRating(fb) <= 5.0
  {
    var n := |fb| as real;
    var r := AverageRating(fb);
    var total := SumRatings(fb) as real;
    assert n > 0.0 && n <= total <= 5.0 * n;
    assert r * n == total;
    assert (r - 1.0) * n == total - n >= 0.0;
    assert (5.0 - r) * n == 5.0 * n - total >= 0.0;
    PositiveFactor(r - 1.0, n);
    PositiveFactor(5.0 - r, n);
  }

  lemma PositiveFactor(x: real, n: real)
    requires n > 0.0 && x * n >= 0.0
    ensures x >= 0.0
  {
  }

  /** New feedback moves the average by its own rating: the total grows by that rating over
      one more row. */
  lemma AverageAfterFeedback(fb: seq<Row<Feedback>>, row: Row<Feedback>)
    ensures AverageRating(fb + [row]) * ((|fb| + 1) as real) == AverageRating(fb) * (|fb| as real) + row.data.rating as real
  {
    assert (fb + [row])[..|fb|] == fb;
  }

  // ---------------------------------------------------------------- figures

  datatype Stats = Stats(totalRevenue: int, totalPatients: nat, totalExaminations: nat, averageRating: real)

  /** `fetchStats`: revenue over completed payments, row counts, and the mean rating. */
  function FetchStats(payments: seq<Row<Payment>>, patients: seq<Row<Patient>>,
                      examinations: seq<Row<Examination>>, feedback: seq<Row<Feedback>>): (s: Stats)
    ensures s.totalRevenue == DashboardAdministrasi.TotalRevenue(payments)
    ensures s.totalPatients == |patients| && s.totalExaminations == |examinations|
    ensures s.averageRating == AverageRating(feedback)
  {
    RevenueAgrees(payments);
    Stats(SumAmounts(Filter(payments, IsCompletedPayment())), |patients|, |examinations|, AverageRating(feedback))
  }

  // ---------------------------------------------------------------- lists

  /** `a` may be listed before `b` under `order("paid_at", { ascending: false })`, where the
      database puts a missing payment time first: a payment without a time may precede any
      payment, and one with a time precedes no payment without one. */
  predicate PaidNoEarlier(a: Row<Payment>, b: Row<Payment>)
    ensures a.data.paidAt.None? ==> PaidNoEarlier(a, b)
    ensures a.data.paidAt.Some? && b.data.paidAt.None? ==> !PaidNoEarlier(a, b)
    ensures a.data.paidAt.Some? && b.data.paidAt.Some? ==>
              (PaidNoEarlier(a, b) <==> a.data.paidAt.value >= b.data.paidAt.value)
  {
    a.data.paidAt.None? || (b.data.paidAt.Some? && a.data.paidAt.value >= b.data.paidAt.value)
  }

  function LatestPaidFirst(): (le: (Row<Payment>, Row<Payment>) -> bool)
    ensures TotalPreorder(le)
    ensures forall a, b :: le(a, b) == PaidNoEarlier(a, b)
  {
    (a: Row<Payment>, b: Row<Payment>) => PaidNoEarlier(a, b)
  }

  /** `fetchRecentPayments`: up to ten completed payments, latest payment time first; every
      completed payment left out was paid no later than every one shown. */
  function RecentPayments(ps: seq<Row<Payment>>): (r: seq<Row<Payment>>)
    ensures |r| == if |Filter(ps, IsCompletedPayment())| <= 10 then |Filter(ps, IsCompletedPayment())| else 10
    ensures forall p :: p in r ==> p in ps && p.data.status == Completed
    ensures multiset(r) <= multiset(Filter(ps, IsCompletedPayment()))
    ensures forall i, j :: 0 <= i < j < |r| ==> PaidNoEarlier(r[i], r[j])
    ensures forall p, q :: p in r && q in ps && q.data.status == Completed && q !in r ==> PaidNoEarlier(p, q)
  {
    TopBy(ps, IsCompletedPayment(), LatestPaidFirst(), 10)
  }

  /** `fetchFeedbacks`: the ten newest feedback rows (all of them when fewer), newest first. */
  function RecentFeedback(fb: seq<Row<Feedback>>): (r: seq<Row<Feedback>>)
    ensures |r| == if |fb| <= 10 then |fb| else 10
    ensures forall f :: f in r ==> f in fb
    ensures multiset(r) <= multiset(fb)
    ensures forall i, j :: 0 <= i < j < |r| ==> r[i].createdAt >= r[j].createdAt
    ensures forall f, g :: f in r && g in fb && g !in r ==> f.createdAt >= g.createdAt
  {
    NewestN(fb, 10)
  }
}
