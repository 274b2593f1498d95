/**
 * The dashboard's figures (project/src/components/Dashboard.tsx): the two
 * revenue totals folded over the invoice list, the five most recent
 * invoices and the two counts.
 */
module Dashboard {
  import opened Js
  import opened Types

  /** `invoice.total_amount || 0`. */
  function Amount(invoice: Invoice): real {
    OrNumber(invoice.totalAmount, 0.0)
  }

  /** `invoices.reduce((sum, invoice) => sum + (invoice.total_amount || 0), acc)`, left to right. */
  function Reduce(acc: real, invoices: seq<Invoice>): (r: real)
    ensures AmountsNonNegative(invoices) ==> r >= acc
    decreases |invoices|
  {
    if invoices == [] then acc else Reduce(acc + Amount(invoices[0]), invoices[1..])
  }

  /** The reference sum of the amounts, independent of any accumulator. */
  function SumOfAmounts(invoices: seq<Invoice>): real
    decreases |invoices|
  {
    if invoices == [] then 0.0 else Amount(invoices[0]) + SumOfAmounts(invoices[1..])
  }

  /** The fold adds the plain sum to its starting value. */
  lemma {:induction false} ReduceIsSum(acc: real, invoices: seq<Invoice>)
    ensures Reduce(acc, invoices) == acc + SumOfAmounts(invoices)
    decreases |invoices|
  {
    if invoices != [] {
      ReduceIsSum(acc + Amount(invoices[0]), invoices[1..]);
    }
  }

  /** The total-revenue card: the fold from 0 over every invoice. */
  function TotalRevenue(invoices: seq<Invoice>): (r: real)
    ensures AmountsNonNegative(invoices) ==> r >= 0.0
  {
    Reduce(0.0, invoices)
  }

  predicate IsPaid(invoice: Invoice) {
    invoice.status == Paid
  }

  /** `invoices.filter(inv => inv.status === 'paid')`. */
  function PaidInvoices(invoices: seq<Invoice>): seq<Invoice> {
    Filter(invoices, IsPaid)
  }

  /** The paid-revenue card: the fold from 0 over the paid invoices. */
  function PaidRevenue(invoices: seq<Invoice>): real {
    Reduce(0.0, PaidInvoices(invoices))
  }

  predicate AmountsNonNegative(invoices: seq<Invoice>) {
    forall i :: 0 <= i < |invoices| ==> Amount(invoices[i]) >= 0.0
  }

  /** The paid sum and the unpaid sum make up the whole sum. */
  lemma {:induction false} SumSplitsByStatus(invoices: seq<Invoice>)
    ensures SumOfAmounts(invoices) ==
      SumOfAmounts(Filter(invoices, IsPaid)) + SumOfAmounts(Filter(invoices, (inv: Invoice) => !IsPaid(inv)))
    decreases |invoices|
  {
    if invoices != [] {
      SumSplitsByStatus(invoices[1..]);
    }
  }

  /** A sum of non-negative amounts is non-negative. */
  lemma {:induction false} SumNonNegative(invoices: seq<Invoice>)
    requires AmountsNonNegative(invoices)
    ensures SumOfAmounts(invoices) >= 0.0
    decreases |invoices|
  {
    if invoices != [] {
      SumNonNegative(invoices[1..]);
    }
  }

  /** Total revenue is paid revenue plus the revenue of every other invoice. */
  lemma RevenueSplits(invoices: seq<Invoice>)
    ensures TotalRevenue(invoices) ==
      PaidRevenue(invoices) + Reduce(0.0, Filter(invoices, (inv: Invoice) => !IsPaid(inv)))
  {
    ReduceIsSum(0.0, invoices);
    ReduceIsSum(0.0, PaidInvoices(invoices));
    ReduceIsSum(0.0, Filter(invoices, (inv: Invoice) => !IsPaid(inv)));
    SumSplitsByStatus(invoices);
  }

  /** With non-negative amounts the paid revenue never exceeds the total revenue. */
  lemma PaidAtMostTotal(invoices: seq<Invoice>)
    requires AmountsNonNegative(invoices)
    ensures 0.0 <= PaidRevenue(invoices) <= TotalRevenue(invoices)
  {
    var unpaid := Filter(invoices, (inv: Invoice) => !IsPaid(inv));
    RevenueSplits(invoices);
    ReduceIsSum(0.0, unpaid);
    ReduceIsSum(0.0, PaidInvoices(invoices));
    forall i | 0 <= i < |unpaid| ensures Amount(unpaid[i]) >= 0.0 {
      assert unpaid[i] in invoices;
    }
    SumNonNegative(unpaid);
    forall i | 0 <= i < |PaidInvoices(invoices)| ensures Amount(PaidInvoices(invoices)[i]) >= 0.0 {
      assert PaidInvoices(invoices)[i] in invoices;
    }
    SumNonNegative(PaidInvoices(invoices));
  }

  /** `invoices.slice(0, 5)`: the first five invoices, or all of them when there are fewer. */
  function RecentInvoices(invoices: seq<Invoice>): (r: seq<Invoice>)
    ensures |r| == if |invoices| < 5 then |invoices| else 5
    ensures r == invoices[..|r|]
  {
    if |invoices| <= 5 then invoices else invoices[..5]
  }

  datatype Stats = Stats(totalInvoices: nat, totalClients: nat, totalRevenue: real, paidRevenue: real)

  /** The four stat cards. */
  function DashboardStats(invoices: seq<Invoice>, clients: seq<Client>): (s: Stats)
    ensures s.totalInvoices == |invoices| && s.totalClients == |clients|
  {
    Stats(|invoices|, |clients|, TotalRevenue(invoices), PaidRevenue(invoices))
  }

  /** No invoices: both revenues are 0 and the recent table shows its empty row. */
  lemma EmptyDashboard(clients: seq<Client>)
    ensures DashboardStats([], clients).totalRevenue == 0.0
    ensures DashboardStats([], clients).paidRevenue == 0.0
    ensures RecentInvoices([]) == []
  {
  }

  /** The recent table is empty exactly when there are no invoices at all. */
  lemma RecentEmptyIffNoInvoices(invoices: seq<Invoice>)
    ensures RecentInvoices(invoices) == [] <==> invoices == []
  {
  }
}
