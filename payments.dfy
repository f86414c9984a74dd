/** The admin payments page of src/admin/pages/Payments.tsx: the status and
    method filters over the payment list, the revenue and refund totals,
    the counts, the refund action and the page count of the table. */
module AdminPayments {
  import opened Lists

  datatype PayMethod = Card | Kakao | Naver
  datatype PaymentStatus = Completed | Failed | Refunded
  datatype PlanName = Basic | Pro

  /** `MockPayment` of src/admin/utils/mockData.ts (the optional last four
      card digits are not used by the page logic). */
  datatype MockPayment = MockPayment(id: string, userId: string, userName: string, amount: int, payMethod: PayMethod,
                                     status: PaymentStatus, plan: PlanName, createdAt: string)

  /** The string a status has in the data and in the filter select. */
  function StatusName(s: PaymentStatus): string {
    match s
    case Completed => "completed"
    case Failed => "failed"
    case Refunded => "refunded"
  }

  function MethodName(m: PayMethod): string {
    match m
    case Card => "card"
    case Kakao => "kakao"
    case Naver => "naver"
  }

  /** A select filter: `"all"`, or equal to the value's name. */
  predicate Matches(filter: string, name: string) {
    filter == "all" || name == filter
  }

  predicate Kept(statusFilter: string, methodFilter: string, p: MockPayment) {
    Matches(statusFilter, StatusName(p.status)) && Matches(methodFilter, MethodName(p.payMethod))
  }

  /** `filteredPayments`: the payments both filters keep, in list order. */
  function FilteredPayments(payments: seq<MockPayment>, statusFilter: string, methodFilter: string): (r: seq<MockPayment>)
    ensures forall i :: 0 <= i < |r| ==> r[i] in payments && Kept(statusFilter, methodFilter, r[i])
    ensures forall i :: 0 <= i < |payments| && Kept(statusFilter, methodFilter, payments[i]) ==> payments[i] in r
    ensures forall p :: multiset(r)[p] == if Kept(statusFilter, methodFilter, p) then multiset(payments)[p] else 0
  {
    FilterMultiplicity(payments, p => Kept(statusFilter, methodFilter, p));
    Filter(payments, p => Kept(statusFilter, methodFilter, p))
  }

  /** The filtered list keeps the order of the payments it keeps; with both
      filters at "all" it is the whole list; a status filter set to a
      status's name keeps exactly the payments with that status. */
  lemma FilteredPaymentsShape(payments: seq<MockPayment>, statusFilter: string, methodFilter: string, st: PaymentStatus)
    ensures IsSubsequence(FilteredPayments(payments, statusFilter, methodFilter), payments)
    ensures FilteredPayments(payments, "all", "all") == payments
    ensures forall i :: 0 <= i < |FilteredPayments(payments, StatusName(st), methodFilter)| ==>
              FilteredPayments(payments, StatusName(st), methodFilter)[i].status == st
  {
    assert IsSubsequence(FilteredPayments(payments, statusFilter, methodFilter), payments) by {
      FilterIsSubsequence(payments, p => Kept(statusFilter, methodFilter, p));
    }
    assert FilteredPayments(payments, "all", "all") == payments by {
      FilterAllPass(payments, p => Kept("all", "all", p));
    }
    StatusFilterKeepsStatus(payments, methodFilter, st);
  }

  lemma StatusFilterKeepsStatus(payments: seq<MockPayment>, methodFilter: string, st: PaymentStatus)
    ensures forall i :: 0 <= i < |FilteredPayments(payments, StatusName(st), methodFilter)| ==>
              FilteredPayments(payments, StatusName(st), methodFilter)[i].status == st
  {
    var r := FilteredPayments(payments, StatusName(st), methodFilter);
    forall i | 0 <= i < |r|
      ensures r[i].status == st
    {
      assert Matches(StatusName(st), StatusName(r[i].status));
    }
  }

  predicate IsCompleted(p: MockPayment) {
    p.status == Completed
  }

  predicate IsRefunded(p: MockPayment) {
    p.status == Refunded
  }

  predicate IsFailed(p: MockPayment) {
    p.status == Failed
  }

  predicate CompletedOrRefunded(p: MockPayment) {
    p.status == Completed || p.status == Refunded
  }

  predicate AnyPayment(p: MockPayment) {
    true
  }

  function Amount(p: MockPayment): int {
    p.amount
  }

  /** `totalRevenue`: the amounts of the completed payments. */
  function TotalRevenue(payments: seq<MockPayment>): int {
    Sum(Filter(payments, IsCompleted), Amount)
  }

  /** `refundedAmount`: the amounts of the refunded payments. */
  function RefundedAmount(payments: seq<MockPayment>): int {
    Sum(Filter(payments, IsRefunded), Amount)
  }

  function CompletedCount(payments: seq<MockPayment>): nat {
    |Filter(payments, IsCompleted)|
  }

  function RefundedCount(payments: seq<MockPayment>): nat {
    |Filter(payments, IsRefunded)|
  }

  /** Appending a payment adds its amount to the revenue exactly when it
      is completed, and to the refunded amount exactly when it is refunded;
      the counts move the same way. */
  lemma TotalsAppend(payments: seq<MockPayment>, p: MockPayment)
    ensures TotalRevenue(payments + [p]) == TotalRevenue(payments) + (if p.status == Completed then p.amount else 0)
    ensures RefundedAmount(payments + [p]) == RefundedAmount(payments) + (if p.status == Refunded then p.amount else 0)
    ensures CompletedCount(payments + [p]) == CompletedCount(payments) + (if p.status == Completed then 1 else 0)
    ensures RefundedCount(payments + [p]) == RefundedCount(payments) + (if p.status == Refunded then 1 else 0)
  {
    FilterConcat(payments, [p], IsCompleted);
    FilterConcat(payments, [p], IsRefunded);
    assert [p][1..] == [];
    SumConcat(Filter(payments, IsCompleted), Filter([p], IsCompleted), Amount);
    SumConcat(Filter(payments, IsRefunded), Filter([p], IsRefunded), Amount);
  }

  /** Every payment is completed, refunded or failed: revenue, refunds and
      failed amounts add up to the amount of all payments, and the counts
      to the number of payments. */
  lemma TotalsPartition(payments: seq<MockPayment>)
    ensures TotalRevenue(payments) + RefundedAmount(payments) + Sum(Filter(payments, IsFailed), Amount) ==
            Sum(payments, Amount)
    ensures CompletedCount(payments) + RefundedCount(payments) + |Filter(payments, IsFailed)| == |payments|
  {
    var settled := Filter(payments, CompletedOrRefunded);
    var all := Filter(payments, AnyPayment);
    assert TotalRevenue(payments) + RefundedAmount(payments) == Sum(settled, Amount) &&
           CompletedCount(payments) + RefundedCount(payments) == |settled| by {
      FilterSplit(payments, IsCompleted, IsRefunded, CompletedOrRefunded, Amount);
    }
    assert Sum(settled, Amount) + Sum(Filter(payments, IsFailed), Amount) == Sum(all, Amount) &&
           |settled| + |Filter(payments, IsFailed)| == |all| by {
      FilterSplit(payments, CompletedOrRefunded, IsFailed, AnyPayment, Amount);
    }
    FilterAllPass(payments, AnyPayment);
  }

  /** The refund button is rendered only in rows of completed payments. */
  function RefundOffered(p: MockPayment): (offered: bool)
    ensures offered <==> StatusName(p.status) == "completed"
  {
    p.status == Completed
  }
}
