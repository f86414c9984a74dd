/** The admin subscriptions page of src/admin/pages/Subscriptions.tsx: the
    plan and status filters and the active, pro and basic counts. The page
    count of its table is Lists.TablePages. */
module AdminSubscriptions {
  import opened Lists

  /** A subscription's plan is basic or pro (src/admin/utils/mockData.ts). */
  datatype SubPlan = Basic | Pro
  datatype SubStatus = Active | Cancelled | Expired

  datatype MockSubscription = MockSubscription(id: string, userId: string, userName: string, userEmail: string,
                                               plan: SubPlan, status: SubStatus, startDate: string, endDate: string,
                                               amount: int)

  function PlanName(p: SubPlan): string {
    match p
    case Basic => "basic"
    case Pro => "pro"
  }

  function StatusName(s: SubStatus): string {
    match s
    case Active => "active"
    case Cancelled => "cancelled"
    case Expired => "expired"
  }

  predicate Kept(planFilter: string, statusFilter: string, s: MockSubscription) {
    (planFilter == "all" || PlanName(s.plan) == planFilter) &&
    (statusFilter == "all" || StatusName(s.status) == statusFilter)
  }

  /** `filteredSubscriptions`: the subscriptions both filters keep, in
      list order. */
  function FilteredSubscriptions(subs: seq<MockSubscription>, planFilter: string, statusFilter: string)
    : (r: seq<MockSubscription>)
    ensures forall i :: 0 <= i < |r| ==> r[i] in subs && Kept(planFilter, statusFilter, r[i])
    ensures forall i :: 0 <= i < |subs| && Kept(planFilter, statusFilter, subs[i]) ==> subs[i] in r
    ensures forall s :: multiset(r)[s] == if Kept(planFilter, statusFilter, s) then multiset(subs)[s] else 0
  {
    FilterMultiplicity(subs, s => Kept(planFilter, statusFilter, s));
    Filter(subs, s => Kept(planFilter, statusFilter, s))
  }

  /** The filtered list keeps the list order; with both filters at "all"
      it is the whole list; a plan filter set to a plan's name keeps only
      subscriptions to that plan. */
  lemma FilteredSubscriptionsShape(subs: seq<MockSubscription>, planFilter: string, statusFilter: string,
                                   plan: SubPlan)
    ensures IsSubsequence(FilteredSubscriptions(subs, planFilter, statusFilter), subs)
    ensures FilteredSubscriptions(subs, "all", "all") == subs
    ensures forall i :: 0 <= i < |FilteredSubscriptions(subs, PlanName(plan), statusFilter)| ==>
              FilteredSubscriptions(subs, PlanName(plan), statusFilter)[i].plan == plan
  {
    assert IsSubsequence(FilteredSubscriptions(subs, planFilter, statusFilter), subs) by {
      FilterIsSubsequence(subs, s => Kept(planFilter, statusFilter, s));
    }
    assert FilteredSubscriptions(subs, "all", "all") == subs by {
      FilterAllPass(subs, s => Kept("all", "all", s));
    }
    PlanFilterKeepsPlan(subs, statusFilter, plan);
  }

  lemma PlanFilterKeepsPlan(subs: seq<MockSubscription>, statusFilter: string, plan: SubPlan)
    ensures forall i :: 0 <= i < |FilteredSubscriptions(subs, PlanName(plan), statusFilter)| ==>
              FilteredSubscriptions(subs, PlanName(plan), statusFilter)[i].plan == plan
  {
    var r := FilteredSubscriptions(subs, PlanName(plan), statusFilter);
    forall i | 0 <= i < |r|
      ensures r[i].plan == plan
    {
      assert PlanName(r[i].plan) == PlanName(plan);
    }
  }

  predicate IsActive(s: MockSubscription) {
    s.status == Active
  }

  predicate ActivePro(s: MockSubscription) {
    s.plan == Pro && s.status == Active
  }

  predicate ActiveBasic(s: MockSubscription) {
    s.plan == Basic && s.status == Active
  }

  function Amount(s: MockSubscription): int {
    s.amount
  }

  /** `activeCount`, `proCount`, `basicCount`: the last two count active
      subscriptions only. */
  function ActiveCount(subs: seq<MockSubscription>): nat {
    |Filter(subs, IsActive)|
  }

  function ProCount(subs: seq<MockSubscription>): nat {
    |Filter(subs, ActivePro)|
  }

  function BasicCount(subs: seq<MockSubscription>): nat {
    |Filter(subs, ActiveBasic)|
  }

  /** Every active subscription is to exactly one of the two plans, so the
      pro and basic counts add up to the active count, and the amounts of
      active subscriptions split the same way. */
  lemma PlanCountsPartition(subs: seq<MockSubscription>)
    ensures ProCount(subs) + BasicCount(subs) == ActiveCount(subs)
    ensures Sum(Filter(subs, ActivePro), Amount) + Sum(Filter(subs, ActiveBasic), Amount) ==
            Sum(Filter(subs, IsActive), Amount)
  {
    FilterSplit(subs, ActivePro, ActiveBasic, IsActive, Amount);
  }

  /** Appending a subscription raises the active count exactly when it is
      active, and the pro count exactly when it is an active pro one. */
  lemma CountsAppend(subs: seq<MockSubscription>, s: MockSubscription)
    ensures ActiveCount(subs + [s]) == ActiveCount(subs) + (if s.status == Active then 1 else 0)
    ensures ProCount(subs + [s]) == ProCount(subs) + (if s.status == Active && s.plan == Pro then 1 else 0)
  {
    FilterConcat(subs, [s], IsActive);
    FilterConcat(subs, [s], ActivePro);
    assert [s][1..] == [];
  }
}
