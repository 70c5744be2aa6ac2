/** The derived figures of the dashboard screen: the group-summary totals and
    their collection rate, the running billing cycle with its plan name and
    rate, the list of upcoming dues, and the recent activity feed. */
module DashboardTab {
  import opened Wrappers
  import opened Seqs
  import opened CollectionsTypes
  import opened CollectionsData

  // ---------------------------------------------------------------------
  // Totals
  // ---------------------------------------------------------------------

  /** The footer totals of the group summaries and their collection rate. */
  function DashboardTotals(customers: seq<Customer>, groups: seq<CustomerGroup>): (r: SummaryTotals)
    ensures DistinctGroupIds(groups) ==>
      var covered := Filter(customers, InAnyGroup(GroupIds(groups)));
      && r.customerCount == |covered|
      && r.expected == SumOf(covered, DueOf)
      && r.collected == SumOf(covered, PaidOf)
      && r.overdue == SumOf(covered, OverdueOf)
  {
    var t := TotalOfSummaries(ComputeGroupSummaries(customers, groups));
    if DistinctGroupIds(groups) then SummaryTotalsOverCustomers(customers, groups); t else t
  }

  /** `totalCollectionRate`: 0 unless something is expected, the collected
      share as a percentage otherwise. */
  function TotalCollectionRate(t: SummaryTotals): (r: real)
    ensures t.expected <= 0 ==> r == 0.0
    ensures t.expected > 0 ==> r * (t.expected as real) == (t.collected as real) * 100.0
  {
    Rate(t.collected, t.expected)
  }

  /** Every customer is in a listed group. */
  predicate AllInKnownGroups(customers: seq<Customer>, groups: seq<CustomerGroup>) {
    forall c :: c in customers ==> c.groupId in GroupIds(groups)
  }

  /** Nobody is suspended. */
  predicate NoneSuspended(customers: seq<Customer>) {
    forall c :: c in customers ==> c.status != Suspended
  }

  /** When every customer belongs to one of the (distinctly named) groups and
      nobody is suspended, the dashboard totals agree with the portfolio
      statistics: the same expected, collected and overdue amounts, the same
      rate, and as many customers as the statistics include. */
  lemma DashboardTotalsMatchStats(customers: seq<Customer>, groups: seq<CustomerGroup>)
    requires DistinctGroupIds(groups)
    requires AllInKnownGroups(customers, groups) && NoneSuspended(customers)
    ensures var t, st := DashboardTotals(customers, groups), ComputeCollectionStats(customers);
      && t.expected == st.totalExpected
      && t.collected == st.totalCollected
      && t.overdue == st.totalOverdue
      && t.customerCount == |Filter(customers, CountsInStats)|
      && TotalCollectionRate(t) == st.collectionRate
  {
    SummaryTotalsOverCustomers(customers, groups);
    FilterAgree(customers, InAnyGroup(GroupIds(groups)), CountsInStats);
  }

  // ---------------------------------------------------------------------
  // The running billing cycle
  // ---------------------------------------------------------------------

  predicate CycleIsActive(c: BillingCycle) { c.status == CycleActive }

  /** `activeBillingCycle`: the first cycle whose status is active, if any. */
  function ActiveBillingCycle(cycles: seq<BillingCycle>): (r: Option<BillingCycle>)
    ensures r.None? <==> forall c :: c in cycles ==> c.status != CycleActive
    ensures r.Some? ==> exists i :: (0 <= i < |cycles| && cycles[i] == r.value && r.value.status == CycleActive
      && forall j :: 0 <= j < i ==> cycles[j].status != CycleActive)
  {
    Find(cycles, CycleIsActive)
  }

  function PlanIdIs(key: string): PricingPlan -> bool { (p: PricingPlan) => p.id == key }

  /** `activeCyclePlanName`: empty without a running cycle; otherwise the name
      of the first plan with the cycle's plan id, or that id itself when no
      plan has it. */
  function ActiveCyclePlanName(cycles: seq<BillingCycle>, plans: seq<PricingPlan>): (r: string)
    ensures ActiveBillingCycle(cycles).None? ==> r == ""
    ensures ActiveBillingCycle(cycles).Some? ==>
      var pid := ActiveBillingCycle(cycles).value.pricingPlanId;
      && ((forall p :: p in plans ==> p.id != pid) ==> r == pid)
      && ((exists p :: p in plans && p.id == pid) ==>
            exists i :: 0 <= i < |plans| && plans[i].id == pid && r == plans[i].name
              && forall j :: 0 <= j < i ==> plans[j].id != pid)
  {
    match ActiveBillingCycle(cycles)
    case None => ""
    case Some(cycle) =>
      match Find(plans, PlanIdIs(cycle.pricingPlanId))
      case Some(plan) => plan.name
      case None => cycle.pricingPlanId
  }

  /** `activeCycleCollectionRate`: 0 without a running cycle or when its
      expected total is exactly 0 (a negative expected total still gives a
      quotient), collected/expected as a percentage otherwise. */
  function ActiveCycleCollectionRate(cycles: seq<BillingCycle>): (r: real)
    ensures ActiveBillingCycle(cycles).None? ==> r == 0.0
    ensures ActiveBillingCycle(cycles).Some? ==>
      var c := ActiveBillingCycle(cycles).value;
      && (c.totalExpected == 0 ==> r == 0.0)
      && (c.totalExpected != 0 ==> r * (c.totalExpected as real) == (c.totalCollected as real) * 100.0)
    ensures ActiveBillingCycle(cycles).Some? && 0 <= ActiveBillingCycle(cycles).value.totalCollected <= ActiveBillingCycle(cycles).value.totalExpected
      ==> 0.0 <= r <= 100.0
  {
    match ActiveBillingCycle(cycles)
    case None => 0.0
    case Some(c) =>
      if c.totalExpected == 0 then 0.0
      else
        var q := (c.totalCollected as real) / (c.totalExpected as real);
        assert 0 <= c.totalCollected <= c.totalExpected ==> 0.0 <= q <= 1.0;
        q * 100.0
  }

  // ---------------------------------------------------------------------
  // Upcoming dues
  // ---------------------------------------------------------------------

  /** One row of the upcoming-dues list. */
  datatype DueEntry = DueEntry(customerName: string, labelText: string, amount: int, dueDate: string)

  /** `customer?.name ?? 'Unknown'` for the first customer with the record id. */
  function CustomerNameFor(customers: seq<Customer>, customerKey: string): (r: string)
    ensures (forall c :: c in customers ==> c.id != customerKey) ==> r == "Unknown"
    ensures (exists c :: c in customers && c.id == customerKey) ==>
      exists i :: 0 <= i < |customers| && customers[i].id == customerKey && r == customers[i].name
        && forall j :: 0 <= j < i ==> customers[j].id != customerKey
  {
    match Find(customers, CustomerIdIs(customerKey))
    case Some(c) => c.name
    case None => "Unknown"
  }

  predicate IsUpcoming(i: Installment) { i.status == Upcoming }

  function EntryFor(name: string, i: Installment): DueEntry {
    DueEntry(name, i.labelText, i.amount, i.dueDate)
  }

  /** The entries one schedule contributes: one per upcoming installment, in
      installment order. */
  function ScheduleDues(name: string, installments: seq<Installment>): seq<DueEntry>
  {
    if |installments| == 0 then []
    else
      var init, last := installments[..|installments| - 1], installments[|installments| - 1];
      ScheduleDues(name, init) + (if IsUpcoming(last) then [EntryFor(name, last)] else [])
  }

  /** A schedule's entries are its upcoming installments, in order, each
      named after the schedule's customer. */
  lemma {:induction false} ScheduleDuesMatchUpcoming(name: string, installments: seq<Installment>)
    ensures var r, up := ScheduleDues(name, installments), Filter(installments, IsUpcoming);
      |r| == |up| && forall k :: 0 <= k < |r| ==> r[k] == EntryFor(name, up[k])
    decreases |installments|
  {
    if |installments| > 0 {
      ScheduleDuesMatchUpcoming(name, installments[..|installments| - 1]);
    }
  }

  /** Every entry of every schedule, schedule by schedule. */
  function AllDues(schedules: seq<PaymentSchedule>, customers: seq<Customer>): seq<DueEntry>
  {
    if |schedules| == 0 then []
    else
      var s := schedules[|schedules| - 1];
      AllDues(schedules[..|schedules| - 1], customers) + ScheduleDues(CustomerNameFor(customers, s.customerId), s.installments)
  }

  /** Each entry of the full list is an upcoming installment of one of the
      schedules, named after that schedule's customer. */
  lemma {:induction false} AllDuesAreUpcoming(schedules: seq<PaymentSchedule>, customers: seq<Customer>, e: DueEntry)
    requires e in AllDues(schedules, customers)
    ensures exists s, i :: (s in schedules && i in s.installments && i.status == Upcoming
      && e == EntryFor(CustomerNameFor(customers, s.customerId), i))
    decreases |schedules|
  {
    var init, s := schedules[..|schedules| - 1], schedules[|schedules| - 1];
    var d := ScheduleDues(CustomerNameFor(customers, s.customerId), s.installments);
    ScheduleDuesMatchUpcoming(CustomerNameFor(customers, s.customerId), s.installments);
    if e in AllDues(init, customers) {
      AllDuesAreUpcoming(init, customers, e);
      assert forall t :: t in init ==> t in schedules;
    } else {
      assert e in d;
      var up := Filter(s.installments, IsUpcoming);
      var k :| 0 <= k < |d| && d[k] == e;
      assert up[k] in up;
    }
  }

  /** The list holds one entry per upcoming installment of all schedules. */
  lemma {:induction false} AllDuesCount(schedules: seq<PaymentSchedule>, customers: seq<Customer>)
    ensures |AllDues(schedules, customers)| == SumOf(schedules, UpcomingCount)
    decreases |schedules|
  {
    if |schedules| > 0 {
      AllDuesCount(schedules[..|schedules| - 1], customers);
      var s := schedules[|schedules| - 1];
      ScheduleDuesMatchUpcoming(CustomerNameFor(customers, s.customerId), s.installments);
    }
  }

  function UpcomingCount(s: PaymentSchedule): int { |Filter(s.installments, IsUpcoming)| }

  /** One more installment adds its entry to the list pushed so far when it
      is upcoming, and nothing otherwise. */
  lemma PushStep(dues: seq<DueEntry>, out: seq<DueEntry>, name: string, installments: seq<Installment>, k: nat)
    requires k < |installments|
    requires out == dues + ScheduleDues(name, installments[..k])
    ensures IsUpcoming(installments[k]) ==> out + [EntryFor(name, installments[k])] == dues + ScheduleDues(name, installments[..k + 1])
    ensures !IsUpcoming(installments[k]) ==> out == dues + ScheduleDues(name, installments[..k + 1])
  {
    assert installments[..k + 1][..k] == installments[..k];
  }

  /** The inner loop of `upcomingDues`: push an entry for each upcoming
      installment of one schedule, looking its customer up by record id. */
  method PushScheduleDues(dues: seq<DueEntry>, schedule: PaymentSchedule, customers: seq<Customer>) returns (out: seq<DueEntry>)
    ensures out == dues + ScheduleDues(CustomerNameFor(customers, schedule.customerId), schedule.installments)
  {
    ghost var owner := CustomerNameFor(customers, schedule.customerId);
    out := dues;
    var k := 0;
    while k < |schedule.installments|
      invariant 0 <= k <= |schedule.installments|
      invariant out == dues + ScheduleDues(owner, schedule.installments[..k])
    {
      var installment := schedule.installments[k];
      PushStep(dues, out, owner, schedule.installments, k);
      if installment.status == Upcoming {
        var name := CustomerNameFor(customers, schedule.customerId);
        out := out + [EntryFor(name, installment)];
      }
      k := k + 1;
    }
    assert schedule.installments[..k] == schedule.installments;
  }

  /** `upcomingDues`: the loop over the schedules pushes an entry per
      upcoming installment; the first five entries are kept. */
  method UpcomingDues(schedules: seq<PaymentSchedule>, customers: seq<Customer>) returns (dues: seq<DueEntry>)
    ensures dues == Take(AllDues(schedules, customers), 5)
    ensures |dues| <= 5
  {
    var all: seq<DueEntry> := [];
    var s := 0;
    while s < |schedules|
      invariant 0 <= s <= |schedules|
      invariant all == AllDues(schedules[..s], customers)
    {
      all := PushScheduleDues(all, schedules[s], customers);
      assert schedules[..s + 1][..s] == schedules[..s];
      s := s + 1;
    }
    assert schedules[..s] == schedules;
    dues := Take(all, 5);
  }

  // ---------------------------------------------------------------------
  // Recent activity
  // ---------------------------------------------------------------------

  /** `recentItems`: the first eight activity items, in order. */
  function RecentItems(items: seq<ActivityItem>): (r: seq<ActivityItem>)
    ensures |r| == if |items| < 8 then |items| else 8
    ensures r == items[..|r|]
  {
    Take(items, 8)
  }
}
