/** The fee-collections state container: the portfolio statistics, the
    per-group summaries, and the reducer that applies the screens' actions
    to the state. Everything here is a pure function of its arguments. */
module CollectionsData {

  import opened Wrappers
  import opened Seqs
  import opened CollectionsTypes

  // ---------------------------------------------------------------------
  // Rates
  // ---------------------------------------------------------------------

  /** `expected > 0 ? (collected / expected) * 100 : 0`, exactly. */
  function Rate(collected: int, expected: int): (r: real)
    ensures expected <= 0 ==> r == 0.0
    ensures expected > 0 ==> r * (expected as real) == (collected as real) * 100.0
    ensures expected > 0 && 0 <= collected <= expected ==> 0.0 <= r <= 100.0
  {
    if expected > 0 then ((collected as real) / (expected as real)) * 100.0 else 0.0
  }

  // ---------------------------------------------------------------------
  // Collection statistics
  // ---------------------------------------------------------------------

  function DueOf(c: Customer): int { c.totalDue }
  function PaidOf(c: Customer): int { c.totalPaid }
  function OverdueOf(c: Customer): int { c.totalOverdue }

  /** The statistics consider active and paused customers only. */
  predicate CountsInStats(c: Customer) { c.status == Active || c.status == Paused }

  /** Paid at least what is due; a customer with nothing due qualifies. */
  predicate PaidInFull(c: Customer) { c.totalPaid >= c.totalDue }

  predicate HasOverdue(c: Customer) { c.totalOverdue > 0 }

  /** Something is due and nothing has been paid yet. */
  predicate AwaitingFirstPayment(c: Customer) { c.totalPaid == 0 && c.totalDue > 0 }

  predicate OnTimeInStats(c: Customer) { CountsInStats(c) && PaidInFull(c) }
  predicate OverdueInStats(c: Customer) { CountsInStats(c) && HasOverdue(c) }
  predicate PendingInStats(c: Customer) { CountsInStats(c) && AwaitingFirstPayment(c) }

  /** `computeCollectionStats`. The late and overdue counts are the same
      count; nobody is both paid in full and awaiting a first payment. */
  function ComputeCollectionStats(customers: seq<Customer>): (r: CollectionStats)
    ensures r.lateCount == r.overdueCount
    ensures r.onTimeCount + r.pendingCount <= |Filter(customers, CountsInStats)|
    ensures r.overdueCount <= |Filter(customers, CountsInStats)|
    ensures r.totalExpected <= 0 ==> r.collectionRate == 0.0
  {
    var included := Filter(customers, CountsInStats);
    var expected := SumOf(included, DueOf);
    var collected := SumOf(included, PaidOf);
    var overdue := SumOf(included, OverdueOf);
    var paidFull := |Filter(included, PaidInFull)|;
    var overdueCount := |Filter(included, HasOverdue)|;
    var pending := |Filter(included, AwaitingFirstPayment)|;
    FilterDisjointCount(included, PaidInFull, AwaitingFirstPayment);
    CollectionStats(expected, collected, overdue, Rate(collected, expected),
                    paidFull, overdueCount, pending, overdueCount)
  }

  /** The collection rate is collected/expected as a percentage, and 0
      without anything expected. */
  lemma StatsRate(customers: seq<Customer>)
    ensures var r := ComputeCollectionStats(customers);
      && (r.totalExpected <= 0 ==> r.collectionRate == 0.0)
      && (r.totalExpected > 0 ==> r.collectionRate * (r.totalExpected as real) == (r.totalCollected as real) * 100.0)
  {
    var r := ComputeCollectionStats(customers);
    assert r.collectionRate == Rate(r.totalCollected, r.totalExpected);
  }

  /** The collection rate lies in [0, 100] when no included customer has
      paid more than is due or a negative amount. */
  lemma StatsRateBounded(customers: seq<Customer>)
    requires forall c :: c in customers && CountsInStats(c) ==> 0 <= c.totalPaid <= c.totalDue
    ensures 0.0 <= ComputeCollectionStats(customers).collectionRate <= 100.0
  {
    var included := Filter(customers, CountsInStats);
    assert forall c :: c in included ==> 0 <= c.totalPaid <= c.totalDue;
    PaidWithinDue(included);
  }

  /** Customers none of whom has paid a negative amount or more than is due
      have been paid a total within [0, total due], so their rate is a
      percentage between 0 and 100. */
  lemma PaidWithinDue(cs: seq<Customer>)
    requires forall c :: c in cs ==> 0 <= c.totalPaid <= c.totalDue
    ensures 0 <= SumOf(cs, PaidOf) <= SumOf(cs, DueOf)
    ensures 0.0 <= Rate(SumOf(cs, PaidOf), SumOf(cs, DueOf)) <= 100.0
  {
    SumOfMonotone(cs, PaidOf, DueOf);
    SumOfNonNegative(cs, PaidOf);
  }

  /** Exited and suspended customers affect no field: the statistics of a
      list are those of its active and paused customers alone. */
  lemma StatsOnlyIncluded(customers: seq<Customer>)
    ensures ComputeCollectionStats(customers) == ComputeCollectionStats(Filter(customers, CountsInStats))
  {
    FilterFilter(customers, CountsInStats, CountsInStats, CountsInStats);
  }

  /** Each statistic as a sum or count over ALL customers, in which
      customers outside the statistics contribute nothing. */
  lemma StatsOverAllCustomers(customers: seq<Customer>)
    ensures var r := ComputeCollectionStats(customers);
      && r.totalExpected == SumOf(customers, Where(CountsInStats, DueOf))
      && r.totalCollected == SumOf(customers, Where(CountsInStats, PaidOf))
      && r.totalOverdue == SumOf(customers, Where(CountsInStats, OverdueOf))
      && r.onTimeCount == |Filter(customers, OnTimeInStats)|
      && r.overdueCount == |Filter(customers, OverdueInStats)|
      && r.pendingCount == |Filter(customers, PendingInStats)|
  {
    SumOfFilter(customers, CountsInStats, DueOf);
    SumOfFilter(customers, CountsInStats, PaidOf);
    SumOfFilter(customers, CountsInStats, OverdueOf);
    FilterFilter(customers, CountsInStats, PaidInFull, OnTimeInStats);
    FilterFilter(customers, CountsInStats, HasOverdue, OverdueInStats);
    FilterFilter(customers, CountsInStats, AwaitingFirstPayment, PendingInStats);
  }

  /** The totals and counts of two lists put together are the sums of theirs. */
  lemma StatsOfConcat(a: seq<Customer>, b: seq<Customer>)
    ensures var ra, rb, r := ComputeCollectionStats(a), ComputeCollectionStats(b), ComputeCollectionStats(a + b);
      && r.totalExpected == ra.totalExpected + rb.totalExpected
      && r.totalCollected == ra.totalCollected + rb.totalCollected
      && r.totalOverdue == ra.totalOverdue + rb.totalOverdue
      && r.onTimeCount == ra.onTimeCount + rb.onTimeCount
      && r.overdueCount == ra.overdueCount + rb.overdueCount
      && r.pendingCount == ra.pendingCount + rb.pendingCount
  {
    var fa, fb := Filter(a, CountsInStats), Filter(b, CountsInStats);
    FilterConcat(a, b, CountsInStats);
    SumConcat(fa, fb, DueOf);
    SumConcat(fa, fb, PaidOf);
    SumConcat(fa, fb, OverdueOf);
    FilterConcat(fa, fb, PaidInFull);
    FilterConcat(fa, fb, HasOverdue);
    FilterConcat(fa, fb, AwaitingFirstPayment);
  }

  /** Adding an exited or suspended customer changes no statistic at all. */
  lemma StatsIgnoreExcludedCustomer(customers: seq<Customer>, c: Customer)
    requires c.status == Exited || c.status == Suspended
    ensures ComputeCollectionStats(customers + [c]) == ComputeCollectionStats(customers)
  {
    FilterConcat(customers, [c], CountsInStats);
    assert Filter([c], CountsInStats) == [] by { assert [c][..0] == []; }
    assert customers + [c] == customers + [c];
    assert Filter(customers, CountsInStats) + [] == Filter(customers, CountsInStats);
  }

  // ---------------------------------------------------------------------
  // Group summaries
  // ---------------------------------------------------------------------

  /** The customers a group's summary covers: that group, any status but exited. */
  function InGroup(groupId: string): Customer -> bool
  {
    (c: Customer) => c.groupId == groupId && c.status != Exited
  }

  /** One element of `computeGroupSummaries`: sums over the group's customers,
      stated here as sums over all customers in which the others count 0. */
  function SummarizeGroup(customers: seq<Customer>, g: CustomerGroup): (r: GroupCollectionSummary)
    ensures r.groupId == g.id && r.groupName == g.name
    ensures r.expected == SumOf(customers, Where(InGroup(g.id), DueOf))
    ensures r.collected == SumOf(customers, Where(InGroup(g.id), PaidOf))
    ensures r.overdue == SumOf(customers, Where(InGroup(g.id), OverdueOf))
    ensures r.customerCount == |Filter(customers, InGroup(g.id))| <= |customers|
    ensures r.expected <= 0 ==> r.collectionRate == 0.0
  {
    var members := Filter(customers, InGroup(g.id));
    SumOfFilter(customers, InGroup(g.id), DueOf);
    SumOfFilter(customers, InGroup(g.id), PaidOf);
    SumOfFilter(customers, InGroup(g.id), OverdueOf);
    var expected := SumOf(members, DueOf);
    var collected := SumOf(members, PaidOf);
    GroupCollectionSummary(g.id, g.name, expected, collected, SumOf(members, OverdueOf),
                           Rate(collected, expected), |members|)
  }

  /** `computeGroupSummaries`: exactly one summary per group, in group order. */
  function ComputeGroupSummaries(customers: seq<Customer>, groups: seq<CustomerGroup>): (r: seq<GroupCollectionSummary>)
    ensures |r| == |groups|
    ensures forall i :: 0 <= i < |groups| ==>
      r[i].groupId == groups[i].id && r[i].groupName == groups[i].name && r[i] == SummarizeGroup(customers, groups[i])
  {
    seq(|groups|, i requires 0 <= i < |groups| => SummarizeGroup(customers, groups[i]))
  }

  /** Unlike the statistics, a group summary does count a suspended customer. */
  lemma SuspendedCountsInGroupOnly(customers: seq<Customer>, g: CustomerGroup, c: Customer)
    requires c.status == Suspended && c.groupId == g.id
    ensures SummarizeGroup(customers + [c], g).customerCount == SummarizeGroup(customers, g).customerCount + 1
    ensures SummarizeGroup(customers + [c], g).expected == SummarizeGroup(customers, g).expected + c.totalDue
    ensures ComputeCollectionStats(customers + [c]) == ComputeCollectionStats(customers)
  {
    StatsIgnoreExcludedCustomer(customers, c);
    assert (customers + [c])[..|customers|] == customers;
  }

  function SummaryExpected(s: GroupCollectionSummary): int { s.expected }
  function SummaryCollected(s: GroupCollectionSummary): int { s.collected }
  function SummaryOverdue(s: GroupCollectionSummary): int { s.overdue }
  function SummaryCustomers(s: GroupCollectionSummary): int { s.customerCount }

  function GroupIds(groups: seq<CustomerGroup>): (r: seq<string>)
    ensures |r| == |groups| && forall i :: 0 <= i < |groups| ==> r[i] == groups[i].id
  {
    seq(|groups|, i requires 0 <= i < |groups| => groups[i].id)
  }

  predicate DistinctGroupIds(groups: seq<CustomerGroup>) {
    forall i, j :: 0 <= i < j < |groups| ==> groups[i].id != groups[j].id
  }

  /** Non-exited customers whose group is one of `ids`. */
  function InAnyGroup(ids: seq<string>): Customer -> bool
  {
    (c: Customer) => c.status != Exited && c.groupId in ids
  }

  /** With distinct group ids the summaries partition the non-exited customers
      of the known groups: their totals are the totals over those customers. */
  lemma {:induction false} GroupSummariesPartition(customers: seq<Customer>, groups: seq<CustomerGroup>)
    requires DistinctGroupIds(groups)
    ensures var s, covered := ComputeGroupSummaries(customers, groups), Filter(customers, InAnyGroup(GroupIds(groups)));
      && SumOf(s, SummaryCustomers) == |covered|
      && SumOf(s, SummaryExpected) == SumOf(covered, DueOf)
      && SumOf(s, SummaryCollected) == SumOf(covered, PaidOf)
      && SumOf(s, SummaryOverdue) == SumOf(covered, OverdueOf)
    decreases |groups|
  {
    if |groups| == 0 {
      FilterKeepsNone(customers, InAnyGroup(GroupIds(groups)));
    } else {
      var init, last := groups[..|groups| - 1], groups[|groups| - 1];
      GroupSummariesPartition(customers, init);
      SummariesSnoc(customers, groups);
      var g := SummarizeGroup(customers, last);
      var s0 := ComputeGroupSummaries(customers, init);
      SumOfSnoc(s0, g, SummaryCustomers);
      SumOfSnoc(s0, g, SummaryExpected);
      SumOfSnoc(s0, g, SummaryCollected);
      SumOfSnoc(s0, g, SummaryOverdue);
      SummaryAsFilter(customers, last);
      CoveredSnoc(customers, groups, DueOf);
      CoveredSnoc(customers, groups, PaidOf);
      CoveredSnoc(customers, groups, OverdueOf);
    }
  }

  /** The summaries of a group list are those of all but its last group,
      followed by the summary of the last one. */
  lemma SummariesSnoc(customers: seq<Customer>, groups: seq<CustomerGroup>)
    requires |groups| > 0
    ensures ComputeGroupSummaries(customers, groups)
         == ComputeGroupSummaries(customers, groups[..|groups| - 1]) + [SummarizeGroup(customers, groups[|groups| - 1])]
  {
  }

  /** A sum over a list grown by one element grows by that element's term. */
  lemma SumOfSnoc<T>(s: seq<T>, x: T, f: T -> int)
    ensures SumOf(s + [x], f) == SumOf(s, f) + f(x)
  {
    assert (s + [x])[..|s|] == s;
  }

  /** A summary's count and sums over the group's own customers. */
  lemma SummaryAsFilter(customers: seq<Customer>, g: CustomerGroup)
    ensures var r, members := SummarizeGroup(customers, g), Filter(customers, InGroup(g.id));
      && r.customerCount == |members|
      && r.expected == SumOf(members, DueOf)
      && r.collected == SumOf(members, PaidOf)
      && r.overdue == SumOf(members, OverdueOf)
  {
  }

  /** The customers covered by a group list are those covered by all but its
      last group together with the last group's own customers, which are
      disjoint from them when the ids are distinct. */
  lemma CoveredSnoc(customers: seq<Customer>, groups: seq<CustomerGroup>, f: Customer -> int)
    requires |groups| > 0 && DistinctGroupIds(groups)
    ensures var init, last := groups[..|groups| - 1], groups[|groups| - 1];
      var all, before, own := InAnyGroup(GroupIds(groups)), InAnyGroup(GroupIds(init)), InGroup(last.id);
      && |Filter(customers, all)| == |Filter(customers, before)| + |Filter(customers, own)|
      && SumOf(Filter(customers, all), f) == SumOf(Filter(customers, before), f) + SumOf(Filter(customers, own), f)
  {
    var init, last := groups[..|groups| - 1], groups[|groups| - 1];
    assert GroupIds(groups) == GroupIds(init) + [last.id];
    assert last.id !in GroupIds(init);
    FilterDisjointUnion(customers, InAnyGroup(GroupIds(init)), InGroup(last.id), InAnyGroup(GroupIds(groups)), f);
  }

  /** The footer totals the reports and dashboard screens add up from the summaries. */
  datatype SummaryTotals = SummaryTotals(expected: int, collected: int, overdue: int, customerCount: int)

  function TotalOfSummaries(summaries: seq<GroupCollectionSummary>): SummaryTotals
  {
    SummaryTotals(SumOf(summaries, SummaryExpected), SumOf(summaries, SummaryCollected),
                  SumOf(summaries, SummaryOverdue), SumOf(summaries, SummaryCustomers))
  }

  /** With distinct group ids, the footer totals are the totals over the
      non-exited customers of the known groups, and the overall rate lies in
      [0, 100] when none of them has paid a negative amount or more than is due. */
  lemma SummaryTotalsOverCustomers(customers: seq<Customer>, groups: seq<CustomerGroup>)
    requires DistinctGroupIds(groups)
    ensures var t, covered := TotalOfSummaries(ComputeGroupSummaries(customers, groups)), Filter(customers, InAnyGroup(GroupIds(groups)));
      && t.customerCount == |covered|
      && t.expected == SumOf(covered, DueOf)
      && t.collected == SumOf(covered, PaidOf)
      && t.overdue == SumOf(covered, OverdueOf)
    ensures (forall c :: c in customers && InAnyGroup(GroupIds(groups))(c) ==> 0 <= c.totalPaid <= c.totalDue) ==>
      var t := TotalOfSummaries(ComputeGroupSummaries(customers, groups));
      0.0 <= Rate(t.collected, t.expected) <= 100.0
  {
    GroupSummariesPartition(customers, groups);
    var covered := Filter(customers, InAnyGroup(GroupIds(groups)));
    if forall c :: c in customers && InAnyGroup(GroupIds(groups))(c) ==> 0 <= c.totalPaid <= c.totalDue {
      PaidWithinDue(covered);
    }
  }

  // ---------------------------------------------------------------------
  // Reducer
  // ---------------------------------------------------------------------

  /** `{ ...c, ...updates }` for a customer. */
  function MergeCustomer(c: Customer, p: CustomerPatch): Customer
  {
    Customer(p.id.GetOr(c.id), p.name.GetOr(c.name), p.contactName.GetOr(c.contactName),
             p.email.GetOr(c.email), p.phone.GetOr(c.phone), p.groupId.GetOr(c.groupId),
             p.customerId.GetOr(c.customerId), p.status.GetOr(c.status),
             p.enrollmentDate.GetOr(c.enrollmentDate), p.billingType.GetOr(c.billingType),
             p.pricingPlanId.GetOr(c.pricingPlanId), p.customFields.GetOr(c.customFields),
             p.familyLinkId.GetOr(c.familyLinkId), p.preferredChannel.GetOr(c.preferredChannel),
             p.notes.GetOr(c.notes), p.totalDue.GetOr(c.totalDue), p.totalPaid.GetOr(c.totalPaid),
             p.totalOverdue.GetOr(c.totalOverdue))
  }

  /** `{ ...c, ...updates }` for a billing component. */
  function MergeComponent(c: BillingComponent, p: ComponentPatch): BillingComponent
  {
    BillingComponent(p.id.GetOr(c.id), p.name.GetOr(c.name), p.frequency.GetOr(c.frequency),
                     p.required.GetOr(c.required), p.amount.GetOr(c.amount),
                     p.description.GetOr(c.description))
  }

  /** `{ ...bc, ...updates }` for a billing cycle. */
  function MergeCycle(c: BillingCycle, p: BillingCyclePatch): BillingCycle
  {
    BillingCycle(p.id.GetOr(c.id), p.name.GetOr(c.name), p.pricingPlanId.GetOr(c.pricingPlanId),
                 p.groupIds.GetOr(c.groupIds), p.collectionDate.GetOr(c.collectionDate),
                 p.dueDate.GetOr(c.dueDate), p.status.GetOr(c.status),
                 p.totalCustomers.GetOr(c.totalCustomers), p.totalExpected.GetOr(c.totalExpected),
                 p.totalCollected.GetOr(c.totalCollected), p.linksGenerated.GetOr(c.linksGenerated),
                 p.linksSent.GetOr(c.linksSent), p.createdAt.GetOr(c.createdAt))
  }

  /** The empty patch `{}`. */
  function NoCustomerChanges(): CustomerPatch
  {
    CustomerPatch(None, None, None, None, None, None, None, None, None, None, None, None,
                  None, None, None, None, None, None)
  }

  /** A merge takes every field the patch carries and keeps every other one;
      merging the same patch again changes nothing. */
  lemma MergeCustomerSpec(c: Customer, p: CustomerPatch)
    ensures var m := MergeCustomer(c, p);
      && (p.name.Some? ==> m.name == p.name.value) && (p.name.None? ==> m.name == c.name)
      && (p.status.Some? ==> m.status == p.status.value) && (p.status.None? ==> m.status == c.status)
      && (p.totalDue.Some? ==> m.totalDue == p.totalDue.value) && (p.totalDue.None? ==> m.totalDue == c.totalDue)
      && (p == NoCustomerChanges() ==> m == c)
      && MergeCustomer(m, p) == m
  {
  }

  function CustomerIdIs(key: string): Customer -> bool { (c: Customer) => c.id == key }
  function ComponentIdIs(key: string): BillingComponent -> bool { (c: BillingComponent) => c.id == key }
  function ComponentIdIsNot(key: string): BillingComponent -> bool { (c: BillingComponent) => c.id != key }
  function CycleIdIs(key: string): BillingCycle -> bool { (c: BillingCycle) => c.id == key }
  function ScheduleIdIs(key: string): PaymentSchedule -> bool { (s: PaymentSchedule) => s.id == key }
  function InstallmentIdIs(key: string): Installment -> bool { (i: Installment) => i.id == key }

  function MergeCustomerWith(p: CustomerPatch): Customer -> Customer { (c: Customer) => MergeCustomer(c, p) }
  function MergeComponentWith(p: ComponentPatch): BillingComponent -> BillingComponent { (c: BillingComponent) => MergeComponent(c, p) }
  function MergeCycleWith(p: BillingCyclePatch): BillingCycle -> BillingCycle { (c: BillingCycle) => MergeCycle(c, p) }

  function PaidAmountOf(i: Installment): int { i.paidAmount }

  /** `{ ...i, status, paidAmount }`. */
  function RecordPayment(status: InstallmentStatus, paidAmount: int): Installment -> Installment
  {
    (i: Installment) => i.(status := status, paidAmount := paidAmount)
  }

  /** The paid amount each installment will have once the matching one is recorded. */
  function PaidAfter(installmentId: string, paidAmount: int): Installment -> int
  {
    (i: Installment) => if i.id == installmentId then paidAmount else i.paidAmount
  }

  /** The new schedule of UPDATE_INSTALLMENT_STATUS: the matching installment
      takes the new status and paid amount, and totalPaid is recomputed from
      the OLD installments with the new amount substituted. The result keeps
      the schedule's totalPaid equal to the sum of its installments' paid amounts. */
  function RecordInstallment(s: PaymentSchedule, installmentId: string, status: InstallmentStatus, paidAmount: int): (r: PaymentSchedule)
    ensures |r.installments| == |s.installments|
    ensures forall j :: 0 <= j < |s.installments| ==>
      if s.installments[j].id == installmentId
      then r.installments[j] == s.installments[j].(status := status, paidAmount := paidAmount)
      else r.installments[j] == s.installments[j]
    ensures r.totalPaid == SumOf(r.installments, PaidAmountOf)
    ensures r.(installments := s.installments, totalPaid := s.totalPaid) == s
  {
    var updated := MapMatching(s.installments, InstallmentIdIs(installmentId), RecordPayment(status, paidAmount));
    var total := SumOf(s.installments, PaidAfter(installmentId, paidAmount));
    SumOfMapMatching(s.installments, InstallmentIdIs(installmentId), RecordPayment(status, paidAmount),
                     PaidAmountOf, PaidAfter(installmentId, paidAmount));
    s.(installments := updated, totalPaid := total)
  }

  function RecordInstallmentWith(installmentId: string, status: InstallmentStatus, paidAmount: int): PaymentSchedule -> PaymentSchedule
  {
    (s: PaymentSchedule) => RecordInstallment(s, installmentId, status, paidAmount)
  }

  /** `xs` grew by exactly `x` at its end. */
  ghost predicate AppendedTo<T>(xs: seq<T>, ys: seq<T>, x: T) {
    |ys| == |xs| + 1 && ys[..|xs|] == xs && ys[|xs|] == x
  }

  /** `easyCollectionsReducer`. What each action does to the state is stated
      by the lemmas after it, one group of actions each; an unrecognised
      action returns the state as it is. */
  function Reduce(s: State, a: Action): (r: State)
    ensures a.Unrecognised? ==> r == s
  {
    match a
    case SetupComplete(p) =>
      s.(isSetUp := true, template := Some(p.template), businessProfile := Some(p.businessProfile),
         terminology := Some(p.terminology), components := p.components, discounts := p.discounts,
         groups := p.groups, structures := p.structures, customers := p.customers,
         pricingPlans := p.pricingPlans, billingCycles := p.billingCycles, schedules := p.schedules,
         recentActivity := p.recentActivity)
    case AddCustomer(c) => s.(customers := s.customers + [c])
    case UpdateCustomer(key, updates) =>
      s.(customers := MapMatching(s.customers, CustomerIdIs(key), MergeCustomerWith(updates)))
    case AddGroup(g) => s.(groups := s.groups + [g])
    case AddComponent(c) => s.(components := s.components + [c])
    case UpdateComponent(key, updates) =>
      s.(components := MapMatching(s.components, ComponentIdIs(key), MergeComponentWith(updates)))
    case DeleteComponent(key) =>
      s.(components := Filter(s.components, ComponentIdIsNot(key)))
    case AddStructure(st) => s.(structures := s.structures + [st])
    case AddDiscount(d) => s.(discounts := s.discounts + [d])
    case ApplyDiscount(cd) => s.(customerDiscounts := s.customerDiscounts + [cd])
    case AddPricingPlan(p) => s.(pricingPlans := s.pricingPlans + [p])
    case AddBillingCycle(bc) => s.(billingCycles := s.billingCycles + [bc])
    case UpdateBillingCycle(key, updates) =>
      s.(billingCycles := MapMatching(s.billingCycles, CycleIdIs(key), MergeCycleWith(updates)))
    case UpdateInstallmentStatus(scheduleId, installmentId, status, paidAmount) =>
      s.(schedules := MapMatching(s.schedules, ScheduleIdIs(scheduleId),
                                  RecordInstallmentWith(installmentId, status, paidAmount)))
    case Unrecognised => s
  }

  /** SETUP_COMPLETE marks the state as set up and takes every field from the
      payload, except the customer discounts, which it keeps. */
  lemma ReduceSetupComplete(s: State, a: Action)
    requires a.SetupComplete?
    ensures var p := a.setup;
      Reduce(s, a) == State(true, Some(p.template), Some(p.businessProfile), Some(p.terminology), p.customers,
                            p.groups, p.components, p.structures, p.discounts, s.customerDiscounts,
                            p.pricingPlans, p.billingCycles, p.schedules, p.recentActivity)
  {
  }

  /** Each ADD_* action and APPLY_DISCOUNT appends its payload to the end of
      its one list and changes nothing else. */
  lemma ReduceAppends(s: State, a: Action)
    requires a.AddCustomer? || a.AddGroup? || a.AddComponent? || a.AddStructure? || a.AddDiscount?
             || a.ApplyDiscount? || a.AddPricingPlan? || a.AddBillingCycle?
    ensures var r := Reduce(s, a);
      && (a.AddCustomer? ==> AppendedTo(s.customers, r.customers, a.customer) && r.(customers := s.customers) == s)
      && (a.AddGroup? ==> AppendedTo(s.groups, r.groups, a.group) && r.(groups := s.groups) == s)
      && (a.AddComponent? ==> AppendedTo(s.components, r.components, a.component) && r.(components := s.components) == s)
      && (a.AddStructure? ==> AppendedTo(s.structures, r.structures, a.structure) && r.(structures := s.structures) == s)
      && (a.AddDiscount? ==> AppendedTo(s.discounts, r.discounts, a.discount) && r.(discounts := s.discounts) == s)
      && (a.ApplyDiscount? ==>
            AppendedTo(s.customerDiscounts, r.customerDiscounts, a.customerDiscount)
            && r.(customerDiscounts := s.customerDiscounts) == s)
      && (a.AddPricingPlan? ==> AppendedTo(s.pricingPlans, r.pricingPlans, a.plan) && r.(pricingPlans := s.pricingPlans) == s)
      && (a.AddBillingCycle? ==>
            AppendedTo(s.billingCycles, r.billingCycles, a.cycle) && r.(billingCycles := s.billingCycles) == s)
  {
  }

  /** UPDATE_CUSTOMER, UPDATE_COMPONENT and UPDATE_BILLING_CYCLE keep the
      length and order of their list, merge the updates into the elements
      whose id matches, and leave every other element and field alone. */
  lemma ReduceUpdates(s: State, a: Action)
    requires a.UpdateCustomer? || a.UpdateComponent? || a.UpdateBillingCycle?
    ensures var r := Reduce(s, a);
      && (a.UpdateCustomer? ==>
            && |r.customers| == |s.customers| && r.(customers := s.customers) == s
            && forall i :: 0 <= i < |s.customers| ==>
                 r.customers[i] == if s.customers[i].id == a.customerKey
                                   then MergeCustomer(s.customers[i], a.customerUpdates) else s.customers[i])
      && (a.UpdateComponent? ==>
            && |r.components| == |s.components| && r.(components := s.components) == s
            && forall i :: 0 <= i < |s.components| ==>
                 r.components[i] == if s.components[i].id == a.componentKey
                                    then MergeComponent(s.components[i], a.componentUpdates) else s.components[i])
      && (a.UpdateBillingCycle? ==>
            && |r.billingCycles| == |s.billingCycles| && r.(billingCycles := s.billingCycles) == s
            && forall i :: 0 <= i < |s.billingCycles| ==>
                 r.billingCycles[i] == if s.billingCycles[i].id == a.cycleKey
                                       then MergeCycle(s.billingCycles[i], a.cycleUpdates) else s.billingCycles[i])
  {
  }

  /** DELETE_COMPONENT keeps exactly the components whose id differs, in
      their original order, and changes nothing else. */
  lemma ReduceDeleteComponent(s: State, a: Action)
    requires a.DeleteComponent?
    ensures var r := Reduce(s, a);
      && (forall c :: c in r.components <==> c in s.components && c.id != a.deletedId)
      && IsSubsequence(r.components, s.components)
      && r.(components := s.components) == s
  {
    FilterIsSubsequence(s.components, ComponentIdIsNot(a.deletedId));
  }

  /** UPDATE_INSTALLMENT_STATUS rewrites only the schedules with the given id,
      each as `RecordInstallment` does, so their totalPaid is again the sum of
      their installments' paid amounts; nothing else changes. */
  lemma ReduceInstallmentStatus(s: State, a: Action)
    requires a.UpdateInstallmentStatus?
    ensures var r := Reduce(s, a);
      && |r.schedules| == |s.schedules| && r.(schedules := s.schedules) == s
      && forall i :: 0 <= i < |s.schedules| ==>
           if s.schedules[i].id == a.scheduleId
           then r.schedules[i] == RecordInstallment(s.schedules[i], a.installmentId, a.newStatus, a.newPaidAmount)
                && r.schedules[i].totalPaid == SumOf(r.schedules[i].installments, PaidAmountOf)
           else r.schedules[i] == s.schedules[i]
  {
  }

  /** Dispatching an update, a deletion or an installment payment twice has
      the effect of dispatching it once. */
  lemma ReduceUpdateTwice(s: State, a: Action)
    requires a.UpdateCustomer? || a.UpdateComponent? || a.UpdateBillingCycle? || a.DeleteComponent?
             || a.UpdateInstallmentStatus?
    ensures Reduce(Reduce(s, a), a) == Reduce(s, a)
  {
    match a
    case UpdateCustomer(key, updates) =>
      MapMatchingTwice(s.customers, CustomerIdIs(key), MergeCustomerWith(updates));
    case UpdateComponent(key, updates) =>
      MapMatchingTwice(s.components, ComponentIdIs(key), MergeComponentWith(updates));
    case UpdateBillingCycle(key, updates) =>
      MapMatchingTwice(s.billingCycles, CycleIdIs(key), MergeCycleWith(updates));
    case DeleteComponent(key) =>
      FilterFilter(s.components, ComponentIdIsNot(key), ComponentIdIsNot(key), ComponentIdIsNot(key));
    case UpdateInstallmentStatus(scheduleId, installmentId, status, paidAmount) =>
      var f := RecordInstallmentWith(installmentId, status, paidAmount);
      forall x: PaymentSchedule | x.id == scheduleId
        ensures f(f(x)) == f(x)
      {
        RecordInstallmentTwice(x, installmentId, status, paidAmount);
      }
      MapMatchingTwice(s.schedules, ScheduleIdIs(scheduleId), f);
  }

  /** Recording the same installment payment twice records it once. */
  lemma RecordInstallmentTwice(s: PaymentSchedule, installmentId: string, status: InstallmentStatus, paidAmount: int)
    ensures var once := RecordInstallment(s, installmentId, status, paidAmount);
      RecordInstallment(once, installmentId, status, paidAmount) == once
  {
    var once := RecordInstallment(s, installmentId, status, paidAmount);
    var twice := RecordInstallment(once, installmentId, status, paidAmount);
    assert twice.installments == once.installments;
    SumOfMapMatching(once.installments, InstallmentIdIs(installmentId), RecordPayment(status, paidAmount),
                     PaidAmountOf, PaidAfter(installmentId, paidAmount));
    assert MapMatching(once.installments, InstallmentIdIs(installmentId), RecordPayment(status, paidAmount))
        == once.installments;
  }

  /** Adding a customer moves the statistics by exactly that customer's
      contribution: its amounts and counts if active or paused, nothing otherwise. */
  lemma AddCustomerStats(s: State, c: Customer)
    ensures var before, after := ComputeCollectionStats(s.customers),
                                 ComputeCollectionStats(Reduce(s, AddCustomer(c)).customers);
      && after.totalExpected == before.totalExpected + (if CountsInStats(c) then c.totalDue else 0)
      && after.totalCollected == before.totalCollected + (if CountsInStats(c) then c.totalPaid else 0)
      && after.totalOverdue == before.totalOverdue + (if CountsInStats(c) then c.totalOverdue else 0)
      && after.onTimeCount == before.onTimeCount + (if OnTimeInStats(c) then 1 else 0)
      && after.overdueCount == before.overdueCount + (if OverdueInStats(c) then 1 else 0)
      && after.pendingCount == before.pendingCount + (if PendingInStats(c) then 1 else 0)
  {
    assert Reduce(s, AddCustomer(c)).customers == s.customers + [c];
    StatsOfConcat(s.customers, [c]);
    StatsOfOne(c);
  }

  /** The statistics of a single customer: its own amounts and counts if it
      is active or paused, nothing otherwise. */
  lemma StatsOfOne(c: Customer)
    ensures var r := ComputeCollectionStats([c]);
      && r.totalExpected == (if CountsInStats(c) then c.totalDue else 0)
      && r.totalCollected == (if CountsInStats(c) then c.totalPaid else 0)
      && r.totalOverdue == (if CountsInStats(c) then c.totalOverdue else 0)
      && r.onTimeCount == (if OnTimeInStats(c) then 1 else 0)
      && r.overdueCount == (if OverdueInStats(c) then 1 else 0)
      && r.pendingCount == (if PendingInStats(c) then 1 else 0)
  {
    FilterSingle(c, CountsInStats);
    if CountsInStats(c) {
      SumOfSnoc([], c, DueOf);
      SumOfSnoc([], c, PaidOf);
      SumOfSnoc([], c, OverdueOf);
      assert [] + [c] == [c];
      FilterSingle(c, PaidInFull);
      FilterSingle(c, HasOverdue);
      FilterSingle(c, AwaitingFirstPayment);
    }
  }
}
