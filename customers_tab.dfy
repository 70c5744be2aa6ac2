/** The customer list screen: the status, group and search filters, the
    per-status counts on the filter buttons, and the plan-name column. */
module CustomersTab {
  import opened Wrappers
  import opened Seqs
  import opened Text
  import opened CollectionsTypes
  import CollectionsTab

  /** The filter buttons, in screen order; there is none for suspended customers. */
  const StatusFilters := ["All", "Active", "Paused", "Exited"]

  /** `c.status === statusFilter.toLowerCase()`, with the label lower-cased already. */
  function StatusIs(loweredLabel: string): Customer -> bool {
    (c: Customer) => StatusName(c.status) == loweredLabel
  }

  predicate MatchesStatusFilter(statusFilter: string, c: Customer) {
    statusFilter == "All" || StatusName(c.status) == Lower(statusFilter)
  }

  /** Search on name, customer id or email, ignoring case; an empty term keeps everyone. */
  predicate MatchesSearch(searchTerm: string, c: Customer) {
    |searchTerm| == 0 || MatchesTerm(c.name, searchTerm) || MatchesTerm(c.customerId, searchTerm)
    || MatchesTerm(c.email, searchTerm)
  }

  /** A customer is listed when it passes all three filters. */
  predicate Listed(statusFilter: string, groupFilter: string, searchTerm: string, c: Customer) {
    MatchesStatusFilter(statusFilter, c) && CollectionsTab.MatchesGroupFilter(groupFilter, c)
    && MatchesSearch(searchTerm, c)
  }

  function ListedBy(statusFilter: string, groupFilter: string, searchTerm: string): Customer -> bool {
    (c: Customer) => Listed(statusFilter, groupFilter, searchTerm, c)
  }

  // The predicates the filtering steps have applied so far.
  function KeptAfterStatus(statusFilter: string): Customer -> bool {
    (c: Customer) => MatchesStatusFilter(statusFilter, c)
  }

  function KeptAfterGroup(statusFilter: string, groupFilter: string): Customer -> bool {
    (c: Customer) => MatchesStatusFilter(statusFilter, c) && CollectionsTab.MatchesGroupFilter(groupFilter, c)
  }

  /** The search step, with the term already lower-cased as the screen does. */
  function SearchHit(loweredTerm: string): Customer -> bool {
    (c: Customer) => Includes(Lower(c.name), loweredTerm) || Includes(Lower(c.customerId), loweredTerm)
      || Includes(Lower(c.email), loweredTerm)
  }

  /** `filteredCustomers`: the list narrowed by each filter that is set, in
      turn. The result is the one filter by all three conditions together,
      hence an order-preserving subsequence of the customers. */
  method FilteredCustomers(customers: seq<Customer>, statusFilter: string, groupFilter: string, searchTerm: string)
    returns (result: seq<Customer>)
    ensures result == Filter(customers, ListedBy(statusFilter, groupFilter, searchTerm))
    ensures IsSubsequence(result, customers)
  {
    result := customers;

    if statusFilter != "All" {
      result := Filter(result, StatusIs(Lower(statusFilter)));
      FilterAgree(customers, StatusIs(Lower(statusFilter)), KeptAfterStatus(statusFilter));
    } else {
      FilterKeepsAll(customers, KeptAfterStatus(statusFilter));
    }
    assert result == Filter(customers, KeptAfterStatus(statusFilter));

    if groupFilter != "All" {
      result := Filter(result, CollectionsTab.InGroupFilter(groupFilter));
      FilterFilter(customers, KeptAfterStatus(statusFilter), CollectionsTab.InGroupFilter(groupFilter),
        KeptAfterGroup(statusFilter, groupFilter));
    } else {
      FilterAgree(customers, KeptAfterStatus(statusFilter), KeptAfterGroup(statusFilter, groupFilter));
    }
    assert result == Filter(customers, KeptAfterGroup(statusFilter, groupFilter));

    if |searchTerm| > 0 {
      var term := Lower(searchTerm);
      result := Filter(result, SearchHit(term));
      FilterFilter(customers, KeptAfterGroup(statusFilter, groupFilter), SearchHit(term),
        ListedBy(statusFilter, groupFilter, searchTerm));
    } else {
      FilterAgree(customers, KeptAfterGroup(statusFilter, groupFilter), ListedBy(statusFilter, groupFilter, searchTerm));
    }

    FilterIsSubsequence(customers, ListedBy(statusFilter, groupFilter, searchTerm));
  }

  /** With every filter at its default the whole list is shown. */
  lemma DefaultFiltersKeepEveryone(customers: seq<Customer>)
    ensures Filter(customers, ListedBy("All", "All", "")) == customers
  {
    FilterKeepsAll(customers, ListedBy("All", "All", ""));
  }

  /** The search term is matched regardless of its letter case. */
  lemma SearchIgnoresCase(searchTerm: string, c: Customer)
    ensures MatchesSearch(Lower(searchTerm), c) == MatchesSearch(searchTerm, c)
  {
    MatchesTermIgnoresCase(c.name, searchTerm);
    MatchesTermIgnoresCase(c.customerId, searchTerm);
    MatchesTermIgnoresCase(c.email, searchTerm);
  }

  /** `getStatusCount`: every customer for 'All', otherwise those whose status
      is the lower-cased label. */
  function GetStatusCount(customers: seq<Customer>, filter: string): (r: nat)
    ensures r <= |customers|
    ensures filter == "All" ==> r == |customers|
  {
    if filter == "All" then |customers| else |Filter(customers, StatusIs(Lower(filter)))|
  }

  /** With no group filter and no search, a status button's count is the length of its list. */
  lemma StatusCountIsListLength(customers: seq<Customer>, filter: string)
    ensures GetStatusCount(customers, filter) == |Filter(customers, ListedBy(filter, "All", ""))|
  {
    if filter == "All" {
      DefaultFiltersKeepEveryone(customers);
    } else {
      FilterAgree(customers, StatusIs(Lower(filter)), ListedBy(filter, "All", ""));
    }
  }

  /** Every customer has exactly one of the four statuses. */
  lemma {:induction false} StatusesPartition(customers: seq<Customer>)
    ensures |Filter(customers, StatusIs("active"))| + |Filter(customers, StatusIs("paused"))|
      + |Filter(customers, StatusIs("exited"))| + |Filter(customers, StatusIs("suspended"))| == |customers|
    decreases |customers|
  {
    if |customers| > 0 {
      var init := customers[..|customers| - 1];
      StatusesPartition(init);
      StatusCountStep(customers, "active");
      StatusCountStep(customers, "paused");
      StatusCountStep(customers, "exited");
      StatusCountStep(customers, "suspended");
    }
  }

  /** One more customer adds one to the count of its own status only. */
  lemma StatusCountStep(customers: seq<Customer>, name: string)
    requires |customers| > 0
    ensures |Filter(customers, StatusIs(name))| == |Filter(customers[..|customers| - 1], StatusIs(name))|
      + (if StatusName(customers[|customers| - 1].status) == name then 1 else 0)
  {
    if StatusName(customers[|customers| - 1].status) == name {
      FilterAppendKept(customers, StatusIs(name));
    } else {
      FilterDropRejected(customers, StatusIs(name));
    }
  }

  /** The buttons' counts: Active, Paused and Exited together are the 'All'
      count less the suspended customers, who have no button. */
  lemma StatusCountsPartition(customers: seq<Customer>)
    ensures GetStatusCount(customers, "Active") + GetStatusCount(customers, "Paused")
      + GetStatusCount(customers, "Exited") + |Filter(customers, StatusIs("suspended"))|
      == GetStatusCount(customers, "All")
    ensures GetStatusCount(customers, "Active") + GetStatusCount(customers, "Paused")
      + GetStatusCount(customers, "Exited") <= GetStatusCount(customers, "All")
  {
    assert Lower("Active") == "active";
    assert Lower("Paused") == "paused";
    assert Lower("Exited") == "exited";
    StatusesPartition(customers);
  }

  function PlanIdIs(key: string): PricingPlan -> bool { (p: PricingPlan) => p.id == key }

  /** `getPlanName`: a dash for a missing or empty plan id or a plan that is
      not found, else the name of the first plan with that id. */
  function GetPlanName(plans: seq<PricingPlan>, planId: Option<string>): (r: string)
    ensures planId.None? || planId == Some("") ==> r == "—"
    ensures planId.Some? && (forall p :: p in plans ==> p.id != planId.value) ==> r == "—"
    ensures planId.Some? && planId.value != "" && (exists p :: p in plans && p.id == planId.value) ==>
      exists i :: (0 <= i < |plans| && plans[i].id == planId.value && r == plans[i].name
        && forall j :: 0 <= j < i ==> plans[j].id != planId.value)
  {
    match planId
    case None => "—"
    case Some(id) =>
      if id == "" then "—"
      else match Find(plans, PlanIdIs(id))
        case Some(plan) => plan.name
        case None => "—"
  }
}
