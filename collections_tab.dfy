/** The derived lists of the collections screen: the customers it lists
    under the collection, group and search filters, the count badge of each
    collection filter, the per-row outstanding amount and collection status,
    and the footer totals. */
module CollectionsTab {
  import opened Seqs
  import opened Text
  import opened CollectionsTypes
  import opened CollectionsData

  /** The collection filter buttons, in display order. */
  const CollectionFilters: seq<string> := ["All", "Overdue", "Fully Paid", "Pending"]

  predicate NotExited(c: Customer) { c.status != Exited }

  /** The customers the screen works on: everyone who has not exited, in order. */
  function ActiveCustomers(customers: seq<Customer>): (r: seq<Customer>)
    ensures forall c :: c in r <==> c in customers && c.status != Exited
    ensures IsSubsequence(r, customers)
  {
    FilterIsSubsequence(customers, NotExited);
    Filter(customers, NotExited)
  }

  // The collection filters besides `HasOverdue`.
  predicate IsFullyPaid(c: Customer) { c.totalDue > 0 && c.totalPaid >= c.totalDue }
  predicate IsPending(c: Customer) { c.totalDue > 0 && c.totalPaid < c.totalDue && c.totalOverdue == 0 }

  /** The collection filter keeps what its predicate keeps; 'All' and any
      label it does not know keep everyone. */
  predicate MatchesCollectionFilter(filter: string, c: Customer) {
    if filter == "Overdue" then HasOverdue(c)
    else if filter == "Fully Paid" then IsFullyPaid(c)
    else if filter == "Pending" then IsPending(c)
    else true
  }

  function ByCollectionFilter(filter: string): Customer -> bool {
    (c: Customer) => MatchesCollectionFilter(filter, c)
  }

  predicate MatchesGroupFilter(groupFilter: string, c: Customer) {
    groupFilter == "All" || c.groupId == groupFilter
  }

  /** Search on name or customer id, ignoring case; an empty term keeps everyone. */
  predicate MatchesSearch(searchTerm: string, c: Customer) {
    |searchTerm| == 0 || MatchesTerm(c.name, searchTerm) || MatchesTerm(c.customerId, searchTerm)
  }

  /** A customer is listed when it has not exited and passes all three filters. */
  predicate Shown(collectionFilter: string, groupFilter: string, searchTerm: string, c: Customer) {
    NotExited(c) && MatchesCollectionFilter(collectionFilter, c)
    && MatchesGroupFilter(groupFilter, c) && MatchesSearch(searchTerm, c)
  }

  function ShownBy(collectionFilter: string, groupFilter: string, searchTerm: string): Customer -> bool {
    (c: Customer) => Shown(collectionFilter, groupFilter, searchTerm, c)
  }

  // The predicates the filtering steps apply, one step at a time.
  function KeptAfterCollection(collectionFilter: string): Customer -> bool {
    (c: Customer) => NotExited(c) && MatchesCollectionFilter(collectionFilter, c)
  }

  function KeptAfterGroup(collectionFilter: string, groupFilter: string): Customer -> bool {
    (c: Customer) => NotExited(c) && MatchesCollectionFilter(collectionFilter, c) && MatchesGroupFilter(groupFilter, c)
  }

  function InGroupFilter(groupFilter: string): Customer -> bool {
    (c: Customer) => c.groupId == groupFilter
  }

  /** The search step, with the term already lower-cased as the screen does. */
  function SearchHit(loweredTerm: string): Customer -> bool {
    (c: Customer) => Includes(Lower(c.name), loweredTerm) || Includes(Lower(c.customerId), loweredTerm)
  }

  /** Everything but the exited check, for viewing the list as a filter of the active customers. */
  function FiltersOnly(collectionFilter: string, groupFilter: string, searchTerm: string): Customer -> bool {
    (c: Customer) => MatchesCollectionFilter(collectionFilter, c)
      && MatchesGroupFilter(groupFilter, c) && MatchesSearch(searchTerm, c)
  }

  /** The collection-filter step, applied to the active customers. */
  method FilterByCollection(customers: seq<Customer>, active: seq<Customer>, collectionFilter: string)
    returns (result: seq<Customer>)
    requires active == Filter(customers, NotExited)
    ensures result == Filter(customers, KeptAfterCollection(collectionFilter))
  {
    result := active;
    if collectionFilter == "Overdue" {
      result := Filter(result, HasOverdue);
      FilterFilter(customers, NotExited, HasOverdue, KeptAfterCollection(collectionFilter));
    } else if collectionFilter == "Fully Paid" {
      result := Filter(result, IsFullyPaid);
      FilterFilter(customers, NotExited, IsFullyPaid, KeptAfterCollection(collectionFilter));
    } else if collectionFilter == "Pending" {
      result := Filter(result, IsPending);
      FilterFilter(customers, NotExited, IsPending, KeptAfterCollection(collectionFilter));
    } else {
      FilterAgree(customers, NotExited, KeptAfterCollection(collectionFilter));
    }
  }

  /** The group-filter step, applied to what the collection filter kept. */
  method FilterByGroup(customers: seq<Customer>, kept: seq<Customer>, collectionFilter: string, groupFilter: string)
    returns (result: seq<Customer>)
    requires kept == Filter(customers, KeptAfterCollection(collectionFilter))
    ensures result == Filter(customers, KeptAfterGroup(collectionFilter, groupFilter))
  {
    result := kept;
    if groupFilter != "All" {
      result := Filter(result, InGroupFilter(groupFilter));
      FilterFilter(customers, KeptAfterCollection(collectionFilter), InGroupFilter(groupFilter),
        KeptAfterGroup(collectionFilter, groupFilter));
    } else {
      FilterAgree(customers, KeptAfterCollection(collectionFilter), KeptAfterGroup(collectionFilter, groupFilter));
    }
  }

  /** The search step, applied to what the collection and group filters kept. */
  method FilterBySearch(customers: seq<Customer>, kept: seq<Customer>, collectionFilter: string, groupFilter: string,
    searchTerm: string) returns (result: seq<Customer>)
    requires kept == Filter(customers, KeptAfterGroup(collectionFilter, groupFilter))
    ensures result == Filter(customers, ShownBy(collectionFilter, groupFilter, searchTerm))
  {
    result := kept;
    if |searchTerm| > 0 {
      var term := Lower(searchTerm);
      result := Filter(result, SearchHit(term));
      FilterFilter(customers, KeptAfterGroup(collectionFilter, groupFilter), SearchHit(term),
        ShownBy(collectionFilter, groupFilter, searchTerm));
    } else {
      FilterAgree(customers, KeptAfterGroup(collectionFilter, groupFilter), ShownBy(collectionFilter, groupFilter, searchTerm));
    }
  }

  /** The listed customers, narrowed step by step from the active customers.
      The result is the one filter by all the conditions together, and an
      order-preserving subsequence of the customers who have not exited. */
  method FilteredCustomers(customers: seq<Customer>, collectionFilter: string, groupFilter: string, searchTerm: string)
    returns (result: seq<Customer>)
    ensures result == Filter(customers, ShownBy(collectionFilter, groupFilter, searchTerm))
    ensures IsSubsequence(result, ActiveCustomers(customers))
    ensures forall c :: c in result ==> c.status != Exited
  {
    var active := ActiveCustomers(customers);
    var afterCollection := FilterByCollection(customers, active, collectionFilter);
    var afterGroup := FilterByGroup(customers, afterCollection, collectionFilter, groupFilter);
    result := FilterBySearch(customers, afterGroup, collectionFilter, groupFilter, searchTerm);
    ShownWithinActive(customers, collectionFilter, groupFilter, searchTerm);
  }

  /** The listed customers are a filter of the active customers. */
  lemma ShownWithinActive(customers: seq<Customer>, collectionFilter: string, groupFilter: string, searchTerm: string)
    ensures IsSubsequence(Filter(customers, ShownBy(collectionFilter, groupFilter, searchTerm)), ActiveCustomers(customers))
  {
    FilterFilter(customers, NotExited, FiltersOnly(collectionFilter, groupFilter, searchTerm),
      ShownBy(collectionFilter, groupFilter, searchTerm));
    FilterIsSubsequence(ActiveCustomers(customers), FiltersOnly(collectionFilter, groupFilter, searchTerm));
  }

  /** The count badge of a collection filter button: the length of that
      filter alone on the active customers; a label it does not know counts 0. */
  function GetFilterCount(customers: seq<Customer>, filter: string): (r: nat)
    ensures r <= |ActiveCustomers(customers)|
    ensures filter !in CollectionFilters ==> r == 0
  {
    var active := ActiveCustomers(customers);
    if filter == "All" then |active|
    else if filter == "Overdue" then |Filter(active, HasOverdue)|
    else if filter == "Fully Paid" then |Filter(active, IsFullyPaid)|
    else if filter == "Pending" then |Filter(active, IsPending)|
    else 0
  }

  /** With no group filter and no search term, the list under a known
      collection filter is exactly as long as that filter's badge; with other
      filters set it is never longer. */
  lemma FilterCountBoundsList(customers: seq<Customer>, filter: string, groupFilter: string, searchTerm: string)
    requires filter in CollectionFilters
    ensures |Filter(customers, ShownBy(filter, "All", ""))| == GetFilterCount(customers, filter)
    ensures |Filter(customers, ShownBy(filter, groupFilter, searchTerm))| <= GetFilterCount(customers, filter)
  {
    FilterFilter(customers, NotExited, ByCollectionFilter(filter), ShownBy(filter, "All", ""));
    BadgeIsCollectionFilter(customers, filter);
    FilterFilter(customers, ShownBy(filter, "All", ""), KeptAfterGroupAndSearch(groupFilter, searchTerm),
      ShownBy(filter, groupFilter, searchTerm));
  }

  /** A known filter's badge counts the active customers its predicate keeps. */
  lemma BadgeIsCollectionFilter(customers: seq<Customer>, filter: string)
    requires filter in CollectionFilters
    ensures GetFilterCount(customers, filter) == |Filter(ActiveCustomers(customers), ByCollectionFilter(filter))|
  {
    var active := ActiveCustomers(customers);
    if filter == "Overdue" {
      FilterAgree(active, ByCollectionFilter(filter), HasOverdue);
    } else if filter == "Fully Paid" {
      FilterAgree(active, ByCollectionFilter(filter), IsFullyPaid);
    } else if filter == "Pending" {
      FilterAgree(active, ByCollectionFilter(filter), IsPending);
    } else {
      FilterKeepsAll(active, ByCollectionFilter(filter));
    }
  }

  function KeptAfterGroupAndSearch(groupFilter: string, searchTerm: string): Customer -> bool {
    (c: Customer) => MatchesGroupFilter(groupFilter, c) && MatchesSearch(searchTerm, c)
  }

  /** Two pairs of collection filters never keep the same customer, so their
      badges together never exceed the 'All' badge. 'Overdue' and 'Fully Paid'
      can overlap: nothing stops a fully paid customer from carrying an overdue amount. */
  lemma FilterCountsDisjoint(customers: seq<Customer>)
    ensures GetFilterCount(customers, "Fully Paid") + GetFilterCount(customers, "Pending") <= GetFilterCount(customers, "All")
    ensures GetFilterCount(customers, "Overdue") + GetFilterCount(customers, "Pending") <= GetFilterCount(customers, "All")
  {
    var active := ActiveCustomers(customers);
    FilterDisjointCount(active, IsFullyPaid, IsPending);
    FilterDisjointCount(active, HasOverdue, IsPending);
  }

  /** The search term is matched regardless of its letter case, and an empty
      term removes nobody. */
  lemma SearchIgnoresCase(searchTerm: string, c: Customer)
    ensures MatchesSearch(Lower(searchTerm), c) == MatchesSearch(searchTerm, c)
    ensures MatchesSearch("", c)
  {
    MatchesTermIgnoresCase(c.name, searchTerm);
    MatchesTermIgnoresCase(c.customerId, searchTerm);
  }

  /** The unpaid part of a customer's dues, never negative: max(0, totalDue - totalPaid). */
  function Outstanding(c: Customer): (r: int)
    ensures 0 <= r && c.totalDue - c.totalPaid <= r
    ensures r == 0 || r == c.totalDue - c.totalPaid
  {
    if c.totalDue - c.totalPaid > 0 then c.totalDue - c.totalPaid else 0
  }

  datatype Totals = Totals(due: int, paid: int, overdue: int, outstanding: int)

  /** The footer totals: sums over the listed customers. */
  function ComputeTotals(rows: seq<Customer>): (r: Totals)
    ensures 0 <= r.outstanding && r.due - r.paid <= r.outstanding
  {
    SumOfNonNegative(rows, Outstanding);
    SumOfDifference(rows, DueOf, PaidOf, DueMinusPaid);
    SumOfMonotone(rows, DueMinusPaid, Outstanding);
    Totals(SumOf(rows, DueOf), SumOf(rows, PaidOf), SumOf(rows, OverdueOf), SumOf(rows, Outstanding))
  }

  function DueMinusPaid(c: Customer): int { c.totalDue - c.totalPaid }

  /** The outstanding total is never negative and never below due minus paid;
      when no row is overpaid it is exactly due minus paid. */
  lemma TotalsOutstanding(rows: seq<Customer>)
    ensures var t := ComputeTotals(rows);
      0 <= t.outstanding && t.due - t.paid <= t.outstanding
    ensures (forall c :: c in rows ==> c.totalPaid <= c.totalDue) ==>
      ComputeTotals(rows).outstanding == ComputeTotals(rows).due - ComputeTotals(rows).paid
  {
    SumOfNonNegative(rows, Outstanding);
    SumOfDifference(rows, DueOf, PaidOf, DueMinusPaid);
    SumOfMonotone(rows, DueMinusPaid, Outstanding);
    if forall c :: c in rows ==> c.totalPaid <= c.totalDue {
      SumOfMonotone(rows, Outstanding, DueMinusPaid);
    }
  }

  /** The collection status badge of a row. */
  datatype RowStatus = RowOverdue | RowPaid | RowPending | NoDues

  datatype BadgeColor = Negative | Positive | Notice | Neutral

  function Label(s: RowStatus): string {
    match s
    case RowOverdue => "Overdue"
    case RowPaid => "Paid"
    case RowPending => "Pending"
    case NoDues => "No Dues"
  }

  function Color(s: RowStatus): BadgeColor {
    match s
    case RowOverdue => Negative
    case RowPaid => Positive
    case RowPending => Notice
    case NoDues => Neutral
  }

  /** Classifies a row by checking overdue, paid and pending in that order.
      Each customer gets exactly one status; the statuses agree with the
      collection filters, except that a negative overdue amount lets a row
      show as pending while the 'Pending' filter leaves it out. */
  method ClassifyRow(c: Customer) returns (status: RowStatus)
    ensures status == RowOverdue <==> HasOverdue(c)
    ensures status == RowPaid <==> !HasOverdue(c) && IsFullyPaid(c)
    ensures status == RowPending <==> !HasOverdue(c) && c.totalDue > 0 && Outstanding(c) > 0
    ensures status == NoDues <==> c.totalOverdue <= 0 && c.totalDue <= 0
    ensures IsPending(c) ==> status == RowPending
    ensures status == RowPending && c.totalOverdue >= 0 ==> IsPending(c)
  {
    if c.totalOverdue > 0 {
      status := RowOverdue;
    } else if c.totalDue > 0 && c.totalPaid >= c.totalDue {
      status := RowPaid;
    } else if c.totalDue > 0 && c.totalPaid < c.totalDue {
      status := RowPending;
    } else {
      status := NoDues;
    }
  }
}
