/** The payment-links list screen: the status and search filters, the
    summary cards, the per-status counts, and the page state that holds the
    link list together with the link open in the detail drawer. */
module PaymentLinksPage {
  import opened Wrappers
  import opened Seqs
  import opened Text
  import opened PaymentLinksData

  /** `link.status === statusFilter.toLowerCase()`, with the label lower-cased already. */
  function LinkStatusIs(loweredLabel: string): PaymentLink -> bool {
    (l: PaymentLink) => LinkStatusName(l.status) == loweredLabel
  }

  predicate MatchesStatusFilter(statusFilter: string, l: PaymentLink) {
    statusFilter == "All" || LinkStatusName(l.status) == Lower(statusFilter)
  }

  /** Search on title, id or short URL, ignoring case; an empty term keeps every link. */
  predicate MatchesSearch(searchTerm: string, l: PaymentLink) {
    |searchTerm| == 0 || MatchesTerm(l.title, searchTerm) || MatchesTerm(l.id, searchTerm)
    || MatchesTerm(l.shortUrl, searchTerm)
  }

  function ListedBy(statusFilter: string, searchTerm: string): PaymentLink -> bool {
    (l: PaymentLink) => MatchesStatusFilter(statusFilter, l) && MatchesSearch(searchTerm, l)
  }

  function KeptAfterStatus(statusFilter: string): PaymentLink -> bool {
    (l: PaymentLink) => MatchesStatusFilter(statusFilter, l)
  }

  /** The search step, with the term already lower-cased as the screen does. */
  function SearchHit(loweredTerm: string): PaymentLink -> bool {
    (l: PaymentLink) => Includes(Lower(l.title), loweredTerm) || Includes(Lower(l.id), loweredTerm)
      || Includes(Lower(l.shortUrl), loweredTerm)
  }

  /** `filteredLinks`: the list narrowed by the status filter, then by the
      search term. The result is the one filter by both conditions, hence an
      order-preserving subsequence of the links. */
  method FilteredLinks(links: seq<PaymentLink>, statusFilter: string, searchTerm: string)
    returns (result: seq<PaymentLink>)
    ensures result == Filter(links, ListedBy(statusFilter, searchTerm))
    ensures IsSubsequence(result, links)
  {
    result := links;

    if statusFilter != "All" {
      result := Filter(result, LinkStatusIs(Lower(statusFilter)));
      FilterAgree(links, LinkStatusIs(Lower(statusFilter)), KeptAfterStatus(statusFilter));
    } else {
      FilterKeepsAll(links, KeptAfterStatus(statusFilter));
    }
    assert result == Filter(links, KeptAfterStatus(statusFilter));

    if |searchTerm| > 0 {
      var term := Lower(searchTerm);
      result := Filter(result, SearchHit(term));
      FilterFilter(links, KeptAfterStatus(statusFilter), SearchHit(term), ListedBy(statusFilter, searchTerm));
    } else {
      FilterAgree(links, KeptAfterStatus(statusFilter), ListedBy(statusFilter, searchTerm));
    }

    FilterIsSubsequence(links, ListedBy(statusFilter, searchTerm));
  }

  /** The search term is matched regardless of its letter case. */
  lemma SearchIgnoresCase(searchTerm: string, l: PaymentLink)
    ensures MatchesSearch(Lower(searchTerm), l) == MatchesSearch(searchTerm, l)
  {
    MatchesTermIgnoresCase(l.title, searchTerm);
    MatchesTermIgnoresCase(l.id, searchTerm);
    MatchesTermIgnoresCase(l.shortUrl, searchTerm);
  }

  // ---------------------------------------------------------------------
  // Summary cards and counts
  // ---------------------------------------------------------------------

  datatype LinkStats = LinkStats(totalLinks: nat, activeLinks: nat, totalRevenue: int)

  /** The money a link has collected: its payment count times its amount. */
  function RevenueOf(l: PaymentLink): int { l.paid * l.amount }

  /** `stats`. */
  function ComputeLinkStats(links: seq<PaymentLink>): (r: LinkStats)
    ensures r.totalLinks == |links| && r.activeLinks <= r.totalLinks
  {
    LinkStats(|links|, |Filter(links, LinkStatusIs("active"))|, SumOf(links, RevenueOf))
  }

  /** Links with no negative payment count or amount make no negative revenue. */
  lemma NonNegativeRevenue(links: seq<PaymentLink>)
    requires forall l :: l in links ==> l.paid >= 0 && l.amount >= 0
    ensures ComputeLinkStats(links).totalRevenue >= 0
  {
    forall l | l in links ensures RevenueOf(l) >= 0 {
      assert l.paid * l.amount >= 0;
    }
    SumOfNonNegative(links, RevenueOf);
  }

  /** `getFilterCount`: every link for 'All', otherwise those whose status is
      the lower-cased label. */
  function GetFilterCount(links: seq<PaymentLink>, filter: string): (r: nat)
    ensures r <= |links|
    ensures filter == "All" ==> r == |links|
  {
    if filter == "All" then |links| else |Filter(links, LinkStatusIs(Lower(filter)))|
  }

  /** Without a search term, a status button's count is the length of its list. */
  lemma FilterCountIsListLength(links: seq<PaymentLink>, filter: string)
    ensures GetFilterCount(links, filter) == |Filter(links, ListedBy(filter, ""))|
  {
    if filter == "All" {
      FilterKeepsAll(links, ListedBy(filter, ""));
    } else {
      FilterAgree(links, LinkStatusIs(Lower(filter)), ListedBy(filter, ""));
    }
  }

  /** The 'Active links' card shows the count of the 'Active' button. */
  lemma ActiveCardMatchesCount(links: seq<PaymentLink>)
    ensures ComputeLinkStats(links).activeLinks == GetFilterCount(links, "Active")
  {
    assert Lower("Active") == "active";
  }

  /** Creating a link adds one to the total, one to the active count when
      the new link is active, and its revenue to the total revenue. */
  lemma StatsAfterAddLink(links: seq<PaymentLink>, l: PaymentLink)
    ensures var before, after := ComputeLinkStats(links), ComputeLinkStats(ReduceLinks(links, AddLink(l)));
      && after.totalLinks == before.totalLinks + 1
      && after.activeLinks == before.activeLinks + (if l.status == LinkActive then 1 else 0)
      && after.totalRevenue == before.totalRevenue + l.paid * l.amount
  {
    var after := ReduceLinks(links, AddLink(l));
    assert after == [l] + links;
    assert |Filter(after, LinkStatusIs("active"))|
      == |Filter(links, LinkStatusIs("active"))| + (if l.status == LinkActive then 1 else 0) by {
      FilterConcat([l], links, LinkStatusIs("active"));
      FilterSingle(l, LinkStatusIs("active"));
      assert LinkStatusIs("active")(l) <==> l.status == LinkActive;
    }
    assert SumOf(after, RevenueOf) == SumOf(links, RevenueOf) + RevenueOf(l) by {
      SumConcat([l], links, RevenueOf);
      assert SumOf([l], RevenueOf) == RevenueOf(l) by { assert [l][..0] == []; }
    }
  }

  /** Switching a link's status keeps the number of links and the revenue. */
  lemma StatsAfterToggle(links: seq<PaymentLink>, id: string, s: LinkStatus)
    ensures var before, after := ComputeLinkStats(links), ComputeLinkStats(ReduceLinks(links, ToggleStatus(id, s)));
      after.totalLinks == before.totalLinks && after.totalRevenue == before.totalRevenue
  {
    SumOfMapMatching(links, LinkIdIs(id), SetStatus(s), RevenueOf, RevenueOf);
  }

  // ---------------------------------------------------------------------
  // Page state
  // ---------------------------------------------------------------------

  /** The link open in the drawer after `id` switches to status `s`: updated
      when it is that link, untouched otherwise. */
  function ToggledSelection(selected: Option<PaymentLink>, id: string, s: LinkStatus): (r: Option<PaymentLink>)
    ensures r.None? <==> selected.None?
    ensures selected.Some? && selected.value.id == id ==> r == Some(selected.value.(status := s))
    ensures selected.None? || selected.value.id != id ==> r == selected
  {
    match selected
    case Some(l) => if l.id == id then Some(l.(status := s)) else selected
    case None => None
  }

  /** A link that was on the list when it was opened is still the list's
      version of it after a toggle: the drawer and the list agree. */
  lemma ToggleKeepsSelectionInList(links: seq<PaymentLink>, selected: Option<PaymentLink>, id: string, s: LinkStatus)
    requires selected.None? || selected.value in links
    ensures var r := ToggledSelection(selected, id, s);
      r.None? || r.value in ReduceLinks(links, ToggleStatus(id, s))
  {
    if selected.Some? {
      var i :| 0 <= i < |links| && links[i] == selected.value;
      assert ReduceLinks(links, ToggleStatus(id, s))[i] == ToggledSelection(selected, id, s).value;
    }
  }

  /** The page: the link list kept by the reducer and the link open in the
      detail drawer. */
  class LinksPage {
    var links: seq<PaymentLink>
    var selected: Option<PaymentLink>

    /** The drawer shows a link of the list, or nothing. */
    predicate Valid()
      reads this
    {
      selected.None? || selected.value in links
    }

    constructor(initial: seq<PaymentLink>)
      ensures links == initial && selected == None
      ensures Valid()
    {
      links := initial;
      selected := None;
    }

    /** `handleRowClick`: open a link of the list in the drawer. */
    method Open(i: nat)
      requires i < |links|
      modifies this
      ensures links == old(links) && selected == Some(links[i])
      ensures Valid()
    {
      selected := Some(links[i]);
    }

    /** `handleCreateLink`: the new link goes to the front of the list. */
    method CreateLink(l: PaymentLink)
      requires Valid()
      modifies this
      ensures links == ReduceLinks(old(links), AddLink(l)) && selected == old(selected)
      ensures Valid()
    {
      links := ReduceLinks(links, AddLink(l));
    }

    /** `handleToggleStatus`: switch the status of the links with id `id`,
      and of the drawer's link when it is one of them. */
    method ToggleLinkStatus(id: string, s: LinkStatus)
      requires Valid()
      modifies this
      ensures links == ReduceLinks(old(links), ToggleStatus(id, s))
      ensures selected == ToggledSelection(old(selected), id, s)
      ensures Valid()
    {
      ToggleKeepsSelectionInList(links, selected, id, s);
      links := ReduceLinks(links, ToggleStatus(id, s));
      if selected.Some? && selected.value.id == id {
        selected := Some(selected.value.(status := s));
      }
    }
  }
}
