/** The derived figures of the reports screen: the footer totals of the group
    summaries, the on-time and overdue percentages, the defaulters list, and
    the expected revenue per billing component. */
module ReportsTab {
  import opened Wrappers
  import opened Seqs
  import opened CollectionsTypes
  import opened CollectionsData

  // ---------------------------------------------------------------------
  // Totals and percentages
  // ---------------------------------------------------------------------

  datatype ReportTotals = ReportTotals(
    totalExpected: int, totalCollected: int, totalOverdue: int, totalCustomers: int, overallRate: real)

  /** The footer totals of the group summaries, with the overall collection rate. */
  function ComputeReportTotals(summaries: seq<GroupCollectionSummary>): (r: ReportTotals)
    ensures r.totalExpected <= 0 ==> r.overallRate == 0.0
    ensures r.totalExpected > 0 ==> r.overallRate * (r.totalExpected as real) == (r.totalCollected as real) * 100.0
  {
    var t := TotalOfSummaries(summaries);
    ReportTotals(t.expected, t.collected, t.overdue, t.customerCount, Rate(t.collected, t.expected))
  }

  /** `Math.round(count / total * 100)` on exact rationals, or 0 when `total`
      is 0: the integer nearest to 100·count/total, a half rounded up. */
  function RoundedPercent(count: nat, total: nat): (r: int)
    ensures total == 0 ==> r == 0
    ensures 0 <= r
    ensures total > 0 ==> 2 * total * r - total <= 200 * count < 2 * total * r + total
  {
    if total > 0 then
      var q := (200 * count + total) / (2 * total);
      DivBounds(200 * count + total, 2 * total);
      q
    else 0
  }

  lemma DivBounds(a: nat, b: nat)
    requires b > 0
    ensures b * (a / b) <= a < b * (a / b) + b
  {
  }

  /** A share of at most the whole is a percentage between 0 and 100. */
  lemma RoundedPercentBounds(count: nat, total: nat)
    requires count <= total
    ensures 0 <= RoundedPercent(count, total) <= 100
  {
    var r := RoundedPercent(count, total);
    if total > 0 {
      if r > 100 {
        assert 2 * total * r >= 2 * total * 101 by { MulMono(2 * total, 101, r); }
      }
    }
  }

  lemma MulMono(k: nat, a: int, b: int)
    requires a <= b
    ensures k * a <= k * b
  {
  }

  /** A count of customers out of the active and paused ones, and its percentage. */
  datatype PaymentShare = PaymentShare(count: nat, total: nat, pct: int)

  /** The active and paused customers, the base of both percentages. */
  function ActiveTotal(customers: seq<Customer>): nat {
    |Filter(customers, CountsInStats)|
  }

  /** Customers paid in full, out of the active and paused ones. */
  function OnTimePayments(customers: seq<Customer>): (r: PaymentShare)
    ensures r.count == ComputeCollectionStats(customers).onTimeCount
    ensures r.total == |Filter(customers, CountsInStats)| && r.count <= r.total
    ensures 0 <= r.pct <= 100 && (r.total == 0 ==> r.pct == 0)
  {
    var stats := ComputeCollectionStats(customers);
    var total := ActiveTotal(customers);
    RoundedPercentBounds(stats.onTimeCount, total);
    PaymentShare(stats.onTimeCount, total, RoundedPercent(stats.onTimeCount, total))
  }

  /** Customers with an overdue amount, out of the active and paused ones. */
  function OverduePayments(customers: seq<Customer>): (r: PaymentShare)
    ensures r.count == ComputeCollectionStats(customers).overdueCount
    ensures r.total == |Filter(customers, CountsInStats)| && r.count <= r.total
    ensures 0 <= r.pct <= 100 && (r.total == 0 ==> r.pct == 0)
  {
    var stats := ComputeCollectionStats(customers);
    var total := ActiveTotal(customers);
    RoundedPercentBounds(stats.overdueCount, total);
    PaymentShare(stats.overdueCount, total, RoundedPercent(stats.overdueCount, total))
  }

  // ---------------------------------------------------------------------
  // Defaulters
  // ---------------------------------------------------------------------

  /** The defaulters list: exactly the customers with an overdue amount,
      whatever their status, largest overdue amount first. */
  function Defaulters(customers: seq<Customer>): (r: seq<Customer>)
    ensures multiset(r) == multiset(Filter(customers, HasOverdue))
    ensures SortedDescBy(r, OverdueOf)
    ensures forall c :: c in r <==> c in customers && c.totalOverdue > 0
  {
    var kept := Filter(customers, HasOverdue);
    var r := SortDescBy(kept, OverdueOf);
    assert forall c :: c in r <==> c in kept by {
      forall c ensures c in r <==> c in kept {
        assert c in r <==> c in multiset(r);
        assert c in kept <==> c in multiset(kept);
      }
    }
    r
  }

  /** Defaulters with equal overdue amounts appear in the order of the customer list. */
  lemma DefaultersKeepTies(customers: seq<Customer>, amount: int)
    ensures Filter(Defaulters(customers), KeyIs(OverdueOf, amount)) == Filter(Filter(customers, HasOverdue), KeyIs(OverdueOf, amount))
  {
    SortKeepsTies(Filter(customers, HasOverdue), OverdueOf, amount);
  }

  // ---------------------------------------------------------------------
  // Revenue per component
  // ---------------------------------------------------------------------

  /** An entry of the revenue dictionary, keyed by component id. */
  datatype RevenueEntry = RevenueEntry(name: string, kind: string, expected: int)

  /** A row of the revenue table. */
  datatype RevenueRow = RevenueRow(id: string, name: string, kind: string, expected: int)

  function FrequencyLabel(f: ComponentFrequency): (r: string)
    ensures r == "Recurring" <==> f == Recurring
  {
    match f
    case Recurring => "Recurring"
    case OneTimeFee => "One-time"
  }

  function InitialEntry(c: BillingComponent): RevenueEntry {
    RevenueEntry(c.name, FrequencyLabel(c.frequency), 0)
  }

  function ComponentIds(components: seq<BillingComponent>): (r: seq<string>)
    ensures |r| == |components| && forall i :: 0 <= i < |components| ==> r[i] == components[i].id
  {
    seq(|components|, i requires 0 <= i < |components| => components[i].id)
  }

  /** The keys of the dictionary in insertion order: each component id where
      it first appears. */
  function ComponentKeys(components: seq<BillingComponent>): (r: seq<string>)
    ensures Distinct(r)
    ensures forall k :: k in r <==> k in ComponentIds(components)
  {
    if |components| == 0 then []
    else
      var init := components[..|components| - 1];
      assert ComponentIds(components) == ComponentIds(init) + [components[|components| - 1].id];
      var keys, k := ComponentKeys(init), components[|components| - 1].id;
      if k in keys then keys else keys + [k]
  }

  /** The dictionary after the components are entered one by one, a repeated
      id overwriting the earlier entry. */
  function InitialEntries(components: seq<BillingComponent>): (r: map<string, RevenueEntry>)
    ensures forall k :: k in r <==> k in ComponentIds(components)
    ensures forall k :: k in r ==> r[k].expected == 0
  {
    if |components| == 0 then map[]
    else
      var init := components[..|components| - 1];
      assert ComponentIds(components) == ComponentIds(init) + [components[|components| - 1].id];
      InitialEntries(init)[components[|components| - 1].id := InitialEntry(components[|components| - 1])]
  }

  /** With distinct component ids, every component gets its own row, in
      component order. */
  lemma {:induction false} ComponentKeysDistinct(components: seq<BillingComponent>)
    requires Distinct(ComponentIds(components))
    ensures ComponentKeys(components) == ComponentIds(components)
  {
    if |components| > 0 {
      var n := |components|;
      var init, last := components[..n - 1], components[n - 1];
      assert ComponentIds(init) == ComponentIds(components)[..n - 1];
      ComponentKeysDistinct(init);
      assert last.id !in ComponentIds(init) by {
        forall i | 0 <= i < n - 1 ensures ComponentIds(init)[i] != last.id {
          assert ComponentIds(components)[i] != ComponentIds(components)[n - 1];
        }
      }
      assert ComponentIds(components) == ComponentIds(init) + [last.id];
    }
  }

  /** With distinct component ids, each row holds the entry of its own
      component, named and labelled after it. */
  lemma {:induction false} InitialEntriesDistinct(components: seq<BillingComponent>)
    requires Distinct(ComponentIds(components))
    ensures forall i :: 0 <= i < |components| ==> InitialEntries(components)[components[i].id] == InitialEntry(components[i])
  {
    if |components| > 0 {
      var n := |components|;
      var init, last := components[..n - 1], components[n - 1];
      assert ComponentIds(init) == ComponentIds(components)[..n - 1];
      InitialEntriesDistinct(init);
      var m := InitialEntries(components);
      assert m == InitialEntries(init)[last.id := InitialEntry(last)];
      forall i | 0 <= i < n ensures m[components[i].id] == InitialEntry(components[i]) {
        if i < n - 1 {
          assert ComponentIds(components)[i] != ComponentIds(components)[n - 1];
          assert components[i] == init[i];
        }
      }
    }
  }

  function GroupIdIs(groupId: string): CustomerGroup -> bool {
    (g: CustomerGroup) => g.id == groupId
  }

  /** The stored customer count of the structure's group, 0 if the group is missing. */
  function CustomerCountOf(groups: seq<CustomerGroup>, groupId: string): int {
    match Find(groups, GroupIdIs(groupId))
    case Some(g) => g.customerCount
    case None => 0
  }

  /** A line amount times the customer count of its structure's group. */
  function Weighted(amount: int, count: int): int { amount * count }

  /** What one structure line adds to component `k`'s row. */
  function LineShare(k: string, count: int): StructureLine -> int {
    (l: StructureLine) => if l.componentId == k then Weighted(l.amount, count) else 0
  }

  function StructureShare(groups: seq<CustomerGroup>, k: string): BillingStructure -> int {
    (st: BillingStructure) => SumOf(st.components, LineShare(k, CustomerCountOf(groups, st.groupId)))
  }

  /** The expected revenue of component `k`: over all structure lines naming
      it, the line amount times the structure group's customer count. */
  function ExpectedRevenue(structures: seq<BillingStructure>, groups: seq<CustomerGroup>, k: string): int {
    SumOf(structures, StructureShare(groups, k))
  }

  /** What one structure line adds to the grand total: nothing if it names
      none of the `known` components. */
  function KnownLineShare(known: seq<string>, count: int): StructureLine -> int {
    (l: StructureLine) => if l.componentId in known then Weighted(l.amount, count) else 0
  }

  function KnownStructureShare(groups: seq<CustomerGroup>, known: seq<string>): BillingStructure -> int {
    (st: BillingStructure) => SumOf(st.components, KnownLineShare(known, CustomerCountOf(groups, st.groupId)))
  }

  /** All structure lines naming a known component, weighted by their group's count. */
  function KnownRevenue(structures: seq<BillingStructure>, groups: seq<CustomerGroup>, known: seq<string>): int {
    SumOf(structures, KnownStructureShare(groups, known))
  }

  /** `revenueMap[id].expected += amount * count` when the line's component has an entry. */
  function AddLine(m: map<string, RevenueEntry>, line: StructureLine, count: int): map<string, RevenueEntry> {
    if line.componentId in m then
      m[line.componentId := m[line.componentId].(expected := m[line.componentId].expected + Weighted(line.amount, count))]
    else m
  }

  lemma AddLineAt(m: map<string, RevenueEntry>, line: StructureLine, count: int)
    requires line.componentId in m
    ensures AddLine(m, line, count)
         == m[line.componentId := m[line.componentId].(expected := m[line.componentId].expected + Weighted(line.amount, count))]
  {
  }

  /** The inner loop: the lines of one structure, in order. */
  function AddLines(m: map<string, RevenueEntry>, lines: seq<StructureLine>, count: int): map<string, RevenueEntry> {
    if |lines| == 0 then m
    else AddLine(AddLines(m, lines[..|lines| - 1], count), lines[|lines| - 1], count)
  }

  /** The outer loop: the structures in order, each with its group's count. */
  function AddStructures(m: map<string, RevenueEntry>, structures: seq<BillingStructure>, groups: seq<CustomerGroup>): map<string, RevenueEntry> {
    if |structures| == 0 then m
    else
      var st := structures[|structures| - 1];
      AddLines(AddStructures(m, structures[..|structures| - 1], groups), st.components, CustomerCountOf(groups, st.groupId))
  }

  /** Adding lines creates no entry and raises each entry by its share of the lines. */
  lemma {:induction false} AddLinesSpec(m: map<string, RevenueEntry>, lines: seq<StructureLine>, count: int)
    ensures forall k :: k in AddLines(m, lines, count) <==> k in m
    ensures forall k :: k in m ==>
      AddLines(m, lines, count)[k] == m[k].(expected := m[k].expected + SumOf(lines, LineShare(k, count)))
  {
    if |lines| > 0 {
      AddLinesSpec(m, lines[..|lines| - 1], count);
    }
  }

  lemma {:induction false} AddStructuresSpec(m: map<string, RevenueEntry>, structures: seq<BillingStructure>, groups: seq<CustomerGroup>)
    ensures forall k :: k in AddStructures(m, structures, groups) <==> k in m
    ensures forall k :: k in m ==>
      AddStructures(m, structures, groups)[k] == m[k].(expected := m[k].expected + SumOf(structures, StructureShare(groups, k)))
  {
    if |structures| > 0 {
      var init, st := structures[..|structures| - 1], structures[|structures| - 1];
      AddStructuresSpec(m, init, groups);
      AddLinesSpec(AddStructures(m, init, groups), st.components, CustomerCountOf(groups, st.groupId));
    }
  }

  /** Over the keys, adding lines adds exactly the lines that name a key. */
  lemma {:induction false} AddLinesTotal(m: map<string, RevenueEntry>, lines: seq<StructureLine>, count: int, keys: seq<string>)
    requires Distinct(keys) && forall k :: k in m <==> k in keys
    ensures SumOf(keys, ExpectedIn(AddLines(m, lines, count)))
         == SumOf(keys, ExpectedIn(m)) + SumOf(lines, KnownLineShare(keys, count))
  {
    if |lines| > 0 {
      var init, line := lines[..|lines| - 1], lines[|lines| - 1];
      AddLinesTotal(m, init, count, keys);
      var before := AddLines(m, init, count);
      AddLinesSpec(m, init, count);
      if line.componentId in before {
        SumOfPointUpdate(keys, ExpectedIn(before), ExpectedIn(AddLine(before, line, count)), line.componentId, Weighted(line.amount, count));
      }
    }
  }

  lemma {:induction false} AddStructuresTotal(m: map<string, RevenueEntry>, structures: seq<BillingStructure>, groups: seq<CustomerGroup>, keys: seq<string>)
    requires Distinct(keys) && forall k :: k in m <==> k in keys
    ensures SumOf(keys, ExpectedIn(AddStructures(m, structures, groups)))
         == SumOf(keys, ExpectedIn(m)) + KnownRevenue(structures, groups, keys)
  {
    if |structures| > 0 {
      var init, st := structures[..|structures| - 1], structures[|structures| - 1];
      AddStructuresTotal(m, init, groups, keys);
      AddStructuresSpec(m, init, groups);
      AddLinesTotal(AddStructures(m, init, groups), st.components, CustomerCountOf(groups, st.groupId), keys);
    }
  }

  function ExpectedIn(m: map<string, RevenueEntry>): string -> int {
    (k: string) => if k in m then m[k].expected else 0
  }

  function RowExpected(r: RevenueRow): int { r.expected }

  /** `Object.entries(revenueMap).map(...)`: one row per key, in key order. */
  function RowsOf(keys: seq<string>, m: map<string, RevenueEntry>): (r: seq<RevenueRow>)
    requires forall k :: k in keys ==> k in m
    ensures |r| == |keys|
    ensures forall i :: 0 <= i < |keys| ==>
      r[i] == RevenueRow(keys[i], m[keys[i]].name, m[keys[i]].kind, m[keys[i]].expected)
  {
    seq(|keys|, i requires 0 <= i < |keys| => RevenueRow(keys[i], m[keys[i]].name, m[keys[i]].kind, m[keys[i]].expected))
  }

  lemma {:induction false} SumOfRows(keys: seq<string>, m: map<string, RevenueEntry>)
    requires forall k :: k in keys ==> k in m
    ensures SumOf(RowsOf(keys, m), RowExpected) == SumOf(keys, ExpectedIn(m))
  {
    if |keys| > 0 {
      var init := keys[..|keys| - 1];
      SumOfRows(init, m);
      assert RowsOf(keys, m)[..|keys| - 1] == RowsOf(init, m);
    }
  }

  /** Each row of the table the revenue loops build: the component's name and
      label, and its expected revenue. */
  lemma RevenueRowsSpec(components: seq<BillingComponent>, structures: seq<BillingStructure>, groups: seq<CustomerGroup>)
    ensures var keys, m := ComponentKeys(components), AddStructures(InitialEntries(components), structures, groups);
      && (forall k :: k in keys ==> k in m)
      && forall i :: 0 <= i < |keys| ==>
           RowsOf(keys, m)[i] == RevenueRow(keys[i], InitialEntries(components)[keys[i]].name,
                                  InitialEntries(components)[keys[i]].kind, ExpectedRevenue(structures, groups, keys[i]))
  {
    AddStructuresSpec(InitialEntries(components), structures, groups);
  }

  /** The total of the table the revenue loops build. */
  lemma RevenueTotalSpec(components: seq<BillingComponent>, structures: seq<BillingStructure>, groups: seq<CustomerGroup>)
    ensures var keys, m := ComponentKeys(components), AddStructures(InitialEntries(components), structures, groups);
      && (forall k :: k in keys ==> k in m)
      && SumOf(RowsOf(keys, m), RowExpected) == KnownRevenue(structures, groups, keys)
  {
    var keys, initial := ComponentKeys(components), InitialEntries(components);
    var m := AddStructures(initial, structures, groups);
    AddStructuresSpec(initial, structures, groups);
    SumOfAllZero(keys, ExpectedIn(initial));
    AddStructuresTotal(initial, structures, groups, keys);
    SumOfRows(keys, m);
  }

  /** `components.forEach(...)`: one zero entry per component id, a repeated
      id overwriting the entry in place; `keys` is the dictionary's key order. */
  method EnterComponents(components: seq<BillingComponent>)
    returns (revenueMap: map<string, RevenueEntry>, keys: seq<string>)
    ensures revenueMap == InitialEntries(components)
    ensures keys == ComponentKeys(components)
  {
    revenueMap := map[];
    keys := [];
    var i := 0;
    while i < |components|
      invariant 0 <= i <= |components|
      invariant keys == ComponentKeys(components[..i])
      invariant revenueMap == InitialEntries(components[..i])
    {
      var comp := components[i];
      assert components[..i + 1][..i] == components[..i];
      if comp.id !in revenueMap {
        keys := keys + [comp.id];
      }
      revenueMap := revenueMap[comp.id := InitialEntry(comp)];
      i := i + 1;
    }
    assert components[..i] == components;
  }

  /** `struct.components.forEach(...)`: adds each line naming a known
      component, times `count`, to that component's entry. */
  method AddStructureLines(revenueMap: map<string, RevenueEntry>, lines: seq<StructureLine>, count: int)
    returns (m: map<string, RevenueEntry>)
    ensures m == AddLines(revenueMap, lines, count)
  {
    m := revenueMap;
    var j := 0;
    while j < |lines|
      invariant 0 <= j <= |lines|
      invariant m == AddLines(revenueMap, lines[..j], count)
    {
      var line := lines[j];
      assert lines[..j + 1][..j] == lines[..j];
      if line.componentId in m {
        var entry := m[line.componentId];
        m := m[line.componentId := entry.(expected := entry.expected + line.amount * count)];
      }
      j := j + 1;
    }
    assert lines[..j] == lines;
  }

  /** The revenue table: one row per distinct component id in first-appearance
      order, named after the last component with that id, whose expected
      amount is that component's expected revenue; the grand total is the sum
      of the rows and also the total of every structure line that names a
      known component. */
  method ComponentRevenue(components: seq<BillingComponent>, structures: seq<BillingStructure>, groups: seq<CustomerGroup>)
    returns (rows: seq<RevenueRow>, grandTotal: int)
    ensures |rows| == |ComponentKeys(components)|
    ensures forall i :: 0 <= i < |rows| ==>
      var k := ComponentKeys(components)[i];
      rows[i] == RevenueRow(k, InitialEntries(components)[k].name, InitialEntries(components)[k].kind,
                            ExpectedRevenue(structures, groups, k))
    ensures grandTotal == SumOf(rows, RowExpected)
    ensures grandTotal == KnownRevenue(structures, groups, ComponentKeys(components))
  {
    var revenueMap, keys := EnterComponents(components);
    ghost var initial := revenueMap;

    var s := 0;
    while s < |structures|
      invariant 0 <= s <= |structures|
      invariant revenueMap == AddStructures(initial, structures[..s], groups)
    {
      var st := structures[s];
      var count := CustomerCountOf(groups, st.groupId);
      revenueMap := AddStructureLines(revenueMap, st.components, count);
      assert structures[..s + 1][..s] == structures[..s];
      s := s + 1;
    }
    assert structures[..s] == structures;
    RevenueRowsSpec(components, structures, groups);
    RevenueTotalSpec(components, structures, groups);
    rows := RowsOf(keys, revenueMap);
    grandTotal := SumOf(rows, RowExpected);
  }
}
