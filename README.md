# Merchant dashboard data logic, in Dafny

This project models the data logic under a merchant dashboard's screens. It
leaves out the rendering. The model covers:

- **Fee collections.** The state container's reducer over customers, groups,
  billing components, structures, discounts, pricing plans, billing cycles
  and payment schedules. The portfolio statistics (`computeCollectionStats`)
  and the per-group summaries (`computeGroupSummaries`).
- **Payment links.** The link list reducer, the short-URL slug builder and the
  zero-views case of the conversion rate.
- **The derived lists of the screens**, lifted out of the components as
  functions and methods:
  - the collections screen's filters, counts, totals and row status;
  - the reports screen's totals, percentages, defaulters list and
    per-component revenue table;
  - the dashboard's totals, running billing cycle, upcoming dues and recent
    activity;
  - the customer list's filters, status counts and plan-name column;
  - the payment-link list's filters, summary cards, counts and selected link.
- **The add-customer form.** Its validator, its field-edit error clearing and
  the customer record it submits.

The model uses these representations:

- Amounts are unbounded `int`. The collections screens' amounts are whole
  rupees. A payment link's amount can carry paise: the creation form stores
  the entered amount rounded to two decimals. The model still holds it as a
  whole number (see "## Left out").
- Rates are exact `real`s, with the source's zero-denominator branch written
  out.
- `Math.round` of a percentage is computed exactly on rationals, as
  floor(x + 1/2).
- Lists are `seq`s of datatypes.
- Lower-casing is over ASCII letters. Trimming and the `\s` class use the
  ECMAScript whitespace and line-terminator characters.

The modules, each in its own file:

- `Seqs`: generic filter, sum, find, take, insertion sort and their lemmas.
- `Text`: ASCII lower-casing, trimming and substring search.
- `Wrappers`: `Option`.
- `CollectionsTypes`: the record shapes of the fee-collections state.
- `CollectionsData`: the statistics, the group summaries and the reducer.
- `PaymentLinksData`: the link reducer, the slug and the conversion rate.
- `CollectionsTab`, `ReportsTab`, `DashboardTab`, `CustomersTab`,
  `PaymentLinksPage`, `AddCustomerForm`: the screens' logic.

The source rebuilds immutable values in most places. There the model is
functions over datatypes. Where the source updates step by step, the model
is imperative:

- a `result` reassigned through successive filters;
- an if/else chain;
- a dictionary filled in nested loops;
- an array pushed to in nested loops;
- an errors record filled field by field;
- page state that the handlers update.

Each such method is proved against a specification function, and the
function's properties are proved as lemmas.

## Model

| member | source | states |
|---|---|---|
| CollectionsData.Rate | src/pages/easy-collections/data.ts:280 | 0 when expected is not positive; otherwise rate × expected = collected × 100; within [0, 100] when 0 ≤ collected ≤ expected |
| CollectionsData.ComputeCollectionStats | src/pages/easy-collections/data.ts:275-296 | the late count equals the overdue count; on-time + pending and overdue each at most the number of active/paused customers; rate 0 without anything expected |
| CollectionsData.StatsRate | src/pages/easy-collections/data.ts:280 | the collection rate is collected/expected × 100, or 0 when expected ≤ 0 |
| CollectionsData.StatsRateBounded | src/pages/easy-collections/data.ts:280 | the rate lies in [0, 100] when no included customer paid a negative amount or more than due |
| CollectionsData.StatsOnlyIncluded | src/pages/easy-collections/data.ts:276 | the statistics of a list equal those of its active and paused customers alone |
| CollectionsData.StatsOverAllCustomers | src/pages/easy-collections/data.ts:277-294 | each total is the sum of totalDue / totalPaid / totalOverdue over active or paused customers. On time counts paid ≥ due, so a zero-due customer counts. Overdue counts overdue > 0. Pending counts paid = 0 and due > 0 |
| CollectionsData.StatsOfConcat | src/pages/easy-collections/data.ts:276-284 | totals and counts of a concatenation are the sums of the parts' |
| CollectionsData.StatsIgnoreExcludedCustomer | src/pages/easy-collections/data.ts:276 | adding an exited or suspended customer changes no field of the statistics |
| CollectionsData.SummarizeGroup | src/pages/easy-collections/data.ts:302-316 | id and name copied from the group. Sums and count are over customers of that group that have not exited. Rate 0 without anything expected |
| CollectionsData.ComputeGroupSummaries | src/pages/easy-collections/data.ts:298-317 | exactly one summary per group, in group order |
| CollectionsData.SuspendedCountsInGroupOnly | src/pages/easy-collections/data.ts:276-303 | a suspended customer raises its group's count and expected total but leaves the statistics unchanged |
| CollectionsData.GroupSummariesPartition | src/pages/easy-collections/data.ts:298-317 | with distinct group ids, the summaries' counts and sums add up to those over the non-exited customers of a listed group |
| CollectionsData.SummaryTotalsOverCustomers | src/pages/easy-collections/data.ts:298-317 | the footer totals of the summaries are totals over the covered customers, and their rate lies in [0, 100] when amounts are consistent |
| CollectionsData.MergeCustomerSpec | src/pages/easy-collections/data.ts:348-354 | for name, status and totalDue, a merge takes the patch's value when present and keeps the old one otherwise; the empty patch is the identity; merging the same patch again changes nothing |
| CollectionsData.RecordInstallment | src/pages/easy-collections/data.ts:388-411 | same number of installments. Only the matching installment gets the new status and paid amount. totalPaid is the sum of the installments' paid amounts. Every other schedule field is unchanged |
| CollectionsData.Reduce | src/pages/easy-collections/data.ts:412-413 | an action the reducer does not know returns the state unchanged |
| CollectionsData.ReduceSetupComplete | src/pages/easy-collections/data.ts:329-345 | SETUP_COMPLETE sets the set-up flag and takes every field from the payload, keeping only the customer discounts |
| CollectionsData.ReduceAppends | src/pages/easy-collections/data.ts:346-380 | each ADD_* action and APPLY_DISCOUNT appends its payload to the end of its one list; every other field is unchanged |
| CollectionsData.ReduceUpdates | src/pages/easy-collections/data.ts:348-387 | UPDATE_CUSTOMER, UPDATE_COMPONENT and UPDATE_BILLING_CYCLE keep the list's length and order, merge the updates into exactly the elements with the matching id, and change no other field |
| CollectionsData.ReduceDeleteComponent | src/pages/easy-collections/data.ts:366-367 | DELETE_COMPONENT keeps exactly the components with another id, as an order-preserving subsequence; nothing else changes |
| CollectionsData.ReduceInstallmentStatus | src/pages/easy-collections/data.ts:388-411 | UPDATE_INSTALLMENT_STATUS rewrites only the schedules with the given id, whose totalPaid becomes the sum of the updated installments' paid amounts; nothing else changes |
| CollectionsData.ReduceUpdateTwice | src/pages/easy-collections/data.ts:348-387 | dispatching the same update or deletion twice equals dispatching it once |
| CollectionsData.RecordInstallmentTwice | src/pages/easy-collections/data.ts:388-411 | recording the same installment payment twice equals recording it once |
| CollectionsData.AddCustomerStats | src/pages/easy-collections/data.ts:275-296 | after ADD_CUSTOMER the statistics move by exactly the new customer's contribution |
| PaymentLinksData.ReduceLinks | src/pages/payment-links/data.ts:232-247 | ADD_LINK: the new link at the front and the old list after it. UPDATE_LINK: length kept, merge into id matches only. TOGGLE_STATUS: only the matching links' status changes. Any other action: list unchanged |
| PaymentLinksData.ReduceLinksTwice | src/pages/payment-links/data.ts:236-243 | repeating an update or a toggle equals doing it once |
| PaymentLinksData.ReplaceRunsWellFormed | src/pages/payment-links/data.ts:222 | the run replacement yields only a–z, 0–9 and '-', never two '-' in a row |
| PaymentLinksData.ReplaceRunsKeepsSlugChars | src/pages/payment-links/data.ts:222 | dropping the hyphens from the replacement gives exactly the a–z0–9 characters of the input, in order |
| PaymentLinksData.DropNonSlugSpec | src/pages/payment-links/data.ts:222 | the dropped part of a run is exactly the leading characters outside a–z0–9; what is left is empty or starts with a slug character |
| PaymentLinksData.ReplaceRunsSplit | src/pages/payment-links/data.ts:222 | no run crosses the end of a text ending in a slug character: the replacement of the joined text is the two replacements joined |
| PaymentLinksData.ReplaceRunsOfRun | src/pages/payment-links/data.ts:222 | each maximal run of characters outside a–z0–9 becomes exactly one '-' in its place: replacing a + run + b gives the replacement of a, then '-', then the replacement of b |
| PaymentLinksData.ReplaceRunsOfSlug | src/pages/payment-links/data.ts:222 | a well-formed slug not starting with '-' is its own replacement |
| PaymentLinksData.Slug | src/pages/payment-links/data.ts:222 | at most 20 characters, well-formed |
| PaymentLinksData.GenerateShortUrl | src/pages/payment-links/data.ts:221-224 | "rzp.io/l/" followed by a well-formed slug of at most 20 characters |
| PaymentLinksData.SlugOfSlug | src/pages/payment-links/data.ts:222 | a short lower-case slug title yields itself as its slug |
| PaymentLinksData.GetConversionRate | src/pages/payment-links/data.ts:229-230 | the literal text "0.0" exactly when views is 0; otherwise the percentage paid/views × 100, which is 0 (also shown as "0.0") when nothing was paid |
| CollectionsTab.ActiveCustomers | src/pages/easy-collections/CollectionsTab.tsx:39-42 | exactly the customers that have not exited, as an order-preserving subsequence |
| CollectionsTab.FilterByCollection | src/pages/easy-collections/CollectionsTab.tsx:45-53 | the collection step on the active customers keeps exactly those that have not exited and pass the collection filter; an unknown label keeps them all |
| CollectionsTab.FilterByGroup | src/pages/easy-collections/CollectionsTab.tsx:55-57 | the group step adds the group condition to what was kept, and 'All' keeps everything |
| CollectionsTab.FilterBySearch | src/pages/easy-collections/CollectionsTab.tsx:59-62 | the search step adds the case-insensitive search condition, and an empty term keeps everything |
| CollectionsTab.FilteredCustomers | src/pages/easy-collections/CollectionsTab.tsx:44-65 | the result of the successive filters is the one filter by collection filter, group and search together. It is a subsequence of the active customers, and no exited customer appears |
| CollectionsTab.GetFilterCount | src/pages/easy-collections/CollectionsTab.tsx:67-73 | at most the number of active customers; 0 for an unknown filter |
| CollectionsTab.FilterCountBoundsList | src/pages/easy-collections/CollectionsTab.tsx:44-73 | for a known filter, the count is the length of that filter's list, and bounds the list under any group and search |
| CollectionsTab.FilterCountsDisjoint | src/pages/easy-collections/CollectionsTab.tsx:47-73 | Fully Paid + Pending and Overdue + Pending never exceed All |
| CollectionsTab.SearchIgnoresCase | src/pages/easy-collections/CollectionsTab.tsx:59-62 | the search is case-insensitive, and an empty term keeps everyone |
| CollectionsTab.Outstanding | src/pages/easy-collections/CollectionsTab.tsx:158 | max(0, due − paid): never negative, never below due − paid |
| CollectionsTab.ComputeTotals | src/pages/easy-collections/CollectionsTab.tsx:80-85 | the totals row: outstanding is non-negative and at least due − paid (its exact value is stated by CollectionsTab.TotalsOutstanding) |
| CollectionsTab.TotalsOutstanding | src/pages/easy-collections/CollectionsTab.tsx:80-85 | the outstanding total is non-negative and at least due − paid. It equals due − paid when nobody paid more than due |
| CollectionsTab.ClassifyRow | src/pages/easy-collections/CollectionsTab.tsx:160-169 | Overdue iff overdue > 0. Paid iff not overdue and fully paid. Pending iff not overdue and something is still owed. No Dues iff none of these |
| ReportsTab.ComputeReportTotals | src/pages/easy-collections/ReportsTab.tsx:75-82 | the overall rate is 0 without anything expected, else collected/expected × 100 |
| ReportsTab.RoundedPercent | src/pages/easy-collections/ReportsTab.tsx:87-94 | 0 when the total is 0; otherwise the integer nearest count/total × 100, halves rounded up |
| ReportsTab.RoundedPercentBounds | src/pages/easy-collections/ReportsTab.tsx:84-96 | a count at most its total gives a percentage in [0, 100] |
| ReportsTab.OnTimePayments | src/pages/easy-collections/ReportsTab.tsx:84-89 | the count is the statistics' on-time count, out of the active and paused customers; the percentage is in [0, 100], 0 without customers |
| ReportsTab.OverduePayments | src/pages/easy-collections/ReportsTab.tsx:91-96 | the same for the overdue count |
| ReportsTab.Defaulters | src/pages/easy-collections/ReportsTab.tsx:98-104 | a permutation of exactly the customers with overdue > 0, whatever their status, in non-increasing overdue order |
| ReportsTab.DefaultersKeepTies | src/pages/easy-collections/ReportsTab.tsx:98-104 | defaulters with equal overdue amounts keep their list order |
| ReportsTab.FrequencyLabel | src/pages/easy-collections/ReportsTab.tsx:132 | 'Recurring' exactly for recurring components |
| ReportsTab.InitialEntries | src/pages/easy-collections/ReportsTab.tsx:129-135 | one entry per component id, each with expected 0 |
| ReportsTab.ComponentKeys | src/pages/easy-collections/ReportsTab.tsx:129-147 | the dictionary's keys in insertion order: each component id once |
| ReportsTab.ComponentKeysDistinct | src/pages/easy-collections/ReportsTab.tsx:129-135 | with distinct ids the keys are the component ids, in component order |
| ReportsTab.InitialEntriesDistinct | src/pages/easy-collections/ReportsTab.tsx:129-135 | with distinct ids each component has its own entry, with its name and label |
| ReportsTab.AddLinesSpec | src/pages/easy-collections/ReportsTab.tsx:140-144 | a structure's lines add amount × count to the entry each line names. No entry is created, and lines naming an unknown component are ignored |
| ReportsTab.AddStructuresSpec | src/pages/easy-collections/ReportsTab.tsx:137-145 | each entry ends at its start plus the expected revenue of that component over all structures, with the group's stored count (0 when the group is missing) |
| ReportsTab.AddStructuresTotal | src/pages/easy-collections/ReportsTab.tsx:137-145 | over the keys, the loops add exactly the revenue of lines that name a known component |
| ReportsTab.RevenueRowsSpec | src/pages/easy-collections/ReportsTab.tsx:147-151 | each row has the component's name, its label and its expected revenue |
| ReportsTab.RevenueTotalSpec | src/pages/easy-collections/ReportsTab.tsx:152 | the grand total is the revenue of all lines naming a known component |
| ReportsTab.EnterComponents | src/pages/easy-collections/ReportsTab.tsx:129-135 | the loop builds the initial dictionary and its key order |
| ReportsTab.AddStructureLines | src/pages/easy-collections/ReportsTab.tsx:140-144 | the inner loop adds one structure's lines |
| ReportsTab.ComponentRevenue | src/pages/easy-collections/ReportsTab.tsx:126-155 | one row per key, each with its name, label and accumulated expected value. The grand total is the sum of the rows and the revenue of every line naming a known component |
| DashboardTab.TotalCollectionRate | src/pages/easy-collections/DashboardTab.tsx:144 | 0 when the footer totals' expected amount is not positive, else collected/expected × 100 |
| DashboardTab.DashboardTotals | src/pages/easy-collections/DashboardTab.tsx:134-142 | with distinct group ids, the totals count and sum exactly the customers that belong to some listed group (the match with the statistics is DashboardTab.DashboardTotalsMatchStats) |
| DashboardTab.DashboardTotalsMatchStats | src/pages/easy-collections/DashboardTab.tsx:127-144 | with distinct group ids, every customer in a listed group and nobody suspended, the dashboard totals equal the statistics' totals, customer count and rate |
| DashboardTab.ActiveBillingCycle | src/pages/easy-collections/DashboardTab.tsx:146-149 | none iff no cycle is active; otherwise the first active cycle |
| DashboardTab.ActiveCyclePlanName | src/pages/easy-collections/DashboardTab.tsx:151-155 | '' without an active cycle; the first matching plan's name; the raw plan id when no plan matches |
| DashboardTab.ActiveCycleCollectionRate | src/pages/easy-collections/DashboardTab.tsx:157-160 | 0 without an active cycle or when its expected total is 0, else collected/expected × 100; in [0, 100] when 0 ≤ collected ≤ expected |
| DashboardTab.CustomerNameFor | src/pages/easy-collections/DashboardTab.tsx:167-168 | 'Unknown' when no customer has the schedule's customer id, else the first match's name |
| DashboardTab.ScheduleDuesMatchUpcoming | src/pages/easy-collections/DashboardTab.tsx:165-174 | the k-th entry of a schedule is its k-th upcoming installment, named after the customer, and there are exactly as many entries as upcoming installments |
| DashboardTab.AllDuesAreUpcoming | src/pages/easy-collections/DashboardTab.tsx:164-175 | every entry is an upcoming installment of some schedule, named after that schedule's customer |
| DashboardTab.AllDuesCount | src/pages/easy-collections/DashboardTab.tsx:164-175 | the full list has one entry per upcoming installment of all schedules |
| DashboardTab.PushScheduleDues | src/pages/easy-collections/DashboardTab.tsx:165-174 | the inner loop appends exactly that schedule's entries |
| DashboardTab.UpcomingDues | src/pages/easy-collections/DashboardTab.tsx:162-178 | the first five entries of the full list in schedule-then-installment order; at most five |
| DashboardTab.RecentItems | src/pages/easy-collections/DashboardTab.tsx:180 | the first min(8, n) items, in order |
| CustomersTab.FilteredCustomers | src/pages/easy-collections/CustomersTab.tsx:52-74 | the result of the three successive filters is the one filter by status, group and search together, hence an order-preserving subsequence |
| CustomersTab.DefaultFiltersKeepEveryone | src/pages/easy-collections/CustomersTab.tsx:52-74 | with every filter at its default the whole list is shown |
| CustomersTab.SearchIgnoresCase | src/pages/easy-collections/CustomersTab.tsx:63-71 | the search on name, customer id or email is case-insensitive |
| CustomersTab.GetStatusCount | src/pages/easy-collections/CustomersTab.tsx:76-79 | at most the number of customers; 'All' gives the number of customers |
| CustomersTab.StatusCountIsListLength | src/pages/easy-collections/CustomersTab.tsx:55-79 | without group filter or search, a button's count is the length of its list |
| CustomersTab.StatusesPartition | src/pages/easy-collections/CustomersTab.tsx:76-79 | the four statuses' counts add up to the number of customers |
| CustomersTab.StatusCountsPartition | src/pages/easy-collections/CustomersTab.tsx:76-79 | Active + Paused + Exited + suspended = All, so the three buttons sum to at most All |
| CustomersTab.GetPlanName | src/pages/easy-collections/CustomersTab.tsx:86-90 | '—' for a missing or empty id or an unknown plan, else the first matching plan's name |
| PaymentLinksPage.FilteredLinks | src/pages/PaymentLinks.tsx:46-64 | the successive filters give the one filter by status and search together, an order-preserving subsequence of the links |
| PaymentLinksPage.SearchIgnoresCase | src/pages/PaymentLinks.tsx:53-61 | the search on title, id or short URL is case-insensitive |
| PaymentLinksPage.ComputeLinkStats | src/pages/PaymentLinks.tsx:66-73 | totalLinks is the number of links; activeLinks is at most that |
| PaymentLinksPage.NonNegativeRevenue | src/pages/PaymentLinks.tsx:66-73 | with non-negative counts and amounts the revenue is non-negative |
| PaymentLinksPage.GetFilterCount | src/pages/PaymentLinks.tsx:75-78 | at most the number of links; 'All' gives the number of links |
| PaymentLinksPage.FilterCountIsListLength | src/pages/PaymentLinks.tsx:49-78 | without a search, a button's count is the length of its list |
| PaymentLinksPage.ActiveCardMatchesCount | src/pages/PaymentLinks.tsx:66-78 | the active-links card equals the 'Active' button's count |
| PaymentLinksPage.StatsAfterAddLink | src/pages/PaymentLinks.tsx:66-84 | creating a link adds one to the total, one to the active count if it is active, and paid × amount to the revenue |
| PaymentLinksPage.StatsAfterToggle | src/pages/PaymentLinks.tsx:66-96 | a toggle keeps the total and the revenue |
| PaymentLinksPage.ToggledSelection | src/pages/PaymentLinks.tsx:91-93 | the selected link changes status only when its id matches; otherwise the selection is unchanged |
| PaymentLinksPage.ToggleKeepsSelectionInList | src/pages/PaymentLinks.tsx:91-96 | a selected link from the list is still the list's version after the toggle |
| PaymentLinksPage.LinksPage.Open | src/pages/PaymentLinks.tsx:86-89 | the chosen link becomes the selection; the list is unchanged |
| PaymentLinksPage.LinksPage.CreateLink | src/pages/PaymentLinks.tsx:80-84 | the list becomes the reducer's ADD_LINK result; the selection stays valid |
| PaymentLinksPage.LinksPage.ToggleLinkStatus | src/pages/PaymentLinks.tsx:91-96 | the list becomes the TOGGLE_STATUS result and the selection is updated to match |
| AddCustomerForm.EmailTestMatchesPattern | src/pages/easy-collections/AddCustomerModal.tsx:75 | the email test holds iff the text is a non-empty run, '@', a run, '.', a run, none containing whitespace or '@' |
| AddCustomerForm.FormErrorsMeaning | src/pages/easy-collections/AddCustomerModal.tsx:64-85 | a name error iff the name is blank; a customer-id error iff it is blank. An email error iff the email is non-empty and not email-shaped. A phone error iff the phone is non-empty and not 10 digits. Never a group error. The messages are the screen's |
| AddCustomerForm.CollectErrors | src/pages/easy-collections/AddCustomerModal.tsx:64-82 | the record filled field by field is the validator's error record |
| AddCustomerForm.ClearError | src/pages/easy-collections/AddCustomerModal.tsx:55-61 | an edited field's shown error is removed; every other error is kept |
| AddCustomerForm.EditKeepsOtherErrors | src/pages/easy-collections/AddCustomerModal.tsx:53-85 | editing one field never changes whether another field has an error |
| AddCustomerForm.NewCustomer | src/pages/easy-collections/AddCustomerModal.tsx:97-119 | trimmed text fields; the plan is absent when none was chosen. Active, standard billing, WhatsApp. Zero totals, empty custom fields, no family link |
| AddCustomerForm.ValidFormGivesValidCustomer | src/pages/easy-collections/AddCustomerModal.tsx:64-119 | a form without errors submits a customer with a non-empty name and customer id, and an email and phone that are empty or well-formed |
| AddCustomerForm.NewCustomerStats | src/pages/easy-collections/AddCustomerModal.tsx:97-119 | adding the submitted customer keeps every total and adds one to the on-time count only |
| AddCustomerForm.CustomerForm.UpdateField | src/pages/easy-collections/AddCustomerModal.tsx:53-62 | the field takes the value and its error, if shown, is cleared |
| AddCustomerForm.CustomerForm.Validate | src/pages/easy-collections/AddCustomerModal.tsx:64-85 | the errors become the validator's record; the result is true iff there is none |
| AddCustomerForm.CustomerForm.Submit | src/pages/easy-collections/AddCustomerModal.tsx:87-133 | a customer is dispatched iff the form has no errors. It is the form's customer, and the form then resets. Otherwise the errors are shown and nothing is dispatched |
| Text.TrimSpec | src/pages/easy-collections/AddCustomerModal.tsx:67 | trimming removes exactly the leading and trailing whitespace |
| Text.BlankIffAllWhitespace | src/pages/easy-collections/AddCustomerModal.tsx:67-71 | the trimmed text is empty iff every character is whitespace |
| Text.IncludesFindsOccurrence | src/pages/easy-collections/CustomersTab.tsx:66-70 | when the substring test holds, the term occurs at some position |
| Text.OccurrenceIncludes | src/pages/easy-collections/CustomersTab.tsx:66-70 | an occurrence at any position makes the substring test hold |
| Text.IncludesIff | src/pages/easy-collections/CustomersTab.tsx:66-70 | the substring test holds iff the term occurs at some position |
| Text.MatchesTermIgnoresCase | src/pages/easy-collections/CustomersTab.tsx:64-70 | lower-casing the term first does not change the match |

## Left out

- Clock-dependent code is not modelled:
  - the dashboard's date-range presets and its filtering of schedules and activity (the upcoming dues are computed over the schedules as given);
  - the reports screen's overdue-days column;
  - the enrollment-date formatting (the date text is a parameter of the submitted customer).
- Id generation uses randomness. Every id is a parameter.
- Floating point is not modelled: rates are exact rationals, and `Math.round` is exact rounding of a rational.
  - GetConversionRate: only the zero-views text is as shown; otherwise it returns the percentage, not the `toFixed(1)` text.
  - Currency and number formatting are left out.
- PaymentLinksPage.ComputeLinkStats: link amounts with paise are modelled as whole numbers. Revenue is a sum of paid × amount, so reading the whole number as paise keeps every total exact up to a factor of 100.
- Text.Lower: only ASCII letters are lower-cased; Unicode case mapping beyond ASCII is left out.
- CollectionsData.MergeCustomerSpec: states the field rule for three representative fields only. MergeCustomer applies the same rule to every field.
- CollectionsData.Reduce: patches model a key that is absent, not one that is present with the value `undefined`.
- ReportsTab.ComponentRevenue: keys are taken in insertion order. The number-like keys that JavaScript would list first are not modelled, nor keys inherited from the object prototype.
- Rendering, toasts, modals, drawers, navigation and the seed data are left out. So are the billing screen's name lookups and the detail drawers' one-line toggles.
- The `getGroupName` lookups on the collections, customers and reports screens are left out.
- The payment-link creation form is left out; its email and phone rules repeat the add-customer form's.
- The transactions screen's search is the same substring filter as the customer and payment-link lists, and is left out.
- AddCustomerForm.FormErrors has no contract of its own. Its meaning is stated by AddCustomerForm.FormErrorsMeaning.
- CollectionsTab.FilteredCustomers: an unrecognised collection filter keeps every customer, yet its count is 0. This is the code as written.
- Some methods stand for one loop or callback of a source expression: ReportsTab.EnterComponents, ReportsTab.AddStructureLines and DashboardTab.PushScheduleDues.
