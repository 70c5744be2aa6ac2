/** The fee-collections domain: customers, groups, billing components and
    structures, discounts, pricing plans, billing cycles, payment schedules,
    the activity feed, and the analytics records derived from them.
    Amounts are whole rupees; references between entities are string ids. */
module CollectionsTypes {

  import opened Wrappers

  datatype IndustryTemplate = Education | Fitness | Housing | Services | CustomTemplate

  datatype CustomerStatus = Active | Paused | Exited | Suspended

  /** The string value a customer's status has in the data (`'active'`, ...). */
  function StatusName(s: CustomerStatus): string
  {
    match s
    case Active => "active"
    case Paused => "paused"
    case Exited => "exited"
    case Suspended => "suspended"
  }

  datatype BillingType = Standard | CustomBilling

  datatype Channel = WhatsApp | Email | Sms

  datatype Customer = Customer(
    id: string,
    name: string,
    contactName: string,
    email: string,
    phone: string,
    groupId: string,
    customerId: string,          // admission number, member id, flat number, ...
    status: CustomerStatus,
    enrollmentDate: string,
    billingType: BillingType,
    pricingPlanId: Option<string>,
    customFields: map<string, string>,
    familyLinkId: Option<string>,
    preferredChannel: Channel,
    notes: string,
    totalDue: int,
    totalPaid: int,
    totalOverdue: int)

  datatype ScheduleType = OneTime | Monthly | Quarterly | SemiAnnual | Annual | CustomSchedule

  datatype LateFeeType = FlatFee | PercentageFee | PerDayFee

  datatype LateFeeConfig = LateFeeConfig(
    enabled: bool,
    feeType: LateFeeType,
    value: int,
    gracePeriodDays: int,
    capAmount: Option<int>)

  datatype CustomerGroup = CustomerGroup(
    id: string,
    name: string,
    description: string,
    customerCount: int,          // stored, not recomputed from the customers
    billingStructureId: Option<string>,
    defaultPricingPlanId: Option<string>,
    defaultSchedule: ScheduleType,
    lateFeeConfig: LateFeeConfig)

  datatype ComponentFrequency = Recurring | OneTimeFee

  datatype BillingComponent = BillingComponent(
    id: string,
    name: string,
    frequency: ComponentFrequency,
    required: bool,
    amount: int,
    description: string)

  /** One line of a billing structure: a component and its amount for this group. */
  datatype StructureLine = StructureLine(componentId: string, amount: int)

  datatype BillingStructure = BillingStructure(
    id: string,
    name: string,
    groupId: string,
    components: seq<StructureLine>,
    totalAmount: int)

  datatype DiscountCategory = FamilyLinked | Merit | EarlyPayment | Commitment | CategoryWaiver | AdHoc

  datatype DiscountValueType = Percentage | Flat

  datatype Discount = Discount(
    id: string,
    name: string,
    category: DiscountCategory,
    value: int,
    valueType: DiscountValueType,
    recurring: bool,
    description: string)

  datatype CustomerDiscount = CustomerDiscount(
    discountId: string,
    customerId: string,
    appliedDate: string,
    reason: string)

  datatype PricingPlan = PricingPlan(
    id: string,
    name: string,
    scheduleType: ScheduleType,
    splitCount: int,
    description: string)

  datatype BillingCycleStatus = Draft | CycleActive | Completed

  datatype BillingCycle = BillingCycle(
    id: string,
    name: string,
    pricingPlanId: string,
    groupIds: seq<string>,
    collectionDate: string,
    dueDate: string,
    status: BillingCycleStatus,
    totalCustomers: int,
    totalExpected: int,
    totalCollected: int,
    linksGenerated: int,
    linksSent: int,
    createdAt: string)

  datatype InstallmentStatus = Upcoming | InstallmentPaid | InstallmentOverdue | Partial

  datatype Installment = Installment(
    id: string,
    number: int,
    labelText: string,
    amount: int,
    dueDate: string,
    status: InstallmentStatus,
    paidAmount: int,
    paidDate: Option<string>,
    lateFee: int,
    billingCycleId: Option<string>)

  datatype PaymentSchedule = PaymentSchedule(
    id: string,
    customerId: string,          // the customer's record id
    scheduleType: ScheduleType,
    pricingPlanId: Option<string>,
    installments: seq<Installment>,
    totalAmount: int,
    totalPaid: int)

  datatype ActivityKind =
    PaymentReceived | ReminderSent | CustomerAdded | OverdueAlert | ReceiptGenerated | BillingCycleStarted

  datatype ActivityItem = ActivityItem(
    id: string,
    kind: ActivityKind,
    description: string,
    timestamp: string,
    customerName: string,
    amount: Option<int>)

  datatype TemplateTerminology = TemplateTerminology(
    customer: string,
    customerPlural: string,
    contact: string,
    group: string,
    groupPlural: string,
    billingPeriod: string,
    customerId: string)

  datatype BusinessProfile = BusinessProfile(
    name: string,
    industry: IndustryTemplate,
    logo: string,
    gstin: string,
    address: string,
    communicationChannels: seq<Channel>)

  /** Portfolio-wide collection statistics; the rate is a percentage. */
  datatype CollectionStats = CollectionStats(
    totalExpected: int,
    totalCollected: int,
    totalOverdue: int,
    collectionRate: real,
    onTimeCount: nat,
    lateCount: nat,
    pendingCount: nat,
    overdueCount: nat)

  datatype GroupCollectionSummary = GroupCollectionSummary(
    groupId: string,
    groupName: string,
    expected: int,
    collected: int,
    overdue: int,
    collectionRate: real,
    customerCount: nat)

  /** The whole fee-collections state held by the reducer. */
  datatype State = State(
    isSetUp: bool,
    template: Option<IndustryTemplate>,
    businessProfile: Option<BusinessProfile>,
    terminology: Option<TemplateTerminology>,
    customers: seq<Customer>,
    groups: seq<CustomerGroup>,
    components: seq<BillingComponent>,
    structures: seq<BillingStructure>,
    discounts: seq<Discount>,
    customerDiscounts: seq<CustomerDiscount>,
    pricingPlans: seq<PricingPlan>,
    billingCycles: seq<BillingCycle>,
    schedules: seq<PaymentSchedule>,
    recentActivity: seq<ActivityItem>)

  /** The payload of SETUP_COMPLETE: everything the setup wizard produced. */
  datatype SetupPayload = SetupPayload(
    template: IndustryTemplate,
    businessProfile: BusinessProfile,
    terminology: TemplateTerminology,
    components: seq<BillingComponent>,
    discounts: seq<Discount>,
    groups: seq<CustomerGroup>,
    structures: seq<BillingStructure>,
    customers: seq<Customer>,
    pricingPlans: seq<PricingPlan>,
    billingCycles: seq<BillingCycle>,
    schedules: seq<PaymentSchedule>,
    recentActivity: seq<ActivityItem>)

  /** `Partial<Customer>`: each present field overrides the customer's. */
  datatype CustomerPatch = CustomerPatch(
    id: Option<string>,
    name: Option<string>,
    contactName: Option<string>,
    email: Option<string>,
    phone: Option<string>,
    groupId: Option<string>,
    customerId: Option<string>,
    status: Option<CustomerStatus>,
    enrollmentDate: Option<string>,
    billingType: Option<BillingType>,
    pricingPlanId: Option<Option<string>>,
    customFields: Option<map<string, string>>,
    familyLinkId: Option<Option<string>>,
    preferredChannel: Option<Channel>,
    notes: Option<string>,
    totalDue: Option<int>,
    totalPaid: Option<int>,
    totalOverdue: Option<int>)

  /** `Partial<BillingComponent>`. */
  datatype ComponentPatch = ComponentPatch(
    id: Option<string>,
    name: Option<string>,
    frequency: Option<ComponentFrequency>,
    required: Option<bool>,
    amount: Option<int>,
    description: Option<string>)

  /** `Partial<BillingCycle>`. */
  datatype BillingCyclePatch = BillingCyclePatch(
    id: Option<string>,
    name: Option<string>,
    pricingPlanId: Option<string>,
    groupIds: Option<seq<string>>,
    collectionDate: Option<string>,
    dueDate: Option<string>,
    status: Option<BillingCycleStatus>,
    totalCustomers: Option<int>,
    totalExpected: Option<int>,
    totalCollected: Option<int>,
    linksGenerated: Option<int>,
    linksSent: Option<int>,
    createdAt: Option<string>)

  /** The reducer's actions; `Unrecognised` stands for any other action object. */
  datatype Action =
    | SetupComplete(setup: SetupPayload)
    | AddCustomer(customer: Customer)
    | UpdateCustomer(customerKey: string, customerUpdates: CustomerPatch)
    | AddGroup(group: CustomerGroup)
    | AddComponent(component: BillingComponent)
    | UpdateComponent(componentKey: string, componentUpdates: ComponentPatch)
    | DeleteComponent(deletedId: string)
    | AddStructure(structure: BillingStructure)
    | AddDiscount(discount: Discount)
    | ApplyDiscount(customerDiscount: CustomerDiscount)
    | AddPricingPlan(plan: PricingPlan)
    | AddBillingCycle(cycle: BillingCycle)
    | UpdateBillingCycle(cycleKey: string, cycleUpdates: BillingCyclePatch)
    | UpdateInstallmentStatus(scheduleId: string, installmentId: string,
                              newStatus: InstallmentStatus, newPaidAmount: int)
    | Unrecognised
}
