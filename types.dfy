/** The records and enumerations of the subscription tracker. Dates stay the
    ISO text the application stores; amounts in major units are exact reals
    and prices are integers in minor units (cents, paise). */
module Types {
  import opened Wrappers

  datatype BillingCycle = Monthly | Yearly | Weekly | Custom

  datatype Category =
    Streaming | Productivity | Cloud | Development | Design | Marketing | Finance | Other

  datatype Status = Active | Paused | Canceled | Trial

  datatype PaymentMethod = CreditCard | DebitCard | Upi | Netbanking | Wallet | Paypal

  datatype Currency = USD | EUR | GBP | INR | CAD | AUD

  const AllCycles: seq<BillingCycle> := [Monthly, Yearly, Weekly, Custom]
  const AllCategories: seq<Category> :=
    [Streaming, Productivity, Cloud, Development, Design, Marketing, Finance, Other]
  const AllStatuses: seq<Status> := [Active, Paused, Canceled, Trial]
  const AllCurrencies: seq<Currency> := [USD, EUR, GBP, INR, CAD, AUD]

  /** The string each billing cycle has at run time. */
  function CycleName(c: BillingCycle): string {
    match c
    case Monthly => "monthly"
    case Yearly => "yearly"
    case Weekly => "weekly"
    case Custom => "custom"
  }

  function CategoryName(c: Category): string {
    match c
    case Streaming => "streaming"
    case Productivity => "productivity"
    case Cloud => "cloud"
    case Development => "development"
    case Design => "design"
    case Marketing => "marketing"
    case Finance => "finance"
    case Other => "other"
  }

  function StatusName(s: Status): string {
    match s
    case Active => "active"
    case Paused => "paused"
    case Canceled => "canceled"
    case Trial => "trial"
  }

  function CurrencyCode(c: Currency): string {
    match c
    case USD => "USD"
    case EUR => "EUR"
    case GBP => "GBP"
    case INR => "INR"
    case CAD => "CAD"
    case AUD => "AUD"
  }

  /** Every enumeration lists each of its cases exactly once, and the run-time
      names of the cases are pairwise distinct; there is no JPY currency. */
  lemma EnumerationsAreExact()
    ensures |AllCycles| == 4 && |AllCategories| == 8 && |AllStatuses| == 4 && |AllCurrencies| == 6
    ensures forall c: BillingCycle :: c in AllCycles
    ensures forall c: Category :: c in AllCategories
    ensures forall s: Status :: s in AllStatuses
    ensures forall c: Currency :: c in AllCurrencies
    ensures forall c, d: BillingCycle :: CycleName(c) == CycleName(d) ==> c == d
    ensures forall c, d: Category :: CategoryName(c) == CategoryName(d) ==> c == d
    ensures forall s, t: Status :: StatusName(s) == StatusName(t) ==> s == t
    ensures forall c, d: Currency :: CurrencyCode(c) == CurrencyCode(d) ==> c == d
    ensures forall c: Currency :: CurrencyCode(c) != "JPY"
  {
    forall c: BillingCycle ensures c in AllCycles {
      assert c.Monthly? || c.Yearly? || c.Weekly? || c.Custom?;
    }
    forall c: Category ensures c in AllCategories {
      assert c.Streaming? || c.Productivity? || c.Cloud? || c.Development? || c.Design?
        || c.Marketing? || c.Finance? || c.Other?;
    }
    forall s: Status ensures s in AllStatuses {
      assert s.Active? || s.Paused? || s.Canceled? || s.Trial?;
    }
    forall c: Currency ensures c in AllCurrencies {
      assert c.USD? || c.EUR? || c.GBP? || c.INR? || c.CAD? || c.AUD?;
    }
  }

  /** A stored subscription. `customCycleDays` is meaningful for custom
      cycles only; the last three fields are computed elsewhere and may be
      absent. */
  datatype Subscription = Subscription(
    id: string,
    name: string,
    description: Option<string>,
    category: Category,
    price: int,
    currency: Currency,
    billingCycle: BillingCycle,
    customCycleDays: Option<int>,
    nextBillingDate: string,
    lastBillingDate: Option<string>,
    status: Status,
    paymentMethod: PaymentMethod,
    tags: seq<string>,
    trialEndsOn: Option<string>,
    reminderDaysBefore: int,
    logoUrl: Option<string>,
    websiteUrl: Option<string>,
    notes: Option<string>,
    createdAt: string,
    updatedAt: string,
    monthlyEquivalent: Option<real>,
    annualCost: Option<real>,
    daysUntilRenewal: Option<int>)

  /** The body of a create request: a subscription without its identity,
      timestamps and computed fields. */
  datatype CreateSubscriptionRequest = CreateSubscriptionRequest(
    name: string,
    description: Option<string>,
    category: Category,
    price: int,
    currency: Currency,
    billingCycle: BillingCycle,
    customCycleDays: Option<int>,
    nextBillingDate: string,
    status: Status,
    paymentMethod: PaymentMethod,
    tags: seq<string>,
    trialEndsOn: Option<string>,
    reminderDaysBefore: int,
    logoUrl: Option<string>,
    websiteUrl: Option<string>,
    notes: Option<string>)

  /** An update request: the id, and any subset of the create fields
      (`None` = the key is absent from the request). */
  datatype UpdateSubscriptionRequest = UpdateSubscriptionRequest(
    id: string,
    name: Option<string>,
    description: Option<string>,
    category: Option<Category>,
    price: Option<int>,
    currency: Option<Currency>,
    billingCycle: Option<BillingCycle>,
    customCycleDays: Option<int>,
    nextBillingDate: Option<string>,
    status: Option<Status>,
    paymentMethod: Option<PaymentMethod>,
    tags: Option<seq<string>>,
    trialEndsOn: Option<string>,
    reminderDaysBefore: Option<int>,
    logoUrl: Option<string>,
    websiteUrl: Option<string>,
    notes: Option<string>)

  /** The subscription built from a create request with the given identity
      and timestamp: the request's fields, the new id, both timestamps set,
      and no computed fields. */
  function FromCreateRequest(data: CreateSubscriptionRequest, id: string, now: string): (s: Subscription)
    ensures s.id == id && s.createdAt == now && s.updatedAt == now
    ensures ToCreateRequest(s) == data
    ensures s.monthlyEquivalent.None? && s.annualCost.None? && s.daysUntilRenewal.None?
    ensures s.lastBillingDate.None?
  {
    Subscription(id, data.name, data.description, data.category, data.price, data.currency,
      data.billingCycle, data.customCycleDays, data.nextBillingDate, None, data.status,
      data.paymentMethod, data.tags, data.trialEndsOn, data.reminderDaysBefore, data.logoUrl,
      data.websiteUrl, data.notes, now, now, None, None, None)
  }

  /** The create-request part of a subscription. */
  function ToCreateRequest(s: Subscription): CreateSubscriptionRequest {
    CreateSubscriptionRequest(s.name, s.description, s.category, s.price, s.currency,
      s.billingCycle, s.customCycleDays, s.nextBillingDate, s.status, s.paymentMethod,
      s.tags, s.trialEndsOn, s.reminderDaysBefore, s.logoUrl, s.websiteUrl, s.notes)
  }

  /** A spread field: a value given in the request wins, an absent one
      keeps the old value. */
  predicate Overrides<T(==)>(field: T, given: Option<T>, previous: T) {
    && (given.Some? ==> field == given.value)
    && (given.None? ==> field == previous)
  }

  /** The same for a field that is itself optional. */
  predicate OverridesOptional<T(==)>(field: Option<T>, given: Option<T>, previous: Option<T>) {
    && (given.Some? ==> field == given)
    && (given.None? ==> field == previous)
  }

  /** `{ ...existing, ...request, updatedAt: now }`: every field present in
      the request overrides, `updatedAt` is refreshed, and everything else
      (including `createdAt`) is kept. */
  function ApplyUpdate(s: Subscription, req: UpdateSubscriptionRequest, now: string): (r: Subscription)
    ensures r.id == req.id && r.updatedAt == now && r.createdAt == s.createdAt
    ensures Overrides(r.name, req.name, s.name) && OverridesOptional(r.description, req.description, s.description)
    ensures Overrides(r.category, req.category, s.category) && Overrides(r.price, req.price, s.price)
    ensures Overrides(r.currency, req.currency, s.currency)
    ensures Overrides(r.billingCycle, req.billingCycle, s.billingCycle)
    ensures OverridesOptional(r.customCycleDays, req.customCycleDays, s.customCycleDays)
    ensures Overrides(r.nextBillingDate, req.nextBillingDate, s.nextBillingDate)
    ensures Overrides(r.status, req.status, s.status) && Overrides(r.paymentMethod, req.paymentMethod, s.paymentMethod)
    ensures Overrides(r.tags, req.tags, s.tags) && OverridesOptional(r.trialEndsOn, req.trialEndsOn, s.trialEndsOn)
    ensures Overrides(r.reminderDaysBefore, req.reminderDaysBefore, s.reminderDaysBefore)
    ensures OverridesOptional(r.logoUrl, req.logoUrl, s.logoUrl)
    ensures OverridesOptional(r.websiteUrl, req.websiteUrl, s.websiteUrl)
    ensures OverridesOptional(r.notes, req.notes, s.notes)
    ensures r.lastBillingDate == s.lastBillingDate && r.monthlyEquivalent == s.monthlyEquivalent
    ensures r.annualCost == s.annualCost && r.daysUntilRenewal == s.daysUntilRenewal
  {
    Subscription(req.id, Pick(req.name, s.name), PickOptional(req.description, s.description),
      Pick(req.category, s.category), Pick(req.price, s.price), Pick(req.currency, s.currency),
      Pick(req.billingCycle, s.billingCycle), PickOptional(req.customCycleDays, s.customCycleDays),
      Pick(req.nextBillingDate, s.nextBillingDate), s.lastBillingDate, Pick(req.status, s.status),
      Pick(req.paymentMethod, s.paymentMethod), Pick(req.tags, s.tags),
      PickOptional(req.trialEndsOn, s.trialEndsOn), Pick(req.reminderDaysBefore, s.reminderDaysBefore),
      PickOptional(req.logoUrl, s.logoUrl), PickOptional(req.websiteUrl, s.websiteUrl),
      PickOptional(req.notes, s.notes), s.createdAt, now, s.monthlyEquivalent, s.annualCost,
      s.daysUntilRenewal)
  }

  /** The value a spread leaves in one field. */
  function Pick<T(==)>(given: Option<T>, previous: T): (v: T)
    ensures Overrides(v, given, previous)
  {
    if given.Some? then given.value else previous
  }

  /** The value a spread leaves in one optional field. */
  function PickOptional<T(==)>(given: Option<T>, previous: Option<T>): (v: Option<T>)
    ensures OverridesOptional(v, given, previous)
  {
    if given.Some? then given else previous
  }

  /** An update request carrying only an id. */
  function IdOnlyRequest(id: string): UpdateSubscriptionRequest {
    UpdateSubscriptionRequest(id, None, None, None, None, None, None, None, None, None, None,
      None, None, None, None, None, None)
  }

  /** An update that carries only the id changes nothing but `updatedAt`. */
  lemma IdOnlyUpdateTouchesTimestamp(s: Subscription, now: string)
    ensures ApplyUpdate(s, IdOnlyRequest(s.id), now) == s.(updatedAt := now)
  {
  }

  /** Applying the same update twice is the same as applying it once. */
  lemma ApplyUpdateIdempotent(s: Subscription, req: UpdateSubscriptionRequest, now: string)
    ensures ApplyUpdate(ApplyUpdate(s, req, now), req, now) == ApplyUpdate(s, req, now)
  {
  }

  datatype PriceRange = PriceRange(min: int, max: int)

  /** The list filters. `sortBy` is declared as one of five names, but it is
      assigned from the filter dialog's option values without a check, so
      any text can arrive here; likewise `sortOrder`. */
  datatype SubscriptionFilters = SubscriptionFilters(
    search: string,
    categories: seq<Category>,
    statuses: seq<Status>,
    currencies: seq<Currency>,
    priceRange: PriceRange,
    sortBy: string,
    sortOrder: string)

  /** The five sort keys the filter type declares. */
  const DeclaredSortKeys: seq<string> := ["name", "price", "nextBilling", "created", "updated"]
  const DeclaredSortOrders: seq<string> := ["asc", "desc"]

  /** `Partial<SubscriptionFilters>`: `None` = key absent. */
  datatype FiltersPatch = FiltersPatch(
    search: Option<string>,
    categories: Option<seq<Category>>,
    statuses: Option<seq<Status>>,
    currencies: Option<seq<Currency>>,
    priceRange: Option<PriceRange>,
    sortBy: Option<string>,
    sortOrder: Option<string>)

  const EmptyFiltersPatch: FiltersPatch := FiltersPatch(None, None, None, None, None, None, None)

  /** `{ ...filters, ...patch }`. */
  function MergeFilters(f: SubscriptionFilters, p: FiltersPatch): (r: SubscriptionFilters)
    ensures p.search.None? ==> r.search == f.search
    ensures p.search.Some? ==> r.search == p.search.value
    ensures p.categories.None? ==> r.categories == f.categories
    ensures p.categories.Some? ==> r.categories == p.categories.value
    ensures p.statuses.None? ==> r.statuses == f.statuses
    ensures p.statuses.Some? ==> r.statuses == p.statuses.value
    ensures p.currencies.None? ==> r.currencies == f.currencies
    ensures p.currencies.Some? ==> r.currencies == p.currencies.value
    ensures p.priceRange.None? ==> r.priceRange == f.priceRange
    ensures p.priceRange.Some? ==> r.priceRange == p.priceRange.value
    ensures p.sortBy.None? ==> r.sortBy == f.sortBy
    ensures p.sortBy.Some? ==> r.sortBy == p.sortBy.value
    ensures p.sortOrder.None? ==> r.sortOrder == f.sortOrder
    ensures p.sortOrder.Some? ==> r.sortOrder == p.sortOrder.value
  {
    SubscriptionFilters(
      p.search.GetOr(f.search), p.categories.GetOr(f.categories), p.statuses.GetOr(f.statuses),
      p.currencies.GetOr(f.currencies), p.priceRange.GetOr(f.priceRange),
      p.sortBy.GetOr(f.sortBy), p.sortOrder.GetOr(f.sortOrder))
  }

  /** Merging an empty patch changes nothing; merging the same patch twice
      is the same as once. */
  lemma MergeFiltersLaws(f: SubscriptionFilters, p: FiltersPatch)
    ensures MergeFilters(f, EmptyFiltersPatch) == f
    ensures MergeFilters(MergeFilters(f, p), p) == MergeFilters(f, p)
  {
  }

  datatype TrendPoint = TrendPoint(month: string, amount: real)

  /** One date of upcoming payments: the subscriptions billed that day and
      the sum of their prices in major units. */
  datatype PaymentGroup = PaymentGroup(date: string, subscriptions: seq<Subscription>, totalAmount: real)

  datatype SpendingAnalytics = SpendingAnalytics(
    totalMonthlySpend: real,
    totalAnnualSpend: real,
    categoryBreakdown: map<Category, real>,
    monthlyTrend: seq<TrendPoint>,
    upcomingPayments: seq<PaymentGroup>)

  datatype BudgetAlert = BudgetAlert(
    id: string,
    name: string,
    monthlyLimit: int,
    currency: Currency,
    categories: seq<Category>,
    isEnabled: bool,
    notificationThreshold: int)

  datatype SubscriptionResponse = SubscriptionResponse(
    data: seq<Subscription>, total: int, page: int, limit: int)
}
