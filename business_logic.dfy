/**
 * The seven-year projection engine `calculate_financials`.
 *
 * The parameter dictionary is a datatype whose every field may be absent, as a key
 * of a Python dictionary may be; a strict lookup of an absent key or year is the
 * engine's KeyError, modelled as a `Failure`. Arithmetic is over `real`.
 */
module BusinessLogic {
  import opened Wrappers

  /** Policy constants of the engine. */
  const HORIZON: int := 7
  const DEFAULT_LOAN_PRINCIPAL: real := 2500000.0
  const DIRECT_SHARE: real := 0.4
  const AFFILIATION_SHARE: real := 0.6
  const TAX_RATE: real := 0.25
  const BONUS_RATE: real := 0.08

  /** The keys whose strict lookup can raise KeyError. */
  datatype Key =
    | NewCustomers
    | DirectRetentionByYear
    | AffiliationRetentionByYear
    | AdditionalReferralsPerYear
    | DirectFee
    | AffiliationNetFee
    | ChannelBNewRev
    | OperatingExpenses
    | AnnualLoanRepayment
    | OwnerPayoutYear1
    | OwnerPayoutYear2

  /** KeyError: a key missing from the parameters, or a year missing from one of its year-indexed maps. */
  datatype Error = MissingKey(key: Key) | MissingYear(key: Key, year: int)

  /** The parameter dictionary, restricted to the keys the engine reads. */
  datatype Params = Params(
    loanPrincipal: Option<real>,
    newCustomers: Option<map<int, real>>,
    directRetentionByYear: Option<map<int, real>>,
    affiliationRetentionByYear: Option<map<int, real>>,
    additionalReferralsPerYear: Option<map<int, real>>,
    directFee: Option<real>,
    affiliationNetFee: Option<real>,
    channelBNewRev: Option<real>,
    operatingExpenses: Option<real>,
    annualLoanRepayment: Option<real>,
    ownerPayoutYear1: Option<real>,
    ownerPayoutYear2: Option<real>)

  /** One row of the ledger. */
  datatype YearRecord = YearRecord(
    year: int,
    newCustomers: real,
    newDirect: real,
    retainedDirect: real,
    totalDirect: real,
    newAffiliation: real,
    retainedAffiliation: real,
    totalAffiliation: real,
    totalCustomers: real,
    directRevenue: real,
    affiliationNetRevenue: real,
    channelBRevenue: real,
    totalRevenue: real,
    operatingCosts: real,
    financingCosts: real,
    totalExpenses: real,
    profitBeforeTax: real,
    tax: real,
    postTaxProfit: real,
    bonus: real,
    netProfit: real,
    cumulativeCash: real)

  // ---------------------------------------------------------------------------
  // Lookups

  /** `params[k]` for a scalar or map key. */
  function Require<T>(o: Option<T>, k: Key): Result<T, Error> {
    if o.Some? then Success(o.value) else Failure(MissingKey(k))
  }

  /** `m[year]` on the map stored under key `k`. */
  function Entry(m: map<int, real>, k: Key, year: int): Result<real, Error> {
    if year in m then Success(m[year]) else Failure(MissingYear(k, year))
  }

  /** `params["new_customers"].get(year, 0)` once the map has been fetched. */
  function CustomersIn(m: map<int, real>, year: int): real {
    if year in m then m[year] else 0.0
  }

  /** `params.get("loan_principal", 2500000)`. */
  function LoanPrincipalOf(p: Params): real {
    if p.loanPrincipal.Some? then p.loanPrincipal.value else DEFAULT_LOAN_PRINCIPAL
  }

  /** Whether key `k` is in the dictionary. */
  predicate Present(p: Params, k: Key) {
    match k
    case NewCustomers => p.newCustomers.Some?
    case DirectRetentionByYear => p.directRetentionByYear.Some?
    case AffiliationRetentionByYear => p.affiliationRetentionByYear.Some?
    case AdditionalReferralsPerYear => p.additionalReferralsPerYear.Some?
    case DirectFee => p.directFee.Some?
    case AffiliationNetFee => p.affiliationNetFee.Some?
    case ChannelBNewRev => p.channelBNewRev.Some?
    case OperatingExpenses => p.operatingExpenses.Some?
    case AnnualLoanRepayment => p.annualLoanRepayment.Some?
    case OwnerPayoutYear1 => p.ownerPayoutYear1.Some?
    case OwnerPayoutYear2 => p.ownerPayoutYear2.Some?
  }

  /** The year-indexed map stored under `k`, for the year-indexed keys; `None` otherwise. */
  function YearMap(p: Params, k: Key): Option<map<int, real>> {
    match k
    case NewCustomers => p.newCustomers
    case DirectRetentionByYear => p.directRetentionByYear
    case AffiliationRetentionByYear => p.affiliationRetentionByYear
    case AdditionalReferralsPerYear => p.additionalReferralsPerYear
    case _ => None
  }

  /**
   * An error is genuine when the lookup it reports really misses: the key is absent,
   * or the key holds a map without that year. A year missing from `new_customers` is
   * never an error, and the retention maps are never blamed for year 1.
   */
  predicate Genuine(p: Params, e: Error) {
    match e
    case MissingKey(k) => !Present(p, k)
    case MissingYear(k, y) =>
      1 <= y <= HORIZON && k != NewCustomers &&
      YearMap(p, k).Some? && y !in YearMap(p, k).value &&
      (k == DirectRetentionByYear || k == AffiliationRetentionByYear ==> y > 1)
  }

  /** Everything year `year` looks up is there. */
  predicate StepReady(p: Params, year: int) {
    p.newCustomers.Some? &&
    (year > 1 ==>
      p.directRetentionByYear.Some? && year in p.directRetentionByYear.value &&
      p.affiliationRetentionByYear.Some? && year in p.affiliationRetentionByYear.value) &&
    p.directFee.Some? && p.affiliationNetFee.Some? &&
    p.additionalReferralsPerYear.Some? && year in p.additionalReferralsPerYear.value &&
    p.channelBNewRev.Some? &&
    (year <= 5 ==> p.annualLoanRepayment.Some?) &&
    (year == 1 ==> p.ownerPayoutYear1.Some?) &&
    (year == 2 ==> p.ownerPayoutYear2.Some?) &&
    p.operatingExpenses.Some?
  }

  /** A year-indexed map that has every year from `first` to the horizon. */
  predicate CoversYears(o: Option<map<int, real>>, first: int) {
    o.Some? && forall y :: first <= y <= HORIZON ==> y in o.value
  }

  /**
   * The whole dictionary is complete for a projection: every strictly read key is
   * present, both retention maps hold years 2..7 and the referral map years 1..7.
   */
  predicate Complete(p: Params) {
    p.newCustomers.Some? &&
    CoversYears(p.directRetentionByYear, 2) &&
    CoversYears(p.affiliationRetentionByYear, 2) &&
    CoversYears(p.additionalReferralsPerYear, 1) &&
    p.directFee.Some? && p.affiliationNetFee.Some? && p.channelBNewRev.Some? &&
    p.operatingExpenses.Some? && p.annualLoanRepayment.Some? &&
    p.ownerPayoutYear1.Some? && p.ownerPayoutYear2.Some?
  }

  // ---------------------------------------------------------------------------
  // What one ledger row promises

  /** The 40/60 split of the year's new customers between the two channels. */
  predicate SplitsNewCustomers(rec: YearRecord) {
    rec.newDirect == DIRECT_SHARE * rec.newCustomers &&
    rec.newAffiliation == AFFILIATION_SHARE * rec.newCustomers &&
    rec.newDirect + rec.newAffiliation == rec.newCustomers
  }

  /** The derived totals of a row agree with their parts. */
  predicate TotalsAddUp(rec: YearRecord) {
    rec.totalDirect == rec.newDirect + rec.retainedDirect &&
    rec.totalAffiliation == rec.newAffiliation + rec.retainedAffiliation &&
    rec.totalCustomers == rec.totalDirect + rec.totalAffiliation &&
    rec.totalRevenue == rec.directRevenue + rec.affiliationNetRevenue + rec.channelBRevenue &&
    rec.totalExpenses == rec.operatingCosts + rec.financingCosts &&
    rec.profitBeforeTax == rec.totalRevenue - rec.totalExpenses &&
    rec.postTaxProfit == rec.profitBeforeTax - rec.tax &&
    rec.netProfit == rec.postTaxProfit - rec.bonus
  }

  /**
   * Tax and bonus are taken only from a strictly positive base: never negative, zero in
   * a loss year (which keeps its whole loss), and together 1 - 0.75 * 0.92 of a profit.
   */
  predicate TaxAndBonusGuarded(rec: YearRecord) {
    rec.tax >= 0.0 && rec.bonus >= 0.0 &&
    (rec.profitBeforeTax <= 0.0 ==>
      rec.tax == 0.0 && rec.bonus == 0.0 && rec.netProfit == rec.profitBeforeTax) &&
    (rec.profitBeforeTax > 0.0 ==>
      rec.tax == TAX_RATE * rec.profitBeforeTax &&
      rec.bonus == BONUS_RATE * rec.postTaxProfit &&
      rec.netProfit == (1.0 - TAX_RATE) * (1.0 - BONUS_RATE) * rec.profitBeforeTax &&
      0.0 < rec.netProfit < rec.profitBeforeTax)
  }

  /** The row's inputs are the dictionary's values for that year, financing by the year table. */
  predicate FollowsParams(p: Params, year: int, rec: YearRecord)
    requires StepReady(p, year)
  {
    rec.year == year &&
    rec.newCustomers == CustomersIn(p.newCustomers.value, year) &&
    rec.directRevenue == rec.totalDirect * p.directFee.value &&
    rec.affiliationNetRevenue == rec.totalAffiliation * p.affiliationNetFee.value &&
    rec.channelBRevenue == p.additionalReferralsPerYear.value[year] * p.channelBNewRev.value &&
    rec.operatingCosts == p.operatingExpenses.value &&
    (year == 1 ==> rec.financingCosts == p.annualLoanRepayment.value + p.ownerPayoutYear1.value) &&
    (year == 2 ==> rec.financingCosts == p.annualLoanRepayment.value + p.ownerPayoutYear2.value) &&
    (3 <= year <= 5 ==> rec.financingCosts == p.annualLoanRepayment.value) &&
    (6 <= year ==> rec.financingCosts == 0.0)
  }

  /** What the row takes from the year before: the retained customers and the cash balance. */
  predicate CarriesForward(p: Params, year: int, prevTotalDirect: real, prevTotalAffiliation: real,
                           cashBefore: real, rec: YearRecord)
    requires StepReady(p, year)
  {
    (year == 1 ==> rec.retainedDirect == 0.0 && rec.retainedAffiliation == 0.0) &&
    (year > 1 ==>
      rec.retainedDirect == prevTotalDirect * p.directRetentionByYear.value[year] &&
      rec.retainedAffiliation == prevTotalAffiliation * p.affiliationRetentionByYear.value[year]) &&
    rec.cumulativeCash == cashBefore + rec.netProfit
  }

  /** Everything a row of year `year` promises, given the state carried into that year. */
  predicate RowOf(p: Params, year: int, prevTotalDirect: real, prevTotalAffiliation: real,
                  cashBefore: real, rec: YearRecord)
  {
    StepReady(p, year) &&
    SplitsNewCustomers(rec) && TotalsAddUp(rec) && TaxAndBonusGuarded(rec) &&
    FollowsParams(p, year, rec) &&
    CarriesForward(p, year, prevTotalDirect, prevTotalAffiliation, cashBefore, rec)
  }

  // ---------------------------------------------------------------------------
  // One year of the fold

  /** `prev * params[k][year]`, the customers of a channel retained from the year before. */
  function Retained(o: Option<map<int, real>>, k: Key, year: int, prev: real): (r: Result<real, Error>)
    ensures r.Success? <==> o.Some? && year in o.value
    ensures r.Success? ==> r.value == prev * o.value[year]
    ensures r.Failure? ==> r.error == (if o.None? then MissingKey(k) else MissingYear(k, year))
  {
    var rates :- Require(o, k);
    var rate :- Entry(rates, k, year);
    Success(prev * rate)
  }

  /** The financing cost of a year, by the if/elif chain over the year. */
  function FinancingCost(p: Params, year: int): (r: Result<real, Error>)
    ensures r.Success? <==>
      (year <= 5 ==> p.annualLoanRepayment.Some?) &&
      (year == 1 ==> p.ownerPayoutYear1.Some?) &&
      (year == 2 ==> p.ownerPayoutYear2.Some?)
    ensures r.Failure? ==> Genuine(p, r.error)
    ensures r.Success? && year == 1 ==> r.value == p.annualLoanRepayment.value + p.ownerPayoutYear1.value
    ensures r.Success? && year == 2 ==> r.value == p.annualLoanRepayment.value + p.ownerPayoutYear2.value
    ensures r.Success? && 3 <= year <= 5 ==> r.value == p.annualLoanRepayment.value
    ensures r.Success? && 6 <= year ==> r.value == 0.0
  {
    if year == 1 then
      var repayment :- Require(p.annualLoanRepayment, AnnualLoanRepayment);
      var payout :- Require(p.ownerPayoutYear1, OwnerPayoutYear1);
      Success(repayment + payout)
    else if year == 2 then
      var repayment :- Require(p.annualLoanRepayment, AnnualLoanRepayment);
      var payout :- Require(p.ownerPayoutYear2, OwnerPayoutYear2);
      Success(repayment + payout)
    else if year <= 5 then
      Require(p.annualLoanRepayment, AnnualLoanRepayment)
    else
      Success(0.0)
  }

  /** Net profit left after tax and bonus, each taken only from a strictly positive base. */
  function AfterTaxAndBonus(profitBeforeTax: real): (r: (real, real, real))
    ensures r.0 >= 0.0 && r.1 >= 0.0
    ensures profitBeforeTax <= 0.0 ==> r.0 == 0.0 && r.1 == 0.0 && r.2 == profitBeforeTax
    ensures profitBeforeTax > 0.0 ==>
      r.0 == TAX_RATE * profitBeforeTax &&
      r.1 == BONUS_RATE * (profitBeforeTax - r.0) &&
      r.2 == (1.0 - TAX_RATE) * (1.0 - BONUS_RATE) * profitBeforeTax &&
      0.0 < r.2 < profitBeforeTax
    ensures r.2 == profitBeforeTax - r.0 - r.1
  {
    var tax := if profitBeforeTax > 0.0 then profitBeforeTax * TAX_RATE else 0.0;
    var postTaxProfit := profitBeforeTax - tax;
    var bonus := if postTaxProfit > 0.0 then postTaxProfit * BONUS_RATE else 0.0;
    (tax, bonus, postTaxProfit - bonus)
  }

  /** The values one year looks up in the dictionary, with the retained customers already applied. */
  datatype YearInputs = YearInputs(
    newCustomers: real,
    retainedDirect: real,
    retainedAffiliation: real,
    directFee: real,
    affiliationNetFee: real,
    referrals: real,
    channelBNewRev: real,
    financingCost: real,
    operatingExpenses: real)

  /**
   * The lookups of one year, in the order the source evaluates them, so that a
   * failure names the first missing key or year.
   */
  function Gather(p: Params, year: int, prevTotalDirect: real, prevTotalAffiliation: real)
    : (r: Result<YearInputs, Error>)
    requires 1 <= year <= HORIZON
    ensures r.Success? <==> StepReady(p, year)
    ensures r.Failure? ==> Genuine(p, r.error)
    ensures r.Success? ==>
      var v := r.value;
      v.newCustomers == CustomersIn(p.newCustomers.value, year) &&
      (year == 1 ==> v.retainedDirect == 0.0 && v.retainedAffiliation == 0.0) &&
      (year > 1 ==>
        v.retainedDirect == prevTotalDirect * p.directRetentionByYear.value[year] &&
        v.retainedAffiliation == prevTotalAffiliation * p.affiliationRetentionByYear.value[year]) &&
      v.directFee == p.directFee.value && v.affiliationNetFee == p.affiliationNetFee.value &&
      v.referrals == p.additionalReferralsPerYear.value[year] &&
      v.channelBNewRev == p.channelBNewRev.value &&
      v.operatingExpenses == p.operatingExpenses.value &&
      (year == 1 ==> v.financingCost == p.annualLoanRepayment.value + p.ownerPayoutYear1.value) &&
      (year == 2 ==> v.financingCost == p.annualLoanRepayment.value + p.ownerPayoutYear2.value) &&
      (3 <= year <= 5 ==> v.financingCost == p.annualLoanRepayment.value) &&
      (6 <= year ==> v.financingCost == 0.0)
  {
    var customersByYear :- Require(p.newCustomers, NewCustomers);
    var retainedDirect :-
      if year > 1 then Retained(p.directRetentionByYear, DirectRetentionByYear, year, prevTotalDirect)
      else Success(0.0);
    var retainedAffiliation :-
      if year > 1 then Retained(p.affiliationRetentionByYear, AffiliationRetentionByYear, year, prevTotalAffiliation)
      else Success(0.0);
    var directFee :- Require(p.directFee, DirectFee);
    var affiliationNetFee :- Require(p.affiliationNetFee, AffiliationNetFee);
    var referralsByYear :- Require(p.additionalReferralsPerYear, AdditionalReferralsPerYear);
    var referrals :- Entry(referralsByYear, AdditionalReferralsPerYear, year);
    var channelBNewRev :- Require(p.channelBNewRev, ChannelBNewRev);
    var financingCost :- FinancingCost(p, year);
    var operatingExpenses :- Require(p.operatingExpenses, OperatingExpenses);
    Success(YearInputs(CustomersIn(customersByYear, year), retainedDirect, retainedAffiliation,
                       directFee, affiliationNetFee, referrals, channelBNewRev,
                       financingCost, operatingExpenses))
  }

  /**
   * The arithmetic of one year once everything has been looked up: the channel split,
   * the totals, revenue, expenses, tax, bonus and the new cash balance.
   */
  function Book(year: int, v: YearInputs, cashBefore: real): (rec: YearRecord)
    ensures SplitsNewCustomers(rec) && TotalsAddUp(rec) && TaxAndBonusGuarded(rec)
    ensures rec.year == year && rec.newCustomers == v.newCustomers
    ensures rec.retainedDirect == v.retainedDirect && rec.retainedAffiliation == v.retainedAffiliation
    ensures rec.directRevenue == rec.totalDirect * v.directFee
    ensures rec.affiliationNetRevenue == rec.totalAffiliation * v.affiliationNetFee
    ensures rec.channelBRevenue == v.referrals * v.channelBNewRev
    ensures rec.operatingCosts == v.operatingExpenses && rec.financingCosts == v.financingCost
    ensures rec.cumulativeCash == cashBefore + rec.netProfit
  {
    var directSplit := v.newCustomers * DIRECT_SHARE;
    var affiliationSplit := v.newCustomers * AFFILIATION_SHARE;
    var totalDirect := directSplit + v.retainedDirect;
    var totalAffiliation := affiliationSplit + v.retainedAffiliation;
    var totalCustomers := totalDirect + totalAffiliation;
    var directRevenue := totalDirect * v.directFee;
    var affiliationNetRevenue := totalAffiliation * v.affiliationNetFee;
    var referralRevenue := v.referrals * v.channelBNewRev;
    var totalRevenue := directRevenue + affiliationNetRevenue + referralRevenue;
    var totalExpenses := v.operatingExpenses + v.financingCost;
    var profitBeforeTax := totalRevenue - totalExpenses;
    var shares := AfterTaxAndBonus(profitBeforeTax);
    YearRecord(
      year, v.newCustomers, directSplit, v.retainedDirect, totalDirect,
      affiliationSplit, v.retainedAffiliation, totalAffiliation, totalCustomers,
      directRevenue, affiliationNetRevenue, referralRevenue, totalRevenue,
      v.operatingExpenses, v.financingCost, totalExpenses,
      profitBeforeTax, shares.0, profitBeforeTax - shares.0, shares.1, shares.2,
      cashBefore + shares.2)
  }

  /** The body of the loop for one year, given the carried totals and cash balance. */
  function Step(p: Params, year: int, prevTotalDirect: real, prevTotalAffiliation: real,
                cashBefore: real): (r: Result<YearRecord, Error>)
    requires 1 <= year <= HORIZON
    ensures r.Success? <==> StepReady(p, year)
    ensures r.Failure? ==> Genuine(p, r.error)
    ensures r.Success? ==> RowOf(p, year, prevTotalDirect, prevTotalAffiliation, cashBefore, r.value)
  {
    var inputs :- Gather(p, year, prevTotalDirect, prevTotalAffiliation);
    BookedRow(p, year, prevTotalDirect, prevTotalAffiliation, cashBefore, inputs);
    Success(Book(year, inputs, cashBefore))
  }

  /** The row booked from the gathered inputs reflects the dictionary and the carried state. */
  lemma BookedRow(p: Params, year: int, prevTotalDirect: real, prevTotalAffiliation: real,
                  cashBefore: real, v: YearInputs)
    requires 1 <= year <= HORIZON
    requires Gather(p, year, prevTotalDirect, prevTotalAffiliation) == Success(v)
    ensures StepReady(p, year)
    ensures FollowsParams(p, year, Book(year, v, cashBefore))
    ensures CarriesForward(p, year, prevTotalDirect, prevTotalAffiliation, cashBefore, Book(year, v, cashBefore))
  {
  }

  // ---------------------------------------------------------------------------
  // The fold over the years

  /** The state carried into the next year: previous direct and affiliation totals, and the cash balance. */
  function Carry(p: Params, done: seq<YearRecord>): (real, real, real) {
    if done == [] then (0.0, 0.0, LoanPrincipalOf(p))
    else
      var last := done[|done| - 1];
      (last.totalDirect, last.totalAffiliation, last.cumulativeCash)
  }

  /** The rows of years 1..n, or the first error raised on the way. */
  function Ledger(p: Params, n: nat): (r: Result<seq<YearRecord>, Error>)
    requires n <= HORIZON
    ensures r.Success? ==> |r.value| == n
  {
    if n == 0 then Success([])
    else
      var done :- Ledger(p, n - 1);
      var carried := Carry(p, done);
      var rec :- Step(p, n, carried.0, carried.1, carried.2);
      Success(done + [rec])
  }

  /** The full seven-year projection. */
  function Projection(p: Params): Result<seq<YearRecord>, Error> {
    Ledger(p, HORIZON)
  }

  /** Once the fold has failed, the later years do not change its outcome. */
  lemma {:induction false} FailureIsFinal(p: Params, k: nat)
    requires k <= HORIZON
    ensures Ledger(p, k).Failure? ==> Projection(p) == Ledger(p, k)
    decreases HORIZON - k
  {
    if k < HORIZON && Ledger(p, k).Failure? {
      assert Ledger(p, k + 1) == Ledger(p, k);
      FailureIsFinal(p, k + 1);
    }
  }

  /**
   * `calculate_financials`: the loop over years 1..7 that carries the previous totals
   * and the running cash and appends one row per year; a missing key aborts the run.
   */
  method CalculateFinancials(p: Params) returns (r: Result<seq<YearRecord>, Error>)
    ensures r == Projection(p)
  {
    var results: seq<YearRecord> := [];
    var cumulativeCash := LoanPrincipalOf(p);
    var prevTotalDirect := 0.0;
    var prevTotalAffiliation := 0.0;
    for year := 1 to HORIZON + 1
      invariant Ledger(p, year - 1) == Success(results)
      invariant (prevTotalDirect, prevTotalAffiliation, cumulativeCash) == Carry(p, results)
    {
      FailureIsFinal(p, year);
      var rec :- Step(p, year, prevTotalDirect, prevTotalAffiliation, cumulativeCash);
      cumulativeCash := cumulativeCash + rec.netProfit;
      results := results + [rec];
      prevTotalDirect := rec.totalDirect;
      prevTotalAffiliation := rec.totalAffiliation;
    }
    r := Success(results);
  }
}
