/**
 * Properties of the seven-year projection: the shape of the ledger, what each row
 * carries over from the row before, the per-row rules, and when the run fails.
 */
module ProjectionProperties {
  import opened Wrappers
  import opened BusinessLogic

  /** The state carried into row `i`: the previous row's channel totals and cash, or the seed for year 1. */
  function CarriedInto(p: Params, rs: seq<YearRecord>, i: int): (real, real, real)
    requires 0 <= i < |rs|
  {
    Carry(p, rs[..i])
  }

  /** Row `i` keeps the promises of year `i + 1`, given the state the row before it carries. */
  predicate RowAt(p: Params, rs: seq<YearRecord>, i: int)
    requires 0 <= i < |rs|
  {
    var c := CarriedInto(p, rs, i);
    RowOf(p, i + 1, c.0, c.1, c.2, rs[i])
  }

  /** Every row keeps the promises of its year. */
  predicate ChainedRows(p: Params, rs: seq<YearRecord>) {
    forall i :: 0 <= i < |rs| ==> RowAt(p, rs, i)
  }

  /** Every row of a ledger is one the step of its year produces from the row before it. */
  lemma {:induction false} LedgerChained(p: Params, n: nat)
    requires n <= HORIZON
    ensures Ledger(p, n).Success? ==> ChainedRows(p, Ledger(p, n).value)
  {
    if n > 0 && Ledger(p, n).Success? {
      LedgerChained(p, n - 1);
      var done := Ledger(p, n - 1).value;
      var c := Carry(p, done);
      var rec := Step(p, n, c.0, c.1, c.2).value;
      var rs := Ledger(p, n).value;
      assert rs == done + [rec];
      forall i | 0 <= i < n
        ensures RowAt(p, rs, i)
      {
        if i < n - 1 {
          assert rs[i] == done[i];
          assert CarriedInto(p, rs, i) == CarriedInto(p, done, i);
          assert RowAt(p, done, i);
        } else {
          assert CarriedInto(p, rs, i) == c;
        }
      }
    }
  }

  /** A successful projection is seven chained rows. */
  lemma ProjectionChained(p: Params, rs: seq<YearRecord>)
    requires Projection(p) == Success(rs)
    ensures |rs| == HORIZON && ChainedRows(p, rs)
  {
    LedgerChained(p, HORIZON);
  }

  // ---------------------------------------------------------------------------
  // Shape of the ledger

  /** Seven rows, one per year, with years 1..7 in ascending order. */
  lemma ProjectionShape(p: Params, rs: seq<YearRecord>)
    requires Projection(p) == Success(rs)
    ensures |rs| == HORIZON
    ensures forall i :: 0 <= i < |rs| ==> rs[i].year == i + 1
  {
    ProjectionChained(p, rs);
    forall i | 0 <= i < |rs|
      ensures rs[i].year == i + 1
    {
      assert RowAt(p, rs, i);
    }
  }

  // ---------------------------------------------------------------------------
  // What each row carries over from the row before

  /** Year 1 retains nobody: its totals are only its new customers. */
  lemma FirstYearRetainsNothing(p: Params, rs: seq<YearRecord>)
    requires Projection(p) == Success(rs)
    ensures |rs| == HORIZON
    ensures rs[0].retainedDirect == 0.0 && rs[0].retainedAffiliation == 0.0
    ensures rs[0].totalDirect == rs[0].newDirect && rs[0].totalAffiliation == rs[0].newAffiliation
  {
    ProjectionChained(p, rs);
    assert RowAt(p, rs, 0);
  }

  /** From year 2 on, each channel retains the previous row's total at that year's rate. */
  lemma RetentionCarriesForward(p: Params, rs: seq<YearRecord>)
    requires Projection(p) == Success(rs)
    ensures |rs| == HORIZON
    ensures CoversYears(p.directRetentionByYear, 2) && CoversYears(p.affiliationRetentionByYear, 2)
    ensures forall i :: 1 <= i < |rs| ==>
      rs[i].retainedDirect == rs[i - 1].totalDirect * p.directRetentionByYear.value[i + 1] &&
      rs[i].retainedAffiliation == rs[i - 1].totalAffiliation * p.affiliationRetentionByYear.value[i + 1]
  {
    ProjectionChained(p, rs);
    RowRetains(p, rs, 1);
    forall y | 2 <= y <= HORIZON
      ensures y in p.directRetentionByYear.value && y in p.affiliationRetentionByYear.value
    {
      RowRetains(p, rs, y - 1);
    }
    forall i | 1 <= i < |rs|
      ensures rs[i].retainedDirect == rs[i - 1].totalDirect * p.directRetentionByYear.value[i + 1]
      ensures rs[i].retainedAffiliation == rs[i - 1].totalAffiliation * p.affiliationRetentionByYear.value[i + 1]
    {
      RowRetains(p, rs, i);
    }
  }

  /** Row `i > 0` retains the previous row's totals at the rates of year `i + 1`. */
  lemma RowRetains(p: Params, rs: seq<YearRecord>, i: int)
    requires ChainedRows(p, rs) && 1 <= i < |rs|
    ensures p.directRetentionByYear.Some? && i + 1 in p.directRetentionByYear.value
    ensures p.affiliationRetentionByYear.Some? && i + 1 in p.affiliationRetentionByYear.value
    ensures rs[i].retainedDirect == rs[i - 1].totalDirect * p.directRetentionByYear.value[i + 1]
    ensures rs[i].retainedAffiliation == rs[i - 1].totalAffiliation * p.affiliationRetentionByYear.value[i + 1]
  {
    assert RowAt(p, rs, i);
  }

  /** The cash balance is a running sum seeded with the loan principal, with no resets. */
  lemma CumulativeCashRunningSum(p: Params, rs: seq<YearRecord>)
    requires Projection(p) == Success(rs)
    ensures |rs| == HORIZON
    ensures rs[0].cumulativeCash == LoanPrincipalOf(p) + rs[0].netProfit
    ensures forall i :: 1 <= i < |rs| ==> rs[i].cumulativeCash == rs[i - 1].cumulativeCash + rs[i].netProfit
  {
    ProjectionChained(p, rs);
    forall i | 0 <= i < |rs|
      ensures rs[i].cumulativeCash == CarriedInto(p, rs, i).2 + rs[i].netProfit
    {
      assert RowAt(p, rs, i);
    }
  }

  /** The net profits of a sequence of rows, added up. */
  function NetProfitSum(rs: seq<YearRecord>): real {
    if rs == [] then 0.0 else NetProfitSum(rs[..|rs| - 1]) + rs[|rs| - 1].netProfit
  }

  /** A running sum seeded with `seed` equals the seed plus the sum of the profits so far. */
  lemma {:induction false} RunningSumClosedForm(rs: seq<YearRecord>, seed: real, k: nat)
    requires |rs| > 0 && rs[0].cumulativeCash == seed + rs[0].netProfit
    requires forall i :: 1 <= i < |rs| ==> rs[i].cumulativeCash == rs[i - 1].cumulativeCash + rs[i].netProfit
    requires k < |rs|
    ensures rs[k].cumulativeCash == seed + NetProfitSum(rs[..k + 1])
  {
    if k == 0 {
      assert rs[..1][..0] == [];
    } else {
      RunningSumClosedForm(rs, seed, k - 1);
      assert rs[..k + 1][..k] == rs[..k];
    }
  }

  /** Each year's balance is the loan principal plus every net profit up to and including that year. */
  lemma CumulativeCashClosedForm(p: Params, rs: seq<YearRecord>)
    requires Projection(p) == Success(rs)
    ensures forall k :: 0 <= k < |rs| ==> rs[k].cumulativeCash == LoanPrincipalOf(p) + NetProfitSum(rs[..k + 1])
  {
    CumulativeCashRunningSum(p, rs);
    forall k | 0 <= k < |rs|
      ensures rs[k].cumulativeCash == LoanPrincipalOf(p) + NetProfitSum(rs[..k + 1])
    {
      RunningSumClosedForm(rs, LoanPrincipalOf(p), k);
    }
  }

  // ---------------------------------------------------------------------------
  // Rules every row obeys

  /** Every row splits its new customers 40/60 and its totals add up. */
  lemma EveryRowAddsUp(p: Params, rs: seq<YearRecord>)
    requires Projection(p) == Success(rs)
    ensures forall i :: 0 <= i < |rs| ==> SplitsNewCustomers(rs[i]) && TotalsAddUp(rs[i])
  {
    ProjectionChained(p, rs);
    forall i | 0 <= i < |rs|
      ensures SplitsNewCustomers(rs[i]) && TotalsAddUp(rs[i])
    {
      assert RowAt(p, rs, i);
    }
  }

  /** Tax and bonus are never negative and are taken only from a strictly positive profit. */
  lemma EveryRowTaxAndBonusGuarded(p: Params, rs: seq<YearRecord>)
    requires Projection(p) == Success(rs)
    ensures forall i :: 0 <= i < |rs| ==> TaxAndBonusGuarded(rs[i])
  {
    ProjectionChained(p, rs);
    forall i | 0 <= i < |rs|
      ensures TaxAndBonusGuarded(rs[i])
    {
      assert RowAt(p, rs, i);
    }
  }

  /** Row `i` takes its revenue, costs and new customers from the dictionary's entries for year `i + 1`. */
  lemma RowFollowsParams(p: Params, rs: seq<YearRecord>, i: int)
    requires Projection(p) == Success(rs) && 0 <= i < HORIZON
    ensures |rs| == HORIZON && StepReady(p, i + 1) && FollowsParams(p, i + 1, rs[i])
    ensures SplitsNewCustomers(rs[i])
    ensures rs[i].totalExpenses == rs[i].operatingCosts + rs[i].financingCosts
  {
    ProjectionChained(p, rs);
    assert RowAt(p, rs, i);
  }

  /** Financing costs follow the year table: payouts in years 1 and 2, the loan to year 5, nothing after. */
  lemma FinancingCostsByYear(p: Params, rs: seq<YearRecord>)
    requires Projection(p) == Success(rs)
    ensures |rs| == HORIZON
    ensures p.annualLoanRepayment.Some? && p.ownerPayoutYear1.Some? && p.ownerPayoutYear2.Some?
    ensures rs[0].financingCosts == p.annualLoanRepayment.value + p.ownerPayoutYear1.value
    ensures rs[1].financingCosts == p.annualLoanRepayment.value + p.ownerPayoutYear2.value
    ensures rs[2].financingCosts == rs[3].financingCosts == rs[4].financingCosts == p.annualLoanRepayment.value
    ensures rs[5].financingCosts == rs[6].financingCosts == 0.0
    ensures p.operatingExpenses.Some?
    ensures forall i :: 0 <= i < |rs| ==> rs[i].totalExpenses == p.operatingExpenses.value + rs[i].financingCosts
  {
    RowFollowsParams(p, rs, 0);
    RowFollowsParams(p, rs, 1);
    RowFollowsParams(p, rs, 2);
    RowFollowsParams(p, rs, 3);
    RowFollowsParams(p, rs, 4);
    RowFollowsParams(p, rs, 5);
    RowFollowsParams(p, rs, 6);
    forall i | 0 <= i < |rs|
      ensures rs[i].totalExpenses == p.operatingExpenses.value + rs[i].financingCosts
    {
      RowFollowsParams(p, rs, i);
    }
  }

  /** The rows' revenue and new customers are the year's entries of the dictionary; a year absent from `new_customers` has none. */
  lemma EveryRowFollowsParams(p: Params, rs: seq<YearRecord>)
    requires Projection(p) == Success(rs)
    ensures p.newCustomers.Some? && p.additionalReferralsPerYear.Some?
    ensures p.directFee.Some? && p.affiliationNetFee.Some? && p.channelBNewRev.Some?
    ensures forall i :: 0 <= i < |rs| ==>
      (i + 1 in p.newCustomers.value ==> rs[i].newCustomers == p.newCustomers.value[i + 1]) &&
      (i + 1 !in p.newCustomers.value ==>
        rs[i].newCustomers == 0.0 && rs[i].newDirect == 0.0 && rs[i].newAffiliation == 0.0) &&
      rs[i].directRevenue == rs[i].totalDirect * p.directFee.value &&
      rs[i].affiliationNetRevenue == rs[i].totalAffiliation * p.affiliationNetFee.value &&
      i + 1 in p.additionalReferralsPerYear.value &&
      rs[i].channelBRevenue == p.additionalReferralsPerYear.value[i + 1] * p.channelBNewRev.value
  {
    RowFollowsParams(p, rs, 0);
    forall i | 0 <= i < |rs|
      ensures i + 1 in p.newCustomers.value ==> rs[i].newCustomers == p.newCustomers.value[i + 1]
      ensures i + 1 !in p.newCustomers.value ==>
        rs[i].newCustomers == 0.0 && rs[i].newDirect == 0.0 && rs[i].newAffiliation == 0.0
      ensures rs[i].directRevenue == rs[i].totalDirect * p.directFee.value
      ensures rs[i].affiliationNetRevenue == rs[i].totalAffiliation * p.affiliationNetFee.value
      ensures i + 1 in p.additionalReferralsPerYear.value
      ensures rs[i].channelBRevenue == p.additionalReferralsPerYear.value[i + 1] * p.channelBNewRev.value
    {
      RowFollowsParams(p, rs, i);
    }
  }

  // ---------------------------------------------------------------------------
  // When the projection fails

  /** Every year from 1 to n finds the keys it looks up. */
  predicate ReadyThrough(p: Params, n: int) {
    forall y :: 1 <= y <= n ==> StepReady(p, y)
  }

  /** The first n years succeed exactly when every one of them finds its keys. */
  lemma {:induction false} LedgerSucceedsIffReady(p: Params, n: nat)
    requires n <= HORIZON
    ensures Ledger(p, n).Success? <==> ReadyThrough(p, n)
  {
    if n > 0 {
      LedgerSucceedsIffReady(p, n - 1);
      assert ReadyThrough(p, n) <==> ReadyThrough(p, n - 1) && StepReady(p, n);
      if Ledger(p, n - 1).Success? {
        var c := Carry(p, Ledger(p, n - 1).value);
        assert Ledger(p, n).Success? <==> Step(p, n, c.0, c.1, c.2).Success?;
      }
    }
  }

  /** A failing ledger reports a lookup that really misses. */
  lemma {:induction false} LedgerErrorIsGenuine(p: Params, n: nat)
    requires n <= HORIZON
    ensures Ledger(p, n).Failure? ==> Genuine(p, Ledger(p, n).error)
  {
    if n > 0 {
      LedgerErrorIsGenuine(p, n - 1);
      if Ledger(p, n - 1).Success? {
        var c := Carry(p, Ledger(p, n - 1).value);
        assert Ledger(p, n).Failure? ==> Ledger(p, n).error == Step(p, n, c.0, c.1, c.2).error;
      }
    }
  }

  /** A complete dictionary is one in which each year finds its keys. */
  lemma CompleteIffEveryYearReady(p: Params)
    ensures Complete(p) <==> ReadyThrough(p, HORIZON)
  {
    if ReadyThrough(p, HORIZON) {
      assert StepReady(p, 1) && StepReady(p, 2);
      forall y | 2 <= y <= HORIZON
        ensures y in p.directRetentionByYear.value && y in p.affiliationRetentionByYear.value
      {
        assert StepReady(p, y);
      }
      forall y | 1 <= y <= HORIZON
        ensures y in p.additionalReferralsPerYear.value
      {
        assert StepReady(p, y);
      }
    }
  }

  /**
   * The projection succeeds exactly when the dictionary is complete; otherwise the
   * error it raises names a key that is absent or a year its map lacks.
   */
  lemma ProjectionSucceedsIffComplete(p: Params)
    ensures Projection(p).Success? <==> Complete(p)
    ensures Projection(p).Failure? ==> Genuine(p, Projection(p).error)
  {
    LedgerSucceedsIffReady(p, HORIZON);
    LedgerErrorIsGenuine(p, HORIZON);
    CompleteIffEveryYearReady(p);
  }

  /** A year dropped from `new_customers` never makes the projection fail. */
  lemma MissingNewCustomersYearIsHarmless(p: Params, y: int)
    requires p.newCustomers.Some?
    ensures Projection(p.(newCustomers := Some(p.newCustomers.value - {y}))).Success? == Projection(p).Success?
  {
    ProjectionSucceedsIffComplete(p);
    ProjectionSucceedsIffComplete(p.(newCustomers := Some(p.newCustomers.value - {y})));
  }

  /**
   * Dropping any year 1..7 from `additional_referrals_per_year` makes the projection fail;
   * when nothing else is missing, the error is exactly that year of that map.
   */
  lemma DroppedReferralYearFails(p: Params, y: int)
    requires 1 <= y <= HORIZON && p.additionalReferralsPerYear.Some?
    ensures Projection(p.(additionalReferralsPerYear := Some(p.additionalReferralsPerYear.value - {y}))).Failure?
    ensures Complete(p) ==>
      Projection(p.(additionalReferralsPerYear := Some(p.additionalReferralsPerYear.value - {y})))
        == Failure(MissingYear(AdditionalReferralsPerYear, y))
  {
    var q := p.(additionalReferralsPerYear := Some(p.additionalReferralsPerYear.value - {y}));
    ProjectionSucceedsIffComplete(q);
    assert !CoversYears(q.additionalReferralsPerYear, 1);
  }

  /**
   * Dropping any year 2..7 from either retention map makes the projection fail; when
   * nothing else is missing, the error is exactly that year of that map.
   */
  lemma DroppedRetentionYearFails(p: Params, y: int)
    requires 2 <= y <= HORIZON && p.directRetentionByYear.Some? && p.affiliationRetentionByYear.Some?
    ensures Projection(p.(directRetentionByYear := Some(p.directRetentionByYear.value - {y}))).Failure?
    ensures Projection(p.(affiliationRetentionByYear := Some(p.affiliationRetentionByYear.value - {y}))).Failure?
    ensures Complete(p) ==>
      Projection(p.(directRetentionByYear := Some(p.directRetentionByYear.value - {y})))
        == Failure(MissingYear(DirectRetentionByYear, y))
    ensures Complete(p) ==>
      Projection(p.(affiliationRetentionByYear := Some(p.affiliationRetentionByYear.value - {y})))
        == Failure(MissingYear(AffiliationRetentionByYear, y))
  {
    var q := p.(directRetentionByYear := Some(p.directRetentionByYear.value - {y}));
    ProjectionSucceedsIffComplete(q);
    assert !CoversYears(q.directRetentionByYear, 2);
    var q' := p.(affiliationRetentionByYear := Some(p.affiliationRetentionByYear.value - {y}));
    ProjectionSucceedsIffComplete(q');
    assert !CoversYears(q'.affiliationRetentionByYear, 2);
  }

  // ---------------------------------------------------------------------------
  // Year-1 retention is never read

  /** A year-indexed map without its year-1 entry. */
  function DropYearOne(o: Option<map<int, real>>): Option<map<int, real>> {
    if o.Some? then Some(o.value - {1}) else None
  }

  /** The dictionary with the year-1 entries of both retention maps removed. */
  function WithoutYearOneRetention(p: Params): Params {
    p.(directRetentionByYear := DropYearOne(p.directRetentionByYear),
       affiliationRetentionByYear := DropYearOne(p.affiliationRetentionByYear))
  }

  /** From year 2 on, a channel's retained customers do not depend on a year-1 rate. */
  lemma RetainedIgnoresYearOne(o: Option<map<int, real>>, k: Key, year: int, prev: real)
    requires year > 1
    ensures Retained(DropYearOne(o), k, year, prev) == Retained(o, k, year, prev)
  {
    if o.Some? && year in o.value {
      assert (o.value - {1})[year] == o.value[year];
      assert Retained(DropYearOne(o), k, year, prev).value == Retained(o, k, year, prev).value;
    }
  }

  /** A year's step never reads the year-1 retention rates. */
  lemma StepIgnoresYearOneRetention(p: Params, year: int, prevTotalDirect: real,
                                    prevTotalAffiliation: real, cashBefore: real)
    requires 1 <= year <= HORIZON
    ensures Step(WithoutYearOneRetention(p), year, prevTotalDirect, prevTotalAffiliation, cashBefore)
         == Step(p, year, prevTotalDirect, prevTotalAffiliation, cashBefore)
  {
    var q := WithoutYearOneRetention(p);
    if year > 1 {
      RetainedIgnoresYearOne(p.directRetentionByYear, DirectRetentionByYear, year, prevTotalDirect);
      RetainedIgnoresYearOne(p.affiliationRetentionByYear, AffiliationRetentionByYear, year, prevTotalAffiliation);
    }
    assert FinancingCost(q, year) == FinancingCost(p, year);
    assert Gather(q, year, prevTotalDirect, prevTotalAffiliation)
        == Gather(p, year, prevTotalDirect, prevTotalAffiliation);
  }

  /** The first n years of the fold never read the year-1 retention rates. */
  lemma {:induction false} LedgerIgnoresYearOneRetention(p: Params, n: nat)
    requires n <= HORIZON
    ensures Ledger(WithoutYearOneRetention(p), n) == Ledger(p, n)
  {
    if n > 0 {
      LedgerIgnoresYearOneRetention(p, n - 1);
      if Ledger(p, n - 1).Success? {
        var c := Carry(p, Ledger(p, n - 1).value);
        assert Carry(WithoutYearOneRetention(p), Ledger(p, n - 1).value) == c;
        StepIgnoresYearOneRetention(p, n, c.0, c.1, c.2);
      }
    }
  }

  /** The year-1 retention rates are never looked up: removing them changes nothing, not even a failure. */
  lemma YearOneRetentionIgnored(p: Params)
    ensures Projection(WithoutYearOneRetention(p)) == Projection(p)
  {
    LedgerIgnoresYearOneRetention(p, HORIZON);
  }

  // ---------------------------------------------------------------------------
  // A worked example

  /** The dictionary the form builds from its default values (affiliation net fee 35000 * (1 - 0.2)). */
  const SAMPLE: Params := Params(
    Some(2500000.0),
    Some(map y: int | 1 <= y <= HORIZON :: 10.0),
    Some(map y: int | 1 <= y <= HORIZON :: 0.9),
    Some(map y: int | 1 <= y <= HORIZON :: 0.75),
    Some(map y: int | 1 <= y <= HORIZON :: 10.0),
    Some(39000.0),
    Some(28000.0),
    Some(10000.0),
    Some(524000.0),
    Some(553750.0),
    Some(525000.0),
    Some(520000.0))

  /** Year 1 of the default scenario is a loss year: no tax, no bonus, the loss comes off the principal. */
  lemma SampleFirstYear()
    ensures Projection(SAMPLE).Success?
    ensures Projection(SAMPLE).value[0] == YearRecord(
      1, 10.0, 4.0, 0.0, 4.0, 6.0, 0.0, 6.0, 10.0,
      156000.0, 168000.0, 100000.0, 424000.0,
      524000.0, 1078750.0, 1602750.0,
      -1178750.0, 0.0, -1178750.0, 0.0, -1178750.0, 1321250.0)
  {
    assert Complete(SAMPLE);
    ProjectionSucceedsIffComplete(SAMPLE);
    var rs := Projection(SAMPLE).value;
    ProjectionChained(SAMPLE, rs);
    assert RowAt(SAMPLE, rs, 0);
  }

  /** Year 2 retains 90% and 75% of year 1's channel totals and pays the second owner payout. */
  lemma SampleSecondYear()
    ensures Projection(SAMPLE).Success?
    ensures Projection(SAMPLE).value[1] == YearRecord(
      2, 10.0, 4.0, 3.6, 7.6, 6.0, 4.5, 10.5, 18.1,
      296400.0, 294000.0, 100000.0, 690400.0,
      524000.0, 1073750.0, 1597750.0,
      -907350.0, 0.0, -907350.0, 0.0, -907350.0, 413900.0)
  {
    SampleFirstYear();
    var rs := Projection(SAMPLE).value;
    ProjectionChained(SAMPLE, rs);
    assert RowAt(SAMPLE, rs, 1);
  }
}
