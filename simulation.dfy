/** The yearly net-worth projection of invest.py:10-198. Set-up totals the
    owned properties, the other assets and the portfolio into a seed net worth;
    then each of the years 1 to 19 runs the dividend pass, draws a fixed 45,000
    from the accounts in a fixed order, grows the portfolio, and records the
    year's net worth. */
module Simulation {
  import opened Basics
  import opened Holdings
  import opened Withdrawal
  import opened Dividends
  import opened Growth
  import opened IncomeTax

  /** One entry of the properties dict; its key is never read (invest.py:27-31). */
  datatype PropertyRecord = PropertyRecord(owned: bool, rent: real, value: real)

  /** One entry of the other-assets dict; only its value is read (invest.py:50, 192). */
  datatype OtherAsset = OtherAsset(owned: bool, value: real)

  /** The salary argument: one figure for every year, or a list, one per year. */
  datatype Salary = Fixed(amount: real) | Schedule(amounts: seq<real>)

  /** The accounts drawn on, cheapest first (invest.py:131). */
  const WithdrawalOrder: seq<Key> :=
    ["current_account", "cash_isa", "savings", "dividend_stocks", "premium_bonds", "pension"]

  /** The amount drawn every year, whatever the `money_needed` given (invest.py:156). */
  const YearlyWithdrawal: real := 45000.0

  const StatePension: real := 12500.0

  /** The cost charged every fifth year (invest.py:63, 182-183). */
  const FiveYearCost: real := 8000.0

  /** How many copies of a fixed salary the schedule holds (invest.py:18, 42). */
  const SalaryYears: nat := 20

  /** `range(1, 20)` stops before this year (invest.py:134). */
  const LastYear: nat := 20

  // ---------------------------------------------------------------------------
  // Set-up.

  /** The rents of the properties, 0 for those not owned. */
  function Rents(props: seq<PropertyRecord>): seq<real>
  {
    seq(|props|, j requires 0 <= j < |props| => if props[j].owned then props[j].rent else 0.0)
  }

  /** The values of the properties, 0 for those not owned. */
  function PropertyValues(props: seq<PropertyRecord>): seq<real>
  {
    seq(|props|, j requires 0 <= j < |props| => if props[j].owned then props[j].value else 0.0)
  }

  /** Rental income: the rents of the owned properties (invest.py:26-30). */
  function OwnedRent(props: seq<PropertyRecord>): real
  {
    Sum(Rents(props))
  }

  /** Property value: the values of the owned properties (invest.py:26-31). */
  function OwnedValue(props: seq<PropertyRecord>): real
  {
    Sum(PropertyValues(props))
  }

  /** The other assets' worth: every value, owned or not (invest.py:50, 192). */
  function OtherValue(others: seq<OtherAsset>): real
  {
    Sum(seq(|others|, j requires 0 <= j < |others| => others[j].value))
  }

  /** The salary schedule: a list is kept as it is, a single figure becomes 20
      copies of itself (invest.py:37-42). */
  function SalarySchedule(s: Salary): (r: seq<real>)
    ensures s.Fixed? ==> |r| == SalaryYears && forall j :: 0 <= j < |r| ==> r[j] == s.amount
    ensures s.Schedule? ==> r == s.amounts
  {
    match s
    case Fixed(a) => seq(SalaryYears, _ => a)
    case Schedule(l) => l
  }

  /** The salary of year i: the schedule's entry, or 0 past its end (invest.py:139-142). */
  function SalaryFor(schedule: seq<real>, i: nat): real
  {
    if i < |schedule| then schedule[i] else 0.0
  }

  /** The cost charged in year i (invest.py:182-183). */
  function PeriodicCost(i: int): real
  {
    if i % 5 == 0 && i != 0 then FiveYearCost else 0.0
  }

  // ---------------------------------------------------------------------------
  // One year, and the run of years.

  /** What a year reads besides the portfolio, all fixed at set-up. */
  datatype Setup = Setup(salary: seq<real>, rentalIncome: real, propertyValue: real, otherValue: real)

  /** The dividend pass of invest.py:144-145, always in the 'higher' bracket. */
  function DividendYear(p: Portfolio): (r: Pass)
    requires DividendsReady(p)
    ensures |r.updated| == |p[Find(p, DividendKey)].asset.lots|
  {
    var lots := p[Find(p, DividendKey)].asset.lots;
    PassFrom(lots, 0, AfterTaxShare(Higher), Pass([], StartingAllowance, 0.0))
  }

  /** The portfolio once the pass has written the new lot values back. */
  function AfterDividends(p: Portfolio): (r: Portfolio)
    requires DividendsReady(p)
    ensures SameOutline(p, r) && DividendsReady(r) && (Shaped(p) ==> Shaped(r))
  {
    var i := Find(p, DividendKey);
    var lots := p[i].asset.lots;
    var r := p[i := Entry(DividendKey, Lots(Commit(lots, DividendYear(p).updated)))];
    assert SameShape(p[i].asset, r[i].asset);
    assert forall j :: 0 <= j < |p| && j != i ==> r[j] == p[j];
    SameOutlineKeeps(p, r);
    r
  }

  /** How a year ends: with the year's net worth, or with the KeyError the
      withdrawal raised on a missing key, the portfolio partly drawn. */
  datatype YearOutcome = Completed(portfolio: Portfolio, networth: real) | Stopped(portfolio: Portfolio, key: Key)

  /** The net worth recorded for year i: the bond overflow, less the periodic
      cost, plus the portfolio, the other assets, the year's income and the
      property value (invest.py:181-194). The dividend income and the tax
      computed at invest.py:150-151 are reset to 0 at invest.py:160 and so
      contribute nothing. */
  function YearNetWorth(g: Grown, i: nat, s: Setup): real
  {
    var income := SalaryFor(s.salary, i) + s.rentalIncome + StatePension;
    g.overflow - PeriodicCost(i) + Total(g.portfolio) + s.otherValue + income + s.propertyValue
  }

  /** What a year needs of the portfolio: the shape the set-up demands, and a
      dividend key whose lots the pass can read. */
  predicate Ready(p: Portfolio)
  {
    Shaped(p) && DividendsReady(p)
  }

  /** Year i of invest.py:134-196. */
  function YearStep(p: Portfolio, i: nat, s: Setup): (r: YearOutcome)
    requires Ready(p)
    ensures SameOutline(p, r.portfolio) && Ready(r.portfolio)
  {
    var p1 := AfterDividends(p);
    var w := WithdrawFrom(p1, YearlyWithdrawal, WithdrawalOrder, 0);
    WithdrawKeepsOutline(p1, YearlyWithdrawal, WithdrawalOrder, 0);
    SameOutlineTransitive(p, p1, w.portfolio);
    SameOutlineKeeps(p, w.portfolio);
    if w.missing.Some? then Stopped(w.portfolio, w.missing.value)
    else
      var g := Grow(w.portfolio);
      SameOutlineTransitive(p, w.portfolio, g.portfolio);
      SameOutlineKeeps(p, g.portfolio);
      Completed(g.portfolio, YearNetWorth(g, i, s))
  }

  /** The outcome of the run: the net-worth series, the final portfolio, and the
      key of a KeyError that ended it early. */
  datatype Run = Run(networth: seq<real>, portfolio: Portfolio, aborted: Option<Key>)

  /** A year function the run can iterate: defined on every ready portfolio,
      and leaving a ready one. */
  ghost predicate Sound(step: (Portfolio, nat) --> YearOutcome)
  {
    forall q, j :: Ready(q) ==> step.requires(q, j) && Ready(step(q, j).portfolio)
  }

  /** The outer loop of invest.py:134-196 from year i, appending to `series`,
      whatever each year does. */
  function RunWith(step: (Portfolio, nat) --> YearOutcome, p: Portfolio, i: nat, series: seq<real>): (r: Run)
    requires Sound(step) && i <= LastYear && Ready(p)
    decreases LastYear - i
  {
    if i == LastYear then Run(series, p, None)
    else
      var y := step(p, i);
      if y.Stopped? then Run(series, y.portfolio, Some(y.key))
      else RunWith(step, y.portfolio, i + 1, series + [y.networth])
  }

  /** The year of invest.py:136-196 with the set-up fixed. */
  function YearOf(s: Setup): (step: (Portfolio, nat) --> YearOutcome)
    ensures Sound(step)
    ensures forall q, j :: Ready(q) ==> step(q, j) == YearStep(q, j, s)
  {
    (q: Portfolio, j: nat) requires Ready(q) => YearStep(q, j, s)
  }

  /** The years from i up to 19. */
  function RunFrom(p: Portfolio, i: nat, s: Setup, series: seq<real>): Run
    requires i <= LastYear && Ready(p)
  {
    RunWith(YearOf(s), p, i, series)
  }

  /** One year of the run: a KeyError ends it, otherwise the year's entry is
      appended and the next year starts from the year's portfolio. */
  lemma RunFromStep(p: Portfolio, i: nat, s: Setup, series: seq<real>)
    requires i < LastYear && Ready(p)
    ensures var y := YearStep(p, i, s);
      RunFrom(p, i, s, series)
        == if y.Stopped? then Run(series, y.portfolio, Some(y.key))
           else RunFrom(y.portfolio, i + 1, s, series + [y.networth])
  {
    assert YearOf(s)(p, i) == YearStep(p, i, s);
  }

  /** The loop's step, stated of what Year leaves: its portfolio stays ready,
      and the run from year i is either over or the run from year i + 1. */
  lemma RunAdvance(p: Portfolio, i: nat, next: nat, s: Setup, series: seq<real>,
                   q: Portfolio, series': seq<real>, missing: Option<Key>)
    requires i < LastYear && next == i + 1 && Ready(p)
    requires var y := YearStep(p, i, s);
      && q == y.portfolio
      && (y.Stopped? ==> missing == Some(y.key) && series' == series)
      && (y.Completed? ==> missing == None && series' == series + [y.networth])
    ensures Ready(q)
    ensures missing.Some? ==> RunFrom(p, i, s, series) == Run(series', q, missing)
    ensures missing.None? ==> RunFrom(p, i, s, series) == RunFrom(q, next, s, series')
  {
    RunFromStep(p, i, s, series);
  }

  // ---------------------------------------------------------------------------
  // The object.

  class InvestmentAppreciation {
    const rentalIncome: real
    const propertyValue: real
    const salaryEnd: nat
    const salary: seq<real>
    const otherAssets: seq<OtherAsset>
    const properties: seq<PropertyRecord>
    const statePension: real
    var portfolio: Portfolio
    const moneyNeeded: real
    const timePeriod: nat
    var networthValues: seq<real>
    const portfolioValue: real
    const fiveYearCost: real

    /** The year-independent inputs, as the years read them. */
    function Inputs(): Setup
    {
      Setup(salary, rentalIncome, propertyValue, OtherValue(otherAssets))
    }

    ghost predicate Valid()
      reads this
    {
      statePension == StatePension && fiveYearCost == FiveYearCost && Shaped(portfolio)
    }

    /** Totals the owned properties, fixes the salary schedule and records the
        seed net worth: owned property value, all other assets, and the
        portfolio with the dividend lots summed (invest.py:12-63). */
    constructor (salary: Salary, properties: seq<PropertyRecord>, portfolio: Portfolio,
                 moneyNeeded: real, otherAssets: seq<OtherAsset>)
      requires Shaped(portfolio)
      ensures Valid()
      ensures this.portfolio == portfolio && this.properties == properties && this.otherAssets == otherAssets
      ensures this.moneyNeeded == moneyNeeded && timePeriod == 20
      ensures rentalIncome == OwnedRent(properties) && propertyValue == OwnedValue(properties)
      ensures this.salary == SalarySchedule(salary)
      ensures salaryEnd == if salary.Schedule? then |salary.amounts| else SalaryYears
      ensures portfolioValue == Total(portfolio)
      ensures networthValues == [OwnedValue(properties) + OtherValue(otherAssets) + Total(portfolio)]
    {
      var rent, value := 0.0, 0.0;
      var k := 0;
      while k < |properties|
        invariant k <= |properties|
        invariant rent == Sum(Rents(properties)[..k]) && value == Sum(PropertyValues(properties)[..k])
      {
        SumSnoc(Rents(properties), k);
        SumSnoc(PropertyValues(properties), k);
        if properties[k].owned {
          rent := rent + properties[k].rent;
          value := value + properties[k].value;
        }
        k := k + 1;
      }
      assert Rents(properties)[..k] == Rents(properties);
      assert PropertyValues(properties)[..k] == PropertyValues(properties);
      rentalIncome, propertyValue := rent, value;
      this.properties := properties;
      statePension := 12500.0;
      match salary {
        case Schedule(amounts) =>
          this.salary, salaryEnd := amounts, |amounts|;
        case Fixed(amount) =>
          this.salary, salaryEnd := seq(20, _ => amount), 20;
      }
      this.portfolio := portfolio;
      this.moneyNeeded := moneyNeeded;
      this.otherAssets := otherAssets;
      timePeriod := 20;
      var otherAssetValue := OtherValue(otherAssets);
      var total := PortfolioValue(portfolio);
      portfolioValue := total;
      networthValues := [value + otherAssetValue + total];
      fiveYearCost := 8000.0;
    }

    /** The portfolio's worth, entry by entry, the dividend lots summed
        (invest.py:51-58 and 185-190). */
    static method PortfolioValue(p: Portfolio) returns (total: real)
      requires Shaped(p)
      ensures total == Total(p)
    {
      total := 0.0;
      var k := 0;
      while k < |p|
        invariant k <= |p| && total == Total(p[..k])
      {
        assert p[..k + 1][..k] == p[..k] && p[..k + 1][k] == p[k];
        if p[k].key == DividendKey {
          total := total + Sum(Values(p[k].asset.lots));
        } else {
          total := total + p[k].asset.holding.value;
          SumSingle(p[k].asset.holding.value);
        }
        k := k + 1;
      }
      assert p[..k] == p;
    }

    /** The growth loop of invest.py:163-179: each entry in the portfolio's
        order, premium bonds capped with their overflow gathered, the
        dividend lots skipped, every other account raised by its yield. */
    method GrowPortfolio() returns (bondGain: real)
      requires Shaped(portfolio)
      modifies this`portfolio
      ensures portfolio == Grow(old(portfolio)).portfolio && bondGain == Grow(old(portfolio)).overflow
    {
      bondGain := 0.0;
      var k := 0;
      while k < |portfolio|
        invariant k <= |portfolio| && ShapedFrom(portfolio, k)
        invariant GrowFrom(portfolio, k, bondGain) == Grow(old(portfolio))
      {
        var grown := GrowOne(portfolio[k]);
        portfolio := portfolio[k := grown.entry];
        bondGain := bondGain + grown.overflow;
        k := k + 1;
      }
    }

    /** The loop body of invest.py:166-179 for one entry. */
    static method GrowOne(e: Entry) returns (r: EntryGrowth)
      requires e.asset.Lots? <==> e.key == DividendKey
      ensures r == GrowEntry(e)
    {
      if e.key == PremiumBondsKey {
        var b := CalcPremBonds(e.asset.holding, true, BondCeiling);
        r := EntryGrowth(Entry(e.key, Single(b.holding)), b.overflow);
      } else if e.key == DividendKey {
        r := EntryGrowth(e, 0.0);
      } else {
        var h := e.asset.holding;
        if h.taxFree {
          h := h.(value := h.value + ConvertYield(h));
        } else {
          h := h.(value := h.value + ConvertYield(h));
        }
        r := EntryGrowth(Entry(e.key, Single(h)), 0.0);
      }
    }

    /** One year of the loop (invest.py:136-196). The dividend calculator works
        on the object's own portfolio, as does the withdrawal; the net pay that
        tax_with_ni computes is discarded. */
    method Year(i: nat) returns (missing: Option<Key>)
      requires Valid() && Ready(portfolio)
      modifies this`portfolio, this`networthValues
      ensures Valid() && Ready(portfolio)
      ensures var y := YearStep(old(portfolio), i, Inputs());
        && portfolio == y.portfolio
        && (y.Stopped? ==> missing == Some(y.key) && networthValues == old(networthValues))
        && (y.Completed? ==> missing == None && networthValues == old(networthValues) + [y.networth])
    {
      ghost var start := portfolio;
      var salary := SalaryFor(this.salary, i);

      var dividendIncome := PayDividends();
      ghost var p1 := portfolio;
      var incomeNonTaxable := 0.0;
      var capitalGainsNonTaxable := 0.0;

      salary := salary + rentalIncome + statePension;
      incomeNonTaxable := incomeNonTaxable + TaxWithNi(salary + rentalIncome + dividendIncome).netPay;
      incomeNonTaxable := incomeNonTaxable + dividendIncome;

      missing := Draw();
      WithdrawKeepsOutline(p1, YearlyWithdrawal, WithdrawalOrder, 0);
      SameOutlineTransitive(start, p1, portfolio);
      SameOutlineKeeps(start, portfolio);
      if missing.Some? {
        assert YearStep(start, i, Inputs()) == Stopped(portfolio, missing.value);
        return;
      }

      incomeNonTaxable := 0.0;
      capitalGainsNonTaxable := 0.0;
      ghost var drawn := portfolio;
      var bondGain := GrowPortfolio();
      capitalGainsNonTaxable := capitalGainsNonTaxable + bondGain;
      SameOutlineKeeps(drawn, portfolio);

      var networthThisYear := NetWorthThisYear(i, incomeNonTaxable + capitalGainsNonTaxable, salary);
      assert networthThisYear == YearNetWorth(Grow(drawn), i, Inputs());
      assert YearStep(start, i, Inputs()) == Completed(portfolio, networthThisYear);
      networthValues := networthValues + [networthThisYear];
    }

    /** The year's entry (invest.py:181-194): what the year gathered, less the
        cost of every fifth year, plus the portfolio, the other assets, the
        year's income and the property value. */
    method NetWorthThisYear(i: nat, gathered: real, salary: real) returns (networthThisYear: real)
      requires Valid()
      ensures networthThisYear
        == gathered - PeriodicCost(i) + Total(portfolio) + OtherValue(otherAssets) + salary + propertyValue
    {
      networthThisYear := gathered;
      if i % 5 == 0 && i != 0 {
        networthThisYear := networthThisYear - fiveYearCost;
      }
      var total := PortfolioValue(portfolio);
      networthThisYear := networthThisYear + total;
      networthThisYear := networthThisYear + OtherValue(otherAssets);
      networthThisYear := networthThisYear + salary;
      networthThisYear := networthThisYear + propertyValue;
    }

    /** The dividend pass of invest.py:144-145: a calculator in the 'higher'
        bracket over the object's own portfolio, whose lots it updates. */
    method PayDividends() returns (dividendIncome: real)
      requires Ready(portfolio)
      modifies this`portfolio
      ensures portfolio == AfterDividends(old(portfolio))
      ensures dividendIncome == DividendYear(old(portfolio)).divReturn
    {
      var dv := new CalculateDiv(portfolio, Higher);
      var _ := dv.CalcDividend();
      portfolio := dv.values;
      dividendIncome := dv.divReturn;
    }

    /** The withdrawal of invest.py:155-156: a fixed 45,000 in the fixed order,
        drawn from the object's own portfolio. */
    method Draw() returns (missing: Option<Key>)
      modifies this`portfolio
      ensures var w := WithdrawFrom(old(portfolio), YearlyWithdrawal, WithdrawalOrder, 0);
        portfolio == w.portfolio && missing == w.missing
    {
      var manager := new PortfolioManager(portfolio);
      var result;
      result, missing := manager.Withdraw(YearlyWithdrawal, WithdrawalOrder);
      portfolio := result;
    }

    /** The years 1 to 19 (invest.py:119-198): one net-worth entry per year
        appended to the seed; a KeyError in a withdrawal ends the run with the
        entries so far. */
    method Loop() returns (values: seq<real>, aborted: Option<Key>)
      requires Valid() && Ready(portfolio)
      modifies this`portfolio, this`networthValues
      ensures var run := RunFrom(old(portfolio), 1, Inputs(), old(networthValues));
        && values == networthValues == run.networth && portfolio == run.portfolio && aborted == run.aborted
    {
      ghost var run := RunFrom(portfolio, 1, Inputs(), networthValues);
      var i := 1;
      while i < LastYear
        invariant 1 <= i <= LastYear && Valid() && Ready(portfolio)
        invariant RunFrom(portfolio, i, Inputs(), networthValues) == run
      {
        ghost var p0, s0 := portfolio, networthValues;
        var missing := Year(i);
        var next := i + 1;
        RunAdvance(p0, i, next, Inputs(), s0, portfolio, networthValues, missing);
        if missing.Some? {
          return networthValues, missing;
        }
        i := next;
      }
      values, aborted := networthValues, None;
    }
  }

  // ---------------------------------------------------------------------------
  // What the projection guarantees.

  /** Whatever the years do, a run keeps the entries it started with, adds one
      per completed year, and has one entry for each of the years up to 19
      exactly when no year raised. */
  lemma {:induction false} RunKeepsSeries(step: (Portfolio, nat) --> YearOutcome, p: Portfolio, i: nat, series: seq<real>)
    requires Sound(step) && i <= LastYear && Ready(p)
    ensures var r := RunWith(step, p, i, series);
      && |series| <= |r.networth| && r.networth[..|series|] == series
      && (r.aborted == None <==> |r.networth| == |series| + LastYear - i)
    decreases LastYear - i
  {
    if i < LastYear {
      var y := step(p, i);
      if y.Completed? {
        var series' := series + [y.networth];
        RunKeepsSeries(step, y.portfolio, i + 1, series');
        var r := RunWith(step, p, i, series);
        assert r.networth[..|series|] == r.networth[..|series'|][..|series|];
      }
    }
  }

  /** A run that completes returns exactly 20 entries: the seed, then years 1 to 19. */
  lemma RunLength(p: Portfolio, s: Setup, seed: real)
    requires Ready(p)
    ensures var r := RunFrom(p, 1, s, [seed]);
      && 0 < |r.networth| && r.networth[0] == seed
      && (r.aborted == None <==> |r.networth| == 20)
  {
    var r := RunFrom(p, 1, s, [seed]);
    RunKeepsSeries(YearOf(s), p, 1, [seed]);
    assert r.networth[0] == r.networth[..1][0] == [seed][0];
  }

  /** Two year functions that agree from year i on give the same run from year i. */
  lemma {:induction false} RunsAgree(step: (Portfolio, nat) --> YearOutcome, step': (Portfolio, nat) --> YearOutcome,
                                     p: Portfolio, i: nat, series: seq<real>)
    requires Sound(step) && Sound(step') && i <= LastYear && Ready(p)
    requires forall q, j :: Ready(q) && i <= j ==> step(q, j) == step'(q, j)
    ensures RunWith(step, p, i, series) == RunWith(step', p, i, series)
    decreases LastYear - i
  {
    if i < LastYear {
      var y := step(p, i);
      if y.Completed? {
        RunsAgree(step, step', y.portfolio, i + 1, series + [y.networth]);
      }
    }
  }

  /** The salary of year 0 is never read: the years run from 1. */
  lemma SalaryHeadUnused(p: Portfolio, s: Setup, series: seq<real>, x: real)
    requires Ready(p) && 0 < |s.salary|
    ensures RunFrom(p, 1, s, series) == RunFrom(p, 1, s.(salary := s.salary[0 := x]), series)
  {
    var s' := s.(salary := s.salary[0 := x]);
    forall q, j | Ready(q) && 1 <= j
      ensures YearOf(s)(q, j) == YearOf(s')(q, j)
    {
      assert SalaryFor(s.salary, j) == SalaryFor(s'.salary, j);
    }
    RunsAgree(YearOf(s), YearOf(s'), p, 1, series);
  }

  /** A run whose every year completes and keeps a property of the portfolio
      never raises. */
  lemma {:induction false} RunWithCompletes(step: (Portfolio, nat) --> YearOutcome, keep: Portfolio -> bool,
                                            p: Portfolio, i: nat, series: seq<real>)
    requires Sound(step) && i <= LastYear && Ready(p) && keep(p)
    requires forall q, j :: Ready(q) && keep(q) ==> step(q, j).Completed? && keep(step(q, j).portfolio)
    ensures RunWith(step, p, i, series).aborted == None
    decreases LastYear - i
  {
    if i < LastYear {
      var y := step(p, i);
      RunWithCompletes(step, keep, y.portfolio, i + 1, series + [y.networth]);
    }
  }

  /** A year raises only when an account of the withdrawal order is missing,
      and changes values only, never keys. */
  lemma YearCompletes(p: Portfolio, i: nat, s: Setup)
    requires Ready(p) && AllPresent(p, WithdrawalOrder)
    ensures var y := YearStep(p, i, s); y.Completed? && AllPresent(y.portfolio, WithdrawalOrder)
  {
    var p1 := AfterDividends(p);
    SameOutlineKeeps(p, p1);
    WithdrawFindsEveryKey(p1, YearlyWithdrawal, WithdrawalOrder, 0);
    SameOutlineKeeps(p, YearStep(p, i, s).portfolio);
  }

  /** With every account of the withdrawal order in the portfolio no year
      raises, and the run has its full length. */
  lemma RunCompletes(p: Portfolio, s: Setup, series: seq<real>)
    requires Ready(p) && AllPresent(p, WithdrawalOrder)
    ensures RunFrom(p, 1, s, series).aborted == None
    ensures |RunFrom(p, 1, s, series).networth| == |series| + 19
  {
    var keep := (q: Portfolio) => AllPresent(q, WithdrawalOrder);
    forall q, j | Ready(q) && keep(q)
      ensures YearOf(s)(q, j).Completed? && keep(YearOf(s)(q, j).portfolio)
    {
      YearCompletes(q, j, s);
    }
    RunWithCompletes(YearOf(s), keep, p, 1, series);
    RunKeepsSeries(YearOf(s), p, 1, series);
  }

  /** Among the years 1 to 19 the cost is charged in exactly years 5, 10 and 15. */
  lemma CostYears(i: int)
    requires 1 <= i < LastYear
    ensures PeriodicCost(i) == FiveYearCost <==> i == 5 || i == 10 || i == 15
    ensures PeriodicCost(i) == 0.0 <==> !(i == 5 || i == 10 || i == 15)
  {
  }

  /** A single salary is paid in every year of the run; a list stops paying
      once it runs out. */
  lemma SalaryPaid(sal: Salary, i: nat)
    requires 1 <= i < LastYear
    ensures sal.Fixed? ==> SalaryFor(SalarySchedule(sal), i) == sal.amount
    ensures sal.Schedule? && |sal.amounts| <= i ==> SalaryFor(SalarySchedule(sal), i) == 0.0
  {
  }

  /** The cost comes round every five years. */
  lemma CostEveryFifthYear(i: nat)
    requires 0 < i
    ensures PeriodicCost(i + 5) == PeriodicCost(i)
    ensures PeriodicCost(i) == FiveYearCost || PeriodicCost(i) == 0.0
  {
  }

  /** With non-negative rents and values the rental income, the property value
      and the other assets are non-negative. */
  lemma SetUpNonNegative(props: seq<PropertyRecord>, others: seq<OtherAsset>)
    requires forall j :: 0 <= j < |props| ==> 0.0 <= props[j].rent && 0.0 <= props[j].value
    requires forall j :: 0 <= j < |others| ==> 0.0 <= others[j].value
    ensures 0.0 <= OwnedRent(props) && 0.0 <= OwnedValue(props) && 0.0 <= OtherValue(others)
  {
    SumNonNegative(Rents(props));
    SumNonNegative(PropertyValues(props));
    SumNonNegative(seq(|others|, j requires 0 <= j < |others| => others[j].value));
  }

  /** Two outcomes of the same year under the same set-up are recorded apart by
      exactly what their portfolio worth and overflow differ by: the cost, the
      income and the fixed assets are the same for both. */
  lemma YearNetWorthTracksPortfolio(g: Grown, g': Grown, i: nat, s: Setup)
    ensures YearNetWorth(g', i, s) - YearNetWorth(g, i, s)
         == (Total(g'.portfolio) + g'.overflow) - (Total(g.portfolio) + g.overflow)
  {
  }

  /** A property not owned adds neither rent nor value. */
  lemma UnownedPropertyIgnored(props: seq<PropertyRecord>, j: nat)
    requires j < |props| && !props[j].owned
    ensures OwnedRent(props) == OwnedRent(props[..j] + props[j + 1..])
    ensures OwnedValue(props) == OwnedValue(props[..j] + props[j + 1..])
  {
    var rest := props[..j] + props[j + 1..];
    assert Rents(props) == Rents(props[..j]) + [0.0] + Rents(props[j + 1..]);
    assert Rents(rest) == Rents(props[..j]) + Rents(props[j + 1..]);
    assert PropertyValues(props) == PropertyValues(props[..j]) + [0.0] + PropertyValues(props[j + 1..]);
    assert PropertyValues(rest) == PropertyValues(props[..j]) + PropertyValues(props[j + 1..]);
    SumConcat(Rents(props[..j]) + [0.0], Rents(props[j + 1..]));
    SumConcat(Rents(props[..j]), [0.0]);
    SumConcat(Rents(props[..j]), Rents(props[j + 1..]));
    SumConcat(PropertyValues(props[..j]) + [0.0], PropertyValues(props[j + 1..]));
    SumConcat(PropertyValues(props[..j]), [0.0]);
    SumConcat(PropertyValues(props[..j]), PropertyValues(props[j + 1..]));
  }

  /** The `Owned` flag of an other asset is never read. */
  lemma OtherOwnedIgnored(others: seq<OtherAsset>, j: nat, owned: bool)
    requires j < |others|
    ensures OtherValue(others[j := others[j].(owned := owned)]) == OtherValue(others)
  {
    var flipped := others[j := others[j].(owned := owned)];
    assert seq(|flipped|, m requires 0 <= m < |flipped| => flipped[m].value)
        == seq(|others|, m requires 0 <= m < |others| => others[m].value);
  }
}
