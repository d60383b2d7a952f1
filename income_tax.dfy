/** The UK income-tax and National Insurance calculator of helper.py:125-165:
    a personal allowance that tapers away above 100,000, income tax at 20%, 40%
    and 45% on the bands above it, and National Insurance at 8% and 2%. */
module IncomeTax {
  import opened Basics

  /** The personal allowance before tapering (helper.py:131). */
  const FullAllowance: real := 12570.0
  /** Above this income the allowance falls by 1 for every 2 earned (helper.py:132-133). */
  const TaperStart: real := 100000.0
  /** The top of the 40% band and the start of the 45% band (helper.py:136-140). */
  const AdditionalThreshold: real := 125140.0
  /** The top of the 20% band and of the 8% National Insurance band (helper.py:140-152). */
  const HigherThreshold: real := 50270.0

  /** The dict the calculator returns: income, tax, National Insurance and net pay. */
  datatype Payslip = Payslip(income: real, tax: real, nationalInsurance: real, netPay: real)

  /** The personal allowance for an income: the full 12,570, less half of the
      income above 100,000, floored at 0 (helper.py:131-133). */
  function PersonalAllowance(income: real): (pa: real)
    ensures 0.0 <= pa <= FullAllowance
    ensures income <= TaperStart ==> pa == FullAllowance
    ensures TaperStart < income < AdditionalThreshold ==> 0.0 < pa == FullAllowance - (income - TaperStart) / 2.0
    ensures AdditionalThreshold <= income ==> pa == 0.0
  {
    if income > 100000.0 then Max(0.0, 12570.0 - (income - 100000.0) / 2.0) else 12570.0
  }

  /** Income tax band by band from the top, as the source does: 45% above
      125,140, then 40% down to 50,270, then 20% down to the allowance
      (helper.py:136-145). */
  function IncomeTaxDue(income: real): (tax: real)
    ensures 0.0 <= tax
    ensures income <= PersonalAllowance(income) ==> tax == 0.0
  {
    var pa := PersonalAllowance(income);
    var additional := if income > 125140.0 then (income - 125140.0) * 0.45 else 0.0;
    var below45 := if income > 125140.0 then 125140.0 else income;
    var higher := if 50270.0 < below45 <= 125140.0 then (below45 - 50270.0) * 0.40 else 0.0;
    var below40 := if 50270.0 < below45 <= 125140.0 then 50270.0 else below45;
    var basic := if pa < below40 <= 50270.0 then (below40 - pa) * 0.20 else 0.0;
    additional + higher + basic
  }

  /** National Insurance on the whole income, with no allowance taper: 8%
      between 12,570 and 50,270 and 2% above (helper.py:149-155). */
  function NationalInsurance(income: real): (ni: real)
    ensures 0.0 <= ni
    ensures income <= FullAllowance ==> ni == 0.0
  {
    if income > 50270.0 then (50270.0 - 12570.0) * 0.08 + (income - 50270.0) * 0.02
    else if income > 12570.0 then (income - 12570.0) * 0.08
    else 0.0
  }

  /** The whole calculation: net pay is what is left of the income after tax
      and National Insurance, both of which are non-negative, and an income
      within the personal allowance pays neither (helper.py:125-165). */
  function TaxWithNi(income: real): (r: Payslip)
    ensures r.income == income && r.netPay == income - r.tax - r.nationalInsurance
    ensures 0.0 <= r.tax && 0.0 <= r.nationalInsurance && r.netPay <= income
    ensures income <= FullAllowance ==> r.tax == 0.0 && r.nationalInsurance == 0.0 && r.netPay == income
  {
    var tax := IncomeTaxDue(income);
    var ni := NationalInsurance(income);
    Payslip(income, tax, ni, income - tax - ni)
  }

  // ---------------------------------------------------------------------------
  // Reference definitions: each rate applied to the slice of income in its band.

  /** The part of `income` that lies between `low` and `high`. */
  function Slice(income: real, low: real, high: real): (s: real)
    requires low <= high
    ensures 0.0 <= s <= high - low
    ensures income <= low ==> s == 0.0
    ensures high <= income ==> s == high - low
  {
    Max(0.0, Min(income, high) - low)
  }

  /** Income tax as a sum over the bands. */
  function BandTax(income: real): real
  {
    var pa := PersonalAllowance(income);
    0.20 * Slice(income, pa, HigherThreshold)
      + 0.40 * Slice(income, HigherThreshold, AdditionalThreshold)
      + 0.45 * Max(0.0, income - AdditionalThreshold)
  }

  /** National Insurance as a sum over its bands. */
  function BandNi(income: real): real
  {
    0.08 * Slice(income, FullAllowance, HigherThreshold) + 0.02 * Max(0.0, income - HigherThreshold)
  }

  /** The top-down computation charges each band exactly its rate on the slice
      of income within it, whatever the income. */
  lemma TaxIsBandSum(income: real)
    ensures IncomeTaxDue(income) == BandTax(income)
    ensures NationalInsurance(income) == BandNi(income)
  {
    var pa := PersonalAllowance(income);
    if income <= pa {
      assert Slice(income, pa, HigherThreshold) == 0.0;
    } else if income <= HigherThreshold {
      assert Slice(income, pa, HigherThreshold) == income - pa;
    } else if income <= AdditionalThreshold {
      assert Slice(income, pa, HigherThreshold) == HigherThreshold - pa;
      assert Slice(income, HigherThreshold, AdditionalThreshold) == income - HigherThreshold;
    } else {
      assert pa == 0.0;
    }
  }

  /** Earning more never lowers the tax owed. */
  lemma TaxMonotone(a: real, b: real)
    requires a <= b
    ensures IncomeTaxDue(a) <= IncomeTaxDue(b)
    ensures NationalInsurance(a) <= NationalInsurance(b)
  {
    TaxIsBandSum(a);
    TaxIsBandSum(b);
    var pa, pb := PersonalAllowance(a), PersonalAllowance(b);
    assert pb <= pa;
    assert Slice(a, pa, HigherThreshold) <= Slice(b, pb, HigherThreshold);
  }

  /** In the taper, 10,000 more income takes home 4,800 more. */
  lemma TaperKeepsFortyEight()
    ensures TaxWithNi(110000.0).netPay - TaxWithNi(100000.0).netPay == 4800.0
  {
  }

  /** Earning more never lowers net pay: even in the taper, where each extra
      pound costs 40% tax, the 20% basic rate on the half pound of allowance
      lost and 2% National Insurance, 48% of it is kept. */
  lemma NetPayMonotone(a: real, b: real)
    requires a <= b
    ensures TaxWithNi(a).netPay <= TaxWithNi(b).netPay
  {
    TaxIsBandSum(a);
    TaxIsBandSum(b);
    var pa, pb := PersonalAllowance(a), PersonalAllowance(b);
    assert pa - pb <= (b - a) / 2.0;
    assert Slice(b, pb, HigherThreshold) - Slice(a, pa, HigherThreshold) <= (b - a) + (pa - pb);
  }

  /** A non-negative income never has a negative net pay. */
  lemma NetPayNonNegative(income: real)
    requires 0.0 <= income
    ensures 0.0 <= TaxWithNi(income).netPay
  {
    NetPayMonotone(0.0, income);
  }

  /** An income of 150,000 loses its whole allowance: 11,187 at 45%, 29,948
      at 40% and 10,054 at 20% make 51,189 of tax; National Insurance is
      3,016 + 1,994.60 = 5,010.60. */
  lemma ExampleAboveTaper()
    ensures TaxWithNi(150000.0) == Payslip(150000.0, 51189.0, 5010.6, 93800.4)
  {
  }
}
