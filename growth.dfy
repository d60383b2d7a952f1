/** A year's growth of the portfolio (invest.py:65-101 and 163-179): every
    single-holding asset gains its yield, the premium bonds only up to the
    50,000 ceiling with the excess returned as overflow, and the dividend lots
    are left to the dividend pass. */
module Growth {
  import opened Basics
  import opened Holdings
  import Dividends

  /** The premium-bond ceiling, `max_holding` (invest.py:78). */
  const BondCeiling: real := 50000.0

  /** A holding's growth for the year: a "p%" yield is p / 100 of the value; any
      other yield is handed back as it is (invest.py:66-75). */
  function ConvertYield(h: Holding): (g: real)
    ensures h.annualYield.Flat? ==> g == h.annualYield.amount
    ensures 0.0 <= h.value && h.annualYield.Percent? && 0.0 <= h.annualYield.pct ==> 0.0 <= g
  {
    match h.annualYield
    case Percent(p) => p / 100.0 * h.value
    case Flat(a) => a
  }

  /** Growth reads a "p%" yield exactly as the dividend pass does. */
  lemma ConvertYieldIsGross(h: Holding)
    requires h.annualYield.Percent?
    ensures ConvertYield(h) == Dividends.Gross(h)
  {
  }

  /** What calc_prem_bonds returns: the holding with its new value, and the
      amount that did not fit under the ceiling. */
  datatype BondGrowth = BondGrowth(holding: Holding, overflow: real)

  /** Grows a premium-bond holding (invest.py:78-101). Accumulating, the value
      becomes the lesser of old value plus gain and the ceiling, and what is
      above the ceiling is the overflow, so nothing is lost; otherwise the
      value stays and the whole gain is returned. Only the value changes. */
  function CalcPremBonds(x: Holding, acc: bool, maxHolding: real): (r: BondGrowth)
    ensures r.holding == x.(value := r.holding.value)
    ensures acc ==> r.holding.value == Min(x.value + ConvertYield(x), maxHolding)
    ensures acc ==> r.overflow == Max(0.0, x.value + ConvertYield(x) - maxHolding)
    ensures acc ==> r.holding.value + r.overflow == x.value + ConvertYield(x)
    ensures !acc ==> r.holding == x && r.overflow == ConvertYield(x)
  {
    var capitalGain := ConvertYield(x);
    if acc then
      var newValue := x.value + capitalGain;
      if newValue >= maxHolding then BondGrowth(x.(value := maxHolding), newValue - maxHolding)
      else BondGrowth(x.(value := newValue), 0.0)
    else BondGrowth(x, capitalGain)
  }

  /** A 49,000 holding at 3.5% gains 1,715: 1,000 fills it to the ceiling and
      715 overflows. */
  lemma BondOverflowExample()
    ensures var h := Holding(49000.0, true, Percent(3.5), CapitalGains, false);
      CalcPremBonds(h, true, BondCeiling) == BondGrowth(h.(value := 50000.0), 715.0)
  {
  }

  /** One entry's growth and the overflow it contributes. */
  datatype EntryGrowth = EntryGrowth(entry: Entry, overflow: real)

  /** The loop body of invest.py:166-179 for one entry: premium bonds through
      calc_prem_bonds with the default ceiling, the dividend lots skipped, and
      any other asset's value raised by its yield, tax-free or not. */
  function GrowEntry(e: Entry): (r: EntryGrowth)
    requires e.asset.Lots? <==> e.key == DividendKey
    ensures r.entry.key == e.key && SameShape(e.asset, r.entry.asset)
  {
    if e.key == PremiumBondsKey then
      var b := CalcPremBonds(e.asset.holding, true, BondCeiling);
      EntryGrowth(Entry(e.key, Single(b.holding)), b.overflow)
    else if e.key == DividendKey then EntryGrowth(e, 0.0)
    else
      var h := e.asset.holding;
      EntryGrowth(Entry(e.key, Single(h.(value := h.value + ConvertYield(h)))), 0.0)
  }

  /** The state of the growth loop: the portfolio so far and the overflow gathered. */
  datatype Grown = Grown(portfolio: Portfolio, overflow: real)

  /** The entries from k on have the shape the growth loop reads. */
  predicate ShapedFrom(p: Portfolio, k: nat)
  {
    forall j :: k <= j < |p| ==> (p[j].asset.Lots? <==> p[j].key == DividendKey)
  }

  /** The growth loop from entry k on, in the portfolio's order. */
  function GrowFrom(p: Portfolio, k: nat, overflow: real): (r: Grown)
    requires k <= |p| && ShapedFrom(p, k)
    ensures |r.portfolio| == |p|
    decreases |p| - k
  {
    if k == |p| then Grown(p, overflow)
    else GrowFrom(p[k := GrowEntry(p[k]).entry], k + 1, overflow + GrowEntry(p[k]).overflow)
  }

  /** Growth changes values only. */
  lemma {:induction false} GrowKeepsOutline(p: Portfolio, k: nat, overflow: real)
    requires k <= |p| && ShapedFrom(p, k)
    ensures SameOutline(p, GrowFrom(p, k, overflow).portfolio)
    decreases |p| - k
  {
    if k < |p| {
      var next := p[k := GrowEntry(p[k]).entry];
      assert SameOutline(p, next) by {
        assert forall j :: 0 <= j < |p| && j != k ==> next[j] == p[j];
      }
      GrowKeepsOutline(next, k + 1, overflow + GrowEntry(p[k]).overflow);
      SameOutlineTransitive(p, next, GrowFrom(next, k + 1, overflow + GrowEntry(p[k]).overflow).portfolio);
    }
  }

  /** A whole year's growth. */
  function Grow(p: Portfolio): (r: Grown)
    requires Shaped(p)
    ensures SameOutline(p, r.portfolio) && Shaped(r.portfolio)
  {
    GrowKeepsOutline(p, 0, 0.0);
    SameOutlineKeeps(p, GrowFrom(p, 0, 0.0).portfolio);
    GrowFrom(p, 0, 0.0)
  }

  /** The overflow of the first n entries. */
  function OverflowOf(p: Portfolio, n: nat): real
    requires n <= |p| && Shaped(p)
  {
    if n == 0 then 0.0 else OverflowOf(p, n - 1) + GrowEntry(p[n - 1]).overflow
  }

  lemma {:induction false} GrowFromEntryWise(p: Portfolio, q: Portfolio, k: nat, overflow: real)
    requires k <= |p| == |q| && Shaped(p) && ShapedFrom(q, k)
    requires forall j :: 0 <= j < k ==> q[j] == GrowEntry(p[j]).entry
    requires forall j :: k <= j < |p| ==> q[j] == p[j]
    requires overflow == OverflowOf(p, k)
    ensures var r := GrowFrom(q, k, overflow);
      && (forall j :: 0 <= j < |p| ==> r.portfolio[j] == GrowEntry(p[j]).entry)
      && r.overflow == OverflowOf(p, |p|)
    decreases |p| - k
  {
    if k < |p| {
      var next := k + 1;
      assert q[k] == p[k];
      var g := GrowEntry(q[k]);
      var q' := q[k := g.entry];
      assert OverflowOf(p, next) == overflow + g.overflow;
      assert GrowFrom(q, k, overflow) == GrowFrom(q', next, overflow + g.overflow);
      GrowFromEntryWise(p, q', next, overflow + g.overflow);
    }
  }

  /** Each entry grows on its own, with the overflow summed in the portfolio's
      order: premium bonds are capped at the ceiling, the dividend lots are
      unchanged, every other asset gains its yield whether tax-free or not. */
  lemma GrowthEffect(p: Portfolio)
    requires Shaped(p)
    ensures var r := Grow(p);
      && |r.portfolio| == |p|
      && r.overflow == OverflowOf(p, |p|)
      && forall j :: 0 <= j < |p| ==>
        && r.portfolio[j].key == p[j].key
        && (p[j].key == DividendKey ==> r.portfolio[j] == p[j])
        && (p[j].key == PremiumBondsKey ==>
              r.portfolio[j].asset.holding.value
                == Min(p[j].asset.holding.value + ConvertYield(p[j].asset.holding), BondCeiling))
        && (p[j].key != DividendKey && p[j].key != PremiumBondsKey ==>
              r.portfolio[j].asset.holding.value
                == p[j].asset.holding.value + ConvertYield(p[j].asset.holding))
  {
    GrowFromEntryWise(p, p, 0, 0.0);
  }

  /** After growth the premium bonds never hold more than the ceiling. */
  lemma BondsCapped(p: Portfolio)
    requires Shaped(p)
    ensures var r := Grow(p);
      forall j :: 0 <= j < |r.portfolio| && r.portfolio[j].key == PremiumBondsKey ==>
        r.portfolio[j].asset.holding.value <= BondCeiling
  {
    GrowthEffect(p);
  }
}
