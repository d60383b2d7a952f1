/** The portfolio's data model: holdings, the assets that hold them, and the
    insertion-ordered mapping from asset key to asset. */
module Holdings {
  import opened Basics

  type Key = string

  /** The one asset key whose value is a list of lots (helper.py:91, invest.py:54). */
  const DividendKey: Key := "dividend_stocks"

  /** The asset key that grows under the premium-bond ceiling (invest.py:166). */
  const PremiumBondsKey: Key := "premium_bonds"

  /** A holding's `yield` field: the text "p%" is Percent(p); any other value is
      Flat, which convert_yield hands back unchanged as the year's growth. */
  datatype Yield = Percent(pct: real) | Flat(amount: real)

  datatype IncomeType = CapitalGains | Income

  /** One account or one stock lot; `acc` is read only for dividend lots. */
  datatype Holding = Holding(value: real, taxFree: bool, annualYield: Yield, incomeType: IncomeType, acc: bool)

  /** An asset is one holding, or an ordered list of lots. */
  datatype Asset = Single(holding: Holding) | Lots(lots: seq<Holding>)

  datatype Entry = Entry(key: Key, asset: Asset)

  /** A dict keeps its insertion order; so does this sequence of entries. */
  type Portfolio = seq<Entry>

  /** The position of the entry a lookup `portfolio[k]` finds, or -1 (a KeyError). */
  function Find(p: Portfolio, k: Key): (i: int)
    ensures -1 <= i < |p|
    ensures 0 <= i ==> p[i].key == k && forall j :: 0 <= j < i ==> p[j].key != k
    ensures i < 0 ==> forall j :: 0 <= j < |p| ==> p[j].key != k
  {
    if |p| == 0 then -1
    else if p[0].key == k then 0
    else
      var i := Find(p[1..], k);
      if i < 0 then -1 else i + 1
  }

  /** The values of a list of lots, in order. */
  function Values(lots: seq<Holding>): (vs: seq<real>)
    ensures |vs| == |lots| && forall j :: 0 <= j < |lots| ==> vs[j] == lots[j].value
  {
    seq(|lots|, j requires 0 <= j < |lots| => lots[j].value)
  }

  /** The values an asset holds, in drawing order. */
  function AssetValues(a: Asset): seq<real>
  {
    match a
    case Single(h) => [h.value]
    case Lots(lots) => Values(lots)
  }

  /** An asset's worth: the holding's value, or the sum over its lots. */
  function AssetTotal(a: Asset): real
  {
    Sum(AssetValues(a))
  }

  /** The portfolio's worth, summed entry by entry as invest.py:53-58 and 185-190 do. */
  function Total(p: Portfolio): real
  {
    if |p| == 0 then 0.0 else Total(p[..|p| - 1]) + AssetTotal(p[|p| - 1].asset)
  }

  /** A portfolio whose holdings are all non-negative is worth at least 0. */
  lemma {:induction false} TotalNonNegative(p: Portfolio)
    requires forall j :: 0 <= j < |p| ==> NonNegative(AssetValues(p[j].asset))
    ensures 0.0 <= Total(p)
  {
    if |p| > 0 {
      TotalNonNegative(p[..|p| - 1]);
      SumNonNegative(AssetValues(p[|p| - 1].asset));
    }
  }

  /** The shape the engine relies on: the dividend key holds lots and every other
      key holds a single record (other shapes raise TypeError in the source). */
  predicate Shaped(p: Portfolio)
  {
    forall j :: 0 <= j < |p| ==> (p[j].asset.Lots? <==> p[j].key == DividendKey)
  }

  predicate PercentYields(lots: seq<Holding>)
  {
    forall j :: 0 <= j < |lots| ==> lots[j].annualYield.Percent?
  }

  /** The dividend pass can run: the key is present, holds lots, and every lot's
      yield is "p%" text (a missing key raises KeyError, a non-text yield
      AttributeError, at helper.py:91-93). */
  predicate DividendsReady(p: Portfolio)
  {
    var i := Find(p, DividendKey);
    0 <= i && p[i].asset.Lots? && PercentYields(p[i].asset.lots)
  }

  /** A holding with its value erased: what the engine never changes. */
  function Blank(h: Holding): Holding
  {
    h.(value := 0.0)
  }

  predicate SameShape(a: Asset, b: Asset)
  {
    match a
    case Single(h) => b.Single? && Blank(h) == Blank(b.holding)
    case Lots(ls) =>
      b.Lots? && |ls| == |b.lots| && forall j :: 0 <= j < |ls| ==> Blank(ls[j]) == Blank(b.lots[j])
  }

  /** Two portfolios that differ at most in holding values. */
  predicate SameOutline(p: Portfolio, q: Portfolio)
  {
    |p| == |q| && forall j :: 0 <= j < |p| ==> p[j].key == q[j].key && SameShape(p[j].asset, q[j].asset)
  }

  lemma SameOutlineTransitive(p: Portfolio, q: Portfolio, r: Portfolio)
    requires SameOutline(p, q) && SameOutline(q, r)
    ensures SameOutline(p, r)
  {
    forall j | 0 <= j < |p|
      ensures p[j].key == r[j].key && SameShape(p[j].asset, r[j].asset)
    {
      assert SameShape(p[j].asset, q[j].asset) && SameShape(q[j].asset, r[j].asset);
    }
  }

  /** Lookups, the shape and readiness depend only on the outline, so every
      step that changes only values keeps them. */
  lemma SameOutlineKeeps(p: Portfolio, q: Portfolio)
    requires SameOutline(p, q)
    ensures forall k :: Find(p, k) == Find(q, k)
    ensures Shaped(p) <==> Shaped(q)
    ensures DividendsReady(p) <==> DividendsReady(q)
  {
    forall k ensures Find(p, k) == Find(q, k) {
      var i, j := Find(p, k), Find(q, k);
    }
    var i := Find(p, DividendKey);
    if 0 <= i && p[i].asset.Lots? {
      assert SameShape(p[i].asset, q[i].asset);
      assert forall j :: 0 <= j < |p[i].asset.lots| ==> Blank(p[i].asset.lots[j]).annualYield == p[i].asset.lots[j].annualYield;
      assert forall j :: 0 <= j < |q[i].asset.lots| ==> Blank(q[i].asset.lots[j]).annualYield == q[i].asset.lots[j].annualYield;
    }
    forall j | 0 <= j < |p|
      ensures p[j].asset.Lots? <==> q[j].asset.Lots?
    {
      assert SameShape(p[j].asset, q[j].asset);
    }
  }
}
