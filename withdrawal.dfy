/** The withdrawal waterfall of helper.py:4-41: a cash amount is drawn from the
    portfolio, asset key by asset key in a given order, and lot by lot inside a
    list-valued asset. */
module Withdrawal {
  import opened Basics
  import opened Holdings

  /** One holding meets what it can of the need: it is emptied when it is worth
      no more than the need, and reduced by the need otherwise
      (helper.py:23-28, 32-37). Returns the new value and the need left. */
  function DrainValue(v: real, need: real): (r: (real, real))
    ensures 0.0 <= r.0 && 0.0 <= r.1
    ensures v - r.0 == need - r.1
    ensures r.0 == 0.0 || r.1 == 0.0
  {
    if v <= need then (0.0, need - v) else (v - need, 0.0)
  }

  /** The source's inner `for item in asset` loop from lot k on, stopping once
      the need is met (helper.py:20-28); a need of at most 0 draws nothing. */
  function DrainLotsFrom(lots: seq<Holding>, k: nat, need: real): (r: (seq<Holding>, real))
    requires k <= |lots|
    ensures |r.0| == |lots|
    ensures need <= 0.0 ==> r == (lots, need)
    decreases |lots| - k
  {
    if k == |lots| || need <= 0.0 then (lots, need)
    else
      var (v, n) := DrainValue(lots[k].value, need);
      DrainLotsFrom(lots[k := lots[k].(value := v)], k + 1, n)
  }

  /** The lots before k are not touched, and a need still unmet at the end
      means every lot from k on was emptied. */
  lemma {:induction false} DrainLotsEmpties(lots: seq<Holding>, k: nat, need: real)
    requires k <= |lots|
    ensures var r := DrainLotsFrom(lots, k, need);
      && (forall j :: 0 <= j < k ==> r.0[j] == lots[j])
      && (0.0 < r.1 ==> forall j :: k <= j < |lots| ==> r.0[j].value == 0.0)
    decreases |lots| - k
  {
    if k < |lots| && need > 0.0 {
      var next := k + 1;
      var (v, n) := DrainValue(lots[k].value, need);
      var lots' := lots[k := lots[k].(value := v)];
      assert DrainLotsFrom(lots, k, need) == DrainLotsFrom(lots', next, n);
      DrainLotsEmpties(lots', next, n);
    }
  }

  /** Draws on one asset, whatever its shape (helper.py:19-37): a single
      holding gives what it can, and a list of lots left with an unmet need
      has been emptied. */
  function DrainAsset(a: Asset, need: real): (r: (Asset, real))
    ensures a.Lots? <==> r.0.Lots?
    ensures a.Lots? ==> |r.0.lots| == |a.lots|
    ensures a.Single? ==> r == (Single(a.holding.(value := Max(0.0, a.holding.value - need))),
                               Max(0.0, need - a.holding.value))
    ensures a.Lots? && 0.0 < r.1 ==> forall j :: 0 <= j < |a.lots| ==> r.0.lots[j].value == 0.0
  {
    match a
    case Lots(lots) =>
      DrainLotsEmpties(lots, 0, need);
      var d := DrainLotsFrom(lots, 0, need);
      assert 0.0 < d.1 ==> forall j :: 0 <= j < |lots| ==> d.0[j].value == 0.0;
      (Lots(d.0), d.1)
    case Single(h) =>
      var (v, n) := DrainValue(h.value, need);
      (Single(h.(value := v)), n)
  }

  /** What a withdrawal leaves: the portfolio, the need it could not meet, and
      the key whose lookup raised KeyError, if any. */
  datatype Withdrawn = Withdrawn(portfolio: Portfolio, unmet: real, missing: Option<Key>)

  /** The source's `while` loop from position idx of the order on (helper.py:13-39).
      A need of at most 0 draws nothing, and a KeyError names a key of the
      rest of the order. */
  function WithdrawFrom(p: Portfolio, need: real, order: seq<Key>, idx: nat): (w: Withdrawn)
    requires idx <= |order|
    ensures |w.portfolio| == |p|
    ensures need <= 0.0 ==> w == Withdrawn(p, need, None)
    ensures w.missing.Some? ==> w.missing.value in order[idx..]
    decreases |order| - idx
  {
    if need <= 0.0 || idx == |order| then Withdrawn(p, need, None)
    else
      var i := Find(p, order[idx]);
      if i < 0 then Withdrawn(p, need, Some(order[idx]))
      else
        var (a, n) := DrainAsset(p[i].asset, need);
        var p' := p[i := p[i].(asset := a)];
        WithdrawFrom(p', n, order, idx + 1)
  }

  /** Draining lots changes their values only. */
  lemma {:induction false} DrainLotsKeepShape(lots: seq<Holding>, k: nat, need: real)
    requires k <= |lots|
    ensures var r := DrainLotsFrom(lots, k, need);
      forall j :: 0 <= j < |lots| ==> Blank(r.0[j]) == Blank(lots[j])
    decreases |lots| - k
  {
    if k < |lots| && need > 0.0 {
      var (v, n) := DrainValue(lots[k].value, need);
      DrainLotsKeepShape(lots[k := lots[k].(value := v)], k + 1, n);
    }
  }

  /** Draining an asset changes its values only. */
  lemma DrainAssetKeepsShape(a: Asset, need: real)
    ensures SameShape(a, DrainAsset(a, need).0)
  {
    if a.Lots? {
      DrainLotsKeepShape(a.lots, 0, need);
    }
  }

  /** A withdrawal changes values only: keys, order and shapes stay. */
  lemma {:induction false} WithdrawKeepsOutline(p: Portfolio, need: real, order: seq<Key>, idx: nat)
    requires idx <= |order|
    ensures SameOutline(p, WithdrawFrom(p, need, order, idx).portfolio)
    decreases |order| - idx
  {
    if need > 0.0 && idx < |order| && 0 <= Find(p, order[idx]) {
      var i := Find(p, order[idx]);
      var (a, n) := DrainAsset(p[i].asset, need);
      var p' := p[i := p[i].(asset := a)];
      var next := idx + 1;
      WithdrawStep(p, need, order, idx);
      assert WithdrawFrom(p, need, order, idx) == WithdrawFrom(p', n, order, next);
      DrainKeepsOutline(p, i, need);
      WithdrawKeepsOutline(p', n, order, next);
      SameOutlineTransitive(p, p', WithdrawFrom(p', n, order, next).portfolio);
    }
  }

  class PortfolioManager {
    var portfolio: Portfolio

    constructor (portfolio: Portfolio)
      ensures this.portfolio == portfolio
    {
      this.portfolio := portfolio;
    }

    /** Draws `amount` from the holdings named by `order`, in that order; a
        shortfall is silently left unmet. `missing` is the KeyError the source
        raises when the loop reaches a key the portfolio lacks; the holdings
        already drawn on stay drawn, as the source mutates them in place. */
    method Withdraw(amount: real, order: seq<Key>) returns (result: Portfolio, missing: Option<Key>)
      modifies this
      ensures var w := WithdrawFrom(old(portfolio), amount, order, 0);
        portfolio == w.portfolio && result == portfolio && missing == w.missing
    {
      var moneyNeeded := amount;
      var currentIndex := 0;
      while moneyNeeded > 0.0 && currentIndex < |order|
        invariant currentIndex <= |order|
        invariant WithdrawFrom(portfolio, moneyNeeded, order, currentIndex)
               == WithdrawFrom(old(portfolio), amount, order, 0)
        decreases |order| - currentIndex
      {
        var key := order[currentIndex];
        var i := Find(portfolio, key);
        if i < 0 {
          result, missing := portfolio, Some(key);
          return;
        }
        match portfolio[i].asset {
          case Lots(lots) =>
            var items;
            items, moneyNeeded := DrawLots(lots, moneyNeeded);
            portfolio := portfolio[i := Entry(key, Lots(items))];
          case Single(h) =>
            if h.value <= moneyNeeded {
              moneyNeeded := moneyNeeded - h.value;
              portfolio := portfolio[i := Entry(key, Single(h.(value := 0.0)))];
            } else {
              portfolio := portfolio[i := Entry(key, Single(h.(value := h.value - moneyNeeded)))];
              moneyNeeded := 0.0;
            }
        }
        currentIndex := currentIndex + 1;
      }
      result, missing := portfolio, None;
    }

    /** The inner `for item in asset` loop: lot by lot, in list order, until the
        need is met (helper.py:20-28). */
    static method DrawLots(lots: seq<Holding>, need: real) returns (items: seq<Holding>, left: real)
      ensures (items, left) == DrainLotsFrom(lots, 0, need)
    {
      items, left := lots, need;
      var j := 0;
      while j < |items|
        invariant j <= |items| == |lots|
        invariant DrainLotsFrom(items, j, left) == DrainLotsFrom(lots, 0, need)
      {
        if left <= 0.0 {
          break;
        }
        if items[j].value <= left {
          left := left - items[j].value;
          items := items[j := items[j].(value := 0.0)];
        } else {
          items := items[j := items[j].(value := items[j].value - left)];
          left := 0.0;
        }
        j := j + 1;
      }
    }
  }

  // ---------------------------------------------------------------------------
  // The reference the loop is measured against: a waterfall over plain amounts.

  /** Drains a sequence of amounts front to back until the need is met; returns
      the amounts left and the need left. */
  function Waterfall(vs: seq<real>, need: real): (r: (seq<real>, real))
    ensures |r.0| == |vs|
  {
    if |vs| == 0 || need <= 0.0 then (vs, need)
    else
      var (v, n) := DrainValue(vs[0], need);
      var rest := Waterfall(vs[1..], n);
      ([v] + rest.0, rest.1)
  }

  /** The amounts the listed keys hold, key by key in the order, lots in list order. */
  function Listed(p: Portfolio, order: seq<Key>): seq<real>
  {
    if |order| == 0 then []
    else
      var i := Find(p, order[0]);
      (if i < 0 then [] else AssetValues(p[i].asset)) + Listed(p, order[1..])
  }

  predicate Distinct(order: seq<Key>)
  {
    forall a, b :: 0 <= a < b < |order| ==> order[a] != order[b]
  }

  predicate AllPresent(p: Portfolio, order: seq<Key>)
  {
    forall j :: 0 <= j < |order| ==> 0 <= Find(p, order[j])
  }

  /** No position of the order from idx on names this key. */
  predicate Unlisted(key: Key, order: seq<Key>, idx: nat)
  {
    forall m :: idx <= m < |order| ==> order[m] != key
  }

  lemma {:induction false} WaterfallConcat(a: seq<real>, b: seq<real>, need: real)
    ensures var wa := Waterfall(a, need); var wb := Waterfall(b, wa.1);
      Waterfall(a + b, need) == (wa.0 + wb.0, wb.1)
  {
    if |a| == 0 {
      assert a + b == b;
      assert Waterfall(a, need) == (a, need);
      assert a + Waterfall(b, need).0 == Waterfall(b, need).0;
    } else if need <= 0.0 {
      assert Waterfall(a, need) == (a, need);
      assert Waterfall(b, need) == (b, need);
    } else {
      assert (a + b)[0] == a[0] && (a + b)[1..] == a[1..] + b;
      var (v, n) := DrainValue(a[0], need);
      WaterfallConcat(a[1..], b, n);
      var wa := Waterfall(a[1..], n);
      assert Waterfall(a, need) == ([v] + wa.0, wa.1);
      assert Waterfall(a + b, need) == ([v] + Waterfall(a[1..] + b, n).0, Waterfall(a[1..] + b, n).1);
      assert [v] + (wa.0 + Waterfall(b, wa.1).0) == ([v] + wa.0) + Waterfall(b, wa.1).0;
    }
  }

  lemma {:induction false} DrainLotsIsWaterfall(lots: seq<Holding>, k: nat, need: real)
    requires k <= |lots|
    ensures var r := DrainLotsFrom(lots, k, need); var w := Waterfall(Values(lots)[k..], need);
      Values(r.0) == Values(lots)[..k] + w.0 && r.1 == w.1
    decreases |lots| - k
  {
    if k == |lots| || need <= 0.0 {
      assert Values(lots) == Values(lots)[..k] + Values(lots)[k..];
    } else {
      var next := k + 1;
      var (v, n) := DrainValue(lots[k].value, need);
      var lots' := lots[k := lots[k].(value := v)];
      assert DrainLotsFrom(lots, k, need) == DrainLotsFrom(lots', next, n);
      DrainLotsIsWaterfall(lots', next, n);
      DrainLotsStep(lots, k, next, need, DrainLotsFrom(lots', next, n));
    }
  }

  /** One lot of the drain against one amount of the waterfall: whatever the
      rest of the lots give, lot k's new value heads the waterfall from k. */
  lemma DrainLotsStep(lots: seq<Holding>, k: nat, next: nat, need: real, r: (seq<Holding>, real))
    requires k < |lots| && next == k + 1 && need > 0.0
    requires var d := DrainValue(lots[k].value, need);
      var vs' := Values(lots[k := lots[k].(value := d.0)]); var rest := Waterfall(vs'[next..], d.1);
      Values(r.0) == vs'[..next] + rest.0 && r.1 == rest.1
    ensures var w := Waterfall(Values(lots)[k..], need);
      Values(r.0) == Values(lots)[..k] + w.0 && r.1 == w.1
  {
    var vs := Values(lots);
    var d := DrainValue(lots[k].value, need);
    WaterfallFrom(vs, k, next, need);
    ValuesAfterDrain(lots, k, next, d.0);
    var rest := Waterfall(vs[next..], d.1);
    assert vs[..k] + [d.0] + rest.0 == vs[..k] + ([d.0] + rest.0);
  }

  /** The waterfall from position k drains amount k, then goes on from k + 1. */
  lemma WaterfallFrom(vs: seq<real>, k: nat, next: nat, need: real)
    requires k < |vs| && next == k + 1 && need > 0.0
    ensures var d := DrainValue(vs[k], need); var rest := Waterfall(vs[next..], d.1);
      Waterfall(vs[k..], need) == ([d.0] + rest.0, rest.1)
  {
    assert vs[k..][0] == vs[k] && vs[k..][1..] == vs[next..];
  }

  /** Setting lot k's value changes only position k of the values. */
  lemma ValuesAfterDrain(lots: seq<Holding>, k: nat, next: nat, v: real)
    requires k < |lots| && next == k + 1
    ensures var vs, vs' := Values(lots), Values(lots[k := lots[k].(value := v)]);
      vs'[next..] == vs[next..] && vs'[..next] == vs[..k] + [v]
  {
    var vs, vs' := Values(lots), Values(lots[k := lots[k].(value := v)]);
    assert vs'[next..] == vs[next..];
    assert vs'[..next] == vs[..k] + [v];
  }

  lemma DrainAssetIsWaterfall(a: Asset, need: real)
    requires need > 0.0
    ensures var r := DrainAsset(a, need); var w := Waterfall(AssetValues(a), need);
      AssetValues(r.0) == w.0 && r.1 == w.1
  {
    match a
    case Lots(lots) =>
      DrainLotsIsWaterfall(lots, 0, need);
      assert Values(lots)[0..] == Values(lots);
    case Single(h) =>
  }

  /** Listed amounts read only the entries the order names. */
  predicate AgreeOn(p: Portfolio, q: Portfolio, k: Key)
  {
    Find(p, k) == Find(q, k) && (0 <= Find(p, k) ==> p[Find(p, k)] == q[Find(q, k)])
  }

  lemma {:induction false} ListedFrame(p: Portfolio, q: Portfolio, order: seq<Key>)
    requires forall j :: 0 <= j < |order| ==> AgreeOn(p, q, order[j])
    ensures Listed(p, order) == Listed(q, order)
  {
    if |order| > 0 {
      ListedFrame(p, q, order[1..]);
    }
  }

  /** Entries whose key the rest of the order does not name are left as they were. */
  lemma {:induction false} WithdrawLeavesUnlisted(p: Portfolio, need: real, order: seq<Key>, idx: nat)
    requires idx <= |order|
    ensures var w := WithdrawFrom(p, need, order, idx);
      forall j :: 0 <= j < |p| && Unlisted(p[j].key, order, idx) ==> w.portfolio[j] == p[j]
    decreases |order| - idx
  {
    if need <= 0.0 || idx == |order| {
    } else {
      var i := Find(p, order[idx]);
      if 0 <= i {
        var (a, n) := DrainAsset(p[i].asset, need);
        var p' := p[i := p[i].(asset := a)];
        WithdrawLeavesUnlisted(p', n, order, idx + 1);
      }
    }
  }

  /** Draining the asset of entry i changes values only. */
  lemma DrainKeepsOutline(p: Portfolio, i: nat, need: real)
    requires i < |p|
    ensures var p' := p[i := p[i].(asset := DrainAsset(p[i].asset, need).0)];
      SameOutline(p, p') && forall k :: Find(p', k) == Find(p, k)
  {
    var p' := p[i := p[i].(asset := DrainAsset(p[i].asset, need).0)];
    DrainAssetKeepsShape(p[i].asset, need);
    assert forall j :: 0 <= j < |p| && j != i ==> p'[j] == p[j];
    SameOutlineKeeps(p, p');
  }

  /** One pass of the `while` loop on a key the portfolio holds: that entry is
      drained, no lookup changes, and the loop goes on from the next key. */
  lemma WithdrawStep(p: Portfolio, need: real, order: seq<Key>, idx: nat)
    requires idx < |order| && need > 0.0 && 0 <= Find(p, order[idx])
    ensures var i := Find(p, order[idx]); var d := DrainAsset(p[i].asset, need);
      var p' := p[i := p[i].(asset := d.0)];
      && WithdrawFrom(p, need, order, idx) == WithdrawFrom(p', d.1, order, idx + 1)
      && (forall k :: Find(p', k) == Find(p, k))
  {
    DrainKeepsOutline(p, Find(p, order[idx]), need);
  }

  /** A lookup fails only on a key the portfolio lacks: with every key of the
      rest of the order present, no KeyError is raised. */
  lemma {:induction false} WithdrawFindsEveryKey(p: Portfolio, need: real, order: seq<Key>, idx: nat)
    requires idx <= |order|
    requires forall j :: idx <= j < |order| ==> 0 <= Find(p, order[j])
    ensures WithdrawFrom(p, need, order, idx).missing == None
    decreases |order| - idx
  {
    if need > 0.0 && idx < |order| {
      var i := Find(p, order[idx]);
      var d := DrainAsset(p[i].asset, need);
      var p' := p[i := p[i].(asset := d.0)];
      var next := idx + 1;
      WithdrawStep(p, need, order, idx);
      assert WithdrawFrom(p, need, order, idx) == WithdrawFrom(p', d.1, order, next);
      assert forall j :: next <= j < |order| ==> 0 <= Find(p', order[j]);
      WithdrawFindsEveryKey(p', d.1, order, next);
    }
  }

  /** With every listed key present and none listed twice, the loop does to the
      listed amounts exactly what the plain waterfall does, and raises nothing. */
  lemma {:induction false} WithdrawIsWaterfall(p: Portfolio, need: real, order: seq<Key>, idx: nat)
    requires idx <= |order| && Distinct(order)
    requires forall j :: idx <= j < |order| ==> 0 <= Find(p, order[j])
    ensures var w := WithdrawFrom(p, need, order, idx); var wf := Waterfall(Listed(p, order[idx..]), need);
      && w.missing == None
      && Listed(w.portfolio, order[idx..]) == wf.0
      && w.unmet == wf.1
    decreases |order| - idx
  {
    var w := WithdrawFrom(p, need, order, idx);
    if idx == |order| {
    } else if need <= 0.0 {
      var vs := Listed(p, order[idx..]);
      assert vs == [] || Waterfall(vs, need) == (vs, need);
    } else {
      var i := Find(p, order[idx]);
      var (a, n) := DrainAsset(p[i].asset, need);
      var p' := p[i := p[i].(asset := a)];
      WithdrawStep(p, need, order, idx);
      WithdrawIsWaterfall(p', n, order, idx + 1);
      WithdrawKeepsOutline(p', n, order, idx + 1);
      SameOutlineKeeps(p', w.portfolio);
      // the rest of the order reads the same amounts in p and p'
      assert order[idx..][0] == order[idx] && order[idx..][1..] == order[idx + 1..];
      forall m | idx < m < |order|
        ensures AgreeOn(p, p', order[m])
      {
        assert order[m] != order[idx];
      }
      ListedFrame(p, p', order[idx + 1..]);
      // and the drained entry is not touched again
      WithdrawLeavesUnlisted(p', n, order, idx + 1);
      assert Unlisted(p'[i].key, order, idx + 1);
      assert w.portfolio[i] == p'[i];
      DrainAssetIsWaterfall(p[i].asset, need);
      WaterfallConcat(AssetValues(p[i].asset), Listed(p, order[idx + 1..]), need);
    }
  }

  // ---------------------------------------------------------------------------
  // What the waterfall guarantees.

  /** The waterfall takes exactly min(need, total) and leaves max(0, need - total) unmet. */
  lemma {:induction false} WaterfallTakesMin(vs: seq<real>, need: real)
    requires NonNegative(vs) && need >= 0.0
    ensures var w := Waterfall(vs, need);
      Sum(vs) - Sum(w.0) == Min(need, Sum(vs)) && w.1 == Max(0.0, need - Sum(vs))
  {
    SumNonNegative(vs);
    if |vs| == 0 {
    } else if need == 0.0 {
    } else {
      var (v, n) := DrainValue(vs[0], need);
      WaterfallTakesMin(vs[1..], n);
    }
  }

  /** No amount grows or turns negative, and an amount is drawn on only once
      every amount before it is empty; so at most one is partly drawn. */
  lemma {:induction false} WaterfallInOrder(vs: seq<real>, need: real)
    requires NonNegative(vs)
    ensures var w := Waterfall(vs, need).0;
      && (forall j :: 0 <= j < |vs| ==> 0.0 <= w[j] <= vs[j])
      && (forall a, b :: 0 <= a < b < |vs| && w[b] != vs[b] ==> w[a] == 0.0)
      && (forall a, b :: 0 <= a < b < |vs| && 0.0 < w[a] < vs[a] ==> w[b] == vs[b])
  {
    if |vs| == 0 || need <= 0.0 {
    } else {
      var (v, n) := DrainValue(vs[0], need);
      WaterfallInOrder(vs[1..], n);
      var w := Waterfall(vs, need).0;
      assert w == [v] + Waterfall(vs[1..], n).0;
      if n <= 0.0 {
        assert Waterfall(vs[1..], n).0 == vs[1..];
      }
    }
  }

  /** A need at least the total empties every amount. */
  lemma {:induction false} WaterfallExhausts(vs: seq<real>, need: real)
    requires NonNegative(vs) && need >= Sum(vs)
    ensures var w := Waterfall(vs, need); (forall j :: 0 <= j < |vs| ==> w.0[j] == 0.0) && w.1 == need - Sum(vs)
  {
    if |vs| == 0 {
    } else if need <= 0.0 {
      SumNonNegative(vs);
      forall j | 0 <= j < |vs| ensures vs[j] == 0.0 {
        ElementBelowSum(vs, j);
      }
    } else {
      SumNonNegative(vs[1..]);
      var (v, n) := DrainValue(vs[0], need);
      WaterfallExhausts(vs[1..], n);
    }
  }

  // ---------------------------------------------------------------------------
  // The same guarantees, stated of PortfolioManager.Withdraw's specification.

  /** The whole withdrawal, read through the listed amounts: the waterfall over them. */
  lemma WithdrawTransfers(p: Portfolio, amount: real, order: seq<Key>)
    requires Distinct(order) && AllPresent(p, order)
    ensures var w := WithdrawFrom(p, amount, order, 0); var wf := Waterfall(Listed(p, order), amount);
      w.missing == None && Listed(w.portfolio, order) == wf.0 && w.unmet == wf.1
  {
    WithdrawIsWaterfall(p, amount, order, 0);
    assert order[0..] == order;
  }

  /** The listed holdings fall in total by exactly min(amount, their total); an
      amount beyond their total empties every one of them and raises nothing. */
  lemma WithdrawTakesMin(p: Portfolio, amount: real, order: seq<Key>)
    requires Distinct(order) && AllPresent(p, order)
    requires NonNegative(Listed(p, order)) && amount >= 0.0
    ensures var w := WithdrawFrom(p, amount, order, 0);
      var before, after := Listed(p, order), Listed(w.portfolio, order);
      && w.missing == None
      && |after| == |before|
      && Sum(before) - Sum(after) == Min(amount, Sum(before))
      && w.unmet == Max(0.0, amount - Sum(before))
      && (amount >= Sum(before) ==> forall j :: 0 <= j < |after| ==> after[j] == 0.0)
  {
    var before := Listed(p, order);
    var wf := Waterfall(before, amount);
    WithdrawTransfers(p, amount, order);
    assert Listed(WithdrawFrom(p, amount, order, 0).portfolio, order) == wf.0;
    WaterfallTakesMin(before, amount);
    if amount >= Sum(before) {
      WaterfallExhausts(before, amount);
    }
  }

  /** Holdings are drawn strictly in order, lots in list order: none grows or goes
      negative, one is reduced only after all before it are empty, and at most
      one is left partly drawn. */
  lemma WithdrawDrainsInOrder(p: Portfolio, amount: real, order: seq<Key>)
    requires Distinct(order) && AllPresent(p, order)
    requires NonNegative(Listed(p, order))
    ensures var before, after := Listed(p, order), Listed(WithdrawFrom(p, amount, order, 0).portfolio, order);
      && |after| == |before|
      && (forall j :: 0 <= j < |before| ==> 0.0 <= after[j] <= before[j])
      && (forall a, b :: 0 <= a < b < |before| && after[b] != before[b] ==> after[a] == 0.0)
      && (forall a, b :: 0 <= a < b < |before| && 0.0 < after[a] < before[a] ==> after[b] == before[b])
  {
    WithdrawTransfers(p, amount, order);
    WaterfallInOrder(Listed(p, order), amount);
  }

  /** Assets the order does not name are untouched, the keys and shapes stay
      as they were, and a non-positive amount changes nothing. */
  lemma WithdrawFrame(p: Portfolio, amount: real, order: seq<Key>)
    ensures var w := WithdrawFrom(p, amount, order, 0);
      && SameOutline(p, w.portfolio)
      && (forall j :: 0 <= j < |p| && p[j].key !in order ==> w.portfolio[j] == p[j])
      && (amount <= 0.0 ==> w.portfolio == p && w.missing == None)
  {
    WithdrawKeepsOutline(p, amount, order, 0);
    WithdrawLeavesUnlisted(p, amount, order, 0);
  }
}
