/** The dividend pass of helper.py:73-115: one walk over the dividend lots in
    list order, sharing a 500 allowance that shrinks as each lot uses it;
    accumulating lots reinvest their credit, the others pay it out, and the new
    lot values are written only after the walk. */
module Dividends {
  import opened Basics
  import opened Holdings

  /** The allowance each pass starts from (helper.py:80). */
  const StartingAllowance: real := 500.0

  /** A lot's gross dividend: value times the yield "p%" read as p / 100 (helper.py:84-86, 93). */
  function Gross(h: Holding): real
    requires h.annualYield.Percent?
  {
    h.value * (h.annualYield.pct / 100.0)
  }

  /** A lot of non-negative value at a non-negative yield earns a non-negative
      dividend, and a 0% yield or an empty lot earns nothing. */
  lemma GrossSign(h: Holding)
    requires h.annualYield.Percent?
    ensures 0.0 <= h.value && 0.0 <= h.annualYield.pct ==> 0.0 <= Gross(h)
    ensures h.annualYield.pct == 0.0 || h.value == 0.0 ==> Gross(h) == 0.0
  {
  }

  /** The share of a dividend kept after tax: 0.6625 for 'higher', 0.9125 for
      every bracket but 'additional', which the source leaves unassigned (helper.py:98-103). */
  function AfterTaxShare(b: Bracket): (r: real)
    requires b != Additional
    ensures 0.0 < r < 1.0 && (b == Higher <==> r == 0.6625)
    ensures b == Basic ==> r == 0.9125
  {
    if b == Higher then 0.6625 else 0.9125
  }

  /** What a lot is credited given the allowance it sees: its after-tax dividend
      plus that allowance (helper.py:96-108). */
  function Credit(h: Holding, allowance: real, share: real): real
    requires h.annualYield.Percent?
  {
    (Gross(h) - allowance) * share + allowance
  }

  /** The pass's running state: new values so far, the allowance left, the amount paid out. */
  datatype Pass = Pass(updated: seq<real>, allowance: real, divReturn: real)

  /** One lot of the source's first loop: its gross dividend, less the allowance
      it sees, taxed; an accumulating lot reinvests that plus the allowance, any
      other lot pays it out; the allowance then shrinks by the gross dividend,
      floored at 0 (helper.py:91-111). */
  function Step(h: Holding, share: real, st: Pass): Pass
    requires h.annualYield.Percent?
  {
    var x := Gross(h);
    var afterTax := (x - st.allowance) * share;
    var newValue := if h.acc then h.value + afterTax + st.allowance else h.value;
    var paid := if h.acc then st.divReturn else st.divReturn + afterTax + st.allowance;
    Pass(st.updated + [newValue], Max(0.0, st.allowance - x), paid)
  }

  /** A lot's credit lands in exactly one place, its new value or the amount
      paid out, and the allowance never grows and never goes below 0. */
  lemma StepCreditsOnce(h: Holding, share: real, st: Pass)
    requires h.annualYield.Percent?
    ensures var r := Step(h, share, st);
      && |r.updated| == |st.updated| + 1 && r.updated[..|st.updated|] == st.updated
      && r.updated[|st.updated|] + r.divReturn == h.value + st.divReturn + Credit(h, st.allowance, share)
      && (h.acc ==> r.divReturn == st.divReturn)
      && (!h.acc ==> r.updated[|st.updated|] == h.value)
      && 0.0 <= r.allowance
      && (0.0 <= Gross(h) && 0.0 <= st.allowance ==> r.allowance <= st.allowance)
  {
    var c := Credit(h, st.allowance, share);
    assert c == (Gross(h) - st.allowance) * share + st.allowance;
    var r := Step(h, share, st);
    if h.acc {
      assert r.updated[|st.updated|] == h.value + c;
    } else {
      assert r.divReturn == st.divReturn + c;
    }
  }

  /** The source's first loop from lot k on (helper.py:91-111). */
  function PassFrom(lots: seq<Holding>, k: nat, share: real, st: Pass): (r: Pass)
    requires k <= |lots| && PercentYields(lots)
    ensures |r.updated| == |st.updated| + |lots| - k
    decreases |lots| - k
  {
    if k == |lots| then st else PassFrom(lots, k + 1, share, Step(lots[k], share, st))
  }

  /** The source's second loop: every lot takes its new value (helper.py:113-114). */
  function Commit(lots: seq<Holding>, updated: seq<real>): (r: seq<Holding>)
    requires |updated| == |lots|
    ensures |r| == |lots| && forall j :: 0 <= j < |lots| ==> r[j] == lots[j].(value := updated[j])
  {
    seq(|lots|, j requires 0 <= j < |lots| => lots[j].(value := updated[j]))
  }

  /** What a call returns: the committed lots and the amount paid out, or the
      UnboundLocalError the 'additional' bracket raises at the first lot. */
  datatype Payout = Paid(stocks: seq<Holding>, divReturn: real) | AfterTaxUnbound

  class CalculateDiv {
    var values: Portfolio
    const taxBracket: Bracket
    const currentDiv: real
    var personalAllowance: real
    var divReturn: real

    constructor (values: Portfolio, taxBracket: Bracket)
      ensures this.values == values && this.taxBracket == taxBracket
      ensures currentDiv == 0.0 && personalAllowance == StartingAllowance && divReturn == 0.0
    {
      this.values := values;
      this.taxBracket := taxBracket;
      currentDiv := 0.0;
      personalAllowance := 500.0;
      divReturn := 0.0;
    }

    /** Runs the pass over `values['dividend_stocks']` and commits the new values.
        In the 'additional' bracket the first lot raises before anything changes. */
    method CalcDividend() returns (r: Payout)
      requires DividendsReady(values)
      modifies this
      ensures var i := Find(old(values), DividendKey); var lots := old(values)[i].asset.lots;
        if taxBracket == Additional then
          && values == old(values) && personalAllowance == old(personalAllowance) && divReturn == old(divReturn)
          && r == if |lots| == 0 then Paid(lots, divReturn) else AfterTaxUnbound
        else
          var pass := PassFrom(lots, 0, AfterTaxShare(taxBracket), Pass([], old(personalAllowance), old(divReturn)));
          && values == old(values)[i := Entry(DividendKey, Lots(Commit(lots, pass.updated)))]
          && personalAllowance == pass.allowance && divReturn == pass.divReturn
          && r == Paid(Commit(lots, pass.updated), divReturn)
    {
      var i := Find(values, DividendKey);
      var lots := values[i].asset.lots;
      if taxBracket == Additional {
        if |lots| == 0 {
          return Paid(lots, divReturn);
        }
        return AfterTaxUnbound;
      }
      var share := AfterTaxShare(taxBracket);
      var pass := RunPass(lots, share, personalAllowance, divReturn);
      personalAllowance, divReturn := pass.allowance, pass.divReturn;
      var stocks := CommitValues(lots, pass.updated);
      values := values[i := Entry(DividendKey, Lots(stocks))];
      r := Paid(stocks, divReturn);
    }

    /** The first loop: lot by lot in list order, from the allowance and payout
        the calculator holds (helper.py:91-111). */
    static method RunPass(lots: seq<Holding>, share: real, allowance: real, paid: real) returns (r: Pass)
      requires PercentYields(lots)
      ensures r == PassFrom(lots, 0, share, Pass([], allowance, paid))
    {
      var personalAllowance, divReturn := allowance, paid;
      var updated: seq<real> := [];
      var k := 0;
      while k < |lots|
        invariant k <= |lots| && |updated| == k
        invariant PassFrom(lots, k, share, Pass(updated, personalAllowance, divReturn))
               == PassFrom(lots, 0, share, Pass([], allowance, paid))
      {
        ghost var before := Pass(updated, personalAllowance, divReturn);
        var val := lots[k];
        var x := val.value * (val.annualYield.pct / 100.0);
        var taxableDiv := x - personalAllowance;
        var dividendsAfterTax := taxableDiv * share;
        var newValue;
        if val.acc {
          newValue := val.value + dividendsAfterTax + personalAllowance;
        } else {
          newValue := val.value;
          divReturn := divReturn + dividendsAfterTax + personalAllowance;
        }
        updated := updated + [newValue];
        personalAllowance := Max(0.0, personalAllowance - x);
        assert Pass(updated, personalAllowance, divReturn) == Step(lots[k], share, before);
        k := k + 1;
      }
      r := Pass(updated, personalAllowance, divReturn);
    }

    /** The second loop: the new values are written lot by lot once the pass is over (helper.py:113-114). */
    static method CommitValues(lots: seq<Holding>, updated: seq<real>) returns (stocks: seq<Holding>)
      requires |updated| == |lots|
      ensures stocks == Commit(lots, updated)
    {
      stocks := lots;
      var j := 0;
      while j < |updated|
        invariant j <= |updated| && |stocks| == |lots|
        invariant forall m :: 0 <= m < j ==> stocks[m] == lots[m].(value := updated[m])
        invariant forall m :: j <= m < |lots| ==> stocks[m] == lots[m]
      {
        stocks := stocks[j := stocks[j].(value := updated[j])];
        j := j + 1;
      }
    }
  }

  // ---------------------------------------------------------------------------
  // The pass lot by lot.

  /** The allowance lot j sees: the starting allowance less the gross dividends
      of the lots before it, floored at 0 after each lot (helper.py:96, 111). */
  function AllowanceSeen(lots: seq<Holding>, start: real, j: nat): real
    requires j <= |lots| && PercentYields(lots)
  {
    if j == 0 then start else Max(0.0, AllowanceSeen(lots, start, j - 1) - Gross(lots[j - 1]))
  }

  /** Lot j's new value: grown by its credit when accumulating, unchanged otherwise. */
  function NewValue(lots: seq<Holding>, start: real, share: real, j: nat): real
    requires j < |lots| && PercentYields(lots)
  {
    lots[j].value + (if lots[j].acc then Credit(lots[j], AllowanceSeen(lots, start, j), share) else 0.0)
  }

  /** The credits of the non-accumulating lots among the first n. */
  function PaidOut(lots: seq<Holding>, start: real, share: real, n: nat): real
    requires n <= |lots| && PercentYields(lots)
  {
    if n == 0 then 0.0
    else
      var credit := if lots[n - 1].acc then 0.0 else Credit(lots[n - 1], AllowanceSeen(lots, start, n - 1), share);
      PaidOut(lots, start, share, n - 1) + credit
  }

  /** One step of the pass, lot k: its new value is appended, the allowance
      becomes the one lot k + 1 sees, and lot k's payout is added. */
  lemma StepIsLot(lots: seq<Holding>, start: real, share: real, k: nat, st: Pass)
    requires k < |lots| && PercentYields(lots) && st.allowance == AllowanceSeen(lots, start, k)
    ensures var st' := Step(lots[k], share, st);
      && st'.updated == st.updated + [NewValue(lots, start, share, k)]
      && st'.allowance == AllowanceSeen(lots, start, k + 1)
      && st'.divReturn == st.divReturn + PaidOut(lots, start, share, k + 1) - PaidOut(lots, start, share, k)
  {
    var next := k + 1;
    var x := Gross(lots[k]);
    var afterTax := (x - st.allowance) * share;
    var newValue := if lots[k].acc then lots[k].value + afterTax + st.allowance else lots[k].value;
    var paid := if lots[k].acc then st.divReturn else st.divReturn + afterTax + st.allowance;
    assert afterTax == (Gross(lots[k]) - st.allowance) * share;
    assert Step(lots[k], share, st) == Pass(st.updated + [newValue], Max(0.0, st.allowance - x), paid);
    assert newValue == NewValue(lots, start, share, k);
    assert AllowanceSeen(lots, start, next) == Max(0.0, st.allowance - x);
    assert PaidOut(lots, start, share, next)
        == PaidOut(lots, start, share, k) + (if lots[k].acc then 0.0 else Credit(lots[k], st.allowance, share));
  }

  /** The pass from lot k on, lot by lot: the values already recorded stay,
      each later lot gets its NewValue, and the payout grows by the later
      lots' credits. */
  lemma {:induction false} PassFromLotByLot(lots: seq<Holding>, start: real, share: real, k: nat, st: Pass)
    requires k <= |lots| && PercentYields(lots)
    requires |st.updated| == k && st.allowance == AllowanceSeen(lots, start, k)
    ensures var r := PassFrom(lots, k, share, st);
      && |r.updated| == |lots|
      && r.updated[..k] == st.updated
      && (forall j :: k <= j < |lots| ==> r.updated[j] == NewValue(lots, start, share, j))
      && r.allowance == AllowanceSeen(lots, start, |lots|)
      && r.divReturn == st.divReturn + PaidOut(lots, start, share, |lots|) - PaidOut(lots, start, share, k)
    decreases |lots| - k
  {
    if k < |lots| {
      var st' := Step(lots[k], share, st);
      StepIsLot(lots, start, share, k, st);
      PassFromLotByLot(lots, start, share, k + 1, st');
      var r := PassFrom(lots, k + 1, share, st');
      assert PassFrom(lots, k, share, st) == r;
      PrefixOfSnoc(r.updated, st.updated, NewValue(lots, start, share, k));
    }
  }

  /** What one pass does to each lot: the number of lots is unchanged; a
      non-accumulating lot keeps its value and adds its credit (after-tax
      dividend plus the allowance it saw) to the amount paid out; an
      accumulating lot grows by exactly its credit and adds nothing. */
  lemma PassEffect(lots: seq<Holding>, share: real, divReturn: real)
    requires PercentYields(lots)
    ensures var r := PassFrom(lots, 0, share, Pass([], StartingAllowance, divReturn));
      && |r.updated| == |lots|
      && (forall j :: 0 <= j < |lots| && !lots[j].acc ==> r.updated[j] == lots[j].value)
      && (forall j :: 0 <= j < |lots| && lots[j].acc ==>
            r.updated[j] == lots[j].value + Credit(lots[j], AllowanceSeen(lots, StartingAllowance, j), share))
      && r.divReturn == divReturn + PaidOut(lots, StartingAllowance, share, |lots|)
      && r.allowance == AllowanceSeen(lots, StartingAllowance, |lots|)
  {
    PassFromLotByLot(lots, StartingAllowance, share, 0, Pass([], StartingAllowance, divReturn));
  }

  /** The allowance starts at 500, never rises from one lot to the next while
      gross dividends are non-negative, and never drops below 0. */
  lemma {:induction false} AllowanceShrinks(lots: seq<Holding>, i: nat, j: nat)
    requires i <= j <= |lots| && PercentYields(lots)
    requires forall m :: 0 <= m < |lots| ==> Gross(lots[m]) >= 0.0
    ensures AllowanceSeen(lots, StartingAllowance, 0) == 500.0
    ensures 0.0 <= AllowanceSeen(lots, StartingAllowance, j) <= AllowanceSeen(lots, StartingAllowance, i) <= 500.0
    decreases j
  {
    if 0 < j {
      AllowanceShrinks(lots, if i < j then i else 0, j - 1);
    }
  }

  /** Every credit lands in exactly one place: lot values plus the amount paid
      out grow by the sum of all the lots' credits. */
  lemma {:induction false} CreditsConserved(lots: seq<Holding>, start: real, share: real, n: nat)
    requires n <= |lots| && PercentYields(lots)
    ensures Sum(seq(n, j requires 0 <= j < n => NewValue(lots, start, share, j))) + PaidOut(lots, start, share, n)
         == Sum(seq(n, j requires 0 <= j < n => lots[j].value)) + Credits(lots, start, share, n)
    decreases n
  {
    if n > 0 {
      CreditsConserved(lots, start, share, n - 1);
      var a := seq(n, j requires 0 <= j < n => NewValue(lots, start, share, j));
      var b := seq(n, j requires 0 <= j < n => lots[j].value);
      assert a == a[..n - 1] + [a[n - 1]];
      assert b == b[..n - 1] + [b[n - 1]];
      assert a[..n - 1] == seq(n - 1, j requires 0 <= j < n - 1 => NewValue(lots, start, share, j));
      assert b[..n - 1] == seq(n - 1, j requires 0 <= j < n - 1 => lots[j].value);
      SumConcat(a[..n - 1], [a[n - 1]]);
      SumConcat(b[..n - 1], [b[n - 1]]);
    }
  }

  /** The credits of the first n lots. */
  function Credits(lots: seq<Holding>, start: real, share: real, n: nat): real
    requires n <= |lots| && PercentYields(lots)
  {
    if n == 0 then 0.0
    else Credits(lots, start, share, n - 1) + Credit(lots[n - 1], AllowanceSeen(lots, start, n - 1), share)
  }

  /** As written, a lot whose gross dividend is below the allowance it sees is
      credited more than that dividend: a 0%-yield accumulating lot alone in a
      'higher' pass still grows by (0 - 500) * 0.6625 + 500 = 168.75. */
  lemma ZeroYieldLotCredited()
    ensures var lot := Holding(0.0, false, Percent(0.0), Income, true);
      PassFrom([lot], 0, AfterTaxShare(Higher), Pass([], StartingAllowance, 0.0)).updated == [168.75]
  {
  }
}
