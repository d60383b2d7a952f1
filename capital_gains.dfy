/** The capital-gains calculator of helper.py:43-63: a running total of gains
    is held against a 3,000 allowance; once it reaches the allowance the excess
    is taxed at a flat rate and the total is reset to the allowance itself. */
module CapitalGains {
  import opened Basics

  /** The annual allowance, `max_non_taxable` (helper.py:48). */
  const Allowance: real := 3000.0

  /** The share of the taxable excess kept: 0.76 for 'higher', 0.82 otherwise (helper.py:60-63). */
  function KeptShare(b: Bracket): (r: real)
    ensures 0.0 < r < 1.0
    ensures b == Higher <==> r == 0.76
    ensures b != Higher ==> r == 0.82
  {
    if b == Higher then 0.76 else 0.82
  }

  /** One call: what it returns and the running total it leaves. */
  datatype Charge = Charge(proceeds: real, running: real)

  function ChargeGain(running: real, gain: real, b: Bracket): (c: Charge)
    ensures c.running <= Allowance
    ensures running + gain < Allowance <==> c.running < Allowance
    ensures running + gain < Allowance ==> c.proceeds == gain && c.running == running + gain
    ensures Allowance <= running + gain ==>
      c.running == Allowance && Allowance <= c.proceeds <= running + gain
    ensures Allowance <= running + gain ==>
      c.proceeds == (running + gain - Allowance) * (if b == Higher then 0.76 else 0.82) + Allowance
  {
    var total := running + gain;
    if total < Allowance then Charge(gain, total)
    else Charge((total - Allowance) * KeptShare(b) + Allowance, Allowance)
  }

  class CapitalGainsTax {
    var currentCapitalGains: real
    const maxNonTaxable: real
    const taxBracket: Bracket
    /** Set once and never updated: the method's `taxable_amount` is a local. */
    const taxableAmount: real

    ghost predicate Valid()
      reads this
    {
      maxNonTaxable == Allowance && currentCapitalGains <= Allowance
    }

    constructor (taxBracket: Bracket)
      ensures Valid()
      ensures currentCapitalGains == 0.0 && this.taxBracket == taxBracket && taxableAmount == 0.0
    {
      currentCapitalGains := 0.0;
      maxNonTaxable := 3000.0;
      this.taxBracket := taxBracket;
      taxableAmount := 0.0;
    }

    /** Adds a gain to the running total; below the allowance the gain comes back
        untaxed, otherwise the excess is taxed and the total reset to the
        allowance (helper.py:52-63). */
    method ApplyGain(capitalGain: real) returns (r: real)
      requires Valid()
      modifies this`currentCapitalGains
      ensures Valid()
      ensures Charge(r, currentCapitalGains) == ChargeGain(old(currentCapitalGains), capitalGain, taxBracket)
    {
      currentCapitalGains := currentCapitalGains + capitalGain;
      if currentCapitalGains < maxNonTaxable {
        return capitalGain;
      } else {
        var taxable := currentCapitalGains - maxNonTaxable;
        currentCapitalGains := 3000.0;
        if taxBracket == Higher {
          r := taxable * 0.76 + currentCapitalGains;
        } else {
          r := taxable * 0.82 + currentCapitalGains;
        }
      }
    }
  }

  /** The commented usage at helper.py:66-70: two gains of 2,000 in the 'higher'
      bracket return 2,000 and then 1,000 * 0.76 + 3,000 = 3,760, leaving the
      running total at exactly 3,000. */
  method TwoGainsExample() returns (first: real, second: real, running: real)
    ensures first == 2000.0 && second == 3760.0 && running == 3000.0
  {
    var cp := new CapitalGainsTax(Higher);
    first := cp.ApplyGain(2000.0);
    second := cp.ApplyGain(2000.0);
    running := cp.currentCapitalGains;
  }

  /** A run of calls on one calculator: the values returned and the final total. */
  function ChargeAll(running: real, gains: seq<real>, b: Bracket): (r: (seq<real>, real))
    ensures |r.0| == |gains|
    decreases |gains|
  {
    if |gains| == 0 then ([], running)
    else
      var c := ChargeGain(running, gains[0], b);
      var rest := ChargeAll(c.running, gains[1..], b);
      ([c.proceeds] + rest.0, rest.1)
  }

  /** While the running total stays below the allowance every gain is returned
      unchanged and the total is the sum of the gains so far. */
  lemma {:induction false} BelowAllowanceUntaxed(running: real, gains: seq<real>, b: Bracket)
    requires forall k :: 0 < k <= |gains| ==> running + Sum(gains[..k]) < Allowance
    ensures ChargeAll(running, gains, b) == (gains, running + Sum(gains))
    decreases |gains|
  {
    if |gains| > 0 {
      assert gains[..1] == [gains[0]];
      SumSingle(gains[0]);
      assert running + gains[0] < Allowance;
      var c := ChargeGain(running, gains[0], b);
      assert c == Charge(gains[0], running + gains[0]);
      forall k | 0 < k <= |gains[1..]|
        ensures c.running + Sum(gains[1..][..k]) < Allowance
      {
        assert gains[..k + 1] == [gains[0]] + gains[1..][..k];
        SumConcat([gains[0]], gains[1..][..k]);
      }
      BelowAllowanceUntaxed(c.running, gains[1..], b);
      var rest := ChargeAll(c.running, gains[1..], b);
      assert ChargeAll(running, gains, b) == ([gains[0]] + rest.0, rest.1);
      assert gains == [gains[0]] + gains[1..];
      SumConcat([gains[0]], gains[1..]);
    }
  }

  /** Whatever the gains, the running total never exceeds the allowance after a
      call, and it sits exactly at the allowance after every taxed call. */
  lemma {:induction false} RunningNeverAboveAllowance(running: real, gains: seq<real>, b: Bracket)
    requires running <= Allowance
    ensures ChargeAll(running, gains, b).1 <= Allowance
    ensures 0 < |gains| && Allowance <= ChargeAll(running, gains[..|gains| - 1], b).1 + gains[|gains| - 1]
      ==> ChargeAll(running, gains, b).1 == Allowance
    decreases |gains|
  {
    if |gains| > 0 {
      var c := ChargeGain(running, gains[0], b);
      RunningNeverAboveAllowance(c.running, gains[1..], b);
      if |gains| > 1 {
        assert gains[1..][..|gains[1..]| - 1] == gains[..|gains| - 1][1..];
      }
    }
  }
}
