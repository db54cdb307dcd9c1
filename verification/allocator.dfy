/**
 The inverse-volatility allocator. Each instrument's weight is the inverse
 of its volatility divided by the sum of all inverse volatilities, so that
 every instrument contributes the same volatility-weighted exposure. This
 is the closed form of equal risk contribution under the deliberate
 simplifying assumption that the instruments are uncorrelated.
 */
module Allocator {
  import opened Sums

  predicate AllPositive(s: seq<real>)
  {
    forall i :: 0 <= i < |s| ==> s[i] > 0.0
  }

  /** The terms 1/v accumulated into the running total. */
  function Inverses(vols: seq<real>): (r: seq<real>)
    requires AllPositive(vols)
    ensures |r| == |vols|
  {
    seq(|vols|, i requires 0 <= i < |vols| => 1.0 / vols[i])
  }

  /** Σ 1/v_j, added in symbol order. */
  function SumInverseVolatility(vols: seq<real>): (s: real)
    requires AllPositive(vols)
    ensures |vols| > 0 ==> s > 0.0
  {
    if |vols| > 0 then SumPositive(Inverses(vols)); Sum(Inverses(vols))
    else Sum(Inverses(vols))
  }

  /**
   The weight of instrument i, computed as the script does: 1 / (v_i · S).
   The weight times the volatility is the same for every instrument.
   */
  function Allocations(vols: seq<real>): (a: seq<real>)
    requires AllPositive(vols)
    ensures |a| == |vols|
    ensures AllPositive(a)
    ensures forall i, j :: 0 <= i < |a| && 0 <= j < |a| ==> a[i] * vols[i] == a[j] * vols[j]
  {
    var s := SumInverseVolatility(vols);
    seq(|vols|, i requires 0 <= i < |vols| => 1.0 / (vols[i] * s))
  }

  /** The script's 1/(v_i·S) is the textbook weight (1/v_i) / Σ_j 1/v_j. */
  lemma AllocationIsNormalisedInverse(vols: seq<real>, i: int)
    requires AllPositive(vols)
    requires 0 <= i < |vols|
    ensures Allocations(vols)[i] == Inverses(vols)[i] / SumInverseVolatility(vols)
  {
  }

  /** The weights of a nonempty portfolio sum to exactly one. */
  lemma AllocationsSumToOne(vols: seq<real>)
    requires |vols| > 0
    requires AllPositive(vols)
    ensures Sum(Allocations(vols)) == 1.0
  {
    var s := SumInverseVolatility(vols);
    var a := Allocations(vols);
    forall i | 0 <= i < |vols|
      ensures a[i] == Scale(Inverses(vols), 1.0 / s)[i]
    {
      AllocationIsNormalisedInverse(vols, i);
    }
    assert a == Scale(Inverses(vols), 1.0 / s);
    SumScale(Inverses(vols), 1.0 / s);
  }

  /** A strictly lower volatility gets a strictly higher weight, and conversely. */
  lemma LowerVolatilityHigherWeight(vols: seq<real>, i: int, j: int)
    requires AllPositive(vols)
    requires 0 <= i < |vols| && 0 <= j < |vols|
    ensures vols[i] < vols[j] <==> Allocations(vols)[i] > Allocations(vols)[j]
  {
    var a := Allocations(vols);
    var s := SumInverseVolatility(vols);
    assert a[i] == 1.0 / (vols[i] * s) && a[j] == 1.0 / (vols[j] * s);
    assert 0.0 < vols[i] * s && 0.0 < vols[j] * s;
    if vols[i] < vols[j] {
      assert vols[i] * s < vols[j] * s;
    } else {
      assert vols[j] * s <= vols[i] * s;
    }
  }

  /** Equal volatilities get equal weights, and conversely. */
  lemma EqualVolatilityEqualWeight(vols: seq<real>, i: int, j: int)
    requires AllPositive(vols)
    requires 0 <= i < |vols| && 0 <= j < |vols|
    ensures vols[i] == vols[j] <==> Allocations(vols)[i] == Allocations(vols)[j]
  {
    LowerVolatilityHigherWeight(vols, i, j);
    LowerVolatilityHigherWeight(vols, j, i);
  }

  /** Volatilities 40% and 20% give weights one third and two thirds. */
  lemma TwoInstrumentExample()
    ensures Allocations([0.40, 0.20]) == [1.0 / 3.0, 2.0 / 3.0]
  {
    var vols := [0.40, 0.20];
    assert Inverses(vols) == [2.5, 5.0];
    assert Inverses(vols)[..1] == [2.5];
    assert Sum([2.5]) == 2.5 by { assert [2.5][..0] == []; }
    assert SumInverseVolatility(vols) == 7.5;
  }
}
