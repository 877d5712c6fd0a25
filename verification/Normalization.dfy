/** Divisive normalisation of outbound weights to a budget, with a floor. */
module Normalization {
  import opened Base
  import opened RealProducts
  import opened Learning

  function Total(ws: seq<real>): real {
    if ws == [] then 0.0 else Total(ws[..|ws| - 1]) + ws[|ws| - 1]
  }

  predicate OverBudget(total: real, c: LearningConfig) {
    !(total <= c.maxTotalOutboundWeight || total <= 0.0)
  }

  function AtFloor(x: real, floor: real): real {
    if x >= floor then x else floor
  }

  function Rescaled(w: real, factor: real, floor: real): real {
    AtFloor(Times(w, factor), floor)
  }

  function FactorFor(total: real, c: LearningConfig): Option<real> {
    if OverBudget(total, c) then Some(Quot(c.maxTotalOutboundWeight, total)) else None
  }

  function RescaleAll(ws: seq<real>, factor: real, floor: real): (r: seq<real>)
    ensures |r| == |ws| && forall i :: 0 <= i < |ws| ==> r[i] == Rescaled(ws[i], factor, floor)
  {
    Map((w: real) => Rescaled(w, factor, floor), ws)
  }

  function Normalized(ws: seq<real>, c: LearningConfig): seq<real> {
    match FactorFor(Total(ws), c)
    case None => ws
    case Some(f) => RescaleAll(ws, f, c.minWeight)
  }

  method NormalizeOutbound(weights: array<real>, c: LearningConfig) returns (factor: Option<real>)
    modifies weights
    ensures weights[..] == Normalized(old(weights[..]), c)
    ensures factor == FactorFor(Total(old(weights[..])), c)
  {
    var total := 0.0;
    for i := 0 to weights.Length
      invariant total == Total(weights[..i])
    {
      assert weights[..i + 1][..i] == weights[..i];
      total := total + weights[i];
    }
    assert weights[..weights.Length] == weights[..];
    if total <= c.maxTotalOutboundWeight || total <= 0.0 {
      return None;
    }
    var f := Quot(c.maxTotalOutboundWeight, total);
    for i := 0 to weights.Length
      invariant forall j :: 0 <= j < i ==> weights[j] == Rescaled(old(weights[j]), f, c.minWeight)
      invariant forall j :: i <= j < weights.Length ==> weights[j] == old(weights[j])
    {
      weights[i] := Rescaled(weights[i], f, c.minWeight);
    }
    factor := Some(f);
    assert weights[..] == RescaleAll(old(weights[..]), f, c.minWeight);
  }

  // ---- what the floor adds ------------------------------------------------------------

  ghost predicate AtLeast(ws: seq<real>, floor: real) {
    forall i :: 0 <= i < |ws| ==> ws[i] >= floor
  }

  /** How many entries the floor raises. */
  function Floored(xs: seq<real>, floor: real): nat {
    if xs == [] then 0 else Floored(xs[..|xs| - 1], floor) + if xs[|xs| - 1] < floor then 1 else 0
  }

  lemma {:induction false} FlooredNone(xs: seq<real>, floor: real)
    ensures Floored(xs, floor) <= |xs|
    ensures Floored(xs, floor) == 0 <==> AtLeast(xs, floor)
  {
    if xs != [] {
      var front := xs[..|xs| - 1];
      FlooredNone(front, floor);
      assert forall i :: 0 <= i < |front| ==> front[i] == xs[i];
    }
  }

  /** One `share` for every entry the floor raises. */
  function Shares(xs: seq<real>, floor: real, share: real): real {
    if xs == [] then 0.0 else Shares(xs[..|xs| - 1], floor, share) + if xs[|xs| - 1] < floor then share else 0.0
  }

  lemma {:induction false} SharesProduct(xs: seq<real>, floor: real, share: real)
    ensures Shares(xs, floor, share) == Times(Floored(xs, floor) as real, share)
  {
    TimesUnit(share);
    if xs != [] {
      var front := xs[..|xs| - 1];
      SharesProduct(front, floor, share);
      TimesAdd(Floored(front, floor) as real, 1.0, share);
    }
  }

  function FloorAll(xs: seq<real>, floor: real): (r: seq<real>)
    ensures |r| == |xs| && forall i :: 0 <= i < |xs| ==> r[i] == AtFloor(xs[i], floor)
  {
    Map((x: real) => AtFloor(x, floor), xs)
  }

  /** Raising entries to the floor adds at most one `share` per raised entry. */
  lemma {:induction false} FloorAdds(xs: seq<real>, floor: real, share: real)
    requires share >= 0.0 && forall i :: 0 <= i < |xs| ==> floor - xs[i] <= share
    ensures Total(xs) <= Total(FloorAll(xs, floor)) <= Total(xs) + Shares(xs, floor, share)
    ensures Floored(xs, floor) > 0 <==> Total(FloorAll(xs, floor)) > Total(xs)
  {
    if xs != [] {
      var front := xs[..|xs| - 1];
      FloorAdds(front, floor, share);
      var all := FloorAll(xs, floor);
      assert all[..|all| - 1] == FloorAll(front, floor);
    }
  }

  function ScaleAll(ws: seq<real>, factor: real): (xs: seq<real>)
    ensures |xs| == |ws| && forall i :: 0 <= i < |ws| ==> xs[i] == Times(ws[i], factor)
  {
    Map((w: real) => Times(w, factor), ws)
  }

  lemma {:induction false} ScaledTotal(ws: seq<real>, factor: real)
    ensures Total(ScaleAll(ws, factor)) == Times(Total(ws), factor)
  {
    TimesUnit(factor);
    if ws != [] {
      var front, w := ws[..|ws| - 1], ws[|ws| - 1];
      var xs := ScaleAll(ws, factor);
      assert xs[..|xs| - 1] == ScaleAll(front, factor);
      ScaledTotal(front, factor);
      TimesAdd(Total(front), w, factor);
    }
  }

  // ---- one normalisation ------------------------------------------------------------------

  /** An over-budget list of weights, scaled to the budget but not yet floored. */
  function ScaledToBudget(ws: seq<real>, c: LearningConfig): seq<real>
    requires OverBudget(Total(ws), c)
  {
    ScaleAll(ws, Quot(c.maxTotalOutboundWeight, Total(ws)))
  }

  /** What the floor can add to one entry of a total W + e: m * (e / (W + e)). */
  function FloorShare(total: real, c: LearningConfig): real
    requires OverBudget(total, c)
  {
    Times(c.minWeight, Quot(total - c.maxTotalOutboundWeight, total))
  }

  lemma {:induction false} OverBudgetFacts(ws: seq<real>, c: LearningConfig)
    requires c.IsValid() && OverBudget(Total(ws), c)
    ensures 0.0 < c.maxTotalOutboundWeight < Total(ws) && c.minWeight > 0.0
    ensures Normalized(ws, c) == FloorAll(ScaledToBudget(ws, c), c.minWeight)
    ensures |ScaledToBudget(ws, c)| == |ws|
  {
  }

  lemma {:induction false} ShareOfFactor(m: real, budget: real, total: real)
    requires 0.0 < budget < total && m > 0.0
    ensures var f, g := Quot(budget, total), Quot(total - budget, total);
            && f >= 0.0 && Times(total, f) == budget
            && Times(m, g) == m - Times(m, f) && 0.0 <= Times(m, g) <= m
  {
    hide *;
    var f, g := Quot(budget, total), Quot(total - budget, total);
    QuotTimes(budget, total);
    QuotSum(budget, total);
    QuotRange(budget, total);
    QuotRange(total - budget, total);
    TimesAdd(f, g, m);
    TimesUnit(m);
    TimesNonNegative(m, f);
    TimesNonNegative(m, g);
  }

  lemma {:induction false} BudgetPieces(ws: seq<real>, c: LearningConfig)
    requires c.IsValid() && AtLeast(ws, c.minWeight) && OverBudget(Total(ws), c)
    ensures Total(ScaledToBudget(ws, c)) == c.maxTotalOutboundWeight
    ensures 0.0 <= FloorShare(Total(ws), c) <= c.minWeight
    ensures var xs := ScaledToBudget(ws, c);
            forall i :: 0 <= i < |xs| ==> c.minWeight - xs[i] <= FloorShare(Total(ws), c)
  {
    var f := Quot(c.maxTotalOutboundWeight, Total(ws));
    ShareOfFactor(c.minWeight, c.maxTotalOutboundWeight, Total(ws));
    ScaledTotal(ws, f);
    forall i | 0 <= i < |ws| ensures c.minWeight - Times(ws[i], f) <= FloorShare(Total(ws), c) {
      TimesMono(c.minWeight, ws[i], f);
    }
  }

  /** Normalising a total W + e over budget W leaves an excess of at most
      k * m * e / (W + e), where k entries hit the floor m; the result is exactly W
      if and only if none did. */
  lemma {:induction false} NormalizationExcess(ws: seq<real>, c: LearningConfig)
    requires c.IsValid() && AtLeast(ws, c.minWeight) && OverBudget(Total(ws), c)
    ensures var k := Floored(ScaledToBudget(ws, c), c.minWeight);
            && 0.0 <= Total(Normalized(ws, c)) - c.maxTotalOutboundWeight <= Times(k as real, FloorShare(Total(ws), c))
            && (Total(Normalized(ws, c)) == c.maxTotalOutboundWeight <==> k == 0)
  {
    hide *;
    OverBudgetFacts(ws, c);
    BudgetPieces(ws, c);
    FloorAdds(ScaledToBudget(ws, c), c.minWeight, FloorShare(Total(ws), c));
    SharesProduct(ScaledToBudget(ws, c), c.minWeight, FloorShare(Total(ws), c));
  }

  /** The budget is respected exactly when no scaled weight is below the floor. */
  lemma {:induction false} BudgetHeldIff(ws: seq<real>, c: LearningConfig)
    requires c.IsValid() && AtLeast(ws, c.minWeight) && OverBudget(Total(ws), c)
    ensures Total(Normalized(ws, c)) <= c.maxTotalOutboundWeight <==> AtLeast(ScaledToBudget(ws, c), c.minWeight)
  {
    hide *;
    NormalizationExcess(ws, c);
    FlooredNone(ScaledToBudget(ws, c), c.minWeight);
  }

  lemma {:induction false} UnderBudgetFacts(ws: seq<real>, c: LearningConfig)
    requires c.IsValid() && !OverBudget(Total(ws), c)
    ensures Normalized(ws, c) == ws && Total(ws) <= c.maxTotalOutboundWeight
  {
  }

  lemma {:induction false} SharesWithinFloors(ws: seq<real>, c: LearningConfig)
    requires c.IsValid() && AtLeast(ws, c.minWeight) && OverBudget(Total(ws), c)
    ensures var k, n := Floored(ScaledToBudget(ws, c), c.minWeight) as real, |ws| as real;
            Times(k, FloorShare(Total(ws), c)) <= Times(n, FloorShare(Total(ws), c)) <= Times(n, c.minWeight)
  {
    hide *;
    OverBudgetFacts(ws, c);
    BudgetPieces(ws, c);
    FlooredNone(ScaledToBudget(ws, c), c.minWeight);
    TimesMono(Floored(ScaledToBudget(ws, c), c.minWeight) as real, |ws| as real, FloorShare(Total(ws), c));
    TimesMono(FloorShare(Total(ws), c), c.minWeight, |ws| as real);
  }

  /** After normalisation the total is at most the budget plus one floor per entry. */
  lemma {:induction false} NormalizedTotalBound(ws: seq<real>, c: LearningConfig)
    requires c.IsValid() && AtLeast(ws, c.minWeight)
    ensures Total(Normalized(ws, c)) <= c.maxTotalOutboundWeight + Times(|ws| as real, c.minWeight)
  {
    assert c.minWeight > 0.0;
    hide *;
    if OverBudget(Total(ws), c) {
      SharesWithinFloors(ws, c);
      NormalizationExcess(ws, c);
    } else {
      UnderBudgetFacts(ws, c);
      TimesNonNegative(|ws| as real, c.minWeight);
    }
  }

  /** Normalisation raises no weight, keeps the floor, and keeps the weak order. */
  lemma {:induction false} NormalizationIsMonotone(ws: seq<real>, c: LearningConfig, i: nat, j: nat)
    requires c.IsValid() && AtLeast(ws, c.minWeight) && i < |ws| && j < |ws| && ws[i] <= ws[j]
    ensures |Normalized(ws, c)| == |ws|
    ensures c.minWeight <= Normalized(ws, c)[i] <= Normalized(ws, c)[j] <= ws[j]
  {
    if OverBudget(Total(ws), c) {
      var f := Quot(c.maxTotalOutboundWeight, Total(ws));
      QuotRange(c.maxTotalOutboundWeight, Total(ws));
      TimesMono(ws[i], ws[j], f);
      TimesMono(f, 1.0, ws[j]);
      TimesUnit(ws[j]);
    }
  }

  // ---- repeated normalisation -----------------------------------------------------------------

  function Excess(ws: seq<real>, c: LearningConfig): real {
    RMax(Total(ws) - c.maxTotalOutboundWeight, 0.0)
  }

  function Repeated(ws: seq<real>, c: LearningConfig, times: nat): seq<real> {
    if times == 0 then ws else Normalized(Repeated(ws, c, times - 1), c)
  }

  function Power(x: real, n: nat): real {
    if n == 0 then 1.0 else Times(x, Power(x, n - 1))
  }

  /** n * m / W: the factor by which one more normalisation contracts the excess. */
  function Ratio(n: nat, c: LearningConfig): real
    requires c.IsValid()
  {
    Quot(Times(n as real, c.minWeight), c.maxTotalOutboundWeight)
  }

  lemma {:induction false} RatioContracts(n: nat, c: LearningConfig)
    requires c.IsValid()
    ensures Ratio(n, c) >= 0.0
    ensures Times(n as real, c.minWeight) < c.maxTotalOutboundWeight ==> Ratio(n, c) < 1.0
  {
    TimesNonNegative(n as real, c.minWeight);
    QuotRange(Times(n as real, c.minWeight), c.maxTotalOutboundWeight);
  }

  /** n shares are at most n * m / W of the excess. */
  lemma {:induction false} SharesWithinRatio(n: nat, c: LearningConfig, total: real)
    requires c.IsValid() && OverBudget(total, c)
    ensures Times(n as real, FloorShare(total, c)) <= Times(Ratio(n, c), total - c.maxTotalOutboundWeight)
  {
    var e, budget, m, nr := total - c.maxTotalOutboundWeight, c.maxTotalOutboundWeight, c.minWeight, n as real;
    QuotMono(e, budget, total);
    TimesMono(Quot(e, total), Quot(e, budget), m);
    TimesMono(Times(m, Quot(e, total)), Times(m, Quot(e, budget)), nr);
    TimesAssoc(nr, m, Quot(e, budget));
    TimesQuotSwap(Times(nr, m), e, budget);
  }

  /** One more normalisation multiplies the excess by at most n * m / W. */
  lemma {:induction false} ExcessContracts(ws: seq<real>, c: LearningConfig)
    requires c.IsValid() && AtLeast(ws, c.minWeight)
    ensures Excess(Normalized(ws, c), c) <= Times(Ratio(|ws|, c), Excess(ws, c))
  {
    assert Excess(ws, c) >= 0.0 && Excess(ws, c) >= Total(ws) - c.maxTotalOutboundWeight;
    assert Total(Normalized(ws, c)) >= c.maxTotalOutboundWeight ==>
        Excess(Normalized(ws, c), c) == Total(Normalized(ws, c)) - c.maxTotalOutboundWeight;
    assert Total(Normalized(ws, c)) <= c.maxTotalOutboundWeight ==> Excess(Normalized(ws, c), c) == 0.0;
    hide *;
    RatioContracts(|ws|, c);
    if OverBudget(Total(ws), c) {
      NormalizationExcess(ws, c);
      SharesWithinFloors(ws, c);
      SharesWithinRatio(|ws|, c, Total(ws));
      TimesMono(Total(ws) - c.maxTotalOutboundWeight, Excess(ws, c), Ratio(|ws|, c));
    } else {
      UnderBudgetFacts(ws, c);
      TimesNonNegative(Ratio(|ws|, c), Excess(ws, c));
    }
  }

  lemma {:induction false} RepeatedKeepsFloor(ws: seq<real>, c: LearningConfig, times: nat)
    requires AtLeast(ws, c.minWeight)
    ensures AtLeast(Repeated(ws, c, times), c.minWeight) && |Repeated(ws, c, times)| == |ws|
  {
    if times > 0 { RepeatedKeepsFloor(ws, c, times - 1); }
  }

  /** Repeating the normalisation contracts the excess geometrically. */
  lemma {:induction false} ExcessContractsPower(ws: seq<real>, c: LearningConfig, times: nat)
    requires c.IsValid() && AtLeast(ws, c.minWeight)
    ensures Excess(Repeated(ws, c, times), c) <= Times(Power(Ratio(|ws|, c), times), Excess(ws, c))
  {
    var r := Ratio(|ws|, c);
    if times == 0 {
      TimesUnit(Excess(ws, c));
    } else {
      var before := Repeated(ws, c, times - 1);
      assert Repeated(ws, c, times) == Normalized(before, c);
      assert Power(r, times) == Times(r, Power(r, times - 1));
      hide *;
      ExcessContractsPower(ws, c, times - 1);
      RepeatedKeepsFloor(ws, c, times - 1);
      ExcessContracts(before, c);
      RatioContracts(|ws|, c);
      TimesMono(Excess(before, c), Times(Power(r, times - 1), Excess(ws, c)), r);
      TimesAssoc(r, Power(r, times - 1), Excess(ws, c));
    }
  }

  // ---- when repetition reaches the budget -----------------------------------------------------

  lemma {:induction false} TotalAtLeast(ws: seq<real>, floor: real)
    requires AtLeast(ws, floor)
    ensures Total(ws) >= Times(|ws| as real, floor)
  {
    TimesUnit(floor);
    if ws != [] {
      var front := ws[..|ws| - 1];
      assert AtLeast(front, floor);
      TotalAtLeast(front, floor);
      TimesAdd(|front| as real, 1.0, floor);
    }
  }

  lemma {:induction false} AllFloored(xs: seq<real>, floor: real)
    requires Floored(xs, floor) == |xs|
    ensures Total(FloorAll(xs, floor)) == Times(|xs| as real, floor)
  {
    TimesUnit(floor);
    if xs != [] {
      var front := xs[..|xs| - 1];
      FlooredNone(front, floor);
      AllFloored(front, floor);
      var all := FloorAll(xs, floor);
      assert all[..|all| - 1] == FloorAll(front, floor);
      TimesAdd(|front| as real, 1.0, floor);
    }
  }

  lemma {:induction false} ExcessOf(total: real, ws: seq<real>, c: LearningConfig)
    requires total == Total(ws)
    ensures Excess(ws, c) >= 0.0 && Excess(ws, c) >= total - c.maxTotalOutboundWeight
    ensures total > c.maxTotalOutboundWeight ==> Excess(ws, c) == total - c.maxTotalOutboundWeight
    ensures total <= c.maxTotalOutboundWeight ==> Excess(ws, c) == 0.0
  {
  }

  /** While the floors fit the budget, not all entries can be floored and leave an excess: the
      factor is (n - 1) * m / W. */
  lemma {:induction false} ExcessContractsStrictly(ws: seq<real>, c: LearningConfig)
    requires c.IsValid() && AtLeast(ws, c.minWeight) && ws != []
    requires Times(|ws| as real, c.minWeight) <= c.maxTotalOutboundWeight
    ensures Excess(Normalized(ws, c), c) <= Times(Ratio(|ws| - 1, c), Excess(ws, c))
  {
    var ws' := Normalized(ws, c);
    ExcessOf(Total(ws), ws, c);
    ExcessOf(Total(ws'), ws', c);
    RatioContracts(|ws| - 1, c);
    hide *;
    TimesNonNegative(Ratio(|ws| - 1, c), Excess(ws, c));
    if OverBudget(Total(ws), c) {
      var xs := ScaledToBudget(ws, c);
      var k := Floored(xs, c.minWeight);
      OverBudgetFacts(ws, c);
      BudgetPieces(ws, c);
      NormalizationExcess(ws, c);
      FlooredNone(xs, c.minWeight);
      if k == |ws| {
        AllFloored(xs, c.minWeight);
      } else {
        TimesMono(k as real, (|ws| - 1) as real, FloorShare(Total(ws), c));
        SharesWithinRatio(|ws| - 1, c, Total(ws));
      }
    } else {
      UnderBudgetFacts(ws, c);
    }
  }

  ghost predicate FallsBelow(ws: seq<real>, c: LearningConfig, bound: real) {
    exists times: nat :: Excess(Repeated(ws, c, times), c) < bound
  }

  /** Repetition brings the excess below every positive bound. */
  ghost predicate ExcessVanishes(ws: seq<real>, c: LearningConfig) {
    forall bound: real :: bound > 0.0 ==> FallsBelow(ws, c, bound)
  }

  lemma {:induction false} RepeatedOnce(ws: seq<real>, c: LearningConfig, k: nat)
    requires c.IsValid() && AtLeast(ws, c.minWeight) && ws != []
    requires Times(|ws| as real, c.minWeight) <= c.maxTotalOutboundWeight
    ensures Excess(Repeated(ws, c, k + 1), c) <= Times(Ratio(|ws| - 1, c), Excess(Repeated(ws, c, k), c))
  {
    RepeatedKeepsFloor(ws, c, k);
    assert Repeated(ws, c, k + 1) == Normalized(Repeated(ws, c, k), c);
    hide *;
    ExcessContractsStrictly(Repeated(ws, c, k), c);
  }

  /** While the excess is at least the bound, each repetition lowers it by a fixed step. */
  lemma {:induction false} ExcessFalls(ws: seq<real>, c: LearningConfig, bound: real, step: real, k: nat, limit: nat)
    requires c.IsValid() && AtLeast(ws, c.minWeight) && ws != [] && bound > 0.0
    requires Times(|ws| as real, c.minWeight) <= c.maxTotalOutboundWeight
    requires Ratio(|ws| - 1, c) < 1.0 && step == Times(1.0 - Ratio(|ws| - 1, c), bound)
    requires k <= limit && Excess(ws, c) < Times(limit as real, step)
    requires Excess(Repeated(ws, c, k), c) <= Excess(ws, c) - Times(k as real, step)
    ensures FallsBelow(ws, c, bound)
    decreases limit - k
  {
    var e := Excess(Repeated(ws, c, k), c);
    if e >= bound {
      var r := Ratio(|ws| - 1, c);
      RepeatedOnce(ws, c, k);
      hide *;
      TimesAdd(r, 1.0 - r, e);
      TimesUnit(e);
      TimesMono(bound, e, 1.0 - r);
      TimesAdd(k as real, 1.0, step);
      TimesUnit(step);
      ExcessFalls(ws, c, bound, step, k + 1, limit);
    }
  }

  lemma {:induction false} FloorsFit(ws: seq<real>, c: LearningConfig, bound: real)
    requires c.IsValid() && AtLeast(ws, c.minWeight) && bound > 0.0
    requires Times(|ws| as real, c.minWeight) <= c.maxTotalOutboundWeight
    ensures FallsBelow(ws, c, bound)
  {
    assert Repeated(ws, c, 0) == ws;
    ExcessOf(Total(ws), ws, c);
    if ws != [] {
      var r := Ratio(|ws| - 1, c);
      assert c.minWeight > 0.0;
      hide *;
      TimesAdd((|ws| - 1) as real, 1.0, c.minWeight);
      TimesUnit(c.minWeight);
      RatioContracts(|ws| - 1, c);
      var step := Times(1.0 - r, bound);
      TimesSign(1.0 - r, bound);
      TimesSign(r - 1.0, bound);
      TimesAdd(1.0 - r, r - 1.0, bound);
      TimesUnit(bound);
      assert step > 0.0;
      var limit := Quot(Excess(ws, c), step).Floor + 1;
      QuotTimes(Excess(ws, c), step);
      QuotRange(Excess(ws, c), step);
      TimesCancels(limit as real, Quot(Excess(ws, c), step), step);
      TimesUnit(step);
      ExcessFalls(ws, c, bound, step, 0, limit);
    }
  }

  /** Exactly when repeated normalisation reaches the budget in the limit: when the floors
      alone fit it, n * m <= W. */
  lemma {:induction false} ExcessVanishesIff(ws: seq<real>, c: LearningConfig)
    requires c.IsValid() && AtLeast(ws, c.minWeight)
    ensures ExcessVanishes(ws, c) <==> Times(|ws| as real, c.minWeight) <= c.maxTotalOutboundWeight
  {
    var over := Times(|ws| as real, c.minWeight) - c.maxTotalOutboundWeight;
    if over <= 0.0 {
      forall bound: real | bound > 0.0 ensures FallsBelow(ws, c, bound) { FloorsFit(ws, c, bound); }
    } else {
      forall times: nat ensures Excess(Repeated(ws, c, times), c) >= over {
        RepeatedKeepsFloor(ws, c, times);
        TotalAtLeast(Repeated(ws, c, times), c.minWeight);
      }
      assert !FallsBelow(ws, c, over);
    }
  }
}
