/** What softmax sampling draws by: each remaining candidate's share of the draws is its
    exp(score / temperature), whatever is subtracted first. */
module SoftmaxDraws {
  import opened Base
  import opened RealProducts
  import opened Sampling

  predicate Increases(exp: PositiveFn, x: real, y: real) {
    x < y ==> exp(x) < exp(y)
  }

  predicate Multiplies(exp: PositiveFn, x: real, y: real) {
    exp(x + y) == Times(exp(x), exp(y))
  }

  /** What is used of the exponential function. */
  ghost predicate IsExponential(exp: PositiveFn) {
    && exp(0.0) == 1.0
    && (forall x, y :: Increases(exp, x, y)) && (forall x, y :: Multiplies(exp, x, y))
  }

  /** The textbook rule: exp(score / temperature), nothing subtracted. */
  function Boltzmann(heat: Heat): (w: Weighing)
    ensures IsPositive(w)
  {
    (remaining: seq<nat>) => Map((i: nat) => heat.exp(At(heat.scores, i) / heat.temperature), remaining)
  }

  // ---- the intervals -------------------------------------------------------------------------------

  /** The length of the i-th candidate's interval, of those the draw is compared with. */
  function Length(heat: Heat, remaining: seq<nat>, i: nat): real
    requires i < |remaining|
  {
    Sum(heat.Weigh()(remaining)[..i + 1]) - Sum(heat.Weigh()(remaining)[..i])
  }

  lemma {:induction false} LengthIsWeight(heat: Heat, remaining: seq<nat>, i: nat)
    requires i < |remaining|
    ensures Length(heat, remaining, i) == heat.Weigh()(remaining)[i] > 0.0
  {
    var ws := heat.Weigh()(remaining);
    assert ws[..i + 1][..i] == ws[..i];
    assert Sum(ws[..i + 1]) == Sum(ws[..i]) + ws[i];
    hide Sum;
  }

  lemma {:induction false} MaxIsGreatest(scores: seq<real>)
    requires scores != []
    ensures exists k :: 0 <= k < |scores| && scores[k] == MaxOf(scores)
    ensures forall k :: 0 <= k < |scores| ==> scores[k] <= MaxOf(scores)
  {
    if |scores| > 1 {
      var front := scores[..|scores| - 1];
      MaxIsGreatest(front);
      var k :| 0 <= k < |front| && front[k] == MaxOf(front);
      assert scores[k] == MaxOf(front);
    }
    assert scores[|scores| - 1] == MaxOf(scores) || |scores| > 1;
  }

  /** How far a score lies from another, in units of the temperature. */
  function Gap(score: real, other: real, temperature: Positive): real {
    (score - other) / temperature
  }

  /** The remaining candidates' scores, and the weights they get from the best of them. */
  ghost predicate WeighedFrom(heat: Heat, remaining: seq<nat>, best: real) {
    && (forall k :: 0 <= k < |remaining| ==> At(heat.scores, remaining[k]) <= best)
    && (exists k :: 0 <= k < |remaining| && At(heat.scores, remaining[k]) == best)
    && (forall k :: 0 <= k < |remaining| ==>
          heat.Weigh()(remaining)[k] == heat.exp(Gap(At(heat.scores, remaining[k]), best, heat.temperature)))
  }

  lemma {:induction false} WeightAt(heat: Heat, remaining: seq<nat>, best: real, k: nat)
    requires k < |remaining| && best == MaxOf(Map((i: nat) => At(heat.scores, i), remaining))
    ensures heat.Weigh()(remaining)[k] == heat.exp(Gap(At(heat.scores, remaining[k]), best, heat.temperature))
  {
    assert heat.Weigh()(remaining) == SoftmaxWeights(heat.scores, heat.temperature, heat.exp, remaining);
    hide MaxOf, At;
  }

  lemma {:induction false} WeightsFromBest(heat: Heat, remaining: seq<nat>) returns (best: real)
    requires remaining != []
    ensures WeighedFrom(heat, remaining, best)
  {
    var scores := Map((i: nat) => At(heat.scores, i), remaining);
    best := MaxOf(scores);
    hide MaxOf, Gap, SoftmaxWeights, At;
    MaxIsGreatest(scores);
    var k :| 0 <= k < |scores| && scores[k] == best;
    assert At(heat.scores, remaining[k]) == best;
    forall k | 0 <= k < |remaining|
      ensures At(heat.scores, remaining[k]) <= best
      ensures heat.Weigh()(remaining)[k] == heat.exp(Gap(At(heat.scores, remaining[k]), best, heat.temperature))
    {
      assert scores[k] <= best;
      WeightAt(heat, remaining, best, k);
    }
  }

  lemma {:induction false} GapsAdd(a: real, b: real, c: real, t: Positive)
    ensures Gap(a, c, t) == Gap(a, b, t) + Gap(b, c, t)
  {
    assert (a - b) / t + (b - c) / t == ((a - b) + (b - c)) / t;
  }

  lemma {:induction false} GapSign(a: real, b: real, t: Positive)
    ensures (Gap(a, b, t) > 0.0 <==> a > b) && (Gap(a, b, t) == 0.0 <==> a == b)
  {
    assert Gap(a, b, t) * t == a - b;
  }

  lemma {:induction false} ExponentialOfGap(exp: PositiveFn, a: real, b: real, best: real, t: Positive)
    requires IsExponential(exp)
    ensures exp(Gap(a, best, t)) > exp(Gap(b, best, t)) <==> a > b
    ensures exp(Gap(a, best, t)) == Times(exp(Gap(a, b, t)), exp(Gap(b, best, t)))
  {
    GapsAdd(a, b, best, t);
    GapSign(a, b, t);
    var x, y := Gap(a, best, t), Gap(b, best, t);
    assert Increases(exp, x, y) && Increases(exp, y, x) && Multiplies(exp, Gap(a, b, t), y);
    hide Gap, Times;
  }

  /** A candidate's interval is longer exactly if its score is higher; two intervals are as
      the exponential of the difference of their scores over the temperature; and the best
      candidate's has length 1. */
  lemma {:induction false} LengthsFollowScores(heat: Heat, remaining: seq<nat>, i: nat, j: nat)
    requires IsExponential(heat.exp) && i < |remaining| && j < |remaining|
    ensures var si, sj := At(heat.scores, remaining[i]), At(heat.scores, remaining[j]);
            && (Length(heat, remaining, i) > Length(heat, remaining, j) <==> si > sj)
            && Length(heat, remaining, i) == Times(heat.exp((si - sj) / heat.temperature), Length(heat, remaining, j))
    ensures (forall k :: 0 <= k < |remaining| ==> At(heat.scores, remaining[k]) <= At(heat.scores, remaining[i])) ==>
              Length(heat, remaining, i) == 1.0
  {
    var t := heat.temperature;
    var si, sj := At(heat.scores, remaining[i]), At(heat.scores, remaining[j]);
    assert heat.exp((si - sj) / t) == heat.exp(Gap(si, sj, t));
    assert heat.exp(0.0) == 1.0;
    hide Length, Gap, Times, IsExponential, At;
    var best := WeightsFromBest(heat, remaining);
    LengthIsWeight(heat, remaining, i);
    LengthIsWeight(heat, remaining, j);
    ExponentialOfGap(heat.exp, si, sj, best, t);
    GapSign(si, best, t);
  }

  // ---- nothing depends on what is subtracted --------------------------------------------------------

  lemma {:induction false} SumScales(ws: seq<real>, us: seq<real>, f: real)
    requires |us| == |ws| && forall k :: 0 <= k < |ws| ==> us[k] == Times(ws[k], f)
    ensures Sum(us) == Times(Sum(ws), f)
  {
    if ws == [] {
      TimesUnit(f);
    } else {
      SumScales(ws[..|ws| - 1], us[..|us| - 1], f);
      TimesAdd(Sum(ws[..|ws| - 1]), ws[|ws| - 1], f);
      hide Times;
    }
  }

  lemma {:induction false} SlotScales(ws: seq<real>, us: seq<real>, f: real, target: real, i: nat)
    requires f > 0.0 && |us| == |ws| && forall k :: 0 <= k < |ws| ==> us[k] == Times(ws[k], f)
    ensures InSlot(us, Times(target, f), i) <==> InSlot(ws, target, i)
  {
    if i < |ws| {
      SumScales(ws[..i + 1], us[..i + 1], f);
      SumScales(ws[..i], us[..i], f);
      TimesCancels(target, Sum(ws[..i + 1]), f);
      TimesCancels(target, Sum(ws[..i]), f);
    }
    hide Times, Sum;
  }

  lemma {:induction false} WeighIsScaled(heat: Heat, remaining: seq<nat>) returns (f: real)
    requires IsExponential(heat.exp) && remaining != []
    ensures f > 0.0
    ensures forall k :: 0 <= k < |remaining| ==> heat.Weigh()(remaining)[k] == Times(Boltzmann(heat)(remaining)[k], f)
  {
    var best := WeightsFromBest(heat, remaining);
    var t := heat.temperature;
    f := heat.exp(Gap(0.0, best, t));
    forall k | 0 <= k < |remaining| ensures heat.Weigh()(remaining)[k] == Times(Boltzmann(heat)(remaining)[k], f) {
      var score := At(heat.scores, remaining[k]);
      assert score - 0.0 == score;
      assert Boltzmann(heat)(remaining)[k] == heat.exp(Gap(score, 0.0, t));
      hide Times, IsExponential, Boltzmann, Gap, At;
      ExponentialOfGap(heat.exp, score, 0.0, best, t);
    }
  }

  lemma {:induction false} PickByShare(weigh: Weighing, remaining: seq<nat>, draw: real, i: nat)
    requires IsPositive(weigh) && remaining != [] && 0.0 <= draw < 1.0
    ensures var ws := weigh(remaining);
            Slot(weigh, remaining, draw) == i <==> InSlot(ws, Times(draw, Sum(ws)), i)
  {
    PickFollowsTheDraw(weigh, remaining, draw, i);
    hide InSlot, Slot, Sum;
  }

  /** Which candidate a unit draw picks is decided by the textbook shares: the i-th exactly if
      the draw's share of their total falls in the i-th interval of their running sums. */
  lemma {:induction false} DrawsByShares(heat: Heat, remaining: seq<nat>, draw: real, i: nat)
    requires IsExponential(heat.exp) && remaining != [] && 0.0 <= draw < 1.0
    ensures var shares := Boltzmann(heat)(remaining);
            Slot(heat.Weigh(), remaining, draw) == i <==> InSlot(shares, Times(draw, Sum(shares)), i)
  {
    var ws, us := Boltzmann(heat)(remaining), heat.Weigh()(remaining);
    var f := WeighIsScaled(heat, remaining);
    hide *;
    PickByShare(heat.Weigh(), remaining, draw, i);
    SumScales(ws, us, f);
    TimesAssoc(draw, Sum(ws), f);
    SlotScales(ws, us, f, Times(draw, Sum(ws)), i);
  }

  lemma {:induction false} SameSlot(heat: Heat, remaining: seq<nat>, draw: real)
    requires IsExponential(heat.exp) && remaining != [] && 0.0 <= draw < 1.0
    ensures Slot(heat.Weigh(), remaining, draw) == Slot(Boltzmann(heat), remaining, draw)
  {
    var i := Slot(heat.Weigh(), remaining, draw);
    hide Slot, InSlot, Boltzmann, IsExponential;
    DrawsByShares(heat, remaining, draw, i);
    PickByShare(Boltzmann(heat), remaining, draw, i);
  }

  /** And so for every pick of a sample. */
  lemma {:induction false} PicksByShares(heat: Heat, unit: UnitDraws, remaining: seq<nat>, k: nat, m: nat)
    requires IsExponential(heat.exp) && forall d :: 0.0 <= unit(d) < 1.0
    ensures PicksBy(WalkRule(heat.Weigh(), unit), remaining, k, m) == PicksBy(WalkRule(Boltzmann(heat), unit), remaining, k, m)
    decreases k
  {
    hide Slot, Boltzmann, IsExponential, SwapRemove;
    if k > 0 && remaining != [] {
      SameSlot(heat, remaining, unit(m));
      var i := Position(WalkRule(heat.Weigh(), unit), remaining, m);
      PicksByShares(heat, unit, SwapRemove(remaining, i), k - 1, m + 1);
    }
  }

  /** A softmax sample is, for every sequence of draws, the one the textbook shares give,
      each pick drawn from what the earlier ones left. */
  lemma {:induction false} SampleByShares(heat: Heat, k: nat, unit: UnitDraws)
    requires heat.scores != [] && IsExponential(heat.exp) && forall d :: 0.0 <= unit(d) < 1.0
    ensures Indices(SoftmaxSelections(heat, k, unit)) ==
              PicksBy(WalkRule(Boltzmann(heat), unit), AllIndices(|heat.scores|), k, 0)
  {
    hide Boltzmann, IsExponential, PicksBy;
    PicksByShares(heat, unit, AllIndices(|heat.scores|), k, 0);
  }
}
