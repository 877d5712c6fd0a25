/** Exploration: sampling paths without replacement, by softmax or epsilon-greedy. */
module Sampling {
  import opened Base
  import opened Sorting

  datatype Policy = Softmax | EpsilonGreedy(epsilon: real)

  datatype Selection = Selection(index: nat, score: real, explored: bool)

  /** `next_below`: any function of `n` that stays below `n`. */
  type BelowFn = f: nat -> nat | forall n :: n > 0 ==> f(n) < n
    ghost witness n => 0

  /** The unit draws one call may take, in order. */
  type UnitDraws = nat -> real

  // ---- the softmax walk -----------------------------------------------------------

  function Sum(ws: seq<real>): real {
    if ws == [] then 0.0 else Sum(ws[..|ws| - 1]) + ws[|ws| - 1]
  }

  /** `target` lies in slot `i`'s cumulative interval. */
  predicate InSlot(ws: seq<real>, target: real, i: nat) {
    i < |ws| && target <= Sum(ws[..i + 1]) && (i == 0 || Sum(ws[..i]) < target)
  }

  lemma {:induction false} SumMono(ws: seq<real>, i: nat, j: nat)
    requires i <= j <= |ws| && forall k :: 0 <= k < |ws| ==> ws[k] > 0.0
    ensures Sum(ws[..i]) <= Sum(ws[..j])
    ensures i < j ==> Sum(ws[..i]) < Sum(ws[..j])
    decreases j
  {
    if i < j {
      SumMono(ws, i, j - 1);
      assert ws[..j][..j - 1] == ws[..j - 1];
    }
  }

  lemma {:induction false} SlotIsUnique(ws: seq<real>, target: real, i: nat, j: nat)
    requires forall k :: 0 <= k < |ws| ==> ws[k] > 0.0
    requires InSlot(ws, target, i) && InSlot(ws, target, j)
    ensures i == j
  {
    if i < j { SumMono(ws, i + 1, j); }
    if j < i { SumMono(ws, j + 1, i); }
  }

  /** The first slot at or after `from` whose cumulative weight reaches the target. */
  function WalkFrom(ws: seq<real>, target: real, from: nat): (slot: nat)
    requires from < |ws|
    ensures from <= slot < |ws|
    decreases |ws| - from
  {
    if from == |ws| - 1 || Sum(ws[..from + 1]) >= target then from else WalkFrom(ws, target, from + 1)
  }

  lemma {:induction false} WalkFromFinds(ws: seq<real>, target: real, from: nat)
    requires from < |ws| && target <= Sum(ws) && (from == 0 || Sum(ws[..from]) < target)
    ensures InSlot(ws, target, WalkFrom(ws, target, from))
    decreases |ws| - from
  {
    assert ws[..|ws|] == ws;
    if !(from == |ws| - 1 || Sum(ws[..from + 1]) >= target) { WalkFromFinds(ws, target, from + 1); }
  }

  /** The walk lands in slot `i` exactly when the target lies in that slot's
      cumulative interval. */
  lemma {:induction false} WalkLandsInSlot(ws: seq<real>, target: real, i: nat)
    requires ws != [] && (forall k :: 0 <= k < |ws| ==> ws[k] > 0.0) && target <= Sum(ws)
    ensures InSlot(ws, target, i) <==> i == WalkFrom(ws, target, 0)
  {
    WalkFromFinds(ws, target, 0);
    if InSlot(ws, target, i) { SlotIsUnique(ws, target, i, WalkFrom(ws, target, 0)); }
  }

  method WalkSlots(ws: seq<real>, target: real) returns (pick: nat)
    requires ws != []
    ensures pick == WalkFrom(ws, target, 0)
  {
    var acc := 0.0;
    pick := |ws| - 1;
    var slot := 0;
    while slot < |ws|
      invariant 0 <= slot <= |ws| && pick == |ws| - 1
      invariant acc == Sum(ws[..slot])
      invariant slot < |ws| ==> WalkFrom(ws, target, 0) == WalkFrom(ws, target, slot)
      invariant slot == |ws| ==> WalkFrom(ws, target, 0) == |ws| - 1
    {
      assert ws[..slot + 1][..slot] == ws[..slot];
      acc := acc + ws[slot];
      if acc >= target {
        pick := slot;
        break;
      }
      slot := slot + 1;
    }
  }

  function MaxOf(scores: seq<real>): real
    requires scores != []
  {
    if |scores| == 1 then scores[0] else RMax(MaxOf(scores[..|scores| - 1]), scores[|scores| - 1])
  }

  /** The first position of greatest score. */
  function ArgMax(scores: seq<real>): (i: nat)
    requires scores != []
    ensures i < |scores|
    ensures forall j :: 0 <= j < |scores| ==> scores[j] <= scores[i]
    ensures forall j :: 0 <= j < i ==> scores[j] < scores[i]
  {
    if |scores| == 1 then 0
    else
      var i := ArgMax(scores[..|scores| - 1]);
      if scores[i] >= scores[|scores| - 1] then i else |scores| - 1
  }

  function SwapRemove<T>(s: seq<T>, i: nat): seq<T>
    requires i < |s|
  {
    if i == |s| - 1 then s[..i] else s[..|s| - 1][i := s[|s| - 1]]
  }

  lemma {:induction false} SwapRemovePermutes<T>(s: seq<T>, i: nat)
    requires i < |s|
    ensures multiset(s) == multiset(SwapRemove(s, i)) + multiset{s[i]}
  {
    var last := |s| - 1;
    assert s == s[..last] + [s[last]];
    if i < last {
      var front := s[..last];
      assert front == front[..i] + [front[i]] + front[i + 1..];
      assert SwapRemove(s, i) == front[..i] + [s[last]] + front[i + 1..];
    }
  }

  lemma {:induction false} SumPositive(ws: seq<real>)
    requires forall k :: 0 <= k < |ws| ==> ws[k] > 0.0
    ensures Sum(ws) >= 0.0 && (ws != [] ==> Sum(ws) > 0.0)
  {
    if ws != [] { SumPositive(ws[..|ws| - 1]); }
  }

  lemma {:induction false} ScaleBelow(draw: real, total: real)
    ensures 0.0 <= draw < 1.0 && total > 0.0 ==> 0.0 <= draw * total < total
  {
  }

  // ---- drawing without replacement -----------------------------------------------------

  /** A rule giving each remaining candidate a weight. */
  type Weighing = seq<nat> -> seq<real>

  ghost predicate IsPositive(weigh: Weighing) {
    forall r :: |weigh(r)| == |r| && forall k :: 0 <= k < |r| ==> weigh(r)[k] > 0.0
  }

  /** The slot a unit draw picks: the walk towards the draw's share of the total. */
  function Slot(weigh: Weighing, remaining: seq<nat>, draw: real): (slot: nat)
    requires remaining != []
    ensures slot < |remaining|
  {
    var ws := weigh(remaining);
    if |ws| == |remaining| then WalkFrom(ws, Scaled(draw, Sum(ws)), 0) else 0
  }

  /** The draw's share of the total. */
  function Scaled(draw: real, total: real): (t: real)
    ensures 0.0 <= draw < 1.0 && total > 0.0 ==> 0.0 <= t < total
  {
    ScaleBelow(draw, total);
    draw * total
  }

  /** A pick is the candidate whose cumulative interval the scaled draw falls in. */
  lemma {:induction false} PickFollowsTheDraw(weigh: Weighing, remaining: seq<nat>, draw: real, i: nat)
    requires IsPositive(weigh) && remaining != [] && 0.0 <= draw < 1.0
    ensures Slot(weigh, remaining, draw) == i
            <==> InSlot(weigh(remaining), draw * Sum(weigh(remaining)), i)
  {
    var ws := weigh(remaining);
    SumPositive(ws);
    assert Scaled(draw, Sum(ws)) == draw * Sum(ws);
    WalkLandsInSlot(ws, Scaled(draw, Sum(ws)), i);
  }

  /** A rule naming the position of pick number `m` among the remaining candidates. */
  type Rule = (seq<nat>, nat) -> nat

  function Position(rule: Rule, remaining: seq<nat>, m: nat): (i: nat)
    requires remaining != []
    ensures i < |remaining|
  {
    if rule(remaining, m) < |remaining| then rule(remaining, m) else 0
  }

  /** `k` picks without replacement, numbered from `m`. */
  function PicksBy(rule: Rule, remaining: seq<nat>, k: nat, m: nat): seq<nat>
    decreases k
  {
    if k == 0 || remaining == [] then []
    else
      var i := Position(rule, remaining, m);
      [remaining[i]] + PicksBy(rule, SwapRemove(remaining, i), k - 1, m + 1)
  }

  lemma {:induction false} PicksAreTaken(rule: Rule, remaining: seq<nat>, k: nat, m: nat)
    ensures var picks := PicksBy(rule, remaining, k, m);
            && multiset(picks) <= multiset(remaining)
            && |picks| == (if k <= |remaining| then k else |remaining|)
    decreases k
  {
    hide Position, SwapRemove;
    if k > 0 && remaining != [] {
      var i := Position(rule, remaining, m);
      var rest := SwapRemove(remaining, i);
      PicksAreTaken(rule, rest, k - 1, m + 1);
      SwapRemovePermutes(remaining, i);
      OneMorePick(remaining, rest, PicksBy(rule, rest, k - 1, m + 1), remaining[i]);
    }
  }

  lemma {:induction false} OneMorePick(remaining: seq<nat>, rest: seq<nat>, later: seq<nat>, x: nat)
    requires multiset(remaining) == multiset(rest) + multiset{x} && multiset(later) <= multiset(rest)
    ensures multiset([x] + later) <= multiset(remaining) && |remaining| == |rest| + 1
  {
    assert multiset([x] + later) == multiset{x} + multiset(later);
    assert |multiset(remaining)| == |multiset(rest)| + 1;
  }

  /** The rule that walks to the unit draw's share of the total weight. */
  function WalkRule(weigh: Weighing, unit: UnitDraws): Rule {
    (remaining: seq<nat>, m: nat) => if remaining == [] then 0 else Slot(weigh, remaining, unit(m))
  }

  method PickSlot(weigh: Weighing, unit: UnitDraws, remaining: seq<nat>, m: nat) returns (pick: nat)
    requires IsPositive(weigh) && remaining != []
    ensures pick == WalkRule(weigh, unit)(remaining, m) && pick < |remaining|
  {
    var weights := weigh(remaining);
    var total := Sum(weights);
    pick := WalkSlots(weights, Scaled(unit(m), total));
  }

  lemma {:induction false} SnocThenRest<T>(front: seq<T>, x: T, rest: seq<T>)
    ensures front + ([x] + rest) == (front + [x]) + rest
  {
  }

  method DrawWithoutReplacement(weigh: Weighing, unit: UnitDraws, n: nat, count: nat) returns (picks: seq<nat>)
    requires IsPositive(weigh)
    ensures picks == PicksBy(WalkRule(weigh, unit), AllIndices(n), count, 0)
  {
    ghost var rule := WalkRule(weigh, unit);
    var remaining := AllIndices(n);
    picks := [];
    while |picks| < count && remaining != []
      invariant |picks| <= count
      invariant picks + PicksBy(rule, remaining, count - |picks|, |picks|) == PicksBy(rule, AllIndices(n), count, 0)
      decreases count - |picks|
    {
      var pick := PickSlot(weigh, unit, remaining, |picks|);
      assert pick == Position(rule, remaining, |picks|);
      var index := remaining[pick];
      remaining := SwapRemove(remaining, pick);
      SnocThenRest(picks, index, PicksBy(rule, remaining, count - |picks| - 1, |picks| + 1));
      picks := picks + [index];
    }
  }

  function AllIndices(n: nat): (r: seq<nat>)
    ensures |r| == n && forall i :: 0 <= i < n ==> r[i] == i
  {
    seq(n, i => i)
  }

  /** Picks that fit inside the candidates are distinct and in range. */
  lemma {:induction false} PicksAreDistinct(n: nat, picks: seq<nat>)
    requires multiset(picks) <= multiset(AllIndices(n))
    ensures NoDup(picks)
    ensures forall i :: 0 <= i < |picks| ==> picks[i] < n
  {
    NoDupByCount(AllIndices(n));
    NoDupByCount(picks);
    forall j | 0 <= j < |picks| ensures picks[j] < n {
      assert picks[j] in multiset(picks);
      assert picks[j] in AllIndices(n);
    }
  }

  // ---- softmax -----------------------------------------------------------------------

  type Positive = r: real | r > 0.0 witness 1.0

  function At(scores: seq<real>, i: nat): real {
    if i < |scores| then scores[i] else 0.0
  }

  /** exp((score - best) / temperature): the maximum is subtracted first. */
  function SoftmaxWeights(scores: seq<real>, temperature: Positive, exp: PositiveFn,
          remaining: seq<nat>): (ws: seq<real>)
    ensures |ws| == |remaining| && forall k :: 0 <= k < |ws| ==> ws[k] > 0.0
  {
    var best := if remaining == [] then 0.0 else MaxOf(Map((i: nat) => At(scores, i), remaining));
    Map((i: nat) => exp((At(scores, i) - best) / temperature), remaining)
  }

  datatype Heat = Heat(scores: seq<real>, temperature: Positive, exp: PositiveFn) {
    function Weigh(): (w: Weighing)
      ensures IsPositive(w)
    {
      (remaining: seq<nat>) => SoftmaxWeights(scores, temperature, exp, remaining)
    }
  }

  function Indices(chosen: seq<Selection>): (r: seq<nat>)
    ensures |r| == |chosen| && forall i :: 0 <= i < |r| ==> r[i] == chosen[i].index
  {
    Map((c: Selection) => c.index, chosen)
  }

  // ---- selections ----------------------------------------------------------------------

  function Label(scores: seq<real>, index: nat, explored: bool): Selection {
    Selection(index, At(scores, index), explored)
  }

  /** What every sampler returns: min(k, n) distinct positions, with their scores. */
  ghost predicate Sampled(scores: seq<real>, chosen: seq<Selection>, k: nat) {
    && |chosen| == (if k <= |scores| then k else |scores|)
    && NoDup(Indices(chosen))
    && forall i :: 0 <= i < |chosen| ==> chosen[i].index < |scores| && chosen[i].score == scores[chosen[i].index]
  }

  /** Exploratory unless it is the best candidate. */
  function LabelAll(scores: seq<real>, best: nat, picks: seq<nat>): (chosen: seq<Selection>)
    ensures |chosen| == |picks|
    ensures forall i :: 0 <= i < |picks| ==> chosen[i] == Label(scores, picks[i], picks[i] != best)
  {
    Map((i: nat) => Label(scores, i, i != best), picks)
  }

  function SoftmaxSelections(heat: Heat, k: nat, unit: UnitDraws): (chosen: seq<Selection>)
    requires heat.scores != []
  {
    LabelAll(heat.scores, ArgMax(heat.scores), PicksBy(WalkRule(heat.Weigh(), unit), AllIndices(|heat.scores|), k, 0))
  }

  lemma {:induction false} LabelledPicks(scores: seq<real>, best: nat, picks: seq<nat>, k: nat)
    requires |picks| == (if k <= |scores| then k else |scores|)
    requires multiset(picks) <= multiset(AllIndices(|scores|))
    ensures var chosen := LabelAll(scores, best, picks);
            && Sampled(scores, chosen, k)
            && (forall i :: 0 <= i < |chosen| ==> (chosen[i].explored <==> chosen[i].index != best))
            && (forall i, j :: 0 <= i < j < |chosen| ==> chosen[i].explored || chosen[j].explored)
  {
    PicksAreDistinct(|scores|, picks);
    var chosen := LabelAll(scores, best, picks);
    assert Indices(chosen) == picks;
    forall i, j | 0 <= i < j < |chosen| ensures chosen[i].explored || chosen[j].explored {
      assert picks[i] != picks[j];
    }
  }

  /** Softmax sampling returns exactly min(k, n) distinct candidates; a pick is
      exploratory unless it is the best one, so at most one is not. */
  lemma {:induction false} SoftmaxIsSound(heat: Heat, k: nat, unit: UnitDraws)
    requires heat.scores != []
    ensures var chosen := SoftmaxSelections(heat, k, unit);
            && Sampled(heat.scores, chosen, k)
            && (forall i :: 0 <= i < |chosen| ==> (chosen[i].explored <==> chosen[i].index != ArgMax(heat.scores)))
            && (forall i, j :: 0 <= i < j < |chosen| ==> chosen[i].explored || chosen[j].explored)
  {
    var n := |heat.scores|;
    var rule := WalkRule(heat.Weigh(), unit);
    PicksAreTaken(rule, AllIndices(n), k, 0);
    LabelledPicks(heat.scores, ArgMax(heat.scores), PicksBy(rule, AllIndices(n), k, 0), k);
  }

  method SoftmaxSample(heat: Heat, count: nat, unit: UnitDraws) returns (chosen: seq<Selection>)
    requires heat.scores != []
    ensures chosen == SoftmaxSelections(heat, count, unit)
  {
    var best := ArgMax(heat.scores);
    var picks := DrawWithoutReplacement(heat.Weigh(), unit, |heat.scores|, count);
    chosen := LabelAll(heat.scores, best, picks);
  }

  // ---- epsilon-greedy ----------------------------------------------------------------

  predicate RanksBefore(scores: seq<real>, a: nat, b: nat) {
    At(scores, a) > At(scores, b) || (At(scores, a) == At(scores, b) && a <= b)
  }

  /** All candidates, best score first, ties by position. */
  function Ranking(scores: seq<real>): (r: seq<nat>)
    ensures |r| == |scores| && multiset(r) == multiset(AllIndices(|scores|))
  {
    var leq := (a: nat, b: nat) => RanksBefore(scores, a, b);
    SortPermutes(AllIndices(|scores|), leq);
    Sort(AllIndices(|scores|), leq)
  }

  lemma {:induction false} RankingSorts(scores: seq<real>, i: nat, j: nat)
    requires i < j < |scores|
    ensures RanksBefore(scores, Ranking(scores)[i], Ranking(scores)[j])
  {
    var leq := (a: nat, b: nat) => RanksBefore(scores, a, b);
    assert TotalPreorder(leq);
    SortSorts(AllIndices(|scores|), leq);
    assert leq(Ranking(scores)[i], Ranking(scores)[j]);
  }

  predicate Explores(scores: seq<real>, k: nat, epsilon: real, unit: UnitDraws) {
    unit(0) < epsilon && |scores| > k
  }

  /** The candidate drawn uniformly from outside the top k. */
  function Substitute(scores: seq<real>, k: nat, below: BelowFn): (i: nat)
    requires k < |scores|
  {
    Ranking(scores)[k..][below(|scores| - k)]
  }

  function EpsilonPicks(scores: seq<real>, k: nat, epsilon: real, unit: UnitDraws, below: BelowFn): seq<nat>
    requires 0 < k <= |scores|
  {
    if Explores(scores, k, epsilon, unit)
    then Ranking(scores)[..k][k - 1 := Substitute(scores, k, below)]
    else Ranking(scores)[..k]
  }

  function EpsilonSelections(scores: seq<real>, count: nat, epsilon: real, unit: UnitDraws,
          below: BelowFn): seq<Selection>
    requires 0 < count && scores != []
  {
    var k := if count <= |scores| then count else |scores|;
    var special := if Explores(scores, k, epsilon, unit) then Some(Substitute(scores, k, below)) else None;
    Map((i: nat) => Label(scores, i, Some(i) == special), EpsilonPicks(scores, k, epsilon, unit, below))
  }

  lemma {:induction false} EpsilonPicksFit(scores: seq<real>, k: nat, epsilon: real, unit: UnitDraws, below: BelowFn)
    requires 0 < k <= |scores|
    ensures multiset(EpsilonPicks(scores, k, epsilon, unit, below)) <= multiset(AllIndices(|scores|))
    ensures EpsilonPicks(scores, k, epsilon, unit, below)[..k - 1] == Ranking(scores)[..k - 1]
  {
    var r := Ranking(scores);
    assert r == r[..k] + r[k..];
    assert r[..k] == r[..k - 1] + [r[k - 1]];
    if Explores(scores, k, epsilon, unit) {
      var pool, pick := r[k..], below(|scores| - k);
      assert pool == pool[..pick] + [pool[pick]] + pool[pick + 1..];
      assert EpsilonPicks(scores, k, epsilon, unit, below) == r[..k - 1] + [pool[pick]];
    }
  }

  /** Epsilon-greedy returns min(k, n) distinct candidates, always keeps the k - 1 best, and
      explores exactly if there are more than k and the draw is below epsilon: then the last
      is the drawn one of those outside the k best, and otherwise it is the k-th best. */
  lemma {:induction false} EpsilonIsSound(scores: seq<real>, count: nat, epsilon: real, unit: UnitDraws, below: BelowFn)
    requires 0 < count && scores != []
    ensures var chosen := EpsilonSelections(scores, count, epsilon, unit, below);
            && Sampled(scores, chosen, count)
            && (forall i :: 0 <= i < |chosen| - 1 ==> chosen[i].index == Ranking(scores)[i] && !chosen[i].explored)
            && (forall i, j :: 0 <= i < |chosen| - 1 && 0 <= j < |scores| && j !in Indices(chosen)
                  ==> chosen[i].score >= scores[j])
            && var last := chosen[|chosen| - 1];
            && (last.explored <==> |scores| > count && unit(0) < epsilon)
            && last.index == Ranking(scores)[if last.explored then count + below(|scores| - count) else |chosen| - 1]
  {
    var k := if count <= |scores| then count else |scores|;
    var picks := EpsilonPicks(scores, k, epsilon, unit, below);
    var chosen := EpsilonSelections(scores, count, epsilon, unit, below);
    EpsilonPicksFit(scores, k, epsilon, unit, below);
    PicksAreDistinct(|scores|, picks);
    assert Indices(chosen) == picks;
    forall i | 0 <= i < k - 1 ensures chosen[i].index == Ranking(scores)[i] && !chosen[i].explored {
      assert picks[i] == picks[..k - 1][i];
      assert picks[i] != picks[k - 1];
    }
    forall i, j | 0 <= i < k - 1 && 0 <= j < |scores| && j !in picks ensures chosen[i].score >= scores[j] {
      KeptOutranks(scores, k, picks, i, j);
    }
  }

  lemma {:induction false} KeptOutranks(scores: seq<real>, k: nat, picks: seq<nat>, i: nat, j: nat)
    requires 0 < k <= |scores| && |picks| == k && picks[..k - 1] == Ranking(scores)[..k - 1]
    requires i < k - 1 && j < |scores| && j !in picks
    ensures At(scores, picks[i]) >= scores[j]
  {
    var r := Ranking(scores);
    assert AllIndices(|scores|)[j] == j;
    assert j in multiset(r);
    var m :| 0 <= m < |r| && r[m] == j;
    forall l | 0 <= l < k - 1 ensures picks[l] == r[l] {
      assert picks[l] == picks[..k - 1][l] == r[..k - 1][l];
    }
    RankingSorts(scores, i, m);
  }

  method EpsilonGreedySample(scores: seq<real>, count: nat, epsilon: real, unit: UnitDraws,
          below: BelowFn)
    returns (chosen: seq<Selection>)
    requires 0 < count && scores != []
    ensures chosen == EpsilonSelections(scores, count, epsilon, unit, below)
  {
    hide Label;
    var k := if count <= |scores| then count else |scores|;
    var order := Ranking(scores);
    var picks := order[..k];
    var exploredIndex := None;
    if unit(0) < epsilon && |order| > k {
      var pool := order[k..];
      var swappedIn := pool[below(|pool|)];
      picks := picks[k - 1 := swappedIn];
      exploredIndex := Some(swappedIn);
    }
    chosen := Map((i: nat) => Label(scores, i, Some(i) == exploredIndex), picks);
  }

  // ---- both policies, best score first ---------------------------------------------------

  predicate ScoresAtLeast(a: Selection, b: Selection) {
    a.score >= b.score
  }

  function Picked(heat: Heat, k: nat, policy: Policy, unit: UnitDraws, below: BelowFn): seq<Selection>
  {
    if heat.scores == [] || k == 0 then []
    else match policy
      case Softmax => SoftmaxSelections(heat, k, unit)
      case EpsilonGreedy(epsilon) => EpsilonSelections(heat.scores, k, epsilon, unit, below)
  }

  function Paths(heat: Heat, k: nat, policy: Policy, unit: UnitDraws, below: BelowFn): seq<Selection>
  {
    Sort(Picked(heat, k, policy, unit, below), ScoresAtLeast)
  }

  method SamplePaths(heat: Heat, k: nat, policy: Policy, unit: UnitDraws, below: BelowFn) returns (out: seq<Selection>)
    ensures out == Paths(heat, k, policy, unit, below)
  {
    if heat.scores == [] || k == 0 {
      return [];
    }
    match policy {
      case Softmax => out := SoftmaxSample(heat, k, unit);
      case EpsilonGreedy(epsilon) => out := EpsilonGreedySample(heat.scores, k, epsilon, unit, below);
    }
    out := Sort(out, ScoresAtLeast);
  }

  lemma {:induction false} SortKeepsSampled(scores: seq<real>, chosen: seq<Selection>, k: nat)
    requires Sampled(scores, chosen, k)
    ensures Sampled(scores, Sort(chosen, ScoresAtLeast), k)
    ensures multiset(Sort(chosen, ScoresAtLeast)) == multiset(chosen)
  {
    var out := Sort(chosen, ScoresAtLeast);
    SortPermutes(chosen, ScoresAtLeast);
    MapPermutes((c: Selection) => c.index, chosen, out);
    NoDupByCount(Indices(chosen));
    NoDupByCount(Indices(out));
    forall i | 0 <= i < |out| ensures out[i].index < |scores| && out[i].score == scores[out[i].index] {
      assert out[i] in multiset(out);
      assert out[i] in chosen;
    }
  }

  /** For any draws and either policy: exactly min(k, n) distinct candidates in
      descending score order, and they are the ones the policy picked. */
  lemma {:induction false} PathsAreSound(heat: Heat, k: nat, policy: Policy, unit: UnitDraws, below: BelowFn)
    ensures Sampled(heat.scores, Paths(heat, k, policy, unit, below), k)
    ensures SortedBy(Paths(heat, k, policy, unit, below), ScoresAtLeast)
    ensures multiset(Paths(heat, k, policy, unit, below)) == multiset(Picked(heat, k, policy, unit, below))
  {
    var picked := Picked(heat, k, policy, unit, below);
    if heat.scores != [] && k > 0 {
      match policy {
        case Softmax => SoftmaxIsSound(heat, k, unit);
        case EpsilonGreedy(epsilon) => EpsilonIsSound(heat.scores, k, epsilon, unit, below);
      }
    }
    SortKeepsSampled(heat.scores, picked, k);
    SortSorts(picked, ScoresAtLeast);
  }
}
