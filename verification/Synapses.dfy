/** Synapses: the lifecycle, the learning update, and pruning on repeated signature
    failures within one influence window. */
module Synapses {
  import opened Base
  import opened Learning

  const U32_MAX: nat := 0xFFFF_FFFF

  datatype SynapseState = Forming | Active | Weakening | Dormant | Pruned {
    predicate CanCarry() {
      Active? || Weakening?
    }
  }

  datatype SynapseConfig = SynapseConfig(
    initialWeight: real,
    maxWeight: real,
    activeThreshold: real,
    dormancyThreshold: real)

  /** The learned state of a synapse, as the store keeps it. */
  datatype SynapseRecord = SynapseRecord(
    id: SynapseId,
    peer: NodeId,
    weight: real,
    state: SynapseState,
    lastActive: u64,
    signatureFailures: nat,
    failureWindowStart: u64)

  // ---- the lifecycle as functions on records ---------------------------------------

  function StateForWeight(state: SynapseState, weight: real, sc: SynapseConfig): SynapseState {
    if state.Pruned? || state.Forming? then state
    else if weight >= sc.activeThreshold then Active
    else if weight >= sc.dormancyThreshold then Weakening
    else Dormant
  }

  function WithState(r: SynapseRecord, sc: SynapseConfig): SynapseRecord {
    r.(state := StateForWeight(r.state, r.weight, sc))
  }

  function Activated(r: SynapseRecord): SynapseRecord {
    if r.state.Forming? then r.(state := Active) else r
  }

  function Reactivated(r: SynapseRecord, sc: SynapseConfig): SynapseRecord {
    if r.state.Dormant? then r.(weight := sc.initialWeight, state := Active) else r
  }

  function AfterOutcome(r: SynapseRecord, outcome: Outcome, signalWeight: real, used: real,
          sc: SynapseConfig, lc: LearningConfig): (SynapseRecord, WeightUpdate)
  {
    var update := ApplyReward(r.weight, outcome, signalWeight, used, lc);
    (WithState(r.(weight := RMin(update.after, sc.maxWeight)), sc), update)
  }

  /** The count and window after one more signature failure. */
  function CountFailure(r: SynapseRecord, now: u64, lc: LearningConfig): (nat, u64) {
    if r.failureWindowStart < lc.InfluenceWindowStart(now) then (1, now)
    else (if r.signatureFailures < U32_MAX then r.signatureFailures + 1 else U32_MAX, r.failureWindowStart)
  }

  datatype FailureOutcome = FailureOutcome(failuresInWindow: nat, pruned: bool)

  function AfterSignatureFailure(r: SynapseRecord, now: u64, sc: SynapseConfig, lc: LearningConfig): (SynapseRecord,
          FailureOutcome)
  {
    var (count, start) := CountFailure(r, now, lc);
    var r1 := r.(weight := ApplySignaturePenalty(r.weight, lc), signatureFailures := count, failureWindowStart := start);
    if count >= lc.signatureFailurePruneThreshold
    then (r1.(state := Pruned, lastActive := now), FailureOutcome(count, true))
    else (WithState(r1, sc), FailureOutcome(count, false))
  }

  // ---- the same, in place -------------------------------------------------------------

  class Synapse {
    const config: SynapseConfig
    const id: SynapseId
    const remoteNode: NodeId
    var weight: real
    var state: SynapseState
    var lastActive: u64
    var signatureFailures: nat
    var failureWindowStart: u64

    function ToRecord(): SynapseRecord
      reads this
    {
      SynapseRecord(id, remoteNode, weight, state, lastActive, signatureFailures, failureWindowStart)
    }

    constructor FromRecord(r: SynapseRecord, config: SynapseConfig)
      ensures ToRecord() == r && this.config == config
    {
      this.config := config;
      id, remoteNode := r.id, r.peer;
      weight, state, lastActive := r.weight, r.state, r.lastActive;
      signatureFailures, failureWindowStart := r.signatureFailures, r.failureWindowStart;
    }

    method UpdateState()
      modifies this`state
      ensures ToRecord() == WithState(old(ToRecord()), config)
    {
      if state.Pruned? || state.Forming? {
        return;
      }
      if weight >= config.activeThreshold {
        state := Active;
      } else if weight >= config.dormancyThreshold {
        state := Weakening;
      } else {
        state := Dormant;
      }
    }

    method Activate()
      modifies this`state
      ensures ToRecord() == Activated(old(ToRecord()))
    {
      if state.Forming? {
        state := Active;
      }
    }

    method Reactivate()
      modifies this
      ensures ToRecord() == Reactivated(old(ToRecord()), config)
    {
      if state.Dormant? {
        weight := config.initialWeight;
        state := Active;
      }
    }

    method ApplyOutcome(outcome: Outcome, signalWeight: real, influenceUsed: real, learning: LearningConfig)
      returns (update: WeightUpdate)
      modifies this
      ensures (ToRecord(), update) == AfterOutcome(old(ToRecord()), outcome, signalWeight, influenceUsed, config, learning)
    {
      update := ApplyReward(weight, outcome, signalWeight, influenceUsed, learning);
      weight := RMin(update.after, config.maxWeight);
      UpdateState();
    }

    method ApplySignatureFailure(now: u64, learning: LearningConfig) returns (result: FailureOutcome)
      modifies this
      ensures (ToRecord(), result) == AfterSignatureFailure(old(ToRecord()), now, config, learning)
    {
      weight := ApplySignaturePenalty(weight, learning);
      var windowStart := learning.InfluenceWindowStart(now);
      if failureWindowStart < windowStart {
        failureWindowStart := now;
        signatureFailures := 1;
      } else if signatureFailures < U32_MAX {
        signatureFailures := signatureFailures + 1;
      } else {
        signatureFailures := U32_MAX;
      }
      if signatureFailures >= learning.signatureFailurePruneThreshold {
        state := Pruned;
        lastActive := now;
        return FailureOutcome(signatureFailures, true);
      }
      UpdateState();
      result := FailureOutcome(signatureFailures, false);
    }
  }

  // ---- pruning: how many failures, how close together ------------------------------

  /** A synapse after signature failures at the given clock readings. */
  function AfterFailures(r: SynapseRecord, times: seq<u64>, sc: SynapseConfig, lc: LearningConfig): SynapseRecord
    decreases |times|
  {
    if times == [] then r else AfterFailures(AfterSignatureFailure(r, times[0], sc, lc).0, times[1..], sc, lc)
  }

  predicate NonDecreasing(times: seq<u64>) {
    forall i, j :: 0 <= i < j < |times| ==> times[i] <= times[j]
  }

  /** The standing count is at most the failures seen, the latest of which are the ones
      it counts, none before the window began. */
  ghost predicate CountsRecent(r: SynapseRecord, seen: seq<u64>) {
    && r.signatureFailures <= |seen|
    && (forall i :: |seen| - r.signatureFailures <= i < |seen| ==> seen[i] >= r.failureWindowStart)
    && r.failureWindowStart <= (if seen == [] then 0 else seen[|seen| - 1])
  }

  ghost predicate PrunedByBurst(times: seq<u64>, lc: LearningConfig) {
    var k := if lc.signatureFailurePruneThreshold == 0 then 1 else lc.signatureFailurePruneThreshold;
    k <= |times| && times[|times| - k] >= lc.InfluenceWindowStart(times[|times| - 1])
  }

  /** One more failure keeps the count honest; if it prunes, at least k failures lie
      within one influence window ending now. */
  lemma {:induction false} FailureIsCounted(r: SynapseRecord, seen: seq<u64>, now: u64, sc: SynapseConfig,
          lc: LearningConfig)
    requires CountsRecent(r, seen) && NonDecreasing(seen + [now]) && lc.signatureFailurePruneThreshold <= U32_MAX
    ensures var (r', out) := AfterSignatureFailure(r, now, sc, lc);
            && CountsRecent(r', seen + [now])
            && (out.pruned ==> PrunedByBurst(seen + [now], lc))
            && (!out.pruned && !r.state.Pruned? ==> !r'.state.Pruned?)
            && (out.pruned ==> r'.state.Pruned? && r'.lastActive == now)
  {
    var (r', out) := AfterSignatureFailure(r, now, sc, lc);
    var all := seen + [now];
    assert all[|all| - 1] == now;
    forall i | 0 <= i < |seen| ensures seen[i] == all[i] <= now {}
    forall i | |all| - r'.signatureFailures <= i < |all| ensures all[i] >= r'.failureWindowStart {
      if i < |seen| { assert all[i] == seen[i]; }
    }
  }

  /** A synapse that starts with a clear count is pruned only by a burst: at least k
      signature failures no further apart than one influence window. */
  lemma {:induction false} PruneNeedsABurst(r: SynapseRecord, seen: seq<u64>, times: seq<u64>, sc: SynapseConfig,
          lc: LearningConfig)
    requires CountsRecent(r, seen) && !r.state.Pruned? && NonDecreasing(seen + times)
    requires lc.signatureFailurePruneThreshold <= U32_MAX
    requires AfterFailures(r, times, sc, lc).state.Pruned?
    ensures exists n :: |seen| < n <= |seen + times| && PrunedByBurst((seen + times)[..n], lc)
    decreases |times|
  {
    assert times != [];
    var now := times[0];
    var (r', out) := AfterSignatureFailure(r, now, sc, lc);
    assert seen + times == (seen + [now]) + times[1..];
    assert (seen + times)[..|seen| + 1] == seen + [now];
    forall i, j | 0 <= i < j < |seen + [now]| ensures (seen + [now])[i] <= (seen + [now])[j] {
      assert (seen + times)[i] <= (seen + times)[j];
    }
    FailureIsCounted(r, seen, now, sc, lc);
    if !out.pruned {
      PruneNeedsABurst(r', seen + [now], times[1..], sc, lc);
    }
  }

  /** Once pruned, no failure brings a synapse back. */
  lemma {:induction false} PrunedStays(r: SynapseRecord, times: seq<u64>, sc: SynapseConfig, lc: LearningConfig)
    requires r.state.Pruned?
    ensures AfterFailures(r, times, sc, lc).state.Pruned?
    decreases |times|
  {
    if times != [] { PrunedStays(AfterSignatureFailure(r, times[0], sc, lc).0, times[1..], sc, lc); }
  }

  /** No further reset: the window already covers every remaining failure. */
  lemma {:induction false} CountReaches(r: SynapseRecord, times: seq<u64>, sc: SynapseConfig, lc: LearningConfig)
    requires times != [] && NonDecreasing(times) && lc.signatureFailurePruneThreshold <= U32_MAX
    requires r.failureWindowStart >= lc.InfluenceWindowStart(times[|times| - 1])
    requires r.signatureFailures + |times| >= lc.signatureFailurePruneThreshold
    ensures AfterFailures(r, times, sc, lc).state.Pruned?
    decreases |times|
  {
    var (r', out) := AfterSignatureFailure(r, times[0], sc, lc);
    assert lc.InfluenceWindowStart(times[0]) <= lc.InfluenceWindowStart(times[|times| - 1]);
    if out.pruned {
      PrunedStays(r', times[1..], sc, lc);
    } else {
      CountReaches(r', times[1..], sc, lc);
    }
  }

  /** Failures inside one influence window prune as soon as they and the standing
      count together reach 2k - 1. */
  lemma {:induction false} WindowedBurstPrunes(r: SynapseRecord, times: seq<u64>, sc: SynapseConfig, lc: LearningConfig)
    requires NonDecreasing(times) && 1 <= lc.signatureFailurePruneThreshold <= U32_MAX
    requires times != [] && lc.InfluenceWindowStart(times[|times| - 1]) <= times[0]
    requires r.signatureFailures < lc.signatureFailurePruneThreshold
    requires r.signatureFailures + |times| >= 2 * lc.signatureFailurePruneThreshold - 1
    ensures AfterFailures(r, times, sc, lc).state.Pruned?
    decreases |times|
  {
    var (r', out) := AfterSignatureFailure(r, times[0], sc, lc);
    if out.pruned {
      PrunedStays(r', times[1..], sc, lc);
    } else if r.failureWindowStart < lc.InfluenceWindowStart(times[0]) {
      CountReaches(r', times[1..], sc, lc);
    } else {
      WindowedBurstPrunes(r', times[1..], sc, lc);
    }
  }

  /** Any 2k - 1 failures within one influence window force a prune, whatever the
      synapse's history. */
  lemma {:induction false} BurstForcesPrune(r: SynapseRecord, times: seq<u64>, sc: SynapseConfig, lc: LearningConfig)
    requires NonDecreasing(times) && 1 <= lc.signatureFailurePruneThreshold <= U32_MAX
    requires r.signatureFailures < lc.signatureFailurePruneThreshold
    requires |times| >= 2 * lc.signatureFailurePruneThreshold - 1
    requires lc.InfluenceWindowStart(times[|times| - 1]) <= times[0]
    ensures AfterFailures(r, times, sc, lc).state.Pruned?
  {
    WindowedBurstPrunes(r, times, sc, lc);
  }

  /** Once the clock is past the first influence window, 2k - 2 already do, for k of
      at least two: the window is anchored at a failure that it also counts. */
  lemma {:induction false} LateBurstForcesPrune(r: SynapseRecord, times: seq<u64>, sc: SynapseConfig,
          lc: LearningConfig)
    requires NonDecreasing(times) && 2 <= lc.signatureFailurePruneThreshold <= U32_MAX
    requires r.signatureFailures < lc.signatureFailurePruneThreshold
    requires r.signatureFailures == 0 ==> r.failureWindowStart == 0
    requires |times| >= 2 * lc.signatureFailurePruneThreshold - 2
    requires times[0] > lc.InfluenceWindow()
    requires lc.InfluenceWindowStart(times[|times| - 1]) <= times[0]
    ensures AfterFailures(r, times, sc, lc).state.Pruned?
  {
    if r.signatureFailures > 0 {
      WindowedBurstPrunes(r, times, sc, lc);
    } else {
      var (r', out) := AfterSignatureFailure(r, times[0], sc, lc);
      CountReaches(r', times[1..], sc, lc);
    }
  }

  // ---- the counts are least --------------------------------------------------------

  function Repeat(x: u64, n: nat): seq<u64> {
    seq(n, _ => x)
  }

  lemma {:induction false} AfterMoreFailures(r: SynapseRecord, a: seq<u64>, b: seq<u64>, sc: SynapseConfig,
          lc: LearningConfig)
    ensures AfterFailures(r, a + b, sc, lc) == AfterFailures(AfterFailures(r, a, sc, lc), b, sc, lc)
    decreases |a|
  {
    if a == [] {
      assert a + b == b;
    } else {
      assert (a + b)[0] == a[0] && (a + b)[1..] == a[1..] + b;
      AfterMoreFailures(AfterSignatureFailure(r, a[0], sc, lc).0, a[1..], b, sc, lc);
    }
  }

  /** Failures at one reading inside the standing window add to the count. */
  lemma {:induction false} WindowCountsUp(r: SynapseRecord, t: u64, n: nat, sc: SynapseConfig, lc: LearningConfig)
    requires !r.state.Pruned? && r.failureWindowStart >= lc.InfluenceWindowStart(t)
    requires r.signatureFailures + n < lc.signatureFailurePruneThreshold <= U32_MAX
    ensures var r' := AfterFailures(r, Repeat(t, n), sc, lc);
            !r'.state.Pruned? && r'.failureWindowStart == r.failureWindowStart && r'.signatureFailures == r.signatureFailures + n
    decreases n
  {
    if n > 0 {
      assert Repeat(t, n)[1..] == Repeat(t, n - 1);
      WindowCountsUp(AfterSignatureFailure(r, t, sc, lc).0, t, n - 1, sc, lc);
    }
  }

  /** Failures at one reading past the standing window start a new count. */
  lemma {:induction false} WindowStartsAnew(r: SynapseRecord, t: u64, n: nat, sc: SynapseConfig, lc: LearningConfig)
    requires !r.state.Pruned? && r.failureWindowStart < lc.InfluenceWindowStart(t)
    requires n < lc.signatureFailurePruneThreshold <= U32_MAX
    ensures !AfterFailures(r, Repeat(t, n), sc, lc).state.Pruned?
  {
    if n > 0 {
      assert Repeat(t, n)[1..] == Repeat(t, n - 1);
      WindowCountsUp(AfterSignatureFailure(r, t, sc, lc).0, t, n - 1, sc, lc);
    }
  }

  /** A burst across the end of the standing window: `m` failures at its last reading and
      one fewer than the threshold just after it. */
  function Straddling(t: u64, m: nat, k: nat): seq<u64>
    requires t < U64_MAX && k >= 1
  {
    Repeat(t, m) + Repeat(t + 1, k - 1)
  }

  lemma {:induction false} StraddlingHolds(r: SynapseRecord, t: u64, m: nat, sc: SynapseConfig, lc: LearningConfig)
    requires !r.state.Pruned? && t < U64_MAX && 1 <= lc.signatureFailurePruneThreshold <= U32_MAX
    requires lc.InfluenceWindowStart(t) <= r.failureWindowStart < lc.InfluenceWindowStart(t + 1)
    requires r.signatureFailures + m < lc.signatureFailurePruneThreshold
    ensures !AfterFailures(r, Straddling(t, m, lc.signatureFailurePruneThreshold), sc, lc).state.Pruned?
  {
    AfterMoreFailures(r, Repeat(t, m), Repeat(t + 1, lc.signatureFailurePruneThreshold - 1), sc, lc);
    WindowCountsUp(r, t, m, sc, lc);
    WindowStartsAnew(AfterFailures(r, Repeat(t, m), sc, lc), t + 1, lc.signatureFailurePruneThreshold - 1, sc, lc);
  }

  /** A synapse never failed before. */
  ghost predicate IsClear(r: SynapseRecord) {
    !r.state.Pruned? && r.signatureFailures == 0 && r.failureWindowStart == 0
  }

  /** A burst: failures in clock order, all within one influence window. */
  ghost predicate IsBurst(times: seq<u64>, lc: LearningConfig) {
    NonDecreasing(times) && (times != [] ==> lc.InfluenceWindowStart(times[|times| - 1]) <= times[0])
  }

  /** 2k - 1 is least: for every threshold k and window, a burst of 2k - 2 failures while
      the clock is still in its first window leaves a clear synapse in place. The window is
      anchored at its first failure and does not slide. */
  lemma {:induction false} EarlyBurstHolds(r: SynapseRecord, sc: SynapseConfig, lc: LearningConfig)
    requires IsClear(r) && 1 <= lc.signatureFailurePruneThreshold <= U32_MAX && 1 <= lc.InfluenceWindow() < U64_MAX
    ensures var k := lc.signatureFailurePruneThreshold;
            var times := Straddling(lc.InfluenceWindow(), k - 1, k);
            |times| == 2 * k - 2 && IsBurst(times, lc) && !AfterFailures(r, times, sc, lc).state.Pruned?
  {
    StraddlingHolds(r, lc.InfluenceWindow(), lc.signatureFailurePruneThreshold - 1, sc, lc);
  }

  /** And later on 2k - 2 is least: after one failure at any F past the first window, a
      burst of 2k - 3 more leaves the synapse in place. */
  lemma {:induction false} LateBurstHolds(r: SynapseRecord, first: u64, sc: SynapseConfig, lc: LearningConfig)
    requires IsClear(r) && 2 <= lc.signatureFailurePruneThreshold <= U32_MAX && 1 <= lc.InfluenceWindow()
    requires lc.InfluenceWindow() < first && first + lc.InfluenceWindow() < U64_MAX
    ensures var k := lc.signatureFailurePruneThreshold;
            var times := Straddling(first + lc.InfluenceWindow(), k - 2, k);
            var r1 := AfterFailures(r, [first], sc, lc);
            && |times| == 2 * k - 3 && times[0] > lc.InfluenceWindow() && IsBurst(times, lc)
            && r1.signatureFailures == 1 && !AfterFailures(r1, times, sc, lc).state.Pruned?
  {
    var r1 := AfterFailures(r, [first], sc, lc);
    assert [first][1..] == [] && AfterFailures(AfterSignatureFailure(r, first, sc, lc).0, [], sc, lc) == r1;
    StraddlingHolds(r1, first + lc.InfluenceWindow(), lc.signatureFailurePruneThreshold - 2, sc, lc);
  }

  // ---- how many failures are enough --------------------------------------------------

  /** Every burst of `n` failures prunes, whatever count below the threshold stands. */
  ghost predicate SufficeToPrune(n: nat, sc: SynapseConfig, lc: LearningConfig) {
    forall r: SynapseRecord, times: seq<u64> ::
      r.signatureFailures < lc.signatureFailurePruneThreshold && IsBurst(times, lc) && |times| == n
      ==> AfterFailures(r, times, sc, lc).state.Pruned?
  }

  /** With a window that never lapses, or of no length, k failures are enough. */
  lemma {:induction false} DegenerateBurstPrunes(r: SynapseRecord, times: seq<u64>, sc: SynapseConfig,
          lc: LearningConfig)
    requires 1 <= lc.signatureFailurePruneThreshold <= U32_MAX && IsBurst(times, lc)
    requires r.signatureFailures < lc.signatureFailurePruneThreshold <= |times|
    requires lc.InfluenceWindow() == 0 || lc.InfluenceWindow() == U64_MAX
    ensures AfterFailures(r, times, sc, lc).state.Pruned?
  {
    var last := times[|times| - 1];
    if r.failureWindowStart >= lc.InfluenceWindowStart(last) {
      CountReaches(r, times, sc, lc);
    } else {
      assert lc.InfluenceWindow() == 0 && times[0] == last;
      var (r', out) := AfterSignatureFailure(r, times[0], sc, lc);
      if out.pruned { PrunedStays(r', times[1..], sc, lc); } else { CountReaches(r', times[1..], sc, lc); }
    }
  }

  /** 2k - 1, unless the window has no length or spans the whole clock. */
  function LeastBurst(lc: LearningConfig): nat
    requires lc.signatureFailurePruneThreshold >= 1
  {
    var k := lc.signatureFailurePruneThreshold;
    if 1 <= lc.InfluenceWindow() < U64_MAX then 2 * k - 1 else k
  }

  /** Exactly how many failures within one influence window always prune: 2k - 1, unless the
      window has no length or spans the whole clock, when k do. */
  lemma {:induction false} EnoughToPruneIff(n: nat, sc: SynapseConfig, lc: LearningConfig)
    requires 1 <= lc.signatureFailurePruneThreshold <= U32_MAX
    ensures SufficeToPrune(n, sc, lc) <==> n >= LeastBurst(lc)
  {
    var k := lc.signatureFailurePruneThreshold;
    var w := lc.InfluenceWindow();
    var clear := SynapseRecord(0, 0, 0.0, Active, 0, 0, 0);
    if n >= LeastBurst(lc) {
      forall r: SynapseRecord, times: seq<u64>
        | r.signatureFailures < k && IsBurst(times, lc) && |times| == n
        ensures AfterFailures(r, times, sc, lc).state.Pruned?
      {
        if 1 <= w < U64_MAX { BurstForcesPrune(r, times, sc, lc); } else { DegenerateBurstPrunes(r, times, sc, lc); }
      }
    } else {
      var times := if 1 <= w < U64_MAX then Straddling(w, k - 1, k)[..n] else Repeat(0, n);
      ShortBurstHolds(clear, n, sc, lc);
      assert !AfterFailures(clear, times, sc, lc).state.Pruned?;
    }
  }

  lemma {:induction false} FewerHold(r: SynapseRecord, times: seq<u64>, n: nat, sc: SynapseConfig, lc: LearningConfig)
    requires IsBurst(times, lc) && n <= |times| && !AfterFailures(r, times, sc, lc).state.Pruned?
    ensures IsBurst(times[..n], lc) && !AfterFailures(r, times[..n], sc, lc).state.Pruned?
  {
    assert times[..n] + times[n..] == times;
    AfterMoreFailures(r, times[..n], times[n..], sc, lc);
    if AfterFailures(r, times[..n], sc, lc).state.Pruned? {
      PrunedStays(AfterFailures(r, times[..n], sc, lc), times[n..], sc, lc);
    }
    if 0 < n < |times| { assert times[n - 1] <= times[|times| - 1]; }
    hide AfterFailures;
  }

  lemma {:induction false} ShortBurstHolds(r: SynapseRecord, n: nat, sc: SynapseConfig, lc: LearningConfig)
    requires IsClear(r) && 1 <= lc.signatureFailurePruneThreshold <= U32_MAX
    requires n < LeastBurst(lc)
    ensures var k := lc.signatureFailurePruneThreshold;
            var w := lc.InfluenceWindow();
            var times := if 1 <= w < U64_MAX then Straddling(w, k - 1, k)[..n] else Repeat(0, n);
            |times| == n && IsBurst(times, lc) && !AfterFailures(r, times, sc, lc).state.Pruned?
  {
    var k := lc.signatureFailurePruneThreshold;
    var w := lc.InfluenceWindow();
    if 1 <= w < U64_MAX {
      EarlyBurstHolds(r, sc, lc);
      hide AfterFailures, Straddling, IsBurst;
      FewerHold(r, Straddling(w, k - 1, k), n, sc, lc);
    } else {
      WindowCountsUp(r, 0, n, sc, lc);
    }
  }
}
