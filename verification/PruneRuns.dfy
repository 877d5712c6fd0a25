/** Pruning over whole runs: with receipts, timeouts, normalisations and reconnections
    interleaved, a synapse's standing follows from its own signature failures alone. */
module PruneRuns {
  import opened Base
  import opened Learning
  import opened Synapses
  import opened Store
  import opened Nodes
  import opened NodeRuns

  const CLEAR := SynapseRecord(0, 0, 0.0, Active, 0, 0, 0)

  /** The synapse was created, or re-formed after a prune. */
  ghost predicate Formed(t: SynapseTable, t': SynapseTable, id: SynapseId) {
    id in t' && (id !in t || (t[id].state.Pruned? && !t'[id].state.Pruned?))
  }

  /** The readings of a synapse's signature failures since it was last formed. */
  ghost function Failures(inputs: seq<Input>, c: NodeConfig, id: SynapseId): seq<u64> {
    if inputs == [] then []
    else
      var front, last := inputs[..|inputs| - 1], inputs[|inputs| - 1];
      if Formed(After(front, c).s.synapses, After(inputs, c).s.synapses, id) then []
      else if last.BadSignature? && last.synapse == id then Failures(front, c, id) + [last.at]
      else Failures(front, c, id)
  }

  /** The same count, window and standing. */
  predicate Follows(r: SynapseRecord, shadow: SynapseRecord) {
    && r.signatureFailures == shadow.signatureFailures && r.failureWindowStart == shadow.failureWindowStart
    && r.state.Pruned? == shadow.state.Pruned?
  }

  ghost predicate FollowsIn(t: SynapseTable, id: SynapseId, shadow: SynapseRecord) {
    id in t ==> Follows(t[id], shadow)
  }

  lemma {:induction false} FailureFollows(r: SynapseRecord, shadow: SynapseRecord, now: u64, sc: SynapseConfig,
          lc: LearningConfig)
    requires Follows(r, shadow)
    ensures Follows(AfterSignatureFailure(r, now, sc, lc).0, AfterSignatureFailure(shadow, now, sc, lc).0)
  {
    hide ApplySignaturePenalty;
  }

  lemma {:induction false} OneMoreFailure(r: SynapseRecord, times: seq<u64>, now: u64, sc: SynapseConfig,
          lc: LearningConfig)
    ensures AfterFailures(r, times + [now], sc, lc) == AfterSignatureFailure(AfterFailures(r, times, sc, lc), now, sc, lc).0
  {
    AfterMoreFailures(r, times, [now], sc, lc);
    var r1 := AfterFailures(r, times, sc, lc);
    assert [now][1..] == [] && AfterFailures(AfterSignatureFailure(r1, now, sc, lc).0, [], sc, lc)
                                 == AfterSignatureFailure(r1, now, sc, lc).0;
  }

  /** Outcomes, however they come, leave the standing alone. */
  lemma {:induction false} LearntFollows(t: SynapseTable, t': SynapseTable, applied: seq<Application>, now: u64,
          id: SynapseId,
          shadow: SynapseRecord)
    requires Learnt(t, t', applied, now) && FollowsIn(t, id, shadow)
    ensures FollowsIn(t', id, shadow) && !Formed(t, t', id)
  {
    hide Touches;
  }

  lemma {:induction false} UpsertFollows(s: Tables, peer: NodeId, freshId: SynapseId, now: u64, c: NodeConfig,
          id: SynapseId,
          shadow: SynapseRecord)
    requires Inv(s) && freshId !in s.synapses && FollowsIn(s.synapses, id, shadow)
    ensures var t' := Upsert(s, peer, freshId, now, c).0.synapses;
            if Formed(s.synapses, t', id) then FollowsIn(t', id, CLEAR) else FollowsIn(t', id, shadow)
  {
  }

  lemma {:induction false} PenaltyFollows(s: Tables, sid: SynapseId, now: u64, c: NodeConfig, id: SynapseId,
          shadow: SynapseRecord)
    requires FollowsIn(s.synapses, id, shadow)
    ensures var t' := Penalize(s, sid, now, c).0.synapses;
            && !Formed(s.synapses, t', id)
            && FollowsIn(t', id, if sid == id then AfterSignatureFailure(shadow, now, c.synapse, c.learning).0 else shadow)
  {
    if sid == id && id in s.synapses { FailureFollows(s.synapses[id], shadow, now, c.synapse, c.learning); }
  }

  /** One input: the standing is cleared by forming, moved by a failure, and left by the rest. */
  lemma {:induction false} StepFollows(s: Tables, input: Input, c: NodeConfig, id: SynapseId, shadow: SynapseRecord)
    requires Inv(s) && Admissible(s, input) && FollowsIn(s.synapses, id, shadow)
    ensures var t' := Step(s, input, c).0.synapses;
            FollowsIn(t', id,
              if Formed(s.synapses, t', id) then CLEAR
              else if input.BadSignature? && input.synapse == id
              then AfterSignatureFailure(shadow, input.at, c.synapse, c.learning).0 else shadow)
  {
    hide Inv, FollowsIn, Learnt, Settled, SettledAll, Upsert, Penalize, Journalled, AfterSignatureFailure;
    match input
    case Decide(signal, chosen, now) =>
      JournalledKeepsInv(s, signal, chosen, now, c);
      assert !Formed(s.synapses, s.synapses, id);
    case Receipt(signal, status, from, now) =>
      var found := PendingFor(s.journal, signal, from);
      if found.Some? {
        var (s', applied) := Settled(s, found.value.id, OutcomeOf(status), now, c);
        SettledStep(s, found.value.id, OutcomeOf(status), now, c);
        LearntFollows(s.synapses, s'.synapses, applied, now, id, shadow);
      }
    case Sweep(limit, now) =>
      var ids := Expired(s.journal, c.learning.ReceiptDeadline(now), limit);
      var (s', applied) := SettledAll(s, ids, TimedOut, now, c);
      SettledAllStep(s, ids, TimedOut, now, c);
      LearntFollows(s.synapses, s'.synapses, applied, now, id, shadow);
    case Fail(jid, now) =>
      var (s', applied) := Settled(s, jid, TransportFailure, now, c);
      SettledStep(s, jid, TransportFailure, now, c);
      LearntFollows(s.synapses, s'.synapses, applied, now, id, shadow);
    case BadSignature(sid, now) => PenaltyFollows(s, sid, now, c, id, shadow);
    case Reconnect(peer, freshId, now) => UpsertFollows(s, peer, freshId, now, c, id, shadow);
  }

  /** In every run a synapse's failure count, window and standing are those its signature
      failures since it was last formed leave a clear synapse with. */
  lemma {:induction false} StandingFollowsFailures(inputs: seq<Input>, c: NodeConfig, id: SynapseId)
    requires IsRun(inputs, c)
    ensures FollowsIn(After(inputs, c).s.synapses, id, AfterFailures(CLEAR, Failures(inputs, c, id), c.synapse, c.learning))
  {
    if inputs != [] {
      var front, last := inputs[..|inputs| - 1], inputs[|inputs| - 1];
      LastStep(inputs, c);
      EveryRunIsSound(front, c);
      StandingFollowsFailures(front, c, id);
      OneMoreFailure(CLEAR, Failures(front, c, id), last.at, c.synapse, c.learning);
      hide After, IsRun, Step, Inv, Admissible, FollowsIn, Formed;
      StepFollows(After(front, c).s, last, c, id, AfterFailures(CLEAR, Failures(front, c, id), c.synapse, c.learning));
    }
  }

  /** Whatever else happened, a pruned synapse had a burst of at least k signature failures
      within one influence window since it was last formed. */
  lemma {:induction false} PrunedByItsFailures(inputs: seq<Input>, c: NodeConfig, id: SynapseId)
    requires IsRun(inputs, c) && id in After(inputs, c).s.synapses && After(inputs, c).s.synapses[id].state.Pruned?
    requires NonDecreasing(Failures(inputs, c, id)) && c.learning.signatureFailurePruneThreshold <= U32_MAX
    ensures var times := Failures(inputs, c, id);
            exists n :: 0 < n <= |times| && PrunedByBurst(times[..n], c.learning)
  {
    StandingFollowsFailures(inputs, c, id);
    var times := Failures(inputs, c, id);
    hide After, Failures, IsRun;
    assert [] + times == times;
    PruneNeedsABurst(CLEAR, [], times, c.synapse, c.learning);
  }

  lemma {:induction false} CountIsBelow(r: SynapseRecord, times: seq<u64>, sc: SynapseConfig, lc: LearningConfig)
    requires r.signatureFailures < lc.signatureFailurePruneThreshold && !AfterFailures(r, times, sc, lc).state.Pruned?
    ensures AfterFailures(r, times, sc, lc).signatureFailures < lc.signatureFailurePruneThreshold
    decreases |times|
  {
    if times != [] {
      var (r1, out) := AfterSignatureFailure(r, times[0], sc, lc);
      if out.pruned { PrunedStays(r1, times[1..], sc, lc); } else { CountIsBelow(r1, times[1..], sc, lc); }
    }
  }

  /** And whatever else happened, as many failures within one window as always prune, among
      those since it was last formed, leave it pruned. */
  lemma {:induction false} BurstPrunesInRun(inputs: seq<Input>, c: NodeConfig, id: SynapseId, before: seq<u64>,
          burst: seq<u64>,
          later: seq<u64>)
    requires IsRun(inputs, c) && id in After(inputs, c).s.synapses
    requires 1 <= c.learning.signatureFailurePruneThreshold <= U32_MAX
    requires Failures(inputs, c, id) == before + burst + later
    requires IsBurst(burst, c.learning) && |burst| >= LeastBurst(c.learning)
    ensures After(inputs, c).s.synapses[id].state.Pruned?
  {
    StandingFollowsFailures(inputs, c, id);
    hide After, Failures, IsRun, IsBurst;
    var sc, lc := c.synapse, c.learning;
    AfterMoreFailures(CLEAR, before + burst, later, sc, lc);
    AfterMoreFailures(CLEAR, before, burst, sc, lc);
    var r1 := AfterFailures(CLEAR, before, sc, lc);
    if r1.state.Pruned? {
      PrunedStays(r1, burst, sc, lc);
    } else {
      CountIsBelow(CLEAR, before, sc, lc);
      EnoughToPruneIff(|burst|, sc, lc);
      assert AfterFailures(r1, burst, sc, lc).state.Pruned?;
    }
    PrunedStays(AfterFailures(r1, burst, sc, lc), later, sc, lc);
  }
}
