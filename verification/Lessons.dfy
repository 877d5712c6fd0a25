/** What the loop learns, exactly: every application of an outcome, in every run, moves its
    synapse by what that outcome teaches with what is then left of the peer's budget. */
module Lessons {
  import opened Base
  import opened Learning
  import opened OutboundWeights
  import opened Synapses
  import opened Store
  import opened Nodes
  import opened NodeRuns
  import opened InfluenceCap

  // ---- what is charged to a peer ---------------------------------------------------------------

  /** The size of a change, if it is more than the spacing of single-precision weights at one. */
  function Charge(a: Application): real {
    var size := if a.update.appliedDelta >= 0.0 then a.update.appliedDelta else -a.update.appliedDelta;
    if size > 1.0 / 8_388_608.0 then size else 0.0
  }

  function Charges(log: seq<Application>): seq<Influence> {
    if log == [] then []
    else
      var last := log[|log| - 1];
      Charges(log[..|log| - 1]) + if Charge(last) > 0.0 then [Influence(last.entry.peer, Charge(last), last.at)] else []
  }

  /** Everything charged to a peer from a reading on. */
  function ChargedSince(log: seq<Application>, peer: NodeId, start: u64): real {
    Sum(log, peer, start, U64_MAX, Charge)
  }

  lemma {:induction false} ChargesSnoc(log: seq<Application>, a: Application)
    ensures Charges(log + [a]) == Charged(Charges(log), a.entry.peer, a.update.appliedDelta, a.at)
  {
    assert (log + [a])[..|log|] == log;
  }

  lemma {:induction false} SinceSnoc(log: seq<Influence>, one: Influence, peer: NodeId, start: u64)
    ensures InfluenceSince(log + [one], peer, start) ==
              InfluenceSince(log, peer, start) + if one.peer == peer && one.at >= start then one.magnitude else 0.0
  {
    assert (log + [one])[..|log|] == log;
  }

  lemma {:induction false} SinceIsCharged(log: seq<Application>, peer: NodeId, start: u64)
    ensures InfluenceSince(Charges(log), peer, start) == ChargedSince(log, peer, start)
  {
    if log != [] {
      var front, last := log[..|log| - 1], log[|log| - 1];
      var one := Influence(last.entry.peer, Charge(last), last.at);
      SinceIsCharged(front, peer, start);
      assert Charges(log) == if Charge(last) > 0.0 then Charges(front) + [one] else Charges(front);
      assert Charge(last) >= 0.0 && (Counts(last, peer, start, U64_MAX) <==> one.peer == peer && one.at >= start);
      assert ChargedSince(log, peer, start) ==
               ChargedSince(front, peer, start) + if Counts(last, peer, start, U64_MAX) then Charge(last) else 0.0;
      hide InfluenceSince, Charges, Charge, ChargedSince, Counts;
      if Charge(last) > 0.0 { SinceSnoc(Charges(front), one, peer, start); }
    }
  }

  lemma {:induction false} SettledCharges(s: Tables, log: seq<Application>, id: nat, outcome: Outcome, now: u64,
          c: NodeConfig)
    requires Inv(s) && s.influence == Charges(log)
    ensures var (s', applied) := Settled(s, id, outcome, now, c); s'.influence == Charges(log + applied)
  {
    var (s', applied) := Settled(s, id, outcome, now, c);
    SettledJournal(s, id, outcome, now, c);
    SettledStep(s, id, outcome, now, c);
    hide Settled, Inv;
    if applied == [] {
      assert log + applied == log;
    } else {
      assert applied == [applied[0]];
      ChargesSnoc(log, applied[0]);
    }
  }

  // ---- one lesson --------------------------------------------------------------------------------

  /** An influence window before a reading. */
  function WindowStart(at: u64, lc: LearningConfig): u64 {
    if at > lc.influenceWindowSecs * 1_000_000_000 then at - lc.influenceWindowSecs * 1_000_000_000 else 0
  }

  /** The application moved the weight it found by what its outcome teaches, with what the
      peer's earlier applications left of its budget. */
  ghost predicate IsLesson(log: seq<Application>, a: Application, c: NodeConfig) {
    var left := c.learning.influenceCapPerPeer - ChargedSince(log, a.entry.peer, WindowStart(a.at, c.learning));
    && a.update.after == Lesson(a.update.before, a.outcome, a.entry.signalWeight, left, c.learning)
    && a.update.appliedDelta == a.update.after - a.update.before
  }

  predicate InState(state: SynapseState, before: SynapseState, weight: real, sc: SynapseConfig) {
    if before == Pruned || before == Forming then state == before
    else
      && (state == Active <==> weight >= sc.activeThreshold)
      && (state == Weakening <==> weight < sc.activeThreshold && weight >= sc.dormancyThreshold)
      && (state == Dormant <==> weight < sc.activeThreshold && weight < sc.dormancyThreshold)
  }

  /** The record the application leaves, before normalisation: the new weight, up to the
      synapse's own ceiling, the state that goes with it, and the reading. */
  ghost predicate IsTaught(r: SynapseRecord, r': SynapseRecord, a: Application, c: NodeConfig) {
    && a.update.before == r.weight && r'.weight == RMin(a.update.after, c.synapse.maxWeight)
    && InState(r'.state, r.state, r'.weight, c.synapse) && r'.lastActive == a.at
    && r' == r.(weight := r'.weight, state := r'.state, lastActive := a.at)
  }

  /** The table with the taught record in it, brought within the budget if it is over. */
  ghost predicate TableTaught(t: SynapseTable, t': SynapseTable, a: Application, c: NodeConfig) {
    var id := a.entry.synapse;
    id in t && exists r :: IsTaught(t[id], r, a, c) && IsSettledTable(t[id := r], t', c)
  }

  ghost predicate IsSettledTable(put: SynapseTable, t': SynapseTable, c: NodeConfig) {
    && t' == NormalizedTable(put, c.learning)
    && (TableTotal(put) <= c.learning.maxTotalOutboundWeight ==> t' == put)
  }

  lemma {:induction false} StartsTogether(at: u64, lc: LearningConfig)
    ensures lc.InfluenceWindowStart(at) == WindowStart(at, lc)
  {
  }

  /** A signal's weight is taken between 0 and 1 anyway. */
  lemma {:induction false} LessonOfClamped(weight: real, outcome: Outcome, signalWeight: real, left: real,
          c: LearningConfig)
    ensures Lesson(weight, outcome, Clamp(signalWeight, 0.0, 1.0), left, c) == Lesson(weight, outcome, signalWeight, left, c)
  {
    assert Stride(Clamp(signalWeight, 0.0, 1.0), c) == Stride(signalWeight, c);
  }

  lemma {:induction false} RewardedUpdate(s: Tables, e: JournalEntry, outcome: Outcome, now: u64, c: NodeConfig)
    requires e.synapse in s.synapses && Ranged(s.synapses, c)
    ensures var (r, u) := Rewarded(s, e, outcome, now, c);
            var left := c.learning.influenceCapPerPeer - InfluenceSince(s.influence, e.peer, c.learning.InfluenceWindowStart(now));
            var before := s.synapses[e.synapse].weight;
            && u.before == before && u.appliedDelta == u.after - before
            && u.after == Lesson(before, outcome, Clamp(e.signalWeight, 0.0, 1.0), left, c.learning)
  {
    var used := InfluenceSince(s.influence, e.peer, c.learning.InfluenceWindowStart(now));
    hide ApplyReward, Lesson, InfluenceSince, StateForWeight;
    RewardIsExact(s.synapses[e.synapse].weight, outcome, Clamp(e.signalWeight, 0.0, 1.0), used, c.learning);
  }

  lemma {:induction false} RewardedState(s: Tables, e: JournalEntry, outcome: Outcome, now: u64, c: NodeConfig)
    requires e.synapse in s.synapses
    ensures var (r, u) := Rewarded(s, e, outcome, now, c);
            u.before == s.synapses[e.synapse].weight ==>
              IsTaught(s.synapses[e.synapse], r, Application(e, outcome, now, u), c)
  {
    hide ApplyReward, InfluenceSince;
  }

  lemma {:induction false} RewardedIsTaught(s: Tables, e: JournalEntry, log: seq<Application>, outcome: Outcome,
          now: u64,
          c: NodeConfig)
    requires e.synapse in s.synapses && Ranged(s.synapses, c) && s.influence == Charges(log)
    ensures var (r, u) := Rewarded(s, e, outcome, now, c);
            var a := Application(e, outcome, now, u);
            IsLesson(log, a, c) && IsTaught(s.synapses[e.synapse], r, a, c)
  {
    var used := InfluenceSince(s.influence, e.peer, c.learning.InfluenceWindowStart(now));
    hide Rewarded, Lesson, InfluenceSince, Charges, ChargedSince, WindowStart, IsTaught, Ranged;
    RewardedUpdate(s, e, outcome, now, c);
    RewardedState(s, e, outcome, now, c);
    SinceIsCharged(log, e.peer, c.learning.InfluenceWindowStart(now));
    StartsTogether(now, c.learning);
    LessonOfClamped(s.synapses[e.synapse].weight, outcome, e.signalWeight, c.learning.influenceCapPerPeer - used, c.learning);
  }

  lemma {:induction false} WithinBudgetStays(t: SynapseTable, lc: LearningConfig)
    ensures TableTotal(t) <= lc.maxTotalOutboundWeight ==> NormalizedTable(t, lc) == t
  {
  }

  lemma {:induction false} AppliedIsTaught(s: Tables, e: JournalEntry, log: seq<Application>, outcome: Outcome,
          now: u64,
          c: NodeConfig)
    requires e.synapse in s.synapses && Ranged(s.synapses, c) && s.influence == Charges(log)
    ensures var (s', u) := ApplyOutcome(s, e, outcome, now, c);
            var a := Application(e, outcome, now, u);
            IsLesson(log, a, c) && TableTaught(s.synapses, s'.synapses, a, c)
  {
    var (r, u) := Rewarded(s, e, outcome, now, c);
    RewardedIsTaught(s, e, log, outcome, now, c);
    WithinBudgetStays(s.synapses[e.synapse := r], c.learning);
    var s' := ApplyOutcome(s, e, outcome, now, c).0;
    assert s'.synapses == NormalizedTable(s.synapses[e.synapse := r], c.learning);
    hide Rewarded, ApplyOutcome, NormalizedTable, IsLesson, IsTaught, Ranged;
    assert IsSettledTable(s.synapses[e.synapse := r], s'.synapses, c);
  }

  /** One settled decision: if it is applied, it is a lesson, and the table is taught it. */
  lemma {:induction false} SettledTeaches(s: Tables, log: seq<Application>, id: nat, outcome: Outcome, now: u64,
          c: NodeConfig)
    requires Inv(s) && Ranged(s.synapses, c) && s.influence == Charges(log)
    ensures var (s', applied) := Settled(s, id, outcome, now, c);
            applied != [] ==> IsLesson(log, applied[0], c) && TableTaught(s.synapses, s'.synapses, applied[0], c)
  {
    var (s', applied) := Settled(s, id, outcome, now, c);
    SettledJournal(s, id, outcome, now, c);
    SettledStep(s, id, outcome, now, c);
    hide Settled, Inv, Ranged, ApplyOutcome, IsLesson, TableTaught, Charges;
    if applied != [] {
      var s1 := s.(journal := s'.journal);
      AppliedIsTaught(s1, applied[0].entry, log, outcome, now, c);
      assert applied[0] == Application(applied[0].entry, outcome, now, applied[0].update);
    }
  }

  // ---- every lesson of a run -----------------------------------------------------------------------

  ghost predicate AllLessons(before: seq<Application>, applied: seq<Application>, c: NodeConfig) {
    forall k :: 0 <= k < |applied| ==> IsLesson(before + applied[..k], applied[k], c)
  }

  lemma {:induction false} LessonsAppend(before: seq<Application>, a: seq<Application>, b: seq<Application>,
          c: NodeConfig)
    requires AllLessons(before, a, c) && AllLessons(before + a, b, c)
    ensures AllLessons(before, a + b, c)
  {
    hide IsLesson;
    forall k | 0 <= k < |a + b| ensures IsLesson(before + (a + b)[..k], (a + b)[k], c) {
      if k < |a| {
        assert (a + b)[..k] == a[..k];
      } else {
        assert before + (a + b)[..k] == before + a + b[..k - |a|];
      }
    }
  }

  lemma {:induction false} OneLesson(before: seq<Application>, applied: seq<Application>, c: NodeConfig)
    requires |applied| <= 1 && (applied != [] ==> IsLesson(before, applied[0], c))
    ensures AllLessons(before, applied, c)
  {
    assert applied != [] ==> before + applied[..0] == before;
    hide IsLesson;
  }

  lemma {:induction false} OneSettled(s: Tables, log: seq<Application>, id: nat, outcome: Outcome, now: u64,
          c: NodeConfig)
    requires Inv(s) && Ranged(s.synapses, c) && s.influence == Charges(log)
    ensures var (s', applied) := Settled(s, id, outcome, now, c);
            AllLessons(log, applied, c) && s'.influence == Charges(log + applied)
  {
    hide *;
    SettledStep(s, id, outcome, now, c);
    SettledTeaches(s, log, id, outcome, now, c);
    SettledCharges(s, log, id, outcome, now, c);
    OneLesson(log, Settled(s, id, outcome, now, c).1, c);
  }

  lemma {:induction false} SettledAllTeaches(s: Tables, log: seq<Application>, ids: seq<nat>, outcome: Outcome,
          now: u64,
          c: NodeConfig)
    requires Inv(s) && Ranged(s.synapses, c) && s.influence == Charges(log)
    ensures var (s', applied) := SettledAll(s, ids, outcome, now, c);
            AllLessons(log, applied, c) && s'.influence == Charges(log + applied)
  {
    if ids == [] {
      assert log + [] == log;
    } else {
      var front, last := ids[..|ids| - 1], ids[|ids| - 1];
      var (s1, as1) := SettledAll(s, front, outcome, now, c);
      var (s2, as2) := Settled(s1, last, outcome, now, c);
      hide Settled, Inv, Ranged, Charges, AllLessons;
      SettledAllTeaches(s, log, front, outcome, now, c);
      SettledAllStep(s, front, outcome, now, c);
      OneSettled(s1, log + as1, last, outcome, now, c);
      LessonsAppend(log, as1, as2, c);
      assert log + as1 + as2 == log + (as1 + as2);
    }
  }

  lemma {:induction false} StepTeaches(s: Tables, log: seq<Application>, input: Input, c: NodeConfig)
    requires Inv(s) && Ranged(s.synapses, c) && s.influence == Charges(log) && Admissible(s, input)
    ensures var (s', applied) := Step(s, input, c);
            AllLessons(log, applied, c) && s'.influence == Charges(log + applied)
  {
    hide Inv, Ranged, Settled, SettledAll, Upsert, Penalize, Journalled, IsLesson, Charges;
    match input
    case Decide(signal, chosen, now) =>
      JournalledKeepsInv(s, signal, chosen, now, c);
      assert log + [] == log;
    case Receipt(signal, status, from, now) =>
      var found := PendingFor(s.journal, signal, from);
      if found.Some? { OneSettled(s, log, found.value.id, OutcomeOf(status), now, c); } else { assert log + [] == log; }
    case Sweep(limit, now) =>
      SettledAllTeaches(s, log, Expired(s.journal, c.learning.ReceiptDeadline(now), limit), TimedOut, now, c);
    case Fail(id, now) => OneSettled(s, log, id, TransportFailure, now, c);
    case BadSignature(id, now) =>
      PenalizeKeepsTable(s, id, now, c);
      assert log + [] == log;
    case Reconnect(peer, freshId, now) =>
      UpsertKeepsTable(s, peer, freshId, now, c);
      assert log + [] == log;
  }

  /** In every run each application of an outcome moved the weight it found by exactly what
      its outcome teaches, the budget being what the peer's earlier applications within one
      influence window left of it. */
  lemma {:induction false} EveryLessonIsExact(inputs: seq<Input>, c: NodeConfig)
    requires IsRun(inputs, c) && c.KeepsRange()
    ensures var r := After(inputs, c);
            r.s.influence == Charges(r.log) && forall k :: 0 <= k < |r.log| ==> IsLesson(r.log[..k], r.log[k], c)
  {
    var r := After(inputs, c);
    if inputs != [] {
      var front := inputs[..|inputs| - 1];
      var r0 := After(front, c);
      var (s', applied) := Step(r0.s, inputs[|inputs| - 1], c);
      hide *;
      LastStep(inputs, c);
      EveryRunIsSound(front, c);
      EveryLessonIsExact(front, c);
      StepTeaches(r0.s, r0.log, inputs[|inputs| - 1], c);
      LessonsInOrder(r0.log, applied, c);
    }
  }

  lemma {:induction false} LessonsInOrder(log: seq<Application>, applied: seq<Application>, c: NodeConfig)
    requires AllLessons(log, applied, c) && forall k :: 0 <= k < |log| ==> IsLesson(log[..k], log[k], c)
    ensures forall k :: 0 <= k < |log + applied| ==> IsLesson((log + applied)[..k], (log + applied)[k], c)
  {
    hide IsLesson;
    var all := log + applied;
    forall k | 0 <= k < |all| ensures IsLesson(all[..k], all[k], c) {
      if k < |log| { assert all[..k] == log[..k]; } else { assert all[..k] == log + applied[..k - |log|]; }
    }
  }

  // ---- the first outcome of a decision --------------------------------------------------------------

  /** The decision is still pending: settling it resolves it now, teaches the table one
      lesson and touches nothing else. */
  lemma {:induction false} FirstOutcomeTeaches(s: Tables, log: seq<Application>, i: nat, outcome: Outcome, now: u64,
          c: NodeConfig)
    requires Inv(s) && Ranged(s.synapses, c) && s.influence == Charges(log)
    requires i < |s.journal| && s.journal[i].outcome == Pending
    ensures var (s', applied) := Settled(s, s.journal[i].id, outcome, now, c);
            var e := s.journal[i].(outcome := outcome, resolvedAt := Some(now));
            && s'.journal == s.journal[i := e] && s'.seen == s.seen && s'.nextJournalId == s.nextJournalId
            && |applied| == 1 && applied[0].entry == e && applied[0].outcome == outcome && applied[0].at == now
            && IsLesson(log, applied[0], c) && TableTaught(s.synapses, s'.synapses, applied[0], c)
  {
    var id := s.journal[i].id;
    assert Find(s.journal, id) == i;
    assert Settled(s, id, outcome, now, c).0.seen == s.seen;
    SettledJournal(s, id, outcome, now, c);
    hide Settled, ApplyOutcome, Ranged, IsLesson, TableTaught, Charges;
    SettledTeaches(s, log, id, outcome, now, c);
  }

  predicate IsAwaiting(e: JournalEntry, input: Input)
    requires input.Receipt?
  {
    e.signal == input.correlation && e.peer == input.from && e.outcome == Pending
  }

  predicate IsFirstAwaiting(j: Journal, i: nat, input: Input)
    requires input.Receipt?
  {
    i < |j| && IsAwaiting(j[i], input) && forall k :: 0 <= k < i ==> !IsAwaiting(j[k], input)
  }

  lemma {:induction false} PendingIsFirst(j: Journal, i: nat, input: Input)
    requires input.Receipt? && IsFirstAwaiting(j, i, input)
    ensures PendingFor(j, input.correlation, input.from) == Some(j[i])
  {
    if i > 0 {
      assert !IsAwaiting(j[0], input);
      PendingIsFirst(j[1..], i - 1, input);
    }
  }

  /** What one receipt does to the store and the log, if the i-th decision is the first that
      awaits it. */
  ghost predicate IsTaughtBy(before: Run, after: Run, i: nat, input: Input, c: NodeConfig)
    requires input.Receipt? && i < |before.s.journal|
  {
    var outcome := if input.status == ReceiptDelivered then Delivered else Rejected;
    var e := before.s.journal[i].(outcome := outcome, resolvedAt := Some(input.at));
    && after.s.journal == before.s.journal[i := e] && |after.log| == |before.log| + 1
    && var a := after.log[|before.log|];
    && a.entry == e && a.outcome == outcome && a.at == input.at
    && IsLesson(before.log, a, c) && TableTaught(before.s.synapses, after.s.synapses, a, c)
  }

  lemma {:induction false} FirstAwaitingTeaches(r: Run, i: nat, input: Input, c: NodeConfig)
    requires Inv(r.s) && Ranged(r.s.synapses, c) && r.s.influence == Charges(r.log)
    requires input.Receipt? && IsFirstAwaiting(r.s.journal, i, input)
    ensures IsTaughtBy(r, Next(r, input, c), i, input, c)
  {
    var outcome := OutcomeOf(input.status);
    var (s', applied) := Settled(r.s, r.s.journal[i].id, outcome, input.at, c);
    PendingIsFirst(r.s.journal, i, input);
    assert Step(r.s, input, c) == (s', applied);
    assert applied != [] ==> (r.log + applied)[|r.log|] == applied[0];
    hide Step, Settled, Inv, Ranged, IsLesson, TableTaught, Charges;
    FirstOutcomeTeaches(r.s, r.log, i, outcome, input.at, c);
  }

  lemma {:induction false} NoneAwaiting(r: Run, input: Input, c: NodeConfig)
    requires input.Receipt? && forall i :: 0 <= i < |r.s.journal| ==> !IsAwaiting(r.s.journal[i], input)
    ensures Next(r, input, c) == r
  {
    assert PendingFor(r.s.journal, input.correlation, input.from).None?;
    assert r.log + [] == r.log;
  }

  /** A receipt, anywhere in a run: with no decision awaiting it nothing changes, and with
      one the first such is resolved - as delivered or rejected, as the receipt says - and
      its synapse's weight becomes what that teaches, up to the synapse's own ceiling, and
      stays so if the node is then within its budget. */
  lemma {:induction false} ReceiptTeaches(inputs: seq<Input>, c: NodeConfig)
    requires inputs != [] && IsRun(inputs, c) && c.KeepsRange() && inputs[|inputs| - 1].Receipt?
    ensures var before, after, input := After(inputs[..|inputs| - 1], c), After(inputs, c), inputs[|inputs| - 1];
            var j := before.s.journal;
            && (forall i :: IsFirstAwaiting(j, i, input) ==> IsTaughtBy(before, after, i, input, c))
            && ((forall i :: 0 <= i < |j| ==> !IsAwaiting(j[i], input)) ==> after == before)
  {
    var front, input := inputs[..|inputs| - 1], inputs[|inputs| - 1];
    var before := After(front, c);
    hide *;
    LastStep(inputs, c);
    EveryRunIsSound(front, c);
    EveryLessonIsExact(front, c);
    forall i | IsFirstAwaiting(before.s.journal, i, input) ensures IsTaughtBy(before, After(inputs, c), i, input, c) {
      FirstAwaitingTeaches(before, i, input, c);
    }
    if forall i :: 0 <= i < |before.s.journal| ==> !IsAwaiting(before.s.journal[i], input) { NoneAwaiting(before, input, c); }
  }

  // ---- signature failures and reconnections ----------------------------------------------------------

  /** A signature failure takes its share of its synapse's weight, counts within the window
      that the first failure opened, and prunes at the threshold; it touches nothing else. */
  lemma {:induction false} FailureCosts(s: Tables, id: SynapseId, now: u64, c: NodeConfig)
    requires id in s.synapses && Ranged(s.synapses, c)
    ensures var (s', out) := Penalize(s, id, now, c);
            var r, r' := s.synapses[id], s'.synapses[id];
            var count := if r.failureWindowStart < WindowStart(now, c.learning) then 1
                         else if r.signatureFailures < 0xFFFF_FFFF then r.signatureFailures + 1 else 0xFFFF_FFFF;
            var prunes := count >= c.learning.signatureFailurePruneThreshold;
            && s' == s.(synapses := s.synapses[id := r'])
            && r' == r.(weight := r'.weight, state := r'.state, lastActive := r'.lastActive, signatureFailures := count,
                        failureWindowStart := r'.failureWindowStart)
            && r.weight - r'.weight == RMin(c.learning.signatureFailurePenalty * r.weight, r.weight - c.learning.minWeight)
            && r'.failureWindowStart == (if r.failureWindowStart < WindowStart(now, c.learning) then now else r.failureWindowStart)
            && (if prunes then r'.state == Pruned && r'.lastActive == now
                else InState(r'.state, r.state, r'.weight, c.synapse) && r'.lastActive == r.lastActive)
            && out == Some(FailureOutcome(count, prunes))
  {
    StartsTogether(now, c.learning);
    PenaltyLowers(s.synapses[id].weight, c.learning);
    hide ApplySignaturePenalty, WindowStart;
  }

  /** A peer that connects gets a new active synapse at the initial weight; a pruned one only
      once its cooldown is over, with a clear count; a dormant one gets its own back at the
      initial weight; and any other is left as it is. */
  lemma {:induction false} ConnectionGives(s: Tables, peer: NodeId, freshId: SynapseId, now: u64, c: NodeConfig)
    requires TableInv(s.synapses)
    ensures var (s', out) := Upsert(s, peer, freshId, now, c);
            && s' == s.(synapses := s'.synapses)
            && ((forall id :: id in s.synapses ==> s.synapses[id].peer != peer) ==>
                  var r := SynapseRecord(freshId, peer, c.synapse.initialWeight, Active, now, 0, 0);
                  s'.synapses == s.synapses[freshId := r] && out == Linked(r))
            && forall id :: id in s.synapses && s.synapses[id].peer == peer ==>
                 var r := s.synapses[id];
                 var until := r.lastActive + c.learning.signatureFailureCooldownSecs * 1_000_000_000;
                 var cooling := r.state == Pruned && now < (if until < U64_MAX then until else U64_MAX);
                 if cooling then
                   s' == s && out.CoolingDown? && (until < U64_MAX ==> out.remainingSecs == (until - now) / 1_000_000_000)
                 else
                   var r' := match r.state
                             case Pruned => SynapseRecord(id, peer, c.synapse.initialWeight, Active, now, 0, 0)
                             case Dormant => r.(weight := c.synapse.initialWeight, state := Active)
                             case _ => r;
                   s'.synapses == s.synapses[id := r'] && out == Linked(r')
  {
  }
}
