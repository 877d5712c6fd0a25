/** What the closed loop guarantees about weights: one peer's influence is capped over
    every window, penalties always count, the budget holds after every outcome, and one
    peer's receipts raise no other peer's weight. */
module InfluenceCap {
  import opened Base
  import opened RealProducts
  import opened Learning
  import opened OutboundWeights
  import opened Synapses
  import opened Store
  import opened Signals
  import opened Propagation
  import opened Nodes
  import opened NodeRuns

  // ---- the account of one peer over one interval -----------------------------------------------

  predicate Counts(a: Application, peer: NodeId, lo: u64, hi: u64) {
    a.entry.peer == peer && lo <= a.at <= hi
  }

  /** The sum of what `value` makes of the applications for a peer in an interval. */
  function Sum(log: seq<Application>, peer: NodeId, lo: u64, hi: u64, value: Application -> real): real {
    if log == [] then 0.0
    else
      var last := log[|log| - 1];
      Sum(log[..|log| - 1], peer, lo, hi, value) + if Counts(last, peer, lo, hi) then value(last) else 0.0
  }

  function Recorded(a: Application): real {
    if a.update.appliedDelta > EPSILON then a.update.appliedDelta else 0.0
  }

  function Positive(a: Application): real {
    RMax(a.update.appliedDelta, 0.0)
  }

  lemma {:induction false} RecordedSign(applied: seq<Application>)
    ensures applied != [] ==> Recorded(applied[0]) >= 0.0
  {
  }

  /** The recorded rises for a peer, all its rises, and the number of its updates. */
  function RecordedRise(log: seq<Application>, peer: NodeId, lo: u64, hi: u64): real {
    Sum(log, peer, lo, hi, Recorded)
  }

  function Rise(log: seq<Application>, peer: NodeId, lo: u64, hi: u64): real {
    Sum(log, peer, lo, hi, Positive)
  }

  function Updates(log: seq<Application>, peer: NodeId, lo: u64, hi: u64): nat {
    if log == [] then 0
    else Updates(log[..|log| - 1], peer, lo, hi) + if Counts(log[|log| - 1], peer, lo, hi) then 1 else 0
  }

  lemma {:induction false} SumSnoc(log: seq<Application>, applied: seq<Application>, peer: NodeId, lo: u64, hi: u64,
          value: Application -> real)
    requires |applied| <= 1
    ensures Sum(log + applied, peer, lo, hi, value) ==
              Sum(log, peer, lo, hi, value)
              + if applied != [] && Counts(applied[0], peer, lo, hi) then value(applied[0]) else 0.0
  {
    if applied == [] {
      assert log + applied == log;
    } else {
      assert (log + applied)[..|log|] == log;
    }
  }

  /** Rises too small to be recorded add at most one spacing each. */
  lemma {:induction false} RiseIsRecorded(log: seq<Application>, peer: NodeId, lo: u64, hi: u64)
    ensures 0.0 <= Rise(log, peer, lo, hi)
    ensures Rise(log, peer, lo, hi) <= RecordedRise(log, peer, lo, hi) + Updates(log, peer, lo, hi) as real * EPSILON
  {
    if log != [] { RiseIsRecorded(log[..|log| - 1], peer, lo, hi); }
  }

  /** The magnitudes charged to a peer in an interval. */
  function ChargedIn(log: seq<Influence>, peer: NodeId, lo: u64, hi: u64): real {
    if log == [] then 0.0
    else
      var last := log[|log| - 1];
      ChargedIn(log[..|log| - 1], peer, lo, hi) + if last.peer == peer && lo <= last.at <= hi then last.magnitude else 0.0
  }

  ghost predicate Magnitudes(log: seq<Influence>) {
    forall i :: 0 <= i < |log| ==> log[i].magnitude >= 0.0
  }

  /** A sum from the start of an interval covers the interval. */
  lemma {:induction false} WindowCovers(log: seq<Influence>, peer: NodeId, lo: u64, hi: u64, start: u64)
    requires Magnitudes(log) && start <= lo
    ensures 0.0 <= ChargedIn(log, peer, lo, hi) <= InfluenceSince(log, peer, start)
  {
    if log != [] { WindowCovers(log[..|log| - 1], peer, lo, hi, start); }
  }

  // ---- the cap ---------------------------------------------------------------------------------

  /** Recorded rises are charged, and within the cap. */
  ghost predicate WithinCap(s: Tables, log: seq<Application>, peer: NodeId, lo: u64, hi: u64, lc: LearningConfig) {
    && Magnitudes(s.influence)
    && RecordedRise(log, peer, lo, hi) <= ChargedIn(s.influence, peer, lo, hi)
    && RecordedRise(log, peer, lo, hi) <= lc.influenceCapPerPeer
  }

  lemma {:induction false} ChargeSnoc(log: seq<Influence>, charged: NodeId, delta: real, now: u64, peer: NodeId,
          lo: u64, hi: u64)
    requires Magnitudes(log)
    ensures var log' := Charged(log, charged, delta, now);
            && Magnitudes(log')
            && ChargedIn(log', peer, lo, hi) ==
                 ChargedIn(log, peer, lo, hi)
                 + if charged == peer && lo <= now <= hi && Abs(delta) > EPSILON then Abs(delta) else 0.0
  {
    assert (log + [Influence(charged, Abs(delta), now)])[..|log|] == log;
  }

  /** One update charges what it raises, and raises no more than is left of the cap. */
  lemma {:induction false} UpdateWithinCap(s: Tables, e: JournalEntry, outcome: Outcome, now: u64, c: NodeConfig,
          peer: NodeId, lo: u64, hi: u64)
    requires Ranged(s.synapses, c) && Magnitudes(s.influence)
    requires hi - lo <= c.learning.InfluenceWindow()
    ensures var (s', u) := ApplyOutcome(s, e, outcome, now, c);
            var a := Application(e, outcome, now, u);
            && Magnitudes(s'.influence)
            && (Counts(a, peer, lo, hi) ==>
                  && ChargedIn(s'.influence, peer, lo, hi) >= ChargedIn(s.influence, peer, lo, hi) + Recorded(a)
                  && (Recorded(a) > 0.0 ==> ChargedIn(s.influence, peer, lo, hi) + Recorded(a) <= c.learning.influenceCapPerPeer))
            && ChargedIn(s'.influence, peer, lo, hi) >= ChargedIn(s.influence, peer, lo, hi)
  {
    if e.synapse in s.synapses {
      var start := c.learning.InfluenceWindowStart(now);
      var used := InfluenceSince(s.influence, e.peer, start);
      var (r, u) := Rewarded(s, e, outcome, now, c);
      RewardIsCapped(s.synapses[e.synapse].weight, outcome, Clamp(e.signalWeight, 0.0, 1.0), used, c.learning);
      assert u == ApplyReward(s.synapses[e.synapse].weight, outcome, Clamp(e.signalWeight, 0.0, 1.0), used, c.learning);
      hide ApplyReward;
      ChargeSnoc(s.influence, e.peer, u.appliedDelta, now, peer, lo, hi);
      if lo <= now <= hi {
        WindowCovers(s.influence, peer, lo, hi, start);
      }
    }
  }

  lemma {:induction false} AppliedWithinCap(s: Tables, log: seq<Application>, e: JournalEntry, outcome: Outcome,
          now: u64, c: NodeConfig,
          peer: NodeId, lo: u64, hi: u64)
    requires Ranged(s.synapses, c) && hi - lo <= c.learning.InfluenceWindow()
    requires WithinCap(s, log, peer, lo, hi, c.learning)
    ensures var (s', u) := ApplyOutcome(s, e, outcome, now, c);
            WithinCap(s', log + [Application(e, outcome, now, u)], peer, lo, hi, c.learning)
  {
    var (s', u) := ApplyOutcome(s, e, outcome, now, c);
    var a := Application(e, outcome, now, u);
    hide ApplyOutcome, Recorded, ChargedIn, Magnitudes, Counts, Sum, Ranged;
    UpdateWithinCap(s, e, outcome, now, c, peer, lo, hi);
    SumSnoc(log, [a], peer, lo, hi, Recorded);
    RecordedSign([a]);
  }

  lemma {:induction false} SettledWithinCap(s: Tables, log: seq<Application>, id: nat, outcome: Outcome, now: u64,
          c: NodeConfig,
          peer: NodeId, lo: u64, hi: u64)
    requires Inv(s) && Ranged(s.synapses, c) && hi - lo <= c.learning.InfluenceWindow()
    requires WithinCap(s, log, peer, lo, hi, c.learning)
    ensures var (s', applied) := Settled(s, id, outcome, now, c);
            WithinCap(s', log + applied, peer, lo, hi, c.learning)
  {
    var (s', applied) := Settled(s, id, outcome, now, c);
    var s1 := s.(journal := s'.journal);
    assert WithinCap(s1, log, peer, lo, hi, c.learning) && Ranged(s1.synapses, c);
    SettledJournal(s, id, outcome, now, c);
    if applied == [] {
      assert log + applied == log;
    } else {
      JournalStaysSound(s, s'.journal, applied, id, outcome, now, c);
      assert applied == [applied[0]];
      hide Settled, ApplyOutcome, WithinCap, JournalStep, Inv, Ranged;
      AppliedWithinCap(s1, log, applied[0].entry, applied[0].outcome, applied[0].at, c, peer, lo, hi);
    }
  }

  lemma {:induction false} SettledAllWithinCap(s: Tables, log: seq<Application>, ids: seq<nat>, outcome: Outcome,
          now: u64, c: NodeConfig,
          peer: NodeId, lo: u64, hi: u64)
    requires Inv(s) && Ranged(s.synapses, c) && hi - lo <= c.learning.InfluenceWindow()
    requires WithinCap(s, log, peer, lo, hi, c.learning)
    ensures var (s', applied) := SettledAll(s, ids, outcome, now, c);
            WithinCap(s', log + applied, peer, lo, hi, c.learning)
  {
    if ids == [] {
      assert log + [] == log;
    } else {
      var front, id := ids[..|ids| - 1], ids[|ids| - 1];
      var (s1, as1) := SettledAll(s, front, outcome, now, c);
      var (s2, as2) := Settled(s1, id, outcome, now, c);
      assert SettledAll(s, ids, outcome, now, c) == (s2, as1 + as2);
      assert (log + as1) + as2 == log + (as1 + as2);
      hide *;
      SettledAllWithinCap(s, log, front, outcome, now, c, peer, lo, hi);
      SettledAllStep(s, front, outcome, now, c);
      SettledWithinCap(s1, log + as1, id, outcome, now, c, peer, lo, hi);
    }
  }

  lemma {:induction false} StepWithinCap(r: Run, input: Input, c: NodeConfig, peer: NodeId, lo: u64, hi: u64)
    requires Inv(r.s) && Ranged(r.s.synapses, c) && Admissible(r.s, input) && hi - lo <= c.learning.InfluenceWindow()
    requires WithinCap(r.s, r.log, peer, lo, hi, c.learning)
    ensures WithinCap(Next(r, input, c).s, Next(r, input, c).log, peer, lo, hi, c.learning)
  {
    assert r.log + [] == r.log;
    hide Inv, Ranged, Settled, SettledAll, Upsert, Penalize, Journalled;
    match input
    case Decide(signal, chosen, now) => JournalledKeepsInv(r.s, signal, chosen, now, c);
    case Receipt(signal, status, from, now) =>
      var found := PendingFor(r.s.journal, signal, from);
      if found.Some? { SettledWithinCap(r.s, r.log, found.value.id, OutcomeOf(status), now, c, peer, lo, hi); }
    case Sweep(limit, now) =>
      SettledAllWithinCap(r.s, r.log, Expired(r.s.journal, c.learning.ReceiptDeadline(now), limit), TimedOut, now, c, peer, lo, hi);
    case Fail(id, now) => SettledWithinCap(r.s, r.log, id, TransportFailure, now, c, peer, lo, hi);
    case BadSignature(id, now) => PenalizeKeepsTable(r.s, id, now, c);
    case Reconnect(p, freshId, now) => UpsertKeepsTable(r.s, p, freshId, now, c);
  }

  lemma {:induction false} RunWithinCap(inputs: seq<Input>, c: NodeConfig, peer: NodeId, lo: u64, hi: u64)
    requires c.KeepsRange() && IsRun(inputs, c) && hi - lo <= c.learning.InfluenceWindow()
    ensures WithinCap(After(inputs, c).s, After(inputs, c).log, peer, lo, hi, c.learning)
  {
    if inputs == [] {
      assert After(inputs, c) == Run(EMPTY, []);
    } else {
      hide *;
      LastStep(inputs, c);
      EveryRunIsSound(inputs[..|inputs| - 1], c);
      RunWithinCap(inputs[..|inputs| - 1], c, peer, lo, hi);
      StepWithinCap(After(inputs[..|inputs| - 1], c), inputs[|inputs| - 1], c, peer, lo, hi);
    }
  }

  /** Over any run and any interval no longer than the influence window, the recorded
      rises of one peer sum to at most its cap; all its rises exceed that by at most one
      f32 spacing an update. No assumption on the clock is needed. */
  lemma {:induction false} InfluenceIsCapped(inputs: seq<Input>, c: NodeConfig, peer: NodeId, lo: u64, hi: u64)
    requires c.KeepsRange() && IsRun(inputs, c) && hi - lo <= c.learning.InfluenceWindow()
    ensures var log := After(inputs, c).log;
            && RecordedRise(log, peer, lo, hi) <= c.learning.influenceCapPerPeer
            && Rise(log, peer, lo, hi) <= c.learning.influenceCapPerPeer + Updates(log, peer, lo, hi) as real * EPSILON
  {
    RunWithinCap(inputs, c, peer, lo, hi);
    RiseIsRecorded(After(inputs, c).log, peer, lo, hi);
  }

  // ---- how far a weight can rise -----------------------------------------------------------------

  /** A synapse keeps its peer and rises, from where it was or from `base`, by at most `gain`. */
  ghost predicate RoseBy(t: SynapseTable, t': SynapseTable, id: SynapseId, base: real, gain: real) {
    && id in t && id in t' && t'[id].peer == t[id].peer
    && gain >= 0.0 && t'[id].weight <= RMax(t[id].weight, base) + gain
  }

  /** One application raises its own peer's synapse by what it applied, and no other. */
  lemma {:induction false} WeighedRise(t: SynapseTable, t': SynapseTable, a: Application, lc: LearningConfig,
          id: SynapseId,
          lo: u64, hi: u64, base: real)
    requires Weighed(t, t', a, lc) && SamePeers(t, t') && id in t && a.entry.peer == t[a.entry.synapse].peer && lo <= a.at <= hi
    ensures RoseBy(t, t', id, base, if Counts(a, t[id].peer, lo, hi) then Positive(a) else 0.0)
  {
    hide TableTotal, Times;
  }

  lemma {:induction false} SettledRise(s: Tables, log: seq<Application>, jid: nat, outcome: Outcome, now: u64,
          c: NodeConfig,
          id: SynapseId, lo: u64, hi: u64, base: real)
    requires Inv(s) && Ranged(s.synapses, c) && id in s.synapses && lo <= now <= hi
    ensures var (s', applied) := Settled(s, jid, outcome, now, c);
            var peer := s.synapses[id].peer;
            RoseBy(s.synapses, s'.synapses, id, base, Rise(log + applied, peer, lo, hi) - Rise(log, peer, lo, hi))
  {
    var (s', applied) := Settled(s, jid, outcome, now, c);
    var peer := s.synapses[id].peer;
    hide Settled, Inv, Ranged, Learnt;
    SettledStep(s, jid, outcome, now, c);
    SumSnoc(log, applied, peer, lo, hi, Positive);
    if applied != [] {
      hide Sum, Positive, Counts, Weighed, RoseBy;
      WeighedRise(s.synapses, s'.synapses, applied[0], c.learning, id, lo, hi, base);
    }
  }

  lemma {:induction false} RoseTwice(a: SynapseTable, b: SynapseTable, d: SynapseTable, id: SynapseId, base: real,
          g1: real, g2: real)
    requires RoseBy(a, b, id, base, g1) && RoseBy(b, d, id, base, g2)
    ensures RoseBy(a, d, id, base, g1 + g2)
  {
  }

  lemma {:induction false} SettledAllRise(s: Tables, log: seq<Application>, ids: seq<nat>, outcome: Outcome, now: u64,
          c: NodeConfig, id: SynapseId, lo: u64, hi: u64, base: real)
    requires Inv(s) && Ranged(s.synapses, c) && id in s.synapses && lo <= now <= hi
    ensures var (s', applied) := SettledAll(s, ids, outcome, now, c);
            var peer := s.synapses[id].peer;
            RoseBy(s.synapses, s'.synapses, id, base, Rise(log + applied, peer, lo, hi) - Rise(log, peer, lo, hi))
  {
    if ids == [] {
      assert log + [] == log;
    } else {
      var front, last := ids[..|ids| - 1], ids[|ids| - 1];
      var (s1, as1) := SettledAll(s, front, outcome, now, c);
      var (s2, as2) := Settled(s1, last, outcome, now, c);
      assert SettledAll(s, ids, outcome, now, c) == (s2, as1 + as2);
      assert (log + as1) + as2 == log + (as1 + as2);
      hide Settled, SettledAll, Inv, Ranged, Learnt, Rise;
      SettledAllRise(s, log, front, outcome, now, c, id, lo, hi, base);
      SettledAllStep(s, front, outcome, now, c);
      SettledRise(s1, log + as1, last, outcome, now, c, id, lo, hi, base);
      var peer := s.synapses[id].peer;
      RoseTwice(s.synapses, s1.synapses, s2.synapses, id, base,
                Rise(log + as1, peer, lo, hi) - Rise(log, peer, lo, hi),
                Rise(log + as1 + as2, peer, lo, hi) - Rise(log + as1, peer, lo, hi));
    }
  }

  /** A reconnection takes its own peer's synapse at most to the initial weight. */
  lemma {:induction false} UpsertRise(s: Tables, peer: NodeId, freshId: SynapseId, now: u64, c: NodeConfig,
          id: SynapseId, base: real)
    requires id in s.synapses && freshId !in s.synapses && KeyedById(s.synapses)
    requires s.synapses[id].peer == peer ==> c.synapse.initialWeight <= base
    ensures RoseBy(s.synapses, Upsert(s, peer, freshId, now, c).0.synapses, id, base, 0.0)
  {
  }

  lemma {:induction false} StepRise(r: Run, input: Input, c: NodeConfig, id: SynapseId, lo: u64, hi: u64, base: real)
    requires Inv(r.s) && Ranged(r.s.synapses, c) && Admissible(r.s, input) && id in r.s.synapses && lo <= input.at <= hi
    requires input.Reconnect? && input.peer == r.s.synapses[id].peer ==> c.synapse.initialWeight <= base
    ensures var r' := Next(r, input, c);
            var peer := r.s.synapses[id].peer;
            RoseBy(r.s.synapses, r'.s.synapses, id, base, Rise(r'.log, peer, lo, hi) - Rise(r.log, peer, lo, hi))
  {
    assert r.log + [] == r.log;
    assert KeyedById(r.s.synapses);
    hide Inv, Ranged, Settled, SettledAll, Upsert, Penalize, Journalled, Rise;
    match input
    case Decide(signal, chosen, now) => JournalledKeepsInv(r.s, signal, chosen, now, c);
    case Receipt(signal, status, from, now) =>
      var found := PendingFor(r.s.journal, signal, from);
      if found.Some? { SettledRise(r.s, r.log, found.value.id, OutcomeOf(status), now, c, id, lo, hi, base); }
    case Sweep(limit, now) =>
      SettledAllRise(r.s, r.log, Expired(r.s.journal, c.learning.ReceiptDeadline(now), limit), TimedOut, now, c, id, lo, hi, base);
    case Fail(jid, now) => SettledRise(r.s, r.log, jid, TransportFailure, now, c, id, lo, hi, base);
    case BadSignature(sid, now) => PenalizeKeepsTable(r.s, sid, now, c);
    case Reconnect(p, freshId, now) => UpsertRise(r.s, p, freshId, now, c, id, base);
  }

  predicate IsReconnection(input: Input, peer: NodeId) {
    input.Reconnect? && input.peer == peer
  }

  ghost predicate Reconnects(inputs: seq<Input>, n: nat, peer: NodeId) {
    exists k :: n <= k < |inputs| && IsReconnection(inputs[k], peer)
  }

  /** From point `n` on, every reading lies in [lo, hi]; and `base` is no lower than the
      initial weight if the peer reconnects. */
  ghost predicate Within(inputs: seq<Input>, n: nat, peer: NodeId, lo: u64, hi: u64, base: real, c: NodeConfig) {
    && (forall k :: n <= k < |inputs| ==> lo <= inputs[k].at <= hi)
    && (Reconnects(inputs, n, peer) ==> c.synapse.initialWeight <= base)
  }

  /** Between two states of a run, a synapse rose by at most what its peer was granted. */
  ghost predicate Rose(was: Run, now: Run, id: SynapseId, peer: NodeId, lo: u64, hi: u64, base: real) {
    && id in was.s.synapses && was.s.synapses[id].peer == peer
    && RoseBy(was.s.synapses, now.s.synapses, id, base, Rise(now.log, peer, lo, hi) - Rise(was.log, peer, lo, hi))
  }

  lemma {:induction false} RoseTransitive(a: Run, b: Run, d: Run, id: SynapseId, peer: NodeId, lo: u64, hi: u64,
          base: real)
    requires Rose(a, b, id, peer, lo, hi, base) && Rose(b, d, id, peer, lo, hi, base)
    ensures Rose(a, d, id, peer, lo, hi, base)
  {
  }

  lemma {:induction false} WithinFront(inputs: seq<Input>, n: nat, peer: NodeId, lo: u64, hi: u64, base: real,
          c: NodeConfig)
    requires n < |inputs| && Within(inputs, n, peer, lo, hi, base, c)
    ensures Within(inputs[..|inputs| - 1], n, peer, lo, hi, base, c)
    ensures var last := inputs[|inputs| - 1];
            lo <= last.at <= hi && (last.Reconnect? && last.peer == peer ==> c.synapse.initialWeight <= base)
  {
    var front := inputs[..|inputs| - 1];
    forall k | n <= k < |front| ensures front[k] == inputs[k] {}
    assert IsReconnection(inputs[|inputs| - 1], peer) ==> Reconnects(inputs, n, peer);
    if Reconnects(front, n, peer) {
      var k :| n <= k < |front| && IsReconnection(front[k], peer);
      assert IsReconnection(inputs[k], peer);
    }
  }

  lemma {:induction false} StepRose(r: Run, input: Input, c: NodeConfig, id: SynapseId, peer: NodeId, lo: u64,
          hi: u64, base: real)
    requires Inv(r.s) && Ranged(r.s.synapses, c) && Admissible(r.s, input) && lo <= input.at <= hi
    requires id in r.s.synapses && r.s.synapses[id].peer == peer
    requires input.Reconnect? && input.peer == peer ==> c.synapse.initialWeight <= base
    ensures Rose(r, Next(r, input, c), id, peer, lo, hi, base)
  {
    StepRise(r, input, c, id, lo, hi, base);
    hide Next, Inv, Ranged, Admissible;
  }

  lemma {:induction false} RunRise(inputs: seq<Input>, n: nat, c: NodeConfig, id: SynapseId, peer: NodeId, lo: u64,
          hi: u64, base: real)
    requires c.KeepsRange() && IsRun(inputs, c) && n <= |inputs| && Within(inputs, n, peer, lo, hi, base, c)
    requires id in After(inputs[..n], c).s.synapses && After(inputs[..n], c).s.synapses[id].peer == peer
    ensures Rose(After(inputs[..n], c), After(inputs, c), id, peer, lo, hi, base)
    decreases |inputs|
  {
    var was := After(inputs[..n], c);
    if n == |inputs| {
      assert inputs[..n] == inputs;
      hide After, Within;
    } else {
      var front, last := inputs[..|inputs| - 1], inputs[|inputs| - 1];
      assert front[..n] == inputs[..n];
      assert Rose(was, After(front, c), id, peer, lo, hi, base) ==>
               id in After(front, c).s.synapses && After(front, c).s.synapses[id].peer == peer;
      hide *;
      LastStep(inputs, c);
      WithinFront(inputs, n, peer, lo, hi, base, c);
      RunRise(front, n, c, id, peer, lo, hi, base);
      EveryRunIsSound(front, c);
      StepRose(After(front, c), last, c, id, peer, lo, hi, base);
      RoseTransitive(was, After(front, c), After(inputs, c), id, peer, lo, hi, base);
    }
  }

  /** Within one influence window, whatever receipts, timeouts, failures, penalties and
      reconnections come, a peer's synapse ends at most the cap, plus one f32 spacing an
      update, above where it began, or, if the peer reconnected, above the initial weight
      where that is higher. */
  lemma {:induction false} WeightRiseIsCapped(inputs: seq<Input>, n: nat, c: NodeConfig, id: SynapseId, lo: u64,
          hi: u64)
    requires c.KeepsRange() && IsRun(inputs, c) && n <= |inputs| && id in After(inputs[..n], c).s.synapses
    requires forall k :: n <= k < |inputs| ==> lo <= inputs[k].at <= hi
    requires hi - lo <= c.learning.InfluenceWindow()
    ensures var was, now := After(inputs[..n], c), After(inputs, c);
            var r := was.s.synapses[id];
            && id in now.s.synapses
            && now.s.synapses[id].weight <=
                 (if Reconnects(inputs, n, r.peer) then RMax(r.weight, c.synapse.initialWeight) else r.weight)
                 + c.learning.influenceCapPerPeer + Updates(now.log, r.peer, lo, hi) as real * EPSILON
  {
    var r := After(inputs[..n], c).s.synapses[id];
    var base := if Reconnects(inputs, n, r.peer) then c.synapse.initialWeight else r.weight;
    assert Within(inputs, n, r.peer, lo, hi, base, c);
    hide After, IsRun, Within, Rise, Reconnects;
    RunRise(inputs, n, c, id, r.peer, lo, hi, base);
    InfluenceIsCapped(inputs, c, r.peer, lo, hi);
    RiseIsRecorded(After(inputs[..n], c).log, r.peer, lo, hi);
  }

  /** A peer connects, fails one signature check and reconnects. */
  function Reviving(t: u64): seq<Input> {
    [Reconnect(0, 0, t), BadSignature(0, t), Reconnect(0, 1, t)]
  }

  /** Reconnecting is not charged: where one failure takes a synapse to the floor and makes it
      dormant, the reconnection lifts it to the initial weight, further than the cap allows
      its peer's receipts, with nothing recorded. */
  lemma {:induction false} ReconnectionIsUncharged(c: NodeConfig, t: u64)
    requires c.KeepsRange() && c.learning.signatureFailurePenalty == 1.0 && c.learning.signatureFailurePruneThreshold >= 2
    requires c.learning.minWeight < c.synapse.dormancyThreshold <= c.synapse.activeThreshold
    requires c.synapse.initialWeight > c.learning.minWeight + c.learning.influenceCapPerPeer
    ensures var inputs := Reviving(t);
            && IsRun(inputs, c) && After(inputs, c).log == []
            && 0 in After(inputs[..2], c).s.synapses && 0 in After(inputs, c).s.synapses
            && After(inputs, c).s.synapses[0].weight >
                 After(inputs[..2], c).s.synapses[0].weight + c.learning.influenceCapPerPeer
  {
    var inputs := Reviving(t);
    assert inputs[..0] == [] && inputs[..1][..0] == [] && inputs[..2][..1] == inputs[..1] && inputs[..|inputs| - 1] == inputs[..2];
    assert After([], c) == Run(EMPTY, []);
    var r0 := NewSynapse(0, 0, t, c.synapse);
    assert SynapseFor(EMPTY.synapses, 0) == None;
    assert After(inputs[..1], c) == Next(After([], c), inputs[0], c) == Run(EMPTY.(synapses := map[0 := r0]), []);
    var (r1, out) := AfterSignatureFailure(r0, t, c.synapse, c.learning);
    assert r1.weight == c.learning.minWeight && r1.state == Dormant;
    assert map[0 := r0][0 := r1] == map[0 := r1];
    assert After(inputs[..2], c) == Next(After(inputs[..1], c), inputs[1], c) == Run(EMPTY.(synapses := map[0 := r1]), []);
    assert map[0 := r1][0].peer == 0;
    assert SynapseFor(map[0 := r1], 0) == Some(0);
    assert After(inputs, c) == Next(After(inputs[..2], c), inputs[2], c);
  }

  // ---- penalties, the budget, and other peers --------------------------------------------------------

  /** A failure's whole penalty is applied, down to the floor, whatever influence the
      peer has already had: the cap only ever limits rises. */
  lemma {:induction false} PenaltyIsNeverSuppressed(s: Tables, e: JournalEntry, outcome: Outcome, now: u64,
          c: NodeConfig)
    requires Ranged(s.synapses, c) && e.synapse in s.synapses && outcome != Delivered
    ensures var w := s.synapses[e.synapse].weight;
            Rewarded(s, e, outcome, now, c).0.weight ==
              RMin(RMax(w + RawDelta(outcome, Clamp(e.signalWeight, 0.0, 1.0), c.learning), c.learning.minWeight), c.synapse.maxWeight)
  {
    var used := InfluenceSince(s.influence, e.peer, c.learning.InfluenceWindowStart(now));
    RewardIsCapped(s.synapses[e.synapse].weight, outcome, Clamp(e.signalWeight, 0.0, 1.0), used, c.learning);
  }

  ghost predicate Budgeted(t: SynapseTable, lc: LearningConfig) {
    TableTotal(t) <= lc.maxTotalOutboundWeight + Times(|t.Keys| as real, lc.minWeight)
  }

  lemma {:induction false} SettledIsBudgeted(s: Tables, jid: nat, outcome: Outcome, now: u64, c: NodeConfig)
    requires Inv(s) && Ranged(s.synapses, c)
    ensures var (s', applied) := Settled(s, jid, outcome, now, c);
            if applied == [] then s'.synapses == s.synapses else Budgeted(s'.synapses, c.learning)
  {
    SettledStep(s, jid, outcome, now, c);
    hide Settled;
  }

  lemma {:induction false} SettledAllIsBudgeted(s: Tables, ids: seq<nat>, outcome: Outcome, now: u64, c: NodeConfig)
    requires Inv(s) && Ranged(s.synapses, c)
    ensures var (s', applied) := SettledAll(s, ids, outcome, now, c);
            applied != [] ==> Budgeted(s'.synapses, c.learning)
  {
    if ids != [] {
      var front, last := ids[..|ids| - 1], ids[|ids| - 1];
      hide Settled, Inv, Budgeted;
      SettledAllIsBudgeted(s, front, outcome, now, c);
      SettledAllStep(s, front, outcome, now, c);
      SettledIsBudgeted(SettledAll(s, front, outcome, now, c).0, last, outcome, now, c);
    }
  }

  /** After any input that resolved an outcome, the total outbound weight is at most the
      budget plus one floor per synapse. */
  lemma {:induction false} OutcomesAreBudgeted(inputs: seq<Input>, c: NodeConfig)
    requires c.KeepsRange() && IsRun(inputs, c) && inputs != []
    requires After(inputs, c).log != After(inputs[..|inputs| - 1], c).log
    ensures Budgeted(After(inputs, c).s.synapses, c.learning)
  {
    var front, last := inputs[..|inputs| - 1], inputs[|inputs| - 1];
    LastStep(inputs, c);
    EveryRunIsSound(front, c);
    var s := After(front, c).s;
    assert After(front, c).log + [] == After(front, c).log;
    hide After, Settled, SettledAll, Inv, IsRun, Budgeted, Upsert, Penalize, Journalled;
    match last
    case Receipt(signal, status, from, now) =>
      var found := PendingFor(s.journal, signal, from);
      if found.Some? { SettledIsBudgeted(s, found.value.id, OutcomeOf(status), now, c); }
    case Sweep(limit, now) =>
      SettledAllIsBudgeted(s, Expired(s.journal, c.learning.ReceiptDeadline(now), limit), TimedOut, now, c);
    case Fail(jid, now) => SettledIsBudgeted(s, jid, TransportFailure, now, c);
    case _ =>
  }

  /** A receipt from one peer raises no other peer's weight. */
  lemma {:induction false} OthersNeverRise(inputs: seq<Input>, c: NodeConfig, signal: SignalId, status: ReceiptStatus,
          from: NodeId, now: u64, id: SynapseId)
    requires c.KeepsRange() && IsRun(inputs, c)
    requires id in After(inputs, c).s.synapses && After(inputs, c).s.synapses[id].peer != from
    ensures var s := After(inputs, c).s;
            var s' := AfterReceipt(s, signal, status, from, now, c).0;
            id in s'.synapses && s'.synapses[id].weight <= s.synapses[id].weight
  {
    var s := After(inputs, c).s;
    EveryRunIsSound(inputs, c);
    hide After, IsRun;
    var found := PendingFor(s.journal, signal, from);
    if found.Some? {
      var e := found.value;
      var (s', applied) := Settled(s, e.id, OutcomeOf(status), now, c);
      SettledStep(s, e.id, OutcomeOf(status), now, c);
      SettledEntry(s, e, OutcomeOf(status), now, c);
    }
  }

  /** What is applied is for the very entry that was settled. */
  lemma {:induction false} SettledEntry(s: Tables, e: JournalEntry, outcome: Outcome, now: u64, c: NodeConfig)
    requires Inv(s) && e in s.journal
    ensures var applied := Settled(s, e.id, outcome, now, c).1;
            applied != [] ==> applied[0].entry.peer == e.peer && applied[0].entry.synapse == e.synapse
  {
    SettledJournal(s, e.id, outcome, now, c);
    hide Settled;
    var k :| 0 <= k < |s.journal| && s.journal[k] == e;
    assert Find(s.journal, e.id) == k;
  }
}
