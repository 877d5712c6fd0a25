/** The node's closed learning loop: decisions are journalled, the first outcome of each
    moves its synapse's weight under the peer's influence cap, and every update is
    followed by normalisation of all outbound weights. */
module Nodes {
  import opened Base
  import opened RealProducts
  import opened Learning
  import opened Normalization
  import opened OutboundWeights
  import opened Synapses
  import opened Store
  import opened Signals
  import opened Sampling
  import opened Propagation

  // The spacing of f32 values at one: smaller changes are not charged to the peer.
  const EPSILON: real := 0.00000011920928955078125

  datatype NodeConfig = NodeConfig(learning: LearningConfig, synapse: SynapseConfig) {
    /** `NodeConfig::validate` returns `Ok`, as far as these two parts go. */
    predicate IsValid() {
      learning.IsValid() && synapse.maxWeight <= learning.maxWeight
    }

    /** What it takes to keep every weight in range; validation asks for less. */
    predicate KeepsRange() {
      && learning.IsValid()
      && learning.InRange(synapse.initialWeight)
      && synapse.maxWeight >= learning.minWeight
    }
  }

  // ---- one resolved outcome ----------------------------------------------------------------

  /** One application of an outcome to the weights. */
  datatype Application = Application(entry: JournalEntry, outcome: Outcome, at: u64, update: WeightUpdate)

  const NO_UPDATE := WeightUpdate(0.0, 0.0, 0.0, false)

  function Charged(log: seq<Influence>, peer: NodeId, delta: real, now: u64): seq<Influence> {
    if Abs(delta) > EPSILON then log + [Influence(peer, Abs(delta), now)] else log
  }

  /** The record a resolved outcome leaves, before normalisation, and the update it made. */
  function Rewarded(s: Tables, e: JournalEntry, outcome: Outcome, now: u64,
          c: NodeConfig): (SynapseRecord, WeightUpdate)
    requires e.synapse in s.synapses
  {
    var used := InfluenceSince(s.influence, e.peer, c.learning.InfluenceWindowStart(now));
    var (r, update) := AfterOutcome(s.synapses[e.synapse], outcome, Clamp(e.signalWeight, 0.0, 1.0), used, c.synapse, c.learning);
    (r.(lastActive := now), update)
  }

  ghost function ApplyOutcome(s: Tables, e: JournalEntry, outcome: Outcome, now: u64,
          c: NodeConfig): (r: (Tables, WeightUpdate))
    ensures r.0.journal == s.journal && r.0.nextJournalId == s.nextJournalId && r.0.seen == s.seen
  {
    if e.synapse !in s.synapses then (s, NO_UPDATE)
    else
      var (r, update) := Rewarded(s, e, outcome, now, c);
      (s.(synapses := NormalizedTable(s.synapses[e.synapse := r], c.learning),
          influence := Charged(s.influence, e.peer, update.appliedDelta, now)),
       update)
  }

  /** Resolve a decision, and apply the outcome if the entry says it was resolved at this
      very reading. */
  ghost function Settled(s: Tables, id: nat, outcome: Outcome, now: u64, c: NodeConfig): (Tables, seq<Application>) {
    var (journal, found) := Resolve(s.journal, id, outcome, now);
    var s1 := s.(journal := journal);
    if found.None? || found.value.resolvedAt != Some(now) then (s1, [])
    else
      var (s2, update) := ApplyOutcome(s1, found.value, outcome, now, c);
      (s2, [Application(found.value, outcome, now, update)])
  }

  ghost function SettledAll(s: Tables, ids: seq<nat>, outcome: Outcome, now: u64,
          c: NodeConfig): (Tables, seq<Application>) {
    if ids == [] then (s, [])
    else
      var (s1, as1) := SettledAll(s, ids[..|ids| - 1], outcome, now, c);
      var (s2, as2) := Settled(s1, ids[|ids| - 1], outcome, now, c);
      (s2, as1 + as2)
  }

  ghost function AfterReceipt(s: Tables, signal: SignalId, status: ReceiptStatus, from: NodeId, now: u64,
          c: NodeConfig): (Tables, seq<Application>) {
    match PendingFor(s.journal, signal, from)
    case None => (s, [])
    case Some(e) => Settled(s, e.id, OutcomeOf(status), now, c)
  }

  ghost function AfterSweep(s: Tables, limit: nat, now: u64, c: NodeConfig): (Tables, seq<Application>) {
    SettledAll(s, Expired(s.journal, c.learning.ReceiptDeadline(now), limit), TimedOut, now, c)
  }

  ghost function AfterFailedForward(s: Tables, id: nat, now: u64, c: NodeConfig): (Tables, seq<Application>) {
    Settled(s, id, TransportFailure, now, c)
  }

  function UpdateIn(applied: seq<Application>): Option<WeightUpdate> {
    if applied == [] then None else Some(applied[0].update)
  }

  // ---- decisions ----------------------------------------------------------------------------

  datatype Forward = Forward(synapse: SynapseId, peer: NodeId, journalId: nat, explored: bool)

  function Decision(signal: Signal, c: Chosen, now: u64): JournalEntry {
    JournalEntry(0, signal.id, c.synapse.id, c.synapse.peer, c.score, signal.weight, c.explored, now, Pending, None)
  }

  /** Every choice becomes a pending entry of the journal. */
  function Journalled(s: Tables, signal: Signal, chosen: seq<Chosen>, now: u64): (Tables, seq<Forward>) {
    if chosen == [] then (s, [])
    else
      var (s1, out) := Journalled(s, signal, chosen[..|chosen| - 1], now);
      var last := chosen[|chosen| - 1];
      (s1.(journal := Appended(s1.journal, s1.nextJournalId, Decision(signal, last, now)),
           nextJournalId := s1.nextJournalId + 1),
       out + [Forward(last.synapse.id, last.synapse.peer, s1.nextJournalId + 1, last.explored)])
  }

  /** Weight decay since the last activity: any function of the record. */
  type DecayFn = SynapseRecord -> real

  function Faded(rs: seq<SynapseRecord>, decay: DecayFn): (r: seq<SynapseRecord>)
    ensures |r| == |rs| && forall i :: 0 <= i < |rs| ==> r[i] == rs[i].(weight := decay(rs[i]))
  {
    Map((r: SynapseRecord) => r.(weight := decay(r)), rs)
  }

  // ---- signature failures and reconnection --------------------------------------------------

  function Penalize(s: Tables, id: SynapseId, now: u64, c: NodeConfig): (Tables, Option<FailureOutcome>) {
    if id !in s.synapses then (s, None)
    else
      var (r, out) := AfterSignatureFailure(s.synapses[id], now, c.synapse, c.learning);
      (s.(synapses := s.synapses[id := r]), Some(out))
  }

  datatype Linked = Linked(record: SynapseRecord) | CoolingDown(remainingSecs: nat)

  function CoolsUntil(r: SynapseRecord, lc: LearningConfig): u64 {
    SatAdd(r.lastActive, lc.Cooldown())
  }

  /** A synapse re-formed after its cooldown: a clear count and the initial weight. */
  function Reformed(r: SynapseRecord, now: u64, sc: SynapseConfig): SynapseRecord {
    Activated(r.(weight := sc.initialWeight, signatureFailures := 0, failureWindowStart := 0, state := Forming))
      .(lastActive := now)
  }

  function NewSynapse(id: SynapseId, peer: NodeId, now: u64, sc: SynapseConfig): SynapseRecord {
    Activated(SynapseRecord(id, peer, sc.initialWeight, Forming, now, 0, 0))
  }

  ghost function Upsert(s: Tables, peer: NodeId, freshId: SynapseId, now: u64, c: NodeConfig): (Tables, Linked) {
    match SynapseFor(s.synapses, peer)
    case None =>
      var r := NewSynapse(freshId, peer, now, c.synapse);
      (s.(synapses := s.synapses[freshId := r]), Linked(r))
    case Some(id) =>
      var r := s.synapses[id];
      if r.state.Pruned? then
        if now < CoolsUntil(r, c.learning) then (s, CoolingDown((CoolsUntil(r, c.learning) - now) / NANOS_PER_SEC))
        else
          var r' := Reformed(r, now, c.synapse);
          (s.(synapses := s.synapses[id := r']), Linked(r'))
      else
        var r' := Reactivated(r, c.synapse);
        (s.(synapses := s.synapses[id := r']), Linked(r'))
  }

  // ---- the node, in place ---------------------------------------------------------------------

  class Node {
    const config: NodeConfig
    const store: MemoryStore

    constructor (config: NodeConfig, store: MemoryStore)
      ensures this.config == config && this.store == store
    {
      this.config, this.store := config, store;
    }

    method NormalizeOutboundWeights() returns (factor: Option<real>)
      requires KeyedById(store.synapses)
      modifies store
      ensures store.View() == old(store.View()).(synapses := NormalizedTable(old(store.synapses), config.learning))
      ensures factor == FactorFor(TableTotal(old(store.synapses)), config.learning)
    {
      ghost var t := store.synapses;
      var records := store.ListSynapses({});
      ListingTotal(records, t);
      if |records| == 0 {
        return None;
      }
      var weights := new real[|records|](i requires 0 <= i < |records| => records[i].weight);
      assert weights[..] == Weights(records);
      factor := NormalizeOutbound(weights, config.learning);
      if factor.None? {
        return;
      }
      PutWeights(records, weights, factor.value);
    }

    /** Writes the normalised weights back, record by record. */
    method PutWeights(records: seq<SynapseRecord>, weights: array<real>, ghost factor: real)
      requires KeyedById(store.synapses) && Covers(records, store.synapses, {})
      requires weights.Length == |records|
      requires forall i :: 0 <= i < |records| ==> weights[i] == Rescaled(records[i].weight, factor, config.learning.minWeight)
      modifies store`synapses
      ensures store.synapses == RescaledTable(old(store.synapses), factor, config.learning.minWeight)
    {
      ghost var t := store.synapses;
      ghost var t' := RescaledTable(t, factor, config.learning.minWeight);
      for i := 0 to |records|
        invariant store.synapses.Keys == t.Keys
        invariant forall j :: 0 <= j < i ==> store.synapses[records[j].id] == t'[records[j].id]
        modifies store`synapses
      {
        assert forall j :: 0 <= j < i ==> Ids(records)[j] != Ids(records)[i];
        store.PutSynapse(records[i].(weight := weights[i]));
      }
      forall id | id in t ensures store.synapses[id] == t'[id] {
        assert t[id] in records;
      }
    }

    method ApplyOutcomeToSynapse(entry: JournalEntry, outcome: Outcome, now: u64) returns (update: WeightUpdate)
      requires KeyedById(store.synapses)
      modifies store
      ensures (store.View(), update) == ApplyOutcome(old(store.View()), entry, outcome, now, config)
      ensures KeyedById(store.synapses)
    {
      hide NormalizedTable, InfluenceSince, AfterOutcome;
      var windowStart := config.learning.InfluenceWindowStart(now);
      var used := InfluenceSince(store.influence, entry.peer, windowStart);
      if entry.synapse !in store.synapses {
        return NO_UPDATE;
      }
      var synapse := new Synapse.FromRecord(store.synapses[entry.synapse], config.synapse);
      update := synapse.ApplyOutcome(outcome, Clamp(entry.signalWeight, 0.0, 1.0), used, config.learning);
      if Abs(update.appliedDelta) > EPSILON {
        var _ := store.RecordInfluence(entry.peer, update.appliedDelta, now, windowStart);
      }
      synapse.lastActive := now;
      store.PutSynapse(synapse.ToRecord());
      var _ := NormalizeOutboundWeights();
    }

    /** Resolves one decision and applies its outcome if this call resolved it. */
    method Settle(id: nat, outcome: Outcome,
            now: u64)
      returns (update: Option<WeightUpdate>, ghost applied: seq<Application>)
      requires KeyedById(store.synapses)
      modifies store
      ensures (store.View(), applied) == Settled(old(store.View()), id, outcome, now, config)
      ensures update == UpdateIn(applied)
      ensures KeyedById(store.synapses)
    {
      applied := [];
      var resolved := store.ResolveDecision(id, outcome, now);
      if resolved.None? {
        return None, [];
      }
      var entry := resolved.value;
      if entry.resolvedAt != Some(now) {
        return None, [];
      }
      var u := ApplyOutcomeToSynapse(entry, outcome, now);
      applied := [Application(entry, outcome, now, u)];
      update := Some(u);
    }

    method ApplyReceipt(signal: SignalId, status: ReceiptStatus, from: NodeId, now: u64)
      returns (update: Option<WeightUpdate>, ghost applied: seq<Application>)
      requires KeyedById(store.synapses)
      modifies store
      ensures (store.View(), applied) == AfterReceipt(old(store.View()), signal, status, from, now, config)
      ensures update == UpdateIn(applied)
      ensures KeyedById(store.synapses)
    {
      var pending := PendingFor(store.journal, signal, from);
      if pending.None? {
        return None, [];
      }
      update, applied := Settle(pending.value.id, OutcomeOf(status), now);
    }

    method SweepTimeouts(limit: nat, now: u64) returns (resolved: nat, ghost applied: seq<Application>)
      requires KeyedById(store.synapses)
      modifies store
      ensures (store.View(), applied) == AfterSweep(old(store.View()), limit, now, config)
      ensures resolved == |applied|
      ensures KeyedById(store.synapses)
    {
      ghost var s := store.View();
      var ids := Expired(store.journal, config.learning.ReceiptDeadline(now), limit);
      resolved, applied := 0, [];
      for i := 0 to |ids|
        invariant KeyedById(store.synapses)
        invariant (store.View(), applied) == SettledAll(s, ids[..i], TimedOut, now, config)
        invariant resolved == |applied|
      {
        assert ids[..i + 1][..i] == ids[..i];
        var update;
        ghost var one;
        update, one := Settle(ids[i], TimedOut, now);
        applied := applied + one;
        if update.Some? {
          resolved := resolved + 1;
        }
      }
      assert ids[..|ids|] == ids;
    }

    method FailForward(id: nat, now: u64) returns (update: Option<WeightUpdate>, ghost applied: seq<Application>)
      requires KeyedById(store.synapses)
      modifies store
      ensures (store.View(), applied) == AfterFailedForward(old(store.View()), id, now, config)
      ensures update == UpdateIn(applied)
      ensures KeyedById(store.synapses)
    {
      update, applied := Settle(id, TransportFailure, now);
    }

    /** The synapses that will carry a signal, chosen by their decayed weights. */
    method ChooseSynapses(signal: Signal, arrival: Option<SynapseId>, pc: PropagationConfig, decay: DecayFn,
            score: ScoreFn, exp: PositiveFn, unit: UnitDraws, below: BelowFn)
      returns (chosen: seq<Chosen>, ghost listed: seq<SynapseRecord>)
      requires config.IsValid() && KeyedById(store.synapses)
      ensures FloodDepthReached(signal) || IsListing(listed, store.synapses, {Active, Weakening})
      ensures chosen == if FloodDepthReached(signal) then []
                        else Selected(Faded(listed, decay), signal.scope, arrival, pc, config.learning.EffectiveTemperature(),
                                      score, exp, unit, below)
    {
      if FloodDepthReached(signal) {
        return [], [];
      }
      var records := store.ListSynapses({Active, Weakening});
      listed := records;
      if records == [] {
        return [], listed;
      }
      chosen := SelectSynapses(Faded(records, decay), signal.scope, arrival, pc, config.learning.EffectiveTemperature(),
                               score, exp, unit, below);
    }

    /** Chooses synapses for a signal and journals each decision. */
    method PlanForwarding(signal: Signal, arrival: Option<SynapseId>, now: u64, pc: PropagationConfig,
            decay: DecayFn, score: ScoreFn, exp: PositiveFn, unit: UnitDraws, below: BelowFn)
      returns (forwards: seq<Forward>, ghost chosen: seq<Chosen>, ghost listed: seq<SynapseRecord>)
      requires config.IsValid() && KeyedById(store.synapses)
      modifies store
      ensures FloodDepthReached(signal) || IsListing(listed, store.synapses, {Active, Weakening})
      ensures chosen == if FloodDepthReached(signal) then []
                        else Selected(Faded(listed, decay), signal.scope, arrival, pc, config.learning.EffectiveTemperature(),
                                      score, exp, unit, below)
      ensures (store.View(), forwards) == Journalled(old(store.View()), signal, chosen, now)
    {
      hide Selected, Faded, IsListing, FloodDepthReached;
      ghost var s := store.View();
      var choices;
      choices, listed := ChooseSynapses(signal, arrival, pc, decay, score, exp, unit, below);
      chosen := choices;
      forwards := [];
      for i := 0 to |choices|
        invariant store.synapses == s.synapses
        invariant (store.View(), forwards) == Journalled(s, signal, choices[..i], now)
      {
        assert choices[..i + 1][..i] == choices[..i];
        var c := choices[i];
        var id := store.AppendDecision(Decision(signal, c, now));
        forwards := forwards + [Forward(c.synapse.id, c.synapse.peer, id, c.explored)];
      }
      assert choices[..|choices|] == choices;
    }

    method PenalizeSignatureFailure(id: SynapseId, now: u64) returns (result: Option<FailureOutcome>)
      requires KeyedById(store.synapses)
      modifies store
      ensures (store.View(), result) == Penalize(old(store.View()), id, now, config)
      ensures KeyedById(store.synapses)
    {
      if id !in store.synapses {
        return None;
      }
      var synapse := new Synapse.FromRecord(store.synapses[id], config.synapse);
      var out := synapse.ApplySignatureFailure(now, config.learning);
      store.PutSynapse(synapse.ToRecord());
      result := Some(out);
    }

    method UpsertSynapse(peer: NodeId, freshId: SynapseId, now: u64) returns (result: Linked)
      requires KeyedById(store.synapses) && OnePerPeer(store.synapses)
      modifies store
      ensures (store.View(), result) == Upsert(old(store.View()), peer, freshId, now, config)
    {
      var found := store.SynapseForPeer(peer);
      if found.Some? {
        var existing := store.synapses[found.value];
        var synapse := new Synapse.FromRecord(existing, config.synapse);
        if existing.state.Pruned? {
          var cooldown := SatMul(config.learning.signatureFailureCooldownSecs, NANOS_PER_SEC);
          var until := SatAdd(existing.lastActive, cooldown);
          if now < until {
            return CoolingDown((until - now) / NANOS_PER_SEC);
          }
          synapse.weight := config.synapse.initialWeight;
          synapse.signatureFailures := 0;
          synapse.failureWindowStart := 0;
          synapse.state := Forming;
          synapse.Activate();
          synapse.lastActive := now;
          var record := synapse.ToRecord();
          store.PutSynapse(record);
          return Linked(record);
        }
        if existing.state.Dormant? {
          synapse.Reactivate();
          var record := synapse.ToRecord();
          store.PutSynapse(record);
          return Linked(record);
        }
        assert store.synapses[found.value := existing] == store.synapses;
        return Linked(existing);
      }
      var synapse := new Synapse.FromRecord(
        SynapseRecord(freshId, peer, config.synapse.initialWeight, Forming, now, 0, 0), config.synapse);
      synapse.Activate();
      var record := synapse.ToRecord();
      store.PutSynapse(record);
      result := Linked(record);
    }
  }
}
