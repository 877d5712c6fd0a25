/** Runs of the learning loop: any interleaving of decisions, receipts, sweeps, transport
    failures, signature failures and reconnections, from an empty store. */
module NodeRuns {
  import opened Base
  import opened RealProducts
  import opened Learning
  import opened OutboundWeights
  import opened Synapses
  import opened Store
  import opened Signals
  import opened Sampling
  import opened Propagation
  import opened Nodes

  datatype Input =
    | Decide(signal: Signal, chosen: seq<Chosen>, at: u64)
    | Receipt(correlation: SignalId, status: ReceiptStatus, from: NodeId, at: u64)
    | Sweep(limit: nat, at: u64)
    | Fail(journalId: nat, at: u64)
    | BadSignature(synapse: SynapseId, at: u64)
    | Reconnect(peer: NodeId, freshId: SynapseId, at: u64)

  /** The store, and every application of an outcome so far. */
  datatype Run = Run(s: Tables, log: seq<Application>)

  const EMPTY := Tables(map[], map[], [], 0, [])

  ghost function Step(s: Tables, input: Input, c: NodeConfig): (Tables, seq<Application>) {
    match input
    case Decide(signal, chosen, now) => (Journalled(s, signal, chosen, now).0, [])
    case Receipt(signal, status, from, now) => AfterReceipt(s, signal, status, from, now, c)
    case Sweep(limit, now) => AfterSweep(s, limit, now, c)
    case Fail(id, now) => AfterFailedForward(s, id, now, c)
    case BadSignature(id, now) => (Penalize(s, id, now, c).0, [])
    case Reconnect(peer, freshId, now) => (Upsert(s, peer, freshId, now, c).0, [])
  }

  ghost function Next(r: Run, input: Input, c: NodeConfig): Run {
    var (s', applied) := Step(r.s, input, c);
    Run(s', r.log + applied)
  }

  ghost function After(inputs: seq<Input>, c: NodeConfig): Run {
    if inputs == [] then Run(EMPTY, []) else Next(After(inputs[..|inputs| - 1], c), inputs[|inputs| - 1], c)
  }

  /** Decisions are over synapses of the table, and a new synapse gets an unused id. */
  ghost predicate Admissible(s: Tables, input: Input) {
    && (input.Decide? ==> forall i :: 0 <= i < |input.chosen| ==>
          var r := input.chosen[i].synapse; r.id in s.synapses && s.synapses[r.id].peer == r.peer)
    && (input.Reconnect? ==> input.freshId !in s.synapses)
  }

  ghost predicate IsRun(inputs: seq<Input>, c: NodeConfig) {
    forall n :: 0 <= n < |inputs| ==> Admissible(After(inputs[..n], c).s, inputs[n])
  }

  // ---- what every state satisfies ----------------------------------------------------------

  ghost predicate TableInv(t: SynapseTable) {
    KeyedById(t) && OnePerPeer(t)
  }

  ghost predicate IdsRise(journal: Journal, next: nat) {
    && (forall i, j :: 0 <= i < j < |journal| ==> journal[i].id < journal[j].id)
    && (forall i :: 0 <= i < |journal| ==> journal[i].id <= next)
  }

  ghost predicate PeersAgree(journal: Journal, t: SynapseTable) {
    forall i :: 0 <= i < |journal| ==> journal[i].synapse in t && t[journal[i].synapse].peer == journal[i].peer
  }

  /** Whatever the configuration. */
  ghost predicate Inv(s: Tables) {
    TableInv(s.synapses) && IdsRise(s.journal, s.nextJournalId) && PeersAgree(s.journal, s.synapses)
  }

  /** Under a configuration that keeps them there, every weight is in range. */
  ghost predicate Ranged(t: SynapseTable, c: NodeConfig) {
    c.KeepsRange() && AllInRange(t, c.learning)
  }

  ghost predicate SamePeers(t: SynapseTable, t': SynapseTable) {
    forall id :: id in t ==> id in t' && t'[id].peer == t[id].peer
  }

  /** Replacing a record by one for the same peer keeps the table sound. */
  lemma {:induction false} PutKeepsTable(t: SynapseTable, id: SynapseId, r: SynapseRecord, c: NodeConfig)
    requires TableInv(t) && id in t && r.id == id && r.peer == t[id].peer
    ensures TableInv(t[id := r]) && SamePeers(t, t[id := r])
    ensures Ranged(t, c) && c.learning.InRange(r.weight) ==> Ranged(t[id := r], c)
  {
  }

  lemma {:induction false} AddKeepsTable(t: SynapseTable, id: SynapseId, r: SynapseRecord, c: NodeConfig)
    requires TableInv(t) && id !in t && r.id == id
    requires forall x :: x in t ==> t[x].peer != r.peer
    ensures TableInv(t[id := r]) && SamePeers(t, t[id := r])
    ensures Ranged(t, c) && c.learning.InRange(r.weight) ==> Ranged(t[id := r], c)
  {
  }

  lemma {:induction false} NormalizeKeepsTable(t: SynapseTable, c: NodeConfig)
    requires TableInv(t)
    ensures TableInv(NormalizedTable(t, c.learning)) && SamePeers(t, NormalizedTable(t, c.learning))
  {
    var t' := NormalizedTable(t, c.learning);
    NormalizedKeyed(t, c.learning);
    assert forall id :: id in t ==> t'[id] == t[id].(weight := t'[id].weight);
  }

  lemma {:induction false} NormalizeKeepsRange(t: SynapseTable, c: NodeConfig)
    requires Ranged(t, c)
    ensures Ranged(NormalizedTable(t, c.learning), c)
    ensures forall id :: id in t ==> NormalizedTable(t, c.learning)[id].weight <= t[id].weight
  {
    var t' := NormalizedTable(t, c.learning);
    forall id | id in t ensures c.learning.minWeight <= t'[id].weight <= t[id].weight {
      TableIsMonotone(t, c.learning, id, id);
    }
  }

  // ---- one settled decision, step by step ------------------------------------------------------

  /** What settling does to the journal: at most one entry, and only if still pending. */
  ghost predicate JournalStep(j: Journal, j': Journal, applied: seq<Application>, id: nat, outcome: Outcome, now: u64) {
    var i := Find(j, id);
    if i == |j| then j' == j && applied == []
    else
      && j' == j[i := Resolved(j[i], outcome, now)]
      && (if j'[i].resolvedAt == Some(now)
          then |applied| == 1 && applied[0].entry == j'[i] && applied[0].outcome == outcome && applied[0].at == now
          else applied == [])
  }

  /** Some application in the list was to this synapse. */
  ghost predicate Touches(applied: seq<Application>, id: SynapseId) {
    exists i :: 0 <= i < |applied| && applied[i].entry.synapse == id
  }

  /** What applied outcomes leave alone, and the stamp they put on what they touch. */
  ghost predicate Learnt(t: SynapseTable, t': SynapseTable, applied: seq<Application>, now: u64) {
    && t'.Keys == t.Keys
    && forall id :: id in t ==>
         && t'[id].peer == t[id].peer && t'[id].state.Pruned? == t[id].state.Pruned?
         && t'[id].signatureFailures == t[id].signatureFailures && t'[id].failureWindowStart == t[id].failureWindowStart
         && t'[id].lastActive == if Touches(applied, id) then now else t[id].lastActive
  }

  /** What an applied outcome does to the weights. */
  ghost predicate Weighed(t: SynapseTable, t': SynapseTable, a: Application, lc: LearningConfig) {
    var id := a.entry.synapse;
    && id in t && t'.Keys == t.Keys
    && (forall x :: x in t && x != id ==> t'[x].weight <= t[x].weight)
    && t'[id].weight <= t[id].weight + RMax(a.update.appliedDelta, 0.0)
    && TableTotal(t') <= lc.maxTotalOutboundWeight + Times(|t.Keys| as real, lc.minWeight)
  }

  lemma {:induction false} SettledJournal(s: Tables, id: nat, outcome: Outcome, now: u64, c: NodeConfig)
    ensures var (s', applied) := Settled(s, id, outcome, now, c);
            && JournalStep(s.journal, s'.journal, applied, id, outcome, now)
            && s'.nextJournalId == s.nextJournalId
            && (applied == [] ==> s'.synapses == s.synapses && s'.influence == s.influence)
            && (applied != [] ==>
                  var s1 := s.(journal := s'.journal);
                  var a := applied[0];
                  (s', a.update) == ApplyOutcome(s1, a.entry, a.outcome, a.at, c))
  {
    hide ApplyOutcome;
  }

  /** The rewarded record: stamped, and otherwise only its weight and its standing change. */
  lemma {:induction false} RewardedRecord(s: Tables, e: JournalEntry, outcome: Outcome, now: u64, c: NodeConfig)
    requires e.synapse in s.synapses
    ensures var t := s.synapses[e.synapse];
            var r := Rewarded(s, e, outcome, now, c).0;
            && r.id == t.id && r.peer == t.peer && r.state.Pruned? == t.state.Pruned? && r.lastActive == now
            && r.signatureFailures == t.signatureFailures && r.failureWindowStart == t.failureWindowStart
  {
    hide ApplyReward;
  }

  /** In range, and no higher than the update says. */
  lemma {:induction false} RewardedWeight(s: Tables, e: JournalEntry, outcome: Outcome, now: u64, c: NodeConfig)
    requires e.synapse in s.synapses && Ranged(s.synapses, c)
    ensures var (r, u) := Rewarded(s, e, outcome, now, c);
            c.learning.InRange(r.weight) && r.weight <= s.synapses[e.synapse].weight + RMax(u.appliedDelta, 0.0)
  {
    var used := InfluenceSince(s.influence, e.peer, c.learning.InfluenceWindowStart(now));
    RewardIsCapped(s.synapses[e.synapse].weight, outcome, Clamp(e.signalWeight, 0.0, 1.0), used, c.learning);
  }

  lemma {:induction false} AppliedTable(s: Tables, e: JournalEntry, outcome: Outcome, now: u64, c: NodeConfig)
    requires TableInv(s.synapses) && e.synapse in s.synapses
    ensures var (s', u) := ApplyOutcome(s, e, outcome, now, c);
            var a := Application(e, outcome, now, u);
            && TableInv(s'.synapses) && SamePeers(s.synapses, s'.synapses)
            && Learnt(s.synapses, s'.synapses, [a], now)
            && (Ranged(s.synapses, c) ==> Ranged(s'.synapses, c) && Weighed(s.synapses, s'.synapses, a, c.learning))
  {
    var id := e.synapse;
    var (r, u) := Rewarded(s, e, outcome, now, c);
    RewardedRecord(s, e, outcome, now, c);
    assert r.id == id;
    if Ranged(s.synapses, c) { RewardedWeight(s, e, outcome, now, c); }
    hide Rewarded, TableInv, Weighed, Learnt, SamePeers, NormalizedTable, Ranged;
    PutKeepsTable(s.synapses, id, r, c);
    NormalizeKeepsTable(s.synapses[id := r], c);
    StampedPut(s.synapses, r, Application(e, outcome, now, u), c);
    if Ranged(s.synapses, c) { WeighedPut(s.synapses, r, Application(e, outcome, now, u), c); }
    PeersThrough(s.synapses, s.synapses[id := r], NormalizedTable(s.synapses[id := r], c.learning));
  }

  lemma {:induction false} PeersThrough(a: SynapseTable, b: SynapseTable, c: SynapseTable)
    requires SamePeers(a, b) && SamePeers(b, c)
    ensures SamePeers(a, c)
  {
  }

  lemma {:induction false} StampedPut(t: SynapseTable, r: SynapseRecord, a: Application, c: NodeConfig)
    requires a.entry.synapse == r.id && r.id in t
    requires r.peer == t[r.id].peer && r.state.Pruned? == t[r.id].state.Pruned? && r.lastActive == a.at
    requires r.signatureFailures == t[r.id].signatureFailures && r.failureWindowStart == t[r.id].failureWindowStart
    ensures Learnt(t, NormalizedTable(t[r.id := r], c.learning), [a], a.at)
  {
    var put := t[r.id := r];
    assert put.Keys == t.Keys;
    var t' := NormalizedTable(put, c.learning);
    assert forall x :: x in put ==> t'[x] == put[x].(weight := t'[x].weight);
    assert [a][0].entry.synapse == r.id;
    hide NormalizedTable;
  }

  lemma {:induction false} WeighedPut(t: SynapseTable, r: SynapseRecord, a: Application, c: NodeConfig)
    requires TableInv(t) && Ranged(t, c) && a.entry.synapse == r.id && r.id in t && r.peer == t[r.id].peer
    requires c.learning.InRange(r.weight) && r.weight <= t[r.id].weight + RMax(a.update.appliedDelta, 0.0)
    ensures Ranged(NormalizedTable(t[r.id := r], c.learning), c)
    ensures Weighed(t, NormalizedTable(t[r.id := r], c.learning), a, c.learning)
  {
    var put := t[r.id := r];
    assert put.Keys == t.Keys;
    PutKeepsTable(t, r.id, r, c);
    NormalizeKeepsRange(put, c);
    TableTotalBound(put, c.learning);
    hide NormalizedTable, TableInv;
  }

  lemma {:induction false} NothingLearnt(t: SynapseTable, now: u64)
    ensures Learnt(t, t, [], now)
  {
  }

  /** Settling keeps every invariant, and changes the table as one application does. */
  lemma {:induction false} SettledStep(s: Tables, id: nat, outcome: Outcome, now: u64, c: NodeConfig)
    requires Inv(s)
    ensures var (s', applied) := Settled(s, id, outcome, now, c);
            && Inv(s') && SamePeers(s.synapses, s'.synapses) && (Ranged(s.synapses, c) ==> Ranged(s'.synapses, c))
            && |applied| <= 1 && Learnt(s.synapses, s'.synapses, applied, now)
            && (applied == [] ==> s'.synapses == s.synapses)
            && (applied != [] ==>
                  var a := applied[0];
                  && a.outcome == outcome && a.at == now
                  && a.entry.synapse in s.synapses && a.entry.peer == s.synapses[a.entry.synapse].peer
                  && (Ranged(s.synapses, c) ==> Weighed(s.synapses, s'.synapses, a, c.learning)))
  {
    var (s', applied) := Settled(s, id, outcome, now, c);
    SettledJournal(s, id, outcome, now, c);
    hide Settled, ApplyOutcome, Learnt, Weighed, Ranged, TableInv, SamePeers;
    JournalStaysSound(s, s'.journal, applied, id, outcome, now, c);
    if applied != [] {
      var s1 := s.(journal := s'.journal);
      AppliedTable(s1, applied[0].entry, outcome, now, c);
      PeersStillAgree(s'.journal, s.synapses, s'.synapses);
      assert applied == [applied[0]];
    } else {
      SamePeersRefl(s.synapses);
      NothingLearnt(s.synapses, now);
    }
  }

  lemma {:induction false} SamePeersRefl(t: SynapseTable)
    ensures SamePeers(t, t)
  {
  }

  lemma {:induction false} PeersStillAgree(j: Journal, t: SynapseTable, t': SynapseTable)
    requires PeersAgree(j, t) && SamePeers(t, t')
    ensures PeersAgree(j, t')
  {
  }

  lemma {:induction false} JournalStaysSound(s: Tables, j': Journal, applied: seq<Application>, id: nat,
          outcome: Outcome, now: u64, c: NodeConfig)
    requires Inv(s) && JournalStep(s.journal, j', applied, id, outcome, now)
    ensures IdsRise(j', s.nextJournalId) && PeersAgree(j', s.synapses) && |applied| <= 1
    ensures applied != [] ==> var e := applied[0].entry;
              e.synapse in s.synapses && e.peer == s.synapses[e.synapse].peer && e in j'
  {
  }

  lemma {:induction false} LearntTwice(a: SynapseTable, b: SynapseTable, d: SynapseTable, as1: seq<Application>,
          as2: seq<Application>, now: u64)
    requires Learnt(a, b, as1, now) && Learnt(b, d, as2, now)
    ensures Learnt(a, d, as1 + as2, now)
  {
    forall id ensures Touches(as1 + as2, id) <==> Touches(as1, id) || Touches(as2, id) {
      if Touches(as1, id) {
        var i :| 0 <= i < |as1| && as1[i].entry.synapse == id;
        assert (as1 + as2)[i].entry.synapse == id;
      }
      if Touches(as2, id) {
        var i :| 0 <= i < |as2| && as2[i].entry.synapse == id;
        assert (as1 + as2)[|as1| + i].entry.synapse == id;
      }
    }
    hide Touches;
  }

  lemma {:induction false} SettledAllStep(s: Tables, ids: seq<nat>, outcome: Outcome, now: u64, c: NodeConfig)
    requires Inv(s)
    ensures var (s', applied) := SettledAll(s, ids, outcome, now, c);
            && Inv(s') && SamePeers(s.synapses, s'.synapses) && (Ranged(s.synapses, c) ==> Ranged(s'.synapses, c))
            && Learnt(s.synapses, s'.synapses, applied, now)
  {
    hide Settled, Inv, Ranged, Learnt, SamePeers;
    if ids == [] {
      NothingLearnt(s.synapses, now);
      SamePeersRefl(s.synapses);
    } else {
      var front := ids[..|ids| - 1];
      var (s1, as1) := SettledAll(s, front, outcome, now, c);
      var (s2, as2) := Settled(s1, ids[|ids| - 1], outcome, now, c);
      SettledAllStep(s, front, outcome, now, c);
      SettledStep(s1, ids[|ids| - 1], outcome, now, c);
      LearntTwice(s.synapses, s1.synapses, s2.synapses, as1, as2, now);
      PeersThrough(s.synapses, s1.synapses, s2.synapses);
    }
  }

  lemma {:induction false} JournalledKeepsInv(s: Tables, signal: Signal, chosen: seq<Chosen>, now: u64, c: NodeConfig)
    requires Inv(s) && Admissible(s, Decide(signal, chosen, now))
    ensures var s' := Journalled(s, signal, chosen, now).0;
            && Inv(s') && s'.synapses == s.synapses && s'.influence == s.influence
  {
    if chosen != [] {
      var front := chosen[..|chosen| - 1];
      forall i | 0 <= i < |front|
        ensures var r := front[i].synapse; r.id in s.synapses && s.synapses[r.id].peer == r.peer
      {
        assert front[i] == chosen[i];
      }
      JournalledKeepsInv(s, signal, front, now, c);
    }
  }

  lemma {:induction false} PenalizeKeepsTable(s: Tables, id: SynapseId, now: u64, c: NodeConfig)
    requires Inv(s)
    ensures var s' := Penalize(s, id, now, c).0;
            && Inv(s') && SamePeers(s.synapses, s'.synapses) && s'.synapses.Keys == s.synapses.Keys
            && s'.journal == s.journal && s'.influence == s.influence
            && (Ranged(s.synapses, c) ==>
                  Ranged(s'.synapses, c) && forall x :: x in s.synapses ==> s'.synapses[x].weight <= s.synapses[x].weight)
  {
    var t := s.synapses;
    if id in t {
      var r := AfterSignatureFailure(t[id], now, c.synapse, c.learning).0;
      if Ranged(t, c) { PenaltyLowers(t[id].weight, c.learning); }
      PutKeepsTable(t, id, r, c);
      assert t[id := r].Keys == t.Keys;
    }
  }

  lemma {:induction false} UpsertKeepsTable(s: Tables, peer: NodeId, freshId: SynapseId, now: u64, c: NodeConfig)
    requires Inv(s) && freshId !in s.synapses
    ensures var s' := Upsert(s, peer, freshId, now, c).0;
            && Inv(s') && SamePeers(s.synapses, s'.synapses) && (Ranged(s.synapses, c) ==> Ranged(s'.synapses, c))
            && s'.journal == s.journal && s'.influence == s.influence
  {
    var t := s.synapses;
    var t' := Upsert(s, peer, freshId, now, c).0.synapses;
    match SynapseFor(t, peer)
    case None => AddKeepsTable(t, freshId, NewSynapse(freshId, peer, now, c.synapse), c);
    case Some(id) =>
      if t'[id] != t[id] { PutKeepsTable(t, id, t'[id], c); }
  }

  lemma {:induction false} StepKeepsInv(s: Tables, input: Input, c: NodeConfig)
    requires Inv(s) && Admissible(s, input)
    ensures var s' := Step(s, input, c).0; Inv(s') && (Ranged(s.synapses, c) ==> Ranged(s'.synapses, c))
  {
    hide Inv, Ranged, Settled, SettledAll, Upsert, Penalize, Journalled;
    match input
    case Decide(signal, chosen, now) => JournalledKeepsInv(s, signal, chosen, now, c);
    case Receipt(signal, status, from, now) =>
      var found := PendingFor(s.journal, signal, from);
      if found.Some? { SettledStep(s, found.value.id, OutcomeOf(status), now, c); }
    case Sweep(limit, now) =>
      SettledAllStep(s, Expired(s.journal, c.learning.ReceiptDeadline(now), limit), TimedOut, now, c);
    case Fail(id, now) => SettledStep(s, id, TransportFailure, now, c);
    case BadSignature(id, now) => PenalizeKeepsTable(s, id, now, c);
    case Reconnect(peer, freshId, now) => UpsertKeepsTable(s, peer, freshId, now, c);
  }

  /** The last step of a run is a step of a shorter one. */
  lemma {:induction false} LastStep(inputs: seq<Input>, c: NodeConfig)
    requires inputs != [] && IsRun(inputs, c)
    ensures var front, last := inputs[..|inputs| - 1], inputs[|inputs| - 1];
            && IsRun(front, c) && Admissible(After(front, c).s, last)
            && After(inputs, c) == Next(After(front, c), last, c)
            && After(inputs, c).s == Step(After(front, c).s, last, c).0
            && After(inputs, c).log == After(front, c).log + Step(After(front, c).s, last, c).1
  {
    FrontIsRun(inputs, |inputs| - 1, c);
    hide Step, Admissible;
  }

  lemma {:induction false} StartIsSound(c: NodeConfig)
    ensures Inv(After([], c).s) && (c.KeepsRange() ==> Ranged(After([], c).s.synapses, c))
  {
  }

  /** Every reachable state, whatever the configuration: one synapse per peer, journal ids
      rising, and every decision naming its synapse's own peer; and, with a configuration
      that keeps them there, every weight in range. */
  lemma {:induction false} EveryRunIsSound(inputs: seq<Input>, c: NodeConfig)
    requires IsRun(inputs, c)
    ensures Inv(After(inputs, c).s) && (c.KeepsRange() ==> Ranged(After(inputs, c).s.synapses, c))
  {
    hide *;
    if inputs == [] {
      StartIsSound(c);
    } else {
      LastStep(inputs, c);
      EveryRunIsSound(inputs[..|inputs| - 1], c);
      StepKeepsInv(After(inputs[..|inputs| - 1], c).s, inputs[|inputs| - 1], c);
    }
  }

  lemma {:induction false} FrontIsRun(inputs: seq<Input>, n: nat, c: NodeConfig)
    requires n <= |inputs| && IsRun(inputs, c)
    ensures IsRun(inputs[..n], c)
  {
    forall k | 0 <= k < n ensures Admissible(After(inputs[..n][..k], c).s, inputs[..n][k]) {
      assert inputs[..n][..k] == inputs[..k];
    }
  }

  // ---- a plan is a decision the runs admit ---------------------------------------------------

  /** Fading changes weights alone. */
  lemma {:induction false} FadedIsListed(listed: seq<SynapseRecord>, t: SynapseTable, decay: DecayFn)
    requires IsListing(listed, t, {Active, Weakening})
    ensures NoDup(Faded(listed, decay))
    ensures forall r :: r in Faded(listed, decay) ==> r.id in t && t[r.id].peer == r.peer
  {
    var faded := Faded(listed, decay);
    forall i, j | 0 <= i < j < |faded| ensures faded[i] != faded[j] { assert Ids(listed)[i] != Ids(listed)[j]; }
    forall r | r in faded ensures r.id in t && t[r.id].peer == r.peer {
      var k :| 0 <= k < |faded| && faded[k] == r;
      assert t[listed[k].id] == listed[k];
    }
  }

  /** What the node chooses from a listing of its table it may journal. */
  lemma {:induction false} ChoicesAreAdmissible(s: Tables, signal: Signal, listed: seq<SynapseRecord>, decay: DecayFn,
          arrival: Option<SynapseId>, pc: PropagationConfig, score: ScoreFn, exp: PositiveFn, unit: UnitDraws,
          below: BelowFn, now: u64, c: NodeConfig)
    requires c.IsValid() && IsListing(listed, s.synapses, {Active, Weakening})
    ensures Admissible(s, Decide(signal, Selected(Faded(listed, decay), signal.scope, arrival, pc,
                                                  c.learning.EffectiveTemperature(), score, exp, unit, below), now))
    ensures Admissible(s, Decide(signal, [], now))
  {
    var t := c.learning.EffectiveTemperature();
    hide Selected, Faded, IsListing, Eligible, NoDup;
    FadedIsListed(listed, s.synapses, decay);
    SelectionIsSound(Faded(listed, decay), signal.scope, arrival, pc, t, score, exp, unit, below);
  }

  // ---- exactly when weights stay in range ----------------------------------------------------

  ghost predicate RunsKeepRange(c: NodeConfig) {
    forall inputs :: IsRun(inputs, c) ==> AllInRange(After(inputs, c).s.synapses, c.learning)
  }

  /** Validation bounds neither the initial weight nor the synapse's own ceiling from below:
      for every valid configuration, every run keeps every weight in range if and only if the
      initial weight is in range and the ceiling is no lower than the floor. */
  lemma {:induction false} RangeKeptIff(c: NodeConfig)
    requires c.IsValid()
    ensures RunsKeepRange(c) <==> c.KeepsRange()
  {
    if c.KeepsRange() {
      forall inputs | IsRun(inputs, c) ensures AllInRange(After(inputs, c).s.synapses, c.learning) {
        EveryRunIsSound(inputs, c);
        hide After, IsRun;
      }
    } else if !c.learning.InRange(c.synapse.initialWeight) {
      ConnectingLeavesRange(c);
      assert !AllInRange(After([Reconnect(0, 0, 0)], c).s.synapses, c.learning);
    } else {
      LowCeilingLeavesRange(c);
      assert !AllInRange(After(LowCeilingRun(), c).s.synapses, c.learning);
    }
  }

  function LowCeilingRun(): seq<Input> {
    [Reconnect(0, 0, 0),
     Decide(Signal(0, 0, 1.0, 1, Gradient, [], BestEffort), [Chosen(SynapseRecord(0, 0, 0.0, Active, 0, 0, 0), 0.0, false)], 0),
     Fail(1, 0)]
  }

  lemma {:induction false} FirstConnection(c: NodeConfig)
    ensures IsRun([Reconnect(0, 0, 0)], c)
    ensures After([Reconnect(0, 0, 0)], c) == Run(EMPTY.(synapses := map[0 := NewSynapse(0, 0, 0, c.synapse)]), [])
  {
    var inputs := [Reconnect(0, 0, 0)];
    assert inputs[..0] == [] && After([], c) == Run(EMPTY, []);
    assert After(inputs, c) == Next(After([], c), inputs[0], c);
    assert SynapseFor(EMPTY.synapses, 0) == None;
  }

  lemma {:induction false} ConnectingLeavesRange(c: NodeConfig)
    requires !c.learning.InRange(c.synapse.initialWeight)
    ensures IsRun([Reconnect(0, 0, 0)], c) && !AllInRange(After([Reconnect(0, 0, 0)], c).s.synapses, c.learning)
  {
    FirstConnection(c);
    assert 0 in map[0 := NewSynapse(0, 0, 0, c.synapse)];
  }

  lemma {:induction false} LoneTotal(r: SynapseRecord)
    ensures r.id == 0 ==> TableTotal(map[0 := r]) == r.weight
  {
    if r.id == 0 {
      var t: SynapseTable := map[0 := r];
      assert Ids([r]) == [0];
      assert Covers([r], t, {}) by {
        forall id | id in t && Passes(t[id], {}) ensures t[id] in [r] { assert [r][0] == r; }
      }
      ListingTotal([r], t);
      assert OutboundWeights.Weights([r]) == [r.weight];
      assert [r.weight][..0] == [];
    }
  }

  lemma {:induction false} LowCeilingLeavesRange(c: NodeConfig)
    requires c.IsValid() && c.synapse.maxWeight < c.learning.minWeight
    ensures IsRun(LowCeilingRun(), c) && !AllInRange(After(LowCeilingRun(), c).s.synapses, c.learning)
  {
    var inputs := LowCeilingRun();
    FirstConnection(c);
    assert inputs[..0] == [] && inputs[..1] == [inputs[0]];
    assert inputs[..2][..1] == inputs[..1] && inputs[..|inputs| - 1] == inputs[..2];
    var r := NewSynapse(0, 0, 0, c.synapse);
    var s1 := EMPTY.(synapses := map[0 := r]);
    assert After(inputs[..1], c).s == s1;
    var chosen := inputs[1].chosen;
    var e := Decision(inputs[1].signal, chosen[0], 0);
    assert chosen[..0] == [] && Journalled(s1, inputs[1].signal, [], 0) == (s1, []);
    var s2 := s1.(journal := [e.(id := 1)], nextJournalId := 1);
    assert Appended([], 0, e) == [e.(id := 1)];
    assert Journalled(s1, inputs[1].signal, chosen, 0).0 == s2;
    assert After(inputs[..2], c).s == s2 by { assert After(inputs[..2], c) == Next(After(inputs[..1], c), inputs[1], c); }
    assert IsRun(inputs, c) by {
      assert Admissible(s1, inputs[1]);
    }
    FailingSinks(s2, c);
    assert After(inputs, c) == Next(After(inputs[..2], c), inputs[2], c);
  }

  /** The failed forward's outcome caps the weight at a ceiling below the floor. */
  lemma {:induction false} FailingSinks(s: Tables, c: NodeConfig)
    requires c.IsValid() && c.synapse.maxWeight < c.learning.minWeight
    requires s.synapses.Keys == {0} && s.synapses[0].id == 0 && |s.journal| == 1
    requires s.journal[0].id == 1 && s.journal[0].outcome == Pending && s.journal[0].synapse == 0
    ensures var s' := AfterFailedForward(s, 1, 0, c).0; 0 in s'.synapses && s'.synapses[0].weight < c.learning.minWeight
  {
    var (journal, found) := Resolve(s.journal, 1, TransportFailure, 0);
    assert Find(s.journal, 1) == 0;
    assert found.Some? && found.value.resolvedAt == Some(0) && found.value.synapse == 0;
    var s1 := s.(journal := journal);
    var (r, u) := Rewarded(s1, found.value, TransportFailure, 0, c);
    assert r.weight <= c.synapse.maxWeight && r.id == 0;
    assert s.synapses[0 := r] == map[0 := r];
    LoneTotal(r);
    assert NormalizedTable(map[0 := r], c.learning) == map[0 := r];
  }
}
