/** A synapse pruned for signature failures carries nothing before its cooldown is over,
    whatever else happens to it. */
module Cooldowns {
  import opened Base
  import opened Learning
  import opened Synapses
  import opened Store
  import opened Nodes
  import opened NodeRuns

  /** Pruned, with a cooldown that began no earlier than `since`. */
  ghost predicate Barred(t: SynapseTable, id: SynapseId, since: u64) {
    id in t && t[id].state.Pruned? && t[id].lastActive >= since
  }

  lemma {:induction false} LearntStaysBarred(t: SynapseTable, t': SynapseTable, applied: seq<Application>, now: u64,
          id: SynapseId, since: u64)
    requires Learnt(t, t', applied, now) && Barred(t, id, since) && since <= now
    ensures Barred(t', id, since)
  {
    hide Touches;
  }

  lemma {:induction false} UpsertStaysBarred(s: Tables, peer: NodeId, freshId: SynapseId, now: u64, c: NodeConfig,
          id: SynapseId, since: u64)
    requires Inv(s) && freshId !in s.synapses && Barred(s.synapses, id, since)
    requires now < SatAdd(since, c.learning.Cooldown())
    ensures Barred(Upsert(s, peer, freshId, now, c).0.synapses, id, since)
  {
    var found := SynapseFor(s.synapses, peer);
    if found == Some(id) {
      assert now < CoolsUntil(s.synapses[id], c.learning);
    }
  }

  lemma {:induction false} PenalizeStaysBarred(s: Tables, sid: SynapseId, now: u64, c: NodeConfig, id: SynapseId,
          since: u64)
    requires Barred(s.synapses, id, since) && since <= now
    ensures Barred(Penalize(s, sid, now, c).0.synapses, id, since)
  {
  }

  lemma {:induction false} StepStaysBarred(s: Tables, input: Input, c: NodeConfig, id: SynapseId, since: u64)
    requires Inv(s) && Admissible(s, input) && Barred(s.synapses, id, since)
    requires since <= input.at < SatAdd(since, c.learning.Cooldown())
    ensures Barred(Step(s, input, c).0.synapses, id, since)
  {
    hide Inv, Barred, Settled, SettledAll, Upsert, Penalize, Journalled, SatAdd, Learnt, Ranged;
    match input
    case Decide(signal, chosen, now) => JournalledKeepsInv(s, signal, chosen, now, c);
    case Receipt(signal, status, from, now) =>
      var found := PendingFor(s.journal, signal, from);
      if found.Some? {
        var (s', applied) := Settled(s, found.value.id, OutcomeOf(status), now, c);
        SettledStep(s, found.value.id, OutcomeOf(status), now, c);
        LearntStaysBarred(s.synapses, s'.synapses, applied, now, id, since);
      }
    case Sweep(limit, now) =>
      var ids := Expired(s.journal, c.learning.ReceiptDeadline(now), limit);
      var (s', applied) := SettledAll(s, ids, TimedOut, now, c);
      SettledAllStep(s, ids, TimedOut, now, c);
      LearntStaysBarred(s.synapses, s'.synapses, applied, now, id, since);
    case Fail(jid, now) =>
      var (s', applied) := Settled(s, jid, TransportFailure, now, c);
      SettledStep(s, jid, TransportFailure, now, c);
      LearntStaysBarred(s.synapses, s'.synapses, applied, now, id, since);
    case BadSignature(sid, now) => PenalizeStaysBarred(s, sid, now, c, id, since);
    case Reconnect(peer, freshId, now) => UpsertStaysBarred(s, peer, freshId, now, c, id, since);
  }

  /** From point `n` on, every reading falls inside the cooldown that began at `since`. */
  ghost predicate DuringCooldown(inputs: seq<Input>, n: nat, since: u64, lc: LearningConfig) {
    forall k :: n <= k < |inputs| ==> since <= inputs[k].at < SatAdd(since, lc.Cooldown())
  }

  lemma {:induction false} RunStaysBarred(inputs: seq<Input>, n: nat, c: NodeConfig, id: SynapseId, since: u64)
    requires IsRun(inputs, c) && n <= |inputs| && DuringCooldown(inputs, n, since, c.learning)
    requires Barred(After(inputs[..n], c).s.synapses, id, since)
    ensures Barred(After(inputs, c).s.synapses, id, since)
    decreases |inputs|
  {
    if n == |inputs| {
      assert inputs[..n] == inputs;
    } else {
      var front, last := inputs[..|inputs| - 1], inputs[|inputs| - 1];
      assert front[..n] == inputs[..n];
      assert DuringCooldown(front, n, since, c.learning) by {
        forall k | n <= k < |front| ensures front[k] == inputs[k] {}
      }
      assert since <= last.at < SatAdd(since, c.learning.Cooldown());
      hide *;
      LastStep(inputs, c);
      RunStaysBarred(front, n, c, id, since);
      EveryRunIsSound(front, c);
      StepStaysBarred(After(front, c).s, last, c, id, since);
    }
  }

  /** What a node may do over a peer's synapses: nothing, if none can carry. */
  ghost predicate Silent(t: SynapseTable, peer: NodeId) {
    forall id :: id in t && t[id].peer == peer ==> !t[id].state.CanCarry()
  }

  lemma {:induction false} BarredIsSilent(s: Tables, c: NodeConfig, id: SynapseId, since: u64)
    requires Inv(s) && Barred(s.synapses, id, since)
    ensures Silent(s.synapses, s.synapses[id].peer)
  {
  }

  lemma {:induction false} PruneBars(s: Tables, id: SynapseId, now: u64, c: NodeConfig)
    requires var out := Penalize(s, id, now, c).1; out.Some? && out.value.pruned
    ensures Barred(Penalize(s, id, now, c).0.synapses, id, now)
  {
  }

  /** After a prune at `t`, no mix of receipts, timeouts, failures, penalties,
      normalisations and reconnections lets any synapse to that peer carry a signal
      while the clock is in [t, t + cooldown). */
  lemma {:induction false} PrunedCarriesNothing(inputs: seq<Input>, n: nat, c: NodeConfig, id: SynapseId, t: u64)
    requires IsRun(inputs, c) && n < |inputs| && inputs[n] == BadSignature(id, t)
    requires var out := Penalize(After(inputs[..n], c).s, id, t, c).1; out.Some? && out.value.pruned
    requires DuringCooldown(inputs, n + 1, t, c.learning)
    ensures id in After(inputs, c).s.synapses
    ensures Silent(After(inputs, c).s.synapses, After(inputs, c).s.synapses[id].peer)
  {
    var upTo := inputs[..n + 1];
    assert upTo[..|upTo| - 1] == inputs[..n] && upTo[|upTo| - 1] == inputs[n];
    FrontIsRun(inputs, n + 1, c);
    LastStep(upTo, c);
    PruneBars(After(inputs[..n], c).s, id, t, c);
    assert Barred(After(upTo, c).s.synapses, id, t);
    hide After, Step, Next, Penalize, IsRun, Inv;
    RunStaysBarred(inputs, n + 1, c, id, t);
    EveryRunIsSound(inputs, c);
    BarredIsSilent(After(inputs, c).s, c, id, t);
  }

  /** A reconnection brings a pruned synapse back exactly when its cooldown is over. */
  lemma {:induction false} ReformsIffCooled(inputs: seq<Input>, c: NodeConfig, id: SynapseId, freshId: SynapseId,
          now: u64)
    requires IsRun(inputs, c)
    requires id in After(inputs, c).s.synapses && After(inputs, c).s.synapses[id].state.Pruned?
    ensures var s := After(inputs, c).s;
            var (s', result) := Upsert(s, s.synapses[id].peer, freshId, now, c);
            && id in s'.synapses
            && (s'.synapses[id].state.CanCarry() <==> now >= CoolsUntil(s.synapses[id], c.learning))
            && (result.CoolingDown? <==> now < CoolsUntil(s.synapses[id], c.learning))
            && (result.CoolingDown? ==> s' == s)
  {
    EveryRunIsSound(inputs, c);
    var s := After(inputs, c).s;
    hide After, IsRun;
    assert SynapseFor(s.synapses, s.synapses[id].peer) == Some(id);
  }

  // ---- when the cooldown ends ----------------------------------------------------------------

  /** The input stamps a pruned synapse: an outcome applied to it, however late, or a
      further failure that again reaches the threshold. */
  ghost predicate Restamps(s: Tables, input: Input, id: SynapseId, c: NodeConfig) {
    match input
    case BadSignature(sid, now) => sid == id && var out := Penalize(s, id, now, c).1; out.Some? && out.value.pruned
    case _ => Touches(Step(s, input, c).1, id)
  }

  /** The latest stamp since the prune at input `n`. */
  ghost function Stamp(inputs: seq<Input>, n: nat, c: NodeConfig, id: SynapseId): u64
    requires n < |inputs|
    decreases |inputs|
  {
    if |inputs| == n + 1 then inputs[n].at
    else
      var front, last := inputs[..|inputs| - 1], inputs[|inputs| - 1];
      if Restamps(After(front, c).s, last, id, c) then last.at else Stamp(front, n, c, id)
  }

  ghost predicate IsPruned(t: SynapseTable, id: SynapseId) {
    id in t && t[id].state.Pruned?
  }

  /** It has not been re-formed since input `n`. */
  ghost predicate StaysPruned(inputs: seq<Input>, n: nat, c: NodeConfig, id: SynapseId) {
    forall m :: n < m <= |inputs| ==> IsPruned(After(inputs[..m], c).s.synapses, id)
  }

  lemma {:induction false} UpsertLeavesPruned(s: Tables, peer: NodeId, freshId: SynapseId, now: u64, c: NodeConfig,
          id: SynapseId)
    requires Inv(s) && freshId !in s.synapses && IsPruned(s.synapses, id)
    requires IsPruned(Upsert(s, peer, freshId, now, c).0.synapses, id)
    ensures Upsert(s, peer, freshId, now, c).0.synapses[id] == s.synapses[id]
  {
  }

  lemma {:induction false} StepStamps(s: Tables, input: Input, c: NodeConfig, id: SynapseId)
    requires Inv(s) && Admissible(s, input) && IsPruned(s.synapses, id) && IsPruned(Step(s, input, c).0.synapses, id)
    ensures Step(s, input, c).0.synapses[id].lastActive ==
              if Restamps(s, input, id, c) then input.at else s.synapses[id].lastActive
  {
    match input
    case Decide(signal, chosen, now) =>
      hide Inv, Journalled;
      JournalledKeepsInv(s, signal, chosen, now, c);
    case Receipt(signal, status, from, now) =>
      var found := PendingFor(s.journal, signal, from);
      hide Inv, Settled;
      if found.Some? { SettledStep(s, found.value.id, OutcomeOf(status), now, c); }
    case Sweep(limit, now) =>
      hide Inv, SettledAll;
      SettledAllStep(s, Expired(s.journal, c.learning.ReceiptDeadline(now), limit), TimedOut, now, c);
    case Fail(jid, now) =>
      hide Inv, Settled;
      SettledStep(s, jid, TransportFailure, now, c);
    case BadSignature(sid, now) =>
    case Reconnect(peer, freshId, now) =>
      UpsertLeavesPruned(s, peer, freshId, now, c, id);
      hide Inv, Upsert;
  }

  /** While a synapse stays pruned its clock reads the latest stamp. */
  lemma {:induction false} PrunedReadsStamp(inputs: seq<Input>, n: nat, c: NodeConfig, id: SynapseId)
    requires IsRun(inputs, c) && n < |inputs| && inputs[n].BadSignature? && inputs[n].synapse == id
    requires Restamps(After(inputs[..n], c).s, inputs[n], id, c) && StaysPruned(inputs, n, c, id)
    ensures IsPruned(After(inputs, c).s.synapses, id) && After(inputs, c).s.synapses[id].lastActive == Stamp(inputs, n, c, id)
    decreases |inputs|
  {
    var front, last := inputs[..|inputs| - 1], inputs[|inputs| - 1];
    hide *;
    StaysPrunedNow(inputs, n, c, id);
    LastStep(inputs, c);
    StampSnoc(inputs, n, c, id);
    if |inputs| == n + 1 {
      PruneBarsAt(After(front, c).s, id, last.at, c);
    } else {
      assert front[..n] == inputs[..n] && front[n] == inputs[n];
      StaysPrunedFront(inputs, n, c, id);
      PrunedReadsStamp(front, n, c, id);
      EveryRunIsSound(front, c);
      StepStamps(After(front, c).s, last, c, id);
    }
  }

  lemma {:induction false} StaysPrunedNow(inputs: seq<Input>, n: nat, c: NodeConfig, id: SynapseId)
    requires n < |inputs| && StaysPruned(inputs, n, c, id)
    ensures IsPruned(After(inputs, c).s.synapses, id)
  {
    assert inputs[..|inputs|] == inputs;
    hide After;
  }

  lemma {:induction false} StampSnoc(inputs: seq<Input>, n: nat, c: NodeConfig, id: SynapseId)
    requires n < |inputs|
    ensures var front, last := inputs[..|inputs| - 1], inputs[|inputs| - 1];
            && Stamp(inputs, n, c, id) ==
                 (if |inputs| == n + 1 || Restamps(After(front, c).s, last, id, c) then last.at else Stamp(front, n, c, id))
            && (last.BadSignature? ==> last == BadSignature(last.synapse, last.at))
  {
    hide After, Restamps;
  }

  lemma {:induction false} PruneBarsAt(s: Tables, id: SynapseId, now: u64, c: NodeConfig)
    requires Restamps(s, BadSignature(id, now), id, c)
    ensures var t' := Step(s, BadSignature(id, now), c).0.synapses; IsPruned(t', id) && t'[id].lastActive == now
  {
  }

  lemma {:induction false} StaysPrunedFront(inputs: seq<Input>, n: nat, c: NodeConfig, id: SynapseId)
    requires n + 1 < |inputs| && StaysPruned(inputs, n, c, id)
    ensures StaysPruned(inputs[..|inputs| - 1], n, c, id)
  {
    var front := inputs[..|inputs| - 1];
    hide After;
    forall m | n < m <= |front| ensures IsPruned(After(front[..m], c).s.synapses, id) { assert front[..m] == inputs[..m]; }
  }

  /** A reconnection re-forms a pruned synapse exactly when the cooldown has run from the
      latest stamp: each late outcome, and each renewed burst of failures, starts it over,
      and without them it runs from the prune. */
  lemma {:induction false} ReformsIffStampCooled(inputs: seq<Input>, n: nat, c: NodeConfig, id: SynapseId,
          freshId: SynapseId, now: u64)
    requires IsRun(inputs, c) && n < |inputs| && inputs[n].BadSignature? && inputs[n].synapse == id
    requires Restamps(After(inputs[..n], c).s, inputs[n], id, c) && StaysPruned(inputs, n, c, id)
    ensures id in After(inputs, c).s.synapses
    ensures var s := After(inputs, c).s;
            var s' := Upsert(s, s.synapses[id].peer, freshId, now, c).0;
            id in s'.synapses
            && (s'.synapses[id].state.CanCarry() <==> now >= SatAdd(Stamp(inputs, n, c, id), c.learning.Cooldown()))
    ensures (forall m :: n < m < |inputs| ==> !Restamps(After(inputs[..m], c).s, inputs[m], id, c)) ==>
              Stamp(inputs, n, c, id) == inputs[n].at
  {
    PrunedReadsStamp(inputs, n, c, id);
    ReformsIffCooled(inputs, c, id, freshId, now);
    UnstampedSince(inputs, n, c, id);
    hide After, IsRun, Restamps, StaysPruned, Upsert, Stamp;
  }

  lemma {:induction false} UnstampedSince(inputs: seq<Input>, n: nat, c: NodeConfig, id: SynapseId)
    requires n < |inputs|
    ensures (forall m :: n < m < |inputs| ==> !Restamps(After(inputs[..m], c).s, inputs[m], id, c)) ==>
              Stamp(inputs, n, c, id) == inputs[n].at
    decreases |inputs|
  {
    if n + 1 < |inputs| && forall m :: n < m < |inputs| ==> !Restamps(After(inputs[..m], c).s, inputs[m], id, c) {
      var front := inputs[..|inputs| - 1];
      hide After, Restamps;
      assert !Restamps(After(inputs[..|inputs| - 1], c).s, inputs[|inputs| - 1], id, c);
      forall m | n < m < |front| ensures !Restamps(After(front[..m], c).s, front[m], id, c) { assert front[..m] == inputs[..m]; }
      UnstampedSince(front, n, c, id);
    }
  }
}
