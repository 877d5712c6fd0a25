/** The activation gate: a bounded queue with an overflow policy, weight-ordered
    batched firing, a refractory deadline and a starvation guard.

    The functions give the gate's value after each operation; the class
    `ActivationState` updates its fields in place and is proved against them. */
module Activation {
  import opened Base
  import opened Sorting

  datatype ActivationFunction = Step | Sigmoid | Leaky

  datatype OverflowPolicy = DropLowestWeight | DropNewest | DropOldest

  datatype Config = Config(
    baseThreshold: real,
    function_: ActivationFunction,
    refractoryPeriodMs: u64,
    maxPotential: real,
    dynamicThreshold: bool,
    fireBatchSize: nat,
    maxQueueDepth: nat,
    overflowPolicy: OverflowPolicy,
    leakRate: real,
    maxQueueLatencyMs: u64)
  {
    /** `ActivationConfig::validate` returns `Ok`. */
    predicate IsValid() {
      && fireBatchSize > 0
      && maxQueueDepth > 0
      && baseThreshold > 0.0
      && maxPotential >= baseThreshold
      && 0.0 <= leakRate <= 1.0
      && (maxQueueLatencyMs > 0 ==> maxQueueLatencyMs >= refractoryPeriodMs)
    }
  }

  datatype QueuedSignal = QueuedSignal(
    id: SignalId,
    origin: NodeId,
    weight: real,
    delivery: DeliveryClass,
    enqueuedAt: u64)

  /** What the gate keeps of its configuration, clamped as `new` clamps it. */
  datatype Params = Params(
    baseThreshold: real,
    function_: ActivationFunction,
    refractoryPeriod: u64,
    maxPotential: real,
    dynamic: bool,
    fireBatchSize: nat,
    maxQueueDepth: nat,
    overflowPolicy: OverflowPolicy,
    leakRate: real,
    maxQueueLatency: u64,
    exp: PositiveFn)
  {
    predicate IsValid() {
      fireBatchSize >= 1 && maxQueueDepth >= 1
    }
  }

  function ParamsOf(c: Config, exp: PositiveFn): Params {
    Params(c.baseThreshold, c.function_, SatMul(c.refractoryPeriodMs, NANOS_PER_MS), c.maxPotential,
           c.dynamicThreshold, if c.fireBatchSize > 1 then c.fireBatchSize else 1,
           if c.maxQueueDepth > 1 then c.maxQueueDepth else 1, c.overflowPolicy, c.leakRate,
           SatMul(c.maxQueueLatencyMs, NANOS_PER_MS), exp)
  }

  datatype Gate = Gate(
    potential: real,
    threshold: real,
    refractoryUntil: u64,
    queue: seq<QueuedSignal>,
    signalsFired: nat,
    signalsDropped: nat,
    overflowEvents: nat)

  function NewGate(p: Params): Gate {
    Gate(0.0, p.baseThreshold, 0, [], 0, 0, 0)
  }

  // ---- restart ----------------------------------------------------------------

  datatype Snapshot = Snapshot(potential: real, threshold: real, refractoryUntil: u64, signalsFired: nat)

  function TakeSnapshot(g: Gate): Snapshot {
    Snapshot(g.potential, g.threshold, g.refractoryUntil, g.signalsFired)
  }

  function Restore(p: Params, g: Gate, s: Snapshot): Gate {
    g.(potential := Clamp(s.potential, 0.0, p.maxPotential), threshold := s.threshold,
       refractoryUntil := s.refractoryUntil, signalsFired := s.signalsFired)
  }

  // ---- enqueue ------------------------------------------------------------------

  /** The first position of least weight. */
  function WeakestIndex(q: seq<QueuedSignal>): (i: nat)
    requires q != []
    ensures i < |q|
    ensures forall j :: 0 <= j < |q| ==> q[i].weight <= q[j].weight
    ensures forall j :: 0 <= j < i ==> q[i].weight < q[j].weight
  {
    if |q| == 1 then 0
    else
      var i := WeakestIndex(q[..|q| - 1]);
      if q[|q| - 1].weight < q[i].weight then |q| - 1 else i
  }

  predicate OlderKey(a: QueuedSignal, b: QueuedSignal) {
    a.enqueuedAt < b.enqueuedAt || (a.enqueuedAt == b.enqueuedAt && a.id <= b.id)
  }

  /** The first position of least (enqueue time, id). */
  function OldestIndex(q: seq<QueuedSignal>): (i: nat)
    requires q != []
    ensures i < |q|
    ensures forall j :: 0 <= j < |q| ==> OlderKey(q[i], q[j])
  {
    if |q| == 1 then 0
    else
      var i := OldestIndex(q[..|q| - 1]);
      if OlderKey(q[i], q[|q| - 1]) then i else |q| - 1
  }

  /** The queue and the drop after offering `s`. */
  function Enqueue(p: Params, q: seq<QueuedSignal>, s: QueuedSignal): (r: (seq<QueuedSignal>, Option<QueuedSignal>))
    requires p.IsValid()
  {
    if |q| < p.maxQueueDepth then (q + [s], None)
    else
      match p.overflowPolicy
      case DropNewest => (q, Some(s))
      case DropOldest =>
        var i := OldestIndex(q);
        (RemoveAt(q, i) + [s], Some(q[i]))
      case DropLowestWeight =>
        var i := WeakestIndex(q);
        if q[i].weight < s.weight then (RemoveAt(q, i) + [s], Some(q[i])) else (q, Some(s))
  }

  // ---- firing ---------------------------------------------------------------------

  /** Weight descending, ties by identifier. */
  predicate FiresBefore(a: QueuedSignal, b: QueuedSignal) {
    a.weight > b.weight || (a.weight == b.weight && a.id <= b.id)
  }

  function FireOrder(q: seq<QueuedSignal>): (r: seq<QueuedSignal>)
    ensures |r| == |q| && multiset(r) == multiset(q)
  {
    SortPermutes(q, FiresBefore);
    Sort(q, FiresBefore)
  }

  function BatchLength(p: Params, q: seq<QueuedSignal>): nat {
    if p.fireBatchSize <= |q| then p.fireBatchSize else |q|
  }

  function Fire(p: Params, g: Gate, now: u64): (Gate, seq<QueuedSignal>)
  {
    var sorted := FireOrder(g.queue);
    var take := BatchLength(p, g.queue);
    (g.(queue := sorted[take..], potential := 0.0, refractoryUntil := SatAdd(now, p.refractoryPeriod),
        signalsFired := g.signalsFired + take),
     sorted[..take])
  }

  /** `draw` is the one uniform draw in [0, 1) that a sigmoid or leaky gate takes. */
  predicate Evaluate(p: Params, g: Gate, draw: real) {
    g.queue != [] &&
    match p.function_
    case Step => g.potential >= g.threshold
    case Sigmoid => draw < 1.0 / (1.0 + p.exp(-10.0 * (g.potential - g.threshold)))
    case Leaky => g.potential >= g.threshold || draw < p.leakRate
  }

  predicate HasWaited(p: Params, s: QueuedSignal, now: u64) {
    SatSub(now, s.enqueuedAt) >= p.maxQueueLatency
  }

  predicate IsStarving(p: Params, g: Gate, now: u64) {
    p.maxQueueLatency != 0 && exists i :: 0 <= i < |g.queue| && HasWaited(p, g.queue[i], now)
  }

  predicate InRefractory(g: Gate, now: u64) {
    now < g.refractoryUntil
  }

  function LoadFactor(p: Params, q: seq<QueuedSignal>): real
    requires p.IsValid()
  {
    Clamp(|q| as real / p.maxQueueDepth as real, 0.0, 1.0)
  }

  function DynamicThreshold(p: Params, q: seq<QueuedSignal>): real
    requires p.IsValid()
  {
    p.baseThreshold * (1.0 + LoadFactor(p, q))
  }

  datatype AdmitOutcome = AdmitOutcome(fired: seq<QueuedSignal>, dropped: Option<QueuedSignal>)

  /** The gate just after the enqueue, before it decides whether to fire. */
  function Loaded(p: Params, g: Gate, s: QueuedSignal, synapseWeight: real): (Gate, Option<QueuedSignal>)
    requires p.IsValid()
  {
    var (queue, dropped) := Enqueue(p, g.queue, s);
    var bump := if dropped.Some? then 1 else 0;
    (g.(potential := RMin(g.potential + s.weight * synapseWeight, p.maxPotential),
        queue := queue,
        overflowEvents := g.overflowEvents + bump,
        signalsDropped := g.signalsDropped + bump,
        threshold := if p.dynamic then DynamicThreshold(p, queue) else g.threshold),
     dropped)
  }

  function Admit(p: Params, g: Gate, s: QueuedSignal, synapseWeight: real, now: u64, draw: real): (Gate, AdmitOutcome)
    requires p.IsValid()
  {
    var (g1, dropped) := Loaded(p, g, s, synapseWeight);
    if !InRefractory(g1, now) && (Evaluate(p, g1, draw) || IsStarving(p, g1, now)) then
      var (g2, batch) := Fire(p, g1, now);
      (g2, AdmitOutcome(batch, dropped))
    else
      (g1, AdmitOutcome([], dropped))
  }

  function DrainIfStarving(p: Params, g: Gate, now: u64): (Gate, seq<QueuedSignal>) {
    if InRefractory(g, now) || !IsStarving(p, g, now) then (g, []) else Fire(p, g, now)
  }

  function DrainBatch(p: Params, g: Gate, now: u64): (Gate, seq<QueuedSignal>) {
    if g.queue == [] then (g, []) else Fire(p, g, now)
  }

  // ---- the gate, in place ----------------------------------------------------------

  class ActivationState {
    const params: Params
    var potential: real
    var threshold: real
    var refractoryUntil: u64
    var queue: seq<QueuedSignal>
    var signalsFired: nat
    var signalsDropped: nat
    var overflowEvents: nat

    function View(): Gate
      reads this
    {
      Gate(potential, threshold, refractoryUntil, queue, signalsFired, signalsDropped, overflowEvents)
    }

    constructor (config: Config, exp: PositiveFn)
      ensures params == ParamsOf(config, exp) && params.IsValid()
      ensures View() == NewGate(params)
    {
      params := ParamsOf(config, exp);
      potential := 0.0;
      threshold := config.baseThreshold;
      refractoryUntil := 0;
      queue := [];
      signalsFired, signalsDropped, overflowEvents := 0, 0, 0;
    }

    method RestoreFrom(snapshot: Snapshot)
      modifies this
      ensures View() == Restore(params, old(View()), snapshot)
    {
      potential := Clamp(snapshot.potential, 0.0, params.maxPotential);
      threshold := snapshot.threshold;
      refractoryUntil := snapshot.refractoryUntil;
      signalsFired := snapshot.signalsFired;
    }

    /** Offer a signal: contribute, enqueue, recompute, and fire if permitted. */
    method AdmitSignal(s: QueuedSignal, synapseWeight: real, now: u64, draw: real) returns (outcome: AdmitOutcome)
      requires params.IsValid()
      modifies this
      ensures (View(), outcome) == Admit(params, old(View()), s, synapseWeight, now, draw)
    {
      var contribution := s.weight * synapseWeight;
      potential := RMin(potential + contribution, params.maxPotential);
      var dropped := EnqueueSignal(s);
      if params.dynamic {
        threshold := DynamicThreshold(params, queue);
      }
      ghost var loaded := Loaded(params, old(View()), s, synapseWeight);
      assert queue == loaded.0.queue && dropped == loaded.1;
      assert View() == loaded.0;
      var fired := [];
      if !InRefractory(View(), now) {
        if Evaluate(params, View(), draw) || IsStarving(params, View(), now) {
          fired := FireBatch(now);
        }
      }
      outcome := AdmitOutcome(fired, dropped);
    }

    method EnqueueSignal(s: QueuedSignal) returns (dropped: Option<QueuedSignal>)
      requires params.IsValid()
      modifies this`queue, this`overflowEvents, this`signalsDropped
      ensures (queue, dropped) == Enqueue(params, old(queue), s)
      ensures overflowEvents == old(overflowEvents) + if dropped.Some? then 1 else 0
      ensures signalsDropped == old(signalsDropped) + if dropped.Some? then 1 else 0
    {
      if |queue| < params.maxQueueDepth {
        queue := queue + [s];
        return None;
      }
      overflowEvents := overflowEvents + 1;
      signalsDropped := signalsDropped + 1;
      match params.overflowPolicy {
        case DropNewest =>
          dropped := Some(s);
        case DropOldest =>
          var i := OldestIndex(queue);
          dropped := Some(queue[i]);
          queue := RemoveAt(queue, i);
          queue := queue + [s];
        case DropLowestWeight =>
          var i := WeakestIndex(queue);
          if queue[i].weight < s.weight {
            dropped := Some(queue[i]);
            queue := RemoveAt(queue, i);
            queue := queue + [s];
          } else {
            dropped := Some(s);
          }
      }
    }

    method FireBatch(now: u64) returns (batch: seq<QueuedSignal>)
      modifies this
      ensures (View(), batch) == Fire(params, old(View()), now)
    {
      queue := FireOrder(queue);
      var take := BatchLength(params, queue);
      batch := queue[..take];
      queue := queue[take..];
      potential := 0.0;
      refractoryUntil := SatAdd(now, params.refractoryPeriod);
      signalsFired := signalsFired + |batch|;
    }

    /** The periodic poll. */
    method DrainStarving(now: u64) returns (batch: seq<QueuedSignal>)
      modifies this
      ensures (View(), batch) == DrainIfStarving(params, old(View()), now)
    {
      if InRefractory(View(), now) || !IsStarving(params, View(), now) {
        return [];
      }
      batch := FireBatch(now);
    }

    method Drain(now: u64) returns (batch: seq<QueuedSignal>)
      modifies this
      ensures (View(), batch) == DrainBatch(params, old(View()), now)
    {
      if queue == [] {
        return [];
      }
      batch := FireBatch(now);
    }
  }

  // ---- one operation ------------------------------------------------------------

  /** A valid configuration is kept as it stands, its milliseconds as nanoseconds up to the
      end of the clock. */
  lemma {:induction false} ValidConfigIsKept(c: Config, exp: PositiveFn)
    requires c.IsValid()
    ensures var p := ParamsOf(c, exp);
            && p.IsValid() && p.fireBatchSize == c.fireBatchSize && p.maxQueueDepth == c.maxQueueDepth
            && p.baseThreshold == c.baseThreshold && p.maxPotential == c.maxPotential && p.leakRate == c.leakRate
            && p.dynamic == c.dynamicThreshold && p.function_ == c.function_ && p.overflowPolicy == c.overflowPolicy
            && (c.refractoryPeriodMs * 1_000_000 <= U64_MAX ==> p.refractoryPeriod == c.refractoryPeriodMs * 1_000_000)
            && (c.maxQueueLatencyMs * 1_000_000 <= U64_MAX ==> p.maxQueueLatency == c.maxQueueLatencyMs * 1_000_000)
            && (c.maxQueueLatencyMs > 0 ==> p.maxQueueLatency >= p.refractoryPeriod && p.maxQueueLatency > 0)
  {
  }

  lemma {:induction false} FiringOrderIsTotal()
    ensures TotalPreorder(FiresBefore)
  {
  }

  /** A fire releases the first `fireBatchSize` signals in (weight descending, id
      ascending) order, in that order, and keeps the rest. */
  lemma {:induction false} FireTakesTheFront(p: Params, g: Gate, now: u64)
    ensures var (g', batch) := Fire(p, g, now);
            && multiset(batch) + multiset(g'.queue) == multiset(g.queue)
            && |batch| + |g'.queue| == |g.queue|
            && |batch| == BatchLength(p, g.queue)
            && batch + g'.queue == FireOrder(g.queue)
            && SortedBy(batch + g'.queue, FiresBefore)
            && (forall a, b :: a in batch && b in g'.queue ==> FiresBefore(a, b))
  {
    FiringOrderIsTotal();
    SortSorts(g.queue, FiresBefore);
    var (g', batch) := Fire(p, g, now);
    assert batch + g'.queue == FireOrder(g.queue);
    forall a, b | a in batch && b in g'.queue ensures FiresBefore(a, b) {
      var i :| 0 <= i < |batch| && batch[i] == a;
      var j :| 0 <= j < |g'.queue| && g'.queue[j] == b;
      assert (batch + g'.queue)[i] == a && (batch + g'.queue)[|batch| + j] == b;
    }
  }

  /** The batch is the heaviest of the queue, the heaviest first, and equals by id. */
  lemma {:induction false} BatchIsHeaviest(p: Params, g: Gate, now: u64)
    ensures var (g', batch) := Fire(p, g, now);
            && |batch| == (if |g.queue| < p.fireBatchSize then |g.queue| else p.fireBatchSize)
            && multiset(batch) + multiset(g'.queue) == multiset(g.queue)
            && (forall a, b :: a in batch && b in g'.queue ==> a.weight > b.weight || (a.weight == b.weight && a.id <= b.id))
            && (forall i, j :: 0 <= i < j < |batch| ==>
                  batch[i].weight > batch[j].weight || (batch[i].weight == batch[j].weight && batch[i].id <= batch[j].id))
  {
    FireTakesTheFront(p, g, now);
    var (g', batch) := Fire(p, g, now);
    hide Fire, FireOrder;
    forall i, j | 0 <= i < j < |batch| ensures FiresBefore(batch[i], batch[j]) {
      assert (batch + g'.queue)[i] == batch[i] && (batch + g'.queue)[j] == batch[j];
    }
  }

  /** Nothing is lost at the queue: what was there and what arrived is what is
      there now and what was dropped; the bound holds; a drop means it was full. */
  lemma {:induction false} EnqueueAccounts(p: Params, q: seq<QueuedSignal>, s: QueuedSignal)
    requires p.IsValid() && |q| <= p.maxQueueDepth
    ensures var (q', dropped) := Enqueue(p, q, s);
            && multiset(q) + multiset{s} == multiset(q') + DroppedSet(dropped)
            && |q'| <= p.maxQueueDepth
            && (dropped.Some? <==> |q| == p.maxQueueDepth)
            && (dropped.Some? ==> |q'| == p.maxQueueDepth)
  {
    if |q| == p.maxQueueDepth {
      match p.overflowPolicy {
        case DropNewest =>
        case DropOldest => RemoveAtPermutes(q, OldestIndex(q));
        case DropLowestWeight => RemoveAtPermutes(q, WeakestIndex(q));
      }
    }
  }

  /** What one offer may do to the gate, whatever the draw. */
  ghost predicate OfferEffect(p: Params, g: Gate, s: QueuedSignal, now: u64, g': Gate, out: AdmitOutcome)
    requires p.IsValid()
  {
    && multiset(g.queue) + multiset{s} == multiset(g'.queue) + multiset(out.fired) + DroppedSet(out.dropped)
    && |g'.queue| <= p.maxQueueDepth
    && |out.fired| <= p.fireBatchSize
    && g'.signalsFired == g.signalsFired + |out.fired|
    && g'.signalsDropped == g.signalsDropped + |DroppedSet(out.dropped)|
    && g'.overflowEvents == g.overflowEvents + |DroppedSet(out.dropped)|
    && (if out.fired == []
        then g'.refractoryUntil == g.refractoryUntil
        else !InRefractory(g, now) && g'.refractoryUntil == SatAdd(now, p.refractoryPeriod))
  }

  lemma {:induction false} LoadedEffect(p: Params, g: Gate, s: QueuedSignal, w: real, now: u64)
    requires p.IsValid() && |g.queue| <= p.maxQueueDepth
    ensures var (g1, dropped) := Loaded(p, g, s, w);
            && OfferEffect(p, g, s, now, g1, AdmitOutcome([], dropped))
            && (g1.queue, dropped) == Enqueue(p, g.queue, s)
  {
    EnqueueAccounts(p, g.queue, s);
  }

  /** A fire on top of an offer. */
  lemma {:induction false} FireAfterOffer(p: Params, g: Gate, s: QueuedSignal, now: u64, g1: Gate,
          dropped: Option<QueuedSignal>,
          g2: Gate, batch: seq<QueuedSignal>)
    requires p.IsValid() && OfferEffect(p, g, s, now, g1, AdmitOutcome([], dropped)) && !InRefractory(g1, now)
    requires multiset(batch) + multiset(g2.queue) == multiset(g1.queue)
    requires |batch| <= p.fireBatchSize && |g2.queue| <= |g1.queue|
    requires batch == [] ==> g1.queue == []
    requires g2.signalsFired == g1.signalsFired + |batch| && g2.refractoryUntil == SatAdd(now, p.refractoryPeriod)
    requires g2.signalsDropped == g1.signalsDropped && g2.overflowEvents == g1.overflowEvents
    ensures batch != [] ==> OfferEffect(p, g, s, now, g2, AdmitOutcome(batch, dropped))
  {
  }

  lemma {:induction false} AdmitEffect(p: Params, g: Gate, s: QueuedSignal, w: real, now: u64, draw: real)
    requires p.IsValid() && |g.queue| <= p.maxQueueDepth
    ensures var (g', out) := Admit(p, g, s, w, now, draw);
            && OfferEffect(p, g, s, now, g', out)
            && out.dropped == Enqueue(p, g.queue, s).1
            && (out.fired == [] ==> g'.queue == Enqueue(p, g.queue, s).0)
  {
    LoadedEffect(p, g, s, w, now);
    var (g1, dropped) := Loaded(p, g, s, w);
    if !InRefractory(g1, now) && (Evaluate(p, g1, draw) || IsStarving(p, g1, now)) {
      FireTakesTheFront(p, g1, now);
      var (g2, batch) := Fire(p, g1, now);
      assert g1.queue != [];
      FireAfterOffer(p, g, s, now, g1, dropped, g2, batch);
    }
  }

  /** What one poll may do to the gate. */
  ghost predicate PollEffect(p: Params, g: Gate, now: u64, g': Gate, batch: seq<QueuedSignal>) {
    && multiset(g.queue) == multiset(g'.queue) + multiset(batch)
    && |g'.queue| <= |g.queue|
    && |batch| <= p.fireBatchSize
    && g'.signalsFired == g.signalsFired + |batch|
    && g'.signalsDropped == g.signalsDropped && g'.overflowEvents == g.overflowEvents
    && (if batch == []
        then g' == g
        else !InRefractory(g, now) && g'.refractoryUntil == SatAdd(now, p.refractoryPeriod))
  }

  lemma {:induction false} DrainEffect(p: Params, g: Gate, now: u64)
    requires p.IsValid()
    ensures var (g', batch) := DrainIfStarving(p, g, now); PollEffect(p, g, now, g', batch)
  {
    FireTakesTheFront(p, g, now);
  }

  function DroppedSet(d: Option<QueuedSignal>): multiset<QueuedSignal> {
    if d.Some? then multiset{d.value} else multiset{}
  }

  /** Under `DropLowestWeight` the drop is a lightest of queue and arrival, and a
      queued signal is displaced only by a strictly heavier arrival. */
  lemma {:induction false} LightestIsDropped(p: Params, q: seq<QueuedSignal>, s: QueuedSignal)
    requires p.IsValid() && p.overflowPolicy == DropLowestWeight && |q| <= p.maxQueueDepth
    ensures var (q', dropped) := Enqueue(p, q, s);
            dropped.Some? ==>
              && dropped.value.weight <= s.weight
              && (forall x :: x in q ==> dropped.value.weight <= x.weight)
              && (q' == q || dropped.value.weight < s.weight)
  {
    if |q| == p.maxQueueDepth {
      var i := WeakestIndex(q);
      forall x | x in q ensures q[i].weight <= x.weight {
        var j :| 0 <= j < |q| && q[j] == x;
      }
    }
  }

  /** Under `DropOldest` the drop is the queued signal that waited longest, the one with the
      least id if several have. */
  lemma {:induction false} OldestIsDropped(p: Params, q: seq<QueuedSignal>, s: QueuedSignal)
    requires p.IsValid() && p.overflowPolicy == DropOldest && |q| == p.maxQueueDepth
    ensures var (q', dropped) := Enqueue(p, q, s);
            && dropped.Some? && dropped.value in q
            && (forall x :: x in q ==>
                  dropped.value.enqueuedAt < x.enqueuedAt
                  || (dropped.value.enqueuedAt == x.enqueuedAt && dropped.value.id <= x.id))
            && |q'| > 0 && q'[|q'| - 1] == s
  {
    var i := OldestIndex(q);
    forall x | x in q ensures OlderKey(q[i], x) {
      var j :| 0 <= j < |q| && q[j] == x;
    }
  }
}
