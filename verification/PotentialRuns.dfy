/** When a gate fires, read off its inputs alone: the potential is what the offers since the
    last fire have added up to, and the deadline is that fire's. */
module PotentialRuns {
  import opened Base
  import opened RealProducts
  import opened Activation
  import opened ActivationRuns

  // ---- what the inputs since a point add up to -----------------------------------------------------

  function Contribution(s: QueuedSignal, synapseWeight: real): real {
    s.weight * synapseWeight
  }

  /** What the offers among these inputs contribute, in order. */
  function Contributions(inputs: seq<Input>): seq<real> {
    if inputs == [] then []
    else
      var last := inputs[|inputs| - 1];
      Contributions(inputs[..|inputs| - 1]) + if last.Offer? then [Contribution(last.s, last.synapseWeight)] else []
  }

  /** Added up one by one from a start, never above the ceiling. */
  function Accumulated(start: real, contributions: seq<real>, ceiling: real): real {
    if contributions == [] then start
    else
      var sum := Accumulated(start, contributions[..|contributions| - 1], ceiling) + contributions[|contributions| - 1];
      if sum > ceiling then ceiling else sum
  }

  function Plain(contributions: seq<real>): real {
    if contributions == [] then 0.0
    else Plain(contributions[..|contributions| - 1]) + contributions[|contributions| - 1]
  }

  lemma {:induction false} AccumulatedSnoc(start: real, contributions: seq<real>, x: real, ceiling: real)
    ensures Accumulated(start, contributions + [x], ceiling) == RMin(Accumulated(start, contributions, ceiling) + x, ceiling)
  {
    assert (contributions + [x])[..|contributions|] == contributions;
  }

  lemma {:induction false} ContributionsSnoc(front: seq<Input>, last: Input)
    ensures Contributions(front + [last]) ==
              Contributions(front) + if last.Offer? then [Contribution(last.s, last.synapseWeight)] else []
  {
    var all := front + [last];
    assert all[..|all| - 1] == front && all[|all| - 1] == last;
    hide Contribution;
  }

  /** The ceiling only ever takes away. */
  lemma {:induction false} AccumulatedIsAtMost(contributions: seq<real>, ceiling: real)
    ensures Accumulated(0.0, contributions, ceiling) <= Plain(contributions)
  {
    if contributions != [] { AccumulatedIsAtMost(contributions[..|contributions| - 1], ceiling); }
  }

  // ---- fires ---------------------------------------------------------------------------------------

  function Reached(p: Params, inputs: seq<Input>): History
    requires p.IsValid()
  {
    After(p, Begin(NewGate(p)), inputs)
  }

  /** The n-th input made the gate fire. */
  predicate FiresAt(p: Params, inputs: seq<Input>, n: nat)
    requires p.IsValid() && n < |inputs|
  {
    |Reached(p, inputs[..n + 1]).fires| > |Reached(p, inputs[..n]).fires|
  }

  /** The gate fired at the input before the m-th, if there is one, and not since; and it has
      not been restarted since. */
  ghost predicate LastFireBefore(p: Params, inputs: seq<Input>, m: nat)
    requires p.IsValid()
  {
    && m <= |inputs|
    && (m > 0 ==> FiresAt(p, inputs, m - 1))
    && forall n :: m <= n < |inputs| ==> !FiresAt(p, inputs, n) && inputs[n] != Restart
  }

  function TimeOf(input: Input): u64 {
    match input
    case Offer(_, _, now, _) => now
    case Poll(now) => now
    case Drain(now) => now
    case _ => 0
  }

  /** The end of the refractory period of the fire before the m-th input. */
  function DeadlineSince(p: Params, inputs: seq<Input>, m: nat): u64
    requires m <= |inputs|
  {
    if m == 0 then 0
    else if TimeOf(inputs[m - 1]) + p.refractoryPeriod <= U64_MAX then TimeOf(inputs[m - 1]) + p.refractoryPeriod
    else U64_MAX
  }

  // ---- one input -------------------------------------------------------------------------------------

  lemma {:induction false} ReachedSnoc(p: Params, inputs: seq<Input>, n: nat)
    requires p.IsValid() && n < |inputs|
    ensures Reached(p, inputs[..n + 1]) == Next(p, Reached(p, inputs[..n]), inputs[n])
  {
    assert inputs[..n + 1] == inputs[..n] + [inputs[n]];
    AfterSnoc(p, Begin(NewGate(p)), inputs[..n], inputs[n]);
  }

  lemma {:induction false} FireEmpties(p: Params, g: Gate, now: u64)
    requires p.IsValid()
    ensures var (g', batch) := Fire(p, g, now);
            && g'.potential == 0.0 && g'.refractoryUntil == SatAdd(now, p.refractoryPeriod) && g'.threshold == g.threshold
            && (batch != [] <==> g.queue != [])
  {
    FireTakesTheFront(p, g, now);
    hide FireOrder;
  }

  lemma {:induction false} EnqueueFills(p: Params, q: seq<QueuedSignal>, s: QueuedSignal)
    requires p.IsValid() && |q| <= p.maxQueueDepth
    ensures var q' := Enqueue(p, q, s).0;
            |q'| == (if |q| < p.maxQueueDepth then |q| + 1 else p.maxQueueDepth) > 0
  {
    EnqueueAccounts(p, q, s);
    assert |multiset(q) + multiset{s}| == |q| + 1;
  }

  /** The threshold a queue of this length calls for. */
  function ThresholdFor(p: Params, length: nat): real
    requires p.IsValid()
  {
    if p.dynamic then p.baseThreshold * (1.0 + length as real / p.maxQueueDepth as real) else p.baseThreshold
  }

  /** Some queued signal has waited as long as the latency guard allows. */
  ghost predicate SomeoneStarves(p: Params, queue: seq<QueuedSignal>, now: u64) {
    p.maxQueueLatency > 0 && exists x :: x in queue && x.enqueuedAt + p.maxQueueLatency <= now
  }

  /** The rule of the gate's function, for a potential and a threshold. */
  predicate RuleFires(p: Params, potential: real, threshold: real, draw: real) {
    match p.function_
    case Step => threshold <= potential
    case Sigmoid => draw * (1.0 + p.exp(10.0 * (threshold - potential))) < 1.0
    case Leaky => threshold <= potential || draw < p.leakRate
  }

  lemma {:induction false} StarvesIff(p: Params, g: Gate, now: u64)
    ensures IsStarving(p, g, now) <==> SomeoneStarves(p, g.queue, now)
  {
    if IsStarving(p, g, now) {
      var i :| 0 <= i < |g.queue| && HasWaited(p, g.queue[i], now);
      assert g.queue[i] in g.queue;
    }
    if SomeoneStarves(p, g.queue, now) {
      var x :| x in g.queue && x.enqueuedAt + p.maxQueueLatency <= now;
      var i :| 0 <= i < |g.queue| && g.queue[i] == x;
      assert HasWaited(p, g.queue[i], now);
    }
  }

  lemma {:induction false} BelowQuotient(draw: real, d: real)
    requires d > 0.0
    ensures draw < 1.0 / d <==> draw * d < 1.0
  {
    QuotTimes(1.0, d);
    TimesCancels(Quot(1.0, d), draw, d);
    assert Quot(1.0, d) == 1.0 / d && Times(draw, d) == draw * d;
  }

  lemma {:induction false} EvaluatesBy(p: Params, g: Gate, draw: real)
    requires g.queue != []
    ensures Evaluate(p, g, draw) <==> RuleFires(p, g.potential, g.threshold, draw)
  {
    assert -10.0 * (g.potential - g.threshold) == 10.0 * (g.threshold - g.potential);
    BelowQuotient(draw, 1.0 + p.exp(10.0 * (g.threshold - g.potential)));
  }

  lemma {:induction false} LoadIsLength(p: Params, q: seq<QueuedSignal>)
    requires p.IsValid() && |q| <= p.maxQueueDepth
    ensures DynamicThreshold(p, q) == p.baseThreshold * (1.0 + |q| as real / p.maxQueueDepth as real)
  {
    assert 0.0 <= |q| as real / p.maxQueueDepth as real <= 1.0;
  }

  /** What one input does to the potential, the threshold and the deadline, and when it makes
      the gate fire. */
  ghost predicate InputEffect(p: Params, h: History, h': History, input: Input)
    requires p.IsValid()
  {
    var fires := |h'.fires| > |h.fires|;
    var (g, g') := (h.gate, h'.gate);
    && (fires ==> g'.potential == 0.0 && g'.refractoryUntil == SatAdd(TimeOf(input), p.refractoryPeriod))
    && (!fires && input != Restart ==> g'.refractoryUntil == g.refractoryUntil)
    && (g'.threshold == p.baseThreshold || p.dynamic)
    && (match input
        case Offer(s, w, now, draw) =>
          var potential := RMin(g.potential + Contribution(s, w), p.maxPotential);
          var queue := Enqueue(p, g.queue, s).0;
          && (fires <==> now >= g.refractoryUntil
                         && (RuleFires(p, potential, ThresholdFor(p, |queue|), draw) || SomeoneStarves(p, queue, now)))
          && (!fires ==> g'.potential == potential)
        case Poll(now) =>
          && (fires <==> now >= g.refractoryUntil && SomeoneStarves(p, g.queue, now))
          && (!fires ==> g'.potential == g.potential)
        case Drain(now) => (fires <==> g.queue != []) && (!fires ==> g'.potential == g.potential)
        case Checkpoint => !fires && g'.potential == g.potential
        case Restart => !fires)
  }

  ghost predicate SteadyThreshold(p: Params, h: History) {
    && |h.gate.queue| <= p.maxQueueDepth
    && (p.dynamic ||
        (h.gate.threshold == p.baseThreshold
         && (h.saved.Some? ==> h.saved.value.snapshot.threshold == p.baseThreshold)))
  }

  lemma {:induction false} AdmitFires(p: Params, g: Gate, s: QueuedSignal, w: real, now: u64, draw: real)
    requires p.IsValid() && |g.queue| <= p.maxQueueDepth && (p.dynamic || g.threshold == p.baseThreshold)
    ensures var (g', out) := Admit(p, g, s, w, now, draw);
            var potential := RMin(g.potential + Contribution(s, w), p.maxPotential);
            var queue := Enqueue(p, g.queue, s).0;
            var threshold := ThresholdFor(p, |queue|);
            && (out.fired != [] <==> now >= g.refractoryUntil
                                     && (RuleFires(p, potential, threshold, draw) || SomeoneStarves(p, queue, now)))
            && g'.threshold == threshold
            && (out.fired != [] ==> g'.potential == 0.0 && g'.refractoryUntil == SatAdd(now, p.refractoryPeriod))
            && (out.fired == [] ==> g'.potential == potential && g'.refractoryUntil == g.refractoryUntil)
  {
    var (g1, dropped) := Loaded(p, g, s, w);
    assert g1.potential == RMin(g.potential + Contribution(s, w), p.maxPotential) && g1.refractoryUntil == g.refractoryUntil;
    assert g1.queue == Enqueue(p, g.queue, s).0;
    EnqueueFills(p, g.queue, s);
    LoadIsLength(p, g1.queue);
    assert g1.threshold == ThresholdFor(p, |g1.queue|);
    assert InRefractory(g1, now) <==> now < g.refractoryUntil;
    var (g2, batch) := Fire(p, g1, now);
    assert Admit(p, g, s, w, now, draw) == if !InRefractory(g1, now) && (Evaluate(p, g1, draw) || IsStarving(p, g1, now))
                                           then (g2, AdmitOutcome(batch, dropped)) else (g1, AdmitOutcome([], dropped));
    hide *;
    EvaluatesBy(p, g1, draw);
    StarvesIff(p, g1, now);
    FireEmpties(p, g1, now);
  }

  lemma {:induction false} AdmitKeepsBound(p: Params, g: Gate, s: QueuedSignal, w: real, now: u64, draw: real)
    requires p.IsValid() && |g.queue| <= p.maxQueueDepth
    ensures |Admit(p, g, s, w, now, draw).0.queue| <= p.maxQueueDepth
  {
    AdmitEffect(p, g, s, w, now, draw);
    hide Admit;
  }

  lemma {:induction false} OfferEffects(p: Params, h: History, s: QueuedSignal, w: real, now: u64, draw: real)
    requires p.IsValid() && SteadyThreshold(p, h)
    ensures var input := Offer(s, w, now, draw);
            InputEffect(p, h, Next(p, h, input), input) && SteadyThreshold(p, Next(p, h, input))
  {
    assert !p.dynamic ==> forall n :: ThresholdFor(p, n) == p.baseThreshold;
    hide Admit, Enqueue, RuleFires, SomeoneStarves, ThresholdFor, Contribution, RMin;
    AdmitFires(p, h.gate, s, w, now, draw);
    AdmitKeepsBound(p, h.gate, s, w, now, draw);
  }

  lemma {:induction false} DrainFires(p: Params, g: Gate, now: u64)
    requires p.IsValid()
    ensures var (g', batch) := DrainIfStarving(p, g, now);
            && (batch != [] <==> now >= g.refractoryUntil && SomeoneStarves(p, g.queue, now))
            && (batch != [] ==> g'.potential == 0.0 && g'.refractoryUntil == SatAdd(now, p.refractoryPeriod))
            && (batch == [] ==> g' == g) && g'.threshold == g.threshold && |g'.queue| <= |g.queue|
    ensures var (g', batch) := DrainBatch(p, g, now);
            && (batch != [] <==> g.queue != [])
            && (batch != [] ==> g'.potential == 0.0 && g'.refractoryUntil == SatAdd(now, p.refractoryPeriod))
            && (batch == [] ==> g' == g) && g'.threshold == g.threshold && |g'.queue| <= |g.queue|
  {
    StarvesIff(p, g, now);
    FireEmpties(p, g, now);
    FireTakesTheFront(p, g, now);
    assert SomeoneStarves(p, g.queue, now) ==> g.queue != [];
    hide Fire, IsStarving, SomeoneStarves;
  }

  lemma {:induction false} OtherEffects(p: Params, h: History, input: Input)
    requires p.IsValid() && SteadyThreshold(p, h) && !input.Offer?
    ensures InputEffect(p, h, Next(p, h, input), input) && SteadyThreshold(p, Next(p, h, input))
  {
    hide DrainIfStarving, DrainBatch, SomeoneStarves, RuleFires;
    DrainFires(p, h.gate, TimeOf(input));
  }

  lemma {:induction false} ReachedEffect(p: Params, inputs: seq<Input>, n: nat)
    requires p.IsValid() && n < |inputs|
    ensures InputEffect(p, Reached(p, inputs[..n]), Reached(p, inputs[..n + 1]), inputs[n])
    ensures SteadyThreshold(p, Reached(p, inputs[..n]))
  {
    if n > 0 {
      ReachedSnoc(p, inputs, n - 1);
      ReachedEffect(p, inputs, n - 1);
      var h := Reached(p, inputs[..n - 1]);
      assert SteadyThreshold(p, h);
      hide Reached, InputEffect, SteadyThreshold;
      if inputs[n - 1].Offer? {
        OfferEffects(p, h, inputs[n - 1].s, inputs[n - 1].synapseWeight, inputs[n - 1].now, inputs[n - 1].draw);
      } else {
        OtherEffects(p, h, inputs[n - 1]);
      }
    }
    ReachedSnoc(p, inputs, n);
    hide InputEffect;
    if inputs[n].Offer? {
      OfferEffects(p, Reached(p, inputs[..n]), inputs[n].s, inputs[n].synapseWeight, inputs[n].now, inputs[n].draw);
    } else {
      OtherEffects(p, Reached(p, inputs[..n]), inputs[n]);
    }
  }

  // ---- a run ------------------------------------------------------------------------------------------

  /** The potential is what the offers since the last fire have added up to, never above the
      ceiling - nothing, right after the fire - and the deadline is that fire's. */
  lemma {:induction false} PotentialSinceFire(p: Params, inputs: seq<Input>, m: nat)
    requires p.IsValid() && LastFireBefore(p, inputs, m)
    ensures var g := Reached(p, inputs).gate;
            && g.potential == Accumulated(0.0, Contributions(inputs[m..]), p.maxPotential)
            && g.refractoryUntil == DeadlineSince(p, inputs, m)
    decreases |inputs|
  {
    assert m <= |inputs|;
    hide *;
    if m == |inputs| {
      PotentialAtFire(p, inputs);
    } else {
      FrontKeepsLastFire(p, inputs, m);
      PotentialSinceFire(p, inputs[..|inputs| - 1], m);
      QuietKeeps(p, inputs, m);
    }
  }

  lemma {:induction false} DropSnoc(inputs: seq<Input>, m: nat)
    requires m < |inputs|
    ensures inputs[m..] == inputs[..|inputs| - 1][m..] + [inputs[|inputs| - 1]]
  {
  }

  lemma {:induction false} QuietKeeps(p: Params, inputs: seq<Input>, m: nat)
    requires p.IsValid() && LastFireBefore(p, inputs, m) && m < |inputs|
    requires var front := inputs[..|inputs| - 1];
             var g := Reached(p, front).gate;
             && g.potential == Accumulated(0.0, Contributions(front[m..]), p.maxPotential)
             && g.refractoryUntil == DeadlineSince(p, front, m)
    ensures Reached(p, inputs).gate.potential == Accumulated(0.0, Contributions(inputs[m..]), p.maxPotential)
    ensures Reached(p, inputs).gate.refractoryUntil == DeadlineSince(p, inputs, m)
  {
    var front, last := inputs[..|inputs| - 1], inputs[|inputs| - 1];
    hide *;
    DropSnoc(inputs, m);
    SameDeadline(p, inputs, m);
    QuietInput(p, inputs, m);
    AccumulatesOne(front[m..], last, Reached(p, front).gate.potential, Reached(p, inputs).gate.potential, p.maxPotential);
  }

  lemma {:induction false} SameDeadline(p: Params, inputs: seq<Input>, m: nat)
    requires m < |inputs|
    ensures DeadlineSince(p, inputs, m) == DeadlineSince(p, inputs[..|inputs| - 1], m)
  {
  }

  lemma {:induction false} AccumulatesOne(inputs: seq<Input>, last: Input, before: real, after: real, ceiling: real)
    requires before == Accumulated(0.0, Contributions(inputs), ceiling)
    requires after == if last.Offer? then RMin(before + Contribution(last.s, last.synapseWeight), ceiling) else before
    ensures after == Accumulated(0.0, Contributions(inputs + [last]), ceiling)
  {
    ContributionsSnoc(inputs, last);
    hide *;
    if last.Offer? {
      AccumulatedSnoc(0.0, Contributions(inputs), Contribution(last.s, last.synapseWeight), ceiling);
    } else {
      assert Contributions(inputs) + [] == Contributions(inputs);
    }
  }

  lemma {:induction false} PotentialAtFire(p: Params, inputs: seq<Input>)
    requires p.IsValid() && LastFireBefore(p, inputs, |inputs|)
    ensures var g := Reached(p, inputs).gate;
            && g.potential == Accumulated(0.0, Contributions(inputs[|inputs|..]), p.maxPotential) == 0.0
            && g.refractoryUntil == DeadlineSince(p, inputs, |inputs|)
  {
    assert inputs[|inputs|..] == [] && inputs[..|inputs|] == inputs;
    if inputs != [] {
      ReachedEffect(p, inputs, |inputs| - 1);
      hide Reached, RuleFires, SomeoneStarves, ThresholdFor, Enqueue;
    }
  }

  /** An input that makes no fire adds its contribution, if it is an offer. */
  lemma {:induction false} QuietInput(p: Params, inputs: seq<Input>, m: nat)
    requires p.IsValid() && LastFireBefore(p, inputs, m) && m < |inputs|
    ensures var last := inputs[|inputs| - 1];
            var g, g' := Reached(p, inputs[..|inputs| - 1]).gate, Reached(p, inputs).gate;
            && g'.potential == (if last.Offer?
                                then RMin(g.potential + Contribution(last.s, last.synapseWeight), p.maxPotential)
                                else g.potential)
            && g'.refractoryUntil == g.refractoryUntil
  {
    assert inputs[..|inputs|] == inputs;
    ReachedEffect(p, inputs, |inputs| - 1);
    assert !FiresAt(p, inputs, |inputs| - 1) && inputs[|inputs| - 1] != Restart;
    hide Reached, RuleFires, SomeoneStarves, ThresholdFor, Enqueue, LastFireBefore, Contribution, RMin;
  }

  lemma {:induction false} FrontKeepsLastFire(p: Params, inputs: seq<Input>, m: nat)
    requires p.IsValid() && LastFireBefore(p, inputs, m) && m < |inputs|
    ensures LastFireBefore(p, inputs[..|inputs| - 1], m)
  {
    var front := inputs[..|inputs| - 1];
    forall n | 0 <= n < |front| ensures FiresAt(p, front, n) <==> FiresAt(p, inputs, n) {
      assert front[..n] == inputs[..n] && front[..n + 1] == inputs[..n + 1];
    }
    hide FiresAt;
  }

  /** When an input makes a gate with this history fire, given what the offers since the last
      fire add up to with it, and that fire's deadline. */
  ghost predicate FiresWhen(p: Params, h: History, h': History, input: Input, potential: real, deadline: u64)
    requires p.IsValid()
  {
    var fires := |h'.fires| > |h.fires|;
    match input
    case Offer(s, w, now, draw) =>
      var queue := Enqueue(p, h.gate.queue, s).0;
      fires <==> now >= deadline
                 && (RuleFires(p, potential, ThresholdFor(p, |queue|), draw) || SomeoneStarves(p, queue, now))
    case Poll(now) => fires <==> now >= deadline && SomeoneStarves(p, h.gate.queue, now)
    case Drain(_) => fires <==> h.gate.queue != []
    case _ => !fires
  }

  lemma {:induction false} NextFiresWhen(p: Params, inputs: seq<Input>, input: Input, potential: real, deadline: u64)
    requires p.IsValid() && deadline == Reached(p, inputs).gate.refractoryUntil
    requires input.Offer? ==>
               potential == RMin(Reached(p, inputs).gate.potential + Contribution(input.s, input.synapseWeight), p.maxPotential)
    ensures FiresWhen(p, Reached(p, inputs), Reached(p, inputs + [input]), input, potential, deadline)
  {
    var all := inputs + [input];
    assert all[..|inputs|] == inputs && all[..|inputs| + 1] == all && all[|inputs|] == input;
    hide Reached, RuleFires, SomeoneStarves, ThresholdFor, Enqueue, Contribution, RMin;
    ReachedEffect(p, all, |inputs|);
  }

  /** The gate fires on an offer if and only if the last fire's refractory period is over and
      either the rule of its function is met by what the offers since that fire, with this
      one, add up to, against the threshold for the queue it leaves, or someone in that queue
      starves; on a poll if and only if the period is over and someone starves; on a drain if
      and only if anything is queued. */
  lemma {:induction false} FiresIff(p: Params, inputs: seq<Input>, m: nat, input: Input)
    requires p.IsValid() && LastFireBefore(p, inputs, m)
    ensures FiresWhen(p, Reached(p, inputs), Reached(p, inputs + [input]), input,
                      Accumulated(0.0, Contributions(inputs[m..] + [input]), p.maxPotential), DeadlineSince(p, inputs, m))
  {
    var before := Reached(p, inputs).gate.potential;
    var potential := Accumulated(0.0, Contributions(inputs[m..] + [input]), p.maxPotential);
    hide *;
    PotentialSinceFire(p, inputs, m);
    if input.Offer? {
      AccumulatesOne(inputs[m..], input, before,
                     RMin(before + Contribution(input.s, input.synapseWeight), p.maxPotential), p.maxPotential);
    }
    NextFiresWhen(p, inputs, input, potential, DeadlineSince(p, inputs, m));
  }

  lemma {:induction false} ThresholdAtLeastBase(p: Params, length: nat)
    requires p.IsValid() && p.baseThreshold >= 0.0
    ensures ThresholdFor(p, length) >= p.baseThreshold
  {
    var load := length as real / p.maxQueueDepth as real;
    assert load >= 0.0;
    assert p.baseThreshold * (1.0 + load) == p.baseThreshold + p.baseThreshold * load;
  }

  /** A step gate without a latency guard fires on an offer only if the offers since its last
      fire, with this one, contribute its threshold. */
  lemma {:induction false} StepFiresOnContributions(p: Params, inputs: seq<Input>, m: nat, input: Input)
    requires p.IsValid() && LastFireBefore(p, inputs, m) && p.baseThreshold >= 0.0
    requires p.function_ == Step && p.maxQueueLatency == 0 && input.Offer?
    requires FiresAt(p, inputs + [input], |inputs|)
    ensures Plain(Contributions(inputs[m..] + [input])) >= p.baseThreshold
  {
    var all := inputs + [input];
    var queue := Enqueue(p, Reached(p, inputs).gate.queue, input.s).0;
    assert all[..|inputs|] == inputs && all[..|inputs| + 1] == all;
    var potential, deadline := Accumulated(0.0, Contributions(inputs[m..] + [input]), p.maxPotential), DeadlineSince(p, inputs, m);
    assert FiresWhen(p, Reached(p, inputs), Reached(p, all), input, potential, deadline) ==>
             RuleFires(p, potential, ThresholdFor(p, |queue|), input.draw) || SomeoneStarves(p, queue, input.now);
    assert !SomeoneStarves(p, queue, input.now);
    assert forall potential, threshold: real :: RuleFires(p, potential, threshold, input.draw) <==> threshold <= potential;
    hide *;
    FiresIff(p, inputs, m, input);
    AccumulatedIsAtMost(Contributions(inputs[m..] + [input]), p.maxPotential);
    ThresholdAtLeastBase(p, |queue|);
  }

  lemma {:induction false} SavedStays(p: Params, inputs: seq<Input>, n: nat)
    requires p.IsValid() && n < |inputs| && inputs[n] == Checkpoint
    requires forall k :: n < k < |inputs| ==> inputs[k] != Checkpoint
    ensures var h := Reached(p, inputs);
            h.saved.Some? && h.saved.value.snapshot == TakeSnapshot(Reached(p, inputs[..n]).gate)
    decreases |inputs|
  {
    var front, last := inputs[..|inputs| - 1], inputs[|inputs| - 1];
    assert inputs[..|inputs|] == inputs;
    ReachedSnoc(p, inputs, |inputs| - 1);
    assert Reached(p, inputs) == Next(p, Reached(p, front), last);
    if n < |front| {
      assert front[..n] == inputs[..n];
      SavedStays(p, front, n);
      hide Reached, Admit, DrainIfStarving, DrainBatch;
    }
  }

  /** A restart goes back to the last checkpoint - its threshold, deadline and count, and its
      potential within the bounds - or to a new gate; the queue is lost. */
  lemma {:induction false} RestartRecalls(p: Params, inputs: seq<Input>, n: nat)
    requires p.IsValid() && n < |inputs| && inputs[n] == Checkpoint && p.maxPotential >= 0.0
    requires forall k :: n < k < |inputs| ==> inputs[k] != Checkpoint
    ensures var g, g' := Reached(p, inputs[..n]).gate, Reached(p, inputs + [Restart]).gate;
            && g'.threshold == g.threshold && g'.refractoryUntil == g.refractoryUntil && g'.signalsFired == g.signalsFired
            && g'.potential == RMax(0.0, RMin(g.potential, p.maxPotential)) && g'.queue == []
  {
    SavedStays(p, inputs, n);
    AfterSnoc(p, Begin(NewGate(p)), inputs, Restart);
    hide After;
  }
}
