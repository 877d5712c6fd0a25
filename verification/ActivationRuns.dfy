/** Whole runs of the activation gate: offers, polls, drains, checkpoints and restarts in
    any order, with any clock readings and any draws. */
module ActivationRuns {
  import opened Base
  import opened Sorting
  import opened Activation

  datatype Input =
    | Offer(s: QueuedSignal, synapseWeight: real, now: u64, draw: real)
    | Poll(now: u64)
    | Drain(now: u64)
    | Checkpoint
    | Restart

  /** A batch released; `forced` when by a drain, which does not consult the deadline. */
  datatype FireEvent = FireEvent(at: u64, batch: seq<QueuedSignal>, forced: bool)

  /** The last snapshot saved, and the fires it knows of. */
  datatype Saved = Saved(snapshot: Snapshot, remembered: seq<nat>)

  /** A gate together with everything that has happened to it. `remembered` numbers the
      fires the gate's count and deadline take account of: a restart goes back to those
      the loaded snapshot knew. */
  datatype History = History(
    gate: Gate,
    offered: seq<QueuedSignal>,
    fires: seq<FireEvent>,
    remembered: seq<nat>,
    saved: Option<Saved>,
    drops: seq<QueuedSignal>,
    lost: seq<QueuedSignal>,      // queued when a restart discarded the queue
    dropsAtRestart: nat)          // drops before the counters were last reset

  function Begin(g: Gate): History {
    History(g, [], [], [], None, [], [], 0)
  }

  /** The history after the gate moved to `g`, releasing `batch` if that is not empty. */
  function Fired(h: History, g: Gate, now: u64, batch: seq<QueuedSignal>, forced: bool): History {
    if batch == [] then h.(gate := g)
    else h.(gate := g, fires := h.fires + [FireEvent(now, batch, forced)], remembered := h.remembered + [|h.fires|])
  }

  function Offered(h: History, s: QueuedSignal, now: u64, g: Gate, out: AdmitOutcome): History {
    Fired(h, g, now, out.fired, false)
      .(offered := h.offered + [s], drops := if out.dropped.Some? then h.drops + [out.dropped.value] else h.drops)
  }

  /** What a restart loads: the last snapshot saved, or a new gate if there is none. */
  function Reloaded(p: Params, h: History): History {
    var h' := h.(lost := h.lost + h.gate.queue, dropsAtRestart := |h.drops|);
    match h.saved
    case None => h'.(gate := NewGate(p), remembered := [])
    case Some(saved) => h'.(gate := Restore(p, NewGate(p), saved.snapshot), remembered := saved.remembered)
  }

  function Next(p: Params, h: History, input: Input): History
    requires p.IsValid()
  {
    match input
    case Offer(s, w, now, draw) =>
      var (g, out) := Admit(p, h.gate, s, w, now, draw);
      Offered(h, s, now, g, out)
    case Poll(now) =>
      var (g, batch) := DrainIfStarving(p, h.gate, now);
      Fired(h, g, now, batch, false)
    case Drain(now) =>
      var (g, batch) := DrainBatch(p, h.gate, now);
      Fired(h, g, now, batch, true)
    case Checkpoint => h.(saved := Some(Saved(TakeSnapshot(h.gate), h.remembered)))
    case Restart => Reloaded(p, h)
  }

  function After(p: Params, h: History, inputs: seq<Input>): History
    requires p.IsValid()
  {
    if inputs == [] then h
    else Next(p, After(p, h, inputs[..|inputs| - 1]), inputs[|inputs| - 1])
  }

  lemma {:induction false} AfterSnoc(p: Params, h: History, front: seq<Input>, last: Input)
    requires p.IsValid()
    ensures After(p, h, front + [last]) == Next(p, After(p, h, front), last)
  {
    assert (front + [last])[..|front|] == front;
  }

  function Released(fires: seq<FireEvent>): seq<QueuedSignal> {
    if fires == [] then [] else Released(fires[..|fires| - 1]) + fires[|fires| - 1].batch
  }

  /** The fires with these numbers. */
  function Recall(fires: seq<FireEvent>, numbers: seq<nat>): (r: seq<FireEvent>)
    requires forall k :: 0 <= k < |numbers| ==> numbers[k] < |fires|
    ensures |r| == |numbers| && forall k :: 0 <= k < |r| ==> r[k] == fires[numbers[k]]
  {
    seq(|numbers|, k requires 0 <= k < |numbers| => fires[numbers[k]])
  }

  // ---- which fires the gate remembers -------------------------------------------------

  ghost predicate Rising(numbers: seq<nat>, bound: nat) {
    && (forall i, j :: 0 <= i < j < |numbers| ==> numbers[i] < numbers[j])
    && (forall k :: 0 <= k < |numbers| ==> numbers[k] < bound)
  }

  /** The remembered fires, in order. */
  function Known(h: History): (r: seq<FireEvent>)
    requires Rising(h.remembered, |h.fires|)
    ensures |r| == |h.remembered| && forall k :: 0 <= k < |r| ==> r[k] == h.fires[h.remembered[k]]
  {
    Recall(h.fires, h.remembered)
  }

  /** The deadline a fire sets. */
  function EndOf(p: Params, f: FireEvent): u64 {
    SatAdd(f.at, p.refractoryPeriod)
  }

  /** A fire count and a deadline that take account of exactly these fires. */
  ghost predicate Reflects(p: Params, known: seq<FireEvent>, fired: nat, deadline: u64) {
    fired == |Released(known)| && deadline == if known == [] then 0 else EndOf(p, known[|known| - 1])
  }

  /** Consecutive remembered fires are a refractory period apart, unless the later was
      forced; every batch is non-empty and no larger than a batch. */
  ghost predicate Chained(p: Params, known: seq<FireEvent>) {
    && (forall k :: 0 <= k < |known| ==> 0 < |known[k].batch| <= p.fireBatchSize)
    && (forall k :: 0 <= k < |known| - 1 ==> known[k + 1].forced || known[k + 1].at >= EndOf(p, known[k]))
  }

  /** The saved snapshot takes account of the first of the fires the gate remembers. */
  ghost predicate SavedReflects(p: Params, h: History)
    requires Rising(h.remembered, |h.fires|)
  {
    h.saved.Some? ==>
      var saved := h.saved.value;
      && saved.remembered <= h.remembered
      && Reflects(p, Recall(h.fires, saved.remembered), saved.snapshot.signalsFired, saved.snapshot.refractoryUntil)
  }

  /** What the gate and the saved snapshot know. */
  ghost predicate Recollects(p: Params, h: History) {
    && Rising(h.remembered, |h.fires|)
    && Chained(p, Known(h)) && Reflects(p, Known(h), h.gate.signalsFired, h.gate.refractoryUntil)
    && (forall k :: 0 <= k < |h.fires| ==> 0 < |h.fires[k].batch| <= p.fireBatchSize)
    && SavedReflects(p, h)
  }

  lemma {:induction false} ReleasedSnoc(known: seq<FireEvent>, f: FireEvent)
    ensures Released(known + [f]) == Released(known) + f.batch
  {
    assert (known + [f])[..|known|] == known;
  }

  lemma {:induction false} RecallGrows(fires: seq<FireEvent>, f: FireEvent, numbers: seq<nat>)
    requires forall k :: 0 <= k < |numbers| ==> numbers[k] < |fires|
    ensures Recall(fires + [f], numbers) == Recall(fires, numbers)
    ensures Recall(fires + [f], numbers + [|fires|]) == Recall(fires, numbers) + [f]
  {
  }

  /** A fire past the deadline, or a forced one, extends the chain and sets the deadline. */
  lemma {:induction false} ChainGrows(p: Params, known: seq<FireEvent>, f: FireEvent, fired: nat, deadline: u64)
    requires Chained(p, known) && Reflects(p, known, fired, deadline)
    requires 0 < |f.batch| <= p.fireBatchSize && (f.forced || f.at >= deadline)
    ensures Chained(p, known + [f]) && Reflects(p, known + [f], fired + |f.batch|, EndOf(p, f))
  {
    ReleasedSnoc(known, f);
    hide Released;
  }

  /** The history with one more, remembered, fire. */
  lemma {:induction false} RememberedFire(p: Params, h: History, g: Gate, now: u64, batch: seq<QueuedSignal>,
          forced: bool)
    requires Rising(h.remembered, |h.fires|) && SavedReflects(p, h) && batch != []
    ensures var h' := Fired(h, g, now, batch, forced);
            && Rising(h'.remembered, |h'.fires|) && SavedReflects(p, h')
            && Known(h') == Known(h) + [FireEvent(now, batch, forced)]
  {
    var f := FireEvent(now, batch, forced);
    var h' := Fired(h, g, now, batch, forced);
    assert Rising(h'.remembered, |h'.fires|);
    RecallGrows(h.fires, f, h.remembered);
    if h.saved.Some? { RecallGrows(h.fires, f, h.saved.value.remembered); }
    hide Reflects;
  }

  /** A fire is remembered, and sets the deadline; it may come early only if forced. */
  lemma {:induction false} FiredRecollects(p: Params, h: History, g: Gate, now: u64, batch: seq<QueuedSignal>,
          forced: bool)
    requires Recollects(p, h) && |batch| <= p.fireBatchSize
    requires g.signalsFired == h.gate.signalsFired + |batch|
    requires if batch == [] then g.refractoryUntil == h.gate.refractoryUntil
             else g.refractoryUntil == SatAdd(now, p.refractoryPeriod) && (forced || !InRefractory(h.gate, now))
    ensures Recollects(p, Fired(h, g, now, batch, forced))
  {
    if batch != [] {
      hide Released, Reflects, Chained, Rising, Recall, Known, SavedReflects;
      RememberedFire(p, h, g, now, batch, forced);
      ChainGrows(p, Known(h), FireEvent(now, batch, forced), h.gate.signalsFired, h.gate.refractoryUntil);
    }
  }

  lemma {:induction false} ReloadRecollects(p: Params, h: History)
    requires Recollects(p, h)
    ensures Recollects(p, Reloaded(p, h))
  {
    hide Released, Reflects;
    if h.saved.Some? {
      var kept := h.saved.value.remembered;
      assert Rising(kept, |h.fires|);
      assert Recall(h.fires, kept) == Known(h)[..|kept|];
      ChainPrefix(p, Known(h), |kept|);
      hide Rising, Chained, Known, Recall;
    } else {
      ReflectsNothing(p);
    }
  }

  lemma {:induction false} ChainPrefix(p: Params, known: seq<FireEvent>, n: nat)
    requires Chained(p, known) && n <= |known|
    ensures Chained(p, known[..n])
  {
  }

  lemma {:induction false} ReflectsNothing(p: Params)
    ensures Reflects(p, [], NewGate(p).signalsFired, NewGate(p).refractoryUntil)
  {
  }

  lemma {:induction false} NextRecollects(p: Params, h: History, input: Input)
    requires p.IsValid() && Recollects(p, h) && |h.gate.queue| <= p.maxQueueDepth
    ensures Recollects(p, Next(p, h, input)) && |Next(p, h, input).gate.queue| <= p.maxQueueDepth
  {
    match input {
      case Offer(s, w, now, draw) =>
        var (g, out) := Admit(p, h.gate, s, w, now, draw);
        AdmitEffect(p, h.gate, s, w, now, draw);
        hide Recollects, Admit;
        FiredRecollects(p, h, g, now, out.fired, false);
        OfferingRecollects(p, h, s, now, g, out);
      case Poll(now) =>
        var (g, batch) := DrainIfStarving(p, h.gate, now);
        DrainEffect(p, h.gate, now);
        hide Recollects, DrainIfStarving;
        FiredRecollects(p, h, g, now, batch, false);
      case Drain(now) =>
        var (g, batch) := DrainBatch(p, h.gate, now);
        FireTakesTheFront(p, h.gate, now);
        hide Recollects;
        FiredRecollects(p, h, g, now, batch, true);
      case Checkpoint =>
      case Restart => ReloadRecollects(p, h);
    }
  }

  lemma {:induction false} OfferingRecollects(p: Params, h: History, s: QueuedSignal, now: u64, g: Gate,
          out: AdmitOutcome)
    requires Recollects(p, Fired(h, g, now, out.fired, false))
    ensures Recollects(p, Offered(h, s, now, g, out))
  {
  }

  lemma {:induction false} RunRecollects(p: Params, inputs: seq<Input>)
    requires p.IsValid()
    ensures Recollects(p, After(p, Begin(NewGate(p)), inputs))
    ensures |After(p, Begin(NewGate(p)), inputs).gate.queue| <= p.maxQueueDepth
  {
    if inputs != [] {
      RunRecollects(p, inputs[..|inputs| - 1]);
      NextRecollects(p, After(p, Begin(NewGate(p)), inputs[..|inputs| - 1]), inputs[|inputs| - 1]);
    }
  }

  // ---- conservation, the bound, and the counters --------------------------------

  ghost predicate Accounted(p: Params, h: History) {
    && multiset(h.offered) == multiset(Released(h.fires)) + multiset(h.drops) + multiset(h.gate.queue) + multiset(h.lost)
    && |h.gate.queue| <= p.maxQueueDepth
    && h.dropsAtRestart <= |h.drops|
    && h.gate.signalsDropped == h.gate.overflowEvents == |h.drops| - h.dropsAtRestart
  }

  lemma {:induction false} FiredReleases(h: History, g: Gate, now: u64, batch: seq<QueuedSignal>, forced: bool)
    ensures Released(Fired(h, g, now, batch, forced).fires) == Released(h.fires) + batch
  {
    ReleasedSnoc(h.fires, FireEvent(now, batch, forced));
  }

  lemma {:induction false} OfferAccounts(p: Params, h: History, s: QueuedSignal, now: u64, g: Gate, out: AdmitOutcome)
    requires p.IsValid() && Accounted(p, h) && OfferEffect(p, h.gate, s, now, g, out)
    ensures Accounted(p, Offered(h, s, now, g, out))
  {
    FiredReleases(h, g, now, out.fired, false);
    var h' := Offered(h, s, now, g, out);
    assert multiset(Released(h'.fires)) == multiset(Released(h.fires)) + multiset(out.fired);
    assert multiset(h'.drops) == multiset(h.drops) + DroppedSet(out.dropped);
    CombineAccounts(multiset(h.offered), multiset(Released(h.fires)), multiset(h.drops), multiset(h.gate.queue),
                    multiset(h.lost), multiset{s}, multiset(out.fired), DroppedSet(out.dropped), multiset(g.queue));
  }

  lemma {:induction false} CombineAccounts<T>(o: multiset<T>, r: multiset<T>, d: multiset<T>, q: multiset<T>,
          l: multiset<T>,
          s: multiset<T>, f: multiset<T>, x: multiset<T>, q': multiset<T>)
    requires o == r + d + q + l && q + s == q' + f + x
    ensures o + s == (r + f) + (d + x) + q' + l
  {
    forall e ensures (o + s)[e] == ((r + f) + (d + x) + q' + l)[e] {
      assert (q + s)[e] == (q' + f + x)[e];
    }
  }

  lemma {:induction false} ReleaseAccounts(p: Params, h: History, now: u64, g: Gate, batch: seq<QueuedSignal>,
          forced: bool)
    requires p.IsValid() && Accounted(p, h) && |g.queue| <= |h.gate.queue|
    requires multiset(h.gate.queue) == multiset(g.queue) + multiset(batch)
    requires g.signalsDropped == h.gate.signalsDropped && g.overflowEvents == h.gate.overflowEvents
    ensures Accounted(p, Fired(h, g, now, batch, forced))
  {
    FiredReleases(h, g, now, batch, forced);
  }

  lemma {:induction false} NextAccounts(p: Params, h: History, input: Input)
    requires p.IsValid() && Accounted(p, h)
    ensures Accounted(p, Next(p, h, input))
  {
    match input {
      case Offer(s, w, now, draw) =>
        var (g, out) := Admit(p, h.gate, s, w, now, draw);
        AdmitEffect(p, h.gate, s, w, now, draw);
        hide Admit, Accounted, OfferEffect, Enqueue;
        OfferAccounts(p, h, s, now, g, out);
      case Poll(now) =>
        var (g, batch) := DrainIfStarving(p, h.gate, now);
        DrainEffect(p, h.gate, now);
        hide Accounted, DrainIfStarving;
        ReleaseAccounts(p, h, now, g, batch, false);
      case Drain(now) =>
        var (g, batch) := DrainBatch(p, h.gate, now);
        FireTakesTheFront(p, h.gate, now);
        assert multiset(h.gate.queue) == multiset(g.queue) + multiset(batch);
        hide Accounted, Fire, BatchLength;
        ReleaseAccounts(p, h, now, g, batch, true);
      case Checkpoint =>
      case Restart =>
    }
  }

  lemma {:induction false} RunAccounts(p: Params, inputs: seq<Input>)
    requires p.IsValid()
    ensures Accounted(p, After(p, Begin(NewGate(p)), inputs))
  {
    if inputs != [] {
      RunAccounts(p, inputs[..|inputs| - 1]);
      NextAccounts(p, After(p, Begin(NewGate(p)), inputs[..|inputs| - 1]), inputs[|inputs| - 1]);
    }
  }

  /** Every signal ever offered was fired, dropped, discarded by a restart or is still
      queued, with multiplicity, whatever offers, polls, drains, checkpoints and restarts
      came; the queue keeps its bound; the drop counters count the drops since the last
      restart, and the fire counter the signals of the fires the gate remembers. */
  lemma {:induction false} NothingIsLost(p: Params, inputs: seq<Input>)
    requires p.IsValid()
    ensures var h := After(p, Begin(NewGate(p)), inputs);
            Accounted(p, h) && Rising(h.remembered, |h.fires|) && h.gate.signalsFired == |Released(Known(h))|
  {
    RunAccounts(p, inputs);
    RunRecollects(p, inputs);
  }

  lemma {:induction false} RisingIsAll(numbers: seq<nat>, bound: nat)
    requires Rising(numbers, bound)
    ensures |numbers| <= bound
    ensures |numbers| == bound ==> forall k :: 0 <= k < bound ==> numbers[k] == k
    decreases bound
  {
    if numbers != [] {
      var front, last := numbers[..|numbers| - 1], numbers[|numbers| - 1];
      forall k | 0 <= k < |front| ensures front[k] < last { assert numbers[k] < numbers[|numbers| - 1]; }
      RisingIsAll(front, last);
      if |numbers| == bound {
        forall k | 0 <= k < bound ensures numbers[k] == k { if k < |front| { assert front[k] == numbers[k]; } }
      }
    }
  }

  /** Fewer fires release fewer signals. */
  lemma {:induction false} RecallReleases(fires: seq<FireEvent>, numbers: seq<nat>)
    requires Rising(numbers, |fires|) && forall k :: 0 <= k < |fires| ==> 0 < |fires[k].batch|
    ensures |Released(Recall(fires, numbers))| <= |Released(fires)|
    ensures |numbers| < |fires| ==> |Released(Recall(fires, numbers))| < |Released(fires)|
    decreases |fires|
  {
    if fires != [] {
      var front, last := fires[..|fires| - 1], fires[|fires| - 1];
      if numbers != [] && numbers[|numbers| - 1] == |front| {
        var rest := numbers[..|numbers| - 1];
        forall k | 0 <= k < |rest| ensures rest[k] < |front| { assert numbers[k] < numbers[|numbers| - 1]; }
        RecallReleases(front, rest);
        assert Recall(fires, numbers) == Recall(front, rest) + [last];
        ReleasedSnoc(Recall(front, rest), last);
      } else {
        forall k | 0 <= k < |numbers| ensures numbers[k] < |front| {
          assert k < |numbers| - 1 ==> numbers[k] < numbers[|numbers| - 1];
        }
        RecallReleases(front, numbers);
        assert Recall(fires, numbers) == Recall(front, numbers);
      }
    }
  }

  /** The fire counter is right exactly when no restart has forgotten a fire. */
  lemma {:induction false} CountIsExactIff(p: Params, inputs: seq<Input>)
    requires p.IsValid()
    ensures var h := After(p, Begin(NewGate(p)), inputs);
            h.gate.signalsFired == |Released(h.fires)| <==> |h.remembered| == |h.fires|
  {
    RunRecollects(p, inputs);
    var h := After(p, Begin(NewGate(p)), inputs);
    RecallReleases(h.fires, h.remembered);
    RisingIsAll(h.remembered, |h.fires|);
    if |h.remembered| == |h.fires| { assert Known(h) == h.fires; }
  }

  // ---- refractory spacing ---------------------------------------------------------

  lemma {:induction false} SpacedTimes(p: Params, fires: seq<FireEvent>, i: nat, j: nat)
    requires i <= j < |fires| && fires[j].at < U64_MAX
    requires forall k :: i <= k < j ==> fires[k + 1].at >= EndOf(p, fires[k])
    ensures fires[j].at >= fires[i].at + (j - i) * p.refractoryPeriod
    decreases j
  {
    if i < j {
      assert fires[j - 1 + 1].at >= EndOf(p, fires[j - 1]);
      SpacedTimes(p, fires, i, j - 1);
      assert (j - i) * p.refractoryPeriod == (j - 1 - i) * p.refractoryPeriod + p.refractoryPeriod;
    }
  }

  ghost predicate NoneForced(fires: seq<FireEvent>, i: nat, j: nat) {
    forall k :: i < k <= j && k < |fires| ==> !fires[k].forced
  }

  /** In any run the i-th and j-th of the fires the gate remembers are at least j - i
      refractory periods apart, unless a drain came between or the clock has saturated. */
  lemma {:induction false} FiresAreSpaced(p: Params, inputs: seq<Input>, i: nat, j: nat)
    requires p.IsValid()
    requires var h := After(p, Begin(NewGate(p)), inputs);
             && Rising(h.remembered, |h.fires|) && i <= j < |h.remembered|
             && Known(h)[j].at < U64_MAX && NoneForced(Known(h), i, j)
    ensures var h := After(p, Begin(NewGate(p)), inputs);
            Known(h)[j].at >= Known(h)[i].at + (j - i) * p.refractoryPeriod
  {
    RunRecollects(p, inputs);
    var h := After(p, Begin(NewGate(p)), inputs);
    SpacedTimes(p, Known(h), i, j);
  }

  lemma {:induction false} ReleasedBound(p: Params, fires: seq<FireEvent>)
    requires forall k :: 0 <= k < |fires| ==> |fires[k].batch| <= p.fireBatchSize
    ensures |Released(fires)| <= |fires| * p.fireBatchSize
  {
    if fires != [] {
      ReleasedBound(p, fires[..|fires| - 1]);
      assert |fires| * p.fireBatchSize == (|fires| - 1) * p.fireBatchSize + p.fireBatchSize;
    }
  }

  /** The signals released by fires i to j number at most one batch per refractory
      period elapsed between them, plus one batch. */
  ghost predicate RateBounded(p: Params, fires: seq<FireEvent>, i: nat, j: nat)
    requires p.refractoryPeriod > 0 && i <= j < |fires|
  {
    && fires[i].at <= fires[j].at
    && |Released(fires[i..j + 1])| <= ((fires[j].at - fires[i].at) / p.refractoryPeriod + 1) * p.fireBatchSize
  }

  lemma {:induction false} RateOfSpaced(p: Params, fires: seq<FireEvent>, i: nat, j: nat)
    requires p.refractoryPeriod > 0 && i <= j < |fires|
    requires forall k :: 0 <= k < |fires| ==> |fires[k].batch| <= p.fireBatchSize
    requires fires[j].at >= fires[i].at + (j - i) * p.refractoryPeriod
    ensures RateBounded(p, fires, i, j)
  {
    ProductMono(0, j - i, p.refractoryPeriod);
    ReleasedBound(p, fires[i..j + 1]);
    var elapsed := fires[j].at - fires[i].at;
    QuotientAtLeast(elapsed, p.refractoryPeriod, j - i);
    ProductMono(j - i + 1, elapsed / p.refractoryPeriod + 1, p.fireBatchSize);
  }

  /** Admission control as a rate limit, over the fires the gate remembers. */
  lemma {:induction false} ReleaseRateIsBounded(p: Params, inputs: seq<Input>, i: nat, j: nat)
    requires p.IsValid() && p.refractoryPeriod > 0
    requires var h := After(p, Begin(NewGate(p)), inputs);
             && Rising(h.remembered, |h.fires|) && i <= j < |h.remembered|
             && Known(h)[j].at < U64_MAX && NoneForced(Known(h), i, j)
    ensures RateBounded(p, Known(After(p, Begin(NewGate(p)), inputs)), i, j)
  {
    RunRecollects(p, inputs);
    var fires := Known(After(p, Begin(NewGate(p)), inputs));
    SpacedTimes(p, fires, i, j);
    RateOfSpaced(p, fires, i, j);
  }

  lemma {:induction false} QuotientAtLeast(a: int, d: int, k: nat)
    requires d > 0 && a >= k * d
    ensures a / d >= k
  {
    if a / d <= k - 1 { ProductMono(a / d + 1, k, d); }
  }

  lemma {:induction false} ProductMono(a: int, b: int, c: int)
    requires a <= b && 0 <= c
    ensures a * c <= b * c
  {
  }

  /** A drain fires whatever the deadline: spacing does not hold across it. */
  lemma {:induction false} DrainIgnoresTheDeadline(p: Params, h: History, now: u64)
    requires p.IsValid() && h.gate.queue != []
    ensures var h' := Next(p, h, Drain(now));
            |h'.fires| == |h.fires| + 1 && h'.fires[|h.fires|].at == now && h'.fires[|h.fires|].forced
  {
    FireTakesTheFront(p, h.gate, now);
  }

  // ---- the heaviest survive ------------------------------------------------------

  lemma {:induction false} NextFires(p: Params, h: History, input: Input)
    requires p.IsValid()
    ensures |h.fires| <= |Next(p, h, input).fires|
  {
    hide Admit, DrainIfStarving, DrainBatch, Restore;
  }

  lemma {:induction false} FiresOnlyGrow(p: Params, h: History, inputs: seq<Input>)
    requires p.IsValid()
    ensures |h.fires| <= |After(p, h, inputs).fires|
  {
    if inputs != [] {
      FiresOnlyGrow(p, h, inputs[..|inputs| - 1]);
      NextFires(p, After(p, h, inputs[..|inputs| - 1]), inputs[|inputs| - 1]);
      hide Next;
    }
  }

  /** What a fire-free stretch of `h` starting from `h0` has dropped. */
  function NewDrops(h0: History, h: History): seq<QueuedSignal> {
    if |h0.drops| <= |h.drops| then h.drops[|h0.drops|..] else []
  }

  /** `q` and `drops` are together `q0` and the arrivals, and no drop outweighs a queued
      signal. */
  ghost predicate KeepsHeaviest(p: Params, q0: seq<QueuedSignal>, arrivals: seq<QueuedSignal>, q: seq<QueuedSignal>,
          drops: seq<QueuedSignal>)
  {
    && |q| <= p.maxQueueDepth
    && multiset(q0) + multiset(arrivals) == multiset(q) + multiset(drops)
    && (forall d, x :: d in drops && x in q ==> d.weight <= x.weight)
    && (drops != [] ==> |q| == p.maxQueueDepth)
  }

  ghost predicate HeaviestQueued(p: Params, h0: History, h: History) {
    && h0.drops <= h.drops && h0.offered <= h.offered
    && KeepsHeaviest(p, h0.gate.queue, h.offered[|h0.offered|..], h.gate.queue, NewDrops(h0, h))
  }

  lemma {:induction false} OfferKeepsOrder(p: Params, q: seq<QueuedSignal>, drops: seq<QueuedSignal>, s: QueuedSignal)
    requires p.IsValid() && p.overflowPolicy == DropLowestWeight && |q| <= p.maxQueueDepth
    requires forall d, x :: d in drops && x in q ==> d.weight <= x.weight
    requires drops != [] ==> |q| == p.maxQueueDepth
    ensures var (q', dropped) := Enqueue(p, q, s);
            && (forall d, x :: d in drops && x in q' ==> d.weight <= x.weight)
            && (dropped.Some? ==> forall x :: x in q' ==> dropped.value.weight <= x.weight)
  {
    var (q', dropped) := Enqueue(p, q, s);
    EnqueueAccounts(p, q, s);
    LightestIsDropped(p, q, s);
    forall x | x in q' ensures x in q || x == s {
      assert x in multiset(q) + multiset{s};
    }
    if dropped.Some? && s in q' && q' != q {
      // The arrival got in past a full queue, so it outweighs the drop it caused.
      assert dropped.value in q;
    }
  }

  function AsSeq<T>(o: Option<T>): seq<T> {
    if o.Some? then [o.value] else []
  }

  lemma {:induction false} EnqueueKeepsHeaviest(p: Params, q0: seq<QueuedSignal>, arrivals: seq<QueuedSignal>,
          q: seq<QueuedSignal>, drops: seq<QueuedSignal>, s: QueuedSignal)
    requires p.IsValid() && p.overflowPolicy == DropLowestWeight && KeepsHeaviest(p, q0, arrivals, q, drops)
    ensures var (q', dropped) := Enqueue(p, q, s); KeepsHeaviest(p, q0, arrivals + [s], q', drops + AsSeq(dropped))
  {
    var (q', dropped) := Enqueue(p, q, s);
    EnqueueAccounts(p, q, s);
    OfferKeepsOrder(p, q, drops, s);
    hide Enqueue;
    assert multiset(AsSeq(dropped)) == DroppedSet(dropped);
    Rebalance(multiset(q0) + multiset(arrivals), multiset(q), multiset(drops), multiset{s}, multiset(q'), DroppedSet(dropped));
    assert multiset(q0) + multiset(arrivals + [s]) == (multiset(q0) + multiset(arrivals)) + multiset{s};
  }

  lemma {:induction false} OfferKeepsHeaviest(p: Params, h0: History, h: History, s: QueuedSignal, now: u64, g: Gate,
          out: AdmitOutcome)
    requires p.IsValid() && p.overflowPolicy == DropLowestWeight && HeaviestQueued(p, h0, h)
    requires g.queue == Enqueue(p, h.gate.queue, s).0 && out.dropped == Enqueue(p, h.gate.queue, s).1
    ensures HeaviestQueued(p, h0, Offered(h, s, now, g, out))
  {
    hide KeepsHeaviest, Enqueue;
    var h' := Offered(h, s, now, g, out);
    EnqueueKeepsHeaviest(p, h0.gate.queue, h.offered[|h0.offered|..], h.gate.queue, NewDrops(h0, h), s);
    assert h'.offered[|h0.offered|..] == h.offered[|h0.offered|..] + [s];
    assert NewDrops(h0, h') == NewDrops(h0, h) + AsSeq(out.dropped);
  }

  lemma {:induction false} NextKeepsHeaviest(p: Params, h0: History, h: History, input: Input)
    requires p.IsValid() && p.overflowPolicy == DropLowestWeight && HeaviestQueued(p, h0, h)
    requires !input.Restart? && |Next(p, h, input).fires| <= |h.fires|
    ensures HeaviestQueued(p, h0, Next(p, h, input))
  {
    match input {
      case Offer(s, w, now, draw) =>
        var (g, out) := Admit(p, h.gate, s, w, now, draw);
        AdmitEffect(p, h.gate, s, w, now, draw);
        hide Admit, Enqueue, HeaviestQueued;
        OfferKeepsHeaviest(p, h0, h, s, now, g, out);
      case Poll(now) => DrainEffect(p, h.gate, now);
      case Drain(now) => FireTakesTheFront(p, h.gate, now);
      case Checkpoint =>
    }
  }

  /** Under `DropLowestWeight`, over any stretch without a fire or restart, the queue
      and the drops are together the initial queue and the arrivals, and no dropped
      signal outweighs a queued one. */
  lemma {:induction false} HeaviestAreKept(p: Params, h0: History, inputs: seq<Input>)
    requires p.IsValid() && p.overflowPolicy == DropLowestWeight && |h0.gate.queue| <= p.maxQueueDepth
    requires Restart !in inputs && |After(p, h0, inputs).fires| == |h0.fires|
    ensures HeaviestQueued(p, h0, After(p, h0, inputs))
  {
    if inputs == [] {
      assert h0.offered[|h0.offered|..] == [];
    } else {
      var front, last := inputs[..|inputs| - 1], inputs[|inputs| - 1];
      FiresOnlyGrow(p, h0, front);
      assert last in inputs;
      HeaviestAreKept(p, h0, front);
      NextKeepsHeaviest(p, h0, After(p, h0, front), last);
    }
  }

  function Weights(q: seq<QueuedSignal>): seq<real> {
    Map((x: QueuedSignal) => x.weight, q)
  }

  function Descending(ws: seq<real>): seq<real> {
    Sort(ws, (a: real, b: real) => a >= b)
  }

  /** Reference reading of the policy: sorting everything that was queued or arrived
      by weight, the survivors' weights are the first `maxQueueDepth` of it. */
  lemma {:induction false} SurvivorsAreTheTopK(p: Params, h0: History, inputs: seq<Input>)
    requires p.IsValid() && p.overflowPolicy == DropLowestWeight && |h0.gate.queue| <= p.maxQueueDepth
    requires Restart !in inputs && |After(p, h0, inputs).fires| == |h0.fires|
    ensures var h := After(p, h0, inputs);
            && |h0.offered| <= |h.offered|
            && var all := h0.gate.queue + h.offered[|h0.offered|..];
            && |h.gate.queue| == (if |all| <= p.maxQueueDepth then |all| else p.maxQueueDepth)
            && |Descending(Weights(all))| == |all|
            && Descending(Weights(h.gate.queue)) == Descending(Weights(all))[..|h.gate.queue|]
  {
    HeaviestAreKept(p, h0, inputs);
    var h := After(p, h0, inputs);
    var all := h0.gate.queue + h.offered[|h0.offered|..];
    var kept, gone := h.gate.queue, NewDrops(h0, h);
    assert multiset(all) == multiset(kept + gone);
    assert |all| == |multiset(all)| == |multiset(kept + gone)| == |kept| + |gone|;
    MapPermutes((x: QueuedSignal) => x.weight, all, kept + gone);
    MapAppend((x: QueuedSignal) => x.weight, kept, gone);
    SplitSort(Weights(kept), Weights(gone), Weights(all));
  }

  lemma {:induction false} SplitSort(a: seq<real>, b: seq<real>, all: seq<real>)
    requires multiset(a + b) == multiset(all)
    requires forall x, y :: x in a && y in b ==> x >= y
    ensures |Descending(all)| == |all| && |a| <= |all|
    ensures Descending(a) == Descending(all)[..|a|]
  {
    var geq := (x: real, y: real) => x >= y;
    SortPermutes(a, geq);
    SortPermutes(b, geq);
    SortPermutes(all, geq);
    SortSorts(a, geq);
    SortSorts(b, geq);
    SortSorts(all, geq);
    var sa, sb := Sort(a, geq), Sort(b, geq);
    forall x, y | x in sa && y in sb ensures geq(x, y) {
      assert x in multiset(sa) && y in multiset(sb);
      assert x in a && y in b;
    }
    SortedJoin(sa, sb, geq);
    assert |a + b| == |multiset(a + b)| == |multiset(all)| == |all|;
    hide *;
    SortedUnique(sa + sb, Sort(all, geq), geq);
  }

  lemma {:induction false} SortedJoin<T(!new)>(a: seq<T>, b: seq<T>, leq: (T, T) -> bool)
    requires SortedBy(a, leq) && SortedBy(b, leq) && forall x, y :: x in a && y in b ==> leq(x, y)
    ensures SortedBy(a + b, leq)
  {
  }

  // ---- bounded waiting ------------------------------------------------------------

  lemma {:induction false} SortFixesSorted<T>(s: seq<T>, leq: (T, T) -> bool)
    requires SortedBy(s, leq)
    ensures Sort(s, leq) == s
  {
    if s != [] { SortFixesSorted(s[1..], leq); }
  }

  /** What a sequence of polls releases. */
  function PolledOut(p: Params, g: Gate, times: seq<u64>): seq<QueuedSignal>
    decreases |times|
  {
    if times == [] then []
    else
      var (g', batch) := DrainIfStarving(p, g, times[0]);
      batch + PolledOut(p, g', times[1..])
  }

  /** How many of the polls fall outside the refractory period. */
  function EffectivePolls(p: Params, g: Gate, times: seq<u64>): nat
    decreases |times|
  {
    if times == [] then 0
    else
      (if InRefractory(g, times[0]) then 0 else 1)
      + EffectivePolls(p, DrainIfStarving(p, g, times[0]).0, times[1..])
  }

  /** With arrivals stopped, a starving signal that has `r` signals ahead of it in
      fire order leaves within r / batch + 1 polls made outside the refractory
      period. */
  lemma {:induction false} StarvationIsBounded(p: Params, g: Gate, times: seq<u64>, s: QueuedSignal, r: nat)
    requires p.IsValid() && p.maxQueueLatency != 0
    requires r < |FireOrder(g.queue)| && FireOrder(g.queue)[r] == s
    requires forall t :: t in times ==> HasWaited(p, s, t)
    requires EffectivePolls(p, g, times) >= r / p.fireBatchSize + 1
    ensures s in PolledOut(p, g, times)
    decreases |times|
  {
    var (g', batch) := DrainIfStarving(p, g, times[0]);
    if InRefractory(g, times[0]) {
      StarvationIsBounded(p, g, times[1..], s, r);
    } else {
      StarvingPollFires(p, g, times[0], s, r);
      if r >= p.fireBatchSize {
        DivStep(r, p.fireBatchSize);
        StarvationIsBounded(p, g', times[1..], s, r - p.fireBatchSize);
      }
    }
  }

  /** A poll at which `s` starves releases the front of the queue, so `s` leaves or
      moves up by a whole batch. */
  lemma {:induction false} StarvingPollFires(p: Params, g: Gate, t: u64, s: QueuedSignal, r: nat)
    requires p.IsValid() && p.maxQueueLatency != 0
    requires r < |FireOrder(g.queue)| && FireOrder(g.queue)[r] == s
    requires HasWaited(p, s, t) && !InRefractory(g, t)
    ensures var (g', batch) := DrainIfStarving(p, g, t);
            if r < p.fireBatchSize then s in batch
            else r - p.fireBatchSize < |FireOrder(g'.queue)| && FireOrder(g'.queue)[r - p.fireBatchSize] == s
  {
    SomeoneHasWaited(p, g, t, s, r);
    FireTakesTheFront(p, g, t);
    var (g', batch) := DrainIfStarving(p, g, t);
    FrontLeaves(batch, g'.queue, s, r, p.fireBatchSize);
  }

  lemma {:induction false} FrontLeaves(batch: seq<QueuedSignal>, rest: seq<QueuedSignal>, s: QueuedSignal, r: nat,
          k: nat)
    requires r < |batch| + |rest| && (batch + rest)[r] == s
    requires |batch| == k || (|batch| < k && rest == [])
    requires SortedBy(batch + rest, FiresBefore)
    ensures if r < k then s in batch else r - k < |FireOrder(rest)| && FireOrder(rest)[r - k] == s
  {
    if r < k {
      assert batch[r] == s;
    } else {
      SortedTail(batch, rest, FiresBefore);
    }
  }

  lemma {:induction false} SomeoneHasWaited(p: Params, g: Gate, t: u64, s: QueuedSignal, r: nat)
    requires r < |FireOrder(g.queue)| && FireOrder(g.queue)[r] == s
    requires p.maxQueueLatency != 0 && HasWaited(p, s, t)
    ensures IsStarving(p, g, t)
  {
    assert s in multiset(FireOrder(g.queue));
    assert s in g.queue;
    var i :| 0 <= i < |g.queue| && g.queue[i] == s;
    assert HasWaited(p, g.queue[i], t);
  }

  lemma {:induction false} SortedTail<T>(front: seq<T>, back: seq<T>, leq: (T, T) -> bool)
    requires SortedBy(front + back, leq)
    ensures Sort(back, leq) == back
  {
    var s := front + back;
    forall a, b | 0 <= a < b < |back| ensures leq(back[a], back[b]) {
      assert leq(s[|front| + a], s[|front| + b]);
    }
    SortFixesSorted(back, leq);
  }

  lemma {:induction false} DivStep(a: int, d: int)
    requires d > 0 && a >= d
    ensures a / d == (a - d) / d + 1 && (a - d) / d >= 0
  {
    assert a == (a / d) * d + a % d;
    assert a - d == (a / d - 1) * d + a % d;
    var k := (a - d) / d - (a / d - 1);
    assert k * d == a % d - (a - d) % d;
    if k >= 1 { ProductMono(1, k, d); }
    if k <= -1 { ProductMono(k, -1, d); }
  }

  // ---- can the threshold be reached? ------------------------------------------------

  /** The highest the threshold can rise to. */
  function Ceiling(p: Params): real {
    if p.dynamic then 2.0 * p.baseThreshold else p.baseThreshold
  }

  predicate IsDraw(draw: real) {
    0.0 <= draw < 1.0
  }

  /** A gate as runs leave it: within its bound, and at its base threshold if that is fixed. */
  predicate IsWithin(p: Params, g: Gate) {
    |g.queue| <= p.maxQueueDepth && (!p.dynamic ==> g.threshold == p.baseThreshold)
  }

  /** A saturated potential, at any load and outside the refractory period, fires,
      whatever the draw. */
  ghost predicate SaturationFires(p: Params)
    requires p.IsValid()
  {
    forall g: Gate, s: QueuedSignal, w: real, now: u64, draw: real ::
      IsWithin(p, g) && IsDraw(draw) && !InRefractory(g, now) && g.potential + s.weight * w >= p.maxPotential
      ==> Admit(p, g, s, w, now, draw).1.fired != []
  }

  /** What it takes: a ceiling within reach, or a leak that never fails to fire. A sigmoid
      always leaves a chance of not firing. */
  predicate AlwaysReaches(c: Config) {
    match c.function_
    case Step => c.maxPotential >= if c.dynamicThreshold then 2.0 * c.baseThreshold else c.baseThreshold
    case Leaky => c.maxPotential >= (if c.dynamicThreshold then 2.0 * c.baseThreshold else c.baseThreshold) || c.leakRate >= 1.0
    case Sigmoid => false
  }

  lemma {:induction false} LoadIsAtMostOne(p: Params, q: seq<QueuedSignal>)
    requires p.IsValid()
    ensures 0.0 <= LoadFactor(p, q) <= 1.0
    ensures |q| == p.maxQueueDepth ==> LoadFactor(p, q) == 1.0
  {
  }

  lemma {:induction false} ScaleMono(a: real, x: real, y: real)
    requires a > 0.0 && x <= y
    ensures a * x <= a * y
  {
  }

  lemma {:induction false} ThresholdIsUnderCeiling(p: Params, g: Gate, s: QueuedSignal, w: real)
    requires p.IsValid() && IsWithin(p, g) && p.baseThreshold > 0.0
    ensures Loaded(p, g, s, w).0.threshold <= Ceiling(p) && Loaded(p, g, s, w).0.queue != []
  {
    var g1 := Loaded(p, g, s, w).0;
    EnqueueAccounts(p, g.queue, s);
    LoadIsAtMostOne(p, g1.queue);
    ScaleMono(p.baseThreshold, 1.0 + LoadFactor(p, g1.queue), 2.0);
  }

  /** An offer after which the gate's rule says fire does fire. */
  lemma {:induction false} EvaluatedOfferFires(p: Params, g: Gate, s: QueuedSignal, w: real, now: u64, draw: real)
    requires p.IsValid() && !InRefractory(g, now) && Evaluate(p, Loaded(p, g, s, w).0, draw)
    ensures Admit(p, g, s, w, now, draw).1.fired != []
  {
    FireTakesTheFront(p, Loaded(p, g, s, w).0, now);
  }

  /** A saturated gate whose ceiling is within reach, or whose leak always fires, fires. */
  lemma {:induction false} SaturatedGateFires(p: Params, g: Gate, s: QueuedSignal, w: real, now: u64, draw: real)
    requires p.IsValid() && !p.function_.Sigmoid? && p.baseThreshold > 0.0 && IsWithin(p, g) && IsDraw(draw)
    requires p.maxPotential >= Ceiling(p) || (p.function_.Leaky? && p.leakRate >= 1.0)
    requires !InRefractory(g, now) && g.potential + s.weight * w >= p.maxPotential
    ensures Admit(p, g, s, w, now, draw).1.fired != []
  {
    ThresholdIsUnderCeiling(p, g, s, w);
    EvaluatedOfferFires(p, g, s, w, now, draw);
  }

  /** A full gate of signals that have not waited, with the ceiling out of reach. */
  predicate IsFullAndFresh(p: Params, g: Gate, now: u64) {
    |g.queue| == p.maxQueueDepth && forall i :: 0 <= i < |g.queue| ==> g.queue[i].enqueuedAt == now
  }

  lemma {:induction false} FreshStaysFresh(p: Params, g: Gate, s: QueuedSignal, w: real, now: u64)
    requires p.IsValid() && IsFullAndFresh(p, g, now) && s.enqueuedAt == now
    ensures var g1 := Loaded(p, g, s, w).0; IsFullAndFresh(p, g1, now) && !IsStarving(p, g1, now)
  {
    EnqueueAccounts(p, g.queue, s);
    var q' := Enqueue(p, g.queue, s).0;
    forall i | 0 <= i < |q'| ensures q'[i].enqueuedAt == now {
      assert q'[i] in multiset(g.queue) + multiset{s};
      assert q'[i] in g.queue || q'[i] == s;
    }
  }

  lemma {:induction false} FullGateHolds(p: Params, g: Gate, s: QueuedSignal, w: real, now: u64, draw: real)
    requires p.IsValid() && p.dynamic && p.maxPotential < 2.0 * p.baseThreshold
    requires p.function_.Step? || (p.function_.Leaky? && draw >= p.leakRate)
    requires IsFullAndFresh(p, g, now) && s.enqueuedAt == now
    ensures Admit(p, g, s, w, now, draw).1.fired == []
  {
    FreshStaysFresh(p, g, s, w, now);
    LoadIsAtMostOne(p, Loaded(p, g, s, w).0.queue);
    assert Loaded(p, g, s, w).0.threshold == p.baseThreshold * 2.0;
  }

  lemma {:induction false} SigmoidMayHold(p: Params, g: Gate, s: QueuedSignal, w: real, now: u64) returns (draw: real)
    requires p.IsValid() && p.function_.Sigmoid? && g.queue == [] && s.enqueuedAt == now
    ensures IsDraw(draw) && Admit(p, g, s, w, now, draw).1.fired == []
  {
    var g1 := Loaded(p, g, s, w).0;
    var e := p.exp(-10.0 * (g1.potential - g1.threshold));
    draw := 1.0 / (1.0 + e);
    ChanceIsProper(e);
  }

  lemma {:induction false} ChanceIsProper(e: real)
    requires e > 0.0
    ensures 0.0 < 1.0 / (1.0 + e) < 1.0
  {
  }

  /** Out of reach, some saturated gate does not fire. */
  lemma {:induction false} SaturatedGateHolds(c: Config, exp: PositiveFn) returns (g: Gate, s: QueuedSignal, draw: real)
    requires c.IsValid() && !AlwaysReaches(c)
    ensures var p := ParamsOf(c, exp);
            && IsWithin(p, g) && IsDraw(draw) && !InRefractory(g, 0) && g.potential >= p.maxPotential
            && Admit(p, g, s, 0.0, 0, draw).1.fired == []
  {
    var p := ParamsOf(c, exp);
    s := QueuedSignal(0, 0, 0.0, BestEffort, 0);
    if c.function_.Sigmoid? {
      g := NewGate(p).(potential := p.maxPotential);
      draw := SigmoidMayHold(p, g, s, 0.0, 0);
    } else {
      g := NewGate(p).(potential := p.maxPotential, queue := seq(p.maxQueueDepth, _ => s));
      draw := if c.function_.Leaky? then c.leakRate else 0.0;
      hide Admit;
      FullGateHolds(p, g, s, 0.0, 0, draw);
    }
  }

  /** Validation only asks for `maxPotential >= baseThreshold`, but a threshold that
      rises with load needs twice the base: for every valid configuration, a saturated
      gate always fires if and only if the ceiling of its threshold is within reach (or
      its leak always fires). */
  lemma {:induction false} SaturationFiresIff(c: Config, exp: PositiveFn)
    requires c.IsValid()
    ensures SaturationFires(ParamsOf(c, exp)) <==> AlwaysReaches(c)
  {
    var p := ParamsOf(c, exp);
    if AlwaysReaches(c) {
      forall g: Gate, s: QueuedSignal, w: real, now: u64, draw: real
        | IsWithin(p, g) && IsDraw(draw) && !InRefractory(g, now) && g.potential + s.weight * w >= p.maxPotential
        ensures Admit(p, g, s, w, now, draw).1.fired != []
      {
        SaturatedGateFires(p, g, s, w, now, draw);
      }
    } else {
      var g, s, draw := SaturatedGateHolds(c, exp);
      hide Admit, ParamsOf, AlwaysReaches;
      assert !(Admit(p, g, s, 0.0, 0, draw).1.fired != []);
    }
  }

  /** `n` weightless signals, enqueued at reading 0. */
  function Weightless(n: nat, draw: real): seq<Input> {
    seq(n, (i: nat) => Offer(QueuedSignal(i, 0, 0.0, BestEffort, 0), 1.0, 0, draw))
  }

  /** The state weightless offers lead to. */
  ghost predicate HoldsWeightless(p: Params, h: History, n: nat) {
    && h.fires == [] && h.gate.potential == 0.0 && h.gate.refractoryUntil == 0
    && |h.gate.queue| == n && forall i :: 0 <= i < n ==> h.gate.queue[i].enqueuedAt == 0 && h.gate.queue[i].weight == 0.0
  }

  lemma {:induction false} WeightlessOfferHolds(p: Params, h: History, n: nat, draw: real)
    requires p.IsValid() && p.dynamic && p.baseThreshold > 0.0 && 0.0 <= p.maxPotential && n < p.maxQueueDepth
    requires p.function_.Step? || (p.function_.Leaky? && draw >= p.leakRate)
    requires HoldsWeightless(p, h, n)
    ensures HoldsWeightless(p, Next(p, h, Offer(QueuedSignal(n, 0, 0.0, BestEffort, 0), 1.0, 0, draw)), n + 1)
  {
    var s := QueuedSignal(n, 0, 0.0, BestEffort, 0);
    var g1 := Loaded(p, h.gate, s, 1.0).0;
    assert g1.queue == h.gate.queue + [s];
    LoadIsAtMostOne(p, g1.queue);
    ScaleMono(p.baseThreshold, 1.0, 1.0 + LoadFactor(p, g1.queue));
    assert g1.threshold > 0.0 && g1.potential == 0.0;
    hide DynamicThreshold, LoadFactor;
    assert !Evaluate(p, g1, draw) && !IsStarving(p, g1, 0);
  }

  lemma {:induction false} WeightlessDoNotFire(p: Params, n: nat, draw: real)
    requires p.IsValid() && p.dynamic && p.baseThreshold > 0.0 && 0.0 <= p.maxPotential && n <= p.maxQueueDepth
    requires p.function_.Step? || (p.function_.Leaky? && draw >= p.leakRate)
    ensures HoldsWeightless(p, After(p, Begin(NewGate(p)), Weightless(n, draw)), n)
  {
    if n > 0 {
      var inputs := Weightless(n, draw);
      assert inputs[..n - 1] == Weightless(n - 1, draw);
      WeightlessDoNotFire(p, n - 1, draw);
      hide Next, HoldsWeightless;
      WeightlessOfferHolds(p, After(p, Begin(NewGate(p)), inputs[..n - 1]), n - 1, draw);
    }
  }

  function Heavy(p: Params, draw: real): Input {
    Offer(QueuedSignal(p.maxQueueDepth, 0, p.maxPotential, BestEffort, 0), 1.0, 0, draw)
  }

  /** A heavy offer to a gate full of weightless signals saturates it and does not fire it. */
  lemma {:induction false} HeavyDoesNotFire(p: Params, h: History, draw: real)
    requires p.IsValid() && p.dynamic && p.maxPotential < 2.0 * p.baseThreshold
    requires p.function_.Step? || (p.function_.Leaky? && draw >= p.leakRate)
    requires HoldsWeightless(p, h, p.maxQueueDepth)
    ensures var h' := Next(p, h, Heavy(p, draw));
            h'.fires == [] && h'.gate.potential == p.maxPotential && |h'.gate.queue| == p.maxQueueDepth
  {
    var s := Heavy(p, draw).s;
    FullGateHolds(p, h.gate, s, 1.0, 0, draw);
    FreshStaysFresh(p, h.gate, s, 1.0, 0);
    assert Loaded(p, h.gate, s, 1.0).0.potential == p.maxPotential;
    hide Loaded, Evaluate, IsStarving;
  }

  /** Such a gate is met in practice: from a new gate whose ceiling is out of reach, as many
      weightless signals as the queue holds and then one heavy signal leave it saturated
      and full without ever having fired. */
  lemma {:induction false} SaturationIsReached(c: Config, exp: PositiveFn)
    requires c.IsValid() && c.dynamicThreshold && !AlwaysReaches(c) && !c.function_.Sigmoid?
    ensures var p := ParamsOf(c, exp);
            var draw := if c.function_.Leaky? then c.leakRate else 0.0;
            var h := After(p, Begin(NewGate(p)), Weightless(p.maxQueueDepth, draw) + [Heavy(p, draw)]);
            IsDraw(draw) && h.fires == [] && h.gate.potential == p.maxPotential && |h.gate.queue| == p.maxQueueDepth
  {
    var p := ParamsOf(c, exp);
    var draw := if c.function_.Leaky? then c.leakRate else 0.0;
    assert p.maxPotential < 2.0 * p.baseThreshold;
    hide ParamsOf, HoldsWeightless, Next, Weightless;
    WeightlessDoNotFire(p, p.maxQueueDepth, draw);
    HeavyDoesNotFire(p, After(p, Begin(NewGate(p)), Weightless(p.maxQueueDepth, draw)), draw);
    AfterSnoc(p, Begin(NewGate(p)), Weightless(p.maxQueueDepth, draw), Heavy(p, draw));
  }

  lemma {:induction false} FullGateDoesNotFire(p: Params, g: Gate, s: QueuedSignal, w: real, now: u64, draw: real)
    requires p.IsValid() && p.function_ == Step && p.dynamic && p.maxQueueLatency == 0
    requires p.maxPotential < 2.0 * p.baseThreshold && |g.queue| == p.maxQueueDepth
    ensures var (g', out) := Admit(p, g, s, w, now, draw); out.fired == [] && |g'.queue| == p.maxQueueDepth
  {
    EnqueueAccounts(p, g.queue, s);
    var g1 := Loaded(p, g, s, w).0;
    LoadIsAtMostOne(p, g1.queue);
    assert g1.threshold == p.baseThreshold * 2.0;
  }

  /** Below twice the base, a gate that has once filled up never fires again, on any
      further arrivals and polls. */
  lemma {:induction false} FullGateIsStuck(p: Params, h: History, inputs: seq<Input>)
    requires p.IsValid() && p.function_ == Step && p.dynamic && p.maxQueueLatency == 0
    requires p.maxPotential < 2.0 * p.baseThreshold && |h.gate.queue| == p.maxQueueDepth
    requires Restart !in inputs && forall k :: 0 <= k < |inputs| ==> !inputs[k].Drain?
    ensures var h' := After(p, h, inputs); h'.fires == h.fires && |h'.gate.queue| == p.maxQueueDepth
  {
    if inputs != [] {
      var front, last := inputs[..|inputs| - 1], inputs[|inputs| - 1];
      assert last in inputs;
      FullGateIsStuck(p, h, front);
      match last {
        case Offer(s, w, now, draw) => FullGateDoesNotFire(p, After(p, h, front).gate, s, w, now, draw);
        case Poll(_) =>
        case Checkpoint =>
      }
    }
  }

  // ---- when a restart forgets a fire ----------------------------------------------------

  /** The gate can be made to fire: a sigmoid or a leak may fire at any load, and otherwise
      the ceiling is within reach. */
  predicate Responsive(p: Params) {
    p.baseThreshold > 0.0 && (p.function_.Sigmoid? || (p.function_.Leaky? && p.leakRate > 0.0) || p.maxPotential >= Ceiling(p))
  }

  /** Some offer makes the gate fire at this reading. */
  ghost predicate CanFire(p: Params, g: Gate, now: u64)
    requires p.IsValid()
  {
    exists s: QueuedSignal, w: real, draw: real :: IsDraw(draw) && Admit(p, g, s, w, now, draw).1.fired != []
  }

  lemma {:induction false} SomeOfferFires(p: Params, g: Gate, now: u64) returns (s: QueuedSignal, w: real, draw: real)
    requires p.IsValid() && Responsive(p) && IsWithin(p, g) && !InRefractory(g, now)
    ensures IsDraw(draw) && Admit(p, g, s, w, now, draw).1.fired != []
  {
    s, w, draw := QueuedSignal(0, 0, 1.0, BestEffort, now), p.maxPotential - g.potential, 0.0;
    ThresholdIsUnderCeiling(p, g, s, w);
    var g1 := Loaded(p, g, s, w).0;
    if p.function_.Sigmoid? { ChanceIsProper(p.exp(-10.0 * (g1.potential - g1.threshold))); }
    EvaluatedOfferFires(p, g, s, w, now, draw);
  }

  /** The refractory deadline is all that stops a responsive gate. */
  lemma {:induction false} CanFireIff(p: Params, g: Gate, now: u64)
    requires p.IsValid() && Responsive(p) && IsWithin(p, g)
    ensures CanFire(p, g, now) <==> now >= g.refractoryUntil
  {
    if now >= g.refractoryUntil {
      var s, w, draw := SomeOfferFires(p, g, now);
    }
    if s: QueuedSignal, w: real, draw: real :| IsDraw(draw) && Admit(p, g, s, w, now, draw).1.fired != [] {
      AdmitEffect(p, g, s, w, now, draw);
    }
  }

  function ReadingOf(input: Input): Option<u64> {
    match input
    case Offer(_, _, now, _) => Some(now)
    case Poll(now) => Some(now)
    case Drain(now) => Some(now)
    case _ => None
  }

  /** The latest clock reading. */
  function LastReading(inputs: seq<Input>): u64 {
    if inputs == [] then 0
    else
      var at := ReadingOf(inputs[|inputs| - 1]);
      if at.Some? then at.value else LastReading(inputs[..|inputs| - 1])
  }

  /** The clock never goes back, never saturates, and nothing is drained. */
  ghost predicate IsSteady(inputs: seq<Input>) {
    inputs == [] ||
    (var front, at := inputs[..|inputs| - 1], ReadingOf(inputs[|inputs| - 1]);
     && IsSteady(front) && !inputs[|inputs| - 1].Drain?
     && (at.Some? ==> LastReading(front) <= at.value < U64_MAX))
  }

  /** Fires come in clock order; a remembered one strictly before every later one; none
      forced; the threshold of a fixed gate stands. */
  ghost predicate InOrder(p: Params, h: History, last: u64) {
    && (forall i, j :: 0 <= i < j < |h.fires| ==> h.fires[i].at <= h.fires[j].at)
    && (forall i :: 0 <= i < |h.fires| ==> h.fires[i].at <= last && h.fires[i].at < U64_MAX && !h.fires[i].forced)
    && (forall k, j {:trigger h.remembered[k], h.fires[j]} :: 0 <= k < |h.remembered| && h.remembered[k] < j < |h.fires| ==>
          h.fires[h.remembered[k]].at < h.fires[j].at)
    && IsWithin(p, h.gate)
    && (h.saved.Some? && !p.dynamic ==> h.saved.value.snapshot.threshold == p.baseThreshold)
  }

  lemma {:induction false} FiredInOrder(p: Params, h: History, g: Gate, now: u64, batch: seq<QueuedSignal>, last: u64)
    requires Recollects(p, h) && InOrder(p, h, last) && p.refractoryPeriod > 0
    requires last <= now < U64_MAX && IsWithin(p, g) && (batch != [] ==> !InRefractory(h.gate, now))
    ensures InOrder(p, Fired(h, g, now, batch, false), now)
  {
    if batch != [] {
      var h' := Fired(h, g, now, batch, false);
      forall k | 0 <= k < |h.remembered| ensures h.fires[h.remembered[k]].at < now { NewestComesLater(p, h, now, k); }
      hide Recollects;
      assert forall i :: 0 <= i < |h.fires| ==> h'.fires[i] == h.fires[i];
      assert forall k :: 0 <= k < |h.remembered| ==> h'.remembered[k] == h.remembered[k];
    }
  }

  /** What is remembered happened before any reading past the deadline. */
  lemma {:induction false} NewestComesLater(p: Params, h: History, now: u64, k: nat)
    requires Recollects(p, h) && p.refractoryPeriod > 0 && k < |h.remembered| && now < U64_MAX && !InRefractory(h.gate, now)
    requires forall i, j :: 0 <= i < j < |h.fires| ==> h.fires[i].at <= h.fires[j].at
    ensures h.remembered[k] < |h.fires| && h.fires[h.remembered[k]].at < now
  {
    var newest := h.remembered[|h.remembered| - 1];
    assert h.gate.refractoryUntil == EndOf(p, h.fires[newest]);
    assert k < |h.remembered| - 1 ==> h.remembered[k] < newest;
  }

  lemma {:induction false} GateStaysWithin(p: Params, h: History, input: Input)
    requires p.IsValid() && IsWithin(p, h.gate) && !input.Restart?
    ensures IsWithin(p, Next(p, h, input).gate)
  {
    match input {
      case Offer(s, w, now, draw) => AdmitEffect(p, h.gate, s, w, now, draw);
      case Poll(now) => DrainEffect(p, h.gate, now);
      case Drain(now) => FireTakesTheFront(p, h.gate, now);
      case Checkpoint =>
    }
  }

  lemma {:induction false} ReloadInOrder(p: Params, h: History, last: u64)
    requires Recollects(p, h) && InOrder(p, h, last)
    ensures InOrder(p, Reloaded(p, h), last)
  {
    hide Recall, Reflects, Chained, Released, Known;
    var h' := Reloaded(p, h);
    assert forall k :: 0 <= k < |h'.remembered| ==> h'.remembered[k] == h.remembered[k];
    hide Recollects;
  }

  lemma {:induction false} NextInOrder(p: Params, h: History, input: Input, last: u64)
    requires p.IsValid() && Recollects(p, h) && InOrder(p, h, last) && p.refractoryPeriod > 0 && !input.Drain?
    requires var at := ReadingOf(input); at.Some? ==> last <= at.value < U64_MAX
    ensures var at := ReadingOf(input); InOrder(p, Next(p, h, input), if at.Some? then at.value else last)
  {
    if !input.Restart? { GateStaysWithin(p, h, input); }
    match input {
      case Offer(s, w, now, draw) =>
        var (g, out) := Admit(p, h.gate, s, w, now, draw);
        AdmitEffect(p, h.gate, s, w, now, draw);
        hide Recollects, InOrder, Admit;
        FiredInOrder(p, h, g, now, out.fired, last);
        OfferingInOrder(p, h, s, now, g, out);
      case Poll(now) =>
        var (g, batch) := DrainIfStarving(p, h.gate, now);
        DrainEffect(p, h.gate, now);
        hide Recollects, InOrder, DrainIfStarving;
        FiredInOrder(p, h, g, now, batch, last);
      case Checkpoint =>
      case Restart => ReloadInOrder(p, h, last);
    }
  }

  lemma {:induction false} OfferingInOrder(p: Params, h: History, s: QueuedSignal, now: u64, g: Gate, out: AdmitOutcome)
    requires InOrder(p, Fired(h, g, now, out.fired, false), now)
    ensures InOrder(p, Offered(h, s, now, g, out), now)
  {
  }

  lemma {:induction false} RunInOrder(p: Params, inputs: seq<Input>)
    requires p.IsValid() && p.refractoryPeriod > 0 && IsSteady(inputs)
    ensures InOrder(p, After(p, Begin(NewGate(p)), inputs), LastReading(inputs))
  {
    if inputs != [] {
      var front, last := inputs[..|inputs| - 1], inputs[|inputs| - 1];
      RunInOrder(p, front);
      RunRecollects(p, front);
      var h := After(p, Begin(NewGate(p)), front);
      assert After(p, Begin(NewGate(p)), inputs) == Next(p, h, last);
      hide Recollects, InOrder, Next, After;
      NextInOrder(p, h, last, LastReading(front));
    }
  }

  /** The gate takes account of fire i, or of one after it: no restart since has loaded a
      snapshot older than fire i, or the gate has fired again since that restart. */
  ghost predicate TakesAccountOf(h: History, i: nat) {
    h.remembered != [] && h.remembered[|h.remembered| - 1] >= i
  }

  /** From here on, at readings no earlier than the last, the next fire is a full refractory
      period after fire i. */
  ghost predicate KeepsDistance(p: Params, h: History, last: u64, i: nat)
    requires p.IsValid() && i < |h.fires|
  {
    forall now: u64 :: now >= last && CanFire(p, h.gate, now) ==> now >= EndOf(p, h.fires[i])
  }

  /** Exactly when spacing survives restarts: the next fire is sure to keep its distance
      from fire i if and only if the gate still takes account of fire i or a later one, or
      the distance has already passed. */
  lemma {:induction false} SpacingHoldsIff(p: Params, inputs: seq<Input>, i: nat)
    requires p.IsValid() && Responsive(p) && p.refractoryPeriod > 0 && IsSteady(inputs)
    requires var h := After(p, Begin(NewGate(p)), inputs); i < |h.fires| && EndOf(p, h.fires[i]) < U64_MAX
    ensures var h := After(p, Begin(NewGate(p)), inputs);
            KeepsDistance(p, h, LastReading(inputs), i) <==>
              TakesAccountOf(h, i) || LastReading(inputs) >= EndOf(p, h.fires[i])
  {
    RunInOrder(p, inputs);
    RunRecollects(p, inputs);
    var h := After(p, Begin(NewGate(p)), inputs);
    var last := LastReading(inputs);
    DeadlineCoversIff(p, h, last, i);
    var t: u64 := if h.gate.refractoryUntil >= last then h.gate.refractoryUntil else last;
    CanFireIff(p, h.gate, t);
    hide Recollects, InOrder, After, CanFire;
    forall now: u64 | now >= last && CanFire(p, h.gate, now) ensures now >= h.gate.refractoryUntil { CanFireIff(p, h.gate, now); }
  }

  lemma {:induction false} DeadlineCoversIff(p: Params, h: History, last: u64, i: nat)
    requires Recollects(p, h) && InOrder(p, h, last) && p.refractoryPeriod > 0
    requires i < |h.fires| && EndOf(p, h.fires[i]) < U64_MAX
    ensures h.gate.refractoryUntil >= EndOf(p, h.fires[i]) <==> TakesAccountOf(h, i)
    ensures IsWithin(p, h.gate)
  {
    if h.remembered != [] {
      var newest := h.remembered[|h.remembered| - 1];
      assert h.gate.refractoryUntil == EndOf(p, h.fires[newest]);
    }
  }

  /** It does fail: a snapshot, a fire, a restart from that snapshot, and a second fire one
      nanosecond after the first; and the fire count then misses the first. */
  lemma {:induction false} StaleRestartFiresEarly(p: Params) returns (inputs: seq<Input>)
    requires p.IsValid() && Responsive(p) && p.refractoryPeriod > 1
    ensures IsSteady(inputs)
    ensures var h := After(p, Begin(NewGate(p)), inputs);
            && |h.fires| == 2 && h.fires[1].at == h.fires[0].at + 1 < EndOf(p, h.fires[0])
            && h.gate.signalsFired != |Released(h.fires)|
  {
    var h0 := Begin(NewGate(p));
    var s, w, draw := SomeOfferFires(p, h0.gate, 1);
    var first := Offer(s, w, 1, draw);
    var h2 := Next(p, Next(p, h0, Checkpoint), first);
    var h3 := Next(p, h2, Restart);
    assert h3.gate == Restore(p, NewGate(p), TakeSnapshot(NewGate(p)));
    var s', w', draw' := SomeOfferFires(p, h3.gate, 2);
    var second := Offer(s', w', 2, draw');
    inputs := [Checkpoint, first, Restart, second];
    FourSteps(p, h0, Checkpoint, first, Restart, second);
    SteadyFour(Checkpoint, first, Restart, second);
    RunRecollects(p, inputs);
    CountIsExactIff(p, inputs);
  }

  lemma {:induction false} SteadySnoc(front: seq<Input>, last: Input)
    requires IsSteady(front) && !last.Drain?
    requires var at := ReadingOf(last); at.Some? ==> LastReading(front) <= at.value < U64_MAX
    ensures IsSteady(front + [last])
    ensures var at := ReadingOf(last); LastReading(front + [last]) == if at.Some? then at.value else LastReading(front)
  {
    assert (front + [last])[..|front|] == front;
  }

  lemma {:induction false} FourSteps(p: Params, h: History, a: Input, b: Input, c: Input, d: Input)
    requires p.IsValid()
    ensures After(p, h, [a, b, c, d]) == Next(p, Next(p, Next(p, Next(p, h, a), b), c), d)
  {
    assert After(p, h, []) == h;
    hide *;
    assert [] + [a] == [a] && [a] + [b] == [a, b] && [a, b] + [c] == [a, b, c] && [a, b, c] + [d] == [a, b, c, d];
    AfterSnoc(p, h, [], a);
    AfterSnoc(p, h, [a], b);
    AfterSnoc(p, h, [a, b], c);
    AfterSnoc(p, h, [a, b, c], d);
  }

  lemma {:induction false} SteadyFour(a: Input, b: Input, c: Input, d: Input)
    requires a.Checkpoint? && b.Offer? && b.now == 1 && c.Restart? && d.Offer? && d.now == 2
    ensures IsSteady([a, b, c, d])
  {
    SteadySnoc([], a);
    assert [] + [a] == [a] && [a] + [b] == [a, b] && [a, b] + [c] == [a, b, c] && [a, b, c] + [d] == [a, b, c, d];
    SteadySnoc([a], b);
    SteadySnoc([a, b], c);
    SteadySnoc([a, b, c], d);
  }
}
