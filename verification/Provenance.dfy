/** Whatever the runtime holds, and whatever it has told of, arrived: in every run the queue,
    the cache and the ledger name only signals that came in, and every body is one that came
    in as it stands and met the propagation rules. */
module Provenance {
  import opened Base
  import opened Activation
  import opened Signals
  import opened Store
  import opened Nodes
  import opened Reception
  import opened Runtime
  import opened RuntimeLedger
  import opened RuntimeSteps

  function SignalTicket(s: Signal): Ticket {
    Ticket(s.id, s.origin, s.delivery)
  }

  predicate CameAs(input: Input, t: Ticket) {
    input.Arrives? && SignalTicket(input.signal) == t
  }

  /** A signal with this ticket arrived. */
  ghost predicate Known(inputs: seq<Input>, t: Ticket) {
    exists i :: 0 <= i < |inputs| && CameAs(inputs[i], t)
  }

  predicate Brings(input: Input, s: Signal) {
    input.Arrives? && input.signal == s
  }

  /** The signal can still travel, has not been here before and is heavy enough. */
  predicate MeetsRules(s: Signal, c: RuntimeConfig) {
    s.ttl > 0 && c.rules.local !in s.trace && s.weight >= c.rules.minPropagationWeight
  }

  /** This very signal arrived, and met the rules. */
  ghost predicate CameIn(inputs: seq<Input>, s: Signal, c: RuntimeConfig) {
    MeetsRules(s, c) && exists i :: 0 <= i < |inputs| && Brings(inputs[i], s)
  }

  lemma {:induction false} InIsKnown(inputs: seq<Input>, s: Signal, c: RuntimeConfig)
    requires CameIn(inputs, s, c)
    ensures Known(inputs, SignalTicket(s))
  {
    var i :| 0 <= i < |inputs| && Brings(inputs[i], s);
    assert CameAs(inputs[i], SignalTicket(s));
  }

  ghost predicate AllKnown(inputs: seq<Input>, q: seq<QueuedSignal>) {
    forall i :: 0 <= i < |q| ==> Known(inputs, TicketOf(q[i]))
  }

  ghost predicate BodiesKnown(inputs: seq<Input>, pending: map<SignalId, Signal>, c: RuntimeConfig) {
    forall id :: id in pending ==> pending[id].id == id && CameIn(inputs, pending[id], c)
  }

  ghost predicate ExitKnown(inputs: seq<Input>, x: Exit, c: RuntimeConfig) {
    && Known(inputs, TicketOf(x.signal))
    && (x.Let? && x.body.Some? ==> x.body.value.id == x.signal.id && CameIn(inputs, x.body.value, c))
  }

  ghost predicate LedgerKnown(inputs: seq<Input>, l: Ledger, c: RuntimeConfig) {
    AllKnown(inputs, l.arrived) && forall i :: 0 <= i < |l.exits| ==> ExitKnown(inputs, l.exits[i], c)
  }

  ghost predicate WorldKnown(inputs: seq<Input>, w: World, c: RuntimeConfig) {
    && |w.gate.queue| <= c.gate.maxQueueDepth
    && AllKnown(inputs, w.gate.queue) && BodiesKnown(inputs, w.pending, c) && LedgerKnown(inputs, w.ledger, c)
  }

  lemma {:induction false} LeaveKnown(inputs: seq<Input>, l: Ledger, x: Exit, e: Event, receipt: Option<Receipt>,
          c: RuntimeConfig)
    requires LedgerKnown(inputs, l, c) && ExitKnown(inputs, x, c)
    ensures LedgerKnown(inputs, Leave(l, x, e, receipt), c)
  {
    hide AllKnown, ExitKnown;
  }

  lemma {:induction false} ReleaseKnown(inputs: seq<Input>, l: Ledger, q: QueuedSignal, body: Option<Signal>,
          plan: Option<seq<Forward>>, cause: Cause, planner: Planner, link: Link, c: RuntimeConfig)
    requires LedgerKnown(inputs, l, c) && Known(inputs, TicketOf(q))
    requires body.Some? ==> body.value.id == q.id && CameIn(inputs, body.value, c)
    ensures LedgerKnown(inputs, Release(l, q, body, plan, cause, planner, link, c), c)
  {
    var l' := Release(l, q, body, plan, cause, planner, link, c);
    assert |l'.exits| == |l.exits| + 1 && forall i :: 0 <= i < |l.exits| ==> l'.exits[i] == l.exits[i];
    assert ExitKnown(inputs, l'.exits[|l.exits|], c);
    assert l'.arrived == l.arrived;
    hide AllKnown, ExitKnown, Release;
  }

  lemma {:induction false} ReleaseOneKnown(inputs: seq<Input>, w: World, q: QueuedSignal, a: Arrival, cause: Cause,
          planner: Planner, link: Link, c: RuntimeConfig)
    requires WorldKnown(inputs, w, c) && Known(inputs, TicketOf(q))
    requires a.Arrival? ==> CameIn(inputs, a.signal, c)
    ensures WorldKnown(inputs, ReleaseOne(w, q, a, cause, planner, link, c), c)
  {
    hide Known, CameIn, LedgerKnown;
    if a.Arrival? && q.id == a.signal.id {
      ReleaseKnown(inputs, w.ledger, q, Some(a.signal), Some(a.plan), cause, planner, link, c);
    } else {
      ReleaseKnown(inputs, w.ledger, q, BodyOf(w.pending, q.id), None, cause, planner, link, c);
    }
  }

  lemma {:induction false} ReleaseBatchKnown(inputs: seq<Input>, w: World, batch: seq<QueuedSignal>, a: Arrival,
          cause: Cause,
          planner: Planner, link: Link, c: RuntimeConfig)
    requires WorldKnown(inputs, w, c) && AllKnown(inputs, batch)
    requires a.Arrival? && batch != [] ==> CameIn(inputs, a.signal, c)
    ensures WorldKnown(inputs, ReleaseBatch(w, batch, a, cause, planner, link, c), c)
  {
    if batch != [] {
      var front, q := batch[..|batch| - 1], batch[|batch| - 1];
      assert AllKnown(inputs, front) && Known(inputs, TicketOf(q));
      hide WorldKnown, AllKnown, Known, CameIn, ReleaseOne;
      ReleaseBatchKnown(inputs, w, front, a, cause, planner, link, c);
      ReleaseOneKnown(inputs, ReleaseBatch(w, front, a, cause, planner, link, c), q, a, cause, planner, link, c);
    }
  }

  lemma {:induction false} VerdictKnown(inputs: seq<Input>, w: World, s: Signal, now: u64, d: Disposition,
          c: RuntimeConfig)
    requires WorldKnown(inputs, w, c) && Known(inputs, SignalTicket(s))
    requires d.evicted.Some? ==> Known(inputs, TicketOf(d.evicted.value.signal))
    ensures WorldKnown(inputs, AfterVerdict(w, s, now, d), c)
  {
    assert TicketOf(QueuedOf(s, now)) == SignalTicket(s);
    var w1 := if d.evicted.Some? then Evict(w, d.evicted.value) else w;
    hide Known, CameIn, AllKnown, LedgerKnown;
    if d.evicted.Some? {
      var ev := d.evicted.value;
      var receipt := if ev.signal.delivery.RequiresReceipt()
                     then Some(Receipt(ev.signal.id, ReceiptRejected(ev.reason), ev.signal.origin)) else None;
      LeaveKnown(inputs, w.ledger, Turned(ev.signal, ev.reason), Refused(ev.signal.id, ev.reason), receipt, c);
    }
    assert WorldKnown(inputs, w1, c);
    if d.rejected.Some? {
      LeaveKnown(inputs, w1.ledger, Turned(QueuedOf(s, now), d.rejected.value), Refused(s.id, d.rejected.value), d.receipt, c);
    }
  }

  lemma {:induction false} RememberedKnown(inputs: seq<Input>, w: World, s: Signal, c: RuntimeConfig)
    requires WorldKnown(inputs, w, c) && CameIn(inputs, s, c)
    ensures WorldKnown(inputs, Remembered(w, s, c), c)
  {
    hide Known, CameIn, AllKnown, LedgerKnown;
  }

  lemma {:induction false} ActKnown(inputs: seq<Input>, w: World, s: Signal, now: u64, d: Disposition,
          planner: Planner, link: Link,
          c: RuntimeConfig)
    requires WorldKnown(inputs, w, c) && Known(inputs, SignalTicket(s)) && AllKnown(inputs, d.handleLocally)
    requires d.evicted.Some? ==> Known(inputs, TicketOf(d.evicted.value.signal))
    requires d.queued || d.handleLocally != [] ==> CameIn(inputs, s, c)
    ensures WorldKnown(inputs, Act(w, s, now, d, planner, link, c), c)
  {
    var w1 := AfterVerdict(w, s, now, d);
    var w2 := ReleaseBatch(w1, d.handleLocally, Arrival(s, d.forwardTo), Threshold, planner, link, c);
    hide WorldKnown, AllKnown, Known, CameIn, AfterVerdict, ReleaseBatch, Remembered;
    VerdictKnown(inputs, w, s, now, d, c);
    ReleaseBatchKnown(inputs, w1, d.handleLocally, Arrival(s, d.forwardTo), Threshold, planner, link, c);
    if d.queued { RememberedKnown(inputs, w2, s, c); }
  }

  lemma {:induction false} PartsKnown(inputs: seq<Input>, queue: seq<QueuedSignal>, q: QueuedSignal,
          kept: seq<QueuedSignal>,
          out: AdmitOutcome)
    requires AllKnown(inputs, queue) && Known(inputs, TicketOf(q))
    requires multiset(queue) + multiset{q} == multiset(kept) + multiset(out.fired) + DroppedSet(out.dropped)
    ensures AllKnown(inputs, kept) && AllKnown(inputs, out.fired) && AllKnown(inputs, Without(out.fired, q.id))
    ensures out.dropped.Some? ==> Known(inputs, TicketOf(out.dropped.value))
  {
    hide Known, Without;
    forall x | x in kept || x in out.fired || x in DroppedSet(out.dropped) ensures Known(inputs, TicketOf(x)) {
      assert x in multiset(kept) + multiset(out.fired) + DroppedSet(out.dropped);
      assert x in multiset(queue) + multiset{q};
    }
    forall i | 0 <= i < |Without(out.fired, q.id)| ensures Known(inputs, TicketOf(Without(out.fired, q.id)[i])) {
      assert Without(out.fired, q.id)[i] in Without(out.fired, q.id);
    }
  }

  lemma {:induction false} DisposedOf(s: Signal, out: AdmitOutcome, planner: Planner)
    ensures var d := Dispose(s, out, planner);
            && (d.handleLocally == out.fired || d.handleLocally == Without(out.fired, s.id))
            && (d.evicted.Some? ==> out.dropped == Some(d.evicted.value.signal))
  {
    hide Without, FiredHere;
  }

  lemma {:induction false} TakenKnown(inputs: seq<Input>, w: World, w1: World, q: QueuedSignal, c: RuntimeConfig)
    requires WorldKnown(inputs, w, c) && Known(inputs, TicketOf(q))
    requires |w1.gate.queue| <= c.gate.maxQueueDepth && AllKnown(inputs, w1.gate.queue)
    requires w1.pending == w.pending && w1.ledger == w.ledger.(arrived := w.ledger.arrived + [q])
    ensures WorldKnown(inputs, w1, c)
  {
    hide Known, BodiesKnown, ExitKnown;
  }

  /** What the node takes from an arrival, and hands to the runtime, is known. */
  lemma {:induction false} ReceiveKnown(inputs: seq<Input>, w: World, s: Signal, weight: real, now: u64, draw: real,
          planner: Planner, c: RuntimeConfig)
    requires c.gate.IsValid() && WorldKnown(inputs, w, c) && Known(inputs, SignalTicket(s))
    ensures var (w1, d) := Receive(w, s, weight, now, draw, planner, c);
            && WorldKnown(inputs, w1, c) && AllKnown(inputs, d.handleLocally)
            && (d.evicted.Some? ==> Known(inputs, TicketOf(d.evicted.value.signal)))
  {
    var q := QueuedOf(s, now);
    assert TicketOf(q) == SignalTicket(s);
    var (w1, d) := Receive(w, s, weight, now, draw, planner, c);
    var (gate, out) := Admit(c.gate, w.gate, q, weight, now, draw);
    assert |w.gate.queue| <= c.gate.maxQueueDepth && AllKnown(inputs, w.gate.queue) && AllKnown(inputs, []);
    AdmitEffect(c.gate, w.gate, q, weight, now, draw);
    assert w1 == w || w1.gate == w.gate || w1.gate == gate;
    hide Known, AllKnown, WorldKnown, Admit, Dispose, Without;
    PartsKnown(inputs, w.gate.queue, q, gate.queue, out);
    DisposedOf(s, out, planner);
    hide OfferEffect;
    if w1 != w { TakenKnown(inputs, w, w1, q, c); }
  }

  lemma {:induction false} OnlyByTheRules(w: World, s: Signal, weight: real, now: u64, draw: real, planner: Planner,
          c: RuntimeConfig)
    requires c.gate.IsValid()
    ensures var d := Receive(w, s, weight, now, draw, planner, c).1;
            d.queued || d.handleLocally != [] ==> MeetsRules(s, c)
  {
    hide Admit, Dispose;
  }

  lemma {:induction false} ArriveKnown(inputs: seq<Input>, w: World, s: Signal, weight: real, now: u64, draw: real,
          planner: Planner, link: Link, c: RuntimeConfig)
    requires c.gate.IsValid() && WorldKnown(inputs, w, c) && Known(inputs, SignalTicket(s))
    requires MeetsRules(s, c) ==> CameIn(inputs, s, c)
    ensures WorldKnown(inputs, Arrive(w, s, weight, now, draw, planner, link, c), c)
  {
    var (w1, d) := Receive(w, s, weight, now, draw, planner, c);
    hide Known, CameIn, AllKnown, Act, MeetsRules, WorldKnown, Receive;
    ReceiveKnown(inputs, w, s, weight, now, draw, planner, c);
    OnlyByTheRules(w, s, weight, now, draw, planner, c);
    ActKnown(inputs, w1, s, now, d, planner, link, c);
  }

  lemma {:induction false} PollKnown(inputs: seq<Input>, w: World, now: u64, planner: Planner, link: Link,
          c: RuntimeConfig)
    requires c.gate.IsValid() && WorldKnown(inputs, w, c)
    ensures WorldKnown(inputs, PollGate(w, now, planner, link, c), c)
  {
    var (gate, batch) := DrainIfStarving(c.gate, w.gate, now);
    DrainEffect(c.gate, w.gate, now);
    hide Known, CameIn, DrainIfStarving, ReleaseBatch;
    forall x | x in gate.queue || x in batch ensures Known(inputs, TicketOf(x)) {
      assert x in multiset(gate.queue) + multiset(batch);
      assert x in w.gate.queue;
    }
    assert AllKnown(inputs, gate.queue) && AllKnown(inputs, batch);
    ReleaseBatchKnown(inputs, w.(gate := gate), batch, NoArrival, Guard, planner, link, c);
  }

  lemma {:induction false} KnownGrows(front: seq<Input>, last: Input, t: Ticket)
    requires Known(front, t)
    ensures Known(front + [last], t)
  {
    var i :| 0 <= i < |front| && CameAs(front[i], t);
    assert CameAs((front + [last])[i], t);
  }

  lemma {:induction false} InGrows(front: seq<Input>, last: Input, s: Signal, c: RuntimeConfig)
    requires CameIn(front, s, c)
    ensures CameIn(front + [last], s, c)
  {
    var i :| 0 <= i < |front| && Brings(front[i], s);
    assert Brings((front + [last])[i], s);
  }

  lemma {:induction false} WorldKnownGrows(front: seq<Input>, last: Input, w: World, c: RuntimeConfig)
    requires WorldKnown(front, w, c)
    ensures WorldKnown(front + [last], w, c)
  {
    forall t | Known(front, t) ensures Known(front + [last], t) { KnownGrows(front, last, t); }
    forall s | CameIn(front, s, c) ensures CameIn(front + [last], s, c) { InGrows(front, last, s, c); }
    hide Known, CameIn;
  }

  lemma {:induction false} EverythingArrived(inputs: seq<Input>, c: RuntimeConfig)
    requires c.gate.IsValid()
    ensures WorldKnown(inputs, After(inputs, c), c)
  {
    if inputs != [] {
      var front, last := inputs[..|inputs| - 1], inputs[|inputs| - 1];
      EverythingArrived(front, c);
      assert inputs == front + [last];
      WorldKnownGrows(front, last, After(front, c), c);
      if last.Arrives? { assert CameAs(inputs[|front|], SignalTicket(last.signal)); }
      assert last.Arrives? ==> Known(inputs, SignalTicket(last.signal));
      if last.Arrives? { assert Brings(inputs[|front|], last.signal); }
      hide WorldKnown, Known, Arrive, PollGate, MeetsRules;
      assert last.Arrives? && MeetsRules(last.signal, c) ==> CameIn(inputs, last.signal, c);
      hide CameIn;
      match last {
        case Arrives(s, weight, now, draw, planner, link) =>
          ArriveKnown(inputs, After(front, c), s, weight, now, draw, planner, link, c);
        case Polls(now, planner, link) => PollKnown(inputs, After(front, c), now, planner, link, c);
        case Checkpoints(now) => CheckpointKnown(inputs, After(front, c), now, c);
      }
    }
  }

  lemma {:induction false} CheckpointKnown(inputs: seq<Input>, w: World, now: u64, c: RuntimeConfig)
    requires WorldKnown(inputs, w, c)
    ensures WorldKnown(inputs, Checkpoint(w, now), c)
  {
    hide Known, CameIn;
  }

  // ---- copies that agree -------------------------------------------------------------------------

  /** Copies of a signal agree on its origin and delivery class, which its signature covers. */
  ghost predicate CopiesAgree(inputs: seq<Input>) {
    forall t, u :: Known(inputs, t) && Known(inputs, u) && t.id == u.id ==> t == u
  }

  /** The ticket known under an id. */
  ghost function TicketFor(inputs: seq<Input>, id: SignalId): Ticket {
    if exists t :: Known(inputs, t) && t.id == id then
      var t :| Known(inputs, t) && t.id == id; t
    else Ticket(id, 0, BestEffort)
  }

  lemma {:induction false} TicketsFromIds(inputs: seq<Input>, q: seq<QueuedSignal>)
    requires CopiesAgree(inputs) && AllKnown(inputs, q)
    ensures Tickets(q) == Map((id: SignalId) => TicketFor(inputs, id), QueueIds(q))
  {
    hide Known;
    forall i | 0 <= i < |q| ensures TicketOf(q[i]) == TicketFor(inputs, q[i].id) { assert Known(inputs, TicketOf(q[i])); }
  }
}
