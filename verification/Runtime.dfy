/** One node's runtime: the read loop's handling of an arrival and the maintenance poll,
    over the activation gate, the dedup map and a cache of the bodies of queued signals. */
module Runtime {
  import opened Base
  import opened Activation
  import opened Signals
  import opened Store
  import opened Nodes
  import opened Reception

  /** The one event reported when a signal leaves the node's hands. */
  datatype Event =
    | Handled(signal: Signal)
    | Released(id: SignalId, body: Option<Signal>)
    | Refused(id: SignalId, reason: RejectReason)

  function EventId(e: Event): SignalId {
    match e
    case Handled(s) => s.id
    case Released(id, _) => id
    case Refused(id, _) => id
  }

  /** Whether the gate's threshold or its latency guard let a signal through. */
  datatype Cause = Threshold | Guard

  datatype Transmission = Transmission(forward: Forward, signal: Signal)

  /** How a signal left: turned away, or let through, with its body if that was at hand, the
      plan made for it and what of the plan was sent; `waited` if not on its own arrival. */
  datatype Exit =
    | Turned(signal: QueuedSignal, reason: RejectReason)
    | Let(signal: QueuedSignal, body: Option<Signal>, cause: Cause, waited: bool, plan: seq<Forward>, sent: seq<Forward>)

  /** What happened so far: arrivals that were not duplicates and signals that left (both as
      the gate records them), and everything reported, sent and failed, in order. */
  datatype Ledger = Ledger(
    arrived: seq<QueuedSignal>,
    exits: seq<Exit>,
    events: seq<Event>,
    receipts: seq<Receipt>,
    planned: seq<Forward>,
    sent: seq<Transmission>,
    failed: seq<Forward>)
  {
    function Left(): (r: seq<QueuedSignal>)
      ensures |r| == |exits| && forall i :: 0 <= i < |r| ==> r[i] == exits[i].signal
    {
      Map((x: Exit) => x.signal, exits)
    }
  }

  datatype World = World(gate: Gate, seen: map<SignalId, u64>, pending: map<SignalId, Signal>, backstops: nat, ledger: Ledger)

  datatype RuntimeConfig = RuntimeConfig(rules: NodeRules, gate: Params, attenuation: real)

  /** Whether the peer of a forward has a live session with room. */
  type Link = Forward -> bool

  // ---- releasing a signal ------------------------------------------------------------------------

  function SentOver(forwards: seq<Forward>, link: Link): seq<Forward> {
    if forwards == [] then []
    else
      var last := forwards[|forwards| - 1];
      SentOver(forwards[..|forwards| - 1], link) + if link(last) then [last] else []
  }

  function FailedOver(forwards: seq<Forward>, link: Link): seq<Forward> {
    if forwards == [] then []
    else
      var last := forwards[|forwards| - 1];
      FailedOver(forwards[..|forwards| - 1], link) + if link(last) then [] else [last]
  }

  function Transmit(forwards: seq<Forward>, outbound: Signal): (r: seq<Transmission>)
    ensures |r| == |forwards| && forall i :: 0 <= i < |r| ==> r[i] == Transmission(forwards[i], outbound)
  {
    Map((f: Forward) => Transmission(f, outbound), forwards)
  }

  function Append<T>(s: seq<T>, x: Option<T>): seq<T> {
    if x.Some? then s + [x.value] else s
  }

  /** A signal leaves: one event, and a receipt if one is owed. */
  function Leave(l: Ledger, x: Exit, e: Event, receipt: Option<Receipt>): Ledger {
    l.(exits := l.exits + [x], events := l.events + [e], receipts := Append(l.receipts, receipt))
  }

  function OutboundOf(body: Signal, c: RuntimeConfig): Signal {
    Outbound(body, c.rules.local, c.attenuation, c.rules.minPropagationWeight)
  }

  /** Delivered, unless every chosen peer was unreachable. */
  function ReleaseStatus(forwards: seq<Forward>, link: Link): ReceiptStatus {
    if forwards == [] || SentOver(forwards, link) != [] then ReceiptDelivered else ReceiptRejected(TransportFailed)
  }

  function ReleaseReceipt(q: QueuedSignal, body: Signal, forwards: seq<Forward>, link: Link): Option<Receipt> {
    if body.delivery.RequiresReceipt() then Some(Receipt(q.id, ReleaseStatus(forwards, link), body.origin)) else None
  }

  function Release(l: Ledger, q: QueuedSignal, body: Option<Signal>, plan: Option<seq<Forward>>, cause: Cause,
          planner: Planner, link: Link, c: RuntimeConfig): Ledger
  {
    match body
    case None => Leave(l, Let(q, None, cause, plan.None?, [], []), Released(q.id, None), None)
    case Some(b) =>
      var forwards := if plan.Some? then plan.value else planner(b);
      Leave(l.(planned := l.planned + forwards,
               sent := l.sent + Transmit(SentOver(forwards, link), OutboundOf(b, c)),
               failed := l.failed + FailedOver(forwards, link)),
            Let(q, Some(b), cause, plan.None?, forwards, SentOver(forwards, link)),
            if cause.Threshold? then Handled(b) else Released(q.id, Some(b)), ReleaseReceipt(q, b, forwards, link))
  }

  function BodyOf(pending: map<SignalId, Signal>, id: SignalId): Option<Signal> {
    if id in pending then Some(pending[id]) else None
  }

  /** The arrival itself, with the plan made for it, if the gate released it. */
  datatype Arrival = NoArrival | Arrival(signal: Signal, plan: seq<Forward>)

  /** One released signal: the arrival's body is in hand, any other is in the cache. */
  function ReleaseOne(w: World, q: QueuedSignal, a: Arrival, cause: Cause, planner: Planner, link: Link,
          c: RuntimeConfig): World {
    if a.Arrival? && q.id == a.signal.id then
      w.(ledger := Release(w.ledger, q, Some(a.signal), Some(a.plan), cause, planner, link, c))
    else
      w.(pending := w.pending - {q.id},
         ledger := Release(w.ledger, q, BodyOf(w.pending, q.id), None, cause, planner, link, c))
  }

  function ReleaseBatch(w: World, batch: seq<QueuedSignal>, a: Arrival, cause: Cause, planner: Planner, link: Link,
          c: RuntimeConfig): World {
    if batch == [] then w
    else ReleaseOne(ReleaseBatch(w, batch[..|batch| - 1], a, cause, planner, link, c), batch[|batch| - 1], a, cause, planner, link, c)
  }

  // ---- the steps of the runtime ---------------------------------------------------------------------

  ghost predicate IsLeastKey(pending: map<SignalId, Signal>, id: SignalId) {
    id in pending && forall other :: other in pending ==> id <= other
  }

  lemma {:induction false} HasLeastKey(pending: map<SignalId, Signal>) returns (id: SignalId)
    requires pending.Keys != {}
    ensures IsLeastKey(pending, id)
    decreases |pending.Keys|
  {
    var some :| some in pending;
    var rest := pending - {some};
    assert rest.Keys == pending.Keys - {some};
    if rest.Keys == {} {
      id := some;
      forall other | other in pending ensures id <= other {
        assert other == some || other in rest.Keys;
      }
    } else {
      var least := HasLeastKey(rest);
      id := if some <= least then some else least;
      forall other | other in pending ensures id <= other {
        if other != some { assert other in rest; }
      }
    }
  }

  ghost function LeastKey(pending: map<SignalId, Signal>): (id: SignalId)
    requires pending.Keys != {}
    ensures IsLeastKey(pending, id)
  {
    assert exists id :: IsLeastKey(pending, id) by { var _ := HasLeastKey(pending); }
    var id :| IsLeastKey(pending, id);
    id
  }

  /** Cache a body; the backstop evicts the oldest id when the cache is twice the queue. */
  ghost function Remembered(w: World, s: Signal, c: RuntimeConfig): World {
    if |w.pending| >= 2 * c.gate.maxQueueDepth && w.pending.Keys != {} then
      w.(pending := (w.pending - {LeastKey(w.pending)})[s.id := s], backstops := w.backstops + 1)
    else
      w.(pending := w.pending[s.id := s])
  }

  /** The displaced signal: out of the cache, reported, and receipted if acknowledged. */
  function Evict(w: World, ev: Evicted): World {
    w.(pending := w.pending - {ev.signal.id},
       ledger := Leave(w.ledger, Turned(ev.signal, ev.reason), Refused(ev.signal.id, ev.reason),
                       if ev.signal.delivery.RequiresReceipt()
                       then Some(Receipt(ev.signal.id, ReceiptRejected(ev.reason), ev.signal.origin)) else None))
  }

  /** The eviction and the refusal that a disposition may carry. */
  function AfterVerdict(w: World, s: Signal, now: u64, d: Disposition): World {
    var w1 := if d.evicted.Some? then Evict(w, d.evicted.value) else w;
    if d.rejected.Some?
    then w1.(ledger := Leave(w1.ledger, Turned(QueuedOf(s, now), d.rejected.value), Refused(s.id, d.rejected.value), d.receipt))
    else w1
  }

  /** What the read loop does with a disposition. */
  ghost function Act(w: World, s: Signal, now: u64, d: Disposition, planner: Planner, link: Link,
          c: RuntimeConfig): World {
    var w1 := AfterVerdict(w, s, now, d);
    var w2 := ReleaseBatch(w1, d.handleLocally, Arrival(s, d.forwardTo), Threshold, planner, link, c);
    if d.queued then Remembered(w2, s, c) else w2
  }

  /** The node's decision on an arriving signal, and the world with the gate and the dedup
      map as they then are. */
  function Receive(w: World, s: Signal, synapseWeight: real, now: u64, draw: real, planner: Planner,
          c: RuntimeConfig): (World, Disposition)
    requires c.gate.IsValid()
  {
    var (seen, had) := CheckAndSetSeen(w.seen, s.id, now, c.rules.dedupSecs);
    if had then (w, NOTHING)
    else
      var w1 := w.(seen := seen, ledger := w.ledger.(arrived := w.ledger.arrived + [QueuedOf(s, now)]));
      match CheckPropagable(s, c.rules.local, c.rules.minPropagationWeight)
      case Some(reason) => (w1, Refuse(s, reason))
      case None =>
        var (gate, out) := Admit(c.gate, w.gate, QueuedOf(s, now), synapseWeight, now, draw);
        (w1.(gate := gate), Dispose(s, out, planner))
  }

  /** One iteration of the read loop, for a verified signal with its headers clamped. */
  ghost function Arrive(w: World, s: Signal, synapseWeight: real, now: u64, draw: real, planner: Planner, link: Link,
          c: RuntimeConfig): World
    requires c.gate.IsValid()
  {
    var (w1, d) := Receive(w, s, synapseWeight, now, draw, planner, c);
    Act(w1, s, now, d, planner, link, c)
  }

  /** One maintenance poll. */
  function PollGate(w: World, now: u64, planner: Planner, link: Link, c: RuntimeConfig): World {
    var (gate, batch) := DrainIfStarving(c.gate, w.gate, now);
    ReleaseBatch(w.(gate := gate), batch, NoArrival, Guard, planner, link, c)
  }

  /** The store's part of a checkpoint. */
  function Checkpoint(w: World, now: u64): World {
    w.(seen := PurgeExpired(w.seen, now))
  }

  // ---- the runtime, in place ---------------------------------------------------------------------------

  class NodeRuntime {
    const config: RuntimeConfig
    const gate: ActivationState
    const store: MemoryStore
    var pending: map<SignalId, Signal>
    var backstops: nat
    var ledger: Ledger

    ghost predicate Valid()
      reads this
    {
      gate.params == config.gate && config.gate.IsValid()
    }

    function View(): World
      reads this, gate, store
    {
      World(gate.View(), store.seen, pending, backstops, ledger)
    }

    constructor (config: RuntimeConfig, gate: ActivationState, store: MemoryStore)
      requires gate.params == config.gate && config.gate.IsValid()
      ensures Valid() && this.config == config && this.gate == gate && this.store == store
      ensures View() == World(gate.View(), store.seen, map[], 0, Ledger([], [], [], [], [], [], []))
    {
      this.config, this.gate, this.store := config, gate, store;
      pending, backstops := map[], 0;
      ledger := Ledger([], [], [], [], [], [], []);
    }

    /** Deduplication, the propagation rules, admission, and a route if it fired. */
    method ReceiveSignal(s: Signal, synapseWeight: real, now: u64, draw: real,
            planner: Planner)
      returns (d: Disposition)
      requires Valid()
      modifies this, gate, store`seen
      ensures Valid() && (View(), d) == Receive(old(View()), s, synapseWeight, now, draw, planner, config)
    {
      var had := store.CheckAndSet(s.id, now, config.rules.dedupSecs);
      if had {
        return NOTHING;
      }
      ledger := ledger.(arrived := ledger.arrived + [QueuedOf(s, now)]);
      var verdict := CheckPropagable(s, config.rules.local, config.rules.minPropagationWeight);
      if verdict.Some? {
        return Refuse(s, verdict.value);
      }
      var out := gate.AdmitSignal(QueuedOf(s, now), synapseWeight, now, draw);
      d := Dispose(s, out, planner);
    }

    /** Hands a signal to every chosen peer that has a live session with room. */
    method ForwardSignal(body: Signal, forwards: seq<Forward>, link: Link) returns (delivered: bool)
      modifies this`ledger
      ensures ledger == old(ledger).(
                planned := old(ledger.planned) + forwards,
                sent := old(ledger.sent) + Transmit(SentOver(forwards, link), OutboundOf(body, config)),
                failed := old(ledger.failed) + FailedOver(forwards, link))
      ensures delivered <==> SentOver(forwards, link) != []
    {
      var ok, bad := [], [];
      for i := 0 to |forwards|
        invariant ok == SentOver(forwards[..i], link) && bad == FailedOver(forwards[..i], link)
      {
        assert forwards[..i + 1][..i] == forwards[..i];
        if link(forwards[i]) {
          ok := ok + [forwards[i]];
        } else {
          bad := bad + [forwards[i]];
        }
      }
      assert forwards[..|forwards|] == forwards;
      ledger := ledger.(planned := ledger.planned + forwards,
                        sent := ledger.sent + Transmit(ok, OutboundOf(body, config)),
                        failed := ledger.failed + bad);
      delivered := ok != [];
    }

    /** The single path for a signal the gate has let through. */
    method ReleaseSignal(q: QueuedSignal, body: Option<Signal>, plan: Option<seq<Forward>>, cause: Cause,
            planner: Planner, link: Link)
      modifies this`ledger
      ensures ledger == Release(old(ledger), q, body, plan, cause, planner, link, config)
    {
      if body.None? {
        ledger := Leave(ledger, Let(q, None, cause, plan.None?, [], []), Released(q.id, None), None);
        return;
      }
      var b := body.value;
      var forwards := if plan.Some? then plan.value else planner(b);
      var delivered := ForwardSignal(b, forwards, link);
      var receipt := None;
      if b.delivery.RequiresReceipt() {
        var status := if forwards == [] || delivered then ReceiptDelivered else ReceiptRejected(TransportFailed);
        receipt := Some(Receipt(q.id, status, b.origin));
      }
      ledger := Leave(ledger, Let(q, Some(b), cause, plan.None?, forwards, SentOver(forwards, link)),
                      if cause.Threshold? then Handled(b) else Released(q.id, Some(b)), receipt);
    }

    method ReleaseAll(batch: seq<QueuedSignal>, a: Arrival, cause: Cause, planner: Planner, link: Link)
      requires Valid()
      modifies this`pending, this`ledger
      ensures View() == ReleaseBatch(old(View()), batch, a, cause, planner, link, config)
    {
      ghost var w := View();
      for i := 0 to |batch|
        invariant View() == ReleaseBatch(w, batch[..i], a, cause, planner, link, config)
      {
        assert batch[..i + 1][..i] == batch[..i];
        var q := batch[i];
        if a.Arrival? && q.id == a.signal.id {
          ReleaseSignal(q, Some(a.signal), Some(a.plan), cause, planner, link);
        } else {
          var body := BodyOf(pending, q.id);
          pending := pending - {q.id};
          ReleaseSignal(q, body, None, cause, planner, link);
        }
      }
      assert batch[..|batch|] == batch;
    }

    method RememberBody(s: Signal)
      modifies this`pending, this`backstops
      ensures View() == Remembered(old(View()), s, config)
    {
      if |pending| >= 2 * config.gate.maxQueueDepth && pending.Keys != {} {
        var oldest :| oldest in pending;
        var left := pending.Keys - {oldest};
        while left != {}
          invariant oldest in pending && left <= pending.Keys
          invariant forall id :: id in pending && id !in left ==> oldest <= id
          decreases |left|
        {
          var id :| id in left;
          if id < oldest {
            oldest := id;
          }
          left := left - {id};
        }
        assert IsLeastKey(pending, oldest);
        assert oldest == LeastKey(pending);
        pending := pending - {oldest};
        backstops := backstops + 1;
      }
      pending := pending[s.id := s];
    }

    /** One iteration of the read loop. */
    method OnArrival(s: Signal, synapseWeight: real, now: u64, draw: real, planner: Planner, link: Link)
      requires Valid()
      modifies this, gate, store`seen
      ensures Valid() && View() == Arrive(old(View()), s, synapseWeight, now, draw, planner, link, config)
    {
      var d := ReceiveSignal(s, synapseWeight, now, draw, planner);
      ghost var w := View();
      if d.evicted.Some? {
        var ev := d.evicted.value;
        pending := pending - {ev.signal.id};
        var receipt := if ev.signal.delivery.RequiresReceipt()
                       then Some(Receipt(ev.signal.id, ReceiptRejected(ev.reason), ev.signal.origin)) else None;
        ledger := Leave(ledger, Turned(ev.signal, ev.reason), Refused(ev.signal.id, ev.reason), receipt);
      }
      if d.rejected.Some? {
        ledger := Leave(ledger, Turned(QueuedOf(s, now), d.rejected.value), Refused(s.id, d.rejected.value), d.receipt);
      }
      assert View() == AfterVerdict(w, s, now, d);
      ReleaseAll(d.handleLocally, Arrival(s, d.forwardTo), Threshold, planner, link);
      if d.queued {
        RememberBody(s);
      }
    }

    /** One maintenance poll. */
    method Poll(now: u64, planner: Planner, link: Link)
      requires Valid()
      modifies this, gate
      ensures Valid() && View() == PollGate(old(View()), now, planner, link, config)
    {
      var batch := gate.DrainStarving(now);
      ReleaseAll(batch, NoArrival, Guard, planner, link);
    }

    method PurgeSeen(now: u64)
      requires Valid()
      modifies store`seen
      ensures Valid() && View() == Checkpoint(old(View()), now)
    {
      var _ := store.PurgeSeen(now);
    }
  }
}
