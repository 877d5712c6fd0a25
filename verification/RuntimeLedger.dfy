/** Runs of the runtime, and what its ledger says after every one of them: each receipt has
    the status that what was done with the signal calls for. */
module RuntimeLedger {
  import opened Base
  import opened Activation
  import opened Signals
  import opened Store
  import opened Nodes
  import opened Reception
  import opened Runtime

  // ---- runs -------------------------------------------------------------------------------------

  datatype Input =
    | Arrives(signal: Signal, synapseWeight: real, at: u64, draw: real, planner: Planner, link: Link)
    | Polls(at: u64, planner: Planner, link: Link)
    | Checkpoints(at: u64)

  ghost function Next(w: World, input: Input, c: RuntimeConfig): World
    requires c.gate.IsValid()
  {
    match input
    case Arrives(s, weight, now, draw, planner, link) => Arrive(w, s, weight, now, draw, planner, link, c)
    case Polls(now, planner, link) => PollGate(w, now, planner, link, c)
    case Checkpoints(now) => Checkpoint(w, now)
  }

  function Start(c: RuntimeConfig): World {
    World(NewGate(c.gate), map[], map[], 0, Ledger([], [], [], [], [], [], []))
  }

  ghost function After(inputs: seq<Input>, c: RuntimeConfig): World
    requires c.gate.IsValid()
  {
    if inputs == [] then Start(c) else Next(After(inputs[..|inputs| - 1], c), inputs[|inputs| - 1], c)
  }

  // ---- what an exit calls for --------------------------------------------------------------------

  function EventOf(x: Exit): Event {
    match x
    case Turned(q, reason) => Refused(q.id, reason)
    case Let(q, body, cause, _, _, _) =>
      if body.Some? && cause.Threshold? then Handled(body.value) else Released(q.id, body)
  }

  /** Turned away for a reason; failed if something was planned and nothing sent; and
      delivered otherwise. */
  function StatusOf(x: Exit): ReceiptStatus {
    match x
    case Turned(_, reason) => ReceiptRejected(reason)
    case Let(_, _, _, _, plan, sent) =>
      if plan != [] && sent == [] then ReceiptRejected(TransportFailed) else ReceiptDelivered
  }

  /** The receipt owed to the origin of an acknowledged signal, if it is at hand. */
  function DueFor(x: Exit): Option<Receipt> {
    match x
    case Turned(q, _) => if q.delivery.RequiresReceipt() then Some(Receipt(q.id, StatusOf(x), q.origin)) else None
    case Let(q, body, _, _, _, _) =>
      if body.Some? && body.value.delivery.RequiresReceipt() then Some(Receipt(q.id, StatusOf(x), body.value.origin)) else None
  }

  function Due(exits: seq<Exit>): seq<Receipt> {
    if exits == [] then [] else Append(Due(exits[..|exits| - 1]), DueFor(exits[|exits| - 1]))
  }

  function PlanOf(x: Exit): seq<Forward> {
    if x.Let? then x.plan else []
  }

  function SentOf(x: Exit): seq<Forward> {
    if x.Let? then x.sent else []
  }

  function Plans(exits: seq<Exit>): seq<Forward> {
    if exits == [] then [] else Plans(exits[..|exits| - 1]) + PlanOf(exits[|exits| - 1])
  }

  function Sents(exits: seq<Exit>): seq<Forward> {
    if exits == [] then [] else Sents(exits[..|exits| - 1]) + SentOf(exits[|exits| - 1])
  }

  function Forwards(sent: seq<Transmission>): (r: seq<Forward>)
    ensures |r| == |sent| && forall i :: 0 <= i < |r| ==> r[i] == sent[i].forward
  {
    Map((t: Transmission) => t.forward, sent)
  }

  /** Only what was planned is sent, and an acknowledged signal is let through on arrival
      only with somewhere to go. */
  predicate IsProper(x: Exit) {
    x.Let? ==>
      && multiset(x.sent) <= multiset(x.plan)
      && (!x.waited && x.body.Some? && x.body.value.delivery.RequiresReceipt() ==> x.plan != [])
  }

  /** The exits explain everything reported, receipted, planned and sent, in order; every
      planned forward was sent or failed. */
  ghost predicate Recorded(l: Ledger) {
    && l.events == Map(EventOf, l.exits)
    && l.receipts == Due(l.exits)
    && l.planned == Plans(l.exits) && Forwards(l.sent) == Sents(l.exits)
    && multiset(l.planned) == multiset(Forwards(l.sent)) + multiset(l.failed)
    && forall i :: 0 <= i < |l.exits| ==> IsProper(l.exits[i])
  }

  // ---- one exit ----------------------------------------------------------------------------------

  lemma {:induction false} ExitRecords(l: Ledger, l': Ledger, x: Exit)
    requires Recorded(l) && IsProper(x)
    requires l'.exits == l.exits + [x] && l'.events == l.events + [EventOf(x)] && l'.receipts == Append(l.receipts, DueFor(x))
    requires l'.planned == l.planned + PlanOf(x) && Forwards(l'.sent) == Forwards(l.sent) + SentOf(x)
    requires multiset(l'.planned) == multiset(Forwards(l'.sent)) + multiset(l'.failed)
    ensures Recorded(l')
  {
    assert (l.exits + [x])[..|l.exits|] == l.exits;
    hide EventOf, DueFor, PlanOf, SentOf, IsProper, Forwards;
  }

  lemma {:induction false} SentOrFailed(forwards: seq<Forward>, link: Link)
    ensures multiset(forwards) == multiset(SentOver(forwards, link)) + multiset(FailedOver(forwards, link))
  {
    if forwards != [] {
      SentOrFailed(forwards[..|forwards| - 1], link);
      assert forwards == forwards[..|forwards| - 1] + [forwards[|forwards| - 1]];
    }
  }

  lemma {:induction false} TransmitBalances(planned: seq<Forward>, sent: seq<Transmission>, failed: seq<Forward>,
          forwards: seq<Forward>, link: Link, outbound: Signal)
    requires multiset(planned) == multiset(Forwards(sent)) + multiset(failed)
    ensures var ok := SentOver(forwards, link);
            && Forwards(sent + Transmit(ok, outbound)) == Forwards(sent) + ok
            && multiset(planned + forwards) ==
                 multiset(Forwards(sent + Transmit(ok, outbound))) + multiset(failed + FailedOver(forwards, link))
  {
    SentOrFailed(forwards, link);
    var ok, bad := SentOver(forwards, link), FailedOver(forwards, link);
    assert Forwards(sent + Transmit(ok, outbound)) == Forwards(sent) + ok;
    hide *;
    SumsAppend(planned, Forwards(sent), failed, forwards, ok, bad);
  }

  lemma {:induction false} SumsAppend<T>(p: seq<T>, s: seq<T>, f: seq<T>, a: seq<T>, b: seq<T>, c: seq<T>)
    requires multiset(p) == multiset(s) + multiset(f) && multiset(a) == multiset(b) + multiset(c)
    ensures multiset(p + a) == multiset(s + b) + multiset(f + c)
  {
  }

  lemma {:induction false} ReleaseRecords(l: Ledger, q: QueuedSignal, body: Option<Signal>, plan: Option<seq<Forward>>,
          cause: Cause, planner: Planner, link: Link, c: RuntimeConfig)
    requires Recorded(l)
    requires plan.Some? && body.Some? && body.value.delivery.RequiresReceipt() ==> plan.value != []
    ensures Recorded(Release(l, q, body, plan, cause, planner, link, c))
  {
    var l' := Release(l, q, body, plan, cause, planner, link, c);
    if body.Some? {
      var forwards := if plan.Some? then plan.value else planner(body.value);
      TransmitBalances(l.planned, l.sent, l.failed, forwards, link, OutboundOf(body.value, c));
      var x := Let(q, body, cause, plan.None?, forwards, SentOver(forwards, link));
      SentOrFailed(forwards, link);
      assert IsProper(x);
      assert l'.exits == l.exits + [x] && l'.events == l.events + [EventOf(x)];
      assert l'.receipts == Append(l.receipts, DueFor(x));
      hide Recorded, Due, Plans, Sents, DueFor, EventOf, StatusOf, SentOver, FailedOver, Transmit;
      ExitRecords(l, l', x);
    } else {
      var x := Let(q, None, cause, plan.None?, [], []);
      assert Forwards(l'.sent) == Forwards(l.sent) + [];
      ExitRecords(l, l', x);
    }
  }

  /** An arrival is released with a plan only if it is unacknowledged or the plan goes somewhere. */
  ghost predicate PlanGoesSomewhere(batch: seq<QueuedSignal>, a: Arrival) {
    a.Arrival? && a.signal.delivery.RequiresReceipt() && FiredHere(batch, a.signal.id) ==> a.plan != []
  }

  lemma {:induction false} BatchRecords(w: World, batch: seq<QueuedSignal>, a: Arrival, cause: Cause, planner: Planner,
          link: Link, c: RuntimeConfig)
    requires Recorded(w.ledger) && PlanGoesSomewhere(batch, a)
    ensures Recorded(ReleaseBatch(w, batch, a, cause, planner, link, c).ledger)
  {
    if batch != [] {
      var front, q := batch[..|batch| - 1], batch[|batch| - 1];
      assert FiredHere(front, if a.Arrival? then a.signal.id else 0) ==> FiredHere(batch, if a.Arrival? then a.signal.id else 0);
      BatchRecords(w, front, a, cause, planner, link, c);
      var w1 := ReleaseBatch(w, front, a, cause, planner, link, c);
      assert a.Arrival? && q.id == a.signal.id ==> FiredHere(batch, a.signal.id);
      hide Recorded, Release, FiredHere;
      if a.Arrival? && q.id == a.signal.id {
        ReleaseRecords(w1.ledger, q, Some(a.signal), Some(a.plan), cause, planner, link, c);
      } else {
        ReleaseRecords(w1.ledger, q, BodyOf(w1.pending, q.id), None, cause, planner, link, c);
      }
    }
  }

  // ---- one arrival -------------------------------------------------------------------------------

  /** A refusal carries the receipt that is owed, if one is. */
  ghost predicate OwesReceipt(d: Disposition, s: Signal) {
    d.rejected.Some? ==> d.receipt == if s.delivery.RequiresReceipt() then Some(Rejection(s, d.rejected.value)) else None
  }

  lemma {:induction false} TurnedRecords(l: Ledger, q: QueuedSignal, reason: RejectReason)
    requires Recorded(l)
    ensures Recorded(Leave(l, Turned(q, reason), Refused(q.id, reason), DueFor(Turned(q, reason))))
  {
    var x := Turned(q, reason);
    var l' := Leave(l, x, Refused(q.id, reason), DueFor(x));
    assert Forwards(l'.sent) == Forwards(l.sent) + [];
    ExitRecords(l, l', x);
  }

  lemma {:induction false} VerdictRecords(w: World, s: Signal, now: u64, d: Disposition)
    requires Recorded(w.ledger) && OwesReceipt(d, s)
    ensures Recorded(AfterVerdict(w, s, now, d).ledger)
  {
    hide Recorded;
    if d.evicted.Some? { TurnedRecords(w.ledger, d.evicted.value.signal, d.evicted.value.reason); }
    var w1 := if d.evicted.Some? then Evict(w, d.evicted.value) else w;
    if d.rejected.Some? { TurnedRecords(w1.ledger, QueuedOf(s, now), d.rejected.value); }
  }

  lemma {:induction false} DisposeOwes(s: Signal, out: AdmitOutcome, plan: Planner)
    ensures var d := Dispose(s, out, plan);
            OwesReceipt(d, s) && PlanGoesSomewhere(d.handleLocally, Arrival(s, d.forwardTo))
  {
    var rest := Without(out.fired, s.id);
    forall i | 0 <= i < |rest| ensures rest[i].id != s.id { assert rest[i] in rest; }
    assert !FiredHere(rest, s.id);
  }

  lemma {:induction false} ActRecords(w: World, s: Signal, now: u64, d: Disposition, planner: Planner, link: Link,
          c: RuntimeConfig)
    requires Recorded(w.ledger) && OwesReceipt(d, s) && PlanGoesSomewhere(d.handleLocally, Arrival(s, d.forwardTo))
    ensures Recorded(Act(w, s, now, d, planner, link, c).ledger)
  {
    hide Recorded, AfterVerdict, ReleaseBatch, PlanGoesSomewhere, OwesReceipt;
    VerdictRecords(w, s, now, d);
    BatchRecords(AfterVerdict(w, s, now, d), d.handleLocally, Arrival(s, d.forwardTo), Threshold, planner, link, c);
  }

  lemma {:induction false} NextRecords(w: World, input: Input, c: RuntimeConfig)
    requires c.gate.IsValid() && Recorded(w.ledger)
    ensures Recorded(Next(w, input, c).ledger)
  {
    match input
    case Arrives(s, weight, now, draw, planner, link) =>
      var (w1, d) := Receive(w, s, weight, now, draw, planner, c);
      DisposeOwes(s, Admit(c.gate, w.gate, QueuedOf(s, now), weight, now, draw).1, planner);
      assert OwesReceipt(d, s) && PlanGoesSomewhere(d.handleLocally, Arrival(s, d.forwardTo));
      assert Recorded(w1.ledger);
      hide Recorded, Receive, Act, OwesReceipt, PlanGoesSomewhere;
      ActRecords(w1, s, now, d, planner, link, c);
    case Polls(now, planner, link) =>
      var (gate, batch) := DrainIfStarving(c.gate, w.gate, now);
      BatchRecords(w.(gate := gate), batch, NoArrival, Guard, planner, link, c);
    case Checkpoints(now) =>
  }

  lemma {:induction false} EveryRunIsRecorded(inputs: seq<Input>, c: RuntimeConfig)
    requires c.gate.IsValid()
    ensures Recorded(After(inputs, c).ledger)
  {
    if inputs != [] {
      EveryRunIsRecorded(inputs[..|inputs| - 1], c);
      hide Recorded, Next;
      NextRecords(After(inputs[..|inputs| - 1], c), inputs[|inputs| - 1], c);
    }
  }

  // ---- what a receipt says -----------------------------------------------------------------------

  /** In every run the receipts are, in order, those the exits call for, and so a signal is
      receipted as delivered though nothing of it was sent exactly when it had waited in the
      queue and had nowhere to go: on arrival it would have been refused. */
  lemma {:induction false} ReceiptsSayWhatHappened(inputs: seq<Input>, c: RuntimeConfig)
    requires c.gate.IsValid()
    ensures var l := After(inputs, c).ledger;
            && l.receipts == Due(l.exits) && l.planned == Plans(l.exits) && Forwards(l.sent) == Sents(l.exits)
            && forall i :: 0 <= i < |l.exits| && DueFor(l.exits[i]).Some? ==>
                 var x := l.exits[i];
                 DueFor(x).value.status == ReceiptDelivered && SentOf(x) == [] <==> x.Let? && x.waited && x.plan == []
  {
    EveryRunIsRecorded(inputs, c);
    var l := After(inputs, c).ledger;
    assert Recorded(l);
    hide After;
    forall i | 0 <= i < |l.exits| && DueFor(l.exits[i]).Some?
      ensures var x := l.exits[i];
              DueFor(x).value.status == ReceiptDelivered && SentOf(x) == [] <==> x.Let? && x.waited && x.plan == []
    {
      assert IsProper(l.exits[i]);
    }
  }

  predicate IsNoRoute(r: Receipt) {
    r.status == ReceiptRejected(NoRoute)
  }

  function NoRoutes(receipts: seq<Receipt>): seq<Receipt> {
    if receipts == [] then []
    else
      var last := receipts[|receipts| - 1];
      NoRoutes(receipts[..|receipts| - 1]) + if IsNoRoute(last) then [last] else []
  }

  /** The arrival is acknowledged, not a duplicate, and either has been here before or fires
      at once with nowhere to go. */
  predicate FindsNoRoute(w: World, input: Input, c: RuntimeConfig)
    requires c.gate.IsValid()
  {
    match input
    case Arrives(s, weight, now, draw, planner, _) =>
      && !IsLive(w.seen, s.id, now) && s.delivery.RequiresReceipt() && s.ttl > 0
      && (HasVisited(s, c.rules.local)
          || (s.weight >= c.rules.minPropagationWeight && planner(s) == []
              && var out := Admit(c.gate, w.gate, QueuedOf(s, now), weight, now, draw).1;
                 FiredHere(out.fired, s.id) && !(out.dropped.Some? && out.dropped.value.id == s.id)))
    case _ => false
  }

  ghost function RouteRefusals(inputs: seq<Input>, c: RuntimeConfig): seq<Receipt>
    requires c.gate.IsValid()
  {
    if inputs == [] then []
    else
      var front, last := inputs[..|inputs| - 1], inputs[|inputs| - 1];
      RouteRefusals(front, c)
      + if last.Arrives? && FindsNoRoute(After(front, c), last, c) then [Rejection(last.signal, NoRoute)] else []
  }

  lemma {:induction false} NoRoutesAppend(receipts: seq<Receipt>, r: Option<Receipt>)
    ensures NoRoutes(Append(receipts, r)) == NoRoutes(receipts) + if r.Some? && IsNoRoute(r.value) then [r.value] else []
  {
    if r.Some? { assert (receipts + [r.value])[..|receipts|] == receipts; }
  }

  lemma {:induction false} ReleaseRefusesNothing(l: Ledger, q: QueuedSignal, body: Option<Signal>,
          plan: Option<seq<Forward>>,
          cause: Cause, planner: Planner, link: Link, c: RuntimeConfig)
    ensures NoRoutes(Release(l, q, body, plan, cause, planner, link, c).receipts) == NoRoutes(l.receipts)
  {
    if body.Some? {
      var receipt := ReleaseReceipt(q, body.value, if plan.Some? then plan.value else planner(body.value), link);
      NoRoutesAppend(l.receipts, receipt);
      assert receipt.Some? ==> !IsNoRoute(receipt.value);
      hide NoRoutes, ReleaseReceipt;
    }
  }

  lemma {:induction false} BatchRefusesNothing(w: World, batch: seq<QueuedSignal>, a: Arrival, cause: Cause,
          planner: Planner,
          link: Link, c: RuntimeConfig)
    ensures NoRoutes(ReleaseBatch(w, batch, a, cause, planner, link, c).ledger.receipts) == NoRoutes(w.ledger.receipts)
  {
    if batch != [] {
      var front, q := batch[..|batch| - 1], batch[|batch| - 1];
      BatchRefusesNothing(w, front, a, cause, planner, link, c);
      var w1 := ReleaseBatch(w, front, a, cause, planner, link, c);
      hide NoRoutes, Release;
      if a.Arrival? && q.id == a.signal.id {
        ReleaseRefusesNothing(w1.ledger, q, Some(a.signal), Some(a.plan), cause, planner, link, c);
      } else {
        ReleaseRefusesNothing(w1.ledger, q, BodyOf(w1.pending, q.id), None, cause, planner, link, c);
      }
    }
  }

  lemma {:induction false} VerdictRefusals(w: World, s: Signal, now: u64, d: Disposition)
    requires d.evicted.Some? ==> d.evicted.value.reason == QueueFull
    ensures NoRoutes(AfterVerdict(w, s, now, d).ledger.receipts) ==
              NoRoutes(w.ledger.receipts)
              + if d.rejected.Some? && d.receipt.Some? && IsNoRoute(d.receipt.value) then [d.receipt.value] else []
  {
    var w1 := if d.evicted.Some? then Evict(w, d.evicted.value) else w;
    if d.evicted.Some? {
      var ev := d.evicted.value;
      NoRoutesAppend(w.ledger.receipts, if ev.signal.delivery.RequiresReceipt()
                                        then Some(Receipt(ev.signal.id, ReceiptRejected(ev.reason), ev.signal.origin)) else None);
    }
    NoRoutesAppend(w1.ledger.receipts, d.receipt);
    hide NoRoutes;
  }

  lemma {:induction false} ActRefusals(w: World, s: Signal, now: u64, d: Disposition, planner: Planner, link: Link,
          c: RuntimeConfig)
    requires d.evicted.Some? ==> d.evicted.value.reason == QueueFull
    ensures NoRoutes(Act(w, s, now, d, planner, link, c).ledger.receipts) ==
              NoRoutes(w.ledger.receipts)
              + if d.rejected.Some? && d.receipt.Some? && IsNoRoute(d.receipt.value) then [d.receipt.value] else []
  {
    VerdictRefusals(w, s, now, d);
    BatchRefusesNothing(AfterVerdict(w, s, now, d), d.handleLocally, Arrival(s, d.forwardTo), Threshold, planner, link, c);
    hide NoRoutes, AfterVerdict, ReleaseBatch;
  }

  lemma {:induction false} ReceiveRefusals(w: World, input: Input, c: RuntimeConfig)
    requires c.gate.IsValid() && input.Arrives?
    ensures var (w1, d) := Receive(w, input.signal, input.synapseWeight, input.at, input.draw, input.planner, c);
            && w1.ledger.receipts == w.ledger.receipts
            && (d.evicted.Some? ==> d.evicted.value.reason == QueueFull)
            && (d.rejected.Some? && d.receipt.Some? && IsNoRoute(d.receipt.value) <==> FindsNoRoute(w, input, c))
            && (FindsNoRoute(w, input, c) ==> d.receipt == Some(Rejection(input.signal, NoRoute)))
  {
    hide Admit, Without, FiredHere;
  }

  lemma {:induction false} NextRefusals(w: World, input: Input, c: RuntimeConfig)
    requires c.gate.IsValid()
    ensures NoRoutes(Next(w, input, c).ledger.receipts) ==
              NoRoutes(w.ledger.receipts)
              + if input.Arrives? && FindsNoRoute(w, input, c) then [Rejection(input.signal, NoRoute)] else []
  {
    match input
    case Arrives(s, weight, now, draw, planner, link) =>
      var (w1, d) := Receive(w, s, weight, now, draw, planner, c);
      hide NoRoutes, Act, Admit, Without, FiredHere;
      ReceiveRefusals(w, input, c);
      hide Receive, FindsNoRoute;
      ActRefusals(w1, s, now, d, planner, link, c);
    case Polls(now, planner, link) =>
      var (gate, batch) := DrainIfStarving(c.gate, w.gate, now);
      BatchRefusesNothing(w.(gate := gate), batch, NoArrival, Guard, planner, link, c);
    case Checkpoints(now) =>
  }

  /** In every run the refusals for want of a route are, in order, one for each acknowledged
      arrival that had been here before or fired at once with nowhere to go: no signal that
      waited is ever refused so. */
  lemma {:induction false} NoRouteIsExact(inputs: seq<Input>, c: RuntimeConfig)
    requires c.gate.IsValid()
    ensures NoRoutes(After(inputs, c).ledger.receipts) == RouteRefusals(inputs, c)
  {
    if inputs != [] {
      NoRouteIsExact(inputs[..|inputs| - 1], c);
      NextRefusals(After(inputs[..|inputs| - 1], c), inputs[|inputs| - 1], c);
      hide NoRoutes, Next, FindsNoRoute;
    }
  }
}
