/** What the runtime puts on the wire, and over which links: every copy sent is one hop's worth
    of a signal that came in, over a planned link that was live. */
module RuntimeWire {
  import opened Base
  import opened Activation
  import opened Signals
  import opened Store
  import opened Nodes
  import opened Reception
  import opened Runtime
  import opened RuntimeLedger
  import opened Provenance
  import Network

  // ---- one copy ------------------------------------------------------------------------------------

  /** The weight after one hop: attenuated; for an acknowledged signal that can travel on, no
      lower than the node's floor; and between 0 and 1. */
  function HopWeight(body: Signal, floor: real, attenuation: real): real {
    var attenuated := body.weight * attenuation;
    var floored := if body.delivery == Acknowledged && body.ttl > 1 && attenuated < floor then floor else attenuated;
    RMax(0.0, RMin(floored, 1.0))
  }

  /** The copy is the body after one hop over the node: its ttl one lower, the node added to its
      trace while there is room, its weight that of the hop, and the rest as it was. */
  predicate IsHopOf(copy: Signal, body: Signal, local: NodeId, floor: real, attenuation: real) {
    && copy.id == body.id && copy.origin == body.origin && copy.scope == body.scope && copy.delivery == body.delivery
    && (body.ttl > 0 ==> copy.ttl == body.ttl - 1) && (body.ttl == 0 ==> copy.ttl == 0)
    && (|body.trace| < 64 ==> copy.trace == body.trace + [local]) && (|body.trace| >= 64 ==> copy.trace == body.trace)
    && copy.weight == HopWeight(body, floor, attenuation)
  }

  lemma {:induction false} OutboundIsHop(body: Signal, local: NodeId, floor: real, attenuation: real)
    ensures IsHopOf(Outbound(body, local, attenuation, floor), body, local, floor, attenuation)
  {
  }

  /** The copy a node of the network model puts on a link is the same. */
  lemma {:induction false} NetworkSendsTheSame(copy: Signal, body: Signal, emitted: Signal, links: nat, target: NodeId,
          rules: Network.Rules, c: RuntimeConfig)
    requires rules.floor(c.rules.local) == c.rules.minPropagationWeight && rules.factor(c.rules.local) == c.attenuation
    requires IsHopOf(copy, body, c.rules.local, c.rules.minPropagationWeight, c.attenuation)
    ensures Network.Onward(Network.Packet(c.rules.local, Network.Copy(body, emitted, links)), target, rules) ==
              Network.Packet(target, Network.Copy(copy, emitted, links + 1))
  {
    OutboundIsHop(body, c.rules.local, c.rules.minPropagationWeight, c.attenuation);
  }

  // ---- which copy is whose -------------------------------------------------------------------------

  /** The body, once for each forward sent. */
  function BodiesOf(x: Exit): seq<Signal> {
    match x
    case Let(_, Some(body), _, _, _, sent) => seq(|sent|, _ => body)
    case _ => []
  }

  /** The bodies of what the exits sent, in order. */
  function Bodies(exits: seq<Exit>): seq<Signal> {
    if exits == [] then [] else Bodies(exits[..|exits| - 1]) + BodiesOf(exits[|exits| - 1])
  }

  /** What was sent is, in order, a copy of each exit's body over each of its sent forwards. */
  ghost predicate CopiesSent(l: Ledger, c: RuntimeConfig) {
    && Forwards(l.sent) == Sents(l.exits) && |Bodies(l.exits)| == |l.sent|
    && forall k :: 0 <= k < |l.sent| ==>
         IsHopOf(l.sent[k].signal, Bodies(l.exits)[k], c.rules.local, c.rules.minPropagationWeight, c.attenuation)
  }

  lemma {:induction false} ExitSends(l: Ledger, l': Ledger, x: Exit, more: seq<Transmission>, c: RuntimeConfig)
    requires CopiesSent(l, c) && l'.exits == l.exits + [x] && l'.sent == l.sent + more
    requires Forwards(more) == SentOf(x) && |BodiesOf(x)| == |more|
    requires forall k :: 0 <= k < |more| ==>
               IsHopOf(more[k].signal, BodiesOf(x)[k], c.rules.local, c.rules.minPropagationWeight, c.attenuation)
    ensures CopiesSent(l', c)
  {
    assert l'.exits[..|l'.exits| - 1] == l.exits;
    assert Bodies(l'.exits) == Bodies(l.exits) + BodiesOf(x) && Sents(l'.exits) == Sents(l.exits) + SentOf(x);
    assert Forwards(l'.sent) == Forwards(l.sent) + Forwards(more);
    hide IsHopOf, BodiesOf, Bodies, Sents, SentOf;
  }

  lemma {:induction false} ReleaseSends(l: Ledger, q: QueuedSignal, body: Option<Signal>, plan: Option<seq<Forward>>,
          cause: Cause, planner: Planner, link: Link, c: RuntimeConfig)
    requires CopiesSent(l, c)
    ensures CopiesSent(Release(l, q, body, plan, cause, planner, link, c), c)
  {
    var l' := Release(l, q, body, plan, cause, planner, link, c);
    var x := l'.exits[|l.exits|];
    var more := if body.Some? then Transmit(SentOf(x), OutboundOf(body.value, c)) else [];
    assert l'.exits == l.exits + [x] && l'.sent == l.sent + more;
    assert Forwards(more) == SentOf(x) && |BodiesOf(x)| == |more|;
    if body.Some? { OutboundIsHop(body.value, c.rules.local, c.rules.minPropagationWeight, c.attenuation); }
    assert forall k :: 0 <= k < |more| ==> BodiesOf(x)[k] == body.value && more[k].signal == OutboundOf(body.value, c);
    hide CopiesSent, Release, IsHopOf, Outbound, BodiesOf;
    ExitSends(l, l', x, more, c);
  }

  lemma {:induction false} TurnedSends(l: Ledger, x: Exit, e: Event, receipt: Option<Receipt>, c: RuntimeConfig)
    requires CopiesSent(l, c) && x.Turned?
    ensures CopiesSent(Leave(l, x, e, receipt), c)
  {
    assert (l.exits + [x])[..|l.exits|] == l.exits;
    hide IsHopOf;
  }

  lemma {:induction false} BatchSends(w: World, batch: seq<QueuedSignal>, a: Arrival, cause: Cause, planner: Planner,
          link: Link,
          c: RuntimeConfig)
    requires CopiesSent(w.ledger, c)
    ensures CopiesSent(ReleaseBatch(w, batch, a, cause, planner, link, c).ledger, c)
  {
    if batch != [] {
      var front, q := batch[..|batch| - 1], batch[|batch| - 1];
      BatchSends(w, front, a, cause, planner, link, c);
      var w1 := ReleaseBatch(w, front, a, cause, planner, link, c);
      hide CopiesSent, Release;
      if a.Arrival? && q.id == a.signal.id {
        ReleaseSends(w1.ledger, q, Some(a.signal), Some(a.plan), cause, planner, link, c);
      } else {
        ReleaseSends(w1.ledger, q, BodyOf(w1.pending, q.id), None, cause, planner, link, c);
      }
    }
  }

  lemma {:induction false} VerdictSends(w: World, s: Signal, now: u64, d: Disposition, c: RuntimeConfig)
    requires CopiesSent(w.ledger, c)
    ensures CopiesSent(AfterVerdict(w, s, now, d).ledger, c)
  {
    hide CopiesSent;
    var w1 := if d.evicted.Some? then Evict(w, d.evicted.value) else w;
    if d.evicted.Some? {
      var ev := d.evicted.value;
      TurnedSends(w.ledger, Turned(ev.signal, ev.reason), Refused(ev.signal.id, ev.reason),
                  if ev.signal.delivery.RequiresReceipt()
                  then Some(Receipt(ev.signal.id, ReceiptRejected(ev.reason), ev.signal.origin)) else None, c);
    }
    if d.rejected.Some? {
      TurnedSends(w1.ledger, Turned(QueuedOf(s, now), d.rejected.value), Refused(s.id, d.rejected.value), d.receipt, c);
    }
  }

  lemma {:induction false} NextSends(w: World, input: Input, c: RuntimeConfig)
    requires c.gate.IsValid() && CopiesSent(w.ledger, c)
    ensures CopiesSent(Next(w, input, c).ledger, c)
  {
    match input
    case Arrives(s, weight, now, draw, planner, link) =>
      var (w1, d) := Receive(w, s, weight, now, draw, planner, c);
      assert CopiesSent(w1.ledger, c);
      hide CopiesSent, Receive, AfterVerdict, ReleaseBatch;
      VerdictSends(w1, s, now, d, c);
      BatchSends(AfterVerdict(w1, s, now, d), d.handleLocally, Arrival(s, d.forwardTo), Threshold, planner, link, c);
    case Polls(now, planner, link) =>
      var (gate, batch) := DrainIfStarving(c.gate, w.gate, now);
      BatchSends(w.(gate := gate), batch, NoArrival, Guard, planner, link, c);
    case Checkpoints(now) =>
  }

  lemma {:induction false} EveryCopySent(inputs: seq<Input>, c: RuntimeConfig)
    requires c.gate.IsValid()
    ensures CopiesSent(After(inputs, c).ledger, c)
  {
    if inputs != [] {
      EveryCopySent(inputs[..|inputs| - 1], c);
      hide CopiesSent, Next;
      NextSends(After(inputs[..|inputs| - 1], c), inputs[|inputs| - 1], c);
    }
  }

  lemma {:induction false} BodyIsAnExits(exits: seq<Exit>, k: nat) returns (i: nat)
    requires k < |Bodies(exits)|
    ensures i < |exits| && exits[i].Let? && exits[i].body == Some(Bodies(exits)[k])
  {
    var front := exits[..|exits| - 1];
    if k < |Bodies(front)| { i := BodyIsAnExits(front, k); } else { i := |exits| - 1; }
  }

  /** In every run what was sent is, in order, one copy for each forward each exit sent, one
      hop on from that exit's body; and that body is a signal that came in, as it stands, and
      met the propagation rules. */
  lemma {:induction false} EverySentCopyIsOneHopOn(inputs: seq<Input>, c: RuntimeConfig)
    requires c.gate.IsValid()
    ensures var l := After(inputs, c).ledger;
            && Forwards(l.sent) == Sents(l.exits) && |Bodies(l.exits)| == |l.sent|
            && forall k :: 0 <= k < |l.sent| ==>
                 && IsHopOf(l.sent[k].signal, Bodies(l.exits)[k], c.rules.local, c.rules.minPropagationWeight, c.attenuation)
                 && CameIn(inputs, Bodies(l.exits)[k], c)
  {
    EveryCopySent(inputs, c);
    EverythingArrived(inputs, c);
    var l := After(inputs, c).ledger;
    hide After, IsHopOf, CameIn;
    forall k | 0 <= k < |l.sent| ensures CameIn(inputs, Bodies(l.exits)[k], c) {
      var i := BodyIsAnExits(l.exits, k);
      assert ExitKnown(inputs, l.exits[i], c);
    }
  }

  /** So a copy sent can go over one link fewer than what came in, and it has been here. */
  lemma {:induction false} SentCopiesRunDown(inputs: seq<Input>, c: RuntimeConfig, k: nat) returns (n: nat)
    requires c.gate.IsValid() && k < |After(inputs, c).ledger.sent|
    ensures n < |inputs| && inputs[n].Arrives?
    ensures var s, sent := inputs[n].signal, After(inputs, c).ledger.sent[k].signal;
            && sent.id == s.id && sent.ttl == s.ttl - 1 && c.rules.local !in s.trace && 0.0 <= sent.weight <= 1.0
            && (|s.trace| < 64 ==> sent.trace == s.trace + [c.rules.local])
  {
    EverySentCopyIsOneHopOn(inputs, c);
    var body := Bodies(After(inputs, c).ledger.exits)[k];
    hide After;
    n :| 0 <= n < |inputs| && Brings(inputs[n], body);
  }

  // ---- which forwards -------------------------------------------------------------------------------

  /** The forwards whose peers are live, in order. */
  function LiveOf(plan: seq<Forward>, link: Link): seq<Forward> {
    if plan == [] then [] else (if link(plan[0]) then [plan[0]] else []) + LiveOf(plan[1..], link)
  }

  lemma {:induction false} LiveSnoc(plan: seq<Forward>, f: Forward, link: Link)
    ensures LiveOf(plan + [f], link) == LiveOf(plan, link) + if link(f) then [f] else []
  {
    if plan != [] {
      assert (plan + [f])[1..] == plan[1..] + [f];
      LiveSnoc(plan[1..], f, link);
    }
  }

  lemma {:induction false} SentIsLive(plan: seq<Forward>, link: Link)
    ensures SentOver(plan, link) == LiveOf(plan, link)
  {
    if plan != [] {
      var front, last := plan[..|plan| - 1], plan[|plan| - 1];
      assert plan == front + [last];
      SentIsLive(front, link);
      LiveSnoc(front, last, link);
    }
  }

  /** How an input lets a signal through: on an arrival by the threshold, on a poll by the
      guard; it waited unless it is the arrival itself, whose body is then the arrival; what
      is at hand is planned for by the planner as it then is, and sent over the planned links
      that are live. */
  ghost predicate LetBy(x: Exit, input: Input) {
    x.Let? ==>
      && !input.Checkpoints? && (x.cause == Threshold <==> input.Arrives?)
      && (x.waited <==> !(input.Arrives? && x.signal.id == input.signal.id))
      && (!x.waited ==> x.body == Some(input.signal))
      && (x.body.Some? ==> x.plan == input.planner(x.body.value) && x.sent == LiveOf(x.plan, input.link))
      && (x.body.None? ==> x.plan == [] && x.sent == [])
  }

  /** What an arrival may be turned away for, and what anything else: the first of the rules it
      fails, if any; else for want of room, or for want of a route if it calls for a receipt
      and has none. */
  predicate TurnedFor(q: QueuedSignal, reason: RejectReason, s: Signal, planner: Planner, c: RuntimeConfig) {
    if q.id != s.id then reason == QueueFull
    else if s.ttl == 0 then reason == TtlExhausted
    else if c.rules.local in s.trace then reason == NoRoute
    else if s.weight < c.rules.minPropagationWeight then reason == BelowThreshold
    else reason == QueueFull || (reason == NoRoute && s.delivery == Acknowledged && planner(s) == [])
  }

  /** How a signal left at an input. */
  ghost predicate LeftBy(x: Exit, input: Input, c: RuntimeConfig) {
    if x.Let? then LetBy(x, input)
    else input.Arrives? && TurnedFor(x.signal, x.reason, input.signal, input.planner, c)
  }

  ghost predicate AllLeftBy(more: seq<Exit>, input: Input, c: RuntimeConfig) {
    forall i :: 0 <= i < |more| ==> LeftBy(more[i], input, c)
  }

  /** The exits grew by some that left so. */
  ghost predicate Grew(l: Ledger, l': Ledger, input: Input, c: RuntimeConfig) {
    l.exits <= l'.exits && AllLeftBy(l'.exits[|l.exits|..], input, c)
  }

  lemma {:induction false} GrewTwice(a: Ledger, b: Ledger, d: Ledger, input: Input, c: RuntimeConfig)
    requires Grew(a, b, input, c) && Grew(b, d, input, c)
    ensures Grew(a, d, input, c)
  {
    hide LeftBy;
    forall i | 0 <= i < |d.exits| - |a.exits| ensures LeftBy(d.exits[|a.exits|..][i], input, c) {
      if |a.exits| + i < |b.exits| {
        assert d.exits[|a.exits| + i] == b.exits[|a.exits|..][i];
      } else {
        assert d.exits[|a.exits| + i] == d.exits[|b.exits|..][|a.exits| + i - |b.exits|];
      }
    }
  }

  lemma {:induction false} GrewByOne(l: Ledger, l': Ledger, x: Exit, input: Input, c: RuntimeConfig)
    requires l'.exits == l.exits + [x] && LeftBy(x, input, c)
    ensures Grew(l, l', input, c)
  {
    assert l'.exits[|l.exits|..] == [x];
    hide LeftBy;
  }

  lemma {:induction false} ReleaseLets(l: Ledger, q: QueuedSignal, body: Option<Signal>, plan: Option<seq<Forward>>,
          cause: Cause, input: Input, c: RuntimeConfig)
    requires !input.Checkpoints? && (cause == Threshold <==> input.Arrives?)
    requires plan.None? <==> !(input.Arrives? && q.id == input.signal.id)
    requires plan.Some? ==> body == Some(input.signal) && plan.value == input.planner(input.signal)
    ensures Grew(l, Release(l, q, body, plan, cause, input.planner, input.link, c), input, c)
  {
    var l' := Release(l, q, body, plan, cause, input.planner, input.link, c);
    var x := l'.exits[|l.exits|];
    assert l'.exits == l.exits + [x];
    if body.Some? { SentIsLive(x.plan, input.link); }
    GrewByOne(l, l', x, input, c);
  }

  /** The arrival and the plan made for it, if it is in the batch. */
  ghost predicate ComesWith(a: Arrival, batch: seq<QueuedSignal>, input: Input) {
    match input
    case Arrives(s, _, _, _, planner, _) =>
      && a.Arrival? && a.signal == s
      && forall i :: 0 <= i < |batch| && batch[i].id == s.id ==> a.plan == planner(s)
    case _ => a.NoArrival?
  }

  lemma {:induction false} BatchLets(w: World, batch: seq<QueuedSignal>, a: Arrival, cause: Cause, input: Input,
          c: RuntimeConfig)
    requires !input.Checkpoints? && (cause == Threshold <==> input.Arrives?) && ComesWith(a, batch, input)
    ensures Grew(w.ledger, ReleaseBatch(w, batch, a, cause, input.planner, input.link, c).ledger, input, c)
  {
    if batch != [] {
      var front, q := batch[..|batch| - 1], batch[|batch| - 1];
      assert ComesWith(a, front, input);
      assert input.Arrives? && q.id == input.signal.id ==> a.plan == input.planner(input.signal);
      BatchLets(w, front, a, cause, input, c);
      var w1 := ReleaseBatch(w, front, a, cause, input.planner, input.link, c);
      var w2 := ReleaseBatch(w, batch, a, cause, input.planner, input.link, c);
      hide Grew, Release;
      if a.Arrival? && q.id == a.signal.id {
        ReleaseLets(w1.ledger, q, Some(a.signal), Some(a.plan), cause, input, c);
      } else {
        ReleaseLets(w1.ledger, q, BodyOf(w1.pending, q.id), None, cause, input, c);
      }
      GrewTwice(w.ledger, w1.ledger, w2.ledger, input, c);
    }
  }

  /** What a disposition turns away, and why. */
  ghost predicate TurnsAsItShould(d: Disposition, s: Signal, now: u64, planner: Planner, c: RuntimeConfig) {
    && (d.evicted.Some? ==> TurnedFor(d.evicted.value.signal, d.evicted.value.reason, s, planner, c))
    && (d.rejected.Some? ==> TurnedFor(QueuedOf(s, now), d.rejected.value, s, planner, c))
  }

  lemma {:induction false} ReceivedTurns(w: World, s: Signal, weight: real, now: u64, draw: real, planner: Planner,
          c: RuntimeConfig)
    requires c.gate.IsValid()
    ensures TurnsAsItShould(Receive(w, s, weight, now, draw, planner, c).1, s, now, planner, c)
  {
    hide Admit, Without, FiredHere;
  }

  lemma {:induction false} VerdictLets(w: World, s: Signal, now: u64, d: Disposition, input: Input, c: RuntimeConfig)
    requires input.Arrives? && input.signal == s && TurnsAsItShould(d, s, now, input.planner, c)
    ensures Grew(w.ledger, AfterVerdict(w, s, now, d).ledger, input, c)
  {
    var w2 := AfterVerdict(w, s, now, d);
    assert w2.ledger.exits == w.ledger.exits
                              + (if d.evicted.Some? then [Turned(d.evicted.value.signal, d.evicted.value.reason)] else [])
                              + (if d.rejected.Some? then [Turned(QueuedOf(s, now), d.rejected.value)] else []);
    hide TurnedFor, AfterVerdict;
  }

  lemma {:induction false} DisposedWithPlan(s: Signal, out: AdmitOutcome, input: Input)
    requires input.Arrives? && input.signal == s
    ensures var d := Dispose(s, out, input.planner);
            ComesWith(Arrival(s, d.forwardTo), d.handleLocally, input)
  {
    var rest := Without(out.fired, s.id);
    forall i | 0 <= i < |rest| ensures rest[i].id != s.id { assert rest[i] in rest; }
  }

  lemma {:induction false} NextLets(w: World, input: Input, c: RuntimeConfig)
    requires c.gate.IsValid()
    ensures Grew(w.ledger, Next(w, input, c).ledger, input, c)
  {
    match input
    case Arrives(s, weight, now, draw, planner, link) =>
      var (w1, d) := Receive(w, s, weight, now, draw, planner, c);
      DisposedWithPlan(s, Admit(c.gate, w.gate, QueuedOf(s, now), weight, now, draw).1, input);
      assert ComesWith(Arrival(s, d.forwardTo), d.handleLocally, input);
      assert w1.ledger.exits == w.ledger.exits && Grew(w.ledger, w1.ledger, input, c);
      var w2 := AfterVerdict(w1, s, now, d);
      var w3 := ReleaseBatch(w2, d.handleLocally, Arrival(s, d.forwardTo), Threshold, planner, link, c);
      assert Next(w, input, c).ledger == w3.ledger;
      hide *;
      ReceivedTurns(w, s, weight, now, draw, planner, c);
      VerdictLets(w1, s, now, d, input, c);
      BatchLets(w2, d.handleLocally, Arrival(s, d.forwardTo), Threshold, input, c);
      GrewTwice(w.ledger, w1.ledger, w2.ledger, input, c);
      GrewTwice(w.ledger, w2.ledger, w3.ledger, input, c);
    case Polls(now, planner, link) =>
      var (gate, batch) := DrainIfStarving(c.gate, w.gate, now);
      BatchLets(w.(gate := gate), batch, NoArrival, Guard, input, c);
    case Checkpoints(now) =>
  }

  lemma {:induction false} ExitsStay(inputs: seq<Input>, n: nat, c: RuntimeConfig)
    requires c.gate.IsValid() && n <= |inputs|
    ensures After(inputs[..n], c).ledger.exits <= After(inputs, c).ledger.exits
    decreases |inputs|
  {
    if n == |inputs| {
      assert inputs[..n] == inputs;
    } else {
      var front := inputs[..|inputs| - 1];
      assert front[..n] == inputs[..n];
      hide Next;
      ExitsStay(front, n, c);
      NextLets(After(front, c), inputs[|inputs| - 1], c);
    }
  }

  /** In every run each signal that left at the n-th input left as that input lets it: let
      through, planned for by its planner and sent over its live links, or turned away for what
      it is turned away for. */
  lemma {:induction false} EveryExitIsLet(inputs: seq<Input>, n: nat, k: nat, c: RuntimeConfig)
    requires c.gate.IsValid() && n < |inputs|
    requires |After(inputs[..n], c).ledger.exits| <= k < |After(inputs[..n + 1], c).ledger.exits|
    ensures k < |After(inputs, c).ledger.exits| && LeftBy(After(inputs, c).ledger.exits[k], inputs[n], c)
  {
    var before, after := After(inputs[..n], c).ledger, After(inputs[..n + 1], c).ledger;
    assert inputs[..n + 1][..n] == inputs[..n];
    assert After(inputs[..n + 1], c) == Next(After(inputs[..n], c), inputs[n], c);
    hide *;
    ExitsStay(inputs, n + 1, c);
    NextLets(After(inputs[..n], c), inputs[n], c);
    GrewLets(before, after, inputs[n], k, c);
  }

  lemma {:induction false} GrewLets(l: Ledger, l': Ledger, input: Input, k: nat, c: RuntimeConfig)
    requires Grew(l, l', input, c) && |l.exits| <= k < |l'.exits|
    ensures LeftBy(l'.exits[k], input, c)
  {
    assert l'.exits[|l.exits|..][k - |l.exits|] == l'.exits[k];
    hide LeftBy;
  }

  // ---- the cache ------------------------------------------------------------------------------------

  lemma {:induction false} BatchShrinksCache(w: World, batch: seq<QueuedSignal>, a: Arrival, cause: Cause,
          planner: Planner,
          link: Link, c: RuntimeConfig)
    ensures ReleaseBatch(w, batch, a, cause, planner, link, c).pending.Keys <= w.pending.Keys
  {
    if batch != [] { BatchShrinksCache(w, batch[..|batch| - 1], a, cause, planner, link, c); }
  }

  lemma {:induction false} FewerCached(a: map<SignalId, Signal>, b: map<SignalId, Signal>)
    requires a.Keys <= b.Keys
    ensures |a| <= |b|
  {
    SubsetSize(a.Keys, b.Keys);
    assert |a| == |a.Keys| && |b| == |b.Keys|;
  }

  lemma {:induction false} CachedOneMore(pending: map<SignalId, Signal>, s: Signal)
    ensures |pending[s.id := s]| <= |pending| + 1
  {
    var p' := pending[s.id := s];
    assert p'.Keys == pending.Keys + {s.id};
    assert |p'| == |p'.Keys| && |pending| == |pending.Keys|;
  }

  /** A body is cached as it stands; the others stay, but for the least id of a cache that is
      full, at twice the queue's bound. */
  lemma {:induction false} RememberedIsBounded(w: World, s: Signal, c: RuntimeConfig)
    requires c.gate.IsValid() && |w.pending| <= 2 * c.gate.maxQueueDepth
    ensures var w' := Remembered(w, s, c);
            var full := |w.pending| == 2 * c.gate.maxQueueDepth;
            && |w'.pending| <= 2 * c.gate.maxQueueDepth && w'.backstops == w.backstops + (if full then 1 else 0)
            && s.id in w'.pending && w'.pending[s.id] == s
            && forall id :: id != s.id ==>
                 && (id in w'.pending <==> id in w.pending && !(full && forall other :: other in w.pending ==> id <= other))
                 && (id in w'.pending ==> w'.pending[id] == w.pending[id])
  {
    if |w.pending| == 2 * c.gate.maxQueueDepth {
      assert w.pending.Keys != {} by { assert |w.pending| == |w.pending.Keys|; }
      var rest := w.pending - {LeastKey(w.pending)};
      assert rest.Keys == w.pending.Keys - {LeastKey(w.pending)};
      assert |rest| == |rest.Keys| && |w.pending| == |w.pending.Keys|;
      CachedOneMore(rest, s);
    } else {
      CachedOneMore(w.pending, s);
    }
  }

  lemma {:induction false} VerdictShrinksCache(w: World, s: Signal, now: u64, d: Disposition)
    ensures AfterVerdict(w, s, now, d).pending.Keys <= w.pending.Keys
  {
  }

  lemma {:induction false} NextBoundsCache(w: World, input: Input, c: RuntimeConfig)
    requires c.gate.IsValid() && |w.pending| <= 2 * c.gate.maxQueueDepth
    ensures |Next(w, input, c).pending| <= 2 * c.gate.maxQueueDepth
  {
    match input
    case Arrives(s, weight, now, draw, planner, link) =>
      var (w1, d) := Receive(w, s, weight, now, draw, planner, c);
      assert w1.pending == w.pending;
      var w2 := AfterVerdict(w1, s, now, d);
      var w3 := ReleaseBatch(w2, d.handleLocally, Arrival(s, d.forwardTo), Threshold, planner, link, c);
      hide Receive, AfterVerdict, ReleaseBatch, Remembered;
      VerdictShrinksCache(w1, s, now, d);
      BatchShrinksCache(w2, d.handleLocally, Arrival(s, d.forwardTo), Threshold, planner, link, c);
      FewerCached(w2.pending, w.pending);
      FewerCached(w3.pending, w2.pending);
      RememberedIsBounded(w3, s, c);
    case Polls(now, planner, link) =>
      var (gate, batch) := DrainIfStarving(c.gate, w.gate, now);
      BatchShrinksCache(w.(gate := gate), batch, NoArrival, Guard, planner, link, c);
      FewerCached(Next(w, input, c).pending, w.pending);
    case Checkpoints(now) =>
  }

  /** In every run, whatever returns while queued, the cache holds at most twice as many bodies
      as the queue may hold signals. */
  lemma {:induction false} CacheIsBounded(inputs: seq<Input>, c: RuntimeConfig)
    requires c.gate.IsValid()
    ensures |After(inputs, c).pending| <= 2 * c.gate.maxQueueDepth
  {
    if inputs != [] {
      CacheIsBounded(inputs[..|inputs| - 1], c);
      hide Next;
      NextBoundsCache(After(inputs[..|inputs| - 1], c), inputs[|inputs| - 1], c);
    }
  }
}
