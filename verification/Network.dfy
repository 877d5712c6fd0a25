/** Propagation across a network: steps over the copies in flight, under any scheduler,
    any loss and any choice of next hops up to the fan-out. */
module Network {
  import opened Base
  import opened Signals

  /** One copy of a signal, with the emission it descends from and the links it crossed. */
  datatype Copy = Copy(signal: Signal, emitted: Signal, links: nat)

  datatype Packet = Packet(node: NodeId, copy: Copy)

  datatype Rules = Rules(
    maxTtl: NodeId -> nat,
    floor: NodeId -> real,
    factor: NodeId -> real,
    fanout: nat)

  /** A node has acted on a signal. */
  datatype Act = Act(node: NodeId, id: SignalId)

  datatype Refusal = Refusal(packet: Packet, reason: RejectReason)

  /** Copies on links, copies in gates, what each node remembers, what it has released and
      what it has refused. */
  datatype Net = Net(
    wire: seq<Packet>,
    queued: seq<Packet>,
    seen: set<Act>,
    released: seq<Act>,
    refused: seq<Refusal>)

  datatype NetStep =
    | Lose(packet: nat)                         // lost, or dropped before any routing work
    | Deliver(packet: nat, remembers: bool)     // `remembers`: the dedup entry has not expired
    | Shed(packet: nat)                         // displaced from a gate
    | Release(packet: nat, targets: seq<NodeId>)

  function ActOf(p: Packet): Act {
    Act(p.node, p.copy.signal.id)
  }

  predicate IsEnabled(n: Net, step: NetStep, rules: Rules) {
    match step
    case Lose(i) => i < |n.wire|
    case Deliver(i, _) => i < |n.wire|
    case Shed(i) => i < |n.queued|
    case Release(i, targets) => i < |n.queued| && |targets| <= rules.fanout
  }

  function Clamped(p: Packet, rules: Rules): Packet {
    p.(copy := p.copy.(signal := ClampInboundHeaders(p.copy.signal, rules.maxTtl(p.node))))
  }

  function Arrive(n: Net, i: nat, remembers: bool, rules: Rules): Net
    requires i < |n.wire|
  {
    var p := Clamped(n.wire[i], rules);
    var wire := RemoveAt(n.wire, i);
    if remembers && ActOf(p) in n.seen then n.(wire := wire)
    else match CheckPropagable(p.copy.signal, p.node, rules.floor(p.node))
      case Some(reason) => n.(wire := wire, seen := n.seen + {ActOf(p)}, refused := n.refused + [Refusal(p, reason)])
      case None => n.(wire := wire, seen := n.seen + {ActOf(p)}, queued := n.queued + [p])
  }

  function Onward(p: Packet, target: NodeId, rules: Rules): Packet {
    Packet(target, Copy(Outbound(p.copy.signal, p.node, rules.factor(p.node), rules.floor(p.node)),
                        p.copy.emitted, p.copy.links + 1))
  }

  /** The copies a released signal sends on; a flood at its depth sends none. */
  function Sent(p: Packet, targets: seq<NodeId>, rules: Rules): (r: seq<Packet>)
    ensures |r| <= |targets|
    ensures forall i :: 0 <= i < |r| ==> !FloodDepthReached(p.copy.signal) && r[i] == Onward(p, targets[i], rules)
  {
    if FloodDepthReached(p.copy.signal) then [] else seq(|targets|, i requires 0 <= i < |targets| => Onward(p, targets[i], rules))
  }

  function Advance(n: Net, step: NetStep, rules: Rules): Net
    requires IsEnabled(n, step, rules)
  {
    match step
    case Lose(i) => n.(wire := RemoveAt(n.wire, i))
    case Deliver(i, remembers) => Arrive(n, i, remembers, rules)
    case Shed(i) => n.(queued := RemoveAt(n.queued, i))
    case Release(i, targets) =>
      n.(queued := RemoveAt(n.queued, i),
         wire := n.wire + Sent(n.queued[i], targets, rules),
         released := n.released + [ActOf(n.queued[i])])
  }

  /** A run: every step is enabled where it is taken. */
  ghost predicate IsNetRun(n: Net, steps: seq<NetStep>, rules: Rules)
    decreases |steps|
  {
    steps == [] || (IsEnabled(n, steps[0], rules) && IsNetRun(Advance(n, steps[0], rules), steps[1..], rules))
  }

  ghost function RunNet(n: Net, steps: seq<NetStep>, rules: Rules): Net
    requires IsNetRun(n, steps, rules)
    decreases |steps|
  {
    if steps == [] then n else RunNet(Advance(n, steps[0], rules), steps[1..], rules)
  }

  // ---- propagation quiesces -------------------------------------------------------------------

  function Mul(a: nat, b: nat): nat {
    a * b
  }

  function Pow(base: nat, exp: nat): nat {
    if exp == 0 then 1 else Mul(base, Pow(base, exp - 1))
  }

  lemma {:induction false} PowGrows(base: nat, a: nat, b: nat)
    requires base >= 1 && a <= b
    ensures 1 <= Pow(base, a) <= Pow(base, b)
    decreases b
  {
    if b == 0 {
    } else {
      PowGrows(base, if a <= b - 1 then a else b - 1, b - 1);
      Grow(base, Pow(base, b - 1));
    }
  }

  lemma {:induction false} Grow(base: nat, p: nat)
    requires base >= 1
    ensures base * p >= p
  {
    assert (base - 1) * p >= 0;
  }

  /** What a copy can still cause: twice (F + 1)^ttl on a link, one less in a gate. */
  function WireCost(p: Packet, fanout: nat): nat {
    2 * Pow(fanout + 1, p.copy.signal.ttl)
  }

  function QueueCost(p: Packet, fanout: nat): int {
    2 * Pow(fanout + 1, p.copy.signal.ttl) - 1
  }

  function WireCosts(ps: seq<Packet>, fanout: nat): nat {
    if ps == [] then 0 else WireCosts(ps[..|ps| - 1], fanout) + WireCost(ps[|ps| - 1], fanout)
  }

  function QueueCosts(ps: seq<Packet>, fanout: nat): int {
    if ps == [] then 0 else QueueCosts(ps[..|ps| - 1], fanout) + QueueCost(ps[|ps| - 1], fanout)
  }

  function Measure(n: Net, fanout: nat): int {
    WireCosts(n.wire, fanout) + QueueCosts(n.queued, fanout)
  }

  lemma {:induction false} WireCostsAppend(a: seq<Packet>, b: seq<Packet>, fanout: nat)
    ensures WireCosts(a + b, fanout) == WireCosts(a, fanout) + WireCosts(b, fanout)
  {
    if b == [] {
      assert a + b == a;
    } else {
      assert (a + b)[..|a + b| - 1] == a + b[..|b| - 1];
      WireCostsAppend(a, b[..|b| - 1], fanout);
    }
  }

  lemma {:induction false} WireCostsRemove(ps: seq<Packet>, i: nat, fanout: nat)
    requires i < |ps|
    ensures WireCosts(ps, fanout) == WireCosts(RemoveAt(ps, i), fanout) + WireCost(ps[i], fanout)
  {
    assert ps == (ps[..i] + [ps[i]]) + ps[i + 1..];
    WireCostsAppend(ps[..i] + [ps[i]], ps[i + 1..], fanout);
    assert (ps[..i] + [ps[i]])[..i] == ps[..i];
    WireCostsAppend(ps[..i], ps[i + 1..], fanout);
  }

  lemma {:induction false} QueueCostsAppend(a: seq<Packet>, b: seq<Packet>, fanout: nat)
    ensures QueueCosts(a + b, fanout) == QueueCosts(a, fanout) + QueueCosts(b, fanout)
  {
    if b == [] {
      assert a + b == a;
    } else {
      assert (a + b)[..|a + b| - 1] == a + b[..|b| - 1];
      QueueCostsAppend(a, b[..|b| - 1], fanout);
    }
  }

  lemma {:induction false} QueueCostsRemove(ps: seq<Packet>, i: nat, fanout: nat)
    requires i < |ps|
    ensures QueueCosts(ps, fanout) == QueueCosts(RemoveAt(ps, i), fanout) + QueueCost(ps[i], fanout)
  {
    assert ps == (ps[..i] + [ps[i]]) + ps[i + 1..];
    QueueCostsAppend(ps[..i] + [ps[i]], ps[i + 1..], fanout);
    assert (ps[..i] + [ps[i]])[..i] == ps[..i];
    QueueCostsAppend(ps[..i], ps[i + 1..], fanout);
  }

  lemma {:induction false} CostsNonNegative(ps: seq<Packet>, fanout: nat)
    ensures QueueCosts(ps, fanout) >= |ps|
  {
    if ps != [] {
      CostsNonNegative(ps[..|ps| - 1], fanout);
      PowGrows(fanout + 1, 0, ps[|ps| - 1].copy.signal.ttl);
    }
  }

  /** Copies in gates can still travel. */
  ghost predicate Live(n: Net) {
    forall i :: 0 <= i < |n.queued| ==> n.queued[i].copy.signal.ttl > 0
  }

  lemma {:induction false} SentCosts(sent: seq<Packet>, ttl: nat, fanout: nat)
    requires forall i :: 0 <= i < |sent| ==> sent[i].copy.signal.ttl == ttl
    ensures WireCosts(sent, fanout) == Mul(|sent|, 2 * Pow(fanout + 1, ttl))
  {
    if sent != [] {
      SentCosts(sent[..|sent| - 1], ttl, fanout);
    }
  }

  lemma {:induction false} FanoutArithmetic(sent: nat, fanout: nat, p: nat)
    requires sent <= fanout && p >= 1
    ensures Mul(sent, 2 * p) < 2 * Mul(fanout + 1, p) - 1
  {
    assert (fanout - sent) * p >= 0;
    assert 2 * ((fanout + 1) * p) == sent * (2 * p) + 2 * ((fanout - sent) * p) + 2 * p;
  }

  lemma {:induction false} DeliverCosts(n: Net, i: nat, remembers: bool, rules: Rules)
    requires i < |n.wire| && Live(n)
    ensures Live(Arrive(n, i, remembers, rules))
    ensures Measure(Arrive(n, i, remembers, rules), rules.fanout) < Measure(n, rules.fanout)
  {
    var p := Clamped(n.wire[i], rules);
    WireCostsRemove(n.wire, i, rules.fanout);
    PowGrows(rules.fanout + 1, p.copy.signal.ttl, n.wire[i].copy.signal.ttl);
    QueueCostsAppend(n.queued, [p], rules.fanout);
    assert [p][..0] == [];
  }

  lemma {:induction false} ReleaseCosts(n: Net, i: nat, targets: seq<NodeId>, rules: Rules)
    requires i < |n.queued| && |targets| <= rules.fanout && n.queued[i].copy.signal.ttl > 0
    ensures Measure(Advance(n, Release(i, targets), rules), rules.fanout) < Measure(n, rules.fanout)
  {
    hide *;
    var p := n.queued[i];
    var sent := Sent(p, targets, rules);
    var ttl := p.copy.signal.ttl - 1;
    var f := rules.fanout;
    ReleaseParts(n, i, targets, rules);
    SentHops(p, targets, rules);
    QueueCostsRemove(n.queued, i, f);
    WireCostsAppend(n.wire, sent, f);
    SentCosts(sent, ttl, f);
    PowGrows(f + 1, 0, ttl);
    FanoutArithmetic(|sent|, f, Pow(f + 1, ttl));
  }

  lemma {:induction false} ReleaseParts(n: Net, i: nat, targets: seq<NodeId>, rules: Rules)
    requires i < |n.queued| && |targets| <= rules.fanout
    ensures Measure(n, rules.fanout) == WireCosts(n.wire, rules.fanout) + QueueCosts(n.queued, rules.fanout)
    ensures Measure(Advance(n, Release(i, targets), rules), rules.fanout) ==
              WireCosts(n.wire + Sent(n.queued[i], targets, rules), rules.fanout) + QueueCosts(RemoveAt(n.queued, i), rules.fanout)
  {
    hide Sent, WireCosts, QueueCosts, RemoveAt;
  }

  lemma {:induction false} SentHops(p: Packet, targets: seq<NodeId>, rules: Rules)
    requires p.copy.signal.ttl > 0
    ensures forall k :: 0 <= k < |Sent(p, targets, rules)| ==>
              Sent(p, targets, rules)[k].copy.signal.ttl == p.copy.signal.ttl - 1
    ensures QueueCost(p, rules.fanout) == 2 * Mul(rules.fanout + 1, Pow(rules.fanout + 1, p.copy.signal.ttl - 1)) - 1
  {
  }

  lemma {:induction false} StepCosts(n: Net, step: NetStep, rules: Rules)
    requires IsEnabled(n, step, rules) && Live(n)
    ensures Live(Advance(n, step, rules)) && Measure(Advance(n, step, rules), rules.fanout) < Measure(n, rules.fanout)
  {
    match step
    case Lose(i) =>
      WireCostsRemove(n.wire, i, rules.fanout);
      PowGrows(rules.fanout + 1, 0, n.wire[i].copy.signal.ttl);
    case Deliver(i, remembers) => DeliverCosts(n, i, remembers, rules);
    case Shed(i) =>
      QueueCostsRemove(n.queued, i, rules.fanout);
      PowGrows(rules.fanout + 1, 0, n.queued[i].copy.signal.ttl);
    case Release(i, targets) => ReleaseCosts(n, i, targets, rules);
  }

  /** Propagation quiesces, for any network, scheduler and losses, even if every dedup
      cache forgets everything: no run is longer than the measure of where it starts. */
  lemma {:induction false} PropagationQuiesces(n: Net, steps: seq<NetStep>, rules: Rules)
    requires IsNetRun(n, steps, rules) && Live(n)
    ensures |steps| <= Measure(n, rules.fanout)
    decreases |steps|
  {
    if steps == [] {
      CostsNonNegative(n.queued, rules.fanout);
    } else {
      StepCosts(n, steps[0], rules);
      PropagationQuiesces(Advance(n, steps[0], rules), steps[1..], rules);
    }
  }

  /** One emission costs at most 2 (F + 1)^ttl - 1 steps. */
  lemma {:induction false} OneEmissionQuiesces(s: Signal, steps: seq<NetStep>, rules: Rules)
    requires s.ttl > 0 && IsNetRun(Emitted(s), steps, rules)
    ensures |steps| <= 2 * Pow(rules.fanout + 1, s.ttl) - 1
  {
    var n := Emitted(s);
    assert n.queued[..0] == [];
    assert QueueCosts(n.queued, rules.fanout) == QueueCosts([], rules.fanout) + QueueCost(n.queued[0], rules.fanout);
    PropagationQuiesces(n, steps, rules);
  }

  /** A signal its origin has just emitted and is about to send. */
  function Emitted(s: Signal): Net {
    Net([], [Packet(s.origin, Copy(s, s, 0))], {Act(s.origin, s.id)}, [], [])
  }

  // ---- live deduplication: each node forwards a signal at most once ------------------------------

  function Acts(ps: seq<Packet>): (r: seq<Act>)
    ensures |r| == |ps| && forall i :: 0 <= i < |r| ==> r[i] == ActOf(ps[i])
  {
    Map(ActOf, ps)
  }

  predicate DedupIsLive(steps: seq<NetStep>) {
    forall k :: 0 <= k < |steps| && steps[k].Deliver? ==> steps[k].remembers
  }

  function RefusedActs(refused: seq<Refusal>): (r: seq<Act>)
    ensures |r| == |refused| && forall i :: 0 <= i < |r| ==> r[i] == ActOf(refused[i].packet)
  {
    Map((r: Refusal) => ActOf(r.packet), refused)
  }

  /** Everything a node holds, has released or has refused. */
  function Handled(n: Net): seq<Act> {
    Acts(n.queued) + (n.released + RefusedActs(n.refused))
  }

  /** That it has seen, and once. */
  ghost predicate OnceEach(n: Net) {
    forall a :: multiset(Handled(n))[a] <= if a in n.seen then 1 else 0
  }

  lemma {:induction false} OneMoreHandled(n: Net, n': Net, a: Act)
    requires OnceEach(n) && multiset(Handled(n')) == multiset(Handled(n)) + multiset{a}
    requires a !in n.seen && n'.seen == n.seen + {a}
    ensures OnceEach(n')
  {
    hide Handled;
  }

  lemma {:induction false} DeliverOnce(n: Net, i: nat, rules: Rules)
    requires i < |n.wire| && OnceEach(n)
    ensures OnceEach(Arrive(n, i, true, rules))
  {
    var p := Clamped(n.wire[i], rules);
    var n' := Arrive(n, i, true, rules);
    hide OnceEach;
    if ActOf(p) in n.seen {
      SameHandled(n, n'.wire);
    } else {
      assert Acts(n.queued + [p]) == Acts(n.queued) + [ActOf(p)];
      assert n'.refused != n.refused ==> RefusedActs(n'.refused) == RefusedActs(n.refused) + [ActOf(p)];
      OneMoreHandled(n, n', ActOf(p));
    }
  }

  lemma {:induction false} SameHandled(n: Net, wire: seq<Packet>)
    requires OnceEach(n)
    ensures OnceEach(n.(wire := wire))
  {
  }

  lemma {:induction false} RemovedAct(ps: seq<Packet>, i: nat, released: seq<Act>, refused: seq<Act>)
    requires i < |ps|
    ensures multiset(Acts(ps) + (released + refused)) ==
              multiset(Acts(RemoveAt(ps, i)) + (released + refused)) + multiset{ActOf(ps[i])}
    ensures multiset(Acts(RemoveAt(ps, i)) + ((released + [ActOf(ps[i])]) + refused)) == multiset(Acts(ps) + (released + refused))
  {
    MapRemoveAt(ActOf, ps, i);
  }

  lemma {:induction false} StepOnce(n: Net, step: NetStep, rules: Rules)
    requires IsEnabled(n, step, rules) && OnceEach(n) && (step.Deliver? ==> step.remembers)
    ensures OnceEach(Advance(n, step, rules))
  {
    match step
    case Lose(_) =>
    case Deliver(i, _) => DeliverOnce(n, i, rules);
    case Shed(i) => RemovedAct(n.queued, i, n.released, RefusedActs(n.refused));
    case Release(i, targets) => RemovedAct(n.queued, i, n.released, RefusedActs(n.refused));
  }

  lemma {:induction false} RunOnce(n: Net, steps: seq<NetStep>, rules: Rules)
    requires IsNetRun(n, steps, rules) && DedupIsLive(steps) && OnceEach(n)
    ensures OnceEach(RunNet(n, steps, rules))
    decreases |steps|
  {
    if steps != [] {
      StepOnce(n, steps[0], rules);
      assert DedupIsLive(steps[1..]);
      hide OnceEach, Advance;
      RunOnce(Advance(n, steps[0], rules), steps[1..], rules);
    }
  }

  function CountReleases(steps: seq<NetStep>): nat {
    if steps == [] then 0 else (if steps[0].Release? then 1 else 0) + CountReleases(steps[1..])
  }

  lemma {:induction false} ReleasesAreLogged(n: Net, steps: seq<NetStep>, rules: Rules)
    requires IsNetRun(n, steps, rules)
    ensures |RunNet(n, steps, rules).released| == |n.released| + CountReleases(steps)
    decreases |steps|
  {
    if steps != [] { ReleasesAreLogged(Advance(n, steps[0], rules), steps[1..], rules); }
  }

  lemma {:induction false} OnceIsDistinct(n: Net)
    requires OnceEach(n)
    ensures NoDup(n.released + RefusedActs(n.refused))
  {
    var rest := n.released + RefusedActs(n.refused);
    forall a ensures multiset(rest)[a] <= 1 {
      assert multiset(Handled(n))[a] == multiset(Acts(n.queued))[a] + multiset(rest)[a];
    }
    NoDupByCount(rest);
  }

  /** While every dedup entry is live, no node releases a signal id twice, or refuses it twice,
      or both releases and refuses it. */
  lemma {:induction false} ForwardedAtMostOnce(s: Signal, steps: seq<NetStep>, rules: Rules)
    requires IsNetRun(Emitted(s), steps, rules) && DedupIsLive(steps)
    ensures var end := RunNet(Emitted(s), steps, rules);
            NoDup(end.released + RefusedActs(end.refused)) && |end.released| == CountReleases(steps)
  {
    var n := Emitted(s);
    assert Handled(n) == [Act(s.origin, s.id)];
    assert OnceEach(n);
    hide *;
    RunOnce(n, steps, rules);
    ReleasesAreLogged(n, steps, rules);
    OnceIsDistinct(RunNet(n, steps, rules));
  }

  const EXAMPLE_EMISSION := Signal(7, 0, 1.0, 4, Gradient, [], BestEffort)

  const TWICE := [Release(0, [1, 1]), Deliver(0, true), Release(0, []), Deliver(0, false), Release(0, [])]

  function PairRules(): Rules {
    Rules(_ => 4, _ => 0.0, _ => 1.0, 2)
  }

  /** The first of two copies has been let into the gate, and the second is on its way. */
  function OneOfTwo(): Net {
    var p := Packet(1, Copy(Signal(7, 0, 1.0, 3, Gradient, [0], BestEffort), EXAMPLE_EMISSION, 1));
    Net([p], [p], {Act(0, 7), Act(1, 7)}, [Act(0, 7)], [])
  }

  lemma {:induction false} FirstCopyArrives()
    ensures IsEnabled(Emitted(EXAMPLE_EMISSION), TWICE[0], PairRules())
    ensures var n1 := Advance(Emitted(EXAMPLE_EMISSION), TWICE[0], PairRules());
            IsEnabled(n1, TWICE[1], PairRules()) && Advance(n1, TWICE[1], PairRules()) == OneOfTwo()
  {
    var n0, rules := Emitted(EXAMPLE_EMISSION), PairRules();
    var p := OneOfTwo().wire[0];
    assert 1.0 * 1.0 == 1.0 && [] + [0] == [0];
    assert Onward(n0.queued[0], 1, rules) == p;
    assert Sent(n0.queued[0], [1, 1], rules) == [p, p] && RemoveAt(n0.queued, 0) == [];
    hide Sent, Outbound;
    assert Advance(n0, TWICE[0], rules) == Net([p, p], [], {Act(0, 7)}, [Act(0, 7)], []);
  }

  lemma {:induction false} StepRuns(n: Net, steps: seq<NetStep>, n': Net, rules: Rules)
    requires steps != [] && IsEnabled(n, steps[0], rules) && Advance(n, steps[0], rules) == n'
    requires IsNetRun(n', steps[1..], rules)
    ensures IsNetRun(n, steps, rules) && RunNet(n, steps, rules) == RunNet(n', steps[1..], rules)
  {
  }

  lemma {:induction false} SecondCopyToo()
    ensures IsNetRun(OneOfTwo(), TWICE[2..], PairRules())
    ensures RunNet(OneOfTwo(), TWICE[2..], PairRules()).released == [Act(0, 7), Act(1, 7), Act(1, 7)]
  {
    var rules := PairRules();
    var p, seen := OneOfTwo().wire[0], {Act(0, 7), Act(1, 7)};
    var n3 := Net([p], [], seen, [Act(0, 7), Act(1, 7)], []);
    var n4 := Net([], [p], seen, [Act(0, 7), Act(1, 7)], []);
    var n5 := Net([], [], seen, [Act(0, 7), Act(1, 7), Act(1, 7)], []);
    assert Advance(OneOfTwo(), TWICE[2], rules) == n3;
    assert Advance(n3, TWICE[3], rules) == n4;
    assert Advance(n4, TWICE[4], rules) == n5;
    assert TWICE[2..][1..] == TWICE[3..] && TWICE[3..][1..] == TWICE[4..] && TWICE[4..][1..] == [];
    assert IsNetRun(n5, [], rules) && RunNet(n5, [], rules) == n5;
    hide Advance, IsNetRun, RunNet, OneOfTwo, PairRules;
    StepRuns(n4, TWICE[4..], n5, rules);
    StepRuns(n3, TWICE[3..], n4, rules);
    StepRuns(OneOfTwo(), TWICE[2..], n3, rules);
  }

  /** Once an entry has expired it can: a run in which a node gets two copies of a signal, the
      second after it has forgotten the first, and releases it twice. */
  lemma {:induction false} ForgottenForwardsTwice()
    ensures IsNetRun(Emitted(EXAMPLE_EMISSION), TWICE, PairRules())
    ensures RunNet(Emitted(EXAMPLE_EMISSION), TWICE, PairRules()).released == [Act(0, 7), Act(1, 7), Act(1, 7)]
  {
    var n1 := Advance(Emitted(EXAMPLE_EMISSION), TWICE[0], PairRules());
    FirstCopyArrives();
    SecondCopyToo();
    assert TWICE[1..][1..] == TWICE[2..];
    hide Advance, Emitted, OneOfTwo, PairRules, IsNetRun, RunNet;
    StepRuns(n1, TWICE[1..], OneOfTwo(), PairRules());
    StepRuns(Emitted(EXAMPLE_EMISSION), TWICE, n1, PairRules());
  }

  // ---- what each copy has left, and how far it has come -------------------------------------------

  function Least(a: nat, b: nat): nat {
    if a <= b then a else b
  }

  /** A copy descends from its emission: the links it crossed came out of its ttl, its
      trace names the nodes that sent it on, up to the limit, each once, and a flood has
      crossed no more links than it may. */
  ghost predicate Descends(c: Copy) {
    && c.emitted.trace == []
    && c.signal.id == c.emitted.id && c.signal.scope == c.emitted.scope && c.signal.delivery == c.emitted.delivery
    && c.signal.ttl + c.links <= c.emitted.ttl
    && |c.signal.trace| == Least(c.links, MAX_TRACE)
    && NoDup(c.signal.trace)
    && (c.emitted.scope.Flood? && c.emitted.scope.maxHops <= MAX_TRACE ==> c.links <= c.emitted.scope.maxHops)
  }

  ghost predicate AllDescend(n: Net) {
    && (forall i :: 0 <= i < |n.wire| ==> Descends(n.wire[i].copy))
    && (forall i :: 0 <= i < |n.queued| ==>
          var p := n.queued[i]; Descends(p.copy) && p.copy.signal.ttl > 0 && p.node !in p.copy.signal.trace)
    && (forall i :: 0 <= i < |n.refused| ==> Descends(n.refused[i].packet.copy))
  }

  lemma {:induction false} OnwardDescends(p: Packet, target: NodeId, rules: Rules)
    requires Descends(p.copy) && p.copy.signal.ttl > 0 && p.node !in p.copy.signal.trace
    requires !FloodDepthReached(p.copy.signal)
    ensures Descends(Onward(p, target, rules).copy)
  {
  }

  /** A flood stops exactly when it has crossed its links; a bound above the trace limit
      is never reached. */
  lemma {:induction false} FloodStopsAtItsDepth(c: Copy)
    requires Descends(c) && c.emitted.scope.Flood?
    ensures c.emitted.scope.maxHops <= MAX_TRACE ==> (FloodDepthReached(c.signal) <==> c.links == c.emitted.scope.maxHops)
    ensures c.emitted.scope.maxHops > MAX_TRACE ==> !FloodDepthReached(c.signal)
  {
  }

  lemma {:induction false} DeliverDescends(n: Net, i: nat, remembers: bool, rules: Rules)
    requires i < |n.wire| && AllDescend(n)
    ensures AllDescend(Arrive(n, i, remembers, rules))
  {
    var p := Clamped(n.wire[i], rules);
    assert Descends(p.copy);
  }

  lemma {:induction false} StepDescends(n: Net, step: NetStep, rules: Rules)
    requires IsEnabled(n, step, rules) && AllDescend(n)
    ensures AllDescend(Advance(n, step, rules))
  {
    hide Descends, ClampInboundHeaders, Outbound, CheckPropagable;
    match step
    case Lose(_) =>
    case Deliver(i, remembers) => DeliverDescends(n, i, remembers, rules);
    case Shed(_) =>
    case Release(i, targets) =>
      var sent := Sent(n.queued[i], targets, rules);
      forall k | 0 <= k < |sent| ensures Descends(sent[k].copy) { OnwardDescends(n.queued[i], targets[k], rules); }
  }

  lemma {:induction false} RunDescends(n: Net, steps: seq<NetStep>, rules: Rules)
    requires IsNetRun(n, steps, rules) && AllDescend(n)
    ensures AllDescend(RunNet(n, steps, rules))
    decreases |steps|
  {
    if steps != [] {
      StepDescends(n, steps[0], rules);
      RunDescends(Advance(n, steps[0], rules), steps[1..], rules);
    }
  }

  /** Every copy descends from the one emission. */
  ghost predicate AllFrom(n: Net, s: Signal) {
    (forall i :: 0 <= i < |n.wire| ==> n.wire[i].copy.emitted == s)
    && (forall i :: 0 <= i < |n.queued| ==> n.queued[i].copy.emitted == s)
  }

  lemma {:induction false} RunKeepsOrigin(n: Net, steps: seq<NetStep>, rules: Rules, s: Signal)
    requires IsNetRun(n, steps, rules) && AllFrom(n, s)
    ensures AllFrom(RunNet(n, steps, rules), s)
    decreases |steps|
  {
    if steps != [] { RunKeepsOrigin(Advance(n, steps[0], rules), steps[1..], rules, s); }
  }

  /** Every copy in flight has crossed at most its emission's ttl in links, and a flood of
      at most 64 hops at most that many as well; every trace is free of repeats. */
  lemma {:induction false} LinksAreBounded(s: Signal, steps: seq<NetStep>, rules: Rules, i: nat)
    requires s.trace == [] && s.ttl > 0 && IsNetRun(Emitted(s), steps, rules)
    requires i < |RunNet(Emitted(s), steps, rules).wire|
    ensures var c := RunNet(Emitted(s), steps, rules).wire[i].copy;
            && NoDup(c.signal.trace) && |c.signal.trace| == Least(c.links, MAX_TRACE)
            && c.signal.ttl + c.links <= s.ttl
            && (s.scope.Flood? && s.scope.maxHops <= MAX_TRACE ==> c.links <= Least(s.scope.maxHops, s.ttl))
  {
    RunDescends(Emitted(s), steps, rules);
    RunKeepsOrigin(Emitted(s), steps, rules, s);
  }

  // ---- what is in the gates ------------------------------------------------------------------------

  /** What waits in a gate can still travel, no further than its node allows, has not been
      there before, and weighs between the node's floor and 1. */
  ghost predicate GatesWithin(n: Net, rules: Rules) {
    forall i :: 0 <= i < |n.queued| ==>
      var (node, s) := (n.queued[i].node, n.queued[i].copy.signal);
      && 0 < s.ttl <= rules.maxTtl(node) && node !in s.trace
      && 0.0 <= s.weight <= 1.0 && rules.floor(node) <= s.weight
  }

  lemma {:induction false} StepKeepsGates(n: Net, step: NetStep, rules: Rules)
    requires IsEnabled(n, step, rules) && GatesWithin(n, rules)
    ensures GatesWithin(Advance(n, step, rules), rules)
  {
    if step.Deliver? { ClampedIsWithin(n.wire[step.packet].copy.signal, rules.maxTtl(n.wire[step.packet].node)); }
    hide ClampInboundHeaders, Sent;
  }

  /** Under any scheduler, whatever headers come in: gates that start within their nodes'
      bounds stay so. */
  lemma {:induction false} GatesStayWithin(n: Net, steps: seq<NetStep>, rules: Rules)
    requires IsNetRun(n, steps, rules) && GatesWithin(n, rules)
    ensures GatesWithin(RunNet(n, steps, rules), rules)
    decreases |steps|
  {
    if steps != [] {
      StepKeepsGates(n, steps[0], rules);
      GatesStayWithin(Advance(n, steps[0], rules), steps[1..], rules);
    }
  }

  // ---- a flood of more than 64 hops ---------------------------------------------------------------

  /** No run, under any rules, has a copy that crossed more than `bound` links. */
  ghost predicate LinksStayWithin(s: Signal, bound: nat) {
    forall steps: seq<NetStep>, rules: Rules, i: nat ::
      IsNetRun(Emitted(s), steps, rules) && i < |RunNet(Emitted(s), steps, rules).wire|
      ==> RunNet(Emitted(s), steps, rules).wire[i].copy.links <= bound
  }

  /** Nothing is refused for weight or cut short, and a node sends to one other. */
  function OpenRules(maxTtl: nat): Rules {
    Rules(_ => maxTtl, _ => 0.0, _ => 1.0, 1)
  }

  /** From `node`, on over `more` further nodes, each numbered one higher, and one send more. */
  function Walk(node: NodeId, more: nat): seq<NetStep>
    decreases more
  {
    if more == 0 then [Release(0, [node + 1])] else [Release(0, [node + 1]), Deliver(0, true)] + Walk(node + 1, more - 1)
  }

  /** The one copy is in the gate of the k-th node on the path. */
  ghost predicate OnPath(n: Net, s: Signal, k: nat) {
    && n.wire == [] && |n.queued| == 1
    && (forall a :: a in n.seen ==> a.node <= s.origin + k)
    && var p := n.queued[0];
       && p.node == s.origin + k && p.copy.links == k
       && k < s.ttl && p.copy.signal.ttl == s.ttl - k && p.copy.signal.scope == s.scope
       && |p.copy.signal.trace| == Least(k, MAX_TRACE)
       && forall i :: 0 <= i < |p.copy.signal.trace| ==> p.copy.signal.trace[i] == s.origin + i
  }

  /** One hop along the path. */
  lemma {:induction false} PathHop(n: Net, s: Signal, k: nat)
    requires OnPath(n, s, k) && s.scope.Flood? && s.scope.maxHops > MAX_TRACE
    ensures var rules, sent := OpenRules(s.ttl), Release(0, [s.origin + k + 1]);
            && IsEnabled(n, sent, rules)
            && var n1 := Advance(n, sent, rules);
               && |n1.wire| == 1 && n1.wire[0].copy.links == k + 1 && IsEnabled(n1, Deliver(0, true), rules)
               && (k + 1 < s.ttl ==> OnPath(Advance(n1, Deliver(0, true), rules), s, k + 1))
  {
    var rules := OpenRules(s.ttl);
    var p := n.queued[0];
    var n1 := Advance(n, Release(0, [s.origin + k + 1]), rules);
    assert n1.wire == [Onward(p, s.origin + k + 1, rules)] && n1.queued == [];
    if k + 1 < s.ttl {
      var q := Clamped(n1.wire[0], rules);
      assert q.node !in q.copy.signal.trace;
      assert ActOf(q) !in n1.seen;
      assert CheckPropagable(q.copy.signal, q.node, rules.floor(q.node)) == None;
      assert Advance(n1, Deliver(0, true), rules).queued == [q];
    }
  }

  lemma {:induction false} RunTwoMore(n: Net, a: NetStep, b: NetStep, rest: seq<NetStep>, rules: Rules)
    requires IsEnabled(n, a, rules) && IsEnabled(Advance(n, a, rules), b, rules)
    requires IsNetRun(Advance(Advance(n, a, rules), b, rules), rest, rules)
    ensures IsNetRun(n, [a, b] + rest, rules)
    ensures RunNet(n, [a, b] + rest, rules) == RunNet(Advance(Advance(n, a, rules), b, rules), rest, rules)
  {
    hide Advance, IsEnabled;
    var steps := [a, b] + rest;
    assert steps[0] == a && steps[1..] == [b] + rest && steps[1..][1..] == rest;
    var n1 := Advance(n, a, rules);
    assert IsNetRun(n1, steps[1..], rules) && RunNet(n1, steps[1..], rules) == RunNet(Advance(n1, b, rules), rest, rules);
  }

  lemma {:induction false} WalkRuns(n: Net, s: Signal, k: nat, more: nat)
    requires OnPath(n, s, k) && s.scope.Flood? && s.scope.maxHops > MAX_TRACE && k + more < s.ttl
    ensures var rules, steps := OpenRules(s.ttl), Walk(s.origin + k, more);
            && IsNetRun(n, steps, rules)
            && var end := RunNet(n, steps, rules); |end.wire| == 1 && end.wire[0].copy.links == k + more + 1
    decreases more
  {
    hide OnPath, Advance, IsEnabled, OpenRules;
    var rules := OpenRules(s.ttl);
    var sent := Release(0, [s.origin + k + 1]);
    PathHop(n, s, k);
    var n1 := Advance(n, sent, rules);
    if more == 0 {
      assert [sent][1..] == [];
    } else {
      var rest := Walk(s.origin + k + 1, more - 1);
      assert Walk(s.origin + k, more) == [sent, Deliver(0, true)] + rest;
      hide Walk;
      WalkRuns(Advance(n1, Deliver(0, true), rules), s, k + 1, more - 1);
      RunTwoMore(n, sent, Deliver(0, true), rest, rules);
    }
  }

  /** A flood's own bound on hops holds in every run, under any rules, if and only if it is at
      most 64 or the ttl is no larger: the trace it is measured by stops growing at 64, and a
      flood asking for more is bounded by its ttl alone. */
  lemma {:induction false} HopBoundHoldsIff(s: Signal)
    requires s.trace == [] && s.ttl > 0 && s.scope.Flood?
    ensures LinksStayWithin(s, s.scope.maxHops) <==> s.scope.maxHops <= MAX_TRACE || s.ttl <= s.scope.maxHops
  {
    if s.scope.maxHops <= MAX_TRACE || s.ttl <= s.scope.maxHops {
      forall steps: seq<NetStep>, rules: Rules, i: nat
        | IsNetRun(Emitted(s), steps, rules) && i < |RunNet(Emitted(s), steps, rules).wire|
        ensures RunNet(Emitted(s), steps, rules).wire[i].copy.links <= s.scope.maxHops
      {
        LinksAreBounded(s, steps, rules, i);
      }
    } else {
      var steps, rules := Walk(s.origin, s.scope.maxHops), OpenRules(s.ttl);
      WalkRuns(Emitted(s), s, 0, s.scope.maxHops);
      assert RunNet(Emitted(s), steps, rules).wire[0].copy.links == s.scope.maxHops + 1;
    }
  }

  // ---- the acknowledged floor -----------------------------------------------------------------------

  predicate Uniform(rules: Rules, floor: real, node: NodeId) {
    rules.floor(node) == floor
  }

  /** An acknowledged copy is at the network's floor or has no ttl left. */
  ghost predicate AtFloor(c: Copy, floor: real) {
    c.signal.delivery.Acknowledged? ==> c.signal.weight >= floor || c.signal.ttl == 0
  }

  ghost predicate FloorHolds(n: Net, floor: real) {
    && (forall i :: 0 <= i < |n.wire| ==> AtFloor(n.wire[i].copy, floor))
    && (forall i :: 0 <= i < |n.queued| ==> AtFloor(n.queued[i].copy, floor))
    && (forall i :: 0 <= i < |n.refused| ==>
          !(n.refused[i].packet.copy.signal.delivery.Acknowledged? && n.refused[i].reason == BelowThreshold))
  }

  lemma {:induction false} StepKeepsFloor(n: Net, step: NetStep, rules: Rules, floor: real)
    requires IsEnabled(n, step, rules) && FloorHolds(n, floor)
    requires floor <= 1.0 && forall v :: Uniform(rules, floor, v)
    ensures FloorHolds(Advance(n, step, rules), floor)
  {
    match step
    case Lose(_) =>
    case Deliver(i, remembers) =>
      assert Uniform(rules, floor, n.wire[i].node);
    case Shed(_) =>
    case Release(i, targets) =>
      var sent := Sent(n.queued[i], targets, rules);
      assert Uniform(rules, floor, n.queued[i].node);
      forall k | 0 <= k < |sent| ensures AtFloor(sent[k].copy, floor) {
        assert sent[k] == Onward(n.queued[i], targets[k], rules);
      }
  }

  lemma {:induction false} RunKeepsFloor(n: Net, steps: seq<NetStep>, rules: Rules, floor: real)
    requires IsNetRun(n, steps, rules) && FloorHolds(n, floor)
    requires floor <= 1.0 && forall v :: Uniform(rules, floor, v)
    ensures FloorHolds(RunNet(n, steps, rules), floor)
    decreases |steps|
  {
    if steps != [] {
      StepKeepsFloor(n, steps[0], rules, floor);
      RunKeepsFloor(Advance(n, steps[0], rules), steps[1..], rules, floor);
    }
  }

  /** With one propagation floor across the network, an acknowledged signal emitted at or
      above it is never refused as below threshold, at any hop of any path. */
  lemma {:induction false} AcknowledgedIsNeverBelow(s: Signal, steps: seq<NetStep>, rules: Rules, floor: real, i: nat)
    requires s.delivery.Acknowledged? && s.weight >= floor && floor <= 1.0 && forall v :: Uniform(rules, floor, v)
    requires IsNetRun(Emitted(s), steps, rules) && i < |RunNet(Emitted(s), steps, rules).refused|
    ensures var r := RunNet(Emitted(s), steps, rules).refused[i];
            r.packet.copy.signal.delivery.Acknowledged? ==> r.reason != BelowThreshold
  {
    RunKeepsFloor(Emitted(s), steps, rules, floor);
  }

  /** An acknowledged signal that one node accepts, with more than one hop left, is
      accepted by weight at the next. */
  ghost predicate NeverBelowOver(s: Signal, u: NodeId, v: NodeId, rules: Rules) {
    s.delivery.Acknowledged? && s.ttl >= 2 && rules.floor(u) <= s.weight <= 1.0 ==>
      ClampInboundHeaders(Outbound(s, u, rules.factor(u), rules.floor(u)), rules.maxTtl(v)).weight >= rules.floor(v)
  }

  /** What such a signal weighs when it gets there. */
  lemma {:induction false} CarriedWeight(s: Signal, u: NodeId, v: NodeId, rules: Rules)
    requires 0.0 <= rules.floor(u) <= 1.0 && 0.0 <= rules.factor(u) <= 1.0
    requires s.delivery.Acknowledged? && s.ttl >= 2 && rules.floor(u) <= s.weight <= 1.0
    ensures var weight := ClampInboundHeaders(Outbound(s, u, rules.factor(u), rules.floor(u)), rules.maxTtl(v)).weight;
            rules.floor(u) <= weight <= s.weight && (s.weight == rules.floor(u) ==> weight == rules.floor(u))
  {
    var h := Hop(s, u);
    assert h.weight == s.weight && h.delivery == s.delivery && h.ttl > 0;
    assert Outbound(s, u, rules.factor(u), rules.floor(u)) == AttenuateForHop(h, rules.factor(u), rules.floor(u));
    hide Outbound, Hop, AttenuateForHop;
    AttenuatedWeight(h, rules.factor(u), rules.floor(u));
  }

  lemma {:induction false} AttenuatedWeight(s: Signal, factor: real, floor: real)
    requires s.delivery.Acknowledged? && s.ttl > 0 && 0.0 <= floor <= s.weight <= 1.0 && 0.0 <= factor <= 1.0
    ensures floor <= AttenuateForHop(s, factor, floor).weight <= s.weight
  {
    Shrinks(s.weight, factor);
    ClampedBetween(s.weight * factor, floor, s.weight);
    hide Clamp, RMax;
  }

  lemma {:induction false} ClampedBetween(attenuated: real, floor: real, weight: real)
    requires 0.0 <= attenuated <= weight && 0.0 <= floor <= weight <= 1.0
    ensures floor <= Clamp(RMax(attenuated, floor), 0.0, 1.0) <= weight
  {
  }

  /** One floor is what it takes: over a link the guarantee holds for every signal if and
      only if the receiver's floor is no higher than the sender's. */
  lemma {:induction false} FloorCarriesIff(u: NodeId, v: NodeId, rules: Rules)
    requires 0.0 <= rules.floor(u) <= 1.0 && 0.0 <= rules.floor(v) <= 1.0 && 0.0 <= rules.factor(u) <= 1.0
    ensures (forall s :: NeverBelowOver(s, u, v, rules)) <==> rules.floor(v) <= rules.floor(u)
  {
    hide Outbound, ClampInboundHeaders;
    if rules.floor(v) > rules.floor(u) {
      var s := Signal(0, u, rules.floor(u), 2, Gradient, [], Acknowledged);
      CarriedWeight(s, u, v, rules);
      assert !NeverBelowOver(s, u, v, rules);
    } else {
      forall s ensures NeverBelowOver(s, u, v, rules) {
        if s.delivery.Acknowledged? && s.ttl >= 2 && rules.floor(u) <= s.weight <= 1.0 { CarriedWeight(s, u, v, rules); }
      }
    }
  }

  lemma {:induction false} Shrinks(weight: real, factor: real)
    requires 0.0 <= weight && 0.0 <= factor <= 1.0
    ensures 0.0 <= weight * factor <= weight
  {
  }
}
