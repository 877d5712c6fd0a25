/** Signals, and the header rules every hop applies: hop and trace, attenuation with
    the acknowledged floor, inbound clamping, the propagation rules, flood depth. */
module Signals {
  import opened Base

  const MAX_TRACE := 64

  datatype Scope =
    | Flood(maxHops: nat)
    | Weighted(minSynapseWeight: real)
    | Targeted(destination: NodeId)
    | Gradient

  datatype Signal = Signal(
    id: SignalId,
    origin: NodeId,
    weight: real,
    ttl: nat,
    scope: Scope,
    trace: seq<NodeId>,
    delivery: DeliveryClass)

  function Hop(s: Signal, node: NodeId): Signal {
    s.(ttl := if s.ttl > 0 then s.ttl - 1 else 0,
       trace := if |s.trace| < MAX_TRACE then s.trace + [node] else s.trace)
  }

  function AttenuateForHop(s: Signal, factor: real, minWeight: real): Signal {
    var attenuated := s.weight * factor;
    s.(weight := Clamp(if s.delivery.RequiresReceipt() && s.ttl > 0 then RMax(attenuated, minWeight) else attenuated,
                       0.0, 1.0))
  }

  /** What a node sends onward. */
  function Outbound(s: Signal, node: NodeId, factor: real, minWeight: real): Signal {
    AttenuateForHop(Hop(s, node), factor, minWeight)
  }

  function ClampInboundHeaders(s: Signal, maxTtl: nat): Signal {
    s.(weight := Clamp(s.weight, 0.0, 1.0), ttl := if s.ttl > maxTtl then maxTtl else s.ttl)
  }

  predicate HasVisited(s: Signal, node: NodeId) {
    node in s.trace
  }

  /** The first rule that blocks the signal, if any. */
  function CheckPropagable(s: Signal, local: NodeId, minWeight: real): Option<RejectReason> {
    if s.ttl == 0 then Some(TtlExhausted)
    else if HasVisited(s, local) then Some(NoRoute)
    else if s.weight < minWeight then Some(BelowThreshold)
    else None
  }

  predicate FloodDepthReached(s: Signal) {
    s.scope.Flood? && |s.trace| >= s.scope.maxHops
  }

  /** Inbound headers are brought to the nearest allowed, and are all that changes. */
  lemma {:induction false} ClampedIsWithin(s: Signal, maxTtl: nat)
    ensures var r := ClampInboundHeaders(s, maxTtl);
            && r == s.(weight := r.weight, ttl := r.ttl)
            && r.ttl <= maxTtl && (s.ttl <= maxTtl ==> r.ttl == s.ttl) && (s.ttl > maxTtl ==> r.ttl == maxTtl)
            && 0.0 <= r.weight <= 1.0 && (0.0 <= s.weight <= 1.0 ==> r.weight == s.weight)
            && (s.weight < 0.0 ==> r.weight == 0.0) && (s.weight > 1.0 ==> r.weight == 1.0)
  {
  }

  datatype HeaderClamp = HeaderClamp(weightClamped: bool, ttlClamped: bool)

  /** A signal being relayed: its mutable headers are rewritten in place. */
  class RelayedSignal {
    const body: Signal
    var weight: real
    var ttl: nat
    var trace: seq<NodeId>

    function View(): Signal
      reads this
    {
      body.(weight := weight, ttl := ttl, trace := trace)
    }

    constructor (s: Signal)
      ensures View() == s
    {
      body := s;
      weight, ttl, trace := s.weight, s.ttl, s.trace;
    }

    method HopOver(node: NodeId)
      modifies this
      ensures View() == Hop(old(View()), node)
    {
      if ttl > 0 {
        ttl := ttl - 1;
      }
      if |trace| < MAX_TRACE {
        trace := trace + [node];
      }
    }

    method Attenuate(factor: real, minWeight: real)
      modifies this
      ensures View() == AttenuateForHop(old(View()), factor, minWeight)
    {
      var attenuated := weight * factor;
      if body.delivery.RequiresReceipt() && ttl > 0 {
        attenuated := RMax(attenuated, minWeight);
      }
      weight := Clamp(attenuated, 0.0, 1.0);
    }

    method ClampInbound(maxTtl: nat) returns (report: HeaderClamp)
      modifies this
      ensures View() == ClampInboundHeaders(old(View()), maxTtl)
      ensures report.weightClamped <==> old(weight) < 0.0 || old(weight) > 1.0
      ensures report.ttlClamped <==> old(ttl) > maxTtl
      ensures report == HeaderClamp(false, false) ==> View() == old(View())
    {
      report := HeaderClamp(false, false);
      if weight < 0.0 || weight > 1.0 {
        weight := Clamp(weight, 0.0, 1.0);
        report := report.(weightClamped := true);
      }
      if ttl > maxTtl {
        ttl := maxTtl;
        report := report.(ttlClamped := true);
      }
    }
  }
}
