/** What a node decides to do with an arriving signal: deduplication, the propagation
    rules, the activation gate, and a route for what the gate lets through. */
module Reception {
  import opened Base
  import opened Activation
  import opened Signals
  import opened Store
  import opened Nodes

  datatype NodeRules = NodeRules(local: NodeId, minPropagationWeight: real, dedupSecs: u64)

  /** A receipt attempt, addressed to the signal's origin. */
  datatype Receipt = Receipt(id: SignalId, status: ReceiptStatus, to: NodeId)

  datatype Evicted = Evicted(signal: QueuedSignal, reason: RejectReason)

  datatype Disposition = Disposition(
    forwardTo: seq<Forward>,
    handleLocally: seq<QueuedSignal>,
    receipt: Option<Receipt>,
    rejected: Option<RejectReason>,
    evicted: Option<Evicted>,
    queued: bool)

  const NOTHING := Disposition([], [], None, None, None, false)

  /** The forwarding decisions made for a signal, whatever the topology and the draws. */
  type Planner = Signal -> seq<Forward>

  function Rejection(s: Signal, reason: RejectReason): Receipt {
    Receipt(s.id, ReceiptRejected(reason), s.origin)
  }

  function Refuse(s: Signal, reason: RejectReason): Disposition {
    NOTHING.(receipt := if s.delivery.RequiresReceipt() then Some(Rejection(s, reason)) else None,
             rejected := Some(reason))
  }

  function QueuedOf(s: Signal, now: u64): QueuedSignal {
    QueuedSignal(s.id, s.origin, s.weight, s.delivery, now)
  }

  /** The batch without the refused signal. */
  function Without(fired: seq<QueuedSignal>, refused: SignalId): (r: seq<QueuedSignal>)
    ensures forall q :: q in r <==> q in fired && q.id != refused
  {
    if fired == [] then []
    else
      var last := fired[|fired| - 1];
      Without(fired[..|fired| - 1], refused) + if last.id != refused then [last] else []
  }

  predicate FiredHere(fired: seq<QueuedSignal>, id: SignalId) {
    exists i :: 0 <= i < |fired| && fired[i].id == id
  }

  /** After the gate: what to do with the arrival, the batch it set off and the signal it
      displaced. */
  function Dispose(s: Signal, out: AdmitOutcome, plan: Planner): Disposition {
    if out.dropped.Some? && out.dropped.value.id == s.id then
      Refuse(s, QueueFull).(handleLocally := Without(out.fired, s.id))
    else
      var evicted := if out.dropped.Some? then Some(Evicted(out.dropped.value, QueueFull)) else None;
      var firedHere := FiredHere(out.fired, s.id);
      var forwards := if firedHere then plan(s) else [];
      if firedHere && forwards == [] && s.delivery.RequiresReceipt() then
        Refuse(s, NoRoute).(handleLocally := Without(out.fired, s.id), evicted := evicted)
      else
        Disposition(forwards, out.fired, None, None, evicted, !firedHere)
  }

  /** A signal this node emitted itself: no deduplication and no gate. */
  function ReceiveLocal(s: Signal, plan: Planner, rules: NodeRules): Disposition {
    match CheckPropagable(s, rules.local, rules.minPropagationWeight)
    case Some(reason) => Refuse(s, reason)
    case None =>
      if plan(s) == [] && s.delivery.RequiresReceipt() then Refuse(s, NoRoute)
      else NOTHING.(forwardTo := plan(s))
  }
}
