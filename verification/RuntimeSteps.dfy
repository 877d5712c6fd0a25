/** What acting on a disposition or a batch does to the ledger and the body cache, exactly, and
    how a disposition accounts for what the gate did with an arrival. */
module RuntimeSteps {
  import opened Base
  import opened Activation
  import opened Signals
  import opened Store
  import opened Nodes
  import opened Reception
  import opened Runtime
  import opened RuntimeLedger

  // ---- the ledger -------------------------------------------------------------------------------

  function QueueIds(q: seq<QueuedSignal>): (r: seq<SignalId>)
    ensures |r| == |q| && forall i :: 0 <= i < |q| ==> r[i] == q[i].id
  {
    Map((s: QueuedSignal) => s.id, q)
  }

  /** What identifies a signal to those who sent it and wait for its receipt. */
  datatype Ticket = Ticket(id: SignalId, origin: NodeId, delivery: DeliveryClass)

  function TicketOf(q: QueuedSignal): Ticket {
    Ticket(q.id, q.origin, q.delivery)
  }

  function Tickets(q: seq<QueuedSignal>): (r: seq<Ticket>)
    ensures |r| == |q| && forall i :: 0 <= i < |q| ==> r[i] == TicketOf(q[i])
  {
    Map(TicketOf, q)
  }

  predicate Matches(q: QueuedSignal, body: Signal) {
    body.id == q.id && body.origin == q.origin && body.delivery == q.delivery
  }

  /** A signal let through left with its own body. */
  predicate WithOwnBody(x: Exit) {
    x.Let? ==> x.body.Some? && Matches(x.signal, x.body.value)
  }

  ghost predicate Bodied(l: Ledger) {
    forall i :: 0 <= i < |l.exits| ==> WithOwnBody(l.exits[i])
  }

  lemma {:induction false} LeaveEffect(l: Ledger, x: Exit, e: Event, receipt: Option<Receipt>)
    ensures var l' := Leave(l, x, e, receipt);
            && (Bodied(l') <==> Bodied(l) && WithOwnBody(x))
            && l'.Left() == l.Left() + [x.signal] && l'.arrived == l.arrived
  {
    var l' := Leave(l, x, e, receipt);
    assert l'.exits[|l.exits|] == x && forall i :: 0 <= i < |l.exits| ==> l'.exits[i] == l.exits[i];
  }

  lemma {:induction false} ReleaseEffect(l: Ledger, q: QueuedSignal, body: Option<Signal>, plan: Option<seq<Forward>>,
          cause: Cause,
          planner: Planner, link: Link, c: RuntimeConfig)
    ensures var l' := Release(l, q, body, plan, cause, planner, link, c);
            && (Bodied(l') <==> Bodied(l) && body.Some? && Matches(q, body.value))
            && l'.Left() == l.Left() + [q] && l'.arrived == l.arrived
  {
    var l' := Release(l, q, body, plan, cause, planner, link, c);
    assert |l'.exits| == |l.exits| + 1 && forall i :: 0 <= i < |l.exits| ==> l'.exits[i] == l.exits[i];
    assert l'.exits[|l.exits|].signal == q && l'.exits[|l.exits|].Let? && l'.exits[|l.exits|].body == body;
    hide Release;
  }

  // ---- a batch ------------------------------------------------------------------------------------

  ghost predicate Cached(pending: map<SignalId, Signal>, q: QueuedSignal) {
    q.id in pending && Matches(q, pending[q.id])
  }

  predicate IsArrival(q: QueuedSignal, a: Arrival) {
    a.Arrival? && q.id == a.signal.id
  }

  /** The body is at hand: the arrival's, or in the cache and not taken by an earlier copy. */
  ghost predicate BodyAtHand(pending: map<SignalId, Signal>, batch: seq<QueuedSignal>, a: Arrival, i: nat)
    requires i < |batch|
  {
    if IsArrival(batch[i], a) then Matches(batch[i], a.signal)
    else Cached(pending, batch[i]) && forall j :: 0 <= j < i ==> batch[j].id != batch[i].id
  }

  ghost predicate HasBodies(pending: map<SignalId, Signal>, batch: seq<QueuedSignal>, a: Arrival) {
    forall i :: 0 <= i < |batch| ==> BodyAtHand(pending, batch, a, i)
  }

  /** The batch leaves, and takes its bodies out of the cache; each leaves with its own exactly
      when it is at hand. */
  ghost predicate BatchEffect(w: World, w': World, batch: seq<QueuedSignal>, a: Arrival) {
    && w'.gate == w.gate && w'.seen == w.seen && w'.backstops == w.backstops
    && (Bodied(w'.ledger) <==> Bodied(w.ledger) && HasBodies(w.pending, batch, a))
    && w'.ledger.Left() == w.ledger.Left() + batch && w'.ledger.arrived == w.ledger.arrived
    && (forall id :: id in w'.pending <==> id in w.pending && !(id in QueueIds(batch) && !(a.Arrival? && id == a.signal.id)))
    && (forall id :: id in w'.pending ==> w'.pending[id] == w.pending[id])
  }

  lemma {:induction false} ReleaseOneEffect(w: World, q: QueuedSignal, a: Arrival, cause: Cause, planner: Planner,
          link: Link, c: RuntimeConfig)
    ensures var w' := ReleaseOne(w, q, a, cause, planner, link, c);
            && w'.gate == w.gate && w'.seen == w.seen && w'.backstops == w.backstops
            && (Bodied(w'.ledger) <==>
                  Bodied(w.ledger) && if IsArrival(q, a) then Matches(q, a.signal) else Cached(w.pending, q))
            && w'.ledger.Left() == w.ledger.Left() + [q] && w'.ledger.arrived == w.ledger.arrived
            && w'.pending == if IsArrival(q, a) then w.pending else w.pending - {q.id}
  {
    hide Bodied;
    if IsArrival(q, a) {
      ReleaseEffect(w.ledger, q, Some(a.signal), Some(a.plan), cause, planner, link, c);
    } else {
      ReleaseEffect(w.ledger, q, BodyOf(w.pending, q.id), None, cause, planner, link, c);
    }
  }

  lemma {:induction false} BodiesSnoc(pending: map<SignalId, Signal>, pending1: map<SignalId, Signal>,
          front: seq<QueuedSignal>,
          q: QueuedSignal, a: Arrival)
    requires forall id :: id in pending1 <==> id in pending && !(id in QueueIds(front) && !(a.Arrival? && id == a.signal.id))
    requires forall id :: id in pending1 ==> pending1[id] == pending[id]
    ensures HasBodies(pending, front + [q], a) <==>
              HasBodies(pending, front, a) && if IsArrival(q, a) then Matches(q, a.signal) else Cached(pending1, q)
  {
    var all := front + [q];
    forall i: nat | i < |front| ensures BodyAtHand(pending, all, a, i) <==> BodyAtHand(pending, front, a, i) {
      assert all[i] == front[i] && forall j :: 0 <= j < i ==> all[j] == front[j];
    }
    assert BodyAtHand(pending, all, a, |front|) <==>
             if IsArrival(q, a) then Matches(q, a.signal) else Cached(pending1, q) by {
      assert all[|front|] == q && forall j :: 0 <= j < |front| ==> all[j] == front[j];
      assert q.id in QueueIds(front) <==> exists j :: 0 <= j < |front| && QueueIds(front)[j] == q.id;
    }
    hide BodyAtHand, Cached, Matches, IsArrival, QueueIds;
    if HasBodies(pending, front, a) && BodyAtHand(pending, all, a, |front|) {
      forall i: nat | i < |all| ensures BodyAtHand(pending, all, a, i) { assert i < |front| || i == |front|; }
    }
  }

  lemma {:induction false} ReleaseBatchEffect(w: World, batch: seq<QueuedSignal>, a: Arrival, cause: Cause,
          planner: Planner, link: Link, c: RuntimeConfig)
    ensures BatchEffect(w, ReleaseBatch(w, batch, a, cause, planner, link, c), batch, a)
  {
    hide Bodied, ReleaseOne, BodyAtHand;
    if batch == [] {
      assert w.ledger.Left() + [] == w.ledger.Left();
    } else {
      var front, q := batch[..|batch| - 1], batch[|batch| - 1];
      var w1 := ReleaseBatch(w, front, a, cause, planner, link, c);
      assert batch == front + [q];
      assert QueueIds(batch) == QueueIds(front) + [q.id];
      ReleaseBatchEffect(w, front, a, cause, planner, link, c);
      ReleaseOneEffect(w1, q, a, cause, planner, link, c);
      BodiesSnoc(w.pending, w1.pending, front, q, a);
      assert ReleaseBatch(w, batch, a, cause, planner, link, c) == ReleaseOne(w1, q, a, cause, planner, link, c);
      hide ReleaseBatch, HasBodies, Cached, Matches;
      assert w.ledger.Left() + batch == w.ledger.Left() + front + [q];
    }
  }

  // ---- acting on a disposition ------------------------------------------------------------------------

  function EvictedIds(d: Disposition): set<SignalId> {
    if d.evicted.Some? then {d.evicted.value.signal.id} else {}
  }

  /** Everything a disposition makes leave, in order. */
  function Leaving(d: Disposition, s: Signal, now: u64): seq<QueuedSignal> {
    (if d.evicted.Some? then [d.evicted.value.signal] else [])
    + (if d.rejected.Some? then [QueuedOf(s, now)] else [])
    + d.handleLocally
  }

  /** The cache after acting: less what was evicted and released, plus a queued arrival. */
  ghost predicate CacheAfter(pending: map<SignalId, Signal>, pending': map<SignalId, Signal>, d: Disposition,
          s: Signal) {
    && (forall id :: id in pending' <==>
          (d.queued && id == s.id)
          || (id in pending && id !in EvictedIds(d) && !(id in QueueIds(d.handleLocally) && id != s.id)))
    && (forall id :: id in pending' ==> pending'[id] == if d.queued && id == s.id then s else if id in pending then pending[id] else s)
  }

  ghost predicate ActEffect(w: World, w': World, s: Signal, now: u64, d: Disposition) {
    && w'.gate == w.gate && w'.seen == w.seen && w'.backstops == w.backstops
    && (Bodied(w'.ledger) <==>
          Bodied(w.ledger) && HasBodies(w.pending - EvictedIds(d), d.handleLocally, Arrival(s, d.forwardTo)))
    && w'.ledger.arrived == w.ledger.arrived
    && w'.ledger.Left() == w.ledger.Left() + Leaving(d, s, now)
    && CacheAfter(w.pending, w'.pending, d, s)
  }

  lemma {:induction false} EvictEffect(w: World, ev: Evicted)
    ensures var w' := Evict(w, ev);
            && (Bodied(w'.ledger) <==> Bodied(w.ledger))
            && w'.ledger.Left() == w.ledger.Left() + [ev.signal] && w'.ledger.arrived == w.ledger.arrived
            && w'.pending == w.pending - {ev.signal.id}
            && w'.gate == w.gate && w'.seen == w.seen && w'.backstops == w.backstops
  {
    var receipt := if ev.signal.delivery.RequiresReceipt()
                   then Some(Receipt(ev.signal.id, ReceiptRejected(ev.reason), ev.signal.origin)) else None;
    LeaveEffect(w.ledger, Turned(ev.signal, ev.reason), Refused(ev.signal.id, ev.reason), receipt);
  }

  lemma {:induction false} VerdictEffect(w: World, s: Signal, now: u64, d: Disposition)
    ensures var w2 := AfterVerdict(w, s, now, d);
            && (Bodied(w2.ledger) <==> Bodied(w.ledger)) && w2.ledger.arrived == w.ledger.arrived
            && w2.ledger.Left() + d.handleLocally == w.ledger.Left() + Leaving(d, s, now)
            && w2.pending == w.pending - EvictedIds(d)
            && w2.gate == w.gate && w2.seen == w.seen && w2.backstops == w.backstops
  {
    hide Bodied;
    var w1 := if d.evicted.Some? then Evict(w, d.evicted.value) else w;
    if d.evicted.Some? { EvictEffect(w, d.evicted.value); }
    assert w1.pending == w.pending - EvictedIds(d);
    if d.rejected.Some? {
      LeaveEffect(w1.ledger, Turned(QueuedOf(s, now), d.rejected.value), Refused(s.id, d.rejected.value), d.receipt);
    }
  }

  lemma {:induction false} RememberedEffect(w: World, s: Signal, c: RuntimeConfig)
    requires |w.pending| < 2 * c.gate.maxQueueDepth
    ensures Remembered(w, s, c) == w.(pending := w.pending[s.id := s])
  {
  }

  lemma {:induction false} FewerKeys(pending: map<SignalId, Signal>, pending': map<SignalId, Signal>)
    requires forall id :: id in pending' ==> id in pending
    ensures |pending'| <= |pending|
  {
    assert pending'.Keys <= pending.Keys;
    SubsetSize(pending'.Keys, pending.Keys);
    assert |pending'| == |pending'.Keys| && |pending| == |pending.Keys|;
  }

  lemma {:induction false} CacheStep(pending: map<SignalId, Signal>, released: map<SignalId, Signal>,
          pending': map<SignalId, Signal>,
          d: Disposition, s: Signal)
    requires forall id :: id in released <==>
               id in pending - EvictedIds(d) && !(id in QueueIds(d.handleLocally) && id != s.id)
    requires forall id :: id in released ==> released[id] == (pending - EvictedIds(d))[id]
    requires pending' == if d.queued then released[s.id := s] else released
    ensures CacheAfter(pending, pending', d, s)
  {
  }

  lemma {:induction false} ActIsExact(w: World, s: Signal, now: u64, d: Disposition, planner: Planner, link: Link,
          c: RuntimeConfig)
    requires |w.pending| < 2 * c.gate.maxQueueDepth
    ensures ActEffect(w, Act(w, s, now, d, planner, link, c), s, now, d)
  {
    var w1 := AfterVerdict(w, s, now, d);
    var a := Arrival(s, d.forwardTo);
    var w2 := ReleaseBatch(w1, d.handleLocally, a, Threshold, planner, link, c);
    var w' := Act(w, s, now, d, planner, link, c);
    VerdictEffect(w, s, now, d);
    hide Bodied, AfterVerdict, ReleaseBatch, Remembered, HasBodies, CacheAfter, EvictedIds, Leaving, QueueIds;
    ReleaseBatchEffect(w1, d.handleLocally, a, Threshold, planner, link, c);
    FewerKeys(w.pending, w2.pending);
    if d.queued { RememberedEffect(w2, s, c); }
    assert w' == w2.(pending := if d.queued then w2.pending[s.id := s] else w2.pending);
    CacheStep(w.pending, w2.pending, w'.pending, d, s);
  }

  /** Handling signals touches neither the gate nor the dedup map. */
  lemma {:induction false} BatchKeepsGate(w: World, batch: seq<QueuedSignal>, a: Arrival, cause: Cause,
          planner: Planner,
          link: Link, c: RuntimeConfig)
    ensures var w' := ReleaseBatch(w, batch, a, cause, planner, link, c); w'.gate == w.gate && w'.seen == w.seen
  {
    if batch != [] { BatchKeepsGate(w, batch[..|batch| - 1], a, cause, planner, link, c); }
  }

  lemma {:induction false} ActKeepsGate(w: World, s: Signal, now: u64, d: Disposition, planner: Planner, link: Link,
          c: RuntimeConfig)
    ensures var w' := Act(w, s, now, d, planner, link, c); w'.gate == w.gate && w'.seen == w.seen
  {
    BatchKeepsGate(AfterVerdict(w, s, now, d), d.handleLocally, Arrival(s, d.forwardTo), Threshold, planner, link, c);
    hide ReleaseBatch;
  }

  // ---- what the gate does with the arrival -----------------------------------------------------------

  function DropSeq(dropped: Option<QueuedSignal>): seq<QueuedSignal> {
    if dropped.Some? then [dropped.value] else []
  }

  /** The queue and the arrival, parted into what stays, what fires and what is dropped. */
  ghost predicate Parted(queue: seq<QueuedSignal>, q: QueuedSignal, kept: seq<QueuedSignal>,
          fired: seq<QueuedSignal>, dropped: seq<QueuedSignal>) {
    && (forall x :: x in queue || x == q <==> x in kept || x in fired || x in dropped)
    && NoDup(QueueIds(kept)) && NoDup(QueueIds(fired))
    && (forall x, y :: x in kept && y in fired ==> x.id != y.id)
    && (forall x, y :: x in kept && y in dropped ==> x.id != y.id)
    && (forall x, y :: x in fired && y in dropped ==> x.id != y.id)
    && (forall x :: x in queue ==> x.id != q.id)
  }

  lemma {:induction false} ApartIds(a: seq<QueuedSignal>, b: seq<QueuedSignal>)
    requires NoDup(QueueIds(a + b))
    ensures NoDup(QueueIds(a)) && NoDup(QueueIds(b))
    ensures forall x, y :: x in a && y in b ==> x.id != y.id
  {
    var ids := QueueIds(a + b);
    forall i, j | 0 <= i < j < |a| ensures a[i].id != a[j].id { assert ids[i] != ids[j]; }
    forall i, j | 0 <= i < j < |b| ensures b[i].id != b[j].id { assert ids[|a| + i] != ids[|a| + j]; }
    forall x, y | x in a && y in b ensures x.id != y.id {
      var i :| 0 <= i < |a| && a[i] == x;
      var j :| 0 <= j < |b| && b[j] == y;
      assert ids[i] != ids[|a| + j];
    }
  }

  lemma {:induction false} SameIds(a: seq<QueuedSignal>, b: seq<QueuedSignal>)
    requires multiset(a) == multiset(b) && NoDup(QueueIds(a))
    ensures NoDup(QueueIds(b)) && forall x :: x in a <==> x in b
  {
    MapPermutes((s: QueuedSignal) => s.id, a, b);
    NoDupByCount(QueueIds(a));
    NoDupByCount(QueueIds(b));
    SameMembers(a, b);
  }

  lemma {:induction false} GateParts(queue: seq<QueuedSignal>, q: QueuedSignal, kept: seq<QueuedSignal>,
          fired: seq<QueuedSignal>, dropped: Option<QueuedSignal>)
    requires NoDup(QueueIds(queue)) && q.id !in QueueIds(queue)
    requires multiset(queue) + multiset{q} == multiset(kept) + multiset(fired) + DroppedSet(dropped)
    ensures Parted(queue, q, kept, fired, DropSeq(dropped))
  {
    var d := DropSeq(dropped);
    var all, parts := queue + [q], kept + (fired + d);
    assert multiset(all) == multiset(parts);
    forall i, j | 0 <= i < j < |all| ensures QueueIds(all)[i] != QueueIds(all)[j] {
      if j == |queue| { assert QueueIds(queue)[i] != q.id; } else { assert QueueIds(queue)[i] != QueueIds(queue)[j]; }
    }
    SameIds(all, parts);
    ApartIds(kept, fired + d);
    ApartIds(fired, d);
    forall x | x in queue ensures x.id != q.id {
      var i :| 0 <= i < |queue| && queue[i] == x;
      assert QueueIds(queue)[i] == x.id;
    }
    forall x ensures x in queue || x == q <==> x in kept || x in fired || x in d {
      assert x in all <==> x in parts;
      assert x in parts <==> x in kept || x in fired || x in d;
    }
  }

  // ---- the disposition accounts for the gate ------------------------------------------------------------

  lemma {:induction false} WithoutCounts(fired: seq<QueuedSignal>, id: SignalId, x: QueuedSignal)
    ensures multiset(Without(fired, id))[x] == if x.id != id then multiset(fired)[x] else 0
  {
    if fired != [] {
      WithoutCounts(fired[..|fired| - 1], id, x);
      assert fired == fired[..|fired| - 1] + [fired[|fired| - 1]];
    }
  }

  lemma {:induction false} WithoutDistinct(fired: seq<QueuedSignal>, id: SignalId)
    requires NoDup(QueueIds(fired))
    ensures NoDup(QueueIds(Without(fired, id)))
  {
    if fired != [] {
      var front, last := fired[..|fired| - 1], fired[|fired| - 1];
      assert QueueIds(front) == QueueIds(fired)[..|fired| - 1];
      WithoutDistinct(front, id);
      var rest := Without(front, id);
      forall k | 0 <= k < |rest| ensures rest[k].id != last.id {
        var i :| 0 <= i < |front| && front[i] == rest[k];
        assert QueueIds(fired)[i] != QueueIds(fired)[|fired| - 1];
      }
    }
  }

  lemma {:induction false} DistinctElements(a: seq<QueuedSignal>)
    requires NoDup(QueueIds(a))
    ensures forall x :: multiset(a)[x] <= 1
  {
    forall i, j | 0 <= i < j < |a| ensures a[i] != a[j] { assert QueueIds(a)[i] != QueueIds(a)[j]; }
    NoDupByCount(a);
  }

  /** Taking the refused signal out of the batch takes nothing else. */
  lemma {:induction false} WithoutPlus(fired: seq<QueuedSignal>, q: QueuedSignal)
    requires NoDup(QueueIds(fired)) && forall x :: x in fired && x.id == q.id ==> x == q
    ensures multiset(fired) == multiset(Without(fired, q.id)) + if q in fired then multiset{q} else multiset{}
  {
    var rest := multiset(Without(fired, q.id)) + if q in fired then multiset{q} else multiset{};
    DistinctElements(fired);
    forall x ensures multiset(fired)[x] == rest[x] {
      WithoutCounts(fired, q.id, x);
      assert x in fired <==> multiset(fired)[x] > 0;
    }
  }

  /** What a disposition says of an arrival, given how the gate parted the queue. */
  ghost predicate Accounts(d: Disposition, s: Signal, now: u64, queue: seq<QueuedSignal>, kept: seq<QueuedSignal>,
          fired: seq<QueuedSignal>, dropped: Option<QueuedSignal>) {
    var q := QueuedOf(s, now);
    && (d.queued <==> q in kept)
    && NoDup(QueueIds(d.handleLocally))
    && (forall x :: x in d.handleLocally ==> x in fired)
    && (forall x :: x in fired && x != q ==> x in d.handleLocally)
    && (d.evicted.Some? ==> dropped == Some(d.evicted.value.signal) && d.evicted.value.signal != q)
    && (dropped.Some? && dropped.value != q ==> d.evicted.Some?)
    && multiset(Leaving(d, s, now)) == multiset(fired) + DroppedSet(dropped)
  }

  /** In a parted queue only the arrival has the arrival's id. */
  lemma {:induction false} OnlyArrival(queue: seq<QueuedSignal>, q: QueuedSignal, kept: seq<QueuedSignal>,
          fired: seq<QueuedSignal>, dropped: seq<QueuedSignal>)
    requires Parted(queue, q, kept, fired, dropped)
    ensures forall x :: (x in kept || x in fired || x in dropped) && x.id == q.id ==> x == q
    ensures FiredHere(fired, q.id) <==> q in fired
    ensures q in kept <==> q !in fired && q !in dropped
  {
    if q in fired {
      var i :| 0 <= i < |fired| && fired[i] == q;
      assert fired[i].id == q.id;
    }
  }

  /** The arrival among what fired, and among what was dropped, as the node sees it. */
  ghost predicate Sees(out: AdmitOutcome, q: QueuedSignal) {
    && (FiredHere(out.fired, q.id) <==> q in out.fired)
    && (forall x :: x in out.fired && x.id == q.id ==> x == q)
    && (out.dropped.Some? && out.dropped.value.id == q.id ==> out.dropped.value == q && q !in out.fired)
  }

  lemma {:induction false} PartedSees(queue: seq<QueuedSignal>, q: QueuedSignal, kept: seq<QueuedSignal>,
          out: AdmitOutcome)
    requires Parted(queue, q, kept, out.fired, DropSeq(out.dropped))
    ensures Sees(out, q) && NoDup(QueueIds(out.fired)) && NoDup(QueueIds(Without(out.fired, q.id)))
    ensures q in kept <==> q !in out.fired && out.dropped != Some(q)
    ensures multiset(out.fired) == multiset(Without(out.fired, q.id)) + if q in out.fired then multiset{q} else multiset{}
  {
    OnlyArrival(queue, q, kept, out.fired, DropSeq(out.dropped));
    assert out.dropped.Some? ==> DropSeq(out.dropped)[0] == out.dropped.value;
    hide NoDup, QueueIds, Without, FiredHere;
    WithoutDistinct(out.fired, q.id);
    WithoutPlus(out.fired, q);
  }

  lemma {:induction false} DisposeAccounts(s: Signal, now: u64, out: AdmitOutcome, plan: Planner,
          queue: seq<QueuedSignal>, kept: seq<QueuedSignal>)
    requires Parted(queue, QueuedOf(s, now), kept, out.fired, DropSeq(out.dropped))
    ensures Accounts(Dispose(s, out, plan), s, now, queue, kept, out.fired, out.dropped)
  {
    hide Parted, NoDup, QueueIds, DropSeq, FiredHere, Sees, Dispose, Without, Leaving;
    PartedSees(queue, QueuedOf(s, now), kept, out);
    DisposeFields(s, now, out, plan);
    DisposeLeaves(s, now, out, plan);
  }

  lemma {:induction false} DisposeFields(s: Signal, now: u64, out: AdmitOutcome, plan: Planner)
    requires Sees(out, QueuedOf(s, now)) && NoDup(QueueIds(out.fired)) && NoDup(QueueIds(Without(out.fired, s.id)))
    ensures var d := Dispose(s, out, plan);
            var q := QueuedOf(s, now);
            && (d.queued <==> q !in out.fired && out.dropped != Some(q))
            && NoDup(QueueIds(d.handleLocally))
            && (forall x :: x in d.handleLocally ==> x in out.fired)
            && (forall x :: x in out.fired && x != q ==> x in d.handleLocally)
            && (d.evicted.Some? ==> out.dropped == Some(d.evicted.value.signal) && d.evicted.value.signal != q)
            && (out.dropped.Some? && out.dropped.value != q ==> d.evicted.Some?)
  {
    hide NoDup, QueueIds, FiredHere;
  }

  lemma {:induction false} LeavingMultiset(d: Disposition, s: Signal, now: u64)
    ensures multiset(Leaving(d, s, now)) ==
              (if d.evicted.Some? then multiset{d.evicted.value.signal} else multiset{})
              + (if d.rejected.Some? then multiset{QueuedOf(s, now)} else multiset{})
              + multiset(d.handleLocally)
  {
  }

  lemma {:induction false} DisposeLeaves(s: Signal, now: u64, out: AdmitOutcome, plan: Planner)
    requires Sees(out, QueuedOf(s, now))
    requires var q := QueuedOf(s, now);
             multiset(out.fired) == multiset(Without(out.fired, s.id)) + if q in out.fired then multiset{q} else multiset{}
    ensures multiset(Leaving(Dispose(s, out, plan), s, now)) == multiset(out.fired) + DroppedSet(out.dropped)
  {
    LeavingMultiset(Dispose(s, out, plan), s, now);
    hide FiredHere, Without, Leaving;
  }
}
