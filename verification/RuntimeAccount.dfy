/** The runtime's account of its arrivals, with any number of copies of a signal queued under
    one id and one cached body between them: exactly when a step keeps it. */
module RuntimeAccount {
  import opened Base
  import opened Activation
  import opened Signals
  import opened Store
  import opened Nodes
  import opened Reception
  import opened Runtime
  import opened RuntimeLedger
  import opened RuntimeSteps

  // ---- counting copies ---------------------------------------------------------------------------

  function Copies(queue: seq<QueuedSignal>, id: SignalId): nat {
    multiset(QueueIds(queue))[id]
  }

  lemma {:induction false} CopiesOf(queue: seq<QueuedSignal>, id: SignalId)
    ensures Copies(queue, id) == 0 <==> forall x :: x in queue ==> x.id != id
    ensures Copies(queue, id) > 0 <==> id in QueueIds(queue)
  {
    assert Copies(queue, id) > 0 <==> id in QueueIds(queue);
    if id in QueueIds(queue) {
      var k :| 0 <= k < |queue| && QueueIds(queue)[k] == id;
      assert queue[k] in queue && queue[k].id == id;
    }
    forall x | x in queue && x.id == id ensures id in QueueIds(queue) {
      var k :| 0 <= k < |queue| && queue[k] == x;
      assert QueueIds(queue)[k] == id;
    }
  }

  lemma {:induction false} CopiesAppend(a: seq<QueuedSignal>, b: seq<QueuedSignal>, id: SignalId)
    ensures Copies(a + b, id) == Copies(a, id) + Copies(b, id)
  {
    assert QueueIds(a + b) == QueueIds(a) + QueueIds(b);
  }

  lemma {:induction false} CopiesOfOne(q: QueuedSignal, id: SignalId)
    ensures Copies([q], id) == if q.id == id then 1 else 0
  {
    assert QueueIds([q]) == [q.id];
  }

  lemma {:induction false} CopiesPermute(a: seq<QueuedSignal>, b: seq<QueuedSignal>, id: SignalId)
    requires multiset(a) == multiset(b)
    ensures Copies(a, id) == Copies(b, id)
  {
    MapPermutes((s: QueuedSignal) => s.id, a, b);
  }

  lemma {:induction false} CopiesAdd(queue: seq<QueuedSignal>, q: QueuedSignal, kept: seq<QueuedSignal>,
          fired: seq<QueuedSignal>, dropped: Option<QueuedSignal>, id: SignalId)
    requires multiset(queue) + multiset{q} == multiset(kept) + multiset(fired) + DroppedSet(dropped)
    ensures Copies(kept, id) + Copies(fired, id) + Copies(DropSeq(dropped), id) ==
              Copies(queue, id) + if id == q.id then 1 else 0
  {
    var parts := kept + fired + DropSeq(dropped);
    assert multiset(queue + [q]) == multiset(parts);
    hide *;
    CopiesPermute(queue + [q], parts, id);
    CopiesOfOne(q, id);
    CopiesAppend(queue, [q], id);
    CopiesAppend(kept + fired, DropSeq(dropped), id);
    CopiesAppend(kept, fired, id);
  }

  lemma {:induction false} CopiesOfDrop(dropped: Option<QueuedSignal>, id: SignalId)
    ensures Copies(DropSeq(dropped), id) == if dropped.Some? && dropped.value.id == id then 1 else 0
  {
    if dropped.Some? { CopiesOfOne(dropped.value, id); }
  }

  lemma {:induction false} FiredHereIff(fired: seq<QueuedSignal>, id: SignalId)
    ensures FiredHere(fired, id) <==> Copies(fired, id) > 0
  {
    CopiesOf(fired, id);
    if FiredHere(fired, id) {
      var k :| 0 <= k < |fired| && fired[k].id == id;
      assert QueueIds(fired)[k] == id;
    }
    if id in QueueIds(fired) {
      var k :| 0 <= k < |fired| && QueueIds(fired)[k] == id;
      assert fired[k].id == id;
    }
  }

  ghost predicate TwiceIn(queue: seq<QueuedSignal>, id: SignalId) {
    exists i, j :: 0 <= i < j < |queue| && queue[i].id == id && queue[j].id == id
  }

  lemma {:induction false} TwiceIff(queue: seq<QueuedSignal>, id: SignalId)
    ensures TwiceIn(queue, id) <==> Copies(queue, id) >= 2
  {
    if queue != [] {
      var front, last := queue[..|queue| - 1], queue[|queue| - 1];
      assert queue == front + [last];
      TwiceIff(front, id);
      CopiesAppend(front, [last], id);
      CopiesOfOne(last, id);
      FiredHereIff(front, id);
      hide Copies;
      if TwiceIn(front, id) {
        var i, j :| 0 <= i < j < |front| && front[i].id == id && front[j].id == id;
        assert queue[i].id == id && queue[j].id == id;
      }
      if FiredHere(front, id) && last.id == id {
        var i :| 0 <= i < |front| && front[i].id == id;
        assert queue[i].id == id && queue[|front|].id == id;
      }
      if TwiceIn(queue, id) {
        var i, j :| 0 <= i < j < |queue| && queue[i].id == id && queue[j].id == id;
        assert front[i].id == id && (j < |front| ==> front[j].id == id);
      }
    }
  }

  // ---- the batch without the arrival's copies ------------------------------------------------------

  lemma {:induction false} WithoutSnoc(front: seq<QueuedSignal>, last: QueuedSignal, id: SignalId)
    ensures Without(front + [last], id) == if last.id != id then Without(front, id) + [last] else Without(front, id)
  {
    assert (front + [last])[..|front|] == front;
  }

  lemma {:induction false} WithoutCopies(fired: seq<QueuedSignal>, id: SignalId, other: SignalId)
    ensures |Without(fired, id)| == |fired| - Copies(fired, id)
    ensures Copies(Without(fired, id), other) == if other == id then 0 else Copies(fired, other)
  {
    if fired != [] {
      var front, last := fired[..|fired| - 1], fired[|fired| - 1];
      assert fired == front + [last];
      hide *;
      WithoutCopies(front, id, other);
      WithoutSnoc(front, last, id);
      CopiesAppend(front, [last], id);
      CopiesAppend(front, [last], other);
      CopiesAppend(Without(front, id), [last], other);
      CopiesOfOne(last, id);
      CopiesOfOne(last, other);
    }
  }

  /** Taking out the copies takes out so many of their ticket. */
  lemma {:induction false} WithoutTickets(fired: seq<QueuedSignal>, id: SignalId, t: Ticket, u: Ticket)
    requires forall k :: 0 <= k < |fired| && fired[k].id == id ==> TicketOf(fired[k]) == t
    requires t.id == id
    ensures multiset(Tickets(fired))[u] ==
              multiset(Tickets(Without(fired, id)))[u] + if u == t then Copies(fired, id) else 0
  {
    if fired != [] {
      var front, last := fired[..|fired| - 1], fired[|fired| - 1];
      assert fired == front + [last];
      assert TicketOf(last).id == last.id && forall k :: 0 <= k < |front| ==> front[k] == fired[k];
      hide *;
      WithoutTickets(front, id, t, u);
      WithoutSnoc(front, last, id);
      CopiesAppend(front, [last], id);
      CopiesOfOne(last, id);
      TicketsAppend(front, [last]);
      TicketsAppend(Without(front, id), [last]);
      TicketOfOne(last);
    }
  }

  lemma {:induction false} TicketsPermute(a: seq<QueuedSignal>, b: seq<QueuedSignal>)
    requires multiset(a) == multiset(b)
    ensures multiset(Tickets(a)) == multiset(Tickets(b))
  {
    MapPermutes(TicketOf, a, b);
  }

  lemma {:induction false} TicketsAppend(a: seq<QueuedSignal>, b: seq<QueuedSignal>)
    ensures multiset(Tickets(a + b)) == multiset(Tickets(a)) + multiset(Tickets(b))
  {
    assert Tickets(a + b) == Tickets(a) + Tickets(b);
  }

  lemma {:induction false} TicketOfOne(q: QueuedSignal)
    ensures multiset(Tickets([q])) == multiset{TicketOf(q)}
  {
    assert Tickets([q]) == [TicketOf(q)];
  }

  // ---- the account -------------------------------------------------------------------------------

  /** The cache holds the bodies of exactly the queued signals. */
  ghost predicate Mirrors(pending: map<SignalId, Signal>, queue: seq<QueuedSignal>) {
    && (forall q :: q in queue ==> Cached(pending, q))
    && (forall id :: id in pending ==> exists q :: q in queue && q.id == id)
  }

  /** The queue within its bound, its bodies and no others cached, none ever pushed out; what
      left left with its own body; and what arrived is what is queued and what left. */
  ghost predicate Account(w: World, c: RuntimeConfig) {
    && |w.gate.queue| <= c.gate.maxQueueDepth
    && Mirrors(w.pending, w.gate.queue)
    && Bodied(w.ledger) && w.backstops == 0
    && multiset(Tickets(w.ledger.arrived)) == multiset(Tickets(w.gate.queue)) + multiset(Tickets(w.ledger.Left()))
  }

  /** While every cached body is queued the cache is far below the backstop. */
  lemma {:induction false} CacheIsSmall(pending: map<SignalId, Signal>, queue: seq<QueuedSignal>)
    requires forall id :: id in pending ==> exists q :: q in queue && q.id == id
    ensures |pending| <= |queue|
    decreases |queue|
  {
    if queue == [] {
      assert pending.Keys == {};
      assert |pending| == |pending.Keys|;
    } else {
      var front, last := queue[..|queue| - 1], queue[|queue| - 1];
      var rest := pending - {last.id};
      forall id | id in rest ensures exists q :: q in front && q.id == id {
        var q :| q in queue && q.id == id;
        assert q in front;
      }
      CacheIsSmall(rest, front);
      assert pending.Keys <= rest.Keys + {last.id};
      SubsetSize(pending.Keys, rest.Keys + {last.id});
      assert |pending| == |pending.Keys| && |rest| == |rest.Keys|;
    }
  }

  // ---- one id at a time ----------------------------------------------------------------------------

  /** The mirror, as far as one id goes. */
  ghost predicate MirrorsAt(pending: map<SignalId, Signal>, queue: seq<QueuedSignal>, id: SignalId) {
    && (id in pending <==> Copies(queue, id) > 0)
    && forall x :: x in queue && x.id == id ==> Cached(pending, x)
  }

  lemma {:induction false} MirrorsIff(pending: map<SignalId, Signal>, queue: seq<QueuedSignal>)
    ensures Mirrors(pending, queue) <==> forall id :: MirrorsAt(pending, queue, id)
  {
    forall id ensures Copies(queue, id) > 0 <==> exists x :: x in queue && x.id == id { CopiesOf(queue, id); }
    hide Copies, Matches;
    if forall id :: MirrorsAt(pending, queue, id) {
      forall q | q in queue ensures Cached(pending, q) { assert MirrorsAt(pending, queue, q.id); }
      forall id | id in pending ensures exists q :: q in queue && q.id == id { assert MirrorsAt(pending, queue, id); }
    }
  }

  ghost predicate BodiedAt(pending: map<SignalId, Signal>, batch: seq<QueuedSignal>, a: Arrival, id: SignalId) {
    forall i :: 0 <= i < |batch| && batch[i].id == id ==> BodyAtHand(pending, batch, a, i)
  }

  lemma {:induction false} HasBodiesIff(pending: map<SignalId, Signal>, batch: seq<QueuedSignal>, a: Arrival)
    ensures HasBodies(pending, batch, a) <==> forall id :: BodiedAt(pending, batch, a, id)
  {
    hide BodyAtHand;
    if forall id :: BodiedAt(pending, batch, a, id) {
      forall i | 0 <= i < |batch| ensures BodyAtHand(pending, batch, a, i) { assert BodiedAt(pending, batch, a, batch[i].id); }
    }
  }

  /** Of an id that is not the arrival's, one body serves one copy. */
  lemma {:induction false} BodiedAtIff(pending: map<SignalId, Signal>, batch: seq<QueuedSignal>, a: Arrival,
          id: SignalId)
    requires !(a.Arrival? && a.signal.id == id)
    ensures BodiedAt(pending, batch, a, id) <==>
              Copies(batch, id) <= 1 && forall x :: x in batch && x.id == id ==> Cached(pending, x)
  {
    TwiceIff(batch, id);
    hide Copies, Matches, Cached;
    if BodiedAt(pending, batch, a, id) {
      forall x | x in batch && x.id == id ensures Cached(pending, x) {
        var i :| 0 <= i < |batch| && batch[i] == x;
        assert BodyAtHand(pending, batch, a, i);
      }
    }
    if TwiceIn(batch, id) {
      var i, j :| 0 <= i < j < |batch| && batch[i].id == id && batch[j].id == id;
      assert !BodyAtHand(pending, batch, a, j);
    }
  }

  /** Of an id that is not the arrival's, a step keeps mirror and bodies exactly if no copy
      leaves, or the only one. `gone` is what an eviction takes out before the batch. */
  lemma {:induction false} OtherIdIff(pending: map<SignalId, Signal>, pending': map<SignalId, Signal>,
          gone: set<SignalId>,
          queue: seq<QueuedSignal>, kept: seq<QueuedSignal>, batch: seq<QueuedSignal>, a: Arrival, id: SignalId)
    requires MirrorsAt(pending, queue, id) && !(a.Arrival? && a.signal.id == id)
    requires Copies(kept, id) + Copies(batch, id) + (if id in gone then 1 else 0) == Copies(queue, id)
    requires forall x :: (x in kept || x in batch) && x.id == id ==> x in queue
    requires id in pending' <==> id in pending && id !in gone && id !in QueueIds(batch)
    requires id in pending' ==> pending'[id] == pending[id]
    ensures MirrorsAt(pending', kept, id) && BodiedAt(pending - gone, batch, a, id) <==>
              Copies(batch, id) + (if id in gone then 1 else 0) == 0 || Copies(queue, id) == 1
  {
    BodiedAtIff(pending - gone, batch, a, id);
    CopiesOf(batch, id);
    CopiesOf(kept, id);
    hide Copies, BodiedAt, QueueIds;
  }

  /** Of the arrival's own id: exactly if its body is cached when and only when a copy stays. */
  lemma {:induction false} ArrivalIdIff(pending: map<SignalId, Signal>, pending': map<SignalId, Signal>,
          before: map<SignalId, Signal>,
          queue: seq<QueuedSignal>, kept: seq<QueuedSignal>, batch: seq<QueuedSignal>, s: Signal, plan: seq<Forward>,
          queued: bool)
    requires MirrorsAt(pending, queue, s.id)
    requires forall x :: (x in kept || x in batch) && x.id == s.id ==> Matches(x, s)
    requires s.id in pending ==> forall x :: x in kept && x.id == s.id ==> Matches(x, pending[s.id])
    requires s.id in pending' <==> queued || s.id in pending
    requires s.id in pending' ==> pending'[s.id] == if queued then s else pending[s.id]
    ensures MirrorsAt(pending', kept, s.id) && BodiedAt(before, batch, Arrival(s, plan), s.id) <==>
              (queued || Copies(queue, s.id) > 0 <==> Copies(kept, s.id) > 0)
  {
    CopiesOf(kept, s.id);
    hide Copies, Matches;
  }

  // ---- a poll -------------------------------------------------------------------------------------

  /** Everything in the batch was the only one queued under its id. */
  ghost predicate NoneHasATwin(queue: seq<QueuedSignal>, batch: seq<QueuedSignal>) {
    forall x :: x in batch ==> Copies(queue, x.id) == 1
  }

  lemma {:induction false} MovedOut(arrived: seq<QueuedSignal>, queue: seq<QueuedSignal>, left: seq<QueuedSignal>,
          kept: seq<QueuedSignal>, batch: seq<QueuedSignal>)
    requires multiset(Tickets(arrived)) == multiset(Tickets(queue)) + multiset(Tickets(left))
    requires multiset(queue) == multiset(kept) + multiset(batch)
    ensures multiset(Tickets(arrived)) == multiset(Tickets(kept)) + multiset(Tickets(left + batch))
  {
    assert multiset(queue) == multiset(kept + batch);
    hide *;
    TicketsPermute(queue, kept + batch);
    TicketsAppend(kept, batch);
    TicketsAppend(left, batch);
  }

  lemma {:induction false} PolledIdIff(pending: map<SignalId, Signal>, pending': map<SignalId, Signal>,
          queue: seq<QueuedSignal>,
          kept: seq<QueuedSignal>, batch: seq<QueuedSignal>, id: SignalId)
    requires MirrorsAt(pending, queue, id) && multiset(queue) == multiset(kept) + multiset(batch)
    requires id in pending' <==> id in pending && id !in QueueIds(batch)
    requires id in pending' ==> pending'[id] == pending[id]
    ensures MirrorsAt(pending', kept, id) && BodiedAt(pending, batch, NoArrival, id) <==>
              Copies(batch, id) == 0 || Copies(queue, id) == 1
  {
    assert multiset(queue) == multiset(kept + batch);
    assert forall x :: x in kept || x in batch ==> x in multiset(kept) + multiset(batch);
    assert forall x :: x in kept || x in batch ==> x in queue;
    assert pending - {} == pending;
    hide MirrorsAt, BodiedAt, Copies, QueueIds;
    CopiesPermute(queue, kept + batch, id);
    CopiesAppend(kept, batch, id);
    OtherIdIff(pending, pending', {}, queue, kept, batch, NoArrival, id);
  }

  lemma {:induction false} PolledMirrorIff(pending: map<SignalId, Signal>, pending': map<SignalId, Signal>,
          queue: seq<QueuedSignal>,
          kept: seq<QueuedSignal>, batch: seq<QueuedSignal>)
    requires Mirrors(pending, queue) && multiset(queue) == multiset(kept) + multiset(batch)
    requires forall id :: id in pending' <==> id in pending && id !in QueueIds(batch)
    requires forall id :: id in pending' ==> pending'[id] == pending[id]
    ensures Mirrors(pending', kept) && HasBodies(pending, batch, NoArrival) <==> NoneHasATwin(queue, batch)
  {
    MirrorsIff(pending, queue);
    MirrorsIff(pending', kept);
    HasBodiesIff(pending, batch, NoArrival);
    hide Mirrors, MirrorsAt, HasBodies, BodiedAt, Copies, QueueIds;
    forall id ensures MirrorsAt(pending', kept, id) && BodiedAt(pending, batch, NoArrival, id) <==>
                        Copies(batch, id) == 0 || Copies(queue, id) == 1
    {
      PolledIdIff(pending, pending', queue, kept, batch, id);
    }
    forall id ensures Copies(batch, id) == 0 <==> forall x :: x in batch ==> x.id != id { CopiesOf(batch, id); }
  }

  lemma {:induction false} ReleasedKeepsAccountIff(w: World, gate: Gate, batch: seq<QueuedSignal>, planner: Planner,
          link: Link,
          c: RuntimeConfig)
    requires Account(w, c) && |gate.queue| <= |w.gate.queue|
    requires multiset(w.gate.queue) == multiset(gate.queue) + multiset(batch)
    ensures Account(ReleaseBatch(w.(gate := gate), batch, NoArrival, Guard, planner, link, c), c) <==>
              NoneHasATwin(w.gate.queue, batch)
  {
    var w1 := w.(gate := gate);
    hide Bodied, Mirrors, QueueIds, HasBodies, ReleaseBatch, Tickets, NoneHasATwin;
    ReleaseBatchEffect(w1, batch, NoArrival, Guard, planner, link, c);
    var w' := ReleaseBatch(w1, batch, NoArrival, Guard, planner, link, c);
    PolledMirrorIff(w.pending, w'.pending, w.gate.queue, gate.queue, batch);
    MovedOut(w.ledger.arrived, w.gate.queue, w.ledger.Left(), gate.queue, batch);
  }

  /** A poll keeps the account exactly when nothing it releases has a twin in the queue: two
      released copies share one body, and one left behind is left without. */
  lemma {:induction false} PollKeepsAccountIff(w: World, now: u64, planner: Planner, link: Link, c: RuntimeConfig)
    requires c.gate.IsValid() && Account(w, c)
    ensures Account(PollGate(w, now, planner, link, c), c) <==>
              NoneHasATwin(w.gate.queue, DrainIfStarving(c.gate, w.gate, now).1)
  {
    var (gate, batch) := DrainIfStarving(c.gate, w.gate, now);
    DrainEffect(c.gate, w.gate, now);
    hide DrainIfStarving, Account, ReleaseBatch, NoneHasATwin;
    ReleasedKeepsAccountIff(w, gate, batch, planner, link, c);
  }

  // ---- an arrival ---------------------------------------------------------------------------------

  /** The arrival, or a copy of it, is what the queue had no room for. */
  predicate TurnsAway(out: AdmitOutcome, id: SignalId) {
    out.dropped.Some? && out.dropped.value.id == id
  }

  /** Whether the copies of an arrival are kept track of, with `queued` of them in the queue
      before and `fired` of them now. One receipt answers a refusal, so no other copy may leave
      with it; and an arrival brings its own body, so all may leave if none was cached before,
      and otherwise all but one. */
  predicate TwinsAreKept(queued: nat, fired: nat, turnedAway: bool, routeless: bool) {
    if turnedAway then fired == 0
    else if routeless then fired <= 1
    else queued == 0 || fired <= queued
  }

  /** Nothing that leaves under another id has a twin in the queue. */
  ghost predicate OthersHaveNoTwin(queue: seq<QueuedSignal>, leaving: seq<QueuedSignal>, id: SignalId) {
    forall x :: x in leaving && x.id != id ==> Copies(queue, x.id) == 1
  }

  /** What leaves under other ids had no twin in the queue, and the arrival's own copies are
      kept track of. */
  ghost predicate ArrivalIsKept(queue: seq<QueuedSignal>, s: Signal, out: AdmitOutcome, planner: Planner) {
    && OthersHaveNoTwin(queue, out.fired + DropSeq(out.dropped), s.id)
    && TwinsAreKept(Copies(queue, s.id), Copies(out.fired, s.id), TurnsAway(out, s.id),
                    s.delivery.RequiresReceipt() && planner(s) == [])
  }

  /** The world once the gate has taken the arrival. */
  function Taken(w: World, s: Signal, now: u64, gate: Gate, c: RuntimeConfig): World {
    w.(gate := gate, seen := w.seen[s.id := Expiry(now, c.rules.dedupSecs)],
       ledger := w.ledger.(arrived := w.ledger.arrived + [QueuedOf(s, now)]))
  }

  /** A cached copy agrees with the signal. */
  predicate Agrees(pending: map<SignalId, Signal>, s: Signal) {
    s.id in pending ==> pending[s.id].origin == s.origin && pending[s.id].delivery == s.delivery
  }

  /** What the disposition comes to. */
  ghost predicate Disposes(d: Disposition, s: Signal, out: AdmitOutcome, routeless: bool) {
    var f := Copies(out.fired, s.id);
    && (d.rejected.Some? <==> TurnsAway(out, s.id) || (f > 0 && routeless))
    && (d.queued <==> !TurnsAway(out, s.id) && f == 0)
    && d.handleLocally == (if d.rejected.Some? then Without(out.fired, s.id) else out.fired)
    && d.evicted == (if out.dropped.Some? && !TurnsAway(out, s.id) then Some(Evicted(out.dropped.value, QueueFull)) else None)
  }

  lemma {:induction false} DisposesSo(s: Signal, out: AdmitOutcome, planner: Planner)
    ensures Disposes(Dispose(s, out, planner), s, out, s.delivery.RequiresReceipt() && planner(s) == [])
  {
    FiredHereIff(out.fired, s.id);
    if Copies(out.fired, s.id) == 0 { WithoutNone(out.fired, s.id); }
    hide Copies, FiredHere, Without;
  }

  lemma {:induction false} WithoutNone(fired: seq<QueuedSignal>, id: SignalId)
    requires Copies(fired, id) == 0
    ensures Without(fired, id) == fired
  {
    FiredHereIff(fired, id);
    if fired != [] {
      var front, last := fired[..|fired| - 1], fired[|fired| - 1];
      assert fired == front + [last];
      FiredHereIff([last], id);
      hide FiredHere, Copies, Without;
      CopiesAppend(front, [last], id);
      CopiesOfOne(last, id);
      WithoutNone(front, id);
      WithoutSnoc(front, last, id);
    }
  }

  // ---- what leaves is told ---------------------------------------------------------------------------

  predicate TicketsAreKept(fired: nat, turnedAway: bool, routeless: bool) {
    if turnedAway then fired == 0 else routeless ==> fired <= 1
  }

  /** A refusal leaves one ticket of the arrival's where all its fired copies were to. */
  lemma {:induction false} LeavingTickets(d: Disposition, s: Signal, now: u64, out: AdmitOutcome, routeless: bool)
    requires Disposes(d, s, out, routeless)
    requires forall k :: 0 <= k < |out.fired| && out.fired[k].id == s.id ==> TicketOf(out.fired[k]) == TicketOf(QueuedOf(s, now))
    requires TurnsAway(out, s.id) ==> TicketOf(out.dropped.value) == TicketOf(QueuedOf(s, now))
    requires TicketsAreKept(Copies(out.fired, s.id), TurnsAway(out, s.id), routeless)
    ensures multiset(Tickets(Leaving(d, s, now))) == multiset(Tickets(out.fired)) + multiset(Tickets(DropSeq(out.dropped)))
  {
    var q, e, rest := QueuedOf(s, now), DropSeq(out.dropped), Without(out.fired, s.id);
    LeavingShape(d, s, now, out, routeless);
    if TurnsAway(out, s.id) {
      WithoutNone(out.fired, s.id);
      assert e == [out.dropped.value];
      hide *;
      TicketsAppend([q], out.fired);
      TicketOfOne(q);
      TicketOfOne(out.dropped.value);
    } else if Copies(out.fired, s.id) == 1 && routeless {
      WithoutOne(out.fired, q);
      hide *;
      TicketsAppend(e, [q] + rest);
      TicketsAppend([q], rest);
      TicketOfOne(q);
    } else {
      assert Copies(out.fired, s.id) == 0 || !routeless;
      hide *;
      TicketsAppend(e, out.fired);
    }
  }

  lemma {:induction false} LeavingShape(d: Disposition, s: Signal, now: u64, out: AdmitOutcome, routeless: bool)
    requires Disposes(d, s, out, routeless)
    ensures var q, e, rest := QueuedOf(s, now), DropSeq(out.dropped), Without(out.fired, s.id);
            Leaving(d, s, now) == if TurnsAway(out, s.id) then [q] + rest
                                  else if Copies(out.fired, s.id) > 0 && routeless then e + ([q] + rest) else e + out.fired
  {
    hide Copies, Without;
  }

  /** One fired copy, taken out and the arrival put in its place: the same tickets. */
  lemma {:induction false} WithoutOne(fired: seq<QueuedSignal>, q: QueuedSignal)
    requires Copies(fired, q.id) == 1
    requires forall k :: 0 <= k < |fired| && fired[k].id == q.id ==> TicketOf(fired[k]) == TicketOf(q)
    ensures multiset(Tickets(fired)) == multiset{TicketOf(q)} + multiset(Tickets(Without(fired, q.id)))
  {
    assert TicketOf(q).id == q.id;
    hide *;
    forall u ensures multiset(Tickets(fired))[u] == (multiset{TicketOf(q)} + multiset(Tickets(Without(fired, q.id))))[u] {
      WithoutTickets(fired, q.id, TicketOf(q), u);
    }
  }

  lemma {:induction false} LeavingSize(d: Disposition, s: Signal, now: u64, out: AdmitOutcome, routeless: bool)
    requires Disposes(d, s, out, routeless)
    ensures |Leaving(d, s, now)| == |out.fired| + |DropSeq(out.dropped)| <==>
              TicketsAreKept(Copies(out.fired, s.id), TurnsAway(out, s.id), routeless)
  {
    WithoutCopies(out.fired, s.id, s.id);
    hide Copies, Without;
  }

  lemma {:induction false} TicketsPart(queue: seq<QueuedSignal>, q: QueuedSignal, kept: seq<QueuedSignal>,
          gone: seq<QueuedSignal>)
    requires multiset(queue) + multiset{q} == multiset(kept) + multiset(gone)
    ensures multiset(Tickets(queue)) + multiset{TicketOf(q)} == multiset(Tickets(kept)) + multiset(Tickets(gone))
    ensures |queue| + 1 == |kept| + |gone|
  {
    assert multiset(queue + [q]) == multiset(kept + gone);
    assert |queue + [q]| == |multiset(queue + [q])| == |multiset(kept + gone)| == |kept + gone|;
    hide *;
    TicketsPermute(queue + [q], kept + gone);
    TicketsAppend(queue, [q]);
    TicketsAppend(kept, gone);
    TicketOfOne(q);
  }

  lemma {:induction false} AccountsAdd(arrived: seq<QueuedSignal>, queue: seq<QueuedSignal>, left: seq<QueuedSignal>,
          q: QueuedSignal, kept: seq<QueuedSignal>, leaving: seq<QueuedSignal>)
    requires multiset(Tickets(arrived)) == multiset(Tickets(queue)) + multiset(Tickets(left))
    requires multiset(Tickets(queue)) + multiset{TicketOf(q)} == multiset(Tickets(kept)) + multiset(Tickets(leaving))
    ensures multiset(Tickets(arrived + [q])) == multiset(Tickets(kept)) + multiset(Tickets(left + leaving))
  {
    Rebalance(multiset(Tickets(arrived)), multiset(Tickets(queue)), multiset(Tickets(left)), multiset{TicketOf(q)},
              multiset(Tickets(kept)), multiset(Tickets(leaving)));
    hide *;
    TicketsAppend(arrived, [q]);
    TicketsAppend(left, leaving);
    TicketOfOne(q);
  }

  lemma {:induction false} AccountsSize(arrived: seq<QueuedSignal>, queue: seq<QueuedSignal>, left: seq<QueuedSignal>)
    requires multiset(Tickets(arrived)) == multiset(Tickets(queue)) + multiset(Tickets(left))
    ensures |arrived| == |queue| + |left|
  {
    assert |arrived| == |multiset(Tickets(arrived))| == |multiset(Tickets(queue))| + |multiset(Tickets(left))|;
  }

  /** The tickets add up after the step exactly if each fired copy was told of. */
  lemma {:induction false} TicketsIff(arrived: seq<QueuedSignal>, queue: seq<QueuedSignal>, left: seq<QueuedSignal>,
          kept: seq<QueuedSignal>, d: Disposition, s: Signal, now: u64, out: AdmitOutcome, routeless: bool)
    requires multiset(Tickets(arrived)) == multiset(Tickets(queue)) + multiset(Tickets(left))
    requires multiset(queue) + multiset{QueuedOf(s, now)} == multiset(kept) + multiset(out.fired) + DroppedSet(out.dropped)
    requires Disposes(d, s, out, routeless)
    requires forall k :: 0 <= k < |out.fired| && out.fired[k].id == s.id ==> TicketOf(out.fired[k]) == TicketOf(QueuedOf(s, now))
    requires TurnsAway(out, s.id) ==> TicketOf(out.dropped.value) == TicketOf(QueuedOf(s, now))
    ensures multiset(Tickets(arrived + [QueuedOf(s, now)])) == multiset(Tickets(kept)) + multiset(Tickets(left + Leaving(d, s, now)))
              <==> TicketsAreKept(Copies(out.fired, s.id), TurnsAway(out, s.id), routeless)
  {
    var q := QueuedOf(s, now);
    var gone := out.fired + DropSeq(out.dropped);
    assert multiset(queue) + multiset{q} == multiset(kept) + multiset(gone);
    hide Disposes, Copies, Leaving, Tickets, TicketOf, DropSeq, DroppedSet, QueuedOf, TicketsAreKept, TurnsAway;
    TicketsPart(queue, q, kept, gone);
    TicketsAppend(out.fired, DropSeq(out.dropped));
    LeavingSize(d, s, now, out, routeless);
    AccountsSize(arrived, queue, left);
    if TicketsAreKept(Copies(out.fired, s.id), TurnsAway(out, s.id), routeless) {
      LeavingTickets(d, s, now, out, routeless);
      AccountsAdd(arrived, queue, left, q, kept, Leaving(d, s, now));
    } else if multiset(Tickets(arrived + [q])) == multiset(Tickets(kept)) + multiset(Tickets(left + Leaving(d, s, now))) {
      AccountsSize(arrived + [q], kept, left + Leaving(d, s, now));
    }
  }

  // ---- the cache after an arrival ----------------------------------------------------------------------

  /** What the gate made of the queue and the arrival. */
  ghost predicate Divided(queue: seq<QueuedSignal>, q: QueuedSignal, kept: seq<QueuedSignal>, out: AdmitOutcome) {
    multiset(queue) + multiset{q} == multiset(kept) + multiset(out.fired) + DroppedSet(out.dropped)
  }

  lemma {:induction false} DividedMembers(queue: seq<QueuedSignal>, q: QueuedSignal, kept: seq<QueuedSignal>,
          out: AdmitOutcome)
    requires Divided(queue, q, kept, out)
    ensures forall x :: x in kept || x in out.fired || x in DropSeq(out.dropped) ==> x in queue || x == q
    ensures out.dropped.Some? ==> out.dropped.value in DropSeq(out.dropped)
  {
    forall x | x in kept || x in out.fired || x in DropSeq(out.dropped) ensures x in queue || x == q {
      assert x in multiset(kept) + multiset(out.fired) + DroppedSet(out.dropped);
      assert x in multiset(queue) + multiset{q};
    }
  }

  /** Every copy among them agrees with the arrival. */
  lemma {:induction false} CopiesMatch(pending: map<SignalId, Signal>, queue: seq<QueuedSignal>, s: Signal, now: u64,
          x: QueuedSignal)
    requires MirrorsAt(pending, queue, s.id) && Agrees(pending, s)
    requires x in queue || x == QueuedOf(s, now)
    requires x.id == s.id
    ensures Matches(x, s) && TicketOf(x) == TicketOf(QueuedOf(s, now))
    ensures s.id in pending ==> Matches(x, pending[s.id])
  {
    if x in queue {
      assert Cached(pending, x);
    } else if s.id in pending {
      CopiesOf(queue, s.id);
      var y :| y in queue && y.id == s.id;
      assert Cached(pending, y);
    }
    hide Copies;
  }

  lemma {:induction false} HandledCopies(d: Disposition, s: Signal, out: AdmitOutcome, routeless: bool, id: SignalId)
    requires Disposes(d, s, out, routeless) && id != s.id
    ensures Copies(d.handleLocally, id) == Copies(out.fired, id)
    ensures Copies(DropSeq(out.dropped), id) == if id in EvictedIds(d) then 1 else 0
    ensures s.id !in EvictedIds(d)
    ensures forall x :: x in d.handleLocally ==> x in out.fired
  {
    WithoutCopies(out.fired, s.id, id);
    CopiesOfDrop(out.dropped, id);
    hide Copies;
  }

  lemma {:induction false} ArrivedOtherIff(pending: map<SignalId, Signal>, pending': map<SignalId, Signal>,
          queue: seq<QueuedSignal>,
          kept: seq<QueuedSignal>, d: Disposition, s: Signal, now: u64, out: AdmitOutcome, routeless: bool,
          id: SignalId)
    requires MirrorsAt(pending, queue, id) && Divided(queue, QueuedOf(s, now), kept, out) && Disposes(d, s, out, routeless)
    requires CacheAfter(pending, pending', d, s) && id != s.id
    ensures MirrorsAt(pending', kept, id) && BodiedAt(pending - EvictedIds(d), d.handleLocally, Arrival(s, d.forwardTo), id) <==>
              Copies(out.fired, id) + Copies(DropSeq(out.dropped), id) == 0 || Copies(queue, id) == 1
  {
    var a := Arrival(s, d.forwardTo);
    DividedMembers(queue, QueuedOf(s, now), kept, out);
    HandledCopies(d, s, out, routeless, id);
    CopiesAdd(queue, QueuedOf(s, now), kept, out.fired, out.dropped, id);
    assert id in pending' <==> id in pending && id !in EvictedIds(d) && id !in QueueIds(d.handleLocally);
    assert id in pending' ==> pending'[id] == pending[id];
    hide MirrorsAt, BodiedAt, Copies, QueueIds, EvictedIds, CacheAfter, Disposes, Divided, DropSeq;
    OtherIdIff(pending, pending', EvictedIds(d), queue, kept, d.handleLocally, a, id);
  }

  lemma {:induction false} ArrivedOwnIff(pending: map<SignalId, Signal>, pending': map<SignalId, Signal>,
          queue: seq<QueuedSignal>,
          kept: seq<QueuedSignal>, d: Disposition, s: Signal, now: u64, out: AdmitOutcome, routeless: bool)
    requires MirrorsAt(pending, queue, s.id) && Divided(queue, QueuedOf(s, now), kept, out) && Disposes(d, s, out, routeless)
    requires CacheAfter(pending, pending', d, s) && Agrees(pending, s)
    ensures MirrorsAt(pending', kept, s.id) && BodiedAt(pending - EvictedIds(d), d.handleLocally, Arrival(s, d.forwardTo), s.id) <==>
              (d.queued || Copies(queue, s.id) > 0 <==> Copies(kept, s.id) > 0)
  {
    DividedMembers(queue, QueuedOf(s, now), kept, out);
    HandledCopies(d, s, out, routeless, s.id + 1);
    forall x | (x in kept || x in d.handleLocally) && x.id == s.id
      ensures Matches(x, s) && (s.id in pending ==> Matches(x, pending[s.id]))
    {
      CopiesMatch(pending, queue, s, now, x);
    }
    assert s.id in pending' <==> d.queued || s.id in pending;
    assert s.id in pending' ==> pending'[s.id] == if d.queued then s else pending[s.id];
    hide MirrorsAt, BodiedAt, Copies, QueueIds, EvictedIds, CacheAfter, Disposes, Divided, DropSeq, Matches, Agrees;
    ArrivalIdIff(pending, pending', pending - EvictedIds(d), queue, kept, d.handleLocally, s, d.forwardTo, d.queued);
  }

  lemma {:induction false} OthersIff(queue: seq<QueuedSignal>, fired: seq<QueuedSignal>, dropped: seq<QueuedSignal>,
          id: SignalId)
    ensures OthersHaveNoTwin(queue, fired + dropped, id) <==>
              forall other :: other != id ==> Copies(fired, other) + Copies(dropped, other) == 0 || Copies(queue, other) == 1
  {
    forall other ensures Copies(fired, other) + Copies(dropped, other) == 0 <==>
                           forall x :: x in fired + dropped ==> x.id != other
    {
      CopiesAppend(fired, dropped, other);
      CopiesOf(fired + dropped, other);
    }
    hide Copies;
  }

  lemma {:induction false} ArrivedMirrorIff(pending: map<SignalId, Signal>, pending': map<SignalId, Signal>,
          queue: seq<QueuedSignal>,
          kept: seq<QueuedSignal>, d: Disposition, s: Signal, now: u64, out: AdmitOutcome, routeless: bool)
    requires Mirrors(pending, queue) && Divided(queue, QueuedOf(s, now), kept, out) && Disposes(d, s, out, routeless)
    requires CacheAfter(pending, pending', d, s) && Agrees(pending, s)
    ensures Mirrors(pending', kept) && HasBodies(pending - EvictedIds(d), d.handleLocally, Arrival(s, d.forwardTo)) <==>
              && OthersHaveNoTwin(queue, out.fired + DropSeq(out.dropped), s.id)
              && (d.queued || Copies(queue, s.id) > 0 <==> Copies(kept, s.id) > 0)
  {
    var a := Arrival(s, d.forwardTo);
    var before := pending - EvictedIds(d);
    MirrorsIff(pending, queue);
    MirrorsIff(pending', kept);
    HasBodiesIff(before, d.handleLocally, a);
    OthersIff(queue, out.fired, DropSeq(out.dropped), s.id);
    hide Mirrors, MirrorsAt, HasBodies, BodiedAt, Copies, CacheAfter, Disposes, Divided, DropSeq, Agrees, EvictedIds, OthersHaveNoTwin;
    ArrivedOwnIff(pending, pending', queue, kept, d, s, now, out, routeless);
    forall id | id != s.id
      ensures MirrorsAt(pending', kept, id) && BodiedAt(before, d.handleLocally, a, id) <==>
                Copies(out.fired, id) + Copies(DropSeq(out.dropped), id) == 0 || Copies(queue, id) == 1
    {
      ArrivedOtherIff(pending, pending', queue, kept, d, s, now, out, routeless, id);
    }
  }

  // ---- exactly when an arrival keeps the account ---------------------------------------------------------

  /** A body for the copies that stay, and a ticket told for each that leaves. */
  lemma {:induction false} TwinsCount(queued: nat, fired: nat, kept: int, turnedAway: bool, routeless: bool)
    requires kept >= 0 && kept + fired + (if turnedAway then 1 else 0) == queued + 1
    ensures TwinsAreKept(queued, fired, turnedAway, routeless) <==>
              && TicketsAreKept(fired, turnedAway, routeless)
              && ((!turnedAway && fired == 0) || queued > 0 <==> kept > 0)
  {
  }

  lemma {:induction false} AdmittedKeepsAccountIff(w: World, s: Signal, now: u64, gate: Gate, out: AdmitOutcome,
          planner: Planner, link: Link, c: RuntimeConfig)
    requires c.gate.IsValid() && Account(w, c) && Agrees(w.pending, s)
    requires OfferEffect(c.gate, w.gate, QueuedOf(s, now), now, gate, out)
    ensures Account(Act(Taken(w, s, now, gate, c), s, now, Dispose(s, out, planner), planner, link, c), c) <==>
              ArrivalIsKept(w.gate.queue, s, out, planner)
  {
    var q, d := QueuedOf(s, now), Dispose(s, out, planner);
    var routeless := s.delivery.RequiresReceipt() && planner(s) == [];
    var queue, kept := w.gate.queue, gate.queue;
    var w1 := Taken(w, s, now, gate, c);
    var w' := Act(w1, s, now, d, planner, link, c);
    CacheIsSmall(w.pending, queue);
    DisposesSo(s, out, planner);
    assert Divided(queue, q, kept, out);
    assert Bodied(w1.ledger) && w1.ledger.Left() == w.ledger.Left() && w1.ledger.arrived == w.ledger.arrived + [q];
    assert ArrivalIsKept(queue, s, out, planner) <==>
             && OthersHaveNoTwin(queue, out.fired + DropSeq(out.dropped), s.id)
             && TwinsAreKept(Copies(queue, s.id), Copies(out.fired, s.id), TurnsAway(out, s.id), routeless);
    assert d.queued <==> !TurnsAway(out, s.id) && Copies(out.fired, s.id) == 0;
    FiredMatch(w.pending, queue, s, now, kept, out);
    CopiesOfDrop(out.dropped, s.id);
    CopiesAdd(queue, q, kept, out.fired, out.dropped, s.id);
    TwinsCount(Copies(queue, s.id), Copies(out.fired, s.id), Copies(kept, s.id), TurnsAway(out, s.id), routeless);
    hide Bodied, Dispose, Act, Mirrors, Copies, Tickets, TicketOf, HasBodies, CacheAfter, Leaving, EvictedIds, Disposes, ArrivalIsKept,
         OthersHaveNoTwin, TwinsAreKept, TicketsAreKept, TurnsAway, DropSeq, Agrees;
    ActIsExact(w1, s, now, d, planner, link, c);
    ArrivedMirrorIff(w.pending, w'.pending, queue, kept, d, s, now, out, routeless);
    TicketsIff(w.ledger.arrived, queue, w.ledger.Left(), kept, d, s, now, out, routeless);
  }

  lemma {:induction false} FiredMatch(pending: map<SignalId, Signal>, queue: seq<QueuedSignal>, s: Signal, now: u64,
          kept: seq<QueuedSignal>, out: AdmitOutcome)
    requires Mirrors(pending, queue) && Agrees(pending, s) && Divided(queue, QueuedOf(s, now), kept, out)
    ensures forall k :: 0 <= k < |out.fired| && out.fired[k].id == s.id ==> TicketOf(out.fired[k]) == TicketOf(QueuedOf(s, now))
    ensures TurnsAway(out, s.id) ==> TicketOf(out.dropped.value) == TicketOf(QueuedOf(s, now))
  {
    MirrorsIff(pending, queue);
    DividedMembers(queue, QueuedOf(s, now), kept, out);
    hide Mirrors, MirrorsAt, Divided, TicketOf, Agrees;
    forall k | 0 <= k < |out.fired| && out.fired[k].id == s.id ensures TicketOf(out.fired[k]) == TicketOf(QueuedOf(s, now)) {
      assert out.fired[k] in out.fired;
      CopiesMatch(pending, queue, s, now, out.fired[k]);
    }
    if TurnsAway(out, s.id) { CopiesMatch(pending, queue, s, now, out.dropped.value); }
  }

  /** A refusal by the rules keeps the account. */
  lemma {:induction false} RefusedKeepsAccount(w: World, s: Signal, now: u64, reason: RejectReason, planner: Planner,
          link: Link,
          c: RuntimeConfig)
    requires c.gate.IsValid() && Account(w, c)
    ensures Account(Act(Taken(w, s, now, w.gate, c), s, now, Refuse(s, reason), planner, link, c), c)
  {
    var q, d := QueuedOf(s, now), Refuse(s, reason);
    var w1 := Taken(w, s, now, w.gate, c);
    CacheIsSmall(w.pending, w.gate.queue);
    assert Bodied(w1.ledger) && w1.ledger.Left() == w.ledger.Left() && w1.ledger.arrived == w.ledger.arrived + [q];
    assert Leaving(d, s, now) == [q] && EvictedIds(d) == {} && d.handleLocally == [] && !d.queued;
    assert w.pending - {} == w.pending;
    hide Bodied, Act, Mirrors, Tickets, TicketOf, Leaving, EvictedIds;
    ActIsExact(w1, s, now, d, planner, link, c);
    var w' := Act(w1, s, now, d, planner, link, c);
    assert w'.pending == w.pending;
    TicketsPart(w.gate.queue, q, w.gate.queue, [q]);
    AccountsAdd(w.ledger.arrived, w.gate.queue, w.ledger.Left(), q, w.gate.queue, [q]);
  }

  /** The gate is offered the arrival. */
  predicate IsOffered(w: World, s: Signal, now: u64, c: RuntimeConfig) {
    !IsLive(w.seen, s.id, now) && CheckPropagable(s, c.rules.local, c.rules.minPropagationWeight).None?
  }

  /** An arrival keeps the account exactly when it is a duplicate, is refused by the rules, or
      is kept track of by what the gate then does: whatever fires, drops and policies, and
      however many copies of it or of anything else are queued. */
  lemma {:induction false} ArriveKeepsAccountIff(w: World, s: Signal, weight: real, now: u64, draw: real,
          planner: Planner,
          link: Link, c: RuntimeConfig)
    requires c.gate.IsValid() && Account(w, c) && (IsOffered(w, s, now, c) ==> Agrees(w.pending, s))
    ensures Account(Arrive(w, s, weight, now, draw, planner, link, c), c) <==>
              (IsOffered(w, s, now, c) ==>
                ArrivalIsKept(w.gate.queue, s, Admit(c.gate, w.gate, QueuedOf(s, now), weight, now, draw).1, planner))
  {
    var verdict := CheckPropagable(s, c.rules.local, c.rules.minPropagationWeight);
    var (w1, d) := Receive(w, s, weight, now, draw, planner, c);
    var (gate, out) := Admit(c.gate, w.gate, QueuedOf(s, now), weight, now, draw);
    AdmitEffect(c.gate, w.gate, QueuedOf(s, now), weight, now, draw);
    if IsLive(w.seen, s.id, now) {
      DuplicateDoesNothing(w, s, now, planner, link, c);
    } else if verdict.Some? {
      assert w1 == Taken(w, s, now, w.gate, c) && d == Refuse(s, verdict.value);
      hide Account, Admit, Act, ArrivalIsKept;
      RefusedKeepsAccount(w, s, now, verdict.value, planner, link, c);
    } else {
      assert w1 == Taken(w, s, now, gate, c) && d == Dispose(s, out, planner);
      hide Account, Admit, Act, OfferEffect, Dispose, ArrivalIsKept;
      AdmittedKeepsAccountIff(w, s, now, gate, out, planner, link, c);
    }
  }

  lemma {:induction false} DuplicateDoesNothing(w: World, s: Signal, now: u64, planner: Planner, link: Link,
          c: RuntimeConfig)
    ensures Act(w, s, now, NOTHING, planner, link, c) == w
  {
  }

  // ---- exactly when a step keeps the account ----------------------------------------------------------

  /** Nothing the input makes leave shares a body it needs, and every copy of an arrival that
      leaves is told of. Decided by the state before and the gate's own outcome. */
  ghost predicate IsKeptTrackOf(w: World, input: Input, c: RuntimeConfig)
    requires c.gate.IsValid()
  {
    match input
    case Arrives(s, weight, now, draw, planner, _) =>
      IsOffered(w, s, now, c) ==>
        ArrivalIsKept(w.gate.queue, s, Admit(c.gate, w.gate, QueuedOf(s, now), weight, now, draw).1, planner)
    case Polls(now, _, _) => NoneHasATwin(w.gate.queue, DrainIfStarving(c.gate, w.gate, now).1)
    case Checkpoints(_) => true
  }

  /** An arrival offered to the gate agrees with its cached copy, if it has one. */
  ghost predicate AgreesWithCopy(w: World, input: Input, c: RuntimeConfig) {
    input.Arrives? && IsOffered(w, input.signal, input.at, c) ==> Agrees(w.pending, input.signal)
  }

  /** From any world whose account holds, whatever is queued how many times over, the step
      keeps the account if and only if its input is kept track of. */
  lemma {:induction false} AccountSurvivesIff(w: World, input: Input, c: RuntimeConfig)
    requires c.gate.IsValid() && Account(w, c) && AgreesWithCopy(w, input, c)
    ensures Account(Next(w, input, c), c) <==> IsKeptTrackOf(w, input, c)
  {
    match input
    case Arrives(s, weight, now, draw, planner, link) =>
      hide Account, IsOffered, Arrive, Admit, ArrivalIsKept;
      ArriveKeepsAccountIff(w, s, weight, now, draw, planner, link, c);
    case Polls(now, planner, link) =>
      hide Account, PollGate, DrainIfStarving, NoneHasATwin;
      PollKeepsAccountIff(w, now, planner, link, c);
    case Checkpoints(now) =>
  }
}
