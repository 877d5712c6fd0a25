/** Runs of the runtime: exactly when every arrival that is not a duplicate gets its one event
    and, if acknowledged, its one receipt attempt, each released signal its body, and the cache the
    bodies of the queue, at every step. */
module RuntimeRuns {
  import opened Base
  import opened Activation
  import opened Signals
  import opened Store
  import opened Nodes
  import opened Reception
  import opened Runtime
  import opened RuntimeLedger
  import opened RuntimeSteps
  import opened RuntimeAccount
  import opened Provenance

  // ---- which runs keep the account ----------------------------------------------------------------

  ghost predicate IsHarmless(w: World, input: Input, c: RuntimeConfig)
    requires c.gate.IsValid()
  {
    AgreesWithCopy(w, input, c) && IsKeptTrackOf(w, input, c)
  }

  ghost predicate HarmlessRun(inputs: seq<Input>, c: RuntimeConfig)
    requires c.gate.IsValid()
  {
    forall n :: 0 <= n < |inputs| ==> IsHarmless(After(inputs[..n], c), inputs[n], c)
  }

  lemma {:induction false} StartIsSound(c: RuntimeConfig)
    requires c.gate.IsValid()
    ensures Account(Start(c), c)
  {
  }

  lemma {:induction false} HarmlessFront(inputs: seq<Input>, c: RuntimeConfig)
    requires c.gate.IsValid() && inputs != [] && HarmlessRun(inputs, c)
    ensures HarmlessRun(inputs[..|inputs| - 1], c)
    ensures IsHarmless(After(inputs[..|inputs| - 1], c), inputs[|inputs| - 1], c)
  {
    var front := inputs[..|inputs| - 1];
    hide IsHarmless, After;
    forall n | 0 <= n < |front| ensures IsHarmless(After(front[..n], c), front[n], c) { assert front[..n] == inputs[..n]; }
  }

  lemma {:induction false} HarmlessSnoc(front: seq<Input>, last: Input, c: RuntimeConfig)
    requires c.gate.IsValid() && HarmlessRun(front, c) && IsHarmless(After(front, c), last, c)
    ensures HarmlessRun(front + [last], c)
    ensures After(front + [last], c) == Next(After(front, c), last, c)
  {
    var inputs := front + [last];
    assert inputs[..|front|] == front;
    assert After(inputs, c) == Next(After(front, c), last, c);
    hide IsHarmless, After, Next;
    forall n | 0 <= n < |inputs| ensures IsHarmless(After(inputs[..n], c), inputs[n], c) {
      if n < |front| {
        assert inputs[..n] == front[..n];
        assert IsHarmless(After(front[..n], c), front[n], c);
      }
    }
  }

  lemma {:induction false} EveryStateIsSound(inputs: seq<Input>, c: RuntimeConfig)
    requires c.gate.IsValid() && HarmlessRun(inputs, c)
    ensures Account(After(inputs, c), c)
  {
    if inputs == [] {
      StartIsSound(c);
    } else {
      var front, last := inputs[..|inputs| - 1], inputs[|inputs| - 1];
      HarmlessFront(inputs, c);
      assert After(inputs, c) == Next(After(front, c), last, c);
      assert IsHarmless(After(front, c), last, c) ==>
               AgreesWithCopy(After(front, c), last, c) && IsKeptTrackOf(After(front, c), last, c);
      hide *;
      EveryStateIsSound(front, c);
      AccountSurvivesIff(After(front, c), last, c);
    }
  }

  // ---- what every harmless run guarantees ----------------------------------------------------------

  function EventIds(events: seq<Event>): (r: seq<SignalId>)
    ensures |r| == |events| && forall i :: 0 <= i < |r| ==> r[i] == EventId(events[i])
  {
    Map(EventId, events)
  }

  /** Every released signal had its body. */
  ghost predicate AllBodied(events: seq<Event>) {
    forall i :: 0 <= i < |events| && events[i].Released? ==> events[i].body.Some?
  }

  /** The tickets that call for a receipt, in order. */
  function Acked(tickets: seq<Ticket>): seq<Ticket> {
    if tickets == [] then []
    else
      var last := tickets[|tickets| - 1];
      Acked(tickets[..|tickets| - 1]) + if last.delivery.RequiresReceipt() then [last] else []
  }

  /** The tickets the receipts answer. */
  function Receipted(receipts: seq<Receipt>): (r: seq<Ticket>)
    ensures |r| == |receipts| && forall i :: 0 <= i < |r| ==> r[i] == Ticket(receipts[i].id, receipts[i].to, Acknowledged)
  {
    Map((x: Receipt) => Ticket(x.id, x.to, Acknowledged), receipts)
  }

  lemma {:induction false} AckedAppend(a: seq<Ticket>, b: seq<Ticket>)
    ensures Acked(a + b) == Acked(a) + Acked(b)
  {
    if b == [] {
      assert a + b == a;
    } else {
      AckedAppend(a, b[..|b| - 1]);
      assert (a + b)[..|a + b| - 1] == a + b[..|b| - 1];
    }
  }

  lemma {:induction false} AckedRemove(a: seq<Ticket>, i: nat)
    requires i < |a|
    ensures multiset(Acked(a)) == multiset(Acked(RemoveAt(a, i))) + multiset(Acked([a[i]]))
  {
    assert a == (a[..i] + [a[i]]) + a[i + 1..];
    AckedAppend(a[..i] + [a[i]], a[i + 1..]);
    AckedAppend(a[..i], [a[i]]);
    AckedAppend(a[..i], a[i + 1..]);
  }

  lemma {:induction false} AckedPermutes(a: seq<Ticket>, b: seq<Ticket>)
    requires multiset(a) == multiset(b)
    ensures multiset(Acked(a)) == multiset(Acked(b))
    decreases |a|
  {
    if a == [] {
      assert |multiset(b)| == 0;
    } else {
      assert a[0] in multiset(b);
      var i :| 0 <= i < |b| && b[i] == a[0];
      RemoveAtPermutes(a, 0);
      RemoveAtPermutes(b, i);
      SameRest(multiset(RemoveAt(a, 0)), multiset(RemoveAt(b, i)), a[0]);
      AckedPermutes(RemoveAt(a, 0), RemoveAt(b, i));
      AckedRemove(a, 0);
      AckedRemove(b, i);
    }
  }

  /** Signals that left with their own bodies are receipted each to its own origin. */
  lemma {:induction false} DueIsAcked(exits: seq<Exit>, left: seq<QueuedSignal>)
    requires |left| == |exits| && forall i :: 0 <= i < |exits| ==> WithOwnBody(exits[i]) && left[i] == exits[i].signal
    ensures Receipted(Due(exits)) == Acked(Tickets(left))
  {
    if exits != [] {
      var front, x := exits[..|exits| - 1], exits[|exits| - 1];
      var q := left[|left| - 1];
      DueIsAcked(front, left[..|left| - 1]);
      assert Tickets(left)[..|left| - 1] == Tickets(left[..|left| - 1]);
      assert WithOwnBody(x) && q == x.signal;
      assert Receipted(Append(Due(front), DueFor(x))) ==
               Receipted(Due(front)) + if q.delivery.RequiresReceipt() then [TicketOf(q)] else [];
    }
  }

  lemma {:induction false} EventsNameTheLeft(l: Ledger)
    requires Recorded(l) && Bodied(l)
    ensures EventIds(l.events) == QueueIds(l.Left()) && AllBodied(l.events)
  {
    forall i | 0 <= i < |l.events|
      ensures EventId(l.events[i]) == l.Left()[i].id && (l.events[i].Released? ==> l.events[i].body.Some?)
    {
      assert l.events[i] == EventOf(l.exits[i]) && WithOwnBody(l.exits[i]);
    }
  }

  lemma {:induction false} IdsOfTickets(q: seq<QueuedSignal>)
    ensures QueueIds(q) == Map((t: Ticket) => t.id, Tickets(q))
  {
  }

  /** In a harmless run the cache holds exactly the bodies of the queued signals, so it never
      outgrows the queue and its backstop never evicts, and every released signal finds its
      body. */
  lemma {:induction false} CacheMirrorsQueue(inputs: seq<Input>, c: RuntimeConfig)
    requires c.gate.IsValid() && HarmlessRun(inputs, c)
    ensures var w := After(inputs, c);
            && Mirrors(w.pending, w.gate.queue)
            && |w.pending| <= |w.gate.queue| <= c.gate.maxQueueDepth
            && w.backstops == 0 && AllBodied(w.ledger.events)
  {
    EveryStateIsSound(inputs, c);
    EveryRunIsRecorded(inputs, c);
    var w := After(inputs, c);
    hide After, AllBodied, Recorded, Bodied, QueueIds;
    EventsNameTheLeft(w.ledger);
    CacheIsSmall(w.pending, w.gate.queue);
  }

  /** What is told of arrivals and of those waiting accounts for all of them. */
  lemma {:induction false} TicketsAnswered(arrived: seq<QueuedSignal>, queue: seq<QueuedSignal>,
          left: seq<QueuedSignal>)
    requires multiset(Tickets(arrived)) == multiset(Tickets(queue)) + multiset(Tickets(left))
    ensures multiset(QueueIds(arrived)) == multiset(QueueIds(left)) + multiset(QueueIds(queue))
    ensures multiset(Acked(Tickets(arrived))) == multiset(Acked(Tickets(left))) + multiset(Acked(Tickets(queue)))
  {
    var id := (t: Ticket) => t.id;
    var all := Tickets(queue) + Tickets(left);
    assert multiset(Tickets(arrived)) == multiset(all);
    IdsOfTickets(arrived);
    IdsOfTickets(queue);
    IdsOfTickets(left);
    hide Tickets, QueueIds, Acked;
    MapPermutes(id, Tickets(arrived), all);
    MapAppend(id, Tickets(queue), Tickets(left));
    AckedPermutes(Tickets(arrived), all);
    AckedAppend(Tickets(queue), Tickets(left));
  }

  /** And the arrivals that were not duplicates are exactly those that have had their one
      event and those still queued; the acknowledged ones exactly those for whose own origin
      one receipt was made out and those still queued; and every planned forward was sent or
      failed, once. */
  lemma {:induction false} EveryArrivalIsAnswered(inputs: seq<Input>, c: RuntimeConfig)
    requires c.gate.IsValid() && HarmlessRun(inputs, c)
    ensures var w := After(inputs, c);
            var l := w.ledger;
            && multiset(QueueIds(l.arrived)) == multiset(EventIds(l.events)) + multiset(QueueIds(w.gate.queue))
            && multiset(Acked(Tickets(l.arrived))) == multiset(Receipted(l.receipts)) + multiset(Acked(Tickets(w.gate.queue)))
            && multiset(l.planned) == multiset(Forwards(l.sent)) + multiset(l.failed)
  {
    EveryStateIsSound(inputs, c);
    EveryRunIsRecorded(inputs, c);
    var w := After(inputs, c);
    var l := w.ledger;
    EventsNameTheLeft(l);
    DueIsAcked(l.exits, l.Left());
    TicketsAnswered(l.arrived, w.gate.queue, l.Left());
    hide After, Mirrors, QueueIds, Acked, Tickets, Receipted, EventIds, Due;
  }

  // ---- and exactly those ------------------------------------------------------------------------------

  /** What can be seen from outside: the queue within its bound and the cache its mirror, never
      pushed out of; every release with its body; one event for each arrival no longer queued;
      and one receipt attempt, addressed to its own origin, for each such that is acknowledged. */
  ghost predicate Answers(w: World, c: RuntimeConfig) {
    && |w.gate.queue| <= c.gate.maxQueueDepth && Mirrors(w.pending, w.gate.queue) && w.backstops == 0
    && AllBodied(w.ledger.events)
    && multiset(QueueIds(w.ledger.arrived)) == multiset(EventIds(w.ledger.events)) + multiset(QueueIds(w.gate.queue))
    && multiset(Acked(Tickets(w.ledger.arrived))) ==
         multiset(Receipted(w.ledger.receipts)) + multiset(Acked(Tickets(w.gate.queue)))
  }

  lemma {:induction false} AccountAnswers(w: World, c: RuntimeConfig)
    requires Account(w, c) && Recorded(w.ledger)
    ensures Answers(w, c)
  {
    var l := w.ledger;
    EventsNameTheLeft(l);
    DueIsAcked(l.exits, l.Left());
    TicketsAnswered(l.arrived, w.gate.queue, l.Left());
    hide Mirrors, QueueIds, Acked, Tickets, Receipted, EventIds, Due, AllBodied, Bodied;
  }

  /** Where copies agree, events with bodies are events with the signals' own. */
  lemma {:induction false} BodiesAreOwn(inputs: seq<Input>, l: Ledger, c: RuntimeConfig)
    requires CopiesAgree(inputs) && LedgerKnown(inputs, l, c) && Recorded(l) && AllBodied(l.events)
    ensures Bodied(l)
  {
    hide Known, CameIn;
    forall i | 0 <= i < |l.exits| ensures WithOwnBody(l.exits[i]) {
      var x := l.exits[i];
      assert l.events[i] == EventOf(x) && ExitKnown(inputs, x, c);
      if x.Let? {
        assert x.body.Some?;
        InIsKnown(inputs, x.body.value, c);
        assert SignalTicket(x.body.value) == TicketOf(x.signal);
      }
    }
  }

  /** Where copies agree, arrivals that add up by id add up by ticket. */
  lemma {:induction false} IdsAddUp(inputs: seq<Input>, arrived: seq<QueuedSignal>, queue: seq<QueuedSignal>,
          left: seq<QueuedSignal>)
    requires CopiesAgree(inputs) && AllKnown(inputs, arrived) && AllKnown(inputs, queue) && AllKnown(inputs, left)
    requires multiset(QueueIds(arrived)) == multiset(QueueIds(left)) + multiset(QueueIds(queue))
    ensures multiset(Tickets(arrived)) == multiset(Tickets(queue)) + multiset(Tickets(left))
  {
    var ticket := (id: SignalId) => TicketFor(inputs, id);
    var all := QueueIds(queue) + QueueIds(left);
    assert multiset(QueueIds(arrived)) == multiset(all);
    TicketsFromIds(inputs, arrived);
    TicketsFromIds(inputs, queue);
    TicketsFromIds(inputs, left);
    hide QueueIds, Tickets, CopiesAgree, AllKnown;
    MapPermutes(ticket, QueueIds(arrived), all);
    MapAppend(ticket, QueueIds(queue), QueueIds(left));
  }

  lemma {:induction false} LeftKnown(inputs: seq<Input>, l: Ledger, c: RuntimeConfig)
    requires LedgerKnown(inputs, l, c)
    ensures AllKnown(inputs, l.Left())
  {
    hide Known;
    forall i | 0 <= i < |l.Left()| ensures Known(inputs, TicketOf(l.Left()[i])) { assert ExitKnown(inputs, l.exits[i], c); }
  }

  /** Where copies agree the account says no more than what can be seen. */
  lemma {:induction false} AnswersIsAccount(inputs: seq<Input>, w: World, c: RuntimeConfig)
    requires CopiesAgree(inputs) && WorldKnown(inputs, w, c) && Recorded(w.ledger) && Answers(w, c)
    ensures Account(w, c)
  {
    var l := w.ledger;
    BodiesAreOwn(inputs, l, c);
    EventsNameTheLeft(l);
    LeftKnown(inputs, l, c);
    assert AllKnown(inputs, l.arrived);
    hide QueueIds, Tickets, EventIds, CopiesAgree, AllKnown, LedgerKnown, Mirrors, Bodied, AllBodied, Recorded, Acked, Receipted;
    IdsAddUp(inputs, l.arrived, w.gate.queue, l.Left());
  }

  lemma {:induction false} AnswersIff(inputs: seq<Input>, c: RuntimeConfig)
    requires c.gate.IsValid() && CopiesAgree(inputs)
    ensures Answers(After(inputs, c), c) <==> Account(After(inputs, c), c)
  {
    hide After, Answers, Account, WorldKnown, Recorded, CopiesAgree;
    EverythingArrived(inputs, c);
    EveryRunIsRecorded(inputs, c);
    if Account(After(inputs, c), c) { AccountAnswers(After(inputs, c), c); }
    if Answers(After(inputs, c), c) { AnswersIsAccount(inputs, After(inputs, c), c); }
  }

  lemma {:induction false} FewerAgree(inputs: seq<Input>, n: nat)
    requires n <= |inputs| && CopiesAgree(inputs)
    ensures CopiesAgree(inputs[..n])
  {
    forall t | Known(inputs[..n], t) ensures Known(inputs, t) {
      var i :| 0 <= i < n && CameAs(inputs[..n][i], t);
      assert CameAs(inputs[i], t);
    }
    hide Known;
  }

  /** Where copies agree, an arrival agrees with its cached copy. */
  lemma {:induction false} ArrivalAgrees(inputs: seq<Input>, n: nat, c: RuntimeConfig)
    requires c.gate.IsValid() && CopiesAgree(inputs) && n < |inputs|
    ensures AgreesWithCopy(After(inputs[..n], c), inputs[n], c)
  {
    var w, input := After(inputs[..n], c), inputs[n];
    EverythingArrived(inputs[..n], c);
    hide After, IsOffered;
    if input.Arrives? && input.signal.id in w.pending {
      var t := SignalTicket(w.pending[input.signal.id]);
      InIsKnown(inputs[..n], w.pending[input.signal.id], c);
      var i :| 0 <= i < n && CameAs(inputs[..n][i], t);
      assert CameAs(inputs[i], t) && CameAs(input, SignalTicket(input.signal));
      assert Known(inputs, t) && Known(inputs, SignalTicket(input.signal));
    }
  }

  /** One step of a run whose copies agree. */
  lemma {:induction false} StepAnswersIff(inputs: seq<Input>, n: nat, c: RuntimeConfig)
    requires c.gate.IsValid() && CopiesAgree(inputs) && n < |inputs| && Answers(After(inputs[..n], c), c)
    ensures Answers(After(inputs[..n + 1], c), c) <==> IsKeptTrackOf(After(inputs[..n], c), inputs[n], c)
  {
    assert inputs[..n + 1][..n] == inputs[..n];
    assert After(inputs[..n + 1], c) == Next(After(inputs[..n], c), inputs[n], c);
    hide *;
    FewerAgree(inputs, n);
    FewerAgree(inputs, n + 1);
    AnswersIff(inputs[..n], c);
    AnswersIff(inputs[..n + 1], c);
    ArrivalAgrees(inputs, n, c);
    AccountSurvivesIff(After(inputs[..n], c), inputs[n], c);
  }

  ghost predicate AnswersThroughout(inputs: seq<Input>, c: RuntimeConfig)
    requires c.gate.IsValid()
  {
    forall n :: 0 <= n <= |inputs| ==> Answers(After(inputs[..n], c), c)
  }

  /** Every input is kept track of: what it makes leave has no twin in the queue, but for
      copies of an arrival that leave with its body and are each told of. */
  ghost predicate KeepsTrack(inputs: seq<Input>, c: RuntimeConfig)
    requires c.gate.IsValid()
  {
    forall n :: 0 <= n < |inputs| ==> IsKeptTrackOf(After(inputs[..n], c), inputs[n], c)
  }

  lemma {:induction false} AnswersTo(inputs: seq<Input>, n: nat, c: RuntimeConfig)
    requires c.gate.IsValid() && CopiesAgree(inputs) && KeepsTrack(inputs, c) && n <= |inputs|
    ensures Answers(After(inputs[..n], c), c)
  {
    hide Answers, IsKeptTrackOf, CopiesAgree;
    if n == 0 {
      assert inputs[..0] == [] && After([], c) == Start(c);
      hide After;
      StartAnswers(c);
    } else {
      hide After;
      AnswersTo(inputs, n - 1, c);
      StepAnswersIff(inputs, n - 1, c);
      assert IsKeptTrackOf(After(inputs[..n - 1], c), inputs[n - 1], c);
    }
  }

  lemma {:induction false} StartAnswers(c: RuntimeConfig)
    requires c.gate.IsValid()
    ensures Answers(Start(c), c)
  {
    StartIsSound(c);
    assert After([], c) == Start(c);
    EveryRunIsRecorded([], c);
    hide Answers, Account, Recorded;
    AccountAnswers(Start(c), c);
  }

  /** A harmless run is answered at every step, whatever its copies. */
  lemma {:induction false} HarmlessAnswers(inputs: seq<Input>, c: RuntimeConfig)
    requires c.gate.IsValid() && HarmlessRun(inputs, c)
    ensures AnswersThroughout(inputs, c)
  {
    hide Answers, Account, Recorded, After, IsHarmless;
    forall n | 0 <= n <= |inputs| ensures Answers(After(inputs[..n], c), c) {
      forall k | 0 <= k < n ensures IsHarmless(After(inputs[..n][..k], c), inputs[..n][k], c) { assert inputs[..n][..k] == inputs[..k]; }
      EveryStateIsSound(inputs[..n], c);
      EveryRunIsRecorded(inputs[..n], c);
      AccountAnswers(After(inputs[..n], c), c);
    }
  }

  /** In a run whose copies agree, everything is answered at every step - each arrival its one
      event and, if acknowledged, its one receipt attempt, each release its body, the cache the mirror
      of the queue - if and only if every input is kept track of. */
  lemma {:induction false} SoundThroughoutIff(inputs: seq<Input>, c: RuntimeConfig)
    requires c.gate.IsValid() && CopiesAgree(inputs)
    ensures AnswersThroughout(inputs, c) <==> KeepsTrack(inputs, c)
  {
    hide Answers, IsKeptTrackOf, CopiesAgree, After;
    if KeepsTrack(inputs, c) {
      forall n | 0 <= n <= |inputs| ensures Answers(After(inputs[..n], c), c) { AnswersTo(inputs, n, c); }
    }
    if AnswersThroughout(inputs, c) {
      forall n | 0 <= n < |inputs| ensures IsKeptTrackOf(After(inputs[..n], c), inputs[n], c) { StepAnswersIff(inputs, n, c); }
    }
  }

  // ---- no copies queued together --------------------------------------------------------------------

  /** The arrival is a duplicate, or its id is not queued. */
  ghost predicate IsFreshOrSeen(w: World, s: Signal, now: u64) {
    IsLive(w.seen, s.id, now) || s.id !in QueueIds(w.gate.queue)
  }

  ghost predicate ArrivesFresh(w: World, input: Input) {
    input.Arrives? ==> IsFreshOrSeen(w, input.signal, input.at)
  }

  /** No signal is admitted again while one with its id is still queued. */
  ghost predicate NoReadmission(inputs: seq<Input>, c: RuntimeConfig)
    requires c.gate.IsValid()
  {
    forall n :: 0 <= n < |inputs| ==> ArrivesFresh(After(inputs[..n], c), inputs[n])
  }

  lemma {:induction false} DistinctCopies(queue: seq<QueuedSignal>)
    ensures NoDup(QueueIds(queue)) <==> forall id :: Copies(queue, id) <= 1
  {
    NoDupByCount(QueueIds(queue));
    assert forall id :: Copies(queue, id) == multiset(QueueIds(queue))[id];
  }

  lemma {:induction false} FreshArrivalIsKept(pending: map<SignalId, Signal>, queue: seq<QueuedSignal>, s: Signal,
          now: u64,
          kept: seq<QueuedSignal>, out: AdmitOutcome, planner: Planner)
    requires Mirrors(pending, queue) && NoDup(QueueIds(queue)) && s.id !in QueueIds(queue)
    requires Divided(queue, QueuedOf(s, now), kept, out)
    ensures ArrivalIsKept(queue, s, out, planner) && Agrees(pending, s) && NoDup(QueueIds(kept))
  {
    DistinctCopies(queue);
    DistinctCopies(kept);
    CopiesOf(queue, s.id);
    MirrorsIff(pending, queue);
    assert MirrorsAt(pending, queue, s.id);
    DividedMembers(queue, QueuedOf(s, now), kept, out);
    CopiesOfDrop(out.dropped, s.id);
    forall id ensures Copies(kept, id) + Copies(out.fired, id) + Copies(DropSeq(out.dropped), id) ==
                        Copies(queue, id) + if id == s.id then 1 else 0
    {
      CopiesAdd(queue, QueuedOf(s, now), kept, out.fired, out.dropped, id);
    }
    hide Copies, Mirrors, NoDup, QueueIds, MirrorsAt;
    forall x | x in out.fired + DropSeq(out.dropped) && x.id != s.id ensures Copies(queue, x.id) == 1 {
      assert x in queue;
      CopiesOf(queue, x.id);
    }
  }

  lemma {:induction false} FreshArriveIsHarmless(w: World, s: Signal, weight: real, now: u64, draw: real,
          planner: Planner,
          link: Link, c: RuntimeConfig)
    requires c.gate.IsValid() && Account(w, c) && NoDup(QueueIds(w.gate.queue)) && IsFreshOrSeen(w, s, now)
    ensures IsHarmless(w, Arrives(s, weight, now, draw, planner, link), c)
    ensures NoDup(QueueIds(Arrive(w, s, weight, now, draw, planner, link, c).gate.queue))
  {
    var q := QueuedOf(s, now);
    var (gate, out) := Admit(c.gate, w.gate, q, weight, now, draw);
    AdmitEffect(c.gate, w.gate, q, weight, now, draw);
    var (w1, d) := Receive(w, s, weight, now, draw, planner, c);
    assert w1.gate == if IsOffered(w, s, now, c) then gate else w.gate;
    assert Divided(w.gate.queue, q, gate.queue, out);
    assert Mirrors(w.pending, w.gate.queue);
    assert IsOffered(w, s, now, c) ==> s.id !in QueueIds(w.gate.queue);
    hide Admit, Act, NoDup, QueueIds, Mirrors, ArrivalIsKept, OfferEffect, Divided, Agrees, Account, IsOffered, Receive, IsFreshOrSeen;
    ActKeepsGate(w1, s, now, d, planner, link, c);
    if IsOffered(w, s, now, c) { FreshArrivalIsKept(w.pending, w.gate.queue, s, now, gate.queue, out, planner); }
  }

  lemma {:induction false} DistinctPollIsHarmless(w: World, now: u64, planner: Planner, link: Link, c: RuntimeConfig)
    requires c.gate.IsValid() && NoDup(QueueIds(w.gate.queue))
    ensures IsHarmless(w, Polls(now, planner, link), c)
    ensures NoDup(QueueIds(PollGate(w, now, planner, link, c).gate.queue))
  {
    var (gate, batch) := DrainIfStarving(c.gate, w.gate, now);
    DrainEffect(c.gate, w.gate, now);
    BatchKeepsGate(w.(gate := gate), batch, NoArrival, Guard, planner, link, c);
    hide DrainIfStarving, ReleaseBatch, NoDup, QueueIds, NoneHasATwin;
    PolledDistinct(w.gate.queue, gate.queue, batch);
  }

  lemma {:induction false} FreshIsHarmless(w: World, input: Input, c: RuntimeConfig)
    requires c.gate.IsValid() && Account(w, c) && NoDup(QueueIds(w.gate.queue)) && ArrivesFresh(w, input)
    ensures IsHarmless(w, input, c) && NoDup(QueueIds(Next(w, input, c).gate.queue))
  {
    match input
    case Arrives(s, weight, now, draw, planner, link) =>
      hide Account, NoDup, QueueIds, IsHarmless, Arrive, IsFreshOrSeen;
      FreshArriveIsHarmless(w, s, weight, now, draw, planner, link, c);
    case Polls(now, planner, link) =>
      hide Account, NoDup, QueueIds, IsHarmless, PollGate;
      DistinctPollIsHarmless(w, now, planner, link, c);
    case Checkpoints(now) =>
  }

  lemma {:induction false} PolledDistinct(queue: seq<QueuedSignal>, kept: seq<QueuedSignal>, batch: seq<QueuedSignal>)
    requires NoDup(QueueIds(queue)) && multiset(queue) == multiset(kept) + multiset(batch)
    ensures NoDup(QueueIds(kept)) && NoneHasATwin(queue, batch)
  {
    assert multiset(queue) == multiset(kept + batch);
    DistinctCopies(queue);
    DistinctCopies(kept);
    forall id ensures Copies(kept, id) + Copies(batch, id) == Copies(queue, id) {
      CopiesPermute(queue, kept + batch, id);
      CopiesAppend(kept, batch, id);
    }
    hide Copies, NoDup, QueueIds;
    forall x | x in batch ensures Copies(queue, x.id) == 1 { CopiesOf(batch, x.id); }
  }

  lemma {:induction false} EmptyIsHarmless(c: RuntimeConfig)
    requires c.gate.IsValid()
    ensures HarmlessRun([], c) && NoDup(QueueIds(After([], c).gate.queue))
  {
    assert After([], c) == Start(c);
  }

  /** Then the queue holds no two signals under one id, and the run is harmless. */
  lemma {:induction false} NoReadmissionIsHarmless(inputs: seq<Input>, c: RuntimeConfig)
    requires c.gate.IsValid() && NoReadmission(inputs, c)
    ensures HarmlessRun(inputs, c) && NoDup(QueueIds(After(inputs, c).gate.queue))
  {
    if inputs == [] {
      EmptyIsHarmless(c);
    } else {
      var front, last := inputs[..|inputs| - 1], inputs[|inputs| - 1];
      assert inputs == front + [last];
      hide *;
      FreshFront(inputs, c);
      NoReadmissionIsHarmless(front, c);
      EveryStateIsSound(front, c);
      FreshIsHarmless(After(front, c), last, c);
      HarmlessSnoc(front, last, c);
    }
  }

  lemma {:induction false} FreshFront(inputs: seq<Input>, c: RuntimeConfig)
    requires c.gate.IsValid() && inputs != [] && NoReadmission(inputs, c)
    ensures NoReadmission(inputs[..|inputs| - 1], c)
    ensures ArrivesFresh(After(inputs[..|inputs| - 1], c), inputs[|inputs| - 1])
  {
    var front := inputs[..|inputs| - 1];
    hide ArrivesFresh, After;
    forall n | 0 <= n < |front| ensures ArrivesFresh(After(front[..n], c), front[n]) { assert front[..n] == inputs[..n]; }
  }

  // ---- a dedup window that outlasts the queue -----------------------------------------------------------------------

  /** Every queued signal is remembered by the dedup map until a window after it came. */
  ghost predicate SeenCovers(seen: map<SignalId, u64>, queue: seq<QueuedSignal>, dedupSecs: u64) {
    forall q :: q in queue ==> q.id in seen && seen[q.id] == Expiry(q.enqueuedAt, dedupSecs)
  }

  /** No queued signal has outstayed its dedup window. */
  ghost predicate Resident(w: World, now: u64, c: RuntimeConfig) {
    forall q :: q in w.gate.queue ==> now < Expiry(q.enqueuedAt, c.rules.dedupSecs)
  }

  /** Whenever something happens, each signal still queued was admitted less than a dedup
      window ago. */
  ghost predicate DedupOutlastsQueue(inputs: seq<Input>, c: RuntimeConfig)
    requires c.gate.IsValid()
  {
    forall n :: 0 <= n < |inputs| ==> Resident(After(inputs[..n], c), inputs[n].at, c)
  }

  /** A fresh arrival is not queued under its id already. */
  lemma {:induction false} FreshIsNotQueued(w: World, s: Signal, now: u64, c: RuntimeConfig)
    requires SeenCovers(w.seen, w.gate.queue, c.rules.dedupSecs) && Resident(w, now, c)
    ensures IsFreshOrSeen(w, s, now)
  {
    if !IsLive(w.seen, s.id, now) {
      forall k | 0 <= k < |w.gate.queue| ensures QueueIds(w.gate.queue)[k] != s.id {
        assert w.gate.queue[k] in w.gate.queue;
      }
    }
  }

  lemma {:induction false} SeenStillCovers(seen: map<SignalId, u64>, queue: seq<QueuedSignal>, kept: seq<QueuedSignal>,
          q: QueuedSignal, c: RuntimeConfig)
    requires SeenCovers(seen, queue, c.rules.dedupSecs)
    requires forall x :: x in kept ==> x in queue || x == q
    requires forall x :: x in queue ==> x.id != q.id
    ensures SeenCovers(seen[q.id := Expiry(q.enqueuedAt, c.rules.dedupSecs)], kept, c.rules.dedupSecs)
  {
  }

  lemma {:induction false} ArriveKeepsCover(w: World, s: Signal, weight: real, now: u64, draw: real, planner: Planner,
          link: Link, c: RuntimeConfig)
    requires c.gate.IsValid() && |w.gate.queue| <= c.gate.maxQueueDepth && IsFreshOrSeen(w, s, now)
    requires SeenCovers(w.seen, w.gate.queue, c.rules.dedupSecs)
    ensures var w' := Arrive(w, s, weight, now, draw, planner, link, c); SeenCovers(w'.seen, w'.gate.queue, c.rules.dedupSecs)
  {
    var (w1, d) := Receive(w, s, weight, now, draw, planner, c);
    ActKeepsGate(w1, s, now, d, planner, link, c);
    if !IsLive(w.seen, s.id, now) {
      var q := QueuedOf(s, now);
      forall x | x in w.gate.queue ensures x.id != q.id {
        var k :| 0 <= k < |w.gate.queue| && w.gate.queue[k] == x;
        assert QueueIds(w.gate.queue)[k] == x.id;
      }
      var (gate, out) := Admit(c.gate, w.gate, q, weight, now, draw);
      AdmitEffect(c.gate, w.gate, q, weight, now, draw);
      DividedMembers(w.gate.queue, q, gate.queue, out);
      assert w1.gate.queue == gate.queue || w1.gate.queue == w.gate.queue;
      hide Admit, Act, SeenCovers;
      SeenStillCovers(w.seen, w.gate.queue, w1.gate.queue, q, c);
    }
  }

  lemma {:induction false} PollKeepsCover(w: World, now: u64, planner: Planner, link: Link, c: RuntimeConfig)
    requires c.gate.IsValid() && SeenCovers(w.seen, w.gate.queue, c.rules.dedupSecs)
    ensures var w' := PollGate(w, now, planner, link, c); SeenCovers(w'.seen, w'.gate.queue, c.rules.dedupSecs)
  {
    var (gate, batch) := DrainIfStarving(c.gate, w.gate, now);
    DrainEffect(c.gate, w.gate, now);
    BatchKeepsGate(w.(gate := gate), batch, NoArrival, Guard, planner, link, c);
    hide DrainIfStarving, ReleaseBatch;
    forall x | x in gate.queue ensures x in w.gate.queue { assert x in multiset(gate.queue) + multiset(batch); }
  }

  /** A checkpoint forgets what has expired and nothing else, and so changes no later answer. */
  lemma {:induction false} CheckpointForgetsExpired(w: World, now: u64, id: SignalId, later: u64, c: RuntimeConfig)
    requires c.gate.IsValid()
    ensures var w' := Next(w, Checkpoints(now), c);
            && w' == w.(seen := w'.seen) && (id in w'.seen <==> id in w.seen && now < w.seen[id])
            && (now <= later ==> (IsLive(w'.seen, id, later) <==> IsLive(w.seen, id, later)))
  {
  }

  lemma {:induction false} CheckpointKeepsCover(w: World, now: u64, c: RuntimeConfig)
    requires SeenCovers(w.seen, w.gate.queue, c.rules.dedupSecs) && Resident(w, now, c)
    ensures var w' := Checkpoint(w, now); SeenCovers(w'.seen, w'.gate.queue, c.rules.dedupSecs)
  {
  }

  lemma {:induction false} NextKeepsCover(w: World, input: Input, c: RuntimeConfig)
    requires c.gate.IsValid() && |w.gate.queue| <= c.gate.maxQueueDepth
    requires SeenCovers(w.seen, w.gate.queue, c.rules.dedupSecs) && Resident(w, input.at, c)
    ensures var w' := Next(w, input, c); SeenCovers(w'.seen, w'.gate.queue, c.rules.dedupSecs)
    ensures ArrivesFresh(w, input)
  {
    hide IsFreshOrSeen, Arrive, PollGate, Checkpoint, SeenCovers, Resident;
    match input
    case Arrives(s, weight, now, draw, planner, link) =>
      FreshIsNotQueued(w, s, now, c);
      ArriveKeepsCover(w, s, weight, now, draw, planner, link, c);
    case Polls(now, planner, link) => PollKeepsCover(w, now, planner, link, c);
    case Checkpoints(now) => CheckpointKeepsCover(w, now, c);
  }

  lemma {:induction false} OutlastingFront(inputs: seq<Input>, c: RuntimeConfig)
    requires c.gate.IsValid() && inputs != [] && DedupOutlastsQueue(inputs, c)
    ensures DedupOutlastsQueue(inputs[..|inputs| - 1], c)
    ensures Resident(After(inputs[..|inputs| - 1], c), inputs[|inputs| - 1].at, c)
  {
    var front := inputs[..|inputs| - 1];
    hide Resident, After;
    forall n | 0 <= n < |front| ensures Resident(After(front[..n], c), front[n].at, c) { assert front[..n] == inputs[..n]; }
  }

  lemma {:induction false} FreshAt(inputs: seq<Input>, c: RuntimeConfig, n: nat)
    requires c.gate.IsValid() && n < |inputs| - 1 && NoReadmission(inputs[..|inputs| - 1], c)
    ensures ArrivesFresh(After(inputs[..n], c), inputs[n])
  {
    var front := inputs[..|inputs| - 1];
    assert ArrivesFresh(After(front[..n], c), front[n]);
    assert front[..n] == inputs[..n];
  }

  lemma {:induction false} OneMoreFresh(inputs: seq<Input>, c: RuntimeConfig)
    requires c.gate.IsValid() && inputs != [] && NoReadmission(inputs[..|inputs| - 1], c)
    requires ArrivesFresh(After(inputs[..|inputs| - 1], c), inputs[|inputs| - 1])
    ensures NoReadmission(inputs, c)
  {
    hide ArrivesFresh, After;
    forall n | 0 <= n < |inputs| ensures ArrivesFresh(After(inputs[..n], c), inputs[n]) {
      hide NoReadmission;
      if n < |inputs| - 1 { FreshAt(inputs, c, n); }
    }
  }

  lemma {:induction false} QueueIsBounded(inputs: seq<Input>, c: RuntimeConfig)
    requires c.gate.IsValid()
    ensures |After(inputs, c).gate.queue| <= c.gate.maxQueueDepth
  {
    EverythingArrived(inputs, c);
    hide After;
  }

  /** A dedup window that outlasts every stay in the queue rules re-admission out. */
  lemma {:induction false} OutlastingWindowSuffices(inputs: seq<Input>, c: RuntimeConfig)
    requires c.gate.IsValid() && DedupOutlastsQueue(inputs, c)
    ensures NoReadmission(inputs, c)
    ensures var w := After(inputs, c); SeenCovers(w.seen, w.gate.queue, c.rules.dedupSecs)
  {
    if inputs != [] {
      var front, last := inputs[..|inputs| - 1], inputs[|inputs| - 1];
      assert After(inputs, c) == Next(After(front, c), last, c);
      hide *;
      OutlastingFront(inputs, c);
      OutlastingWindowSuffices(front, c);
      QueueIsBounded(front, c);
      NextKeepsCover(After(front, c), last, c);
      OneMoreFresh(inputs, c);
    }
  }

  // ---- two runs with copies queued together ----------------------------------------------------------

  const EXAMPLE_SIGNAL := Signal(7, 3, 0.5, 4, Gradient, [3], Acknowledged)

  /** A high threshold, a five-second latency guard, and a dedup window of one second. */
  function ShortWindow(exp: PositiveFn): RuntimeConfig {
    RuntimeConfig(NodeRules(1, 0.0, 1),
                  Params(10.0, Step, 0, 100.0, false, 2, 4, DropNewest, 0.0, 5_000_000_000, exp), 1.0)
  }

  function ExampleQueued(now: u64): QueuedSignal {
    QueuedOf(EXAMPLE_SIGNAL, now)
  }

  function TwoArrivals(planner: Planner, link: Link): seq<Input> {
    [Arrives(EXAMPLE_SIGNAL, 1.0, 0, 0.0, planner, link), Arrives(EXAMPLE_SIGNAL, 1.0, 2_000_000_000, 0.0, planner, link)]
  }

  function ReturningRun(planner: Planner, link: Link): seq<Input> {
    TwoArrivals(planner, link) + [Polls(10_000_000_000, planner, link)]
  }

  function AnsweredRun(planner: Planner, link: Link): seq<Input> {
    TwoArrivals(planner, link)
    + [Arrives(EXAMPLE_SIGNAL, 1.0, 10_000_000_000, 0.0, planner, link), Polls(20_000_000_000, planner, link)]
  }

  lemma {:induction false} QueuedArrival(w: World, now: u64, gate: Gate, planner: Planner, link: Link, exp: PositiveFn)
    requires !IsLive(w.seen, 7, now) && |w.pending| < 8 && (7 in w.pending ==> w.pending[7] == EXAMPLE_SIGNAL)
    requires Admit(ShortWindow(exp).gate, w.gate, ExampleQueued(now), 1.0, now, 0.0) == (gate, AdmitOutcome([], None))
    ensures var input, c := Arrives(EXAMPLE_SIGNAL, 1.0, now, 0.0, planner, link), ShortWindow(exp);
            var w' := Next(w, input, c);
            && IsHarmless(w, input, c)
            && w'.gate == gate && w'.seen == w.seen[7 := Expiry(now, 1)] && w'.pending == w.pending[7 := EXAMPLE_SIGNAL]
            && w'.ledger.arrived == w.ledger.arrived + [ExampleQueued(now)]
  {
    CopiesOf([], 7);
    assert [] + DropSeq(None) == [];
    hide Copies;
  }

  lemma {:induction false} FirstArrival(exp: PositiveFn)
    ensures Admit(ShortWindow(exp).gate, NewGate(ShortWindow(exp).gate), ExampleQueued(0), 1.0, 0, 0.0) ==
              (Gate(0.5, 10.0, 0, [ExampleQueued(0)], 0, 0, 0), AdmitOutcome([], None))
  {
    var p := ShortWindow(exp).gate;
    var g := Gate(0.5, 10.0, 0, [ExampleQueued(0)], 0, 0, 0);
    assert [] + [ExampleQueued(0)] == [ExampleQueued(0)];
    assert Loaded(p, NewGate(p), ExampleQueued(0), 1.0) == (g, None);
    assert !Evaluate(p, g, 0.0) && !IsStarving(p, g, 0);
  }

  /** The gate with both copies queued. */
  function BothQueued(): Gate {
    Gate(1.0, 10.0, 0, [ExampleQueued(0), ExampleQueued(2_000_000_000)], 0, 0, 0)
  }

  lemma {:induction false} SecondArrival(exp: PositiveFn)
    ensures Admit(ShortWindow(exp).gate, Gate(0.5, 10.0, 0, [ExampleQueued(0)], 0, 0, 0),
                  ExampleQueued(2_000_000_000), 1.0, 2_000_000_000, 0.0) == (BothQueued(), AdmitOutcome([], None))
  {
    var p := ShortWindow(exp).gate;
    var q0, q1 := ExampleQueued(0), ExampleQueued(2_000_000_000);
    var g0 := Gate(0.5, 10.0, 0, [q0], 0, 0, 0);
    assert [q0] + [q1] == [q0, q1];
    assert Loaded(p, g0, q1, 1.0) == (BothQueued(), None);
    assert !Evaluate(p, BothQueued(), 0.0) && !IsStarving(p, BothQueued(), 2_000_000_000);
  }

  lemma {:induction false} FirstIsQueued(planner: Planner, link: Link, exp: PositiveFn)
    ensures var inputs, c := TwoArrivals(planner, link)[..1], ShortWindow(exp);
            var w := After(inputs, c);
            && HarmlessRun(inputs, c) && w.gate == Gate(0.5, 10.0, 0, [ExampleQueued(0)], 0, 0, 0)
            && w.seen == map[7 := 1_000_000_000] && w.pending == map[7 := EXAMPLE_SIGNAL]
            && w.ledger.arrived == [ExampleQueued(0)]
  {
    var c, input := ShortWindow(exp), TwoArrivals(planner, link)[0];
    assert After([], c) == Start(c) && [] + [input] == TwoArrivals(planner, link)[..1];
    assert Expiry(0, 1) == 1_000_000_000 && [] + [ExampleQueued(0)] == [ExampleQueued(0)];
    hide Admit, IsHarmless, Next, HarmlessRun, After;
    FirstArrival(exp);
    EmptyIsHarmless(c);
    QueuedArrival(Start(c), 0, Gate(0.5, 10.0, 0, [ExampleQueued(0)], 0, 0, 0), planner, link, exp);
    HarmlessSnoc([], input, c);
  }

  /** After two arrivals both copies are queued, and everything is answered so far. */
  lemma {:induction false} BothAreQueued(planner: Planner, link: Link, exp: PositiveFn)
    ensures var inputs, c := TwoArrivals(planner, link), ShortWindow(exp);
            var w := After(inputs, c);
            && HarmlessRun(inputs, c) && w.gate == BothQueued() && w.pending == map[7 := EXAMPLE_SIGNAL]
            && !IsLive(w.seen, 7, 10_000_000_000) && w.ledger.arrived == [ExampleQueued(0), ExampleQueued(2_000_000_000)]
  {
    var inputs, c := TwoArrivals(planner, link), ShortWindow(exp);
    var front, input := inputs[..1], inputs[1];
    var seen := map[7 := 1_000_000_000];
    assert front + [input] == inputs && Expiry(2_000_000_000, 1) == 3_000_000_000;
    assert !IsLive(seen, 7, 2_000_000_000) && !IsLive(seen[7 := 3_000_000_000], 7, 10_000_000_000);
    assert [ExampleQueued(0)] + [ExampleQueued(2_000_000_000)] == [ExampleQueued(0), ExampleQueued(2_000_000_000)];
    hide *;
    FirstIsQueued(planner, link, exp);
    SecondArrival(exp);
    QueuedArrival(After(front, c), 2_000_000_000, BothQueued(), planner, link, exp);
    HarmlessSnoc(front, input, c);
  }

  lemma {:induction false} OneBodyGoes(w: World, q: QueuedSignal, a: Arrival, cause: Cause, planner: Planner,
          link: Link,
          c: RuntimeConfig)
    ensures var w' := ReleaseOne(w, q, a, cause, planner, link, c);
            && (!IsArrival(q, a) ==> q.id !in w'.pending) && (forall id :: id in w'.pending ==> id in w.pending)
            && w.ledger.events <= w'.ledger.events
  {
  }

  /** A batch takes the bodies it releases out of the cache, but for the arrival's. */
  lemma {:induction false} ReleasedBodiesGo(w: World, batch: seq<QueuedSignal>, a: Arrival, cause: Cause,
          planner: Planner,
          link: Link, c: RuntimeConfig)
    ensures var w' := ReleaseBatch(w, batch, a, cause, planner, link, c);
            && (forall k :: 0 <= k < |batch| && !IsArrival(batch[k], a) ==> batch[k].id !in w'.pending)
            && w.ledger.events <= w'.ledger.events
  {
    if batch != [] {
      var front := batch[..|batch| - 1];
      ReleasedBodiesGo(w, front, a, cause, planner, link, c);
      OneBodyGoes(ReleaseBatch(w, front, a, cause, planner, link, c), batch[|batch| - 1], a, cause, planner, link, c);
      hide ReleaseOne, IsArrival;
      assert forall k :: 0 <= k < |front| ==> front[k] == batch[k];
    }
  }

  lemma {:induction false} BatchGoesOn(w: World, front: seq<QueuedSignal>, rest: seq<QueuedSignal>, a: Arrival,
          cause: Cause,
          planner: Planner, link: Link, c: RuntimeConfig)
    ensures ReleaseBatch(w, front + rest, a, cause, planner, link, c) ==
              ReleaseBatch(ReleaseBatch(w, front, a, cause, planner, link, c), rest, a, cause, planner, link, c)
  {
    if rest == [] {
      assert front + rest == front;
    } else {
      assert (front + rest)[..|front + rest| - 1] == front + rest[..|rest| - 1];
      BatchGoesOn(w, front, rest[..|rest| - 1], a, cause, planner, link, c);
      hide ReleaseOne;
    }
  }

  /** Two copies under one id, one body at most: in any batch that releases both, set off by a
      poll or by another arrival, the second to leave finds none. */
  lemma {:induction false} SecondFindsNoBody(w: World, batch: seq<QueuedSignal>, i: nat, j: nat, a: Arrival,
          cause: Cause,
          planner: Planner, link: Link, c: RuntimeConfig)
    requires i < j < |batch| && batch[i].id == batch[j].id && !IsArrival(batch[j], a)
    ensures !AllBodied(ReleaseBatch(w, batch, a, cause, planner, link, c).ledger.events)
  {
    var front, rest := batch[..j], batch[j + 1..];
    assert batch == front + [batch[j]] + rest;
    assert (front + [batch[j]])[..j] == front;
    var w1 := ReleaseBatch(w, front, a, cause, planner, link, c);
    ReleasedBodiesGo(w, front, a, cause, planner, link, c);
    assert front[i] == batch[i];
    var w2 := ReleaseOne(w1, batch[j], a, cause, planner, link, c);
    assert w2.ledger.events == w1.ledger.events + [Released(batch[j].id, None)];
    BatchGoesOn(w, front + [batch[j]], rest, a, cause, planner, link, c);
    ReleasedBodiesGo(w2, rest, a, cause, planner, link, c);
    var w3 := ReleaseBatch(w, batch, a, cause, planner, link, c);
    hide ReleaseBatch, ReleaseOne;
    assert w3.ledger.events[|w1.ledger.events|] == Released(batch[j].id, None);
  }

  lemma {:induction false} PollReleasesBoth(w: World, planner: Planner, link: Link, exp: PositiveFn)
    requires w.gate == BothQueued()
    ensures !AllBodied(PollGate(w, 10_000_000_000, planner, link, ShortWindow(exp)).ledger.events)
  {
    var c := ShortWindow(exp);
    var a, b := ExampleQueued(0), ExampleQueued(2_000_000_000);
    assert HasWaited(c.gate, w.gate.queue[0], 10_000_000_000);
    assert IsStarving(c.gate, w.gate, 10_000_000_000);
    var (gate, batch) := DrainIfStarving(c.gate, w.gate, 10_000_000_000);
    DrainEffect(c.gate, w.gate, 10_000_000_000);
    assert |batch| == 2 && batch == FireOrder(w.gate.queue);
    assert multiset(batch) == multiset([a, b]);
    hide *;
    BothAreCopies(batch, a, b);
    SecondFindsNoBody(w.(gate := gate), batch, 0, 1, NoArrival, Guard, planner, link, c);
  }

  lemma {:induction false} BothAreCopies(batch: seq<QueuedSignal>, a: QueuedSignal, b: QueuedSignal)
    requires |batch| == 2 && multiset(batch) == multiset([a, b]) && a.id == b.id
    ensures batch[0].id == batch[1].id && !IsArrival(batch[1], NoArrival)
  {
    assert batch[0] in multiset([a, b]) && batch[1] in multiset([a, b]);
  }

  lemma {:induction false} OneSignalAgrees(inputs: seq<Input>)
    requires forall i :: 0 <= i < |inputs| && inputs[i].Arrives? ==> inputs[i].signal == EXAMPLE_SIGNAL
    ensures CopiesAgree(inputs)
  {
    forall t | Known(inputs, t) ensures t == SignalTicket(EXAMPLE_SIGNAL) {
      var i :| 0 <= i < |inputs| && CameAs(inputs[i], t);
    }
    hide Known;
  }

  /** A run in which a dedup entry lapses while its signal is queued and the returning copy is
      queued beside it: the guard then releases both, one of them without a body. */
  lemma {:induction false} ReadmissionLosesABody(planner: Planner, link: Link, exp: PositiveFn)
    ensures var inputs, c := ReturningRun(planner, link), ShortWindow(exp);
            CopiesAgree(inputs) && !KeepsTrack(inputs, c) && !AllBodied(After(inputs, c).ledger.events)
  {
    var front, inputs, c := TwoArrivals(planner, link), ReturningRun(planner, link), ShortWindow(exp);
    OneSignalAgrees(inputs);
    assert inputs[..2] == front && inputs[..|inputs|] == inputs;
    assert After(inputs, c) == Next(After(front, c), inputs[2], c);
    assert Next(After(front, c), inputs[2], c) == PollGate(After(front, c), 10_000_000_000, planner, link, c);
    hide After, Next, PollGate, AllBodied, CopiesAgree, KeepsTrack, HarmlessRun;
    BothAreQueued(planner, link, exp);
    PollReleasesBoth(After(front, c), planner, link, exp);
    SoundThroughoutIff(inputs, c);
    assert !Answers(After(inputs[..|inputs|], c), c);
  }

  // ---- and one that is answered all the same ----------------------------------------------------------

  /** A third arrival sets off the guard, and two of the three copies leave with its body. */
  lemma {:induction false} ThirdArrival(exp: PositiveFn)
    ensures var now := 10_000_000_000;
            var (gate, out) := Admit(ShortWindow(exp).gate, BothQueued(), ExampleQueued(now), 1.0, now, 0.0);
            && |out.fired| == 2 && out.dropped == None && |gate.queue| == 1 && gate.refractoryUntil == now
            && (forall x :: x in out.fired || x in gate.queue ==> x.id == 7 && x.enqueuedAt <= now)
  {
    var now := 10_000_000_000;
    var p, q := ShortWindow(exp).gate, ExampleQueued(now);
    var q0, q1 := ExampleQueued(0), ExampleQueued(2_000_000_000);
    var g := Gate(1.5, 10.0, 0, [q0, q1, q], 0, 0, 0);
    assert [q0, q1] + [q] == [q0, q1, q];
    assert Loaded(p, BothQueued(), q, 1.0) == (g, None);
    assert HasWaited(p, g.queue[0], now) && IsStarving(p, g, now);
    var (gate, out) := Admit(p, BothQueued(), q, 1.0, now, 0.0);
    assert (gate, out.fired) == Fire(p, g, now) && out.dropped == None;
    FireTakesTheFront(p, g, now);
    hide Fire, Admit, FireOrder;
    forall x | x in out.fired || x in gate.queue ensures x.id == 7 && x.enqueuedAt <= now {
      assert x in multiset(out.fired) + multiset(gate.queue);
      assert x in g.queue;
    }
  }

  lemma {:induction false} AllCopies(q: seq<QueuedSignal>, id: SignalId)
    requires forall x :: x in q ==> x.id == id
    ensures Copies(q, id) == |q|
  {
    if q != [] {
      var front, last := q[..|q| - 1], q[|q| - 1];
      assert q == front + [last] && forall x :: x in front ==> x in q;
      AllCopies(front, id);
      CopiesAppend(front, [last], id);
      CopiesOfOne(last, id);
      hide Copies;
    }
  }

  lemma {:induction false} ActKeepsArrived(w: World, s: Signal, now: u64, d: Disposition, planner: Planner, link: Link,
          c: RuntimeConfig)
    ensures Act(w, s, now, d, planner, link, c).ledger.arrived == w.ledger.arrived
  {
    VerdictEffect(w, s, now, d);
    ReleaseBatchEffect(AfterVerdict(w, s, now, d), d.handleLocally, Arrival(s, d.forwardTo), Threshold, planner, link, c);
    hide AfterVerdict, ReleaseBatch, HasBodies, Bodied;
  }

  lemma {:induction false} ThirdIsKept(out: AdmitOutcome, planner: Planner)
    requires planner(EXAMPLE_SIGNAL) != [] && out.dropped == None && |out.fired| == 2
    requires forall x :: x in out.fired ==> x.id == 7
    ensures ArrivalIsKept(BothQueued().queue, EXAMPLE_SIGNAL, out, planner)
  {
    AllCopies(out.fired, 7);
    AllCopies(BothQueued().queue, 7);
    assert out.fired + DropSeq(None) == out.fired;
    hide Copies;
  }

  lemma {:induction false} ThirdIsAnswered(w: World, planner: Planner, link: Link, exp: PositiveFn)
    requires w.gate == BothQueued() && w.pending == map[7 := EXAMPLE_SIGNAL] && !IsLive(w.seen, 7, 10_000_000_000)
    requires planner(EXAMPLE_SIGNAL) != []
    ensures var input, c := AnsweredRun(planner, link)[2], ShortWindow(exp);
            var w' := Next(w, input, c);
            && IsHarmless(w, input, c) && w'.ledger.arrived == w.ledger.arrived + [ExampleQueued(10_000_000_000)]
            && |w'.gate.queue| == 1 && w'.gate.refractoryUntil == 10_000_000_000
            && w'.gate.queue[0].id == 7 && w'.gate.queue[0].enqueuedAt <= 10_000_000_000
  {
    var now := 10_000_000_000;
    var input, c := AnsweredRun(planner, link)[2], ShortWindow(exp);
    var (gate, out) := Admit(c.gate, w.gate, ExampleQueued(now), 1.0, now, 0.0);
    var w1, d := Taken(w, EXAMPLE_SIGNAL, now, gate, c), Dispose(EXAMPLE_SIGNAL, out, planner);
    assert IsOffered(w, EXAMPLE_SIGNAL, now, c) && Agrees(w.pending, EXAMPLE_SIGNAL);
    assert IsHarmless(w, input, c) <==> ArrivalIsKept(w.gate.queue, EXAMPLE_SIGNAL, out, planner);
    assert Next(w, input, c) == Arrive(w, EXAMPLE_SIGNAL, 1.0, now, 0.0, planner, link, c);
    assert w1.gate == gate && w1.ledger.arrived == w.ledger.arrived + [ExampleQueued(now)];
    hide *;
    ThirdArrival(exp);
    ThirdIsKept(out, planner);
    OfferedArrival(w, EXAMPLE_SIGNAL, 1.0, now, 0.0, planner, link, c);
    ActKeepsGate(w1, EXAMPLE_SIGNAL, now, d, planner, link, c);
    ActKeepsArrived(w1, EXAMPLE_SIGNAL, now, d, planner, link, c);
  }

  lemma {:induction false} OfferedArrival(w: World, s: Signal, weight: real, now: u64, draw: real, planner: Planner,
          link: Link,
          c: RuntimeConfig)
    requires c.gate.IsValid() && IsOffered(w, s, now, c)
    ensures var (gate, out) := Admit(c.gate, w.gate, QueuedOf(s, now), weight, now, draw);
            Arrive(w, s, weight, now, draw, planner, link, c) ==
              Act(Taken(w, s, now, gate, c), s, now, Dispose(s, out, planner), planner, link, c)
  {
    var (gate, out) := Admit(c.gate, w.gate, QueuedOf(s, now), weight, now, draw);
    var (w1, d) := Receive(w, s, weight, now, draw, planner, c);
    assert w1 == Taken(w, s, now, gate, c) && d == Dispose(s, out, planner);
    hide Admit, Dispose, Act, Receive;
  }

  lemma {:induction false} LastIsAnswered(w: World, planner: Planner, link: Link, exp: PositiveFn)
    requires |w.gate.queue| == 1 && w.gate.queue[0].id == 7 && w.gate.queue[0].enqueuedAt <= 10_000_000_000
    requires w.gate.refractoryUntil == 10_000_000_000
    ensures var input, c := AnsweredRun(planner, link)[3], ShortWindow(exp);
            var w' := Next(w, input, c);
            IsHarmless(w, input, c) && w'.gate.queue == [] && w'.ledger.arrived == w.ledger.arrived
  {
    var now := 20_000_000_000;
    var c := ShortWindow(exp);
    assert HasWaited(c.gate, w.gate.queue[0], now) && IsStarving(c.gate, w.gate, now);
    var (gate, batch) := DrainIfStarving(c.gate, w.gate, now);
    DrainEffect(c.gate, w.gate, now);
    assert |batch| == 1 && gate.queue == [];
    assert w.gate.queue == [w.gate.queue[0]];
    CopiesOfOne(w.gate.queue[0], 7);
    ReleaseBatchEffect(w.(gate := gate), batch, NoArrival, Guard, planner, link, c);
    hide DrainIfStarving, ReleaseBatch, Copies, HasBodies, Bodied;
    forall x | x in batch ensures Copies(w.gate.queue, x.id) == 1 {
      assert x in multiset(gate.queue) + multiset(batch);
      assert x in w.gate.queue;
    }
  }

  lemma {:induction false} AnsweredRunIsHarmless(planner: Planner, link: Link, exp: PositiveFn)
    requires planner(EXAMPLE_SIGNAL) != []
    ensures var inputs, c := AnsweredRun(planner, link), ShortWindow(exp);
            && HarmlessRun(inputs, c) && After(inputs[..2], c).gate == BothQueued()
            && After(inputs, c).gate.queue == []
            && After(inputs, c).ledger.arrived ==
                 [ExampleQueued(0), ExampleQueued(2_000_000_000), ExampleQueued(10_000_000_000)]
  {
    var inputs, c := AnsweredRun(planner, link), ShortWindow(exp);
    var front, third, last := TwoArrivals(planner, link), inputs[2], inputs[3];
    assert inputs[..2] == front && front + [third] + [last] == inputs;
    hide *;
    BothAreQueued(planner, link, exp);
    ThirdIsAnswered(After(front, c), planner, link, exp);
    HarmlessSnoc(front, third, c);
    LastIsAnswered(After(front + [third], c), planner, link, exp);
    HarmlessSnoc(front + [third], last, c);
  }

  /** Copies queued together need not cost anything: two queue, a third arrival that has a
      route fires two of the three with its own body in hand, and a poll releases the last
      with the cached one. Three arrivals, three events, three receipts, and nothing left. */
  lemma {:induction false} QueuedCopiesAreAnswered(planner: Planner, link: Link, exp: PositiveFn)
    requires planner(EXAMPLE_SIGNAL) != []
    ensures var inputs, c := AnsweredRun(planner, link), ShortWindow(exp);
            var w := After(inputs, c);
            && HarmlessRun(inputs, c) && AnswersThroughout(inputs, c)
            && After(inputs[..2], c).gate == BothQueued() && Copies(BothQueued().queue, 7) == 2
            && w.gate.queue == [] && w.pending == map[] && EventIds(w.ledger.events) == [7, 7, 7]
            && Receipted(w.ledger.receipts) == seq(3, _ => SignalTicket(EXAMPLE_SIGNAL))
  {
    var inputs, c := AnsweredRun(planner, link), ShortWindow(exp);
    AllCopies(BothQueued().queue, 7);
    hide *;
    AnsweredRunIsHarmless(planner, link, exp);
    HarmlessAnswers(inputs, c);
    CacheMirrorsQueue(inputs, c);
    EveryArrivalIsAnswered(inputs, c);
    ThreeAnswers(After(inputs, c));
  }

  lemma {:induction false} NothingIsQueued(pending: map<SignalId, Signal>)
    requires Mirrors(pending, [])
    ensures pending == map[]
  {
  }

  lemma {:induction false} ThreeTickets(q: seq<QueuedSignal>, t: Ticket)
    requires |q| == 3 && forall k :: 0 <= k < 3 ==> TicketOf(q[k]) == t
    requires t.delivery.RequiresReceipt()
    ensures Tickets(q) == [t, t, t] && Acked(Tickets(q)) == [t, t, t]
  {
    assert Tickets(q) == [t, t] + [t];
    assert [t, t, t] == [t] + [t] + [t];
    AckedAppend([t] + [t], [t]);
    AckedAppend([t], [t]);
    assert Acked([t]) == [t];
    hide Acked;
  }

  lemma {:induction false} ThreeAnswers(w: World)
    requires w.gate.queue == [] && Mirrors(w.pending, w.gate.queue)
    requires w.ledger.arrived == [ExampleQueued(0), ExampleQueued(2_000_000_000), ExampleQueued(10_000_000_000)]
    requires multiset(QueueIds(w.ledger.arrived)) == multiset(EventIds(w.ledger.events)) + multiset(QueueIds(w.gate.queue))
    requires multiset(Acked(Tickets(w.ledger.arrived))) == multiset(Receipted(w.ledger.receipts)) + multiset(Acked(Tickets(w.gate.queue)))
    ensures w.pending == map[] && EventIds(w.ledger.events) == [7, 7, 7]
    ensures Receipted(w.ledger.receipts) == seq(3, _ => SignalTicket(EXAMPLE_SIGNAL))
  {
    var t, q := SignalTicket(EXAMPLE_SIGNAL), w.ledger.arrived;
    assert QueueIds(q) == [7, 7, 7] && QueueIds([]) == [] && Tickets([]) == [] && Acked([]) == [];
    assert t.delivery.RequiresReceipt() && forall k :: 0 <= k < 3 ==> TicketOf(q[k]) == t;
    hide *;
    NothingIsQueued(w.pending);
    ThreeTickets(q, t);
    SameThree(EventIds(w.ledger.events), 7);
    SameThree(Receipted(w.ledger.receipts), t);
  }

  lemma {:induction false} SameThree<T>(s: seq<T>, x: T)
    requires multiset(s) == multiset([x, x, x])
    ensures s == [x, x, x] && s == seq(3, _ => x)
  {
    assert |s| == |multiset(s)| == |multiset([x, x, x])| == 3;
    forall i | 0 <= i < 3 ensures s[i] == x { assert s[i] in multiset(s); }
  }
}
