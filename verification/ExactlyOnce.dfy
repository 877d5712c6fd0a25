/** Each decision is resolved once and learnt from once. A failed forward recognises its
    own resolution by comparing clock readings; exactly-once learning holds precisely as
    long as that comparison is not fooled. */
module ExactlyOnce {
  import opened Base
  import opened Learning
  import opened Synapses
  import opened Store
  import opened Signals
  import opened Propagation
  import opened Nodes
  import opened NodeRuns

  // ---- first outcome wins -------------------------------------------------------------------

  /** Entries keep their place and id; a resolved entry never changes. */
  ghost predicate Extends(j: Journal, j': Journal) {
    && |j| <= |j'|
    && (forall i :: 0 <= i < |j| ==> j'[i].id == j[i].id)
    && (forall i :: 0 <= i < |j| && j[i].outcome.IsResolved() ==> j'[i] == j[i])
  }

  lemma {:induction false} JournalStepExtends(j: Journal, j': Journal, applied: seq<Application>, id: nat,
          outcome: Outcome, now: u64)
    requires JournalStep(j, j', applied, id, outcome, now)
    ensures Extends(j, j')
  {
  }

  lemma {:induction false} SettledAllExtends(s: Tables, ids: seq<nat>, outcome: Outcome, now: u64, c: NodeConfig)
    ensures Extends(s.journal, SettledAll(s, ids, outcome, now, c).0.journal)
  {
    if ids != [] {
      hide Settled;
      var front := ids[..|ids| - 1];
      SettledAllExtends(s, front, outcome, now, c);
      var s1 := SettledAll(s, front, outcome, now, c).0;
      SettledJournal(s1, ids[|ids| - 1], outcome, now, c);
      var (s2, one) := Settled(s1, ids[|ids| - 1], outcome, now, c);
      JournalStepExtends(s1.journal, s2.journal, one, ids[|ids| - 1], outcome, now);
    }
  }

  lemma {:induction false} JournalledExtends(s: Tables, signal: Signal, chosen: seq<Chosen>, now: u64)
    ensures Extends(s.journal, Journalled(s, signal, chosen, now).0.journal)
  {
    if chosen != [] { JournalledExtends(s, signal, chosen[..|chosen| - 1], now); }
  }

  lemma {:induction false} StepExtends(s: Tables, input: Input, c: NodeConfig)
    ensures Extends(s.journal, Step(s, input, c).0.journal)
  {
    hide Settled, SettledAll, Journalled;
    match input
    case Decide(signal, chosen, now) => JournalledExtends(s, signal, chosen, now);
    case Receipt(signal, status, from, now) =>
      var found := PendingFor(s.journal, signal, from);
      if found.Some? { SettledExtends(s, found.value.id, OutcomeOf(status), now, c); }
    case Sweep(limit, now) =>
      SettledAllExtends(s, Expired(s.journal, c.learning.ReceiptDeadline(now), limit), TimedOut, now, c);
    case Fail(id, now) => SettledExtends(s, id, TransportFailure, now, c);
    case _ =>
  }

  lemma {:induction false} SettledExtends(s: Tables, id: nat, outcome: Outcome, now: u64, c: NodeConfig)
    ensures Extends(s.journal, Settled(s, id, outcome, now, c).0.journal)
  {
    SettledJournal(s, id, outcome, now, c);
    hide Settled;
    var (s', one) := Settled(s, id, outcome, now, c);
    JournalStepExtends(s.journal, s'.journal, one, id, outcome, now);
  }

  /** Once an entry of the journal has an outcome, no later input changes it. */
  lemma {:induction false} OutcomeIsFinal(inputs: seq<Input>, n: nat, i: nat, c: NodeConfig)
    requires n <= |inputs|
    requires var j := After(inputs[..n], c).s.journal; i < |j| && j[i].outcome.IsResolved()
    ensures var j' := After(inputs, c).s.journal; i < |j'| && j'[i] == After(inputs[..n], c).s.journal[i]
    decreases |inputs|
  {
    if n == |inputs| {
      assert inputs[..n] == inputs;
    } else {
      var front := inputs[..|inputs| - 1];
      assert front[..n] == inputs[..n];
      OutcomeIsFinal(front, n, i, c);
      hide Step;
      StepExtends(After(front, c).s, inputs[|inputs| - 1], c);
    }
  }

  // ---- what has been learnt from a decision ---------------------------------------------------

  datatype Mark = Mark(outcome: Outcome, at: u64)

  /** The outcomes applied for a decision, in order. */
  function Marks(log: seq<Application>, id: nat): seq<Mark> {
    if log == [] then []
    else
      var last := log[|log| - 1];
      Marks(log[..|log| - 1], id) + if last.entry.id == id then [Mark(last.outcome, last.at)] else []
  }

  /** The outcomes that should have been applied: the journalled one, once. */
  function Owed(e: JournalEntry): seq<Mark> {
    if e.outcome.IsResolved() && e.resolvedAt.Some? then [Mark(e.outcome, e.resolvedAt.value)] else []
  }

  /** Every decision has been learnt from exactly as the journal says: a pending one not
      at all, a resolved one once, with its outcome, at its resolution. */
  ghost predicate Exact(j: Journal, log: seq<Application>) {
    forall i :: 0 <= i < |j| ==> Marks(log, j[i].id) == Owed(j[i])
  }

  /** Resolved entries say when, and only they do; the log knows only journalled ids. */
  ghost predicate Stamped(j: Journal, log: seq<Application>, next: nat) {
    && (forall i :: 0 <= i < |j| ==> (j[i].outcome.IsResolved() <==> j[i].resolvedAt.Some?))
    && (forall k :: 0 <= k < |log| ==> log[k].entry.id <= next)
  }

  lemma {:induction false} NoMarksYet(log: seq<Application>, id: nat)
    requires forall k :: 0 <= k < |log| ==> log[k].entry.id != id
    ensures Marks(log, id) == []
  {
    if log != [] { NoMarksYet(log[..|log| - 1], id); }
  }

  lemma {:induction false} MarksSnoc(log: seq<Application>, a: Application, id: nat)
    ensures Marks(log + [a], id) == Marks(log, id) + if a.entry.id == id then [Mark(a.outcome, a.at)] else []
  {
    assert (log + [a])[..|log|] == log;
  }

  lemma {:induction false} MarksGrow(log: seq<Application>, more: seq<Application>, id: nat)
    ensures |Marks(log + more, id)| >= |Marks(log, id)|
  {
    if more == [] {
      assert log + more == log;
    } else {
      var front := more[..|more| - 1];
      assert log + more == (log + front) + [more[|more| - 1]];
      MarksSnoc(log + front, more[|more| - 1], id);
      MarksGrow(log, front, id);
    }
  }

  /** The entry was already resolved, at this very reading. */
  predicate AlreadyAt(j: Journal, id: nat, now: u64) {
    var i := Find(j, id);
    i < |j| && j[i].outcome.IsResolved() && j[i].resolvedAt == Some(now)
  }

  /** The one input that learns twice: a failed forward whose decision was resolved by an
      earlier call at the same clock reading. */
  predicate Repeats(s: Tables, input: Input) {
    input.Fail? && AlreadyAt(s.journal, input.journalId, input.at)
  }

  lemma {:induction false} AppliedMarks(log: seq<Application>, applied: seq<Application>, id: nat)
    requires |applied| <= 1
    ensures Marks(log + applied, id) ==
              Marks(log, id) + if applied != [] && applied[0].entry.id == id then [Mark(applied[0].outcome, applied[0].at)] else []
  {
    if applied == [] {
      assert log + applied == log;
    } else {
      assert applied == [applied[0]];
      MarksSnoc(log, applied[0], id);
    }
  }

  lemma {:induction false} SettleKeepsStamped(j: Journal, j': Journal, log: seq<Application>, applied: seq<Application>,
          id: nat, outcome: Outcome, now: u64, next: nat)
    requires JournalStep(j, j', applied, id, outcome, now) && outcome.IsResolved()
    requires IdsRise(j, next) && Stamped(j, log, next)
    ensures Stamped(j', log + applied, next) && |applied| <= 1
  {
  }

  /** Settling a decision keeps the account exact unless it repeats. */
  lemma {:induction false} SettleKeepsExact(j: Journal, j': Journal, log: seq<Application>, applied: seq<Application>,
          id: nat, outcome: Outcome, now: u64, next: nat)
    requires JournalStep(j, j', applied, id, outcome, now) && outcome.IsResolved() && |applied| <= 1
    requires IdsRise(j, next) && Stamped(j, log, next) && Exact(j, log) && !AlreadyAt(j, id, now)
    ensures Exact(j', log + applied)
  {
    var i := Find(j, id);
    hide Marks;
    forall k | 0 <= k < |j'| ensures Marks(log + applied, j'[k].id) == Owed(j'[k]) {
      AppliedMarks(log, applied, j'[k].id);
      assert k != i ==> j[k].id != id;
    }
  }

  /** A repeat leaves two marks. */
  lemma {:induction false} RepeatMarksTwice(j: Journal, j': Journal, log: seq<Application>, applied: seq<Application>,
          id: nat, outcome: Outcome, now: u64)
    requires JournalStep(j, j', applied, id, outcome, now) && |applied| <= 1
    requires Exact(j, log) && AlreadyAt(j, id, now)
    ensures |Marks(log + applied, id)| == 2
  {
    AppliedMarks(log, applied, id);
    assert Marks(log, j[Find(j, id)].id) == Owed(j[Find(j, id)]);
  }

  // ---- sweeps settle only pending decisions, each once -----------------------------------------

  predicate IsPending(j: Journal, id: nat) {
    var i := Find(j, id);
    i < |j| && !j[i].outcome.IsResolved()
  }

  /** Each expired id is that of a pending entry. */
  lemma {:induction false} ExpiredIsPending(j: Journal, next: nat, deadline: u64, limit: nat, id: nat) returns (i: nat)
    requires IdsRise(j, next) && id in Expired(j, deadline, limit)
    ensures i < |j| && j[i].id == id && HasExpired(j[i], deadline)
  {
    if HasExpired(j[0], deadline) && id == j[0].id {
      i := 0;
    } else {
      i := ExpiredIsPending(j[1..], next, deadline, if HasExpired(j[0], deadline) then limit - 1 else limit, id);
      i := i + 1;
    }
  }

  lemma {:induction false} LaterIdsAreHigher(j: Journal, next: nat, deadline: u64, limit: nat)
    requires IdsRise(j, next) && j != []
    ensures forall id :: id in Expired(j[1..], deadline, limit) ==> id > j[0].id
  {
    forall id | id in Expired(j[1..], deadline, limit) ensures id > j[0].id {
      var k := ExpiredIsPending(j[1..], next, deadline, limit, id);
      assert j[k + 1].id == id;
    }
  }

  lemma {:induction false} ExpiredAreDistinct(j: Journal, next: nat, deadline: u64, limit: nat)
    requires IdsRise(j, next)
    ensures NoDup(Expired(j, deadline, limit))
  {
    if j != [] && limit > 0 {
      ExpiredAreDistinct(j[1..], next, deadline, if HasExpired(j[0], deadline) then limit - 1 else limit);
      LaterIdsAreHigher(j, next, deadline, limit - 1);
      assert j[0].id !in Expired(j[1..], deadline, limit - 1);
    }
  }

  lemma {:induction false} ExpiredArePending(j: Journal, next: nat, deadline: u64, limit: nat)
    requires IdsRise(j, next)
    ensures var ids := Expired(j, deadline, limit);
            NoDup(ids) && forall k :: 0 <= k < |ids| ==> IsPending(j, ids[k])
  {
    var ids := Expired(j, deadline, limit);
    ExpiredAreDistinct(j, next, deadline, limit);
    forall k | 0 <= k < |ids| ensures IsPending(j, ids[k]) {
      var i := ExpiredIsPending(j, next, deadline, limit, ids[k]);
      FindById(j, next, j[i]);
    }
  }

  /** How many entries have expired. */
  function CountExpired(j: Journal, deadline: u64): nat {
    if j == [] then 0 else (if HasExpired(j[0], deadline) then 1 else 0) + CountExpired(j[1..], deadline)
  }

  /** The limit leaves out exactly the expired decisions with that many expired before them. */
  lemma {:induction false} ExpiredIff(j: Journal, next: nat, deadline: u64, limit: nat, i: nat)
    requires IdsRise(j, next) && i < |j|
    ensures j[i].id in Expired(j, deadline, limit) <==> HasExpired(j[i], deadline) && CountExpired(j[..i], deadline) < limit
  {
    var rest := if HasExpired(j[0], deadline) && limit > 0 then limit - 1 else limit;
    if i == 0 {
      LaterIdsAreHigher(j, next, deadline, rest);
    } else {
      assert j[..i][0] == j[0] && j[..i][1..] == j[1..][..i - 1] && j[1..][i - 1] == j[i];
      assert j[i].id > j[0].id;
      ExpiredIff(j[1..], next, deadline, rest, i - 1);
    }
  }

  /** What settling a list of pending decisions does to every entry. */
  ghost predicate EntriesAfter(j: Journal, j': Journal, ids: seq<nat>, outcome: Outcome, now: u64) {
    && |j'| == |j|
    && forall i :: 0 <= i < |j| ==> j'[i] == if j[i].id in ids then Resolved(j[i], outcome, now) else j[i]
  }

  lemma {:induction false} OneMoreEntry(j: Journal, j1: Journal, j2: Journal, front: seq<nat>, id: nat,
          applied: seq<Application>,
          outcome: Outcome, now: u64, next: nat)
    requires IdsRise(j, next) && EntriesAfter(j, j1, front, outcome, now) && id !in front
    requires JournalStep(j1, j2, applied, id, outcome, now)
    ensures EntriesAfter(j, j2, front + [id], outcome, now)
  {
    FindSame(j, j1, id);
    var k := Find(j1, id);
    forall i | 0 <= i < |j| ensures j2[i] == if j[i].id in front + [id] then Resolved(j[i], outcome, now) else j[i] {
      assert i != k ==> j[i].id != id;
    }
  }

  lemma {:induction false} SettledAllEntries(s: Tables, ids: seq<nat>, outcome: Outcome, now: u64, c: NodeConfig)
    requires IdsRise(s.journal, s.nextJournalId) && NoDup(ids)
    ensures EntriesAfter(s.journal, SettledAll(s, ids, outcome, now, c).0.journal, ids, outcome, now)
  {
    if ids != [] {
      var front, id := ids[..|ids| - 1], ids[|ids| - 1];
      assert forall k :: 0 <= k < |front| ==> front[k] == ids[k];
      assert id !in front && front + [id] == ids;
      var s1 := SettledAll(s, front, outcome, now, c).0;
      var (s2, one) := Settled(s1, id, outcome, now, c);
      assert SettledAll(s, ids, outcome, now, c).0 == s2;
      hide SettledAll, Settled, EntriesAfter, JournalStep, IdsRise;
      SettledAllEntries(s, front, outcome, now, c);
      SettledJournal(s1, id, outcome, now, c);
      OneMoreEntry(s.journal, s1.journal, s2.journal, front, id, one, outcome, now, s.nextJournalId);
    }
  }

  /** The decision is pending, and was made more than a receipt window ago. */
  predicate IsOverdue(e: JournalEntry, now: u64, c: NodeConfig) {
    e.outcome == Pending && e.decidedAt + c.learning.receiptWindowSecs * 1_000_000_000 < now
  }

  function CountOverdue(j: Journal, now: u64, c: NodeConfig): nat {
    if j == [] then 0 else (if IsOverdue(j[0], now, c) then 1 else 0) + CountOverdue(j[1..], now, c)
  }

  lemma {:induction false} OverdueHasExpired(j: Journal, now: u64, c: NodeConfig)
    ensures CountExpired(j, c.learning.ReceiptDeadline(now)) == CountOverdue(j, now, c)
    ensures j != [] ==> (HasExpired(j[0], c.learning.ReceiptDeadline(now)) <==> IsOverdue(j[0], now, c))
  {
    if j != [] { OverdueHasExpired(j[1..], now, c); }
  }

  /** A sweep times out, now, exactly the pending decisions made more than a receipt window
      ago, up to its limit in the order they were made, and touches no other. */
  lemma {:induction false} SweepTimesOutExactly(s: Tables, limit: nat, now: u64, c: NodeConfig, i: nat)
    requires IdsRise(s.journal, s.nextJournalId) && i < |s.journal|
    ensures var j' := AfterSweep(s, limit, now, c).0.journal;
            && |j'| == |s.journal|
            && j'[i] == if IsOverdue(s.journal[i], now, c) && CountOverdue(s.journal[..i], now, c) < limit
                        then s.journal[i].(outcome := TimedOut, resolvedAt := Some(now)) else s.journal[i]
  {
    var deadline := c.learning.ReceiptDeadline(now);
    var ids := Expired(s.journal, deadline, limit);
    OverdueHasExpired(s.journal[..i], now, c);
    OverdueHasExpired(s.journal[i..], now, c);
    ExpiredAreDistinct(s.journal, s.nextJournalId, deadline, limit);
    SettledAllEntries(s, ids, TimedOut, now, c);
    ExpiredIff(s.journal, s.nextJournalId, deadline, limit, i);
    assert HasExpired(s.journal[i], deadline) ==> !s.journal[i].outcome.IsResolved();
    hide SettledAll, CountExpired, Expired, CountOverdue, HasExpired, IsOverdue;
  }

  // ---- forwards and their decisions ------------------------------------------------------------

  /** Every planned forward names a pending entry of its own, for this signal, synapse and
      peer; earlier entries are untouched. */
  lemma {:induction false} ForwardsNameTheirDecisions(s: Tables, signal: Signal, chosen: seq<Chosen>, now: u64)
    requires IdsRise(s.journal, s.nextJournalId)
    ensures var (s', out) := Journalled(s, signal, chosen, now);
            && |out| == |chosen| && IdsRise(s'.journal, s'.nextJournalId)
            && |s'.journal| == |s.journal| + |chosen| && s'.journal[..|s.journal|] == s.journal
            && forall k :: 0 <= k < |chosen| ==>
                 && out[k].synapse == chosen[k].synapse.id && out[k].peer == chosen[k].synapse.peer
                 && out[k].explored == chosen[k].explored
                 && s'.journal[|s.journal| + k] ==
                      JournalEntry(out[k].journalId, signal.id, chosen[k].synapse.id, chosen[k].synapse.peer, chosen[k].score,
                                   signal.weight, chosen[k].explored, now, Pending, None)
  {
    if chosen != [] {
      var front := chosen[..|chosen| - 1];
      ForwardsNameTheirDecisions(s, signal, front, now);
    }
  }

  lemma {:induction false} OthersStayPending(j: Journal, j': Journal, applied: seq<Application>, id: nat,
          outcome: Outcome, now: u64, other: nat)
    requires JournalStep(j, j', applied, id, outcome, now) && other != id && IsPending(j, other)
    ensures IsPending(j', other)
  {
    FindSame(j, j', other);
  }

  lemma {:induction false} FindSame(j: Journal, j': Journal, id: nat)
    requires |j| == |j'| && forall i :: 0 <= i < |j| ==> j[i].id == j'[i].id
    ensures Find(j, id) == Find(j', id)
  {
    if Find(j, id) < |j| { assert j'[Find(j, id)].id == id; }
    if Find(j', id) < |j| { assert j[Find(j', id)].id == id; }
  }

  /** Settling other decisions leaves this one pending. */
  lemma {:induction false} SettledAllLeavesPending(s: Tables, ids: seq<nat>, outcome: Outcome, now: u64, c: NodeConfig,
          other: nat)
    requires other !in ids && IsPending(s.journal, other)
    ensures IsPending(SettledAll(s, ids, outcome, now, c).0.journal, other)
  {
    if ids != [] {
      var front, id := ids[..|ids| - 1], ids[|ids| - 1];
      hide Settled, IsPending, JournalStep;
      SettledAllLeavesPending(s, front, outcome, now, c, other);
      var s1 := SettledAll(s, front, outcome, now, c).0;
      var (s2, one) := Settled(s1, id, outcome, now, c);
      SettledJournal(s1, id, outcome, now, c);
      OthersStayPending(s1.journal, s2.journal, one, id, outcome, now, other);
    }
  }

  lemma {:induction false} SettledAllKeepsAccount(s: Tables, ids: seq<nat>, outcome: Outcome, now: u64, c: NodeConfig,
          log: seq<Application>)
    requires Account(Run(s, log)) && outcome.IsResolved()
    requires NoDup(ids) && forall k :: 0 <= k < |ids| ==> IsPending(s.journal, ids[k])
    ensures var (s', applied) := SettledAll(s, ids, outcome, now, c);
            Account(Run(s', log + applied))
  {
    if ids == [] {
      assert log + [] == log;
    } else {
      var front, id := ids[..|ids| - 1], ids[|ids| - 1];
      assert forall k :: 0 <= k < |front| ==> front[k] == ids[k];
      assert id !in front && IsPending(s.journal, id);
      var (s1, as1) := SettledAll(s, front, outcome, now, c);
      var (s2, as2) := Settled(s1, id, outcome, now, c);
      assert SettledAll(s, ids, outcome, now, c) == (s2, as1 + as2);
      assert (log + as1) + as2 == log + (as1 + as2);
      hide *;
      SettledAllKeepsAccount(s, front, outcome, now, c, log);
      SettledAllLeavesPending(s, front, outcome, now, c, id);
      PendingIsNotAlready(s1.journal, id, now);
      SettledKeepsAccount(s1, log + as1, id, outcome, now, c);
    }
  }

  lemma {:induction false} StepKeepsIds(j: Journal, j': Journal, applied: seq<Application>, id: nat, outcome: Outcome,
          now: u64, next: nat)
    requires JournalStep(j, j', applied, id, outcome, now) && IdsRise(j, next)
    ensures IdsRise(j', next)
  {
  }

  lemma {:induction false} PendingIsNotAlready(j: Journal, id: nat, now: u64)
    requires IsPending(j, id)
    ensures !AlreadyAt(j, id, now)
  {
  }

  // ---- one input --------------------------------------------------------------------------------

  ghost predicate Account(r: Run) {
    IdsRise(r.s.journal, r.s.nextJournalId) && Stamped(r.s.journal, r.log, r.s.nextJournalId) && Exact(r.s.journal, r.log)
  }

  /** Some decision has been learnt from twice. */
  ghost predicate LearntTwice(r: Run) {
    exists i :: 0 <= i < |r.s.journal| && |Marks(r.log, r.s.journal[i].id)| >= 2
  }

  lemma {:induction false} AppendKeepsAccount(s: Tables, log: seq<Application>, e: JournalEntry)
    requires Account(Run(s, log)) && e.outcome.Pending? && e.resolvedAt.None?
    ensures Account(Run(s.(journal := Appended(s.journal, s.nextJournalId, e), nextJournalId := s.nextJournalId + 1), log))
  {
    NoMarksYet(log, s.nextJournalId + 1);
  }

  lemma {:induction false} DecidingKeepsAccount(s: Tables, log: seq<Application>, signal: Signal, chosen: seq<Chosen>,
          now: u64)
    requires Account(Run(s, log))
    ensures Account(Run(Journalled(s, signal, chosen, now).0, log))
  {
    hide Account, Appended;
    if chosen != [] {
      var front, last := chosen[..|chosen| - 1], chosen[|chosen| - 1];
      DecidingKeepsAccount(s, log, signal, front, now);
      AppendKeepsAccount(Journalled(s, signal, front, now).0, log, Decision(signal, last, now));
    }
  }

  lemma {:induction false} SettledKeepsAccount(s: Tables, log: seq<Application>, id: nat, outcome: Outcome, now: u64,
          c: NodeConfig)
    requires Account(Run(s, log)) && outcome.IsResolved()
    ensures var (s', applied) := Settled(s, id, outcome, now, c);
            && (!AlreadyAt(s.journal, id, now) ==> Account(Run(s', log + applied)))
            && (AlreadyAt(s.journal, id, now) ==> LearntTwice(Run(s', log + applied)))
  {
    SettledJournal(s, id, outcome, now, c);
    hide Settled;
    var (s', applied) := Settled(s, id, outcome, now, c);
    SettleKeepsStamped(s.journal, s'.journal, log, applied, id, outcome, now, s.nextJournalId);
    StepKeepsIds(s.journal, s'.journal, applied, id, outcome, now, s.nextJournalId);
    if AlreadyAt(s.journal, id, now) {
      RepeatMarksTwice(s.journal, s'.journal, log, applied, id, outcome, now);
      assert s'.journal[Find(s.journal, id)].id == id;
    } else {
      SettleKeepsExact(s.journal, s'.journal, log, applied, id, outcome, now, s.nextJournalId);
    }
  }

  lemma {:induction false} StepKeepsAccount(r: Run, input: Input, c: NodeConfig)
    requires Account(r)
    ensures !Repeats(r.s, input) ==> Account(Next(r, input, c))
    ensures Repeats(r.s, input) ==> LearntTwice(Next(r, input, c))
  {
    assert r.log + [] == r.log;
    match input
    case Decide(signal, chosen, now) => DecidingKeepsAccount(r.s, r.log, signal, chosen, now);
    case Receipt(signal, status, from, now) =>
      var found := PendingFor(r.s.journal, signal, from);
      if found.Some? {
        FindById(r.s.journal, r.s.nextJournalId, found.value);
        SettledKeepsAccount(r.s, r.log, found.value.id, OutcomeOf(status), now, c);
      }
    case Sweep(limit, now) =>
      ExpiredArePending(r.s.journal, r.s.nextJournalId, c.learning.ReceiptDeadline(now), limit);
      SettledAllKeepsAccount(r.s, Expired(r.s.journal, c.learning.ReceiptDeadline(now), limit), TimedOut, now, c, r.log);
    case Fail(id, now) => SettledKeepsAccount(r.s, r.log, id, TransportFailure, now, c);
    case BadSignature(_, _) =>
    case Reconnect(_, _, _) =>
  }

  lemma {:induction false} FindById(j: Journal, next: nat, e: JournalEntry)
    requires IdsRise(j, next) && e in j
    ensures Find(j, e.id) < |j| && j[Find(j, e.id)] == e
  {
    var k :| 0 <= k < |j| && j[k] == e;
  }

  lemma {:induction false} LearntTwiceStays(r: Run, input: Input, c: NodeConfig)
    requires LearntTwice(r)
    ensures LearntTwice(Next(r, input, c))
  {
    StepExtends(r.s, input, c);
    hide Step;
    var i :| 0 <= i < |r.s.journal| && |Marks(r.log, r.s.journal[i].id)| >= 2;
    MarksGrow(r.log, Step(r.s, input, c).1, r.s.journal[i].id);
    assert Next(r, input, c).s.journal[i].id == r.s.journal[i].id;
  }

  lemma {:induction false} ExactOrTwice(r: Run)
    requires Exact(r.s.journal, r.log)
    ensures !LearntTwice(r)
  {
  }

  // ---- every run ----------------------------------------------------------------------------------

  ghost predicate NeverRepeats(inputs: seq<Input>, c: NodeConfig) {
    forall n :: 0 <= n < |inputs| ==> !Repeats(After(inputs[..n], c).s, inputs[n])
  }

  lemma {:induction false} AccountOfRun(inputs: seq<Input>, c: NodeConfig)
    ensures NeverRepeats(inputs, c) ==> Account(After(inputs, c))
    ensures !NeverRepeats(inputs, c) ==> LearntTwice(After(inputs, c))
  {
    if inputs == [] {
    } else {
      var front, last := inputs[..|inputs| - 1], inputs[|inputs| - 1];
      var r := After(front, c);
      assert After(inputs, c) == Next(r, last, c);
      NeverRepeatsSnoc(inputs, c);
      AccountOfRun(front, c);
      hide Next, After, Account, LearntTwice, NeverRepeats, Repeats;
      if NeverRepeats(front, c) {
        StepKeepsAccount(r, last, c);
      } else {
        LearntTwiceStays(r, last, c);
      }
    }
  }

  lemma {:induction false} NeverRepeatsSnoc(inputs: seq<Input>, c: NodeConfig)
    requires inputs != []
    ensures var front := inputs[..|inputs| - 1];
            NeverRepeats(inputs, c) <==> NeverRepeats(front, c) && !Repeats(After(front, c).s, inputs[|inputs| - 1])
  {
    hide Repeats, After;
    var front := inputs[..|inputs| - 1];
    forall n | 0 <= n < |front| ensures front[..n] == inputs[..n] && front[n] == inputs[n] {}
  }

  /** Over any run: every decision has been learnt from exactly once, with its journalled
      outcome at its resolution, if and only if no failed forward came at the very reading
      at which its decision had already been resolved. */
  lemma {:induction false} ExactlyOnceIff(inputs: seq<Input>, c: NodeConfig)
    ensures Exact(After(inputs, c).s.journal, After(inputs, c).log) <==> NeverRepeats(inputs, c)
  {
    AccountOfRun(inputs, c);
    if Exact(After(inputs, c).s.journal, After(inputs, c).log) {
      ExactOrTwice(After(inputs, c));
    }
  }

  // ---- a strictly rising clock never repeats ---------------------------------------------------------

  predicate Rising(inputs: seq<Input>) {
    forall i, j :: 0 <= i < j < |inputs| ==> inputs[i].at < inputs[j].at
  }

  ghost predicate StampedBefore(j: Journal, now: u64) {
    forall i :: 0 <= i < |j| && j[i].resolvedAt.Some? ==> j[i].resolvedAt.value <= now
  }

  lemma {:induction false} SettledAllStamps(s: Tables, ids: seq<nat>, outcome: Outcome, now: u64, c: NodeConfig)
    requires StampedBefore(s.journal, now)
    ensures StampedBefore(SettledAll(s, ids, outcome, now, c).0.journal, now)
  {
    if ids != [] {
      SettledAllStamps(s, ids[..|ids| - 1], outcome, now, c);
      SettledJournal(SettledAll(s, ids[..|ids| - 1], outcome, now, c).0, ids[|ids| - 1], outcome, now, c);
      hide Settled;
    }
  }

  lemma {:induction false} JournalledStamps(s: Tables, signal: Signal, chosen: seq<Chosen>, now: u64)
    requires StampedBefore(s.journal, now)
    ensures StampedBefore(Journalled(s, signal, chosen, now).0.journal, now)
  {
    if chosen != [] { JournalledStamps(s, signal, chosen[..|chosen| - 1], now); }
  }

  lemma {:induction false} StepStamps(s: Tables, before: u64, input: Input, c: NodeConfig)
    requires StampedBefore(s.journal, before) && before <= input.at
    ensures StampedBefore(Step(s, input, c).0.journal, input.at)
  {
    hide Settled, SettledAll, Journalled;
    assert StampedBefore(s.journal, input.at);
    match input
    case Decide(signal, chosen, now) => JournalledStamps(s, signal, chosen, now);
    case Receipt(signal, status, from, now) =>
      var found := PendingFor(s.journal, signal, from);
      if found.Some? { SettledJournal(s, found.value.id, OutcomeOf(status), now, c); }
    case Sweep(limit, now) =>
      SettledAllStamps(s, Expired(s.journal, c.learning.ReceiptDeadline(now), limit), TimedOut, now, c);
    case Fail(id, now) => SettledJournal(s, id, TransportFailure, now, c);
    case _ =>
  }

  function LastReading(inputs: seq<Input>): u64 {
    if inputs == [] then 0 else inputs[|inputs| - 1].at
  }

  lemma {:induction false} StampsOfRun(inputs: seq<Input>, c: NodeConfig)
    requires Rising(inputs)
    ensures StampedBefore(After(inputs, c).s.journal, LastReading(inputs))
  {
    if inputs != [] {
      var front := inputs[..|inputs| - 1];
      StampsOfRun(front, c);
      assert front != [] ==> front[|front| - 1] == inputs[|inputs| - 2];
      hide Step;
      StepStamps(After(front, c).s, LastReading(front), inputs[|inputs| - 1], c);
    }
  }

  lemma {:induction false} RisingNeverRepeats(inputs: seq<Input>, n: nat, c: NodeConfig)
    requires Rising(inputs) && n < |inputs|
    ensures !Repeats(After(inputs[..n], c).s, inputs[n])
  {
    var front := inputs[..n];
    StampsOfRun(front, c);
    if n == 0 {
      assert After(front, c).s.journal == [];
    } else {
      assert front[|front| - 1] == inputs[n - 1];
      assert LastReading(front) < inputs[n].at;
    }
    hide After;
  }

  /** With strictly rising clock readings, in any interleaving of receipts with replays,
      sweeps and failed forwards, each decision is learnt from exactly once. */
  lemma {:induction false} RisingClockIsExact(inputs: seq<Input>, c: NodeConfig)
    requires Rising(inputs)
    ensures Exact(After(inputs, c).s.journal, After(inputs, c).log)
  {
    forall n | 0 <= n < |inputs| ensures !Repeats(After(inputs[..n], c).s, inputs[n]) {
      RisingNeverRepeats(inputs, n, c);
    }
    ExactlyOnceIff(inputs, c);
  }

  // ---- and an equal reading does ---------------------------------------------------------------------

  const EXAMPLE_SIGNAL := Signal(7, 3, 0.5, 4, Gradient, [3], Acknowledged)
  const EXAMPLE_CHOICE := Chosen(SynapseRecord(10, 1, 0.1, Active, 1, 0, 0), 0.0, false)

  /** A receipt and a failed forward for one decision, both at reading 5. */
  function SameReading(): seq<Input> {
    [Reconnect(1, 10, 1), Decide(EXAMPLE_SIGNAL, [EXAMPLE_CHOICE], 2), Receipt(7, ReceiptDelivered, 1, 5), Fail(1, 5)]
  }

  lemma {:induction false} ExampleJournal(c: NodeConfig)
    ensures After(SameReading()[..2], c).s.journal == [Decision(EXAMPLE_SIGNAL, EXAMPLE_CHOICE, 2).(id := 1)]
  {
    var inputs := SameReading();
    assert inputs[..2][..1] == inputs[..1] && inputs[..1][..0] == [];
    hide Upsert;
    var s1 := After(inputs[..1], c).s;
    assert After(inputs[..1], c) == Next(Run(EMPTY, []), inputs[0], c);
    UpsertJournal(EMPTY, 1, 10, 1, c);
    assert s1.journal == [] && s1.nextJournalId == 0;
    assert After(inputs[..2], c) == Next(After(inputs[..1], c), inputs[1], c);
    assert [EXAMPLE_CHOICE][..0] == [];
    assert Journalled(s1, EXAMPLE_SIGNAL, [], 2) == (s1, []);
  }

  lemma {:induction false} UpsertJournal(s: Tables, peer: NodeId, freshId: SynapseId, now: u64, c: NodeConfig)
    ensures var s' := Upsert(s, peer, freshId, now, c).0; s'.journal == s.journal && s'.nextJournalId == s.nextJournalId
  {
  }

  /** The clock hypothesis is needed: the delivery is learnt, and then the failure too. */
  lemma {:induction false} SameReadingLearnsTwice(c: NodeConfig)
    ensures !Exact(After(SameReading(), c).s.journal, After(SameReading(), c).log)
  {
    var inputs := SameReading();
    var e := Decision(EXAMPLE_SIGNAL, EXAMPLE_CHOICE, 2).(id := 1);
    ExampleJournal(c);
    var s := After(inputs[..2], c).s;
    assert inputs[..3][..2] == inputs[..2];
    assert After(inputs[..3], c) == Next(After(inputs[..2], c), inputs[2], c);
    assert s.journal == [e] && Awaits(e, 7, 1);
    assert PendingFor(s.journal, 7, 1) == Some(e);
    SettledJournal(s, 1, Delivered, 5, c);
    hide Settled, Marks, Exact;
    assert Find([e], 1) == 0;
    var s' := After(inputs[..3], c).s;
    assert s'.journal == [e.(outcome := Delivered, resolvedAt := Some(5))];
    assert Repeats(s', inputs[3]);
    assert !NeverRepeats(inputs, c);
    ExactlyOnceIff(inputs, c);
  }
}
