/** The in-memory store: the deduplication map, the decision journal, the influence
    log and the synapse table. */
module Store {
  import opened Base
  import opened Sorting
  import opened Synapses

  datatype JournalEntry = JournalEntry(
    id: nat,
    signal: SignalId,
    synapse: SynapseId,
    peer: NodeId,
    score: real,
    signalWeight: real,
    explored: bool,
    decidedAt: u64,
    outcome: Outcome,
    resolvedAt: Option<u64>)

  datatype Influence = Influence(peer: NodeId, magnitude: real, at: u64)

  type SynapseTable = map<SynapseId, SynapseRecord>
  type Journal = seq<JournalEntry>

  /** Everything the store holds. */
  datatype Tables = Tables(
    synapses: SynapseTable,
    seen: map<SignalId, u64>,
    journal: Journal,
    nextJournalId: nat,
    influence: seq<Influence>)

  // ---- deduplication ------------------------------------------------------------------

  function Expiry(now: u64, ttlSecs: u64): u64 {
    SatAdd(now, SatMul(ttlSecs, NANOS_PER_SEC))
  }

  predicate IsLive(seen: map<SignalId, u64>, id: SignalId, now: u64) {
    id in seen && seen[id] > now
  }

  /** The map after a check, and whether the signal had been seen. */
  function CheckAndSetSeen(seen: map<SignalId, u64>, id: SignalId, now: u64, ttlSecs: u64): (map<SignalId, u64>, bool) {
    if IsLive(seen, id, now) then (seen, true) else (seen[id := Expiry(now, ttlSecs)], false)
  }

  function PurgeExpired(seen: map<SignalId, u64>, now: u64): map<SignalId, u64> {
    map id | id in seen && seen[id] > now :: seen[id]
  }

  // ---- the journal -----------------------------------------------------------------------

  function Appended(journal: Journal, nextId: nat, entry: JournalEntry): Journal {
    journal + [entry.(id := nextId + 1)]
  }

  /** Position of the first entry with this id, or the length. */
  function Find(journal: Journal, id: nat): (i: nat)
    ensures i <= |journal|
    ensures i < |journal| ==> journal[i].id == id
    ensures forall j :: 0 <= j < i ==> journal[j].id != id
  {
    if journal == [] || journal[0].id == id then 0 else 1 + Find(journal[1..], id)
  }

  function Resolved(e: JournalEntry, outcome: Outcome, now: u64): JournalEntry {
    if e.outcome.IsResolved() then e else e.(outcome := outcome, resolvedAt := Some(now))
  }

  /** First outcome wins: a resolved entry is returned as it stands. */
  function Resolve(journal: Journal, id: nat, outcome: Outcome, now: u64): (Journal, Option<JournalEntry>) {
    var i := Find(journal, id);
    if i == |journal| then (journal, None)
    else (journal[i := Resolved(journal[i], outcome, now)], Some(Resolved(journal[i], outcome, now)))
  }

  predicate Awaits(e: JournalEntry, signal: SignalId, peer: NodeId) {
    e.signal == signal && e.peer == peer && !e.outcome.IsResolved()
  }

  /** The first decision awaiting this peer's receipt for this signal. */
  function PendingFor(journal: Journal, signal: SignalId, peer: NodeId): (r: Option<JournalEntry>)
    ensures r.Some? ==> r.value in journal && Awaits(r.value, signal, peer)
    ensures r.None? ==> forall e :: e in journal ==> !Awaits(e, signal, peer)
  {
    if journal == [] then None
    else if Awaits(journal[0], signal, peer) then Some(journal[0])
    else PendingFor(journal[1..], signal, peer)
  }

  predicate HasExpired(e: JournalEntry, deadline: u64) {
    !e.outcome.IsResolved() && e.decidedAt < deadline
  }

  /** The ids of the first `limit` unresolved decisions made before the deadline. */
  function Expired(journal: Journal, deadline: u64, limit: nat): (ids: seq<nat>)
    ensures |ids| <= limit
  {
    if journal == [] || limit == 0 then []
    else if HasExpired(journal[0], deadline) then [journal[0].id] + Expired(journal[1..], deadline, limit - 1)
    else Expired(journal[1..], deadline, limit)
  }

  // ---- influence ------------------------------------------------------------------------------

  function Abs(x: real): real {
    if x < 0.0 then -x else x
  }

  function InfluenceSince(log: seq<Influence>, peer: NodeId, windowStart: u64): real {
    if log == [] then 0.0
    else
      var last := log[|log| - 1];
      InfluenceSince(log[..|log| - 1], peer, windowStart)
      + if last.peer == peer && last.at >= windowStart then last.magnitude else 0.0
  }

  // ---- the synapse table ------------------------------------------------------------------------

  ghost predicate KeyedById(t: SynapseTable) {
    forall id :: id in t ==> t[id].id == id
  }

  ghost predicate OnePerPeer(t: SynapseTable) {
    forall a, b :: a in t && b in t && t[a].peer == t[b].peer ==> a == b
  }

  /** A synapse to this peer, if the table has one. */
  ghost function SynapseFor(t: SynapseTable, peer: NodeId): (r: Option<SynapseId>)
    ensures r.Some? ==> r.value in t && t[r.value].peer == peer
    ensures r.None? ==> forall id :: id in t ==> t[id].peer != peer
  {
    if exists id :: id in t && t[id].peer == peer
    then
      var id :| id in t && t[id].peer == peer;
      Some(id)
    else None
  }

  predicate HeaviestFirst(a: SynapseRecord, b: SynapseRecord) {
    a.weight > b.weight || (a.weight == b.weight && a.id <= b.id)
  }

  lemma {:induction false} HeaviestFirstIsOrder()
    ensures TotalPreorder(HeaviestFirst)
  {
  }

  /** A filter on states; the empty set admits every state. */
  predicate Passes(r: SynapseRecord, states: set<SynapseState>) {
    states == {} || r.state in states
  }

  function Ids(rs: seq<SynapseRecord>): (ids: seq<SynapseId>)
    ensures |ids| == |rs| && forall i :: 0 <= i < |rs| ==> ids[i] == rs[i].id
  {
    Map((r: SynapseRecord) => r.id, rs)
  }

  ghost predicate Covers(rs: seq<SynapseRecord>, t: SynapseTable, states: set<SynapseState>) {
    && (forall i :: 0 <= i < |rs| ==> rs[i].id in t && t[rs[i].id] == rs[i] && Passes(rs[i], states))
    && (forall id :: id in t && Passes(t[id], states) ==> t[id] in rs)
    && NoDup(Ids(rs))
  }

  /** The records that pass the filter, each once, heaviest first. */
  ghost predicate IsListing(rs: seq<SynapseRecord>, t: SynapseTable, states: set<SynapseState>) {
    Covers(rs, t, states) && SortedBy(rs, HeaviestFirst)
  }

  lemma {:induction false} SortKeepsIds(rs: seq<SynapseRecord>)
    ensures NoDup(Ids(Sort(rs, HeaviestFirst))) <==> NoDup(Ids(rs))
  {
    hide HeaviestFirst, Sort;
    var out := Sort(rs, HeaviestFirst);
    SortPermutes(rs, HeaviestFirst);
    MapPermutes((r: SynapseRecord) => r.id, rs, out);
    NoDupByCount(Ids(rs));
    NoDupByCount(Ids(out));
  }

  lemma {:induction false} SortCovers(rs: seq<SynapseRecord>, t: SynapseTable, states: set<SynapseState>)
    requires Covers(rs, t, states)
    ensures IsListing(Sort(rs, HeaviestFirst), t, states)
  {
    hide HeaviestFirst, Sort, NoDup, Passes;
    var out := Sort(rs, HeaviestFirst);
    SortPermutes(rs, HeaviestFirst);
    HeaviestFirstIsOrder();
    SortSorts(rs, HeaviestFirst);
    SameMembers(rs, out);
    SortKeepsIds(rs);
    forall i | 0 <= i < |out| ensures out[i].id in t && t[out[i].id] == out[i] && Passes(out[i], states) {
      assert out[i] in rs;
    }
  }

  lemma {:induction false} SameMembers<T>(s: seq<T>, t: seq<T>)
    requires multiset(s) == multiset(t)
    ensures forall x :: x in s <==> x in t
  {
    forall x ensures x in s <==> x in t {
      assert x in s <==> x in multiset(s);
    }
  }

  lemma {:induction false} ListingHasNoDup(rs: seq<SynapseRecord>, t: SynapseTable, states: set<SynapseState>)
    requires Covers(rs, t, states)
    ensures NoDup(rs)
  {
    forall i, j | 0 <= i < j < |rs| ensures rs[i] != rs[j] { assert Ids(rs)[i] != Ids(rs)[j]; }
  }

  lemma {:induction false} SameElements<T>(a: seq<T>, b: seq<T>)
    requires NoDup(a) && NoDup(b) && forall x :: x in a <==> x in b
    ensures multiset(a) == multiset(b)
  {
    NoDupByCount(a);
    NoDupByCount(b);
    hide NoDup;
    forall x ensures multiset(a)[x] == multiset(b)[x] {
      assert x in a <==> multiset(a)[x] > 0;
      assert x in b <==> multiset(b)[x] > 0;
    }
  }

  /** The order leaves no choice: a table has one listing. */
  lemma {:induction false} ListingIsUnique(a: seq<SynapseRecord>, b: seq<SynapseRecord>, t: SynapseTable,
          states: set<SynapseState>)
    requires IsListing(a, t, states) && IsListing(b, t, states)
    ensures a == b
  {
    ListingHasNoDup(a, t, states);
    ListingHasNoDup(b, t, states);
    forall x ensures x in a <==> x in b { assert x in a ==> t[x.id] == x; assert x in b ==> t[x.id] == x; }
    hide Covers, NoDup;
    SameElements(a, b);
    SortedUnique(a, b, HeaviestFirst);
  }

  /** A listing has exactly the records in the given states, or all if none are given, the
      heaviest first and equals by id. */
  lemma {:induction false} ListingHas(rs: seq<SynapseRecord>, t: SynapseTable, states: set<SynapseState>)
    requires KeyedById(t) && IsListing(rs, t, states)
    ensures forall r :: r in rs <==> r.id in t && t[r.id] == r && (states == {} || r.state in states)
    ensures forall i, j :: 0 <= i < j < |rs| ==>
              rs[i].weight > rs[j].weight || (rs[i].weight == rs[j].weight && rs[i].id < rs[j].id)
  {
    forall r | r in rs ensures r.id in t && t[r.id] == r && Passes(r, states) {
      var i :| 0 <= i < |rs| && rs[i] == r;
    }
    forall i, j | 0 <= i < j < |rs| ensures HeaviestFirst(rs[i], rs[j]) && rs[i].id != rs[j].id {
      assert Ids(rs)[i] != Ids(rs)[j];
    }
  }

  // ---- the store, in place ------------------------------------------------------------------------

  class MemoryStore {
    var synapses: SynapseTable
    var seen: map<SignalId, u64>
    var journal: Journal
    var nextJournalId: nat
    var influence: seq<Influence>

    function View(): Tables
      reads this
    {
      Tables(synapses, seen, journal, nextJournalId, influence)
    }

    constructor ()
      ensures View() == Tables(map[], map[], [], 0, [])
    {
      synapses, seen, journal, nextJournalId, influence := map[], map[], [], 0, [];
    }

    method CheckAndSet(id: SignalId, now: u64, ttlSecs: u64) returns (had: bool)
      modifies this`seen
      ensures (seen, had) == CheckAndSetSeen(old(seen), id, now, ttlSecs)
    {
      var expires := Expiry(now, ttlSecs);
      if id in seen && seen[id] > now {
        return true;
      }
      seen := seen[id := expires];
      had := false;
    }

    method PurgeSeen(now: u64) returns (purged: nat)
      modifies this`seen
      ensures seen == PurgeExpired(old(seen), now)
      ensures purged == |old(seen)| - |seen|
    {
      var before := |seen|;
      var kept := map id | id in seen && seen[id] > now :: seen[id];
      assert kept.Keys <= seen.Keys;
      SubsetSize(kept.Keys, seen.Keys);
      assert |kept| == |kept.Keys| && |seen| == |seen.Keys|;
      seen := kept;
      purged := before - |seen|;
    }

    method AppendDecision(entry: JournalEntry) returns (id: nat)
      modifies this`journal, this`nextJournalId
      ensures journal == Appended(old(journal), old(nextJournalId), entry)
      ensures id == nextJournalId == old(nextJournalId) + 1
    {
      nextJournalId := nextJournalId + 1;
      id := nextJournalId;
      journal := journal + [entry.(id := id)];
    }

    method ResolveDecision(id: nat, outcome: Outcome, now: u64) returns (entry: Option<JournalEntry>)
      modifies this`journal
      ensures (journal, entry) == Resolve(old(journal), id, outcome, now)
    {
      var i := 0;
      while i < |journal| && journal[i].id != id
        invariant 0 <= i <= |journal|
        invariant forall j :: 0 <= j < i ==> journal[j].id != id
      {
        i := i + 1;
      }
      assert i == Find(journal, id);
      if i == |journal| {
        return None;
      }
      assert journal[i := journal[i]] == journal;
      if !journal[i].outcome.IsResolved() {
        journal := journal[i := journal[i].(outcome := outcome, resolvedAt := Some(now))];
      }
      entry := Some(journal[i]);
    }

    method RecordInfluence(peer: NodeId, magnitude: real, now: u64, windowStart: u64) returns (total: real)
      modifies this`influence
      ensures influence == old(influence) + [Influence(peer, Abs(magnitude), now)]
      ensures total == InfluenceSince(influence, peer, windowStart)
    {
      influence := influence + [Influence(peer, Abs(magnitude), now)];
      total := InfluenceSince(influence, peer, windowStart);
    }

    method PutSynapse(record: SynapseRecord)
      modifies this`synapses
      ensures synapses == old(synapses)[record.id := record]
    {
      synapses := synapses[record.id := record];
    }

    method ListSynapses(states: set<SynapseState>) returns (records: seq<SynapseRecord>)
      requires KeyedById(synapses)
      ensures IsListing(records, synapses, states)
    {
      records := [];
      var left := synapses.Keys;
      while left != {}
        invariant left <= synapses.Keys
        invariant forall i :: 0 <= i < |records| ==>
          var id := records[i].id;
          id in synapses && id !in left && synapses[id] == records[i] && Passes(records[i], states)
        invariant forall id :: id in synapses && id !in left && Passes(synapses[id], states) ==> synapses[id] in records
        invariant NoDup(Ids(records))
        decreases |left|
      {
        var id :| id in left;
        if Passes(synapses[id], states) {
          assert Ids(records + [synapses[id]]) == Ids(records) + [id];
          records := records + [synapses[id]];
        }
        left := left - {id};
      }
      SortCovers(records, synapses, states);
      records := Sort(records, HeaviestFirst);
    }

    /** Walks the table until it meets a synapse to this peer. */
    method SynapseForPeer(peer: NodeId) returns (r: Option<SynapseId>)
      requires OnePerPeer(synapses)
      ensures r == SynapseFor(synapses, peer)
    {
      var left := synapses.Keys;
      while left != {}
        invariant left <= synapses.Keys
        invariant forall id :: id in synapses && id !in left ==> synapses[id].peer != peer
        decreases |left|
      {
        var id :| id in left;
        if synapses[id].peer == peer {
          return Some(id);
        }
        left := left - {id};
      }
      r := None;
    }
  }

  lemma {:induction false} SubsetSize<T>(a: set<T>, b: set<T>)
    requires a <= b
    ensures |a| <= |b|
  {
    assert b == a + (b - a);
  }

  // ---- deduplication refines the full history ------------------------------------------------

  datatype SeenInput =
    | Check(id: SignalId, at: u64, ttlSecs: u64)
    | Purge(at: u64)

  datatype Sighting = Sighting(id: SignalId, at: u64, expires: u64)

  /** The map, with every sighting that was ever accepted. */
  datatype SeenRun = SeenRun(seen: map<SignalId, u64>, accepted: seq<Sighting>)

  function SeenNext(r: SeenRun, input: SeenInput): SeenRun {
    match input
    case Check(id, now, ttl) =>
      var (seen, had) := CheckAndSetSeen(r.seen, id, now, ttl);
      SeenRun(seen, if had then r.accepted else r.accepted + [Sighting(id, now, Expiry(now, ttl))])
    case Purge(now) => r.(seen := PurgeExpired(r.seen, now))
  }

  function SeenAfter(inputs: seq<SeenInput>): SeenRun {
    if inputs == [] then SeenRun(map[], [])
    else SeenNext(SeenAfter(inputs[..|inputs| - 1]), inputs[|inputs| - 1])
  }

  /** Clock readings never go back. */
  predicate Ordered(inputs: seq<SeenInput>) {
    forall i, j :: 0 <= i < j < |inputs| ==> inputs[i].at <= inputs[j].at
  }

  ghost predicate RemembersUnexpired(r: SeenRun, id: SignalId, now: u64) {
    exists k :: 0 <= k < |r.accepted| && r.accepted[k].id == id && r.accepted[k].expires > now
  }

  // ---- when the map answers as the history would ---------------------------------------------

  /** What the map knows it learnt from an accepted sighting. */
  ghost predicate SeenFromAccepted(r: SeenRun) {
    forall id :: id in r.seen ==>
      exists k :: 0 <= k < |r.accepted| && r.accepted[k].id == id && r.accepted[k].expires == r.seen[id]
  }

  lemma {:induction false} SeenStaysAccepted(r: SeenRun, input: SeenInput)
    requires SeenFromAccepted(r)
    ensures SeenFromAccepted(SeenNext(r, input))
    ensures r.accepted <= SeenNext(r, input).accepted
  {
    var r' := SeenNext(r, input);
    forall id | id in r'.seen
      ensures exists k :: 0 <= k < |r'.accepted| && r'.accepted[k].id == id && r'.accepted[k].expires == r'.seen[id]
    {
      if id in r.seen && r'.seen[id] == r.seen[id] {
        var k :| 0 <= k < |r.accepted| && r.accepted[k].id == id && r.accepted[k].expires == r.seen[id];
        assert r'.accepted[k] == r.accepted[k];
      } else {
        assert r'.accepted[|r.accepted|].id == id;
      }
    }
  }

  lemma {:induction false} RunSeenFromAccepted(inputs: seq<SeenInput>)
    ensures SeenFromAccepted(SeenAfter(inputs))
  {
    if inputs != [] {
      RunSeenFromAccepted(inputs[..|inputs| - 1]);
      SeenStaysAccepted(SeenAfter(inputs[..|inputs| - 1]), inputs[|inputs| - 1]);
    }
  }

  /** No accepted sighting of the id, from the `from`-th on, is unexpired. */
  ghost predicate NoneUnexpiredSince(r: SeenRun, from: nat, id: SignalId, now: u64) {
    forall k :: from <= k < |r.accepted| && r.accepted[k].id == id ==> r.accepted[k].expires <= now
  }

  /** The purge at position `n` removed a sighting of the id that at `now` is unexpired, and
      none accepted since makes up for it. */
  ghost predicate ForgottenAt(inputs: seq<SeenInput>, n: nat, id: SignalId, now: u64)
    requires n < |inputs|
  {
    var before := SeenAfter(inputs[..n]);
    && inputs[n].Purge? && IsLive(before.seen, id, now) && before.seen[id] <= inputs[n].at
    && NoneUnexpiredSince(SeenAfter(inputs), |before.accepted|, id, now)
  }

  ghost predicate Forgotten(inputs: seq<SeenInput>, id: SignalId, now: u64) {
    exists n :: 0 <= n < |inputs| && ForgottenAt(inputs, n, id, now)
  }

  lemma {:induction false} AcceptedGrow(inputs: seq<SeenInput>, n: nat)
    requires n <= |inputs|
    ensures SeenAfter(inputs[..n]).accepted <= SeenAfter(inputs).accepted
  {
    if n == |inputs| {
      assert inputs[..n] == inputs;
    } else {
      var front := inputs[..|inputs| - 1];
      assert front[..n] == inputs[..n];
      AcceptedGrow(front, n);
    }
  }

  /** A purge earlier than the last input forgets the id exactly if it had before, and the
      last input did not accept an unexpired sighting of it. */
  lemma {:induction false} ForgottenEarlier(inputs: seq<SeenInput>, n: nat, id: SignalId, now: u64)
    requires n + 1 < |inputs|
    ensures var front := inputs[..|inputs| - 1];
            ForgottenAt(inputs, n, id, now) <==>
              ForgottenAt(front, n, id, now) && NoneUnexpiredSince(SeenAfter(inputs), |SeenAfter(front).accepted|, id, now)
  {
    var front := inputs[..|inputs| - 1];
    assert front[..n] == inputs[..n];
    AcceptedGrow(front, n);
    var r, r' := SeenAfter(front), SeenAfter(inputs);
    assert r.accepted <= r'.accepted;
    assert forall k :: 0 <= k < |r.accepted| ==> r'.accepted[k] == r.accepted[k];
  }

  lemma {:induction false} ForgottenSnoc(inputs: seq<SeenInput>, id: SignalId, now: u64)
    requires inputs != []
    ensures var front, last := inputs[..|inputs| - 1], inputs[|inputs| - 1];
            Forgotten(inputs, id, now) <==>
              || ForgottenAt(inputs, |front|, id, now)
              || (Forgotten(front, id, now) && NoneUnexpiredSince(SeenAfter(inputs), |SeenAfter(front).accepted|, id, now))
  {
    var front := inputs[..|inputs| - 1];
    forall n: nat | n < |front|
      ensures ForgottenAt(inputs, n, id, now) <==>
                ForgottenAt(front, n, id, now) && NoneUnexpiredSince(SeenAfter(inputs), |SeenAfter(front).accepted|, id, now)
    {
      ForgottenEarlier(inputs, n, id, now);
    }
    hide ForgottenAt, SeenAfter, NoneUnexpiredSince;
  }

  lemma {:induction false} ForgetsStep(r: SeenRun, input: SeenInput, id: SignalId, now: u64)
    requires SeenFromAccepted(r)
    ensures var r' := SeenNext(r, input);
            var none := NoneUnexpiredSince(r', |r.accepted|, id, now);
            var purged := input.Purge? && IsLive(r.seen, id, now) && r.seen[id] <= input.at;
            var lost := RemembersUnexpired(r, id, now) && !IsLive(r.seen, id, now);
            RemembersUnexpired(r', id, now) && !IsLive(r'.seen, id, now) <==> (purged && none) || (lost && none)
  {
    var r' := SeenNext(r, input);
    SeenStaysAccepted(r, input);
    assert forall k :: 0 <= k < |r.accepted| ==> r'.accepted[k] == r.accepted[k];
    if RemembersUnexpired(r, id, now) {
      var k :| 0 <= k < |r.accepted| && r.accepted[k].id == id && r.accepted[k].expires > now;
      assert r'.accepted[k].id == id;
    }
    if IsLive(r.seen, id, now) {
      var k :| 0 <= k < |r.accepted| && r.accepted[k].id == id && r.accepted[k].expires == r.seen[id];
      assert r'.accepted[k].id == id;
    }
    if input.Check? && !IsLive(r.seen, input.id, input.at) {
      assert r'.accepted[|r.accepted|] == Sighting(input.id, input.at, r'.seen[input.id]);
    }
  }

  /** In every run, whatever its clock readings: the map has forgotten a sighting that the
      history shows unexpired exactly when a purge at a later reading than `now` removed one
      and none unexpired has been accepted since. */
  lemma {:induction false} ForgetsIff(inputs: seq<SeenInput>, id: SignalId, now: u64)
    ensures var r := SeenAfter(inputs);
            RemembersUnexpired(r, id, now) && !IsLive(r.seen, id, now) <==> Forgotten(inputs, id, now)
  {
    if inputs != [] {
      var front, last := inputs[..|inputs| - 1], inputs[|inputs| - 1];
      ForgetsIff(front, id, now);
      RunSeenFromAccepted(front);
      ForgetsStep(SeenAfter(front), last, id, now);
      ForgottenSnoc(inputs, id, now);
      hide SeenNext, RemembersUnexpired, NoneUnexpiredSince, IsLive, Forgotten;
    }
  }

  /** So a check answers otherwise than the history exactly then, and never the other way. */
  lemma {:induction false} DedupDiffersIff(inputs: seq<SeenInput>, id: SignalId, now: u64, ttlSecs: u64)
    ensures var r := SeenAfter(inputs);
            CheckAndSetSeen(r.seen, id, now, ttlSecs).1 != RemembersUnexpired(r, id, now) <==> Forgotten(inputs, id, now)
    ensures var r := SeenAfter(inputs);
            CheckAndSetSeen(r.seen, id, now, ttlSecs).1 ==> RemembersUnexpired(r, id, now)
  {
    var r := SeenAfter(inputs);
    ForgetsIff(inputs, id, now);
    RunSeenFromAccepted(inputs);
    if IsLive(r.seen, id, now) {
      var k :| 0 <= k < |r.accepted| && r.accepted[k].id == id && r.accepted[k].expires == r.seen[id];
      assert RemembersUnexpired(r, id, now);
    }
    hide SeenAfter, Forgotten;
  }

  /** No purge so far was at a later reading. */
  predicate PurgesBy(inputs: seq<SeenInput>, now: u64) {
    forall i :: 0 <= i < |inputs| && inputs[i].Purge? ==> inputs[i].at <= now
  }

  /** As long as no purge so far was at a later reading, and whatever the readings of the
      checks, a check answers true exactly when an accepted sighting of the id is unexpired. */
  lemma {:induction false} DedupAnswersFromHistory(inputs: seq<SeenInput>, id: SignalId, now: u64, ttlSecs: u64)
    requires PurgesBy(inputs, now)
    ensures CheckAndSetSeen(SeenAfter(inputs).seen, id, now, ttlSecs).1 <==> RemembersUnexpired(SeenAfter(inputs), id, now)
  {
    DedupDiffersIff(inputs, id, now, ttlSecs);
    hide CheckAndSetSeen, SeenAfter, RemembersUnexpired;
    forall n: nat | n < |inputs| ensures !ForgottenAt(inputs, n, id, now) {}
  }

  // ---- once per window ------------------------------------------------------------------------

  /** Under an ordered clock: what is unexpired is known, and accepted sightings of one id are
      a dedup window apart. */
  ghost predicate SeenInv(r: SeenRun, now: u64) {
    && (forall k :: 0 <= k < |r.accepted| && r.accepted[k].expires > now ==>
          r.accepted[k].id in r.seen && r.seen[r.accepted[k].id] == r.accepted[k].expires)
    && (forall j, k :: 0 <= j < k < |r.accepted| && r.accepted[j].id == r.accepted[k].id ==>
          r.accepted[k].at >= r.accepted[j].expires)
  }

  lemma {:induction false} SeenStep(r: SeenRun, before: u64, input: SeenInput)
    requires SeenInv(r, before) && before <= input.at
    ensures SeenInv(SeenNext(r, input), input.at)
  {
    if input.Check? && !IsLive(r.seen, input.id, input.at) {
      forall k | 0 <= k < |r.accepted| && r.accepted[k].id == input.id ensures r.accepted[k].expires <= input.at {}
    }
  }

  function LastReading(inputs: seq<SeenInput>): u64 {
    if inputs == [] then 0 else inputs[|inputs| - 1].at
  }

  lemma {:induction false} SeenRunKeepsInv(inputs: seq<SeenInput>)
    requires Ordered(inputs)
    ensures SeenInv(SeenAfter(inputs), LastReading(inputs))
  {
    if inputs != [] {
      SeenRunKeepsInv(inputs[..|inputs| - 1]);
      SeenStep(SeenAfter(inputs[..|inputs| - 1]), LastReading(inputs[..|inputs| - 1]), inputs[|inputs| - 1]);
    }
  }

  /** Under a clock that never goes back, one id is acted on at most once per dedup window. */
  lemma {:induction false} OncePerWindow(inputs: seq<SeenInput>, j: nat, k: nat)
    requires Ordered(inputs) && j < k < |SeenAfter(inputs).accepted|
    requires SeenAfter(inputs).accepted[j].id == SeenAfter(inputs).accepted[k].id
    ensures SeenAfter(inputs).accepted[k].at >= SeenAfter(inputs).accepted[j].expires
  {
    SeenRunKeepsInv(inputs);
  }

  /** A run that forgets: a purge at a reading later than the next check's removes a sighting
      that for the check is still unexpired. */
  lemma {:induction false} PurgeFromTheFuture()
    ensures var run := SeenAfter([Check(7, 0, 1), Purge(2_000_000_000)]);
            RemembersUnexpired(run, 7, 500_000_000) && !CheckAndSetSeen(run.seen, 7, 500_000_000, 1).1
  {
    var a := [Check(7, 0, 1)];
    var b := [Check(7, 0, 1), Purge(2_000_000_000)];
    assert a[..0] == [] && b[..1] == a;
    assert SeenAfter(a) == SeenRun(map[7 := 1_000_000_000], [Sighting(7, 0, 1_000_000_000)]);
    var run := SeenAfter(b);
    assert run == SeenNext(SeenAfter(a), Purge(2_000_000_000));
    assert run.accepted[0] == Sighting(7, 0, 1_000_000_000);
  }
}
