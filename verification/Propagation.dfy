/** Choosing the synapses that carry a signal onward. */
module Propagation {
  import opened Base
  import opened Sorting
  import opened Signals
  import opened Synapses
  import opened Sampling

  datatype PropagationConfig = PropagationConfig(
    minPropagationWeight: real,
    attenuationFactor: real,
    maxFanout: nat,
    maxAcceptedTtl: nat,
    dedupCacheSecs: u64,
    policy: Policy)

  /** One synapse chosen to carry a signal. */
  datatype Chosen = Chosen(synapse: SynapseRecord, score: real, explored: bool)

  /** The score of a synapse: any function of its record. */
  type ScoreFn = SynapseRecord -> real

  // ---- eligibility ------------------------------------------------------------------

  predicate IsEligible(r: SynapseRecord, scope: Scope, arrival: Option<SynapseId>) {
    && Some(r.id) != arrival
    && r.state.CanCarry()
    && (scope.Weighted? ==> r.weight >= scope.minSynapseWeight)
  }

  function Eligible(synapses: seq<SynapseRecord>, scope: Scope, arrival: Option<SynapseId>): (r: seq<SynapseRecord>)
    ensures forall x :: x in r <==> x in synapses && IsEligible(x, scope, arrival)
  {
    if synapses == [] then []
    else
      var last := synapses[|synapses| - 1];
      Eligible(synapses[..|synapses| - 1], scope, arrival) + if IsEligible(last, scope, arrival) then [last] else []
  }

  /** Position of the first synapse to this peer, or the length. */
  function FirstTo(synapses: seq<SynapseRecord>, peer: NodeId): (i: nat)
    ensures i <= |synapses| && (i < |synapses| ==> synapses[i].peer == peer)
    ensures forall j :: 0 <= j < i ==> synapses[j].peer != peer
  {
    if synapses == [] || synapses[0].peer == peer then 0 else 1 + FirstTo(synapses[1..], peer)
  }

  // ---- selection -----------------------------------------------------------------------

  function Width(scope: Scope, eligible: nat, maxFanout: nat): nat {
    match scope
    case Flood(_) => eligible
    case Targeted(_) => 1
    case _ => maxFanout
  }

  predicate BetterFirst(a: Chosen, b: Chosen) {
    a.score >= b.score
  }

  function Everything(eligible: seq<SynapseRecord>, score: ScoreFn): (r: seq<Chosen>)
    ensures |r| == |eligible|
    ensures forall i :: 0 <= i < |r| ==> r[i] == Chosen(eligible[i], score(eligible[i]), false)
  {
    Map((s: SynapseRecord) => Chosen(s, score(s), false), eligible)
  }

  function FromSelection(eligible: seq<SynapseRecord>, sel: Selection): Chosen
    requires sel.index < |eligible|
  {
    Chosen(eligible[sel.index], sel.score, sel.explored)
  }

  ghost predicate InRange(sels: seq<Selection>, n: nat) {
    forall i :: 0 <= i < |sels| ==> sels[i].index < n
  }

  function FromSelections(eligible: seq<SynapseRecord>, sels: seq<Selection>): (r: seq<Chosen>)
    requires InRange(sels, |eligible|)
    ensures |r| == |sels| && forall i :: 0 <= i < |r| ==> r[i] == FromSelection(eligible, sels[i])
  {
    seq(|sels|, i requires 0 <= i < |sels| => FromSelection(eligible, sels[i]))
  }

  function SampleOf(eligible: seq<SynapseRecord>, scope: Scope, config: PropagationConfig, temperature: Positive,
          score: ScoreFn, exp: PositiveFn, unit: UnitDraws, below: BelowFn): (sels: seq<Selection>)
    ensures Sampled(Map(score, eligible), sels, Width(scope, |eligible|, config.maxFanout))
    ensures SortedBy(sels, ScoresAtLeast) && InRange(sels, |eligible|)
  {
    var heat := Heat(Map(score, eligible), temperature, exp);
    PathsAreSound(heat, Width(scope, |eligible|, config.maxFanout), config.policy, unit, below);
    Paths(heat, Width(scope, |eligible|, config.maxFanout), config.policy, unit, below)
  }

  /** The eligible synapses, narrowed by the scope: a direct synapse alone, everything
      for a flood, otherwise a sample. */
  function Selected(synapses: seq<SynapseRecord>, scope: Scope, arrival: Option<SynapseId>,
          config: PropagationConfig, temperature: Positive,
          score: ScoreFn, exp: PositiveFn, unit: UnitDraws, below: BelowFn): seq<Chosen>
  {
    var eligible := Eligible(synapses, scope, arrival);
    if eligible == [] then []
    else if scope.Targeted? && FirstTo(eligible, scope.destination) < |eligible| then
      var direct := eligible[FirstTo(eligible, scope.destination)];
      [Chosen(direct, score(direct), false)]
    else if scope.Flood? then Sort(Everything(eligible, score), BetterFirst)
    else FromSelections(eligible, SampleOf(eligible, scope, config, temperature, score, exp, unit, below))
  }

  method FilterEligible(synapses: seq<SynapseRecord>, scope: Scope,
          arrival: Option<SynapseId>)
    returns (eligible: seq<SynapseRecord>)
    ensures eligible == Eligible(synapses, scope, arrival)
  {
    eligible := [];
    for i := 0 to |synapses|
      invariant eligible == Eligible(synapses[..i], scope, arrival)
    {
      assert synapses[..i + 1][..i] == synapses[..i];
      if IsEligible(synapses[i], scope, arrival) {
        eligible := eligible + [synapses[i]];
      }
    }
    assert synapses[..|synapses|] == synapses;
  }

  method FindDirect(eligible: seq<SynapseRecord>, peer: NodeId) returns (i: nat)
    ensures i == FirstTo(eligible, peer)
  {
    i := 0;
    while i < |eligible| && eligible[i].peer != peer
      invariant i <= |eligible|
      invariant forall j :: 0 <= j < i ==> eligible[j].peer != peer
    {
      i := i + 1;
    }
  }

  method SelectSynapses(synapses: seq<SynapseRecord>, scope: Scope, arrival: Option<SynapseId>,
          config: PropagationConfig, temperature: Positive,
          score: ScoreFn, exp: PositiveFn, unit: UnitDraws, below: BelowFn)
    returns (chosen: seq<Chosen>)
    ensures chosen == Selected(synapses, scope, arrival, config, temperature, score, exp, unit, below)
  {
    var eligible := FilterEligible(synapses, scope, arrival);
    if eligible == [] {
      return [];
    }
    if scope.Targeted? {
      var i := FindDirect(eligible, scope.destination);
      if i < |eligible| {
        return [Chosen(eligible[i], score(eligible[i]), false)];
      }
    }
    if scope.Flood? {
      return Sort(Everything(eligible, score), BetterFirst);
    }
    var heat := Heat(Map(score, eligible), temperature, exp);
    var k := Width(scope, |eligible|, config.maxFanout);
    var sels := SamplePaths(heat, k, config.policy, unit, below);
    assert sels == SampleOf(eligible, scope, config, temperature, score, exp, unit, below);
    chosen := FromSelections(eligible, sels);
  }

  // ---- what is chosen ------------------------------------------------------------------

  function Records(chosen: seq<Chosen>): (r: seq<SynapseRecord>)
    ensures |r| == |chosen| && forall i :: 0 <= i < |r| ==> r[i] == chosen[i].synapse
  {
    Map((c: Chosen) => c.synapse, chosen)
  }

  /** How many of the eligible a signal goes over: all of them for a flood, one for a
      destination, and otherwise up to the fan-out. */
  function Count(eligible: nat, scope: Scope, maxFanout: nat): nat {
    if scope.Flood? || eligible == 0 then eligible
    else if scope.Targeted? then 1
    else if maxFanout <= eligible then maxFanout else eligible
  }

  lemma {:induction false} EligibleNoDup(synapses: seq<SynapseRecord>, scope: Scope, arrival: Option<SynapseId>)
    requires NoDup(synapses)
    ensures NoDup(Eligible(synapses, scope, arrival))
  {
    if synapses != [] {
      var front, last := synapses[..|synapses| - 1], synapses[|synapses| - 1];
      EligibleNoDup(front, scope, arrival);
      assert last !in front by {
        forall i | 0 <= i < |front| ensures front[i] != last { assert synapses[i] != last; }
      }
    }
  }

  lemma {:induction false} BetterFirstIsOrder()
    ensures TotalPreorder(BetterFirst)
  {
  }

  /** A flood is carried by every eligible synapse, once each. */
  lemma {:induction false} FloodTakesAll(eligible: seq<SynapseRecord>, score: ScoreFn)
    ensures var chosen := Sort(Everything(eligible, score), BetterFirst);
            && multiset(Records(chosen)) == multiset(eligible) && |chosen| == |eligible|
            && SortedBy(chosen, BetterFirst)
            && forall i :: 0 <= i < |chosen| ==> chosen[i].score == score(chosen[i].synapse)
  {
    var all := Everything(eligible, score);
    var chosen := Sort(all, BetterFirst);
    SortPermutes(all, BetterFirst);
    BetterFirstIsOrder();
    SortSorts(all, BetterFirst);
    MapPermutes((c: Chosen) => c.synapse, chosen, all);
    assert Records(all) == eligible;
    forall i | 0 <= i < |chosen| ensures chosen[i].score == score(chosen[i].synapse) {
      assert chosen[i] in multiset(chosen);
      assert chosen[i] in all;
    }
  }

  /** A sample takes distinct eligible synapses, as many as asked for. */
  lemma {:induction false} SampleTakesSome(eligible: seq<SynapseRecord>, score: ScoreFn, sels: seq<Selection>, k: nat)
    requires NoDup(eligible) && Sampled(Map(score, eligible), sels, k) && SortedBy(sels, ScoresAtLeast)
    requires InRange(sels, |eligible|)
    ensures var chosen := FromSelections(eligible, sels);
            && NoDup(Records(chosen)) && |chosen| == (if k <= |eligible| then k else |eligible|)
            && SortedBy(chosen, BetterFirst)
            && forall i :: 0 <= i < |chosen| ==>
                 chosen[i].synapse in eligible && chosen[i].score == score(chosen[i].synapse)
  {
    var chosen := FromSelections(eligible, sels);
    forall i, j | 0 <= i < j < |chosen| ensures Records(chosen)[i] != Records(chosen)[j] {
      assert Indices(sels)[i] != Indices(sels)[j];
    }
  }

  /** The eligible are the active and weakening synapses but the one the signal arrived on,
      no lighter than the scope's floor. */
  lemma {:induction false} EligibleIff(synapses: seq<SynapseRecord>, scope: Scope, arrival: Option<SynapseId>)
    requires NoDup(synapses)
    ensures var eligible := Eligible(synapses, scope, arrival);
            && NoDup(eligible)
            && forall r :: r in eligible <==>
                 && r in synapses && (r.state == Active || r.state == Weakening) && arrival != Some(r.id)
                 && (match scope case Weighted(floor) => floor <= r.weight case _ => true)
  {
    EligibleNoDup(synapses, scope, arrival);
  }

  /** Some eligible synapse leads to the scope's destination. */
  ghost predicate GoesDirect(eligible: seq<SynapseRecord>, scope: Scope) {
    scope.Targeted? && exists i :: 0 <= i < |eligible| && eligible[i].peer == scope.destination
  }

  /** Whatever the scope, the draws and the policy: every choice is eligible, no synapse is
      chosen twice; the choices come best score first, and there are exactly as many as the
      scope asks for. A flood takes every eligible synapse, and a destination that is a
      direct peer gets the signal over the direct synapse alone. */
  lemma {:induction false} SelectionIsSound(synapses: seq<SynapseRecord>, scope: Scope, arrival: Option<SynapseId>,
          config: PropagationConfig, temperature: Positive,
          score: ScoreFn, exp: PositiveFn, unit: UnitDraws, below: BelowFn)
    requires NoDup(synapses)
    ensures var eligible := Eligible(synapses, scope, arrival);
            var chosen := Selected(synapses, scope, arrival, config, temperature, score, exp, unit, below);
            && (forall i :: 0 <= i < |chosen| ==>
                  chosen[i].synapse in eligible && chosen[i].score == score(chosen[i].synapse))
            && NoDup(Records(chosen))
            && (forall i, j :: 0 <= i < j < |chosen| ==> chosen[i].score >= chosen[j].score)
            && |chosen| == Count(|eligible|, scope, config.maxFanout)
            && (scope.Flood? ==>
                  multiset(Records(chosen)) == multiset(eligible) && forall i :: 0 <= i < |chosen| ==> !chosen[i].explored)
            && (GoesDirect(eligible, scope) ==>
                  |chosen| == 1 && chosen[0].synapse.peer == scope.destination && !chosen[0].explored)
  {
    var eligible := Eligible(synapses, scope, arrival);
    var chosen := Selected(synapses, scope, arrival, config, temperature, score, exp, unit, below);
    EligibleNoDup(synapses, scope, arrival);
    hide Eligible, Paths;
    if eligible == [] {
    } else if scope.Targeted? && FirstTo(eligible, scope.destination) < |eligible| {
    } else if scope.Flood? {
      FloodTakesAll(eligible, score);
      FloodIsUnexplored(eligible, score);
      SameMultiset(eligible, Records(chosen));
      forall i | 0 <= i < |chosen| ensures chosen[i].synapse in eligible { assert Records(chosen)[i] == chosen[i].synapse; }
    } else {
      var sels := SampleOf(eligible, scope, config, temperature, score, exp, unit, below);
      SampleTakesSome(eligible, score, sels, Width(scope, |eligible|, config.maxFanout));
      hide SampleOf, NoDup, Sampled;
    }
  }

  /** Every other choice is as sampled, with its score and whether it explores. */
  lemma {:induction false} OthersAreSampled(synapses: seq<SynapseRecord>, scope: Scope, arrival: Option<SynapseId>,
          config: PropagationConfig, temperature: Positive,
          score: ScoreFn, exp: PositiveFn, unit: UnitDraws, below: BelowFn)
    ensures var eligible := Eligible(synapses, scope, arrival);
            var chosen := Selected(synapses, scope, arrival, config, temperature, score, exp, unit, below);
            var width := if scope.Targeted? then 1 else config.maxFanout;
            var sels := Paths(Heat(Map(score, eligible), temperature, exp), width, config.policy, unit, below);
            !scope.Flood? && !GoesDirect(eligible, scope) && eligible != [] ==>
              |chosen| == |sels| && forall i :: 0 <= i < |chosen| ==>
                sels[i].index < |eligible|
                && chosen[i] == Chosen(eligible[sels[i].index], sels[i].score, sels[i].explored)
  {
    hide Eligible, Paths;
  }

  lemma {:induction false} SameMultiset<T>(a: seq<T>, b: seq<T>)
    requires NoDup(a) && multiset(a) == multiset(b)
    ensures NoDup(b) && forall i :: 0 <= i < |b| ==> b[i] in a
  {
    NoDupByCount(a);
    NoDupByCount(b);
    forall i | 0 <= i < |b| ensures b[i] in a { assert b[i] in multiset(b); }
  }

  lemma {:induction false} FloodIsUnexplored(eligible: seq<SynapseRecord>, score: ScoreFn)
    ensures forall c :: c in Sort(Everything(eligible, score), BetterFirst) ==> !c.explored
  {
    var all := Everything(eligible, score);
    SortPermutes(all, BetterFirst);
    forall c | c in Sort(all, BetterFirst) ensures !c.explored {
      assert c in multiset(Sort(all, BetterFirst));
      assert c in all;
    }
  }
}
