/** The node's outbound weights: their total over the synapse table, and normalisation of
    the table as a whole. */
module OutboundWeights {
  import opened Base
  import opened RealProducts
  import opened Learning
  import opened Normalization
  import opened Synapses
  import opened Store

  // ---- the total outbound weight -------------------------------------------------------

  function Weights(rs: seq<SynapseRecord>): (ws: seq<real>)
    ensures |ws| == |rs| && forall i :: 0 <= i < |rs| ==> ws[i] == rs[i].weight
  {
    Map((r: SynapseRecord) => r.weight, rs)
  }

  ghost function TableTotal(t: SynapseTable): real
    decreases |t.Keys|
  {
    if t.Keys == {} then 0.0
    else
      var id :| id in t;
      assert (t - {id}).Keys == t.Keys - {id};
      TableTotal(t - {id}) + t[id].weight
  }

  lemma {:induction false} TotalWithout(t: SynapseTable, id: SynapseId)
    requires id in t
    ensures TableTotal(t) == TableTotal(t - {id}) + t[id].weight
    decreases |t.Keys|
  {
    var first :| first in t && TableTotal(t) == TableTotal(t - {first}) + t[first].weight;
    if first != id {
      var rest := t - {first};
      assert rest.Keys == t.Keys - {first};
      TotalWithout(rest, id);
      assert (t - {id}).Keys == t.Keys - {id};
      TotalWithout(t - {id}, first);
      assert rest - {id} == (t - {id}) - {first};
    }
  }

  /** Dropping the last record of a listing drops its entry from the table. */
  lemma {:induction false} ListingFront(rs: seq<SynapseRecord>, t: SynapseTable)
    requires rs != [] && Covers(rs, t, {}) && KeyedById(t)
    ensures Covers(rs[..|rs| - 1], t - {rs[|rs| - 1].id}, {}) && KeyedById(t - {rs[|rs| - 1].id})
  {
    var front, last := rs[..|rs| - 1], rs[|rs| - 1];
    var rest := t - {last.id};
    assert Ids(front) == Ids(rs)[..|rs| - 1];
    forall i | 0 <= i < |front| ensures front[i].id in rest && rest[front[i].id] == front[i] {
      assert Ids(rs)[i] != Ids(rs)[|rs| - 1];
    }
    forall id | id in rest ensures rest[id] in front {
      assert rest[id].id == id;
      var k :| 0 <= k < |rs| && rs[k] == t[id];
      assert front[k] == rs[k];
    }
  }

  lemma {:induction false} EmptyListing(t: SynapseTable)
    requires Covers([], t, {})
    ensures t.Keys == {}
  {
    if id :| id in t {
      assert Passes(t[id], {});
      assert false;
    }
  }

  /** Summing a listing gives the total of its table. */
  lemma {:induction false} ListingTotal(rs: seq<SynapseRecord>, t: SynapseTable)
    requires Covers(rs, t, {}) && KeyedById(t)
    ensures Total(Weights(rs)) == TableTotal(t)
    decreases |rs|
  {
    if rs == [] {
      EmptyListing(t);
    } else {
      var last := rs[|rs| - 1];
      assert last.id in t && t[last.id] == last;
      assert Weights(rs)[..|rs| - 1] == Weights(rs[..|rs| - 1]);
      assert Total(Weights(rs)) == Total(Weights(rs[..|rs| - 1])) + last.weight;
      hide Covers, KeyedById, Total, TableTotal;
      ListingFront(rs, t);
      ListingTotal(rs[..|rs| - 1], t - {last.id});
      TotalWithout(t, last.id);
    }
  }

  /** Adding an entry to a table adds its record to a listing. */
  lemma {:induction false} ListingSnoc(front: seq<SynapseRecord>, t: SynapseTable, id: SynapseId)
    requires KeyedById(t) && id in t && Covers(front, t - {id}, {})
    ensures Covers(front + [t[id]], t, {})
  {
    var rs := front + [t[id]];
    assert Ids(rs) == Ids(front) + [id];
    forall x | x in t ensures t[x] in rs {
      if x != id {
        assert (t - {id})[x] in front;
      } else {
        assert rs[|front|] == t[id];
      }
    }
    forall i | 0 <= i < |rs| ensures rs[i].id in t && t[rs[i].id] == rs[i] && Passes(rs[i], {}) {
      if i < |front| { assert front[i].id in t - {id}; }
    }
  }

  ghost function Enumeration(t: SynapseTable): (rs: seq<SynapseRecord>)
    requires KeyedById(t)
    ensures Covers(rs, t, {}) && |rs| == |t.Keys|
    decreases |t.Keys|
  {
    if t.Keys == {} then []
    else
      var id :| id in t;
      assert (t - {id}).Keys == t.Keys - {id};
      ListingSnoc(Enumeration(t - {id}), t, id);
      Enumeration(t - {id}) + [t[id]]
  }

  // ---- normalisation of the whole table ----------------------------------------------------

  ghost function RescaledTable(t: SynapseTable, factor: real, floor: real): SynapseTable {
    map id | id in t :: t[id].(weight := Rescaled(t[id].weight, factor, floor))
  }

  ghost function NormalizedTable(t: SynapseTable, lc: LearningConfig): (r: SynapseTable)
    ensures r.Keys == t.Keys
    ensures forall id :: id in t ==> r[id] == t[id].(weight := r[id].weight)
  {
    match FactorFor(TableTotal(t), lc)
    case None => t
    case Some(f) => RescaledTable(t, f, lc.minWeight)
  }

  ghost predicate AllInRange(t: SynapseTable, lc: LearningConfig) {
    forall id :: id in t ==> lc.InRange(t[id].weight)
  }

  /** A table's normalisation is the normalisation of its weights in any order. */
  lemma {:induction false} NormalizedListing(rs: seq<SynapseRecord>, t: SynapseTable,
          lc: LearningConfig)
    returns (rs': seq<SynapseRecord>)
    requires Covers(rs, t, {}) && KeyedById(t)
    ensures Covers(rs', NormalizedTable(t, lc), {}) && Weights(rs') == Normalized(Weights(rs), lc)
    ensures |rs'| == |rs| && forall i :: 0 <= i < |rs| ==> rs'[i] == NormalizedTable(t, lc)[rs[i].id]
  {
    ListingTotal(rs, t);
    var t' := NormalizedTable(t, lc);
    rs' := seq(|rs|, i requires 0 <= i < |rs| => t'[rs[i].id]);
    assert Ids(rs') == Ids(rs);
    forall id | id in t' ensures t'[id] in rs' {
      assert t[id] in rs;
      var i :| 0 <= i < |rs| && rs[i] == t[id];
      assert rs'[i] == t'[id];
    }
  }

  lemma {:induction false} ListingInRange(rs: seq<SynapseRecord>, t: SynapseTable, lc: LearningConfig)
    requires Covers(rs, t, {}) && AllInRange(t, lc)
    ensures AtLeast(Weights(rs), lc.minWeight)
  {
  }

  lemma {:induction false} NormalizedKeyed(t: SynapseTable, lc: LearningConfig)
    requires KeyedById(t)
    ensures KeyedById(NormalizedTable(t, lc))
  {
    var t' := NormalizedTable(t, lc);
    forall id | id in t' ensures t'[id].id == id { assert t'[id] == t[id].(weight := t'[id].weight); }
  }

  /** Normalisation raises no weight, keeps the floor, and keeps the weak order. */
  lemma {:induction false} TableIsMonotone(t: SynapseTable, lc: LearningConfig, a: SynapseId, b: SynapseId)
    requires lc.IsValid() && AllInRange(t, lc) && a in t && b in t && t[a].weight <= t[b].weight
    ensures lc.minWeight <= NormalizedTable(t, lc)[a].weight <= NormalizedTable(t, lc)[b].weight <= t[b].weight
  {
    var total := TableTotal(t);
    assert lc.minWeight <= t[a].weight && lc.minWeight <= t[b].weight;
    if OverBudget(total, lc) {
      var f := Quot(lc.maxTotalOutboundWeight, total);
      QuotRange(lc.maxTotalOutboundWeight, total);
      TimesMono(t[a].weight, t[b].weight, f);
      TimesMono(f, 1.0, t[b].weight);
      TimesUnit(t[b].weight);
    }
  }

  /** After normalisation the total is within the budget plus one floor per synapse. */
  lemma {:induction false} TableTotalBound(t: SynapseTable, lc: LearningConfig)
    requires lc.IsValid() && KeyedById(t) && AllInRange(t, lc)
    ensures TableTotal(NormalizedTable(t, lc)) <= lc.maxTotalOutboundWeight + Times(|t.Keys| as real, lc.minWeight)
  {
    hide *;
    var rs := Enumeration(t);
    var rs' := NormalizedListing(rs, t, lc);
    NormalizedKeyed(t, lc);
    ListingTotal(rs', NormalizedTable(t, lc));
    ListingInRange(rs, t, lc);
    NormalizedTotalBound(Weights(rs), lc);
  }
}
