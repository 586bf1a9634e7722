/**
 Weighted scenario scores and the ranking they give
 (packages/application/src/workbench.ts:3576-3621).
 */
module Scenarios {
  import opened Domain
  import opened StableSort

  const TOTAL_BASIS_POINTS := 10_000

  function Lookup<K>(m: map<K, nat>, k: K): nat { if k in m then m[k] else 0 }

  /** The `reduce` over the dimension keys. */
  function Numerator(keys: seq<string>, values: map<string, nat>, weights: map<string, nat>): nat {
    if keys == [] then 0
    else Lookup(values, keys[0]) * Lookup(weights, keys[0]) + Numerator(keys[1..], values, weights)
  }

  function WeightSum(keys: seq<string>, weights: map<string, nat>): nat {
    if keys == [] then 0 else Lookup(weights, keys[0]) + WeightSum(keys[1..], weights)
  }

  /** `Math.round(numerator / 10_000)`: halves round up. */
  function RoundScore(numerator: nat): nat { (numerator + TOTAL_BASIS_POINTS / 2) / TOTAL_BASIS_POINTS }

  function Score(keys: seq<string>, values: map<string, nat>, weights: map<string, nat>): nat {
    RoundScore(Numerator(keys, values, weights))
  }

  lemma MulBounds(lo: nat, v: nat, hi: nat, w: nat)
    requires lo <= v <= hi
    ensures lo * w <= v * w <= hi * w
  {
    assert v * w == lo * w + (v - lo) * w;
    assert hi * w == v * w + (hi - v) * w;
  }

  lemma Distribute(a: nat, b: nat, c: nat)
    ensures a * (b + c) == a * b + a * c
  {
  }

  lemma {:induction false} NumeratorBounds(keys: seq<string>, values: map<string, nat>, weights: map<string, nat>,
                                           lo: nat, hi: nat)
    requires forall k :: k in keys ==> lo <= Lookup(values, k) <= hi
    ensures lo * WeightSum(keys, weights) <= Numerator(keys, values, weights) <= hi * WeightSum(keys, weights)
  {
    if keys != [] {
      var v, w, rest := Lookup(values, keys[0]), Lookup(weights, keys[0]), WeightSum(keys[1..], weights);
      NumeratorBounds(keys[1..], values, weights, lo, hi);
      MulBounds(lo, v, hi, w);
      Distribute(lo, w, rest);
      Distribute(hi, w, rest);
    }
  }

  /** With weights that sum to 10,000 a rounded score lies between the smallest and the largest dimension value. */
  lemma ScoreWithinValues(keys: seq<string>, values: map<string, nat>, weights: map<string, nat>, lo: nat, hi: nat)
    requires WeightSum(keys, weights) == TOTAL_BASIS_POINTS
    requires forall k :: k in keys ==> lo <= Lookup(values, k) <= hi
    ensures lo <= Score(keys, values, weights) <= hi
  {
    NumeratorBounds(keys, values, weights, lo, hi);
  }

  lemma {:induction false} NumeratorMonotone(keys: seq<string>, values: map<string, nat>, better: map<string, nat>,
                                             weights: map<string, nat>)
    requires forall k :: k in keys ==> Lookup(values, k) <= Lookup(better, k)
    ensures Numerator(keys, values, weights) <= Numerator(keys, better, weights)
  {
    if keys != [] {
      NumeratorMonotone(keys[1..], values, better, weights);
      MulBounds(Lookup(values, keys[0]), Lookup(better, keys[0]), Lookup(better, keys[0]), Lookup(weights, keys[0]));
    }
  }

  /** An evaluation at least as good in every dimension never scores lower, under any weights. */
  lemma DominanceKeepsScore(keys: seq<string>, values: map<string, nat>, better: map<string, nat>,
                            weights: map<string, nat>)
    requires forall k :: k in keys ==> Lookup(values, k) <= Lookup(better, k)
    ensures Score(keys, values, weights) <= Score(keys, better, weights)
  {
    NumeratorMonotone(keys, values, better, weights);
  }

  // ---------- ranking ----------

  /** The comparator: higher score first, then the smaller identity. */
  predicate Precedes(scores: map<EntityId, nat>, a: EntityId, b: EntityId) {
    Lookup(scores, a) > Lookup(scores, b) || (Lookup(scores, a) == Lookup(scores, b) && a <= b)
  }

  function ByScore(scores: map<EntityId, nat>): (EntityId, EntityId) -> bool {
    (a: EntityId, b: EntityId) => Precedes(scores, a, b)
  }

  ghost predicate Ranked(scores: map<EntityId, nat>, ids: seq<EntityId>) { Sorted(ByScore(scores), ids) }

  function Rank(scores: map<EntityId, nat>, ids: seq<EntityId>): (r: seq<EntityId>)
    ensures multiset(r) == multiset(ids)
  {
    Sort(ByScore(scores), ids)
  }

  /** The comparator is a total order: no two identities tie. */
  lemma ByScoreOrder(scores: map<EntityId, nat>, ids: seq<EntityId>)
    ensures TotalPreorder(ByScore(scores)) && NoTies(ByScore(scores), ids)
  {
  }

  lemma RankIsRanked(scores: map<EntityId, nat>, ids: seq<EntityId>)
    ensures Ranked(scores, Rank(scores, ids))
  {
    ByScoreOrder(scores, ids);
    SortSorts(ByScore(scores), ids);
  }

  /** Two ranked sequences of the same identities are the same sequence. */
  lemma RankingUnique(scores: map<EntityId, nat>, a: seq<EntityId>, b: seq<EntityId>)
    requires multiset(a) == multiset(b)
    requires Ranked(scores, a) && Ranked(scores, b)
    ensures a == b
  {
    ByScoreOrder(scores, a);
    SortedPermutation(ByScore(scores), a, b);
  }

  /** The ranking does not depend on the order in which the evaluations were given. */
  lemma RankIgnoresInputOrder(scores: map<EntityId, nat>, ids: seq<EntityId>, permuted: seq<EntityId>)
    requires multiset(ids) == multiset(permuted)
    ensures Rank(scores, ids) == Rank(scores, permuted)
  {
    RankIsRanked(scores, ids);
    RankIsRanked(scores, permuted);
    RankingUnique(scores, Rank(scores, ids), Rank(scores, permuted));
  }

  /** If one evaluation dominates another, no weights rank it behind, except as the tie-break by identity says. */
  lemma DominantRanksFirst(keys: seq<string>, weights: map<string, nat>, values: map<EntityId, map<string, nat>>,
                           scores: map<EntityId, nat>, ranked: seq<EntityId>, i: nat, j: nat)
    requires i < |ranked| && j < |ranked| && ranked[i] in values && ranked[j] in values
    requires forall id :: id in ranked && id in values ==> Lookup(scores, id) == Score(keys, values[id], weights)
    requires forall k :: k in keys ==> Lookup(values[ranked[j]], k) <= Lookup(values[ranked[i]], k)
    requires Ranked(scores, ranked)
    ensures i <= j || (Lookup(scores, ranked[i]) == Lookup(scores, ranked[j]) && ranked[j] <= ranked[i])
  {
    DominanceKeepsScore(keys, values[ranked[j]], values[ranked[i]], weights);
    assert j < i ==> ByScore(scores)(ranked[j], ranked[i]);
  }
}
