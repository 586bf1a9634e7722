/**
 What a proposed comparison records: each scenario's scores and ranking, which do
 not depend on the order in which the evaluations were named.
 */
module ComparisonScores {
  import opened Domain
  import opened Store
  import opened OperationCommands
  import opened Scenarios
  import opened ApprovalCommands

  ghost predicate DistinctInputs(inputs: seq<ComparisonInput>) {
    forall i, j :: 0 <= i < j < |inputs| ==> inputs[i].evaluation != inputs[j].evaluation
  }

  lemma {:induction false} ScoresAre(keys: seq<string>, inputs: seq<ComparisonInput>, weights: map<string, nat>)
    requires DistinctInputs(inputs)
    ensures forall id :: id in ScoresOf(keys, inputs, weights) <==> exists x :: x in inputs && x.evaluation == id
    ensures forall x :: x in inputs ==>
              Lookup(ScoresOf(keys, inputs, weights), x.evaluation) == Score(keys, x.values, weights)
  {
    if inputs != [] {
      var n := |inputs| - 1;
      ScoresAre(keys, inputs[..n], weights);
      LastDiffers(inputs);
      assert inputs == inputs[..n] + [inputs[n]];
      assert ScoresOf(keys, inputs, weights)
             == ScoresOf(keys, inputs[..n], weights)[inputs[n].evaluation := Score(keys, inputs[n].values, weights)];
    }
  }

  lemma LastDiffers(inputs: seq<ComparisonInput>)
    requires DistinctInputs(inputs) && inputs != []
    ensures forall x :: x in inputs[..|inputs| - 1] ==> x.evaluation != inputs[|inputs| - 1].evaluation
  {
    forall x | x in inputs[..|inputs| - 1]
      ensures x.evaluation != inputs[|inputs| - 1].evaluation
    {
      var i :| 0 <= i < |inputs| - 1 && inputs[i] == x;
    }
  }

  /** What a scenario result must say of its inputs. */
  ghost predicate RightlyScored(keys: seq<string>, inputs: seq<ComparisonInput>, r: ScenarioResult) {
    && WeightSum(keys, r.weights) == TOTAL_BASIS_POINTS
    && (forall x :: x in inputs ==> Lookup(r.scores, x.evaluation) == Score(keys, x.values, r.weights))
    && multiset(r.ranked) == multiset(EvaluationIds(inputs))
    && Ranked(r.scores, r.ranked)
  }

  /**
   Every result of a comparison is rightly scored, and each score lies between the smallest
   and the largest value of its evaluation.
   */
  lemma ScenarioIsRight(keys: seq<string>, inputs: seq<ComparisonInput>, weights: map<string, nat>, x: ComparisonInput,
                        lo: nat, hi: nat)
    requires RunScenario(keys, inputs, weights).Ok? && DistinctInputs(inputs)
    requires x in inputs && forall k :: k in keys ==> lo <= Lookup(x.values, k) <= hi
    ensures RightlyScored(keys, inputs, RunScenario(keys, inputs, weights).value)
    ensures lo <= Lookup(RunScenario(keys, inputs, weights).value.scores, x.evaluation) <= hi
  {
    ScoresAre(keys, inputs, weights);
    RankIsRanked(ScoresOf(keys, inputs, weights), EvaluationIds(inputs));
    ScoreWithinValues(keys, x.values, weights, lo, hi);
  }

  // ---------- the order of the keys and of the inputs ----------

  function Without<T>(s: seq<T>, i: nat): seq<T>
    requires i < |s|
  {
    s[..i] + s[i + 1..]
  }

  lemma WithoutBag<T>(s: seq<T>, i: nat)
    requires i < |s|
    ensures multiset(s) == multiset(Without(s, i)) + multiset{s[i]}
  {
    assert s == s[..i] + [s[i]] + s[i + 1..];
  }

  /** Permutations stay permutations when one element is taken out of each. */
  lemma BothWithout<T>(a: seq<T>, b: seq<T>) returns (i: nat)
    requires multiset(a) == multiset(b) && a != []
    ensures i < |b| && b[i] == a[0] && multiset(Without(a, 0)) == multiset(Without(b, i))
  {
    assert a[0] in multiset(b);
    i :| 0 <= i < |b| && b[i] == a[0];
    WithoutBag(a, 0);
    WithoutBag(b, i);
    Cancel(multiset(Without(a, 0)), multiset(Without(b, i)), a[0]);
  }

  lemma Cancel<T>(m: multiset<T>, n: multiset<T>, x: T)
    requires m + multiset{x} == n + multiset{x}
    ensures m == n
  {
    assert m == m + multiset{x} - multiset{x} && n == n + multiset{x} - multiset{x};
  }

  /** Any key may be summed first. */
  lemma {:induction false} KeyFirst(keys: seq<string>, i: nat, values: map<string, nat>, weights: map<string, nat>)
    requires i < |keys|
    ensures Numerator(keys, values, weights) == Lookup(values, keys[i]) * Lookup(weights,
                keys[i]) + Numerator(Without(keys, i), values, weights)
    ensures WeightSum(keys, weights) == Lookup(weights, keys[i]) + WeightSum(Without(keys, i), weights)
  {
    if i > 0 {
      KeyFirst(keys[1..], i - 1, values, weights);
      assert Without(keys, i) == [keys[0]] + Without(keys[1..], i - 1);
    } else {
      assert Without(keys, 0) == keys[1..];
    }
  }

  lemma {:induction false} KeyOrder(a: seq<string>, b: seq<string>, values: map<string, nat>, weights: map<string, nat>)
    requires multiset(a) == multiset(b)
    ensures Numerator(a, values, weights) == Numerator(b, values, weights)
    ensures WeightSum(a, weights) == WeightSum(b, weights)
    decreases |a|
  {
    assert |a| == |multiset(a)| && |b| == |multiset(b)|;
    if a != [] {
      var i := BothWithout(a, b);
      KeyFirst(a, 0, values, weights);
      KeyFirst(b, i, values, weights);
      KeyOrder(Without(a, 0), Without(b, i), values, weights);
    }
  }

  /** The same inputs and keys in another order give the same result, or the same error. */
  lemma ScenarioIgnoresOrder(a: seq<string>, b: seq<string>, inputs: seq<ComparisonInput>,
                             permuted: seq<ComparisonInput>, weights: map<string, nat>)
    requires multiset(a) == multiset(b) && multiset(inputs) == multiset(permuted) && DistinctInputs(inputs)
             && DistinctInputs(permuted)
    ensures RunScenario(a, inputs, weights) == RunScenario(b, permuted, weights)
  {
    KeyOrder(a, b, map[], weights);
    assert (set k | k in a) == (set k | k in b) by {
      assert forall k :: k in a <==> k in multiset(a);
      assert forall k :: k in b <==> k in multiset(b);
    }
    SameScores(a, b, inputs, permuted, weights);
    IdsMapped(inputs);
    IdsMapped(permuted);
    MappedPermutation(inputs, permuted, EvaluationOf);
    RankIgnoresInputOrder(ScoresOf(a, inputs, weights), EvaluationIds(inputs), EvaluationIds(permuted));
  }

  lemma SameScores(a: seq<string>, b: seq<string>, inputs: seq<ComparisonInput>, permuted: seq<ComparisonInput>,
                   weights: map<string, nat>)
    requires multiset(a) == multiset(b) && multiset(inputs) == multiset(permuted) && DistinctInputs(inputs)
             && DistinctInputs(permuted)
    ensures ScoresOf(a, inputs, weights) == ScoresOf(b, permuted, weights)
  {
    SameMembers(inputs, permuted);
    ScoresAre(a, inputs, weights);
    ScoresAre(b, permuted, weights);
    var s, t := ScoresOf(a, inputs, weights), ScoresOf(b, permuted, weights);
    forall id | id in s
      ensures id in t && s[id] == t[id]
    {
      var x :| x in inputs && x.evaluation == id;
      assert x in permuted;
      KeyOrder(a, b, x.values, weights);
      assert Lookup(s, id) == Lookup(t, id);
    }
    forall id | id in t
      ensures id in s
    {
      var x :| x in permuted && x.evaluation == id;
      assert x in inputs;
    }
  }

  lemma SameMembers<T>(a: seq<T>, b: seq<T>)
    requires multiset(a) == multiset(b)
    ensures forall x :: x in a <==> x in b
  {
    forall x
      ensures x in a <==> x in b
    {
      assert x in multiset(a) <==> x in multiset(b);
    }
  }

  function Mapped<S, T>(s: seq<S>, f: S -> T): seq<T> { if s == [] then [] else [f(s[0])] + Mapped(s[1..], f) }

  lemma {:induction false} MappedFirst<S, T>(s: seq<S>, i: nat, f: S -> T)
    requires i < |s|
    ensures multiset(Mapped(s, f)) == multiset{f(s[i])} + multiset(Mapped(Without(s, i), f))
  {
    if i > 0 {
      MappedFirst(s[1..], i - 1, f);
      assert Without(s, i) == [s[0]] + Without(s[1..], i - 1);
      assert Without(s, i)[1..] == Without(s[1..], i - 1);
    } else {
      assert Without(s, 0) == s[1..];
    }
  }

  /** A permutation has permuted images. */
  lemma {:induction false} MappedPermutation<S, T>(s: seq<S>, t: seq<S>, f: S -> T)
    requires multiset(s) == multiset(t)
    ensures multiset(Mapped(s, f)) == multiset(Mapped(t, f))
    decreases |s|
  {
    assert |s| == |multiset(s)| && |t| == |multiset(t)|;
    if s != [] {
      var i := BothWithout(s, t);
      MappedFirst(s, 0, f);
      MappedFirst(t, i, f);
      MappedPermutation(Without(s, 0), Without(t, i), f);
    }
  }

  function EvaluationOf(x: ComparisonInput): EntityId { x.evaluation }

  lemma {:induction false} IdsMapped(inputs: seq<ComparisonInput>)
    ensures EvaluationIds(inputs) == Mapped(inputs, EvaluationOf)
  {
    if inputs != [] {
      IdsMapped(inputs[1..]);
    }
  }

  // ---------- a whole proposal ----------

  lemma {:induction false} ScenariosIgnoreOrder(a: seq<string>, b: seq<string>, inputs: seq<ComparisonInput>,
                                                permuted: seq<ComparisonInput>, scenarios: seq<map<string, nat>>)
    requires multiset(a) == multiset(b) && multiset(inputs) == multiset(permuted) && DistinctInputs(inputs)
             && DistinctInputs(permuted)
    ensures RunScenarios(a, inputs, scenarios) == RunScenarios(b, permuted, scenarios)
  {
    if scenarios != [] {
      ScenarioIgnoresOrder(a, b, inputs, permuted, scenarios[0]);
      ScenariosIgnoreOrder(a, b, inputs, permuted, scenarios[1..]);
    }
  }

  lemma ThreeMapped<S, T>(s: seq<S>, f: S -> T)
    requires |s| == 3
    ensures Mapped(s, f) == [f(s[0]), f(s[1]), f(s[2])]
  {
    var last := [s[2]];
    assert s[1..][1..] == last && last[1..] == [];
    assert Mapped(last, f) == [f(s[2])];
    assert Mapped(s[1..], f) == [f(s[1])] + Mapped(last, f);
  }

  function ProjectionAt(rows: Rows, id: EntityId): ComparisonInput {
    if id in rows && rows[id].body.OfEvaluation? then Projection(rows[id]) else ComparisonInput(id, 0, 0, 0, map[])
  }

  lemma ProjectionsAre(rows: Rows, ids: seq<EntityId>)
    requires Keyed(rows) && ComparisonProjections(rows, ids).Ok?
    ensures |ids| == 3 && Distinct(ids) && ids == [ids[0], ids[1], ids[2]]
    ensures ComparisonProjections(rows, ids).value
            == [ProjectionAt(rows, ids[0]), ProjectionAt(rows, ids[1]), ProjectionAt(rows, ids[2])]
    ensures DistinctInputs(ComparisonProjections(rows, ids).value)
    ensures forall id :: id in ids ==> id in rows && rows[id].body.OfEvaluation?
  {
    assert ids[0] in ids && ids[1] in ids && ids[2] in ids;
  }

  lemma StillProjected(rows: Rows, ids: seq<EntityId>, permuted: seq<EntityId>)
    requires ComparisonProjections(rows, ids).Ok? && |permuted| == 3 && Distinct(permuted)
             && forall id :: id in permuted ==> id in ids
    ensures ComparisonProjections(rows, permuted).Ok?
    ensures permuted[0] in rows && ids[0] in rows && rows[permuted[0]].body.OfEvaluation?
            && rows[ids[0]].body.OfEvaluation?
    ensures multiset(Keys(rows[ids[0]].body.evaluation.scores))
            == multiset(Keys(rows[permuted[0]].body.evaluation.scores))
  {
    assert permuted[0] in ids && ids[0] in ids;
  }

  lemma ProjectionsPermuted(rows: Rows, ids: seq<EntityId>, permuted: seq<EntityId>)
    requires Keyed(rows) && multiset(ids) == multiset(permuted) && ComparisonProjections(rows, ids).Ok?
    ensures ComparisonProjections(rows, permuted).Ok?
    ensures multiset(ComparisonProjections(rows, ids).value) == multiset(ComparisonProjections(rows, permuted).value)
  {
    SameMembers(ids, permuted);
    ProjectionsAre(rows, ids);
    assert |ids| == |multiset(ids)| && |permuted| == |multiset(permuted)|;
    DistinctPermuted(ids, permuted);
    StillProjected(rows, ids, permuted);
    ProjectionsAre(rows, permuted);
    var f := (id: EntityId) => ProjectionAt(rows, id);
    MappedPermutation(ids, permuted, f);
    ThreeMapped(ids, f);
    ThreeMapped(permuted, f);
  }

  lemma DistinctPermuted(a: seq<EntityId>, b: seq<EntityId>)
    requires multiset(a) == multiset(b) && Distinct(a)
    ensures Distinct(b)
  {
    forall i, j | 0 <= i < j < |b|
      ensures b[i] != b[j]
    {
      if b[i] == b[j] {
        WithoutBag(b, i);
        assert Without(b, i)[j - 1] == b[j];
        assert multiset(b)[b[i]] >= 2;
        AtMostOnce(a, b[i]);
      }
    }
  }

  lemma {:induction false} AtMostOnce(a: seq<EntityId>, x: EntityId)
    requires Distinct(a)
    ensures multiset(a)[x] <= 1
  {
    if a != [] {
      assert a == [a[0]] + a[1..];
      AtMostOnce(a[1..], x);
      assert a[0] !in a[1..];
    }
  }

  /** A comparison proposed over the same evaluations in another order has the same scenario results. */
  lemma ProposalIgnoresOrder(rows: Rows, operation: EntityId, ids: seq<EntityId>, permuted: seq<EntityId>,
                             scenarios: seq<map<string, nat>>)
    requires Keyed(rows) && multiset(ids) == multiset(permuted)
             && ProposedComparison(rows, operation, ids, scenarios).Ok?
    ensures ProposedComparison(rows, operation, permuted, scenarios).Ok?
    ensures ProposedComparison(rows, operation, permuted, scenarios).value.scenarios
            == ProposedComparison(rows, operation, ids, scenarios).value.scenarios
  {
    ProjectionsPermuted(rows, ids, permuted);
    ProjectionsAre(rows, ids);
    ProjectionsAre(rows, permuted);
    SameMembers(ids, permuted);
    StillProjected(rows, ids, permuted);
    ScenariosIgnoreOrder(Keys(rows[ids[0]].body.evaluation.scores), Keys(rows[permuted[0]].body.evaluation.scores),
                         ComparisonProjections(rows, ids).value, ComparisonProjections(rows, permuted).value,
                         scenarios);
  }
}
