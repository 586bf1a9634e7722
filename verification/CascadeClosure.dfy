/**
 `correctVerifiedFact` makes stale exactly what depends on the fact
 (packages/application/src/workbench.ts:3298-3476).
 */
module CascadeClosure {
  import opened Domain
  import opened Store
  import opened Listing
  import opened Lifecycle
  import opened ProfileCommands

  // ---------- what depends on a fact ----------

  /** A completed evaluation that accepted evidence of the fact. */
  ghost predicate EvaluationDepends(rows: Rows, fact: EntityId, id: EntityId) {
    && id in rows && rows[id].body.OfEvaluation? && rows[id].body.evaluation.state.EvalCompleted?
    && exists e :: e in rows[id].body.evaluation.acceptedEvidence && DependsOnFact(rows, fact, e)
  }

  ghost predicate ComparisonDepends(rows: Rows, fact: EntityId, id: EntityId) {
    && id in rows && rows[id].body.OfComparison? && !rows[id].body.comparison.state.CompStale?
    && exists input :: input in rows[id].body.comparison.inputs && EvaluationDepends(rows, fact, input.evaluation)
  }

  ghost predicate ArtifactDepends(rows: Rows, fact: EntityId, id: EntityId) {
    && id in rows && rows[id].body.OfArtifact? && rows[id].body.artifact.state.Sealed?
    && (fact in rows[id].body.artifact.facts
        || exists v :: v in rows[id].body.artifact.evaluations && EvaluationDepends(rows, fact, v))
  }

  ghost predicate Depends(rows: Rows, fact: EntityId, id: EntityId) {
    EvaluationDepends(rows, fact, id) || ComparisonDepends(rows, fact, id) || ArtifactDepends(rows, fact, id)
  }

  function StaleEvaluations(rows: Rows, fact: EntityId): set<EntityId> {
    set id | id in CascadeOf(rows, fact).evaluations
  }

  /** What the filters keep. */
  lemma EvaluationTable(rows: Rows, fact: EntityId, id: EntityId)
    ensures id in CascadeOf(rows, fact).evaluations <==> EvaluationUses(rows, DependentEvidence(rows, fact), id)
  {
  }

  lemma ComparisonTable(rows: Rows, fact: EntityId, id: EntityId)
    ensures id in CascadeOf(rows, fact).comparisons <==> ComparisonUses(rows, StaleEvaluations(rows, fact), id)
  {
  }

  lemma ArtifactsTable(rows: Rows, fact: EntityId, id: EntityId)
    ensures id in CascadeOf(rows, fact).artifacts <==> ArtifactUses(rows, fact, StaleEvaluations(rows, fact), id)
  {
  }

  lemma StaleEvaluationsDepend(rows: Rows, fact: EntityId)
    ensures forall id :: id in StaleEvaluations(rows, fact) <==> EvaluationDepends(rows, fact, id)
  {
    var evidence := DependentEvidence(rows, fact);
    forall id
      ensures id in StaleEvaluations(rows, fact) <==> EvaluationDepends(rows, fact, id)
    {
      EvaluationTable(rows, fact, id);
      assert EvaluationUses(rows, evidence, id) <==> EvaluationDepends(rows, fact, id);
    }
  }

  lemma DependsByTable(rows: Rows, fact: EntityId, stale: set<EntityId>, id: EntityId)
    requires forall v :: v in stale <==> EvaluationDepends(rows, fact, v)
    ensures ComparisonUses(rows, stale, id) <==> ComparisonDepends(rows, fact, id)
    ensures ArtifactUses(rows, fact, stale, id) <==> ArtifactDepends(rows, fact, id)
  {
  }

  /** The three tables of a cascade hold exactly the dependents. */
  lemma CascadeIsClosure(rows: Rows, fact: EntityId, id: EntityId)
    ensures id in CascadeOf(rows, fact).evaluations <==> EvaluationDepends(rows, fact, id)
    ensures id in CascadeOf(rows, fact).comparisons <==> ComparisonDepends(rows, fact, id)
    ensures id in CascadeOf(rows, fact).artifacts <==> ArtifactDepends(rows, fact, id)
  {
    StaleEvaluationsDepend(rows, fact);
    EvaluationTable(rows, fact, id);
    ComparisonTable(rows, fact, id);
    ArtifactsTable(rows, fact, id);
    DependsByTable(rows, fact, StaleEvaluations(rows, fact), id);
  }

  ghost predicate Holds(entities: seq<Entity>, id: EntityId) { exists e :: e in entities && e.id == id }

  lemma RevisedHolds(rows: Rows, fact: EntityId, ids: seq<EntityId>)
    requires Keyed(rows) && forall id :: id in ids ==> id in rows
    ensures forall id :: Holds(StaleOf(rows, fact, ids), id) <==> id in ids
    ensures forall e :: e in StaleOf(rows, fact, ids) ==>
              e.id in ids && e == Updated(rows[e.id], Stale(fact, rows[e.id]))
  {
    var es := StaleOf(rows, fact, ids);
    assert forall i :: 0 <= i < |ids| ==>
             ids[i] in ids && es[i] in es && es[i].id == ids[i]
               && es[i] == Updated(rows[ids[i]], Stale(fact, rows[ids[i]]));
    forall id | id in ids
      ensures Holds(es, id)
    {
      var i :| 0 <= i < |ids| && ids[i] == id;
      assert es[i] in es;
    }
  }

  lemma StaleRowsAreDependents(rows: Rows, fact: EntityId)
    requires Keyed(rows)
    ensures forall id :: Holds(StaleRows(rows, fact), id) <==> Depends(rows, fact, id)
    ensures forall e :: e in StaleRows(rows, fact) ==> e.id in rows && e == Updated(rows[e.id], Stale(fact, rows[e.id]))
  {
    var c := CascadeOf(rows, fact);
    forall id
      ensures id in c.evaluations || id in c.comparisons || id in c.artifacts <==> Depends(rows, fact, id)
    {
      CascadeIsClosure(rows, fact, id);
    }
    RevisedHolds(rows, fact, c.evaluations);
    RevisedHolds(rows, fact, c.comparisons);
    RevisedHolds(rows, fact, c.artifacts);
    HoldsAppend(StaleOf(rows, fact, c.evaluations), StaleOf(rows, fact, c.comparisons),
                StaleOf(rows, fact, c.artifacts));
  }

  lemma HoldsAppend(a: seq<Entity>, b: seq<Entity>, d: seq<Entity>)
    ensures forall id :: Holds(a + b + d, id) <==> Holds(a, id) || Holds(b, id) || Holds(d, id)
  {
    forall id
      ensures Holds(a + b + d, id) <==> Holds(a, id) || Holds(b, id) || Holds(d, id)
    {
      if Holds(a, id) { var e :| e in a && e.id == id; assert e in a + b + d; }
      if Holds(b, id) { var e :| e in b && e.id == id; assert e in a + b + d; }
      if Holds(d, id) { var e :| e in d && e.id == id; assert e in a + b + d; }
    }
  }

  // ---------- the request ----------

  /** The request supersedes `fact` by `newId` and revises exactly the dependents. */
  ghost predicate CascadesFrom(rows: Rows, request: Request, fact: EntityId) {
    && |request.mutations| >= 2 && request.mutations[0].Update? && request.mutations[0].entity.id == fact
      && request.mutations[0].entity.body.OfFact?
    && request.mutations[1].Insert?
    && forall id :: (exists i :: 2 <= i < |request.mutations| && request.mutations[i].entity.id == id) <==>
        Depends(rows, fact, id)
  }

  lemma CorrectionPlan(rows: Rows, ctx: Context, id: EntityId, expected: nat, value: Primitive, locator: Locator,
                       newId: EntityId, now: Timestamp)
    requires PlanCorrectFact(rows, ctx, id, expected, value, locator, newId, now).Ok?
    ensures Correctable(rows, id, expected, locator) == Ok(rows[id])
    ensures PlanCorrectFact(rows, ctx, id, expected, value, locator, newId, now).value
         == CorrectionRequest(rows, ctx.actor, id, newId, Correction(rows[id], value, locator, now))
  {
  }

  /** The mutations of a cascade after its first two are the rows in `stale`. */
  ghost predicate Tail(ms: seq<Mutation>, stale: seq<Entity>) {
    |ms| == |stale| + 2 && forall i :: 0 <= i < |stale| ==> ms[i + 2] == Update(stale[i], Before(stale[i]))
  }

  lemma TailHolds(ms: seq<Mutation>, stale: seq<Entity>, id: EntityId)
    requires Tail(ms, stale)
    ensures Holds(stale, id) <==> exists i :: 2 <= i < |ms| && ms[i].entity.id == id
  {
    if Holds(stale, id) {
      var i :| 0 <= i < |stale| && stale[i].id == id;
      assert ms[i + 2].entity.id == id;
    }
    if exists i :: 2 <= i < |ms| && ms[i].entity.id == id {
      var i :| 2 <= i < |ms| && ms[i].entity.id == id;
      assert ms[(i - 2) + 2].entity == stale[i - 2] && stale[i - 2] in stale;
    }
  }

  lemma RequestTail(rows: Rows, actor: Actor, id: EntityId, newId: EntityId, correction: Fact)
    requires id in rows && rows[id].body.OfFact?
    ensures Tail(CorrectionRequest(rows, actor, id, newId, correction).mutations, StaleRows(rows, id))
  {
  }

  lemma CorrectionCascades(rows: Rows, ctx: Context, id: EntityId, expected: nat, value: Primitive, locator: Locator,
                           newId: EntityId, now: Timestamp)
    requires Keyed(rows)
    ensures var r := PlanCorrectFact(rows, ctx, id, expected, value, locator, newId, now);
            r.Ok? ==> CascadesFrom(rows, r.value, id)
  {
    if PlanCorrectFact(rows, ctx, id, expected, value, locator, newId, now).Ok? {
      CorrectionPlan(rows, ctx, id, expected, value, locator, newId, now);
      RequestCascades(rows, ctx.actor, id, newId, Correction(rows[id], value, locator, now));
    }
  }

  lemma RequestCascades(rows: Rows, actor: Actor, id: EntityId, newId: EntityId, correction: Fact)
    requires Keyed(rows) && id in rows && rows[id].body.OfFact?
    ensures CascadesFrom(rows, CorrectionRequest(rows, actor, id, newId, correction), id)
  {
    var ms := CorrectionRequest(rows, actor, id, newId, correction).mutations;
    RequestTail(rows, actor, id, newId, correction);
    StaleRowsAreDependents(rows, id);
    forall x
      ensures (exists i :: 2 <= i < |ms| && ms[i].entity.id == x) <==> Depends(rows, id, x)
    {
      TailHolds(ms, StaleRows(rows, id), x);
    }
  }

  // ---------- the commit ----------

  /** The rows after a correction, row by row. */
  ghost predicate Corrected(before: Rows, after: Rows, fact: EntityId, newId: EntityId, correction: Fact)
    requires fact in before && before[fact].body.OfFact?
  {
    && after.Keys == before.Keys + {newId}
    && after[newId] == Entity(newId, 1, OfFact(correction))
    && forall id :: id in before ==>
         if id == fact then after[id] == Updated(before[id], OfFact(WithStatus(before[id].body.fact, Superseded)))
         else if Depends(before, fact, id) then after[id] == Updated(before[id], Stale(fact, before[id]))
         else after[id] == before[id]
  }

  /** Each changed row is reported by exactly one of the events, at its new revision. */
  ghost predicate ReportedOnce(before: Rows, after: Rows, events: seq<Event>) {
    && (forall k :: 0 <= k < |events| ==>
          events[k].aggregate in after && events[k].revision == after[events[k].aggregate].revision)
    && (forall j, k :: 0 <= j < k < |events| ==> events[j].aggregate != events[k].aggregate)
    && forall id :: id in after && (id !in before || after[id] != before[id]) ==>
        exists e :: e in events && e.aggregate == id
  }

  /** What an update of the view in a request does: nothing is written twice, and every event names its row. */
  lemma ReportedByEffect(view: Rows, request: Request, before: Rows, after: Rows)
    requires WellFormed(view, request) && Effect(view, request.mutations, before, after)
             && IdsDistinct(request.mutations)
    ensures ReportedOnce(before, after, request.events)
  {
    var ms, es := request.mutations, request.events;
    forall k | 0 <= k < |es|
      ensures es[k].aggregate in after && es[k].revision == after[es[k].aggregate].revision
    {
      assert ms[k] in ms;
    }
    forall id | id in after && (id !in before || after[id] != before[id])
      ensures exists e :: e in es && e.aggregate == id
    {
      assert id in Touched(ms);
      var k :| 0 <= k < |ms| && ms[k].entity.id == id;
      assert es[k] in es;
    }
  }

  /**
   A correction on the current rows, under an unused identity and key, commits. It
   supersedes the fact, inserts the correction, makes stale exactly the dependents of
   the fact, one revision further and with one event each, and leaves every other
   row as it was.
   */
  lemma CorrectionIsExact(db: Db, ctx: Context, id: EntityId, expected: nat, value: Primitive, locator: Locator,
                          newId: EntityId,
                          now: Timestamp, key: nat, command: nat)
    requires Keyed(db.rows) && newId !in db.rows && key !in db.receipts
    requires PlanCorrectFact(db.rows, ctx, id, expected, value, locator, newId, now).Ok?
    ensures
      var request := PlanCorrectFact(db.rows, ctx, id, expected, value, locator, newId, now).value;
      var (after, reply) := Transact(db, key, command, request);
      && reply == Committed
      && id in db.rows && db.rows[id].body.OfFact?
      && Corrected(db.rows, after.rows, id, newId, Correction(db.rows[id], value, locator, now))
      && after.log == db.log + request.events
      && ReportedOnce(db.rows, after.rows, request.events)
  {
    CorrectionPlan(db.rows, ctx, id, expected, value, locator, newId, now);
    var request := PlanCorrectFact(db.rows, ctx, id, expected, value, locator, newId, now).value;
    assert SoundRequest(db.rows, request, Cascading);
    CorrectionCommits(db, ctx.actor, id, newId, Correction(db.rows[id], value, locator, now), key, command);
  }

  lemma CorrectionCommits(db: Db, actor: Actor, id: EntityId, newId: EntityId, correction: Fact, key: nat, command: nat)
    requires Keyed(db.rows) && newId !in db.rows && key !in db.receipts && id in db.rows && db.rows[id].body.OfFact?
    requires WellFormed(db.rows, CorrectionRequest(db.rows, actor, id, newId, correction))
    ensures
      var request := CorrectionRequest(db.rows, actor, id, newId, correction);
      var (after, reply) := Transact(db, key, command, request);
      && reply == Committed
      && Corrected(db.rows, after.rows, id, newId, correction)
      && after.log == db.log + request.events
      && ReportedOnce(db.rows, after.rows, request.events)
  {
    var request := CorrectionRequest(db.rows, actor, id, newId, correction);
    RequestTail(db.rows, actor, id, newId, correction);
    StaleIds(db.rows, id);
    CorrectionApplicable(db.rows, request.mutations, id, newId, StaleRows(db.rows, id));
    CurrentRequestCommits(db, key, command, request);
    var after := Transact(db, key, command, request).0;
    ReportedByEffect(db.rows, request, db.rows, after.rows);
    CorrectionEffect(db.rows, after.rows, actor, id, newId, correction);
  }

  lemma CorrectionApplicable(rows: Rows, ms: seq<Mutation>, id: EntityId, newId: EntityId, stale: seq<Entity>)
    requires Keyed(rows) && newId !in rows && id in rows && rows[id].body.OfFact? && Tail(ms, stale)
    requires forall m :: m in ms ==> FromView(rows, m)
    requires ms[0].Update? && ms[0].entity.id == id && ms[1].Insert? && ms[1].entity.id == newId
    requires forall e :: e in stale ==> e.id in rows && !rows[e.id].body.OfFact?
    requires forall i, j :: 0 <= i < j < |stale| ==> stale[i].id != stale[j].id
    ensures Applicable(rows, ms)
  {
    assert forall i :: 0 <= i < |stale| ==> stale[i] in stale;
    forall j | 2 <= j < |ms|
      ensures ms[j].Update? && ms[j].entity == stale[j - 2] && ms[j].entity.id in rows && ms[j].entity.id != id
    {
      assert ms[(j - 2) + 2].entity == stale[j - 2];
    }
  }

  lemma CorrectionEffect(before: Rows, after: Rows, actor: Actor, id: EntityId, newId: EntityId, correction: Fact)
    requires Keyed(before) && newId !in before && id in before && before[id].body.OfFact?
    requires Effect(before, CorrectionRequest(before, actor, id, newId, correction).mutations, before, after)
    ensures Corrected(before, after, id, newId, correction)
  {
    var stale, ms := StaleRows(before, id), CorrectionRequest(before, actor, id, newId, correction).mutations;
    RequestTail(before, actor, id, newId, correction);
    StaleRowsAreDependents(before, id);
    TailEffect(before, after, ms, id, newId, correction, stale);
  }

  lemma TailEffect(before: Rows, after: Rows, ms: seq<Mutation>, id: EntityId, newId: EntityId, correction: Fact,
                   stale: seq<Entity>)
    requires Keyed(before) && newId !in before && id in before && before[id].body.OfFact?
    requires Effect(before, ms, before, after) && Tail(ms, stale)
    requires ms[0].entity == Updated(before[id], OfFact(WithStatus(before[id].body.fact, Superseded)))
    requires ms[1].entity == Entity(newId, 1, OfFact(correction))
    requires forall x :: Holds(stale, x) <==> Depends(before, id, x)
    requires forall e :: e in stale ==> e.id in before && e == Updated(before[e.id], Stale(id, before[e.id]))
    ensures Corrected(before, after, id, newId, correction)
  {
    assert ms[0] in ms && ms[1] in ms;
    TouchedByCascade(before, id, ms, newId, stale);
    forall x | Depends(before, id, x)
      ensures x != id && x in after && after[x] == Updated(before[x], Stale(id, before[x]))
    {
      assert Holds(stale, x);
      var i :| 0 <= i < |stale| && stale[i].id == x;
      assert ms[i + 2] in ms && ms[i + 2].entity == stale[i];
    }
  }

  lemma TouchedByCascade(rows: Rows, fact: EntityId, ms: seq<Mutation>, newId: EntityId, stale: seq<Entity>)
    requires Tail(ms, stale) && ms[0].entity.id == fact && ms[1].entity.id == newId
    requires forall id :: Holds(stale, id) <==> Depends(rows, fact, id)
    ensures forall id :: id in Touched(ms) <==> id == fact || id == newId || Depends(rows, fact, id)
    ensures forall id :: Depends(rows, fact, id) ==> id in rows
  {
    assert ms[0] in ms && ms[1] in ms;
    forall id
      ensures id in Touched(ms) <==> id == fact || id == newId || Depends(rows, fact, id)
    {
      TailHolds(ms, stale, id);
      if id in Touched(ms) {
        var k :| 0 <= k < |ms| && ms[k].entity.id == id;
      }
      if Holds(stale, id) {
        var i :| 2 <= i < |ms| && ms[i].entity.id == id;
        assert ms[i] in ms;
      }
    }
  }

  /** Right after a correction nothing depends on the corrected fact any more. */
  lemma NothingDependsAfterwards(before: Rows, after: Rows, fact: EntityId, newId: EntityId, correction: Fact)
    requires Keyed(before) && fact in before && before[fact].body.OfFact? && newId !in before
    requires Corrected(before, after, fact, newId, correction)
    ensures forall id :: !Depends(after, fact, id)
  {
    forall e
      ensures DependsOnFact(after, fact, e) ==> DependsOnFact(before, fact, e)
    {
      RowAfter(before, after, fact, newId, correction, e);
    }
    forall id
      ensures !EvaluationDepends(after, fact, id)
    {
      RowAfter(before, after, fact, newId, correction, id);
    }
    forall id
      ensures !ArtifactDepends(after, fact, id)
    {
      RowAfter(before, after, fact, newId, correction, id);
    }
  }

  /** A row that is not a fact is as it was and no dependent, or stale. */
  lemma RowAfter(before: Rows, after: Rows, fact: EntityId, newId: EntityId, correction: Fact, id: EntityId)
    requires fact in before && before[fact].body.OfFact? && newId !in before
             && Corrected(before, after, fact, newId, correction)
    ensures id in after && !after[id].body.OfFact? ==>
              id in before && (if Depends(before, fact, id) then after[id].body == Stale(fact, before[id])
                               else after[id] == before[id])
  {
  }
}
