/**
 When comparisons that are not stale rest on current evaluations: always, with
 commands run one at a time; and, under any interleaving, after each commit that
 overlooked nothing which came between its reads and itself.
 */
module Freshness {
  import opened Domain
  import opened Store
  import opened Lifecycle
  import opened Runs
  import opened ApprovalCommands
  import opened CascadeClosure
  import opened Settlement

  /** The recorded input is its completed evaluation as it now stands, from a succeeded operation of a model session. */
  ghost predicate Backed(rows: Rows, x: ComparisonInput) {
    && IsCurrentEvaluation(rows, x.evaluation) && IsSemantic(rows, x.evaluation)
    && x == Projection(rows[x.evaluation])
    && rows[rows[x.evaluation].body.evaluation.operation.value].body.operation.state.Succeeded?
  }

  ghost predicate IsLiveComparison(rows: Rows, id: EntityId) {
    id in rows && rows[id].body.OfComparison? && !rows[id].body.comparison.state.CompStale?
  }

  ghost predicate Uses(rows: Rows, id: EntityId, x: ComparisonInput) {
    IsLiveComparison(rows, id) && x in rows[id].body.comparison.inputs
  }

  ghost predicate Fresh(rows: Rows) {
    forall id, x :: Uses(rows, id, x) ==> Backed(rows, x)
  }

  // ---------- what the commands read ----------

  ghost predicate ReadCurrent(view: Rows, x: ComparisonInput) {
    IsCurrentEvaluation(view, x.evaluation) && IsSemantic(view, x.evaluation) && x == Projection(view[x.evaluation])
  }

  ghost predicate InputsRead(view: Rows, request: Request) {
    forall m, x ::
      m in request.mutations && m.Insert? && m.entity.body.OfComparison? && x in m.entity.body.comparison.inputs ==>
        ReadCurrent(view, x)
  }

  lemma ProjectionsAreRead(rows: Rows, ids: seq<EntityId>)
    requires ComparisonProjections(rows, ids).Ok? && Keyed(rows)
    ensures forall x :: x in ComparisonProjections(rows, ids).value ==> ReadCurrent(rows, x)
  {
    assert ids[0] in ids && ids[1] in ids && ids[2] in ids;
  }

  lemma ProposalReadsInputs(rows: Rows, ctx: Context, operation: EntityId, id: EntityId, evaluations: seq<EntityId>,
                            scenarios: seq<map<string, nat>>, wellFormed: bool)
    requires Keyed(rows)
    ensures var r := PlanProposeComparison(rows, ctx, operation, id, evaluations, scenarios, wellFormed);
            r.Ok? ==> InputsRead(rows, r.value)
  {
    if ComparisonProjections(rows, evaluations).Ok? {
      ProjectionsAreRead(rows, evaluations);
    }
  }

  /** Every correction cascades and every proposal reads its inputs, each on the rows it has read. */
  ghost predicate ReadsKept(run: Run) {
    && (forall s :: s in run.submissions && s.licence.Comparing? ==> InputsRead(s.view, s.request))
    && (forall s :: s in run.submissions && s.licence.Cascading? && s.request.mutations != [] ==>
          CascadesFrom(s.view, s.request, s.request.mutations[0].entity.id))
  }

  // ---------- one commit ----------

  ghost predicate BecomesStale(before: Rows, after: Rows, id: EntityId) {
    id in before && id in after && after[id] != before[id] && after[id].body.OfEvaluation?
      && after[id].body.evaluation.state.EvalStale?
  }

  lemma BackedStays(before: Rows, after: Rows, licence: Licence, x: ComparisonInput)
    requires Evolved(before, after, licence) && Backed(before, x) && !BecomesStale(before, after, x.evaluation)
    ensures Backed(after, x)
  {
    assert RowChange(before, after, x.evaluation, licence);
    var operation := before[x.evaluation].body.evaluation.operation.value;
    assert RowChange(before, after, operation, licence);
  }

  lemma StaleOnlyByCascade(before: Rows, after: Rows, licence: Licence, id: EntityId)
    requires Evolved(before, after, licence) && BecomesStale(before, after, id)
    ensures licence.Cascading?
  {
    assert RowChange(before, after, id, licence);
  }

  ghost predicate StepReads(s: Submission) {
    && (s.licence.Comparing? ==> InputsRead(s.view, s.request))
    && (s.licence.Cascading? && s.request.mutations != [] ==>
          CascadesFrom(s.view, s.request, s.request.mutations[0].entity.id))
  }

  /** A correction takes every live comparison that uses an evaluation it takes. */
  ghost predicate OverlooksNone(view: Rows, fact: EntityId, before: Rows) {
    forall id, x :: Uses(before, id, x) && EvaluationDepends(view, fact, x.evaluation) ==>
        ComparisonDepends(view, fact, id)
  }

  ghost predicate Records(request: Request, x: ComparisonInput) {
    exists m :: m in request.mutations && m.entity.body.OfComparison? && x in m.entity.body.comparison.inputs
  }

  /** What a proposal records is still at the revision it read. */
  ghost predicate NoneMoved(request: Request, before: Rows) {
    forall x :: Records(request, x) ==> x.evaluation in before && before[x.evaluation].revision == x.revision
  }

  /** Nothing that matters to freshness has come between the reads of a command and its commit on `before`. */
  ghost predicate Undisturbed(s: Submission, before: Rows) {
    && (s.licence.Cascading? && s.request.mutations != [] ==>
          OverlooksNone(s.view, s.request.mutations[0].entity.id, before))
    && (s.licence.Comparing? ==> NoneMoved(s.request, before))
  }

  lemma TouchedByTail(view: Rows, request: Request, before: Rows, after: Rows, fact: EntityId, id: EntityId)
    requires WellFormed(view, request) && Effect(view, request.mutations, before, after)
             && CascadesFrom(view, request, fact)
    requires id in before && !before[id].body.OfFact? && id in Touched(request.mutations)
    ensures id in view && before[id] == view[id] && Depends(view, fact, id)
  {
    var m := UpdateOf(view, request, before, after, id);
    AmongTail(view, request, fact, m);
  }

  lemma UpdateOf(view: Rows, request: Request, before: Rows, after: Rows, id: EntityId) returns (m: Mutation)
    requires WellFormed(view, request) && Effect(view, request.mutations, before, after)
    requires id in before && id in Touched(request.mutations)
    ensures m in request.mutations && m.Update? && m.entity.id == id
    ensures id in view && before[id] == view[id] && SameKind(before[id], m.entity)
  {
    m :| m in request.mutations && m.entity.id == id;
    assert FromView(view, m);
  }

  /** Besides the fact and its correction, a cascade writes only dependents. */
  lemma AmongTail(view: Rows, request: Request, fact: EntityId, m: Mutation)
    requires CascadesFrom(view, request, fact) && m in request.mutations && m.Update? && !m.entity.body.OfFact?
    ensures Depends(view, fact, m.entity.id)
  {
    var k :| 0 <= k < |request.mutations| && request.mutations[k] == m;
    assert k >= 2 && request.mutations[k].entity.id == m.entity.id;
  }

  /** A dependent is made stale. */
  lemma DependentTaken(s: Submission, before: Rows, after: Rows, fact: EntityId, id: EntityId)
    requires Stepped(s, before, after) && s.licence.Cascading? && CascadesFrom(s.view, s.request, fact)
    requires id in before && Depends(s.view, fact, id)
    ensures after[id].body.OfEvaluation? ==> after[id].body.evaluation.state.EvalStale?
    ensures !IsLiveComparison(after, id)
  {
    var ms := s.request.mutations;
    var k :| 2 <= k < |ms| && ms[k].entity.id == id;
    assert ms[k] in ms;
    assert Lawful(s.view, ms[k], s.licence);
  }

  lemma OldStaysBacked(s: Submission, before: Rows, after: Rows, id: EntityId, x: ComparisonInput)
    requires Stepped(s, before, after) && StepReads(s) && Undisturbed(s, before) && Fresh(before)
    requires id in before && Uses(after, id, x)
    ensures Backed(after, x)
  {
    StepEvolves(s, before, after);
    WasLive(before, after, s.licence, id, x);
    if BecomesStale(before, after, x.evaluation) {
      StaleOnlyByCascade(before, after, s.licence, x.evaluation);
      UserTaken(s, before, after, s.request.mutations[0].entity.id, id, x);
    }
    BackedStays(before, after, s.licence, x);
  }

  /** A correction that overlooks nothing takes each comparison that uses an evaluation it writes. */
  lemma UserTaken(s: Submission, before: Rows, after: Rows, fact: EntityId, id: EntityId, x: ComparisonInput)
    requires Stepped(s, before, after) && s.licence.Cascading? && CascadesFrom(s.view, s.request, fact)
    requires OverlooksNone(s.view, fact, before) && Uses(before, id, x)
    requires x.evaluation in before && before[x.evaluation].body.OfEvaluation?
             && x.evaluation in Touched(s.request.mutations)
    ensures !IsLiveComparison(after, id)
  {
    TouchedByTail(s.view, s.request, before, after, fact, x.evaluation);
    OnlyEvaluation(s.view, fact, x.evaluation);
    DependentTaken(s, before, after, fact, id);
  }

  lemma OnlyEvaluation(rows: Rows, fact: EntityId, id: EntityId)
    ensures id in rows && rows[id].body.OfEvaluation? && Depends(rows, fact, id) ==> EvaluationDepends(rows, fact, id)
  {
  }

  lemma WasLive(before: Rows, after: Rows, licence: Licence, id: EntityId, x: ComparisonInput)
    requires Evolved(before, after, licence) && id in before && Uses(after, id, x)
    ensures Uses(before, id, x)
  {
    assert RowChange(before, after, id, licence);
  }

  /** The operations that were read have kept their routes and sessions. */
  ghost predicate RoutesKept(view: Rows, before: Rows) {
    forall id :: id in view && view[id].body.OfOperation? ==> SameRoute(view, before, id)
  }

  ghost predicate SameRoute(rows: Rows, later: Rows, id: EntityId)
    requires id in rows && rows[id].body.OfOperation?
  {
    && id in later && later[id].body.OfOperation?
    && later[id].body.operation.route == rows[id].body.operation.route
      && later[id].body.operation.session == rows[id].body.operation.session
  }

  lemma ReadStillBacked(s: Submission, before: Rows, x: ComparisonInput)
    requires Behind(s.view, before) && RoutesKept(s.view, before) && Orderly(before)
    requires ReadCurrent(s.view, x) && before[x.evaluation].revision == x.revision
    ensures Backed(before, x)
  {
    assert before[x.evaluation] == s.view[x.evaluation];
    assert WasCompleted(before, x.evaluation) && Concluded(before, x.evaluation);
    assert SameRoute(s.view, before, before[x.evaluation].body.evaluation.operation.value);
  }

  lemma NewComparison(s: Submission, before: Rows, after: Rows, id: EntityId, x: ComparisonInput)
    requires Stepped(s, before, after) && StepReads(s) && id !in before && Uses(after, id, x)
    ensures s.licence.Comparing? && Records(s.request, x) && ReadCurrent(s.view, x)
  {
    StepEvolves(s, before, after);
    assert RowChange(before, after, id, s.licence);
    var m :| m in s.request.mutations && m.entity.id == id;
  }

  lemma NewIsBacked(s: Submission, before: Rows, after: Rows, id: EntityId, x: ComparisonInput)
    requires Stepped(s, before, after) && StepReads(s) && Undisturbed(s, before) && RoutesKept(s.view, before)
             && Orderly(before)
    requires id !in before && Uses(after, id, x)
    ensures Backed(after, x)
  {
    NewComparison(s, before, after, id, x);
    ReadStillBacked(s, before, x);
    StepEvolves(s, before, after);
    if BecomesStale(before, after, x.evaluation) {
      StaleOnlyByCascade(before, after, s.licence, x.evaluation);
    }
    BackedStays(before, after, s.licence, x);
  }

  lemma OverlookedKept(s: Submission, before: Rows, after: Rows, id: EntityId)
    requires Stepped(s, before, after) && s.licence.Cascading?
             && CascadesFrom(s.view, s.request, s.request.mutations[0].entity.id)
    requires IsLiveComparison(before, id) && !ComparisonDepends(s.view, s.request.mutations[0].entity.id, id)
    ensures id in after && after[id] == before[id]
  {
    OnlyComparison(s.view, s.request.mutations[0].entity.id, id);
    if id in Touched(s.request.mutations) {
      TouchedByTail(s.view, s.request, before, after, s.request.mutations[0].entity.id, id);
    }
  }

  lemma OnlyComparison(rows: Rows, fact: EntityId, id: EntityId)
    ensures id in rows && rows[id].body.OfComparison? && Depends(rows, fact, id) ==> ComparisonDepends(rows, fact, id)
  {
  }

  /** A live comparison that a correction overlooks is left resting on a stale evaluation. */
  lemma OverlookedIsNotFresh(s: Submission, before: Rows, after: Rows, id: EntityId, x: ComparisonInput)
    requires Stepped(s, before, after) && s.licence.Cascading?
             && CascadesFrom(s.view, s.request, s.request.mutations[0].entity.id)
    requires Uses(before, id, x) && EvaluationDepends(s.view, s.request.mutations[0].entity.id, x.evaluation)
    requires !ComparisonDepends(s.view, s.request.mutations[0].entity.id, id)
    ensures !Fresh(after)
  {
    OverlookedKept(s, before, after, id);
    assert x.evaluation in before && Depends(s.view, s.request.mutations[0].entity.id, x.evaluation);
    DependentTaken(s, before, after, s.request.mutations[0].entity.id, x.evaluation);
    assert Uses(after, id, x) && !Backed(after, x);
  }

  lemma RecordedRow(s: Submission, before: Rows, after: Rows, m: Mutation)
    requires Stepped(s, before, after) && s.licence.Comparing? && m in s.request.mutations
             && m.entity.body.OfComparison?
    ensures m.Insert? && IsLiveComparison(after, m.entity.id) && after[m.entity.id] == m.entity
  {
    assert Lawful(s.view, m, s.licence);
  }

  lemma MovedRow(view: Rows, before: Rows, after: Rows, licence: Licence, x: ComparisonInput)
    requires Behind(view, before) && Evolved(before, after, licence) && licence.Comparing?
    requires ReadCurrent(view, x) && before[x.evaluation].revision != x.revision
    ensures !Backed(after, x)
  {
    assert x.evaluation in after && RowChange(before, after, x.evaluation, licence);
  }

  /** A comparison proposed on an evaluation that has moved is not fresh. */
  lemma MovedIsNotFresh(s: Submission, before: Rows, after: Rows, x: ComparisonInput)
    requires Stepped(s, before, after) && StepReads(s) && s.licence.Comparing? && Records(s.request, x)
    requires !(x.evaluation in before && before[x.evaluation].revision == x.revision)
    ensures !Fresh(after)
  {
    var m :| m in s.request.mutations && m.entity.body.OfComparison? && x in m.entity.body.comparison.inputs;
    RecordedRow(s, before, after, m);
    StepEvolves(s, before, after);
    MovedRow(s.view, before, after, s.licence, x);
    assert Uses(after, m.entity.id, x);
  }

  /** A commit on a fresh state leaves a fresh one exactly when nothing that matters has come between. */
  lemma FreshStep(s: Submission, before: Rows, after: Rows)
    requires Stepped(s, before, after) && StepReads(s) && RoutesKept(s.view, before) && Orderly(before)
             && Fresh(before)
    ensures Fresh(after) <==> Undisturbed(s, before)
  {
    if Undisturbed(s, before) {
      forall id, x | Uses(after, id, x)
        ensures Backed(after, x)
      {
        if id in before {
          OldStaysBacked(s, before, after, id, x);
        } else {
          NewIsBacked(s, before, after, id, x);
        }
      }
    } else if s.licence.Cascading? {
      var fact := s.request.mutations[0].entity.id;
      var id, x :| Uses(before, id, x) && EvaluationDepends(s.view, fact, x.evaluation)
        && !ComparisonDepends(s.view, fact, id);
      OverlookedIsNotFresh(s, before, after, id, x);
    } else {
      var x :| Records(s.request, x) && !(x.evaluation in before && before[x.evaluation].revision == x.revision);
      MovedIsNotFresh(s, before, after, x);
    }
  }

  lemma CurrentIsUndisturbed(s: Submission)
    requires SoundRequest(s.view, s.request, s.licence) && StepReads(s)
    ensures Undisturbed(s, s.view)
  {
    forall x | Records(s.request, x) && s.licence.Comparing?
      ensures x.evaluation in s.view && s.view[x.evaluation].revision == x.revision
    {
      var m :| m in s.request.mutations && m.entity.body.OfComparison? && x in m.entity.body.comparison.inputs;
      assert Lawful(s.view, m, s.licence);
      assert ReadCurrent(s.view, x);
    }
  }

  // ---------- runs ----------

  lemma {:induction false} RouteKept(run: Run, i: nat, j: nat, id: EntityId)
    requires ValidRun(run) && i <= j < |run.states|
    requires id in run.states[i].rows && run.states[i].rows[id].body.OfOperation?
    ensures SameRoute(run.states[i].rows, run.states[j].rows, id)
    decreases j
  {
    if i < j {
      RouteKept(run, i, j - 1, id);
      RouteKeptAt(run, j - 1, id);
    }
  }

  lemma RouteKeptAt(run: Run, i: nat, id: EntityId)
    requires ValidRun(run) && i < |run.submissions|
    requires id in run.states[i].rows && run.states[i].rows[id].body.OfOperation?
    ensures SameRoute(run.states[i].rows, run.states[i + 1].rows, id)
  {
    RowsChangeLawfully(run, i);
    if run.states[i + 1] != run.states[i] {
      RouteStep(run.states[i].rows, run.states[i + 1].rows, run.submissions[i].licence, id);
    }
  }

  lemma RouteStep(before: Rows, after: Rows, licence: Licence, id: EntityId)
    requires Evolved(before, after, licence) && id in before && before[id].body.OfOperation?
    ensures SameRoute(before, after, id)
  {
    assert id in after && RowChange(before, after, id, licence);
  }

  lemma RoutesOfRun(run: Run, i: nat)
    requires ValidRun(run) && i < |run.submissions|
    ensures RoutesKept(run.submissions[i].view, run.states[i].rows)
  {
    assert Follows(run, i);
    var view := run.submissions[i].view;
    forall id | id in view && view[id].body.OfOperation?
      ensures SameRoute(view, run.states[i].rows, id)
    {
      var t :| 0 <= t < |run.states[..i + 1]| && SeenAt(run.states[..i + 1][t], view, id);
      RouteKept(run, t, i, id);
    }
  }

  /**
   Whatever is interleaved, a step keeps comparisons fresh exactly when it does not
   commit or nothing that matters came between: a correction overlooks no live
   comparison that uses an evaluation it makes stale, and a proposal records only
   evaluations that are still at the revision it read.
   */
  lemma FreshnessKeptExactly(run: Run, i: nat)
    requires ValidRun(run) && ReadsKept(run) && i < |run.submissions| && Fresh(run.states[i].rows)
    ensures Fresh(run.states[i + 1].rows) <==>
              (Commits(run.states[i], run.submissions[i]) ==> Undisturbed(run.submissions[i], run.states[i].rows))
  {
    StepOfRun(run, i);
    EvaluationsConclude(run, i);
    RoutesOfRun(run, i);
    if Commits(run.states[i], run.submissions[i]) {
      assert StepReads(run.submissions[i]);
      FreshStep(run.submissions[i], run.states[i].rows, run.states[i + 1].rows);
    }
  }

  /**
   With commands run one at a time, in every reachable state each comparison that is
   not stale references only completed evaluations, at the recorded revisions and
   with the recorded scores and dimension values, each produced by a succeeded
   operation of a model session.
   */
  lemma {:induction false} LiveComparisonsAreFresh(run: Run, i: nat)
    requires ValidRun(run) && Serial(run) && ReadsKept(run) && i < |run.states|
    ensures Fresh(run.states[i].rows)
  {
    if i > 0 {
      LiveComparisonsAreFresh(run, i - 1);
      if Commits(run.states[i - 1], run.submissions[i - 1]) {
        SerialIsUndisturbed(run, i - 1);
      }
      FreshnessKeptExactly(run, i - 1);
    }
  }

  lemma SerialIsUndisturbed(run: Run, i: nat)
    requires ValidRun(run) && Serial(run) && ReadsKept(run) && i < |run.submissions|
             && Commits(run.states[i], run.submissions[i])
    ensures Undisturbed(run.submissions[i], run.states[i].rows)
  {
    StepOfRun(run, i);
    assert StepReads(run.submissions[i]);
    CurrentIsUndisturbed(run.submissions[i]);
  }
}
