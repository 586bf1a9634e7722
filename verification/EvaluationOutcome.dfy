/**
 One `evaluate` call from beginning to end, undisturbed: it either changes nothing
 or settles its operation and its evaluation together, with success or with failure.
 */
module EvaluationOutcome {
  import opened Domain
  import opened Store
  import opened Listing
  import opened Lifecycle
  import opened OperationCommands
  import opened Service

  ghost predicate Unused(db: Db, input: EvaluationInput, keys: EvaluationCommits) {
    && keys.admit !in db.receipts && keys.complete !in db.receipts && keys.fail !in db.receipts
    && keys.admit != keys.complete && keys.admit != keys.fail
    && input.newId !in db.rows && input.newOperation !in db.rows && input.newId != input.newOperation
  }

  /** The state between the two commits. */
  ghost predicate Admitted(db: Db, a: Admission, keys: EvaluationCommits) {
    && Keyed(db.rows) && AdmissionRead(db.rows, a) && ProperAdmission(a) && Native(a)
    && keys.complete !in db.receipts && keys.fail !in db.receipts
  }

  function FirstMutation(input: EvaluationInput, a: Admission): Mutation {
    if input.existing.None? then Insert(a.operation) else Update(a.operation, Before(a.operation))
  }

  /** The identities of an admission differ, being in different tables or new. */
  lemma AdmissionIdentities(rows: Rows, ctx: Context, input: EvaluationInput, now: Timestamp)
    requires Keyed(rows) && AdmissionFor(rows, ctx, input, now).Ok?
    requires input.newId !in rows && input.newOperation !in rows && input.newId != input.newOperation
    ensures
      var a := AdmissionFor(rows, ctx, input, now).value;
      && a.evaluation.id == input.newId && a.opportunity.id == input.opportunity && a.rubric.id == input.rubric
      && input.opportunity in rows && input.rubric in rows && rows[input.rubric] == a.rubric
      && (if input.existing.None? then a.operation.id == input.newOperation else a.operation.id in rows)
      && a.operation.id != input.newId && a.operation.id != input.opportunity && a.operation.id != input.rubric
      && input.opportunity != input.rubric
  {
  }

  lemma AdmissionCommits(db: Db, ctx: Context, input: EvaluationInput, now: Timestamp, keys: EvaluationCommits,
                         digest: nat)
    requires Keyed(db.rows) && Unused(db, input, keys) && AdmissionFor(db.rows, ctx, input, now).Ok?
    ensures
      var a := AdmissionFor(db.rows, ctx, input, now).value;
      var (admitted, reply) := Transact(db, keys.admit, digest, AdmittingRequest(db.rows, ctx, input, now));
      && reply == Committed && Admitted(admitted, a, keys)
      && admitted.receipts == db.receipts[keys.admit := Receipt(digest, [a.operation, a.evaluation, a.opportunity])]
  {
    var a := AdmissionFor(db.rows, ctx, input, now).value;
    var request := AdmittingRequest(db.rows, ctx, input, now);
    AdmissionIdentities(db.rows, ctx, input, now);
    AdmissionPlan(db.rows, ctx, input, now);
    AdmissionLands(db, input, a, request, keys, digest);
  }

  lemma AdmissionLands(db: Db, input: EvaluationInput, a: Admission, request: Request, keys: EvaluationCommits,
                       digest: nat)
    requires Keyed(db.rows) && Unused(db, input, keys) && WellFormed(db.rows, request)
    requires request.mutations == [FirstMutation(input, a), Insert(a.evaluation),
                                   Update(a.opportunity, Before(a.opportunity))]
    requires a.evaluation.id == input.newId && (input.existing.None? ==> a.operation.id == input.newOperation)
    requires a.opportunity.id in db.rows && a.rubric.id in db.rows && db.rows[a.rubric.id] == a.rubric
    requires a.operation.id != a.evaluation.id && a.operation.id != a.opportunity.id && a.operation.id != a.rubric.id
    requires a.opportunity.id != a.rubric.id && ProperAdmission(a) && Native(a)
    ensures var (admitted, reply) := Transact(db, keys.admit, digest, request);
      && reply == Committed && Admitted(admitted, a, keys)
      && admitted.receipts == db.receipts[keys.admit := Receipt(digest, [a.operation, a.evaluation, a.opportunity])]
  {
    AdmissionApplicable(db.rows, request.mutations, input, a);
    CurrentRequestCommits(db, keys.admit, digest, request);
    CommitKeyed(db.rows, db, keys.admit, digest, request);
    AdmissionInEffect(db.rows, Transact(db, keys.admit, digest, request).0.rows, request.mutations, a);
    assert Written(request.mutations) == [a.operation, a.evaluation, a.opportunity];
  }

  lemma AdmissionPlan(rows: Rows, ctx: Context, input: EvaluationInput, now: Timestamp)
    requires Keyed(rows) && AdmissionFor(rows, ctx, input, now).Ok?
    ensures
      var a := AdmissionFor(rows, ctx, input, now).value;
      var request := AdmittingRequest(rows, ctx, input, now);
      && WellFormed(rows, request)
      && request.mutations == [FirstMutation(input, a), Insert(a.evaluation),
                               Update(a.opportunity, Before(a.opportunity))]
  {
    var plan := PlanAdmitEvaluation(rows, ctx, input.opportunity, input.rubric, input.existing, input.newOperation,
                                    input.newId, input.contradictions, now);
    assert SoundRequest(rows, plan.value, Operating);
  }

  lemma AdmissionApplicable(rows: Rows, ms: seq<Mutation>, input: EvaluationInput, a: Admission)
    requires ms == [FirstMutation(input, a), Insert(a.evaluation), Update(a.opportunity, Before(a.opportunity))]
    requires forall m :: m in ms ==> FromView(rows, m)
    requires a.evaluation.id !in rows && (input.existing.None? ==> a.operation.id !in rows)
    requires a.operation.id != a.evaluation.id && a.operation.id != a.opportunity.id && a.opportunity.id in rows
    ensures Applicable(rows, ms)
  {
  }

  lemma AdmissionInEffect(before: Rows, after: Rows, ms: seq<Mutation>, a: Admission)
    requires |ms| == 3 && ms[0].entity == a.operation && ms[1].entity == a.evaluation && ms[2].entity == a.opportunity
    requires Effect(before, ms, before, after) && a.rubric.id in before && before[a.rubric.id] == a.rubric
    requires a.rubric.id != a.operation.id && a.rubric.id != a.evaluation.id && a.rubric.id != a.opportunity.id
    ensures AdmissionRead(after, a)
  {
    assert ms[0] in ms && ms[1] in ms && ms[2] in ms;
    assert a.rubric.id !in Touched(ms);
  }

  ghost predicate Apart(rows: Rows, a: Admission) {
    && a.operation.id != a.evaluation.id && a.operation.id != a.opportunity.id && a.operation.id != a.rubric.id
    && a.evaluation.id != a.opportunity.id && a.evaluation.id != a.rubric.id && a.opportunity.id != a.rubric.id
  }

  lemma CarriedApart(rows: Rows, a: Admission)
    requires AdmissionRead(rows, a) && ProperAdmission(a)
    ensures Apart(rows, a)
    ensures rows[a.operation.id] == a.operation && rows[a.evaluation.id] == a.evaluation
    ensures rows[a.opportunity.id] == a.opportunity && rows[a.rubric.id] == a.rubric
  {
    assert a.operation in Carried(a) && a.evaluation in Carried(a) && a.opportunity in Carried(a)
           && a.rubric in Carried(a);
  }

  /** How an evaluation and its operation end. */
  ghost predicate Ended(rows: Rows, a: Admission, completed: bool) {
    && a.operation.id in rows && rows[a.operation.id].body.OfOperation?
    && a.evaluation.id in rows && rows[a.evaluation.id].body.OfEvaluation?
    && a.opportunity.id in rows && rows[a.opportunity.id].body.OfOpportunity?
    && (var o, v := rows[a.operation.id].body.operation, rows[a.evaluation.id].body.evaluation;
        && o.terminalAt.Some? && v.operation == Some(a.operation.id)
        && (if completed then
              o.state.Succeeded? && o.results == [a.evaluation.id] && v.state.EvalCompleted?
                && rows[a.opportunity.id].body.opportunity.workflow.Evaluated?
            else
              o.state.Failed? && v.state.EvalFailed? && rows[a.opportunity.id] == a.opportunity))
  }

  lemma CompletionCommits(db: Db, ctx: Context, a: Admission, evidence: set<EntityId>, scored: Outcome<Scored>,
                          now: Timestamp, keys: EvaluationCommits, command: nat)
    requires Admitted(db, a, keys)
    ensures
      var plan := PlanCompleteEvaluation(db.rows, ctx, a, evidence, scored, now);
      var (after, r) := Executed(db, plan, keys.complete, command);
      if plan.Ok? then
        && r.Ok? && Ended(after.rows, a, true) && StillThere(after.rows, a)
        && after.receipts.Keys == db.receipts.Keys + {keys.complete} && after.receipts[keys.complete].command == command
        && (forall k :: k in db.receipts ==> after.receipts[k] == db.receipts[k])
      else r.Err? && after == db
  {
    var plan := PlanCompleteEvaluation(db.rows, ctx, a, evidence, scored, now);
    if plan.Ok? {
      CarriedApart(db.rows, a);
      CompletionMutations(db.rows, ctx, a, evidence, scored, now);
      CompletionApplicable(db.rows, plan.value.mutations, a, now);
      CurrentRequestCommits(db, keys.complete, command, plan.value);
      CompletionInEffect(db.rows, Transact(db, keys.complete, command, plan.value).0.rows, plan.value.mutations, a,
                         now);
    }
  }

  /** The four updates of a completion. */
  ghost predicate Completes(ms: seq<Mutation>, a: Admission, now: Timestamp)
    requires ProperAdmission(a)
  {
    && |ms| == 4 && ms[0].entity.id == a.evaluation.id && ms[1].entity.id == a.operation.id
    && ms[2].entity.id == a.opportunity.id && ms[3].entity.id == a.rubric.id
    && ms[0].Update? && ms[1].Update? && ms[2].Update? && ms[3].Update?
    && ms[1].entity == SucceededOperation(a, now) && ms[2].entity == EvaluatedOpportunity(a)
    && ms[3].entity == UsedRubric(a, now)
    && ms[0].entity.body.OfEvaluation? && ms[0].entity.body.evaluation.state.EvalCompleted?
      && ms[0].entity.body.evaluation.operation == Some(a.operation.id)
  }

  /** The operation has moved on, and what an evaluation starts from is still there. */
  ghost predicate StillThere(rows: Rows, a: Admission) {
    && a.operation.id in rows && rows[a.operation.id].revision == a.operation.revision + 1
    && a.opportunity.id in rows && rows[a.opportunity.id].body.OfOpportunity?
    && a.rubric.id in rows && rows[a.rubric.id].body.OfRubric?
  }

  lemma CompletionApplicable(rows: Rows, ms: seq<Mutation>, a: Admission, now: Timestamp)
    requires ProperAdmission(a) && Completes(ms, a, now) && Apart(rows, a) && forall m :: m in ms ==> FromView(rows, m)
    ensures Applicable(rows, ms)
  {
  }

  lemma CompletionInEffect(before: Rows, after: Rows, ms: seq<Mutation>, a: Admission, now: Timestamp)
    requires ProperAdmission(a) && Native(a) && Completes(ms, a, now) && Effect(before, ms, before, after)
    ensures Ended(after, a, true) && StillThere(after, a)
  {
    assert ms[0] in ms && ms[1] in ms && ms[2] in ms && ms[3] in ms;
  }

  lemma CompletionMutations(rows: Rows, ctx: Context, a: Admission, evidence: set<EntityId>, scored: Outcome<Scored>,
                            now: Timestamp)
    requires Keyed(rows) && AdmissionRead(rows, a) && ProperAdmission(a) && Native(a)
             && PlanCompleteEvaluation(rows, ctx, a, evidence, scored, now).Ok?
    ensures
      var request := PlanCompleteEvaluation(rows, ctx, a, evidence, scored, now).value;
      Completes(request.mutations, a, now) && WellFormed(rows, request)
  {
    assert SoundRequest(rows, PlanCompleteEvaluation(rows, ctx, a, evidence, scored, now).value, Completing);
  }

  lemma FailureCommits(db: Db, ctx: Context, a: Admission, now: Timestamp, keys: EvaluationCommits, command: nat)
    requires Admitted(db, a, keys)
    ensures
      var (after, r) := Executed(db, PlanFailEvaluation(db.rows, ctx, a, now), keys.fail, command);
      r.Ok? && Ended(after.rows, a, false)
  {
    var request := FailureRequest(ctx.actor, a, now);
    CarriedApart(db.rows, a);
    FailureWellFormed(db.rows, ctx, a, now);
    FailureApplicable(db.rows, request.mutations, a, now);
    CurrentRequestCommits(db, keys.fail, command, request);
    FailureInEffect(db.rows, Transact(db, keys.fail, command, request).0.rows, request.mutations, a, now);
  }

  lemma FailureWellFormed(rows: Rows, ctx: Context, a: Admission, now: Timestamp)
    requires Keyed(rows) && AdmissionRead(rows, a) && ProperAdmission(a)
    ensures PlanFailEvaluation(rows, ctx, a, now) == Ok(FailureRequest(ctx.actor, a, now))
    ensures WellFormed(rows, FailureRequest(ctx.actor, a, now))
  {
    assert SoundRequest(rows, PlanFailEvaluation(rows, ctx, a, now).value, Operating);
  }

  /** The two updates of a failure. */
  ghost predicate Fails(ms: seq<Mutation>, a: Admission, now: Timestamp)
    requires ProperAdmission(a)
  {
    |ms| == 2 && ms[0] == Update(FailedOperation(a, now), a.operation.revision)
      && ms[1] == Update(FailedEvaluation(a), a.evaluation.revision)
  }

  lemma FailureApplicable(rows: Rows, ms: seq<Mutation>, a: Admission, now: Timestamp)
    requires ProperAdmission(a) && Fails(ms, a, now) && Apart(rows, a) && forall m :: m in ms ==> FromView(rows, m)
    ensures Applicable(rows, ms)
  {
  }

  lemma FailureInEffect(before: Rows, after: Rows, ms: seq<Mutation>, a: Admission, now: Timestamp)
    requires ProperAdmission(a) && Fails(ms, a, now) && Apart(before, a) && Effect(before, ms, before, after)
    requires a.opportunity.id in before && before[a.opportunity.id] == a.opportunity
    ensures Ended(after, a, false)
  {
    assert ms[0] in ms && ms[1] in ms;
    assert a.opportunity.id !in Touched(ms);
  }

  /**
   An undisturbed evaluation under fresh keys and identities either changes nothing,
   or leaves its operation settled and its evaluation ended with it: completed as the
   operation's one result, or failed, in which case the opportunity stays "evaluating".
   */
  lemma EvaluationSettles(db: Db, ctx: Context, input: EvaluationInput, now: Timestamp, terminalAt: Timestamp,
                          failedAt: Timestamp, keys: EvaluationCommits, digests: EvaluationCommits)
    requires Keyed(db.rows) && Unused(db, input, keys)
    ensures
      var (after, r) := EvaluationRun(db, ctx, input, now, terminalAt, failedAt, keys, digests);
      match AdmissionFor(db.rows, ctx, input, now)
      case Err(code) => after == db && r == Err(code)
      case Ok(a) => Ended(after.rows, a, r.Ok?)
  {
    if AdmissionFor(db.rows, ctx, input, now).Ok? {
      var a := AdmissionFor(db.rows, ctx, input, now).value;
      AdmissionCommits(db, ctx, input, now, keys, digests.admit);
      var admitted := Transact(db, keys.admit, digests.admit, AdmittingRequest(db.rows, ctx, input, now)).0;
      CompletionCommits(admitted, ctx, a, input.evidence, input.scored, terminalAt, keys, digests.complete);
      FailureCommits(admitted, ctx, a, failedAt, keys, digests.fail);
    }
  }

  // ---------- the same call again ----------

  /**
   The keys are those of the first call and the input too, but the identities are drawn anew,
   and one of them is part of what the digest of the completion is taken over.
   */
  ghost predicate Repeats(input: EvaluationInput, again: EvaluationInput, digests: EvaluationCommits,
                          anew: EvaluationCommits) {
    && again.opportunity == input.opportunity && again.rubric == input.rubric && again.existing == input.existing
    && again.contradictions == input.contradictions
    && anew.admit == digests.admit && anew.complete != digests.complete
  }

  /** What a completed evaluation leaves behind. */
  ghost predicate LeftBehind(db: Db, a: Admission, keys: EvaluationCommits, digests: EvaluationCommits) {
    && Ended(db.rows, a, true) && StillThere(db.rows, a)
    && keys.admit in db.receipts
    && db.receipts[keys.admit] == Receipt(digests.admit, [a.operation, a.evaluation, a.opportunity])
    && keys.complete in db.receipts && db.receipts[keys.complete].command == digests.complete
    && keys.fail !in db.receipts
  }

  lemma SuccessLeaves(db: Db, ctx: Context, input: EvaluationInput, now: Timestamp, terminalAt: Timestamp,
                      failedAt: Timestamp, keys: EvaluationCommits, digests: EvaluationCommits)
    requires Keyed(db.rows) && Unused(db, input, keys) && keys.complete != keys.fail
    requires EvaluationRun(db, ctx, input, now, terminalAt, failedAt, keys, digests).1.Ok?
    ensures AdmissionFor(db.rows, ctx, input, now).Ok?
    ensures LeftBehind(EvaluationRun(db, ctx, input, now, terminalAt, failedAt, keys, digests).0,
                       AdmissionFor(db.rows, ctx, input, now).value, keys, digests)
  {
    var a := AdmissionFor(db.rows, ctx, input, now).value;
    AdmissionCommits(db, ctx, input, now, keys, digests.admit);
    var admitted := Transact(db, keys.admit, digests.admit, AdmittingRequest(db.rows, ctx, input, now)).0;
    ContinuationLeaves(admitted, ctx, a, input, terminalAt, failedAt, keys, digests);
  }

  lemma ContinuationLeaves(admitted: Db, ctx: Context, a: Admission, input: EvaluationInput, terminalAt: Timestamp,
                           failedAt: Timestamp, keys: EvaluationCommits, digests: EvaluationCommits)
    requires Admitted(admitted, a, keys) && keys.admit in admitted.receipts
    requires admitted.receipts[keys.admit] == Receipt(digests.admit, [a.operation, a.evaluation, a.opportunity])
    requires keys.complete != keys.fail
    requires ContinuationRun(admitted, ctx, a, input, terminalAt, failedAt, keys, digests).1.Ok?
    ensures LeftBehind(ContinuationRun(admitted, ctx, a, input, terminalAt, failedAt, keys, digests).0, a, keys,
                       digests)
  {
    CompletionCommits(admitted, ctx, a, input.evidence, input.scored, terminalAt, keys, digests.complete);
  }

  /** The second completion meets the key of the first one, and the failure that follows a later revision. */
  lemma ContinuationRefused(db: Db, ctx: Context, a: Admission, input: EvaluationInput, terminalAt: Timestamp,
                            failedAt: Timestamp, keys: EvaluationCommits, digests: EvaluationCommits)
    requires ProperAdmission(a) && keys.fail !in db.receipts
    requires keys.complete in db.receipts && db.receipts[keys.complete].command != digests.complete
    requires a.operation.id in db.rows && db.rows[a.operation.id].revision == a.operation.revision + 1
    ensures ContinuationRun(db, ctx, a, input, terminalAt, failedAt, keys, digests) == (db, Err(RevisionConflict))
  {
    var failure := FailureRequest(ctx.actor, a, failedAt);
    var first := failure.mutations[0];
    assert failure.mutations[..1] == [first] && [first][..0] == [];
    assert ApplyAll(db.rows, [first]) == ApplyOne(db.rows, first);
    RefusedPrefix(db.rows, failure.mutations, 1);
  }

  /**
   A call that repeats a successful evaluation under its keys, with nothing in between, does
   not return the first result: it is refused and changes nothing.
   */
  lemma RepeatedEvaluationIsRefused(db: Db, ctx: Context, input: EvaluationInput, now: Timestamp,
                                    terminalAt: Timestamp, failedAt: Timestamp, keys: EvaluationCommits,
                                    digests: EvaluationCommits, again: EvaluationInput, later: Timestamp,
                                    terminalLater: Timestamp, failedLater: Timestamp, anew: EvaluationCommits)
    requires Keyed(db.rows) && Unused(db, input, keys) && keys.complete != keys.fail
    requires Repeats(input, again, digests, anew)
    requires EvaluationRun(db, ctx, input, now, terminalAt, failedAt, keys, digests).1.Ok?
    ensures
      var after := EvaluationRun(db, ctx, input, now, terminalAt, failedAt, keys, digests).0;
      EvaluationRun(after, ctx, again, later, terminalLater, failedLater, keys, anew)
        == (after, Err(if input.existing.None? then RevisionConflict else InvalidTransition))
  {
    SuccessLeaves(db, ctx, input, now, terminalAt, failedAt, keys, digests);
    var a := AdmissionFor(db.rows, ctx, input, now).value;
    AdmittedInputs(db.rows, ctx, input, now);
    var after := EvaluationRun(db, ctx, input, now, terminalAt, failedAt, keys, digests).0;
    RepeatedAfter(after, ctx, a, again, later, terminalLater, failedLater, keys, digests, anew);
  }

  lemma AdmittedInputs(rows: Rows, ctx: Context, input: EvaluationInput, now: Timestamp)
    requires Keyed(rows) && AdmissionFor(rows, ctx, input, now).Ok?
    ensures
      var a := AdmissionFor(rows, ctx, input, now).value;
      && ProperAdmission(a) && a.opportunity.id == input.opportunity && a.rubric.id == input.rubric
      && (input.existing.Some? ==> a.operation.id == input.existing.value)
  {
  }

  lemma RepeatedAfter(db: Db, ctx: Context, a: Admission, again: EvaluationInput, later: Timestamp,
                      terminalLater: Timestamp, failedLater: Timestamp, keys: EvaluationCommits,
                      digests: EvaluationCommits, anew: EvaluationCommits)
    requires ProperAdmission(a) && LeftBehind(db, a, keys, digests)
    requires anew.admit == digests.admit && anew.complete != digests.complete
    requires again.opportunity == a.opportunity.id && again.rubric == a.rubric.id
    requires again.existing.Some? ==> again.existing.value == a.operation.id
    ensures EvaluationRun(db, ctx, again, later, terminalLater, failedLater, keys, anew)
         == (db, Err(if again.existing.None? then RevisionConflict else InvalidTransition))
  {
    if again.existing.None? {
      var own := AdmissionFor(db.rows, ctx, again, later).value;
      var second := own.(operation := a.operation, evaluation := a.evaluation, opportunity := a.opportunity);
      ContinuationRefused(db, ctx, second, again, terminalLater, failedLater, keys, anew);
    }
  }
}
