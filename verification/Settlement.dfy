/**
 Operations and the evaluations they settle, in every run: whatever is
 interleaved, and wherever a process stops between the commit that admits an
 evaluation and the one that completes it.
 */
module Settlement {
  import opened Domain
  import opened Store
  import opened Listing
  import opened Lifecycle
  import opened Runs
  import opened OperationCommands

  ghost predicate IsOperation(rows: Rows, id: EntityId) { id in rows && rows[id].body.OfOperation? }

  ghost predicate IsSettled(rows: Rows, id: EntityId) {
    IsOperation(rows, id) && Terminal(rows[id].body.operation.state)
  }

  ghost predicate TerminalDated(rows: Rows, id: EntityId) {
    IsOperation(rows, id) ==> (rows[id].body.operation.terminalAt.Some? <==> IsSettled(rows, id))
  }

  /** Completed, or completed once and stale since. */
  ghost predicate WasCompleted(rows: Rows, id: EntityId) {
    id in rows && rows[id].body.OfEvaluation?
    && (rows[id].body.evaluation.state.EvalCompleted? || rows[id].body.evaluation.state.EvalStale?)
  }

  /** The operation of an evaluation that was completed has succeeded. */
  ghost predicate Concluded(rows: Rows, id: EntityId)
    requires WasCompleted(rows, id)
  {
    var operation := rows[id].body.evaluation.operation;
    operation.Some? && IsOperation(rows, operation.value) && rows[operation.value].body.operation.state.Succeeded?
  }

  /** Its only result is that evaluation. */
  ghost predicate Yielded(rows: Rows, id: EntityId)
    requires WasCompleted(rows, id)
  {
    Concluded(rows, id) && rows[rows[id].body.evaluation.operation.value].body.operation.results == [id]
  }

  /** Two completed evaluations of one operation. */
  ghost predicate Shared(rows: Rows, a: EntityId, b: EntityId) {
    a != b && WasCompleted(rows, a) && WasCompleted(rows, b)
    && rows[a].body.evaluation.operation == rows[b].body.evaluation.operation
  }

  /** Operations are dated when they settle, and evaluations complete with an operation of their own. */
  ghost predicate Orderly(rows: Rows) {
    && (forall id :: TerminalDated(rows, id))
    && (forall id :: WasCompleted(rows, id) ==> Concluded(rows, id))
    && (forall a, b :: !Shared(rows, a, b))
  }

  ghost predicate AllYielded(rows: Rows) { forall id :: WasCompleted(rows, id) ==> Yielded(rows, id) }

  // ---------- one commit ----------

  /** A settled operation keeps everything but its last activity. */
  ghost predicate SameSettlement(a: Operation, b: Operation) { b == a.(lastActivityAt := b.lastActivityAt) }

  lemma SettledStays(before: Rows, after: Rows, licence: Licence, id: EntityId)
    requires Evolved(before, after, licence) && IsSettled(before, id)
    ensures IsSettled(after, id) && SameSettlement(before[id].body.operation, after[id].body.operation)
  {
    assert RowChange(before, after, id, licence);
  }

  lemma DatedStep(before: Rows, after: Rows, licence: Licence, id: EntityId)
    requires Evolved(before, after, licence) && TerminalDated(before, id)
    ensures TerminalDated(after, id)
  {
    if id in after {
      assert RowChange(before, after, id, licence);
    }
  }

  /**
   An evaluation becomes completed only in a commit of its own kind, which also settles its
   operation. It is the result of that operation exactly when the commit names it so.
   */
  lemma CompletingStep(s: Submission, before: Rows, after: Rows, id: EntityId)
    requires Stepped(s, before, after) && WasCompleted(after, id) && !WasCompleted(before, id)
    ensures Completion(s, before, after, id)
    ensures Yielded(after, id) <==> ResultNamed(s.request.mutations)
  {
    StepEvolves(s, before, after);
    OnlyCompletionCompletes(before, after, s.licence, id);
    var k := WriteOf(s, before, after, id);
    WrittenRows(s, before, after);
    CompletedFirst(s.request.mutations, after, k, id);
    RunningUntilThen(s, before, after, s.request.mutations[1]);
  }

  lemma RunningUntilThen(s: Submission, before: Rows, after: Rows, m: Mutation)
    requires Stepped(s, before, after) && m in s.request.mutations && m.Update?
    requires MayComplete(s.licence) && m.entity.body.OfOperation?
    ensures IsOperation(before, m.entity.id) && !IsSettled(before, m.entity.id)
  {
    UpdatesRow(s, before, after, m);
    RunningBefore(s, before, after, m);
  }

  lemma RunningBefore(s: Submission, before: Rows, after: Rows, m: Mutation)
    requires UpdatedRow(s, before, after, m) && MayComplete(s.licence) && m.entity.body.OfOperation?
    ensures IsOperation(before, m.entity.id) && !IsSettled(before, m.entity.id)
  {
  }

  /** The commit completes the evaluation `id`, whose operation was running until then. */
  ghost predicate Completion(s: Submission, before: Rows, after: Rows, id: EntityId) {
    && MayComplete(s.licence) && CompletionShape(s.request.mutations)
    && WasCompleted(after, id) && s.request.mutations[0].entity == after[id] && after[id].id == id
    && Concluded(after, id)
    && (var o := after[id].body.evaluation.operation.value; o in before && !IsSettled(before, o))
  }

  lemma OnlyCompletionCompletes(before: Rows, after: Rows, licence: Licence, id: EntityId)
    requires Evolved(before, after, licence) && WasCompleted(after, id) && !WasCompleted(before, id)
    ensures MayComplete(licence)
  {
    assert RowChange(before, after, id, licence);
  }

  lemma WrittenRows(s: Submission, before: Rows, after: Rows)
    requires Stepped(s, before, after) && MayComplete(s.licence)
    ensures CompletionShape(s.request.mutations)
    ensures forall m :: m in s.request.mutations ==> m.entity.id in after && after[m.entity.id] == m.entity
  {
  }

  lemma CompletedFirst(ms: seq<Mutation>, after: Rows, k: nat, id: EntityId)
    requires CompletionShape(ms) && (forall m :: m in ms ==> m.entity.id in after && after[m.entity.id] == m.entity)
    requires k < 4 && ms[k].entity.id == id && WasCompleted(after, id)
    ensures k == 0 && Concluded(after, id) && after[id].body.evaluation.operation == Some(ms[1].entity.id)
    ensures after[ms[1].entity.id] == ms[1].entity && ms[1] in ms
  {
    assert ms[k] in ms && ms[0] in ms && ms[1] in ms;
    assert k == 0;
  }

  /** What was completed stays so, with the operation that settled with it, right or wrong. */
  lemma CompletedStays(before: Rows, after: Rows, licence: Licence, id: EntityId)
    requires Evolved(before, after, licence) && WasCompleted(before, id) && Concluded(before, id)
    ensures WasCompleted(after, id) && Concluded(after, id)
    ensures after[id].body.evaluation.operation == before[id].body.evaluation.operation
    ensures Yielded(after, id) <==> Yielded(before, id)
  {
    assert RowChange(before, after, id, licence);
    SettledStays(before, after, licence, before[id].body.evaluation.operation.value);
  }

  /** The operation of an evaluation that completes was running, so that it is not the one of an earlier evaluation. */
  lemma NotShared(s: Submission, before: Rows, after: Rows, a: EntityId, b: EntityId)
    requires Stepped(s, before, after) && Orderly(before) && a != b
    requires WasCompleted(after, a) && WasCompleted(after, b) && !WasCompleted(before, b)
    ensures !Shared(after, a, b)
  {
    CompletingStep(s, before, after, b);
    if WasCompleted(before, a) {
      assert Concluded(before, a);
      StepEvolves(s, before, after);
      CompletedStays(before, after, s.licence, a);
    } else {
      CompletingStep(s, before, after, a);
    }
  }

  lemma StillNotShared(s: Submission, before: Rows, after: Rows, a: EntityId, b: EntityId)
    requires Stepped(s, before, after) && Orderly(before)
    ensures !Shared(after, a, b)
  {
    if WasCompleted(before, a) && WasCompleted(before, b) {
      StepEvolves(s, before, after);
      assert Concluded(before, a) && Concluded(before, b) && !Shared(before, a, b);
      CompletedStays(before, after, s.licence, a);
      CompletedStays(before, after, s.licence, b);
    } else if Shared(after, a, b) {
      if WasCompleted(before, b) {
        NotShared(s, before, after, b, a);
      } else {
        NotShared(s, before, after, a, b);
      }
    }
  }

  lemma OrderlyStep(s: Submission, before: Rows, after: Rows)
    requires Stepped(s, before, after) && Orderly(before)
    ensures Orderly(after)
  {
    StepEvolves(s, before, after);
    forall id
      ensures TerminalDated(after, id)
      ensures WasCompleted(after, id) ==> Concluded(after, id)
    {
      DatedStep(before, after, s.licence, id);
      if WasCompleted(after, id) {
        if WasCompleted(before, id) {
          CompletedStays(before, after, s.licence, id);
        } else {
          CompletingStep(s, before, after, id);
        }
      }
    }
    forall a, b
      ensures !Shared(after, a, b)
    {
      StillNotShared(s, before, after, a, b);
    }
  }

  /** A commit keeps every evaluation the result of its operation exactly when it names its own so. */
  lemma YieldingStep(s: Submission, before: Rows, after: Rows)
    requires Stepped(s, before, after) && Orderly(before)
    ensures AllYielded(after) <==> AllYielded(before) && Names(s)
  {
    StepEvolves(s, before, after);
    forall id | WasCompleted(after, id)
      ensures Yielded(after, id) <==> if WasCompleted(before, id) then Yielded(before, id) else Names(s)
    {
      if WasCompleted(before, id) {
        CompletedStays(before, after, s.licence, id);
      } else {
        CompletingStep(s, before, after, id);
      }
    }
    forall id | WasCompleted(before, id)
      ensures WasCompleted(after, id)
    {
      CompletedStays(before, after, s.licence, id);
    }
    if MayComplete(s.licence) {
      CompletionCompletes(s, before, after);
    }
  }

  /** A completion names the evaluation it completes as the result. */
  ghost predicate Names(s: Submission) { MayComplete(s.licence) ==> ResultNamed(s.request.mutations) }

  lemma CompletionCompletes(s: Submission, before: Rows, after: Rows)
    requires Stepped(s, before, after) && MayComplete(s.licence)
    ensures |s.request.mutations| == 4
    ensures var id := s.request.mutations[0].entity.id; WasCompleted(after, id) && !WasCompleted(before, id)
  {
    WrittenRows(s, before, after);
    PendingUntilThen(s, before, after, s.request.mutations[0]);
  }

  lemma PendingUntilThen(s: Submission, before: Rows, after: Rows, m: Mutation)
    requires Stepped(s, before, after) && m in s.request.mutations && m.Update?
    requires MayComplete(s.licence) && m.entity.body.OfEvaluation?
    ensures WasCompleted(after, m.entity.id) && !WasCompleted(before, m.entity.id)
  {
    UpdatesRow(s, before, after, m);
    PendingBefore(s, before, after, m);
  }

  lemma PendingBefore(s: Submission, before: Rows, after: Rows, m: Mutation)
    requires UpdatedRow(s, before, after, m) && MayComplete(s.licence) && m.entity.body.OfEvaluation?
    ensures WasCompleted(after, m.entity.id) && !WasCompleted(before, m.entity.id)
  {
  }

  // ---------- runs ----------

  lemma OrderlyAt(run: Run, i: nat)
    requires ValidRun(run) && i < |run.submissions| && Orderly(run.states[i].rows)
    ensures Orderly(run.states[i + 1].rows)
  {
    StepOfRun(run, i);
    if Commits(run.states[i], run.submissions[i]) {
      OrderlyStep(run.submissions[i], run.states[i].rows, run.states[i + 1].rows);
    }
  }

  /**
   In every reachable state `terminalAt` is set exactly on settled operations, and
   evaluations that are completed, or were and are now stale, belong to succeeded
   operations, each to one of its own.
   */
  lemma {:induction false} EvaluationsConclude(run: Run, i: nat)
    requires ValidRun(run) && i < |run.states|
    ensures Orderly(run.states[i].rows)
  {
    if i == 0 {
      NothingYet(run.states[0]);
    } else {
      EvaluationsConclude(run, i - 1);
      OrderlyAt(run, i - 1);
    }
  }

  lemma NothingYet(db: Db)
    requires db == EMPTY
    ensures Orderly(db.rows) && AllYielded(db.rows)
  {
  }

  /** If it commits, it names the evaluation it completes, if any, as the result. */
  ghost predicate NamedAt(run: Run, i: nat)
    requires i < |run.submissions| < |run.states|
  {
    Commits(run.states[i], run.submissions[i]) ==> Names(run.submissions[i])
  }

  ghost predicate AllNamed(run: Run, n: nat)
    requires n <= |run.submissions| < |run.states|
  {
    forall j :: 0 <= j < n ==> NamedAt(run, j)
  }

  lemma AllNamedNext(run: Run, n: nat)
    requires n < |run.submissions| < |run.states|
    ensures AllNamed(run, n + 1) <==> AllNamed(run, n) && NamedAt(run, n)
  {
  }

  lemma YieldingAt(run: Run, i: nat)
    requires ValidRun(run) && i < |run.submissions|
    ensures AllYielded(run.states[i + 1].rows) <==> AllYielded(run.states[i].rows) && NamedAt(run, i)
  {
    EvaluationsConclude(run, i);
    StepOfRun(run, i);
    if Commits(run.states[i], run.submissions[i]) {
      YieldingStep(run.submissions[i], run.states[i].rows, run.states[i + 1].rows);
    }
  }

  /**
   In a reachable state every evaluation that was completed is the one result of its operation
   exactly if every commit before has named the evaluation it completed: a wrong result is
   never put right. Every completion does so but those under a replayed admission.
   */
  lemma {:induction false} EvaluationsYieldedOnce(run: Run, i: nat)
    requires ValidRun(run) && i < |run.states|
    ensures AllYielded(run.states[i].rows) <==> AllNamed(run, i)
  {
    if i == 0 {
      NothingYet(run.states[0]);
    } else {
      EvaluationsYieldedOnce(run, i - 1);
      AllNamedNext(run, i - 1);
      YieldingAt(run, i - 1);
    }
  }

  /** No operation yields two completed evaluations. */
  lemma OneEvaluationPerOperation(run: Run, i: nat, a: EntityId, b: EntityId)
    requires ValidRun(run) && i < |run.states|
    requires WasCompleted(run.states[i].rows, a) && WasCompleted(run.states[i].rows, b)
    requires run.states[i].rows[a].body.evaluation.operation == run.states[i].rows[b].body.evaluation.operation
    ensures a == b
  {
    EvaluationsConclude(run, i);
    assert !Shared(run.states[i].rows, a, b);
  }

  lemma SettledAt(run: Run, i: nat, id: EntityId)
    requires ValidRun(run) && i < |run.submissions| && IsSettled(run.states[i].rows, id)
    ensures IsSettled(run.states[i + 1].rows, id)
    ensures SameSettlement(run.states[i].rows[id].body.operation, run.states[i + 1].rows[id].body.operation)
  {
    RowsChangeLawfully(run, i);
    if run.states[i + 1] != run.states[i] {
      SettledStays(run.states[i].rows, run.states[i + 1].rows, run.submissions[i].licence, id);
    }
  }

  /** Settled states are absorbing: nothing that comes later changes the state, the time or the results. */
  lemma {:induction false} SettledForGood(run: Run, i: nat, j: nat, id: EntityId)
    requires ValidRun(run) && i <= j < |run.states| && IsSettled(run.states[i].rows, id)
    ensures IsSettled(run.states[j].rows, id)
    ensures SameSettlement(run.states[i].rows[id].body.operation, run.states[j].rows[id].body.operation)
    decreases j
  {
    if i < j {
      SettledForGood(run, i, j - 1, id);
      SettledAt(run, j - 1, id);
    }
  }

  /**
   The running evaluation and the running operation that a completion starts from are in
   the store as it read them.
   */
  ghost predicate StillAdmitted(s: Submission, before: Rows) {
    |s.request.mutations| == 4
    && (var v, o := s.request.mutations[0].entity.id, s.request.mutations[1].entity.id;
        && v in before && v in s.view && before[v] == s.view[v]
        && before[v].body.OfEvaluation? && before[v].body.evaluation.state.EvalRunning?
          && before[v].body.evaluation.operation == Some(o)
        && o in before && o in s.view && before[o] == s.view[o] && IsOperation(before, o)
          && before[o].body.operation.state.Running?)
  }

  /**
   Whatever happened between the two commits of an evaluation, the second one goes
   through only if its operation is still running and its evaluation still pending
   exactly as they were admitted; otherwise it changes nothing.
   */
  lemma CompletionFindsItsOperationRunning(run: Run, i: nat)
    requires ValidRun(run) && i < |run.submissions| && MayComplete(run.submissions[i].licence)
    ensures if Commits(run.states[i], run.submissions[i]) then StillAdmitted(run.submissions[i], run.states[i].rows)
            else run.states[i + 1] == run.states[i]
  {
    StepOfRun(run, i);
    if Commits(run.states[i], run.submissions[i]) {
      CompletionStep(run.submissions[i], run.states[i].rows, run.states[i + 1].rows);
    }
  }

  lemma CompletionStep(s: Submission, before: Rows, after: Rows)
    requires Stepped(s, before, after) && MayComplete(s.licence)
    ensures StillAdmitted(s, before)
  {
    WrittenRows(s, before, after);
    var ms := s.request.mutations;
    assert ms[0] in ms && ms[1] in ms;
    UpdatesRow(s, before, after, ms[0]);
    UpdatesRow(s, before, after, ms[1]);
    UpdatedAsAdmitted(s, before, after);
  }

  lemma UpdatedAsAdmitted(s: Submission, before: Rows, after: Rows)
    requires CompletionShape(s.request.mutations) && MayComplete(s.licence)
    requires UpdatedRow(s, before, after, s.request.mutations[0])
             && UpdatedRow(s, before, after, s.request.mutations[1])
    ensures StillAdmitted(s, before)
  {
  }

  // ---------- restart reconciliation ----------

  ghost predicate NoneLive(rows: Rows) { forall id :: !Recoverable(rows, id) }

  function RecoveredBy(rows: Rows, id: EntityId, now: Timestamp): Mutation
    requires id in rows
  {
    var e := Updated(rows[id], Recovered(rows[id], now));
    Update(e, Before(e))
  }

  lemma RecoveryMutations(rows: Rows, ids: seq<EntityId>, now: Timestamp)
    requires forall id :: id in ids ==> id in rows && Recoverable(rows, id)
    requires forall id :: Recoverable(rows, id) ==> id in ids
    ensures
      var ms := Updates(Revised(rows, ids, (e: Entity) => Recovered(e, now)));
      && (forall id :: Recoverable(rows, id) ==> RecoveredBy(rows, id, now) in ms)
      && (forall m :: m in ms ==> exists id :: Recoverable(rows, id) && m == RecoveredBy(rows, id, now))
  {
    var ms := Updates(Revised(rows, ids, (e: Entity) => Recovered(e, now)));
    assert forall i :: 0 <= i < |ids| ==> ids[i] in ids && ms[i] == RecoveredBy(rows, ids[i], now);
    forall id | Recoverable(rows, id)
      ensures RecoveredBy(rows, id, now) in ms
    {
      var i :| 0 <= i < |ids| && ids[i] == id;
      assert ms[i] == RecoveredBy(rows, id, now);
    }
    forall m | m in ms
      ensures exists id :: Recoverable(rows, id) && m == RecoveredBy(rows, id, now)
    {
      var i :| 0 <= i < |ms| && ms[i] == m;
      assert Recoverable(rows, ids[i]) && m == RecoveredBy(rows, ids[i], now);
    }
  }

  /** Reconciliation updates exactly the live operations of the rows it reads. */
  lemma ReconcilePlan(rows: Rows, ctx: Context, now: Timestamp)
    requires ctx.actor.System?
    ensures PlanReconcile(rows, ctx, now).Ok?
    ensures
      var request := PlanReconcile(rows, ctx, now).value;
      && |request.events| == |request.mutations|
      && (forall id :: Recoverable(rows, id) ==> RecoveredBy(rows, id, now) in request.mutations)
      && (forall m :: m in request.mutations ==> exists id :: Recoverable(rows, id) && m == RecoveredBy(rows, id, now))
  {
    RecoveryMutations(rows, Select(ListIds(rows, OperationTable), (id: EntityId) => Recoverable(rows, id)), now);
  }

  lemma NothingToRecover(rows: Rows, ctx: Context, now: Timestamp)
    requires ctx.actor.System?
    ensures PlanReconcile(rows, ctx, now).Ok?
    ensures PlanReconcile(rows, ctx, now).value.mutations == [] <==> NoneLive(rows)
    ensures NoneLive(rows) ==> PlanReconcile(rows, ctx, now) == Ok(Request([], []))
  {
    ReconcilePlan(rows, ctx, now);
    var request := PlanReconcile(rows, ctx, now).value;
    if request.mutations != [] {
      assert request.mutations[0] in request.mutations;
    }
  }

  /** The rows after reconciliation: every live operation is indeterminate, everything else is as it was. */
  ghost predicate Reconciled(before: Rows, after: Rows, now: Timestamp) {
    && after.Keys == before.Keys
    && forall id :: id in before ==>
         if Recoverable(before, id) then after[id] == Updated(before[id], Recovered(before[id], now))
           else after[id] == before[id]
  }

  /**
   After a restart one reconciliation commit settles every live operation as
   indeterminate and changes nothing else; a second reconciliation has nothing to do.
   */
  lemma ReconciliationIsComplete(db: Db, ctx: Context, now: Timestamp, later: Timestamp, key: nat, command: nat)
    requires Keyed(db.rows) && ctx.actor.System? && key !in db.receipts
    ensures
      var request := PlanReconcile(db.rows, ctx, now).value;
      var after := Transact(db, key, command, request).0;
      && Reconciled(db.rows, after.rows, now)
      && NoneLive(after.rows)
      && PlanReconcile(after.rows, ctx, later) == Ok(Request([], []))
  {
    var request := PlanReconcile(db.rows, ctx, now).value;
    NothingToRecover(db.rows, ctx, now);
    if NoneLive(db.rows) {
      NothingToRecover(db.rows, ctx, later);
    } else {
      RecoveryCommits(db, ctx, now, key, command);
      NothingToRecover(Transact(db, key, command, request).0.rows, ctx, later);
    }
  }

  lemma RecoveryCommits(db: Db, ctx: Context, now: Timestamp, key: nat, command: nat)
    requires Keyed(db.rows) && ctx.actor.System? && key !in db.receipts && !NoneLive(db.rows)
    ensures
      var request := PlanReconcile(db.rows, ctx, now).value;
      var after := Transact(db, key, command, request).0;
      Reconciled(db.rows, after.rows, now) && NoneLive(after.rows)
  {
    var request := PlanReconcile(db.rows, ctx, now).value;
    ReconcilePlan(db.rows, ctx, now);
    RecoveryWellFormed(db.rows, ctx, now);
    RecoveryApplicable(db.rows, request, now);
    CurrentRequestCommits(db, key, command, request);
    EffectOfRecovery(db.rows, request.mutations, Transact(db, key, command, request).0.rows, now);
  }

  lemma RecoveryWellFormed(rows: Rows, ctx: Context, now: Timestamp)
    requires Keyed(rows) && ctx.actor.System? && !NoneLive(rows)
    ensures WellFormed(rows, PlanReconcile(rows, ctx, now).value)
  {
    NothingToRecover(rows, ctx, now);
    assert SoundRequest(rows, PlanReconcile(rows, ctx, now).value, Operating);
  }

  lemma EffectOfRecovery(before: Rows, ms: seq<Mutation>, after: Rows, now: Timestamp)
    requires Keyed(before) && Effect(before, ms, before, after)
    requires forall id :: Recoverable(before, id) ==> RecoveredBy(before, id, now) in ms
    requires forall m :: m in ms ==> exists id :: Recoverable(before, id) && m == RecoveredBy(before, id, now)
    ensures Reconciled(before, after, now) && NoneLive(after)
  {
    assert Touched(ms) <= before.Keys;
    forall id | id in before
      ensures id in after
      ensures if Recoverable(before, id) then after[id] == Updated(before[id], Recovered(before[id], now))
              else after[id] == before[id]
    {
      if Recoverable(before, id) {
        assert RecoveredBy(before, id, now) in ms;
      } else {
        assert id !in Touched(ms);
      }
    }
  }

  /** What reconciliation submits can be applied to the rows it was planned on. */
  lemma RecoveryApplicable(rows: Rows, request: Request, now: Timestamp)
    requires WellFormed(rows, request)
    requires forall m :: m in request.mutations ==>
               exists id :: Recoverable(rows, id) && m == RecoveredBy(rows, id, now)
    ensures Applicable(rows, request.mutations)
  {
    var ms := request.mutations;
    forall j | 0 <= j < |ms|
      ensures ms[j].Update?
    {
      assert ms[j] in ms;
    }
  }
}
