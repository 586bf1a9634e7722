/**
 Evaluations continued from a replayed admission. A second call with the same key and
 input gets the records that the first one has admitted, and completes them; but it
 names the identities that it has drawn itself, in its events and as the result.
 */
module Replays {
  import opened Domain
  import opened Store
  import opened Listing
  import opened Lifecycle
  import opened Runs
  import opened OperationCommands
  import opened Settlement
  import opened Workbench

  /** The identity that a call draws for its evaluation is in the store only by the call's own commit. */
  ghost predicate DrawsFresh(work: Work)
    requires |work.calls| == |work.run.submissions| < |work.run.states|
  {
    forall k, j :: 0 <= k < |work.calls| && 0 <= j < |work.run.states| && DrawnIn(work, k, j) ==>
        k < j && Commits(work.run.states[k], work.run.submissions[k])
  }

  ghost predicate DrawnIn(work: Work, k: nat, j: nat)
    requires k < |work.calls| && j < |work.run.states|
  {
    var c := work.calls[k].command;
    c.AdmitEvaluation? && c.newId in work.run.states[j].rows
  }

  /** The call goes on from a replayed commit. */
  ghost predicate OnReplay(work: Work, i: nat)
    requires i < |work.calls| == |work.run.submissions| < |work.run.states| && Continues(work.calls[i].command)
  {
    exists k :: 0 <= k < i && Admits(work, k, work.calls[i].command.admission) && ReplyAt(work.run, k).Replayed?
  }

  lemma AdmittedIsThere(plan: Planner, work: Work, j: nat)
    requires SoundPlanner(plan) && PlansOperations(plan) && ValidWork(plan, work) && j < |work.calls|
    requires work.calls[j].command.AdmitEvaluation? && Commits(work.run.states[j], work.run.submissions[j])
    ensures work.calls[j].command.newId in work.run.states[j + 1].rows
  {
    WorkIsValid(plan, work);
    StepOfRun(work.run, j);
    AdmissionWritten(plan, work, j);
    var ms := work.run.submissions[j].request.mutations;
    assert Written(ms)[1] == ms[1].entity && ms[1] in ms;
  }

  /**
   A call goes on with records of its own exactly if its admitting commit was not a replay:
   the identity it drew is then not that of the evaluation it goes on with.
   */
  lemma NativeUnlessReplayed(plan: Planner, work: Work, i: nat)
    requires SoundPlanner(plan) && PlansOperations(plan) && ValidWork(plan, work) && DrawsFresh(work)
    requires i < |work.calls| && Continues(work.calls[i].command)
    ensures var a := work.calls[i].command.admission;
      if OnReplay(work, i) then a.ownEvaluation != a.evaluation.id else Native(a)
  {
    assert ContinuationOk(work, i);
    var a := work.calls[i].command.admission;
    if OnReplay(work, i) {
      var k :| 0 <= k < i && Admits(work, k, a) && ReplyAt(work.run, k).Replayed?;
      ForeignEvaluation(plan, work, k, a);
    } else {
      var k :| 0 <= k < i && Admits(work, k, a);
    }
  }

  lemma ForeignEvaluation(plan: Planner, work: Work, k: nat, a: Admission)
    requires SoundPlanner(plan) && PlansOperations(plan) && ValidWork(plan, work) && DrawsFresh(work)
    requires k < |work.calls| && Admits(work, k, a) && ReplyAt(work.run, k).Replayed?
    ensures a.ownEvaluation == work.calls[k].command.newId != a.evaluation.id
  {
    var j := ReplayedAdmission(plan, work, k, a);
    AdmittedIsThere(plan, work, j);
    assert a.evaluation.id == work.calls[j].command.newId;
    assert !DrawnIn(work, k, j + 1);
  }

  // ---------- one completion ----------

  lemma {:induction false} ReportedOnce(log: seq<Event>, e: Event)
    requires e in log
    ensures Reported(log, e.aggregate) != []
  {
    var n := |log| - 1;
    if log[n] != e {
      assert log == log[..n] + [log[n]];
      ReportedOnce(log[..n], e);
    }
  }

  /** The log does not account for an event of an identity that has no record. */
  lemma UnknownIsUnaccounted(rows: Rows, log: seq<Event>, e: Event)
    requires e in log && e.aggregate !in rows
    ensures !Accounted(rows, log)
  {
    ReportedOnce(log, e);
    assert !Counts(Reported(log, e.aggregate), RevisionOf(rows, e.aggregate));
  }

  /** The identities of the call are those of the admission, or not in the store. */
  ghost predicate Drawn(rows: Rows, a: Admission) {
    && (a.ownOperation == a.operation.id || a.ownOperation !in rows)
    && (a.ownEvaluation == a.evaluation.id || a.ownEvaluation !in rows)
  }

  lemma CompletionSubmission(rows: Rows, actor: Actor, a: Admission, result: Scored, evidence: seq<EntityId>,
                             now: Timestamp)
    requires Keyed(rows) && ProperAdmission(a) && AdmissionRead(rows, a)
    ensures var request := CompletionRequest(actor, a, result, evidence, now);
      SoundRequest(rows, request, CompletionLicence(a)) && Applicable(rows, request.mutations)
  {
    CompletionSound(rows, actor, a, result, evidence, now);
    UpdatesApply(rows, CompletionRequest(actor, a, result, evidence, now));
  }

  lemma UpdatesApply(rows: Rows, request: Request)
    requires Submittable(rows, request) && forall i :: 0 <= i < |request.mutations| ==> request.mutations[i].Update?
    ensures Applicable(rows, request.mutations)
  {
  }

  lemma CompletionStepped(db: Db, key: nat, digest: nat, request: Request, licence: Licence)
    requires Keyed(db.rows) && key !in db.receipts
    requires SoundRequest(db.rows, request, licence) && Applicable(db.rows, request.mutations)
    ensures var (after, reply) := Transact(db, key, digest, request);
      && reply == Committed && after.log == db.log + request.events
      && Stepped(Submission(db.rows, request, licence, key, digest), db.rows, after.rows)
  {
    CurrentRequestCommits(db, key, digest, request);
    CommitEffect(db.rows, db, key, digest, request);
    CommitKeyed(db.rows, db, key, digest, request);
  }

  /** What the events of a completion name. */
  lemma EventsName(actor: Actor, a: Admission, result: Scored, evidence: seq<EntityId>, now: Timestamp)
    requires ProperAdmission(a)
    ensures var request := CompletionRequest(actor, a, result, evidence, now);
      && |request.events| == 4 && request.events[0].aggregate == a.ownEvaluation
      && request.events[1].aggregate == a.ownOperation
      && forall i :: 0 <= i < |request.mutations| ==> request.mutations[i].Update?
  {
  }

  /**
   An undisturbed completion commits, whatever identities its call has drawn. The log accounts
   for it exactly if they are those of the admission, and the evaluation it completes is the
   result of the operation exactly if its own identity is that evaluation's.
   */
  lemma CompletionRecordsExactly(db: Db, key: nat, digest: nat, actor: Actor, a: Admission, result: Scored,
                                 evidence: seq<EntityId>, now: Timestamp)
    requires Keyed(db.rows) && ProperAdmission(a) && AdmissionRead(db.rows, a) && Drawn(db.rows, a)
    requires key !in db.receipts && Orderly(db.rows) && AllYielded(db.rows) && Accounted(db.rows, db.log)
    ensures var (after, reply) := Transact(db, key, digest, CompletionRequest(actor, a, result, evidence, now));
      && reply == Committed
      && (AllYielded(after.rows) <==> a.ownEvaluation == a.evaluation.id)
      && (Accounted(after.rows, after.log) <==> Native(a))
  {
    CompletionSubmission(db.rows, actor, a, result, evidence, now);
    RequestNames(actor, a, result, evidence, now);
    EventsName(actor, a, result, evidence, now);
    UpdatesRecord(db, key, digest, CompletionRequest(actor, a, result, evidence, now), a);
  }

  lemma UpdatesRecord(db: Db, key: nat, digest: nat, request: Request, a: Admission)
    requires Keyed(db.rows) && Drawn(db.rows, a) && key !in db.receipts
    requires Orderly(db.rows) && AllYielded(db.rows) && Accounted(db.rows, db.log)
    requires SoundRequest(db.rows, request, CompletionLicence(a)) && Applicable(db.rows, request.mutations)
    requires forall i :: 0 <= i < |request.mutations| ==> request.mutations[i].Update?
    requires |request.events| == 4 && request.events[0].aggregate == a.ownEvaluation
             && request.events[1].aggregate == a.ownOperation
    ensures var (after, reply) := Transact(db, key, digest, request);
      && reply == Committed
      && (AllYielded(after.rows) <==> ResultNamed(request.mutations))
      && (Accounted(after.rows, after.log) <==> Native(a))
  {
    CompletionStepped(db, key, digest, request, CompletionLicence(a));
    var after := Transact(db, key, digest, request).0;
    YieldingStep(Submission(db.rows, request, CompletionLicence(a), key, digest), db.rows, after.rows);
    NoNewRows(db.rows, request.mutations, after.rows);
    AccountedIfNative(db, key, digest, request, a);
  }

  lemma AccountedIfNative(db: Db, key: nat, digest: nat, request: Request, a: Admission)
    requires SoundRequest(db.rows, request, CompletionLicence(a)) && Drawn(db.rows, a) && Accounted(db.rows, db.log)
    requires |request.events| == 4 && request.events[0].aggregate == a.ownEvaluation
             && request.events[1].aggregate == a.ownOperation
    requires var after := Transact(db, key, digest, request).0;
             after.log == db.log + request.events && after.rows.Keys == db.rows.Keys
    ensures var after := Transact(db, key, digest, request).0; Accounted(after.rows, after.log) <==> Native(a)
  {
    if Native(a) {
      CommitAccounted(db.rows, db, key, digest, request);
    } else {
      ForeignEvents(Transact(db, key, digest, request).0.rows, db.log, request.events, a);
    }
  }

  lemma ForeignEvents(rows: Rows, log: seq<Event>, events: seq<Event>, a: Admission)
    requires Drawn(rows, a) && !Native(a) && |events| == 4
    requires events[0].aggregate == a.ownEvaluation && events[1].aggregate == a.ownOperation
    ensures !Accounted(rows, log + events)
  {
    var e := if a.ownEvaluation != a.evaluation.id then events[0] else events[1];
    assert e in log + events;
    UnknownIsUnaccounted(rows, log + events, e);
  }

  lemma NoNewRows(before: Rows, ms: seq<Mutation>, after: Rows)
    requires Effect(before, ms, before, after) && forall i :: 0 <= i < |ms| ==> ms[i].Update?
    ensures after.Keys == before.Keys
  {
    assert Touched(ms) <= before.Keys;
  }

  // ---------- what a completion under a replayed admission records ----------

  /** A completion that commits although its admission was a replay. */
  ghost predicate ReplayCompletes(work: Work, i: nat)
    requires i < |work.calls| == |work.run.submissions| < |work.run.states|
  {
    && work.calls[i].command.CompleteEvaluation? && Commits(work.run.states[i], work.run.submissions[i])
    && OnReplay(work, i)
  }

  ghost predicate NoReplayCompletes(work: Work, n: nat)
    requires n <= |work.calls| == |work.run.submissions| < |work.run.states|
  {
    forall i :: 0 <= i < n ==> !ReplayCompletes(work, i)
  }

  /** What the call of a completion has submitted. */
  lemma CompletionSubmitted(plan: Planner, rows: Rows, call: Call) returns (result: Scored, evidence: seq<EntityId>)
    requires PlansCompletions(plan) && call.command.CompleteEvaluation? && plan(rows, call).Ok?
    ensures ProperAdmission(call.command.admission)
    ensures plan(rows, call)
         == Ok(CompletionRequest(call.ctx.actor, call.command.admission, result, evidence, call.now))
  {
    assert plan(rows, call) == CompletionPlan(rows, call);
    result, evidence := PlannedCompletion(rows, call);
  }

  lemma PlannedCompletion(rows: Rows, call: Call) returns (result: Scored, evidence: seq<EntityId>)
    requires call.command.CompleteEvaluation? && CompletionPlan(rows, call).Ok?
    ensures ProperAdmission(call.command.admission)
    ensures CompletionPlan(rows, call)
         == Ok(CompletionRequest(call.ctx.actor, call.command.admission, result, evidence, call.now))
  {
    result, evidence := call.command.scored.value, SortedIds(call.command.evidence);
  }

  lemma RequestNames(actor: Actor, a: Admission, result: Scored, evidence: seq<EntityId>, now: Timestamp)
    requires ProperAdmission(a)
    ensures ResultNamed(CompletionRequest(actor, a, result, evidence, now).mutations)
       <==> a.ownEvaluation == a.evaluation.id
    ensures CompletionRequest(actor, a, result, evidence, now).events[0].aggregate == a.ownEvaluation
    ensures |CompletionRequest(actor, a, result, evidence, now).events| > 0
  {
    var ms := CompletionRequest(actor, a, result, evidence, now).mutations;
    assert ms[1].entity.body.operation.results == [a.ownEvaluation] && [a.ownEvaluation][0] == a.ownEvaluation;
  }

  ghost predicate CommandPlanner(plan: Planner) {
    SoundPlanner(plan) && PlansOperations(plan) && PlansCompletions(plan)
  }

  /**
   A commit names the evaluation that it completes as the result, and in its events, exactly
   if it is no such completion.
   */
  lemma NamedUnlessReplayed(plan: Planner, work: Work, i: nat)
    requires CommandPlanner(plan) && ValidWork(plan, work) && DrawsFresh(work) && i < |work.calls|
    ensures NamedAt(work.run, i) <==> !ReplayCompletes(work, i)
    ensures !ReplayCompletes(work, i) ==> TruthfulAt(work.run, i)
  {
    WorkIsValid(plan, work);
    if Commits(work.run.states[i], work.run.submissions[i]) {
      assert Issued(plan, work, i);
      SoundCommit(work.run, i);
      if work.calls[i].command.CompleteEvaluation? {
        CompletionNames(plan, work, i);
      }
    }
  }

  lemma SoundCommit(run: Run, i: nat)
    requires ValidRun(run) && i < |run.submissions| && Commits(run.states[i], run.submissions[i])
    ensures var s := run.submissions[i]; s.licence.Replaying? || Truthful(s.request)
  {
    StepOfRun(run, i);
  }

  lemma CompletionNames(plan: Planner, work: Work, i: nat)
    requires CommandPlanner(plan) && ValidWork(plan, work) && DrawsFresh(work) && i < |work.calls|
    requires work.calls[i].command.CompleteEvaluation? && Commits(work.run.states[i], work.run.submissions[i])
    ensures var s := work.run.submissions[i];
      && MayComplete(s.licence) && (ResultNamed(s.request.mutations) <==> !OnReplay(work, i))
      && (s.licence.Replaying? <==> OnReplay(work, i))
  {
    var call, s := work.calls[i], work.run.submissions[i];
    assert Issued(plan, work, i);
    OnlyPlansCommit(work.run.states[i], s, plan(s.view, call));
    var result, evidence := CompletionSubmitted(plan, s.view, call);
    RequestNames(call.ctx.actor, call.command.admission, result, evidence, call.now);
    NativeUnlessReplayed(plan, work, i);
  }

  /** The identity that such a completion names in its first event is in no state of the run. */
  lemma UnknownNamed(plan: Planner, work: Work, i: nat, n: nat) returns (id: EntityId)
    requires CommandPlanner(plan) && ValidWork(plan, work) && DrawsFresh(work)
    requires i < n < |work.run.states| && ReplayCompletes(work, i)
    ensures id !in work.run.states[n].rows
    ensures exists e :: e in work.run.states[n].log && e.aggregate == id
  {
    var call, s := work.calls[i], work.run.submissions[i];
    var a := call.command.admission;
    var k :| 0 <= k < i && Admits(work, k, a) && ReplyAt(work.run, k).Replayed?;
    ForeignEvaluation(plan, work, k, a);
    id := a.ownEvaluation;
    assert !DrawnIn(work, k, n);
    assert Issued(plan, work, i);
    OnlyPlansCommit(work.run.states[i], s, plan(s.view, call));
    var result, evidence := CompletionSubmitted(plan, s.view, call);
    RequestNames(call.ctx.actor, a, result, evidence, call.now);
    EventsStay(work.run, i, n, s.request.events[0]);
  }

  lemma EventsStay(run: Run, i: nat, n: nat, e: Event)
    requires Chained(run) && i < |run.submissions| && i < n < |run.states|
    requires Commits(run.states[i], run.submissions[i]) && e in run.submissions[i].request.events
    ensures e in run.states[n].log
  {
    assert Follows(run, i);
    assert e in run.states[i + 1].log;
    RunIsHistory(run, n + 1);
    HistoryBehind(run.states[..n + 1], i + 1, n);
  }

  /**
   The exact condition for the two promises that a replayed admission breaks. In a reachable
   state the log accounts for every revision, and every evaluation that was completed is the
   one result of its operation, each exactly if until then no completion has committed whose
   call got its admission from a replay.
   */
  lemma RecordsHoldExactly(plan: Planner, work: Work, n: nat)
    requires CommandPlanner(plan) && ValidWork(plan, work) && DrawsFresh(work) && n < |work.run.states|
    ensures AllYielded(work.run.states[n].rows) <==> NoReplayCompletes(work, n)
    ensures Accounted(work.run.states[n].rows, work.run.states[n].log) <==> NoReplayCompletes(work, n)
  {
    WorkIsValid(plan, work);
    EvaluationsYieldedOnce(work.run, n);
    forall i | 0 <= i < n
      ensures NamedAt(work.run, i) <==> !ReplayCompletes(work, i)
      ensures !ReplayCompletes(work, i) ==> TruthfulAt(work.run, i)
    {
      NamedUnlessReplayed(plan, work, i);
    }
    if NoReplayCompletes(work, n) {
      LogAccountsForState(work.run, n);
    } else {
      var i :| 0 <= i < n && ReplayCompletes(work, i);
      var id := UnknownNamed(plan, work, i, n);
      var e :| e in work.run.states[n].log && e.aggregate == id;
      UnknownIsUnaccounted(work.run.states[n].rows, work.run.states[n].log, e);
    }
  }
}
