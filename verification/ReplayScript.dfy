/**
 One evaluation asked for twice under one key: the second call gets what the first has
 admitted, and completes it. The operation then names as its result an evaluation that
 was never recorded, and so does the log.
 */
module ReplayScript {
  import opened Domain
  import opened Store
  import opened Listing
  import opened Runs
  import opened ProfileCommands
  import opened OperationCommands
  import opened Settlement
  import opened Workbench
  import opened Replays
  import opened Scripts

  const BY_USER := Context(User, None, None)
  const FIT := Scored([DimensionScore("fit", 50)], 50)

  const WORKSPACE := Entity(1, 1, OfWorkspace(Some(2)))
  const RUBRIC := Entity(2, 1, OfRubric(Rubric("1.0.0", None)))
  const USED := Entity(2, 2, OfRubric(Rubric("1.0.0", Some(5))))
  const POSTING := Entity(3, 1, OfSource(InlineSource(OpportunitySource, External, "p", None, false)))

  function Posted(revision: nat, workflow: WorkflowState): Entity {
    Entity(4, revision, OfOpportunity(Opportunity(3, "Example", None, None, workflow, TextDigest("p"), 0)))
  }

  /** The admission of the opportunity 4 for an operation and an evaluation of its own. */
  function NewAdmission(operation: EntityId, evaluation: EntityId, revision: nat, workflow: WorkflowState,
                        now: Timestamp): Admission {
    Admission(
      Entity(operation, 1, OfOperation(Operation(EvaluationWork, Some(4), Some(revision),
                                                 Some(OfRecord(Posted(revision, workflow))), None, None, Running,
                                                 Deterministic, Some(now), now, None, [], [], None))),
      Entity(evaluation, 1, OfEvaluation(Evaluation(4, 2, [], [], 0, 0, EvalRunning, Some(operation), None))),
      Posted(revision + 1, Evaluating), RUBRIC, operation, evaluation)
  }

  function Admitting(a: Admission): Request {
    Request([Insert(a.operation), Insert(a.evaluation), Update(a.opportunity, Before(a.opportunity))],
            [Event(a.operation.id, a.operation.revision, User), Event(a.evaluation.id, 1, User),
             Event(a.opportunity.id, a.opportunity.revision, User)])
  }

  const FIRST := NewAdmission(5, 6, 1, Captured, 3)
  const SUCCEEDED := Entity(5, 2, OfOperation(FIRST.operation.body.operation.(
                                                state := Succeeded, lastActivityAt := 5, terminalAt := Some(5),
                                                  results := [8])))
  const COMPLETED := Entity(6, 2, OfEvaluation(Evaluation(4, 2, [], FIT.scores, 50, 0, EvalCompleted, Some(5), None)))

  // ---------- the turns ----------

  /** The evaluation is asked for, and these identities are drawn. */
  function Asked(operation: EntityId, evaluation: EntityId, now: Timestamp): Call {
    Call(BY_USER, AdmitEvaluation(4, 2, None, operation, evaluation, 0), true, now, now)
  }

  const INITIALIZE := Turn(Call(BY_USER, Initialize(1, [], 0, [], Some(2)), true, 0, 0), 0,
                           Request([Insert(WORKSPACE), Insert(RUBRIC)], [Event(1, 1, User), Event(2, 1, User)]), 1, 1)
  const CAPTURE := Turn(Call(BY_USER, CaptureSource(3, OpportunitySource, External, "p", false), true, 1, 1), 1,
                        Request([Insert(POSTING)], [Event(3, 1, User)]), 2, 2)
  const POST := Turn(Call(BY_USER, CaptureOpportunity(4, 3, "Example", None, None), true, 2, 2), 2,
                     Request([Insert(Posted(1, Captured))], [Event(4, 1, User)]), 3, 3)
  const ADMIT := Turn(Asked(5, 6, 3), 3, Admitting(FIRST), 4, 4)

  /** The same call under the same key would admit a second evaluation, under the identities 7 and 8. */
  const OWN := NewAdmission(7, 8, 2, Evaluating, 4)
  const AGAIN := Turn(Asked(7, 8, 4), 4, Admitting(OWN), 4, 4)

  /** It is continued with what the first one has admitted. */
  const REPLAYED := FIRST.(ownOperation := 7, ownEvaluation := 8)
  const COMPLETE := Turn(Call(BY_USER, CompleteEvaluation(REPLAYED, {}, Ok(FIT)), true, 5, 5), 5,
                         Request([Update(COMPLETED, 1), Update(SUCCEEDED, 1), Update(Posted(3, Evaluated), 2),
                                  Update(USED, 1)],
                                 [Event(8, 2, User), Event(7, 2, User), Event(4, 3, User), Event(2, 2, User)]), 5, 5)

  const R1: Rows := map[1 := WORKSPACE, 2 := RUBRIC]
  const R2: Rows := R1[3 := POSTING]
  const R3: Rows := R2[4 := Posted(1, Captured)]
  const R4: Rows := R3[5 := FIRST.operation][6 := FIRST.evaluation][4 := Posted(2, Evaluating)]
  const R5: Rows := R4[6 := COMPLETED][5 := SUCCEEDED][4 := Posted(3, Evaluated)][2 := USED]

  const DB1 := Landed(EMPTY, INITIALIZE, R1)
  const DB2 := Landed(DB1, CAPTURE, R2)
  const DB3 := Landed(DB2, POST, R3)
  const DB4 := Landed(DB3, ADMIT, R4)
  const DB5 := Landed(DB4, COMPLETE, R5)

  const S1 := Then(BEGINNING, INITIALIZE, DB1)
  const S2 := Then(S1, CAPTURE, DB2)
  const S3 := Then(S2, POST, DB3)
  const S4 := Then(S3, ADMIT, DB4)
  const S5 := Then(S4, AGAIN, DB4)
  const S6 := Then(S5, COMPLETE, DB5)

  ghost function ReplayWork(): Work
    requires Script(S6.turns, S6.states)
  {
    WorkOf(S6.turns, S6.states)
  }

  // ---------- the calls ----------

  lemma InitializePlanned(plan: Planner)
    requires PlansProfiling(plan)
    ensures plan(EMPTY.rows, INITIALIZE.call) == Ok(INITIALIZE.request)
  {
    assert plan(EMPTY.rows, INITIALIZE.call) == PlanProfiling(EMPTY.rows, INITIALIZE.call);
    assert Inserts([WORKSPACE, RUBRIC]) == INITIALIZE.request.mutations;
    assert EventsOf([WORKSPACE, RUBRIC], User) == INITIALIZE.request.events;
    assert FactRows([], LocatedFacts([], 0, 0, Verified, Some(0))) == [];
    assert [WORKSPACE] + [] + [] + [RUBRIC] == [WORKSPACE, RUBRIC];
  }

  lemma CapturePlanned(plan: Planner)
    requires PlansProfiling(plan)
    ensures plan(R1, CAPTURE.call) == Ok(CAPTURE.request)
  {
    assert Utf8("p") == ['p' as nat];
    assert plan(R1, CAPTURE.call) == PlanProfiling(R1, CAPTURE.call);
  }

  lemma PostPlanned(plan: Planner)
    requires PlansOrdinary(plan)
    ensures plan(R2, POST.call) == Ok(POST.request)
  {
    assert plan(R2, POST.call) == PlanOrdinary(R2, POST.call);
  }

  function Admit(rows: Rows, operation: EntityId, evaluation: EntityId, now: Timestamp): Outcome<Admission> {
    AdmissionOf(rows, BY_USER, 4, 2, None, operation, evaluation, 0, now)
  }

  lemma Admittable(rows: Rows, operation: EntityId, evaluation: EntityId, revision: nat, workflow: WorkflowState,
                   now: Timestamp)
    requires 4 in rows && rows[4] == Posted(revision, workflow) && 2 in rows && rows[2] == RUBRIC
    ensures var a := NewAdmission(operation, evaluation, revision, workflow, now);
      && Admit(rows, operation, evaluation, now) == Ok(a)
      && PlanAdmitEvaluation(rows, BY_USER, 4, 2, None, operation, evaluation, 0, now) == Ok(Admitting(a))
  {
  }

  lemma AdmissionPlanned(plan: Planner, rows: Rows, operation: EntityId, evaluation: EntityId, revision: nat,
                         workflow: WorkflowState, now: Timestamp)
    requires PlansOperations(plan)
    requires 4 in rows && rows[4] == Posted(revision, workflow) && 2 in rows && rows[2] == RUBRIC
    ensures plan(rows, Asked(operation, evaluation, now))
         == Ok(Admitting(NewAdmission(operation, evaluation, revision, workflow, now)))
  {
    Admittable(rows, operation, evaluation, revision, workflow, now);
    assert plan(rows, Asked(operation, evaluation, now)) == PlanOperating(rows, Asked(operation, evaluation, now));
  }

  lemma RowsRead()
    ensures 4 in R3 && R3[4] == Posted(1, Captured) && 2 in R3 && R3[2] == RUBRIC
    ensures 4 in R4 && R4[4] == Posted(2, Evaluating) && 2 in R4 && R4[2] == RUBRIC
  {
  }

  lemma CompletionPlannedAgain(plan: Planner)
    requires PlansCompletions(plan)
    ensures plan(R4, COMPLETE.call) == Ok(COMPLETE.request)
  {
    assert plan(R4, COMPLETE.call) == CompletionPlan(R4, COMPLETE.call);
    assert SortedIds({}) == [];
  }

  // ---------- the commits ----------

  lemma SetUpLands()
    ensures Taken(EMPTY, INITIALIZE) == (DB1, Committed)
    ensures Taken(DB1, CAPTURE) == (DB2, Committed) && Taken(DB2, POST) == (DB3, Committed)
  {
    TwoCommit(EMPTY, INITIALIZE, Insert(WORKSPACE), Insert(RUBRIC));
    assert EMPTY.rows[1 := WORKSPACE][2 := RUBRIC] == R1;
    OneCommits(DB1, CAPTURE, Insert(POSTING));
    OneCommits(DB2, POST, Insert(Posted(1, Captured)));
  }

  lemma AdmissionLands()
    ensures Taken(DB3, ADMIT) == (DB4, Committed)
    ensures DB4.receipts[4] == Receipt(4, [FIRST.operation, FIRST.evaluation, Posted(2, Evaluating)])
  {
    var ms := ADMIT.request.mutations;
    TwoApply(R3, ms[0], ms[1]);
    NextApplies(R3, [ms[0], ms[1]], ms[2]);
    assert ms == [ms[0], ms[1]] + [ms[2]];
    assert Written(ms) == [FIRST.operation, FIRST.evaluation, Posted(2, Evaluating)];
  }

  lemma CompletionFits()
    ensures Fits(R4, Update(COMPLETED, 1)) && Fits(R4, Update(SUCCEEDED, 1))
    ensures Fits(R4, Update(Posted(3, Evaluated), 2)) && Fits(R4, Update(USED, 1))
  {
  }

  lemma CompletionLands()
    ensures Taken(DB4, COMPLETE) == (DB5, Committed)
  {
    CompletionFits();
    FourApply(R4, Update(COMPLETED, 1), Update(SUCCEEDED, 1), Update(Posted(3, Evaluated), 2), Update(USED, 1));
  }

  /** The second call has its admission from the commit of the first. */
  lemma AgainReplays()
    ensures Taken(DB4, AGAIN) == (DB4, Replayed([FIRST.operation, FIRST.evaluation, Posted(2, Evaluating)]))
  {
    AdmissionLands();
  }

  // ---------- the run ----------

  lemma SetUpPlays(plan: Planner)
    requires PlansProfiling(plan) && PlansOrdinary(plan)
    ensures Steps(plan, INITIALIZE, EMPTY.rows, EMPTY, DB1)
    ensures Steps(plan, CAPTURE, R1, DB1, DB2) && Steps(plan, POST, R2, DB2, DB3)
  {
    SetUpLands();
    InitializePlanned(plan);
    CapturePlanned(plan);
    PostPlanned(plan);
  }

  lemma EvaluationPlays(plan: Planner)
    requires PlansOperations(plan) && PlansCompletions(plan)
    ensures Steps(plan, ADMIT, R3, DB3, DB4) && Steps(plan, AGAIN, R4, DB4, DB4) && Steps(plan, COMPLETE, R4, DB4, DB5)
  {
    RowsRead();
    AdmissionPlanned(plan, R3, 5, 6, 1, Captured, 3);
    AdmissionLands();
    AdmissionPlanned(plan, R4, 7, 8, 2, Evaluating, 4);
    AgainReplays();
    CompletionPlannedAgain(plan);
    CompletionLands();
  }

  lemma SetUpTold(plan: Planner)
    requires PlansProfiling(plan) && PlansOrdinary(plan)
    ensures Told(plan, S3) && Now(S3, 3, DB3)
  {
    SetUpPlays(plan);
    Beginning(plan);
    NextTurn(plan, BEGINNING, INITIALIZE, EMPTY.rows, EMPTY, DB1, 0);
    NextTurn(plan, S1, CAPTURE, DB1.rows, DB1, DB2, 0);
    NextTurn(plan, S2, POST, DB2.rows, DB2, DB3, 0);
  }

  lemma AdmissionTold(plan: Planner)
    requires PlansProfiling(plan) && PlansOrdinary(plan) && PlansOperations(plan) && PlansCompletions(plan)
    ensures Told(plan, S5) && Now(S5, 5, DB4) && Admitted(S5, 4, REPLAYED)
  {
    SetUpTold(plan);
    EvaluationPlays(plan);
    ReplayedIsRead();
    NextTurn(plan, S3, ADMIT, DB3.rows, DB3, DB4, 0);
    NextTurn(plan, S4, AGAIN, DB4.rows, DB4, DB4, 0);
    LastAdmits(S4, AGAIN, DB4, DB4, REPLAYED);
  }

  lemma ReplayTold(plan: Planner)
    requires PlansProfiling(plan) && PlansOrdinary(plan) && PlansOperations(plan) && PlansCompletions(plan)
    ensures Told(plan, S5) && Now(S5, 5, DB4) && Admitted(S5, 4, REPLAYED)
    ensures Told(plan, S6) && Now(S6, 6, DB5)
  {
    AdmissionTold(plan);
    EvaluationPlays(plan);
    ReplayedIsRead();
    NextContinuation(plan, S5, COMPLETE, DB4, DB5, 4, REPLAYED);
  }

  lemma ReplayedIsRead()
    ensures AdmissionRead(R4, REPLAYED) && TurnAdmits(AGAIN, R4, DB4, REPLAYED)
  {
    RowsRead();
    AgainReplays();
    Admittable(R4, 7, 8, 2, Evaluating, 4);
    assert AdmissionBy(R4, AGAIN.call) == Admit(R4, 7, 8, 4);
  }

  /** A turn that completes what the turn `k` has from a replay. */
  lemma CompletesReplay(story: Story, turn: Turn, now: Db, after: Db, k: nat, a: Admission)
    requires Script(story.turns, story.states) && Now(story, turn.seen, now)
    requires turn.call.command.CompleteEvaluation? && turn.call.command.admission == a
    requires Taken(now, turn).1 == Committed
    requires Admitted(story, k, a) && Taken(story.states[k], story.turns[k]).1.Replayed?
    ensures var next := Then(story, turn, after);
      Script(next.turns, next.states) && ReplayCompletes(WorkOf(next.turns, next.states), turn.seen)
  {
    var next := Then(story, turn, after);
    ThenGoesOn(story, turn, after);
    AdmittedInStory(story, next, k, a);
    AdmissionInWork(next.turns, next.states, k, a);
    assert ReplyAt(WorkOf(next.turns, next.states).run, k) == Taken(story.states[k], story.turns[k]).1;
  }

  lemma StoryRead(story: Story, turn: Turn, now: Db, after: Db)
    requires Now(story, turn.seen, now)
    ensures Then(story, turn, after).states[turn.seen] == now && Then(story, turn, after).turns[turn.seen] == turn
  {
  }

  lemma TwoAdmit(turn: Turn)
    requires turn in S6.turns && (turn.call.command.AdmitEvaluation? || turn.digest == 4)
    ensures turn == ADMIT || turn == AGAIN
  {
    assert S6.turns == [INITIALIZE, CAPTURE, POST, ADMIT, AGAIN, COMPLETE];
  }

  lemma AllDigestsDiffer()
    ensures forall j, k :: j in S6.turns && k in S6.turns ==> DigestsDiffer(j, k)
  {
    forall j, k | j in S6.turns && k in S6.turns && k.call.command.AdmitEvaluation? && j.digest == k.digest
      ensures SameAdmission(j.call.command, k.call.command)
    {
      TwoAdmit(k);
      TwoAdmit(j);
    }
  }

  /** The replay is a run of the commands. */
  lemma ReplayRuns(plan: Planner)
    requires PlansProfiling(plan) && PlansOrdinary(plan) && PlansOperations(plan) && PlansCompletions(plan)
    ensures Script(S6.turns, S6.states) && ValidWork(plan, ReplayWork()) && ReplayCompletes(ReplayWork(), 5)
    ensures Now(S6, 6, DB5)
  {
    ReplayTold(plan);
    AgainReplays();
    CompletionLands();
    StoryRead(S4, AGAIN, DB4, DB4);
    CompletesReplay(S5, COMPLETE, DB4, DB5, 4, REPLAYED);
    AllDigestsDiffer();
    ScriptIsWork(plan, S6.turns, S6.states);
  }

  /** Two turns draw identities for evaluations: 6 is recorded by its own commit, and 8 never. */
  lemma ReplayIsFresh()
    requires Script(S6.turns, S6.states)
    ensures DrawsFresh(ReplayWork())
  {
    AdmissionLands();
    var work := ReplayWork();
    forall k, j | 0 <= k < |work.calls| && 0 <= j < |work.run.states| && DrawnIn(work, k, j)
      ensures k < j && Commits(work.run.states[k], work.run.submissions[k])
    {
      RowsWithout(j);
      DrawingTurn(k);
      assert work.calls[k] == S6.turns[k].call;
    }
  }

  lemma RowsWithout(j: nat)
    requires j < 7
    ensures |S6.states| == 7 && 8 !in S6.states[j].rows && (j <= 3 ==> 6 !in S6.states[j].rows)
  {
    assert S6.states == [EMPTY, DB1, DB2, DB3, DB4, DB4, DB5];
  }

  lemma DrawingTurn(k: nat)
    requires k < 6
    ensures |S6.turns| == 6 && |S6.states| == 7
    ensures var c := S6.turns[k].call.command;
      c.AdmitEvaluation? ==> c.newId == 8
                             || (k == 3 && c.newId == 6 && S6.turns[3] == ADMIT && S6.states[3] == DB3)
  {
    assert S6.turns == [INITIALIZE, CAPTURE, POST, ADMIT, AGAIN, COMPLETE];
  }

  /**
   The run breaks what `Replays.RecordsHoldExactly` promises otherwise: the evaluation 6 is
   completed, its operation names the evaluation 8 as its result, and the log reports the
   second revision of 8, which has no record, and none of 6.
   */
  lemma ReplayedAdmissionCompletes(plan: Planner)
    requires PlansProfiling(plan) && PlansOrdinary(plan) && PlansOperations(plan) && PlansCompletions(plan)
    ensures Script(S6.turns, S6.states) && ValidWork(plan, ReplayWork()) && DrawsFresh(ReplayWork())
    ensures ReplayCompletes(ReplayWork(), 5) && Now(S6, 6, DB5)
    ensures R5[6] == COMPLETED && R5[5] == SUCCEEDED && 8 !in R5 && Event(8, 2, User) in DB5.log
    ensures !AllYielded(R5) && !Accounted(R5, DB5.log)
  {
    ReplayRuns(plan);
    ReplayIsFresh();
    WrongRecords();
  }

  lemma WrongRecords()
    ensures R5[6] == COMPLETED && R5[5] == SUCCEEDED && 8 !in R5 && Event(8, 2, User) in DB5.log
    ensures !AllYielded(R5) && !Accounted(R5, DB5.log)
  {
    assert COMPLETE.request.events[0] == Event(8, 2, User);
    assert COMPLETE.request.events[0] in DB5.log;
    UnknownIsUnaccounted(R5, DB5.log, Event(8, 2, User));
    assert SUCCEEDED.body.operation.results[0] == 8;
    assert WasCompleted(R5, 6) && !Yielded(R5, 6);
  }
}
