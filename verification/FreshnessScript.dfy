/**
 The race of a proposal and a correction as a run of the commands, from the empty store
 on: a profile, three postings with one evaluation each by an operation of a model
 session, and an operation that compares them.
 */
module FreshnessScript {
  import opened Domain
  import opened Store
  import opened Listing
  import opened EvidenceRules
  import opened ProfileCommands
  import opened OperationCommands
  import opened Scenarios
  import opened ApprovalCommands
  import opened CascadeClosure
  import opened Freshness
  import opened Workbench
  import opened Scripts
  import FreshnessRace
  import RevivalRace

  const BY_USER := Context(User, None, None)
  const SPEC := FactSpec("skill", "ada", "speaks", PText("welsh"))
  const CLAIM := Claim(SPEC)
  const FIT := [DimensionScore("fit", 50)]

  function BySession(operation: EntityId): Context { Context(DshAgent, Some(operation), Some(7)) }

  /** The turn `t`: it reads the store as it is then, and its key and its digest are its number. */
  function Says(t: nat, ctx: Context, command: Command, mutations: seq<Mutation>, events: seq<Event>): Turn {
    Turn(Call(ctx, command, true, t, t), t, Request(mutations, events), t, t)
  }

  // ---------- records ----------

  const WORKSPACE := Entity(30, 1, OfWorkspace(Some(31)))
  const OWN := Entity(1, 1, OfSource(InlineSource(CandidateSource, CandidatePrimary, CLAIM, None, true)))
  const SKILL := Entity(2, 1, OfFact(LocatedFact(SPEC, 1, 0, Verified, Some(0))))
  const POSTING := Entity(32, 1, OfSource(InlineSource(OpportunitySource, External, "p", None, false)))

  function Support(revision: nat, decision: Decision): Entity {
    Entity(3, revision, OfEvidence(Evidence(CandidateFact, CLAIM, Some(1), None, Some(2), None, decision)))
  }

  /** The rubric is first used in the turn 10. */
  function RubricAt(revision: nat): Entity {
    Entity(31, revision, OfRubric(Rubric("1.0.0", if revision == 1 then None else Some(10))))
  }

  function Posted(n: nat, revision: nat, workflow: WorkflowState): Entity {
    Entity(20 + n, revision, OfOpportunity(Opportunity(32, "Example", None, None, workflow, TextDigest("p"), 0)))
  }

  /** The operation of the evaluation `n`, which is 4, 5 or 6. */
  function WorkFor(n: nat, revision: nat, state: OperationState, started: Option<Timestamp>, at: Timestamp,
                 terminal: Option<Timestamp>, results: seq<EntityId>): Entity {
    Entity(10 + n, revision, OfOperation(Operation(
      EvaluationWork, Some(20 + n), Some(1), Some(OfRecord(Posted(n, 1, Captured))), Some(7), None, state, OrdinaryDsh,
        started, at, terminal, results, [], None)))
  }

  /** The first of the four turns of that evaluation. */
  function Start(n: nat): nat
    requires n >= 4
  {
    4 * n - 9
  }

  type Judged = n: nat | 4 <= n <= 6 witness 4

  function QueuedWork(n: Judged): Entity { WorkFor(n, 1, Queued, None, Start(n), None, []) }

  function RunningWork(n: Judged): Entity { WorkFor(n, 2, Running, Some(Start(n) + 1), Start(n) + 1, None, []) }

  function AskedWork(n: Judged): Entity { WorkFor(n, 3, Running, Some(Start(n) + 1), Start(n) + 2, None, []) }

  function SettledWork(n: Judged): Entity {
    WorkFor(n, 4, Succeeded, Some(Start(n) + 1), Start(n) + 3, Some(Start(n) + 3), [n])
  }

  function PendingOf(n: Judged): Entity {
    Entity(n, 1, OfEvaluation(Evaluation(20 + n, 31, [], [], 0, 0, EvalRunning, Some(10 + n), None)))
  }

  function CompletedOf(n: Judged): Entity {
    Entity(n, 2, OfEvaluation(Evaluation(20 + n, 31, [3], FIT, 50, 0, EvalCompleted, Some(10 + n), None)))
  }

  function AskedAdmission(n: Judged): Admission {
    Admission(AskedWork(n), PendingOf(n), Posted(n, 2, Evaluating), RubricAt(n - 3), 10 + n, n)
  }

  // ---------- the four turns of an evaluation ----------

  function Queue(n: Judged): Turn {
    Says(Start(n), BySession(10 + n), AdmitOperation(10 + n, EvaluationWork, 20 + n, OrdinaryDsh, 7, None),
         [Insert(QueuedWork(n))], [Event(10 + n, 1, DshAgent)])
  }

  function Begin(n: Judged): Turn {
    Says(Start(n) + 1, BySession(10 + n), StartOperation(10 + n), [Update(RunningWork(n), 1)],
         [Event(10 + n, 2, DshAgent)])
  }

  function Ask(n: Judged): Turn {
    Says(Start(n) + 2, BySession(10 + n), AdmitEvaluation(20 + n, 31, Some(10 + n), 0, n, 0),
         [Update(AskedWork(n), 2), Insert(PendingOf(n)), Update(Posted(n, 2, Evaluating), 1)],
         [Event(10 + n, 3, DshAgent), Event(n, 1, DshAgent), Event(20 + n, 2, DshAgent)])
  }

  function Complete(n: Judged): Turn {
    Says(Start(n) + 3, BySession(10 + n), CompleteEvaluation(AskedAdmission(n), {3}, Ok(Scored(FIT, 50))),
         [Update(CompletedOf(n), 1), Update(SettledWork(n), 3), Update(Posted(n, 3, Evaluated), 2),
          Update(RubricAt(n - 2), n - 3)],
         [Event(n, 2, DshAgent), Event(10 + n, 4, DshAgent), Event(20 + n, 3, DshAgent), Event(31, n - 2, DshAgent)])
  }

  function WhenQueued(rows: Rows, n: Judged): Rows { rows[10 + n := QueuedWork(n)] }

  function WhenBegun(rows: Rows, n: Judged): Rows { rows[10 + n := RunningWork(n)] }

  function WhenAsked(rows: Rows, n: Judged): Rows {
    rows[10 + n := AskedWork(n)][n := PendingOf(n)][20 + n := Posted(n, 2, Evaluating)]
  }

  function WhenCompleted(rows: Rows, n: Judged): Rows {
    rows[n := CompletedOf(n)][10 + n := SettledWork(n)][20 + n := Posted(n, 3, Evaluated)][31 := RubricAt(n - 2)]
  }

  // ---------- the calls of an evaluation ----------

  ghost predicate Has(rows: Rows, e: Entity) { e.id in rows && rows[e.id] == e }

  lemma QueuePlanned(plan: Planner, rows: Rows, n: Judged)
    requires PlansOperations(plan) && Has(rows, Posted(n, 1, Captured))
    ensures plan(rows, Queue(n).call) == Ok(Queue(n).request)
  {
    PlannedAs(plan, rows, Queue(n).call, Ok(Queue(n).request));
  }

  lemma BeginPlanned(plan: Planner, rows: Rows, n: Judged)
    requires PlansOperations(plan) && Has(rows, QueuedWork(n))
    ensures plan(rows, Begin(n).call) == Ok(Begin(n).request)
  {
    PlannedAs(plan, rows, Begin(n).call, Ok(Begin(n).request));
  }

  function AdmitAsked(rows: Rows, n: Judged): Outcome<Admission> {
    AdmissionOf(rows, BySession(10 + n), 20 + n, 31, Some(10 + n), 0, n, 0, Start(n) + 2)
  }

  function PlanAsked(rows: Rows, n: Judged): Outcome<Request> {
    PlanAdmitEvaluation(rows, BySession(10 + n), 20 + n, 31, Some(10 + n), 0, n, 0, Start(n) + 2)
  }

  lemma AskAdmits(rows: Rows, n: Judged)
    requires Has(rows, RunningWork(n)) && Has(rows, Posted(n, 1, Captured)) && Has(rows, RubricAt(n - 3))
    ensures AdmitAsked(rows, n) == Ok(AskedAdmission(n))
  {
  }

  function Made(a: Admission): Request {
    Request([Update(a.operation, Before(a.operation)), Insert(a.evaluation),
             Update(a.opportunity, Before(a.opportunity))],
            [Event(a.operation.id, a.operation.revision, DshAgent), Event(a.evaluation.id, 1, DshAgent),
             Event(a.opportunity.id, a.opportunity.revision, DshAgent)])
  }

  lemma AskIs(n: Judged)
    ensures Ask(n).request == Made(AskedAdmission(n))
  {
  }

  lemma AskRequested(rows: Rows, n: Judged, a: Admission)
    requires AdmitAsked(rows, n) == Ok(a)
    ensures PlanAsked(rows, n) == Ok(Made(a))
  {
    AdmissionRequested(rows, BySession(10 + n), 20 + n, 31, 10 + n, 0, n, 0, Start(n) + 2, a);
  }

  lemma AskIsOperating(rows: Rows, n: Judged)
    ensures LicenceOf(Ask(n).call.command).Operating?
    ensures PlanOperating(rows, Ask(n).call) == PlanAsked(rows, n)
    ensures AdmissionBy(rows, Ask(n).call) == AdmitAsked(rows, n)
  {
  }

  lemma AskPlanned(plan: Planner, rows: Rows, n: Judged)
    requires PlansOperations(plan)
    requires Has(rows, RunningWork(n)) && Has(rows, Posted(n, 1, Captured)) && Has(rows, RubricAt(n - 3))
    ensures plan(rows, Ask(n).call) == Ok(Ask(n).request)
  {
    AskIsOperating(rows, n);
    PlannedAs(plan, rows, Ask(n).call, PlanAsked(rows, n));
    AskAdmits(rows, n);
    AskRequested(rows, n, AskedAdmission(n));
    AskIs(n);
  }

  lemma OneId()
    ensures SortedIds({3}) == [3]
  {
    var ids := SortedIds({3});
    forall i | 0 <= i < |ids|
      ensures ids[i] == 3
    {
      assert ids[i] in ids;
    }
  }

  lemma CompletionIs(n: Judged)
    ensures ProperAdmission(AskedAdmission(n)) && UniqueKeys(FIT)
    ensures CompletionRequest(DshAgent, AskedAdmission(n), Scored(FIT, 50), [3], Start(n) + 3) == Complete(n).request
  {
  }

  function PlanCompletion(rows: Rows, n: Judged): Outcome<Request> {
    PlanCompleteEvaluation(rows, BySession(10 + n), AskedAdmission(n), {3}, Ok(Scored(FIT, 50)), Start(n) + 3)
  }

  lemma CompletionIsPlanned(rows: Rows, n: Judged)
    requires Has(rows, Support(2, Accepted)) && ProperAdmission(AskedAdmission(n)) && UniqueKeys(FIT)
    ensures PlanCompletion(rows, n)
         == Ok(CompletionRequest(DshAgent, AskedAdmission(n), Scored(FIT, 50), SortedIds({3}), Start(n) + 3))
  {
    CompletionRequested(rows, BySession(10 + n), AskedAdmission(n), {3}, Scored(FIT, 50), Start(n) + 3);
  }

  lemma CompletePlanned(plan: Planner, rows: Rows, n: Judged)
    requires PlansCompletions(plan) && Has(rows, Support(2, Accepted))
    ensures plan(rows, Complete(n).call) == Ok(Complete(n).request)
  {
    assert plan(rows, Complete(n).call) == CompletionPlan(rows, Complete(n).call) == PlanCompletion(rows, n);
    OneId();
    CompletionIs(n);
    CompletionIsPlanned(rows, n);
  }

  // ---------- the commits of an evaluation ----------

  lemma QueueLands(db: Db, n: Judged)
    requires 10 + n !in db.rows && Start(n) !in db.receipts
    ensures Taken(db, Queue(n)) == (Landed(db, Queue(n), WhenQueued(db.rows, n)), Committed)
  {
    OneCommits(db, Queue(n), Insert(QueuedWork(n)));
  }

  lemma BeginLands(db: Db, n: Judged)
    requires Has(db.rows, QueuedWork(n)) && Start(n) + 1 !in db.receipts
    ensures Taken(db, Begin(n)) == (Landed(db, Begin(n), WhenBegun(db.rows, n)), Committed)
  {
    OneCommits(db, Begin(n), Update(RunningWork(n), 1));
  }

  lemma AskLands(db: Db, n: Judged)
    requires Has(db.rows, RunningWork(n)) && Has(db.rows, Posted(n, 1, Captured)) && n !in db.rows
    requires Start(n) + 2 !in db.receipts
    ensures Taken(db, Ask(n)) == (Landed(db, Ask(n), WhenAsked(db.rows, n)), Committed)
  {
    var ms := Ask(n).request.mutations;
    TwoApply(db.rows, ms[0], ms[1]);
    NextApplies(db.rows, [ms[0], ms[1]], ms[2]);
    assert ms == [ms[0], ms[1]] + [ms[2]];
  }

  lemma CompleteLands(db: Db, n: Judged)
    requires Has(db.rows, AskedWork(n)) && Has(db.rows, PendingOf(n)) && Has(db.rows, Posted(n, 2, Evaluating))
             && Has(db.rows, RubricAt(n - 3))
    requires Start(n) + 3 !in db.receipts
    ensures Taken(db, Complete(n)) == (Landed(db, Complete(n), WhenCompleted(db.rows, n)), Committed)
  {
    CompletionFits(db.rows, n);
    FourApply(db.rows, Update(CompletedOf(n), 1), Update(SettledWork(n), 3), Update(Posted(n, 3, Evaluated), 2),
              Update(RubricAt(n - 2), n - 3));
  }

  lemma CompletionFits(rows: Rows, n: Judged)
    requires Has(rows, AskedWork(n)) && Has(rows, PendingOf(n)) && Has(rows, Posted(n, 2, Evaluating))
             && Has(rows, RubricAt(n - 3))
    ensures Fits(rows, Update(CompletedOf(n), 1)) && Fits(rows, Update(SettledWork(n), 3))
    ensures Fits(rows, Update(Posted(n, 3, Evaluated), 2)) && Fits(rows, Update(RubricAt(n - 2), n - 3))
  {
  }

  // ---------- an evaluation ----------

  /** The rows are keyed and hold no comparison. */
  ghost predicate NoComparisons(rows: Rows) {
    forall id :: id in rows ==> rows[id].id == id && rows[id].revision >= 1 && !rows[id].body.OfComparison?
  }

  lemma StillNone(rows: Rows, e: Entity)
    requires NoComparisons(rows) && e.revision >= 1 && !e.body.OfComparison?
    ensures NoComparisons(rows[e.id := e])
  {
  }

  /** The evaluation `m` has been completed for its operation. */
  ghost predicate HasEvaluation(rows: Rows, m: Judged) {
    Has(rows, CompletedOf(m)) && Has(rows, SettledWork(m)) && Has(rows, Posted(m, 3, Evaluated))
  }

  /** Nothing has been done yet for the evaluation `m`. */
  ghost predicate Waits(rows: Rows, m: Judged) {
    Has(rows, Posted(m, 1, Captured)) && m !in rows && 10 + m !in rows
  }

  ghost predicate DoneBefore(rows: Rows, m: Judged, n: nat) { if m < n then HasEvaluation(rows, m) else Waits(rows, m) }

  ghost predicate HasProfile(rows: Rows) { Has(rows, OWN) && Has(rows, SKILL) && Has(rows, Support(2, Accepted)) }

  /** The evaluations before `n` are completed, and the others can be asked for. */
  ghost predicate Prepared(rows: Rows, n: nat) {
    && 4 <= n <= 7 && HasProfile(rows) && Has(rows, RubricAt(n - 3))
    && (forall m: Judged :: DoneBefore(rows, m, n))
    && 9 !in rows && 40 !in rows && 41 !in rows
  }

  /** Only the records of the evaluation `n`, and the rubric, have changed. */
  ghost predicate SameBut(rows: Rows, after: Rows, n: Judged) {
    forall id :: id != n && id != 10 + n && id != 20 + n && id != 31 ==>
      (id in rows <==> id in after) && (id in rows ==> after[id] == rows[id])
  }

  lemma OtherDone(rows: Rows, after: Rows, m: Judged, n: Judged)
    requires SameBut(rows, after, n) && m != n && DoneBefore(rows, m, n)
    ensures DoneBefore(after, m, n + 1)
  {
  }

  lemma PreparedNext(rows: Rows, after: Rows, n: Judged)
    requires Prepared(rows, n) && SameBut(rows, after, n) && HasEvaluation(after, n) && Has(after, RubricAt(n - 2))
    ensures Prepared(after, n + 1)
  {
    var next := n + 1;
    forall m: Judged
      ensures DoneBefore(after, m, next)
    {
      if m != n {
        assert DoneBefore(rows, m, n);
        OtherDone(rows, after, m, n);
      }
    }
    ProfileKept(rows, after, n);
  }

  lemma ProfileKept(rows: Rows, after: Rows, n: Judged)
    requires SameBut(rows, after, n) && HasProfile(rows)
    ensures HasProfile(after)
  {
  }

  lemma WaitsItsTurn(rows: Rows, n: Judged)
    requires Prepared(rows, n)
    ensures Waits(rows, n) && Has(rows, RubricAt(n - 3)) && Has(rows, Support(2, Accepted))
  {
    assert DoneBefore(rows, n, n);
  }

  // ---------- the four turns, told ----------

  function AfterQueue(db: Db, n: Judged): Db { Landed(db, Queue(n), WhenQueued(db.rows, n)) }

  function AfterBegin(db: Db, n: Judged): Db { Landed(db, Begin(n), WhenBegun(db.rows, n)) }

  function AfterAsk(db: Db, n: Judged): Db { Landed(db, Ask(n), WhenAsked(db.rows, n)) }

  function AfterComplete(db: Db, n: Judged): Db { Landed(db, Complete(n), WhenCompleted(db.rows, n)) }

  /** No key from `t` on has been used. */
  ghost predicate KeysBelow(db: Db, t: nat) { forall k :: k in db.receipts ==> k < t }

  lemma QueueTold(plan: Planner, story: Story, db: Db, n: Judged)
    requires PlansOperations(plan) && Telling(plan, story, Start(n), db) && KeysBelow(db, Start(n))
    requires Waits(db.rows, n)
    ensures Telling(plan, Then(story, Queue(n), AfterQueue(db, n)), Start(n) + 1, AfterQueue(db, n))
  {
    QueuePlanned(plan, db.rows, n);
    QueueLands(db, n);
    Tell(plan, story, Queue(n), db, AfterQueue(db, n));
  }

  lemma BeginTold(plan: Planner, story: Story, db: Db, n: Judged)
    requires PlansOperations(plan) && Telling(plan, story, Start(n) + 1, db) && KeysBelow(db, Start(n) + 1)
    requires Has(db.rows, QueuedWork(n))
    ensures Telling(plan, Then(story, Begin(n), AfterBegin(db, n)), Start(n) + 2, AfterBegin(db, n))
  {
    BeginPlanned(plan, db.rows, n);
    BeginLands(db, n);
    Tell(plan, story, Begin(n), db, AfterBegin(db, n));
  }

  /** What asking for an evaluation finds. */
  ghost predicate Askable(rows: Rows, n: Judged) {
    Has(rows, RunningWork(n)) && Has(rows, Posted(n, 1, Captured)) && Has(rows, RubricAt(n - 3)) && n !in rows
  }

  lemma AskTold(plan: Planner, story: Story, db: Db, n: Judged)
    requires PlansOperations(plan) && Telling(plan, story, Start(n) + 2, db) && KeysBelow(db, Start(n) + 2)
    requires Askable(db.rows, n)
    ensures var next := Then(story, Ask(n), AfterAsk(db, n));
      Telling(plan, next, Start(n) + 3, AfterAsk(db, n)) && Admitted(next, Start(n) + 2, AskedAdmission(n))
  {
    AskPlanned(plan, db.rows, n);
    AskLands(db, n);
    Tell(plan, story, Ask(n), db, AfterAsk(db, n));
    AskContinues(db, n);
    LastAdmits(story, Ask(n), db, AfterAsk(db, n), AskedAdmission(n));
  }

  lemma AskContinues(db: Db, n: Judged)
    requires Askable(db.rows, n) && KeysBelow(db, Start(n) + 2)
    ensures TurnAdmits(Ask(n), db.rows, db, AskedAdmission(n))
  {
    AskLands(db, n);
    AskAdmits(db.rows, n);
    AskIsOperating(db.rows, n);
  }

  /** What completing it finds. */
  ghost predicate Completable(rows: Rows, n: Judged) {
    && Has(rows, AskedWork(n)) && Has(rows, PendingOf(n)) && Has(rows, Posted(n, 2, Evaluating))
      && Has(rows, RubricAt(n - 3))
    && Has(rows, Support(2, Accepted))
  }

  lemma AdmissionIsRead(rows: Rows, n: Judged)
    requires Completable(rows, n)
    ensures AdmissionRead(rows, AskedAdmission(n))
  {
  }

  lemma CompleteSteps(plan: Planner, db: Db, n: Judged)
    requires PlansCompletions(plan) && KeysBelow(db, Start(n) + 3) && Completable(db.rows, n)
    ensures Steps(plan, Complete(n), db.rows, db, AfterComplete(db, n))
  {
    CompletePlanned(plan, db.rows, n);
    CompleteLands(db, n);
  }

  lemma CompleteGoesOn(n: Judged)
    ensures Complete(n).seen == Complete(n).digest == Start(n) + 3
    ensures Continues(Complete(n).call.command) && Complete(n).call.command.admission == AskedAdmission(n)
  {
  }

  // ---------- the records along the four turns ----------

  lemma Landing(db: Db, turn: Turn, rows: Rows, t: nat)
    requires KeysBelow(db, t) && turn.key == t
    ensures KeysBelow(Landed(db, turn, rows), t + 1)
  {
  }

  lemma QueuedRows(rows: Rows, n: Judged)
    requires Waits(rows, n) && Has(rows, RubricAt(n - 3))
    ensures Has(WhenQueued(rows, n), QueuedWork(n)) && Askable(WhenBegun(WhenQueued(rows, n), n), n)
  {
  }

  lemma AskedRows(rows: Rows, n: Judged)
    requires Askable(rows, n) && Has(rows, Support(2, Accepted))
    ensures Completable(WhenAsked(rows, n), n)
  {
  }

  lemma CompletedRows(rows: Rows, n: Judged)
    ensures HasEvaluation(WhenCompleted(rows, n), n) && Has(WhenCompleted(rows, n), RubricAt(n - 2))
  {
  }

  /** All four turns. */
  function EvaluationStory(story: Story, db: Db, n: Judged): Story {
    Then(Then(OperationStory(story, db, n), Ask(n), AfterAsk(BegunDb(db, n), n)), Complete(n), EvaluatedDb(db, n))
  }

  function OperationStory(story: Story, db: Db, n: Judged): Story {
    Then(Then(story, Queue(n), AfterQueue(db, n)), Begin(n), BegunDb(db, n))
  }

  function BegunDb(db: Db, n: Judged): Db { AfterBegin(AfterQueue(db, n), n) }

  function EvaluatedDb(db: Db, n: Judged): Db { AfterComplete(AfterAsk(BegunDb(db, n), n), n) }

  lemma OperationTold(plan: Planner, story: Story, db: Db, n: Judged)
    requires PlansOperations(plan) && Telling(plan, story, Start(n), db) && KeysBelow(db, Start(n))
    requires Waits(db.rows, n) && Has(db.rows, RubricAt(n - 3))
    ensures Telling(plan, OperationStory(story, db, n), Start(n) + 2, BegunDb(db, n))
            && KeysBelow(BegunDb(db, n), Start(n) + 2)
    ensures Askable(BegunDb(db, n).rows, n)
  {
    var queued := AfterQueue(db, n);
    QueuedRows(db.rows, n);
    QueueTold(plan, story, db, n);
    Landing(db, Queue(n), queued.rows, Start(n));
    BeginTold(plan, Then(story, Queue(n), queued), queued, n);
    Landing(queued, Begin(n), WhenBegun(queued.rows, n), Start(n) + 1);
  }

  lemma EvaluationTold(plan: Planner, story: Story, db: Db, n: Judged)
    requires PlansOperations(plan) && PlansCompletions(plan) && Telling(plan, story, Start(n) + 2, db)
    requires KeysBelow(db, Start(n) + 2) && Askable(db.rows, n) && Has(db.rows, Support(2, Accepted))
    ensures var asked := AfterAsk(db, n);
      var after := AfterComplete(asked, n);
      && Telling(plan, Then(Then(story, Ask(n), asked), Complete(n), after), Start(n) + 4, after)
      && KeysBelow(after, Start(n) + 4)
  {
    var asked := AfterAsk(db, n);
    AskTold(plan, story, db, n);
    Landing(db, Ask(n), asked.rows, Start(n) + 2);
    AskedRows(db.rows, n);
    AdmissionIsRead(asked.rows, n);
    CompleteSteps(plan, asked, n);
    CompleteGoesOn(n);
    TellContinuation(plan, Then(story, Ask(n), asked), Complete(n), asked, AfterComplete(asked, n), Start(n) + 2,
                     AskedAdmission(n));
    Landing(asked, Complete(n), WhenCompleted(asked.rows, n), Start(n) + 3);
  }

  lemma BegunNone(rows: Rows, n: Judged)
    requires NoComparisons(rows)
    ensures NoComparisons(WhenBegun(WhenQueued(rows, n), n))
  {
    StillNone(rows, QueuedWork(n));
    StillNone(WhenQueued(rows, n), RunningWork(n));
  }

  lemma AskedNone(rows: Rows, n: Judged)
    requires NoComparisons(rows)
    ensures NoComparisons(WhenAsked(rows, n))
  {
    StillNone(rows, AskedWork(n));
    StillNone(rows[10 + n := AskedWork(n)], PendingOf(n));
    StillNone(rows[10 + n := AskedWork(n)][n := PendingOf(n)], Posted(n, 2, Evaluating));
  }

  lemma CompletedNone(rows: Rows, n: Judged)
    requires NoComparisons(rows)
    ensures NoComparisons(WhenCompleted(rows, n))
  {
    StillNone(rows, CompletedOf(n));
    StillNone(rows[n := CompletedOf(n)], SettledWork(n));
    StillNone(rows[n := CompletedOf(n)][10 + n := SettledWork(n)], Posted(n, 3, Evaluated));
    StillNone(rows[n := CompletedOf(n)][10 + n := SettledWork(n)][20 + n := Posted(n, 3, Evaluated)], RubricAt(n - 2));
  }

  lemma Untouched(rows: Rows, n: Judged)
    ensures SameBut(rows, WhenCompleted(WhenAsked(WhenBegun(WhenQueued(rows, n), n), n), n), n)
  {
  }

  lemma SupportKept(rows: Rows, n: Judged)
    requires Has(rows, Support(2, Accepted))
    ensures Has(WhenBegun(WhenQueued(rows, n), n), Support(2, Accepted))
  {
  }

  lemma OneEvaluation(plan: Planner, story: Story, db: Db, n: Judged) returns (next: Story, after: Db)
    requires PlansOperations(plan) && PlansCompletions(plan) && Telling(plan, story, Start(n), db)
    requires KeysBelow(db, Start(n)) && Prepared(db.rows, n) && NoComparisons(db.rows)
    ensures Telling(plan, next, Start(n) + 4, after) && KeysBelow(after, Start(n) + 4)
    ensures Prepared(after.rows, n + 1) && NoComparisons(after.rows)
  {
    next, after := EvaluationStory(story, db, n), EvaluatedDb(db, n);
    BegunNone(db.rows, n);
    AskedNone(BegunDb(db, n).rows, n);
    CompletedNone(AfterAsk(BegunDb(db, n), n).rows, n);
    WaitsItsTurn(db.rows, n);
    OperationTold(plan, story, db, n);
    SupportKept(db.rows, n);
    EvaluationTold(plan, OperationStory(story, db, n), BegunDb(db, n), n);
    Untouched(db.rows, n);
    CompletedRows(AfterAsk(BegunDb(db, n), n).rows, n);
    PreparedNext(db.rows, after.rows, n);
  }

  // ---------- setting up ----------

  const INITIALIZE := Says(0, BY_USER, Initialize(30, [SPEC], 1, [2], Some(31)),
                           [Insert(WORKSPACE), Insert(OWN), Insert(SKILL), Insert(RubricAt(1))],
                           [Event(30, 1, User), Event(1, 1, User), Event(2, 1, User), Event(31, 1, User)])
  const PROPOSE := Says(1, BY_USER, ProposeEvidence(3, CandidateFact, CLAIM, Some(1), None, Some(2), None),
                        [Insert(Support(1, EvidenceProposed))], [Event(3, 1, User)])
  const ACCEPT := Says(2, BY_USER, DecideEvidence(3, 1, true), [Update(Support(2, Accepted), 1)], [Event(3, 2, User)])
  const CAPTURE := Says(3, BY_USER, CaptureSource(32, OpportunitySource, External, "p", false), [Insert(POSTING)],
                        [Event(32, 1, User)])

  /** The three postings are captured in the turns 4, 5 and 6. */
  function Post(n: Judged): Turn {
    Says(n, BY_USER, CaptureOpportunity(20 + n, 32, "Example", None, None), [Insert(Posted(n, 1, Captured))],
         [Event(20 + n, 1, User)])
  }

  const Z1: Rows := map[30 := WORKSPACE, 1 := OWN, 2 := SKILL, 31 := RubricAt(1)]
  const Z2: Rows := Z1[3 := Support(1, EvidenceProposed)]
  const Z3: Rows := Z1[3 := Support(2, Accepted)]
  const Z4: Rows := Z3[32 := POSTING]

  const DB1 := Landed(EMPTY, INITIALIZE, Z1)
  const DB2 := Landed(DB1, PROPOSE, Z2)
  const DB3 := Landed(DB2, ACCEPT, Z3)
  const DB4 := Landed(DB3, CAPTURE, Z4)

  const SUPPORTED := Then(Then(BEGINNING, INITIALIZE, DB1), PROPOSE, DB2)
  const PROFILE := Then(Then(SUPPORTED, ACCEPT, DB3), CAPTURE, DB4)

  /** A workspace with one verified fact and a rubric. */
  function Initial(workspace: EntityId, spec: FactSpec, source: EntityId, fact: EntityId, rubric: EntityId,
                   now: Timestamp): seq<Entity> {
    [Entity(workspace, 1, OfWorkspace(Some(rubric))),
     Entity(source, 1, OfSource(InlineSource(CandidateSource, CandidatePrimary, Claim(spec), None, true))),
     Entity(fact, 1, OfFact(LocatedFact(spec, source, 0, Verified, Some(now)))),
     Entity(rubric, 1, OfRubric(Rubric("1.0.0", None)))]
  }

  lemma Initialized(workspace: EntityId, spec: FactSpec, source: EntityId, fact: EntityId, rubric: EntityId,
                    now: Timestamp)
    ensures var entities := Initial(workspace, spec, source, fact, rubric, now);
      PlanInitialize(BY_USER, workspace, [spec], source, [fact], Some(rubric), true, now)
      == Ok(Request(Inserts(entities), EventsOf(entities, User)))
  {
    assert [spec][1..] == [];
    var facts := LocatedFacts([spec], source, 0, Verified, Some(now));
    assert facts == [LocatedFact(spec, source, 0, Verified, Some(now))];
    var e := Initial(workspace, spec, source, fact, rubric, now);
    assert FactRows([fact], facts) == [e[2]];
    assert [e[0]] + [e[1]] + [e[2]] + [e[3]] == e;
  }

  lemma InitializeIs()
    ensures Initial(30, SPEC, 1, 2, 31, 0) == [WORKSPACE, OWN, SKILL, RubricAt(1)]
  {
  }

  lemma FourRows(a: Entity, b: Entity, c: Entity, d: Entity)
    requires a.revision == 1 && b.revision == 1 && c.revision == 1 && d.revision == 1
    ensures Inserts([a, b, c, d]) == [Insert(a), Insert(b), Insert(c), Insert(d)]
    ensures EventsOf([a, b, c, d], User) == [Event(a.id, 1, User), Event(b.id, 1, User), Event(c.id, 1, User),
                                             Event(d.id, 1, User)]
  {
  }

  lemma InitializePlanned(plan: Planner)
    requires PlansProfiling(plan)
    ensures plan(EMPTY.rows, INITIALIZE.call) == Ok(INITIALIZE.request)
  {
    Initialized(30, SPEC, 1, 2, 31, 0);
    InitializeIs();
    FourRows(WORKSPACE, OWN, SKILL, RubricAt(1));
    assert plan(EMPTY.rows, INITIALIZE.call) == PlanProfiling(EMPTY.rows, INITIALIZE.call);
  }

  lemma ProposePlanned(plan: Planner, rows: Rows)
    requires PlansProposals(plan)
    ensures plan(rows, PROPOSE.call) == Ok(PROPOSE.request)
  {
    assert plan(rows, PROPOSE.call) == ProposalPlan(rows, PROPOSE.call);
  }

  lemma Supported(e: Evidence, source: Source, fact: Fact)
    requires e.decision.EvidenceProposed? && e.classification.CandidateFact? && e.locator.None?
    requires fact.status.Verified? && e.claim == RenderClaim(fact.subject, fact.predicate_, fact.value)
    requires source.trust.CandidatePrimary?
    ensures ValidateForAcceptance(e, Some(source), Some(fact)).Pass?
  {
  }

  /** The acceptance of evidence. */
  lemma Accepting(rows: Rows, e: Entity, source: Option<Source>, fact: Option<Fact>)
    requires Has(rows, e) && e.body.OfEvidence? && e.body.evidence.operation.None?
    requires FetchSource(rows, e.body.evidence.source) == Ok(source)
             && FetchFact(rows, e.body.evidence.fact) == Ok(fact)
    requires e.body.evidence.decision.EvidenceProposed?
    requires AcceptanceAllowed(rows, e.body.evidence, source, fact).Ok?
    ensures PlanDecideEvidence(rows, BY_USER, e.id, e.revision, true, true)
         == Ok(Request([Update(Updated(e, OfEvidence(e.body.evidence.(decision := Accepted))), e.revision)],
                       [Event(e.id, e.revision + 1, User)]))
  {
  }

  lemma SupportIsSupported()
    ensures Support(1, EvidenceProposed).body.evidence.claim
         == RenderClaim(SKILL.body.fact.subject, SKILL.body.fact.predicate_, SKILL.body.fact.value)
    ensures Updated(Support(1, EvidenceProposed),
                    OfEvidence(Support(1, EvidenceProposed).body.evidence.(decision := Accepted)))
         == Support(2, Accepted)
  {
  }

  lemma AcceptPlanned(plan: Planner, rows: Rows)
    requires PlansDecisions(plan) && Has(rows, OWN) && Has(rows, SKILL) && Has(rows, Support(1, EvidenceProposed))
    requires RevivalRace.NothingRejected(rows)
    ensures plan(rows, ACCEPT.call) == Ok(ACCEPT.request)
  {
    var e := Support(1, EvidenceProposed);
    SupportIsSupported();
    Supported(e.body.evidence, OWN.body.source, SKILL.body.fact);
    RevivalRace.AcceptanceIsAllowed(rows, e.body.evidence, Some(OWN.body.source), Some(SKILL.body.fact));
    assert FetchSource(rows, Some(1)) == Ok(Some(OWN.body.source))
           && FetchFact(rows, Some(2)) == Ok(Some(SKILL.body.fact));
    Accepting(rows, e, Some(OWN.body.source), Some(SKILL.body.fact));
    assert plan(rows, ACCEPT.call) == DecisionPlan(rows, ACCEPT.call);
  }

  lemma CapturePlanned(plan: Planner, rows: Rows)
    requires PlansProfiling(plan)
    ensures plan(rows, CAPTURE.call) == Ok(CAPTURE.request)
  {
    assert Utf8("p") == ['p' as nat];
    assert plan(rows, CAPTURE.call) == PlanProfiling(rows, CAPTURE.call);
  }

  lemma PostPlanned(plan: Planner, rows: Rows, n: Judged)
    requires PlansOrdinary(plan) && Has(rows, POSTING)
    ensures plan(rows, Post(n).call) == Ok(Post(n).request)
  {
    assert plan(rows, Post(n).call) == PlanOrdinary(rows, Post(n).call);
  }

  lemma ProposeLands()
    ensures Taken(DB1, PROPOSE) == (DB2, Committed)
  {
    OneCommits(DB1, PROPOSE, Insert(Support(1, EvidenceProposed)));
  }

  lemma AcceptLands()
    ensures Taken(DB2, ACCEPT) == (DB3, Committed)
  {
    assert Z2[3] == Support(1, EvidenceProposed) && Z2[3 := Support(2, Accepted)] == Z3;
    AcceptApplies(Z2);
    OneCommits(DB2, ACCEPT, Update(Support(2, Accepted), 1));
  }

  lemma AcceptApplies(rows: Rows)
    requires 3 in rows && rows[3] == Support(1, EvidenceProposed)
    ensures ApplyOne(rows, Update(Support(2, Accepted), 1)) == Ok(rows[3 := Support(2, Accepted)])
  {
  }

  lemma CaptureLands()
    ensures Taken(DB3, CAPTURE) == (DB4, Committed)
  {
    OneCommits(DB3, CAPTURE, Insert(POSTING));
  }

  lemma InitializeLands()
    ensures Taken(EMPTY, INITIALIZE) == (DB1, Committed)
  {
    var none: Rows := map[];
    FourInsert(WORKSPACE, OWN, SKILL, RubricAt(1));
  }

  lemma FourInsert(a: Entity, b: Entity, c: Entity, d: Entity)
    requires a.id != b.id && a.id != c.id && a.id != d.id && b.id != c.id && b.id != d.id && c.id != d.id
    ensures ApplyAll(map[], [Insert(a), Insert(b), Insert(c), Insert(d)])
         == Ok(map[a.id := a, b.id := b, c.id := c, d.id := d])
  {
    var none: Rows := map[];
    var m, n, o, p := Insert(a), Insert(b), Insert(c), Insert(d);
    TwoApply(none, m, n);
    NextApplies(none, [m, n], o);
    assert [m, n] + [o] == [m, n, o];
    NextApplies(none, [m, n, o], p);
    assert [m, n, o] + [p] == [m, n, o, p];
    assert none[a.id := a][b.id := b][c.id := c][d.id := d] == map[a.id := a, b.id := b, c.id := c, d.id := d];
  }

  lemma SupportHas()
    ensures Has(Z2, OWN) && Has(Z2, SKILL) && Has(Z2, Support(1, EvidenceProposed))
    ensures RevivalRace.NothingRejected(Z2)
  {
  }

  lemma SupportedTold(plan: Planner)
    requires PlansProfiling(plan) && PlansProposals(plan)
    ensures Telling(plan, SUPPORTED, 2, DB2)
  {
    Beginning(plan);
    InitializePlanned(plan);
    InitializeLands();
    Tell(plan, BEGINNING, INITIALIZE, EMPTY, DB1);
    ProposePlanned(plan, Z1);
    ProposeLands();
    Tell(plan, Then(BEGINNING, INITIALIZE, DB1), PROPOSE, DB1, DB2);
  }

  lemma ProfileTold(plan: Planner)
    requires PlansProfiling(plan) && PlansProposals(plan) && PlansDecisions(plan)
    ensures Telling(plan, PROFILE, 4, DB4)
  {
    SupportedTold(plan);
    SupportHas();
    AcceptPlanned(plan, Z2);
    AcceptLands();
    Tell(plan, SUPPORTED, ACCEPT, DB2, DB3);
    CapturePlanned(plan, Z3);
    CaptureLands();
    Tell(plan, Then(SUPPORTED, ACCEPT, DB3), CAPTURE, DB3, DB4);
  }

  // ---------- the postings ----------

  ghost predicate HasSetting(rows: Rows) { HasProfile(rows) && Has(rows, RubricAt(1)) && Has(rows, POSTING) }

  ghost predicate HasPosting(rows: Rows, m: Judged, n: nat) {
    if m < n then Has(rows, Posted(m, 1, Captured)) else 20 + m !in rows
  }

  /** The postings before `n` are captured, and there is nothing else but the profile. */
  ghost predicate PostedBefore(rows: Rows, n: nat) {
    4 <= n <= 7 && (forall m: Judged :: HasPosting(rows, m, n)) && OnlySetting(rows)
  }

  ghost predicate OnlySetting(rows: Rows) { forall id :: id in rows ==> id <= 3 || 24 <= id <= 32 }

  function WhenPosted(rows: Rows, n: Judged): Rows { rows[20 + n := Posted(n, 1, Captured)] }

  function AfterPost(db: Db, n: Judged): Db { Landed(db, Post(n), WhenPosted(db.rows, n)) }

  lemma PostedNext(rows: Rows, n: Judged)
    requires PostedBefore(rows, n)
    ensures PostedBefore(WhenPosted(rows, n), n + 1)
  {
    var after, next := WhenPosted(rows, n), n + 1;
    forall m: Judged
      ensures HasPosting(after, m, next)
    {
      PostingNext(rows, m, n);
    }
  }

  lemma PostingNext(rows: Rows, m: Judged, n: Judged)
    requires PostedBefore(rows, n)
    ensures HasPosting(WhenPosted(rows, n), m, n + 1)
  {
    assert HasPosting(rows, m, n);
  }

  lemma SettingKept(rows: Rows, n: Judged)
    requires HasSetting(rows)
    ensures HasSetting(WhenPosted(rows, n))
  {
  }

  lemma PostLands(db: Db, n: Judged)
    requires 20 + n !in db.rows && n !in db.receipts
    ensures Taken(db, Post(n)) == (AfterPost(db, n), Committed)
  {
    OneCommits(db, Post(n), Insert(Posted(n, 1, Captured)));
  }

  lemma PostTold(plan: Planner, story: Story, db: Db, n: Judged)
    requires PlansOrdinary(plan) && Telling(plan, story, n, db) && KeysBelow(db, n)
    requires Has(db.rows, POSTING) && 20 + n !in db.rows
    ensures Telling(plan, Then(story, Post(n), AfterPost(db, n)), n + 1, AfterPost(db, n))
    ensures KeysBelow(AfterPost(db, n), n + 1)
  {
    PostPlanned(plan, db.rows, n);
    PostLands(db, n);
    Tell(plan, story, Post(n), db, AfterPost(db, n));
    Landing(db, Post(n), WhenPosted(db.rows, n), n);
  }

  /** The store is ready for the posting `n`. */
  ghost predicate Posting(db: Db, n: nat) {
    PostedBefore(db.rows, n) && HasSetting(db.rows) && NoComparisons(db.rows) && KeysBelow(db, n)
  }

  lemma OnePosting(plan: Planner, story: Story, db: Db, n: Judged) returns (next: Story, after: Db)
    requires PlansOrdinary(plan) && Telling(plan, story, n, db) && Posting(db, n)
    ensures Telling(plan, next, n + 1, after) && Posting(after, n + 1)
  {
    next, after := Then(story, Post(n), AfterPost(db, n)), AfterPost(db, n);
    PlaceFree(db.rows, n);
    PostTold(plan, story, db, n);
    RowsPosted(db.rows, n);
  }

  lemma PlaceFree(rows: Rows, n: Judged)
    requires PostedBefore(rows, n)
    ensures 20 + n !in rows
  {
    assert HasPosting(rows, n, n);
  }

  lemma RowsPosted(rows: Rows, n: Judged)
    requires PostedBefore(rows, n) && HasSetting(rows) && NoComparisons(rows)
    ensures var after := WhenPosted(rows, n); PostedBefore(after, n + 1) && HasSetting(after) && NoComparisons(after)
  {
    PostedNext(rows, n);
    SettingKept(rows, n);
    StillNone(rows, Posted(n, 1, Captured));
  }

  lemma SettingHas()
    ensures HasSetting(Z4)
  {
  }

  lemma SettingNone()
    ensures NoComparisons(Z4)
  {
    StillNone(map[], WORKSPACE);
    StillNone(map[30 := WORKSPACE], OWN);
    StillNone(map[30 := WORKSPACE][1 := OWN], SKILL);
    StillNone(map[30 := WORKSPACE][1 := OWN][2 := SKILL], RubricAt(1));
    assert map[30 := WORKSPACE][1 := OWN][2 := SKILL][31 := RubricAt(1)] == Z1;
    StillNone(Z1, Support(2, Accepted));
    StillNone(Z3, POSTING);
  }

  lemma NothingPosted()
    ensures PostedBefore(Z4, 4)
  {
    var rows := Z4;
    assert rows.Keys == {30, 1, 2, 31, 3, 32};
    NoneOfThese(rows);
  }

  lemma NoneOfThese(rows: Rows)
    requires rows.Keys == {30, 1, 2, 31, 3, 32}
    ensures PostedBefore(rows, 4)
  {
  }

  lemma FirstKeys()
    ensures KeysBelow(DB4, 4)
  {
    Landing(EMPTY, INITIALIZE, Z1, 0);
    Landing(DB1, PROPOSE, Z2, 1);
    Landing(DB2, ACCEPT, Z3, 2);
    Landing(DB3, CAPTURE, Z4, 3);
  }

  lemma AllPosted(rows: Rows)
    requires PostedBefore(rows, 7) && HasSetting(rows)
    ensures Prepared(rows, 4)
  {
    forall m: Judged
      ensures DoneBefore(rows, m, 4)
    {
      assert HasPosting(rows, m, 7);
    }
  }

  lemma PostingsTold(plan: Planner) returns (story: Story, db: Db)
    requires PlansProfiling(plan) && PlansProposals(plan) && PlansDecisions(plan) && PlansOrdinary(plan)
    ensures Telling(plan, story, 7, db) && KeysBelow(db, 7) && Prepared(db.rows, 4) && NoComparisons(db.rows)
  {
    ProfileTold(plan);
    NothingPosted();
    FirstKeys();
    SettingHas();
    SettingNone();
    story, db := OnePosting(plan, PROFILE, DB4, 4);
    story, db := OnePosting(plan, story, db, 5);
    story, db := OnePosting(plan, story, db, 6);
    AllPosted(db.rows);
  }

  /** Plans all that comes before the race. */
  ghost predicate PlansPreparation(plan: Planner) {
    && PlansProfiling(plan) && PlansProposals(plan) && PlansDecisions(plan) && PlansOrdinary(plan)
    && PlansOperations(plan) && PlansCompletions(plan)
  }

  lemma EvaluationsTold(plan: Planner) returns (story: Story, db: Db)
    requires PlansPreparation(plan)
    ensures Telling(plan, story, 19, db) && KeysBelow(db, 19) && Prepared(db.rows, 7) && NoComparisons(db.rows)
  {
    story, db := PostingsTold(plan);
    story, db := OneEvaluation(plan, story, db, 4);
    story, db := OneEvaluation(plan, story, db, 5);
    story, db := OneEvaluation(plan, story, db, 6);
  }

  // ---------- the race ----------

  const COMPARER := Entity(9, 1, OfOperation(Operation(
    OtherWork(0), Some(24), Some(3), Some(OfRecord(Posted(4, 3, Evaluated))), Some(7), None, Queued, Rlm, None, 19,
    None, [], [], None)))
  const ENGAGE := Says(19, BySession(9), AdmitOperation(9, OtherWork(0), 24, Rlm, 7, None), [Insert(COMPARER)],
                       [Event(9, 1, DshAgent)])

  const COMPARISON := FreshnessRace.Proposal(BySession(9), 9, 40, [4, 5, 6], [map["fit" := 10_000]])
  const AMENDMENT := FreshnessRace.Amendment(BY_USER, 2, 1, PText("irish"), Locator(1, 0, 3, "ada"), 41, 21)

  /** The turns 20 and 21 have both read these rows. */
  function Compare(rows: Rows): Turn {
    Turn(Call(BySession(9), ProposeComparison(9, 40, [4, 5, 6], [map["fit" := 10_000]]), true, 20, 20), 20,
         Submitted(FreshnessRace.Propose(rows, COMPARISON)), 20, 20)
  }

  function Correct(rows: Rows): Turn {
    Turn(Call(BY_USER, CorrectFact(2, 1, PText("irish"), Locator(1, 0, 3, "ada"), 41), true, 21, 21), 20,
         Submitted(FreshnessRace.Amend(rows, AMENDMENT)), 21, 21)
  }

  lemma EngagePlanned(plan: Planner, rows: Rows)
    requires PlansOperations(plan) && Has(rows, Posted(4, 3, Evaluated))
    ensures plan(rows, ENGAGE.call) == Ok(ENGAGE.request)
  {
    PlannedAs(plan, rows, ENGAGE.call, Ok(ENGAGE.request));
  }

  /** All evaluations are completed. */
  ghost predicate AllEvaluated(rows: Rows) {
    HasProfile(rows) && HasEvaluation(rows, 4) && HasEvaluation(rows, 5) && HasEvaluation(rows, 6)
      && Has(rows, COMPARER)
  }

  lemma EngagedRows(rows: Rows)
    requires Prepared(rows, 7)
    ensures AllEvaluated(rows[9 := COMPARER]) && Has(rows, Posted(4, 3, Evaluated))
  {
    assert DoneBefore(rows, 4, 7) && DoneBefore(rows, 5, 7) && DoneBefore(rows, 6, 7);
  }

  lemma EngagedTold(plan: Planner) returns (story: Story, db: Db)
    requires PlansPreparation(plan)
    ensures Telling(plan, story, 20, db) && KeysBelow(db, 20) && AllEvaluated(db.rows) && NoComparisons(db.rows)
    ensures 40 !in db.rows && 41 !in db.rows
  {
    var before, was := EvaluationsTold(plan);
    story, db := Engage(plan, before, was);
  }

  lemma Engage(plan: Planner, before: Story, was: Db) returns (story: Story, db: Db)
    requires PlansOperations(plan) && Telling(plan, before, 19, was) && KeysBelow(was, 19)
    requires Prepared(was.rows, 7) && NoComparisons(was.rows)
    ensures Telling(plan, story, 20, db) && KeysBelow(db, 20) && AllEvaluated(db.rows) && NoComparisons(db.rows)
    ensures 40 !in db.rows && 41 !in db.rows
  {
    db := Landed(was, ENGAGE, was.rows[9 := COMPARER]);
    story := Then(before, ENGAGE, db);
    EngagedRows(was.rows);
    EngagePlanned(plan, was.rows);
    OneCommits(was, ENGAGE, Insert(COMPARER));
    Tell(plan, before, ENGAGE, was, db);
    Landing(was, ENGAGE, db.rows, 19);
    StillNone(was.rows, COMPARER);
  }

  lemma EvaluationRead(rows: Rows, n: Judged)
    requires HasEvaluation(rows, n)
    ensures IsCurrentEvaluation(rows, n) && IsSemantic(rows, n) && Keys(rows[n].body.evaluation.scores) == ["fit"]
  {
  }

  lemma Projectable(rows: Rows, a: EntityId, b: EntityId, c: EntityId, keys: seq<string>)
    requires a != b && a != c && b != c
    requires IsCurrentEvaluation(rows, a) && IsSemantic(rows, a) && Keys(rows[a].body.evaluation.scores) == keys
    requires IsCurrentEvaluation(rows, b) && IsSemantic(rows, b) && Keys(rows[b].body.evaluation.scores) == keys
    requires IsCurrentEvaluation(rows, c) && IsSemantic(rows, c) && Keys(rows[c].body.evaluation.scores) == keys
    ensures ComparisonProjections(rows, [a, b, c]).Ok?
  {
  }

  lemma ProjectionsRead(rows: Rows)
    requires AllEvaluated(rows)
    ensures ComparisonProjections(rows, [4, 5, 6]).Ok? && 4 in rows && rows[4].body.OfEvaluation?
    ensures Keys(rows[4].body.evaluation.scores) == ["fit"]
  {
    EvaluationRead(rows, 4);
    EvaluationRead(rows, 5);
    EvaluationRead(rows, 6);
    Projectable(rows, 4, 5, 6, ["fit"]);
  }

  lemma ScenarioRuns(inputs: seq<ComparisonInput>)
    ensures RunScenarios(["fit"], inputs, [map["fit" := 10_000]]).Ok?
  {
    var weights: map<string, nat> := map["fit" := 10_000];
    assert ["fit"][1..] == [] && [weights][1..] == [];
    assert WeightSum(["fit"], weights) == 10_000;
    assert weights.Keys == (set k | k in ["fit"]);
    assert RunScenario(["fit"], inputs, weights).Ok?;
    assert RunScenarios(["fit"], inputs, []) == Ok([]);
  }

  lemma Comparable(rows: Rows, p: FreshnessRace.Proposal, operation: Entity)
    requires AuthorizeOperation(rows, p.ctx, p.operation) == Ok(operation) && operation.body.OfOperation?
    requires operation.body.operation.route.Rlm? && operation.body.operation.state.Queued?
    requires 0 < |p.scenarios| <= 8 && ComparisonProjections(rows, p.evaluations).Ok?
    requires RunScenarios(Keys(rows[p.evaluations[0]].body.evaluation.scores),
                          ComparisonProjections(rows, p.evaluations).value, p.scenarios).Ok?
    ensures FreshnessRace.Propose(rows, p).Ok?
  {
  }

  lemma ComparerIsAuthorized(rows: Rows)
    requires Has(rows, COMPARER)
    ensures AuthorizeOperation(rows, BySession(9), 9) == Ok(COMPARER)
  {
  }

  lemma ComparisonIsPlanned(rows: Rows)
    requires AllEvaluated(rows)
    ensures FreshnessRace.Propose(rows, COMPARISON).Ok?
  {
    ComparerIsAuthorized(rows);
    ProjectionsRead(rows);
    ScenarioRuns(ComparisonProjections(rows, [4, 5, 6]).value);
    Comparable(rows, COMPARISON, COMPARER);
  }

  lemma QuoteIsThere(rows: Rows, l: Locator)
    requires Has(rows, OWN) && l == Locator(1, 0, 3, "ada")
    ensures CheckLocators(rows, [l], true).Ok?
  {
    assert Slice(CLAIM, 0, 3) == "ada";
    assert CheckLocators(rows, [l][1..], true) == Ok(());
  }

  lemma AmendmentIsPlanned(rows: Rows)
    requires HasProfile(rows)
    ensures FreshnessRace.Amend(rows, AMENDMENT).Ok?
  {
    QuoteIsThere(rows, AMENDMENT.locator);
    assert Correctable(rows, 2, 1, AMENDMENT.locator).Ok?;
  }

  lemma EvaluationUsesSkill(rows: Rows)
    requires AllEvaluated(rows)
    ensures EvaluationDepends(rows, 2, 4)
  {
    assert 3 in rows[4].body.evaluation.acceptedEvidence && DependsOnFact(rows, 2, 3);
  }

  lemma RowsAreRacing(rows: Rows)
    requires AllEvaluated(rows) && NoComparisons(rows) && 40 !in rows && 41 !in rows
    ensures FreshnessRace.Racing(rows, COMPARISON, AMENDMENT) && Fresh(rows)
  {
    ComparisonIsPlanned(rows);
    AmendmentIsPlanned(rows);
    EvaluationUsesSkill(rows);
    assert 4 in COMPARISON.evaluations;
  }

  lemma ComparePlanned(plan: Planner, rows: Rows)
    requires PlansComparisons(plan) && FreshnessRace.Propose(rows, COMPARISON).Ok?
    ensures plan(rows, Compare(rows).call) == Ok(Compare(rows).request)
  {
    assert plan(rows, Compare(rows).call) == ComparisonPlan(rows, Compare(rows).call);
  }

  lemma CorrectPlanned(plan: Planner, rows: Rows)
    requires PlansCorrections(plan) && FreshnessRace.Amend(rows, AMENDMENT).Ok?
    ensures plan(rows, Correct(rows).call) == Ok(Correct(rows).request)
  {
    assert plan(rows, Correct(rows).call) == CascadePlan(rows, Correct(rows).call);
  }

  lemma RaceTold(plan: Planner) returns (race: Story, db: Db, mid: Db, end: Db)
    requires PlansPreparation(plan) && PlansComparisons(plan) && PlansCorrections(plan)
    ensures Telling(plan, race, 22, end) && race.turns[20..] == [Compare(db.rows), Correct(db.rows)]
    ensures race.states[20..] == [db, mid, end] && KeysBelow(db, 20)
    ensures mid == Taken(db, Compare(db.rows)).0 && end == Taken(mid, Correct(db.rows)).0
    ensures FreshnessRace.Racing(db.rows, COMPARISON, AMENDMENT) && Fresh(db.rows)
  {
    var story;
    story, db := EngagedTold(plan);
    RowsAreRacing(db.rows);
    ComparePlanned(plan, db.rows);
    CorrectPlanned(plan, db.rows);
    race, mid, end := TellBoth(plan, story, Compare(db.rows), Correct(db.rows), db);
  }

  lemma BothCommit(db: Db)
    requires FreshnessRace.Racing(db.rows, COMPARISON, AMENDMENT) && KeysBelow(db, 20)
    ensures Taken(db, Compare(db.rows)).1 == Committed
    ensures var (end, reply) := Taken(Taken(db, Compare(db.rows)).0, Correct(db.rows));
      reply == Committed && !Fresh(end.rows)
  {
    FreshnessRace.RaceLeavesStale(db, COMPARISON, AMENDMENT, 20, 21, 20, 21);
  }

  /**
   The race happens. There is a run of the commands in whose state 20, which is fresh, a
   comparison and a correction are both planned; both commit, and the comparison is left on
   a stale evaluation.
   */
  lemma RaceHappens(plan: Planner) returns (race: Story, db: Db, mid: Db, end: Db)
    requires PlansPreparation(plan) && PlansComparisons(plan) && PlansCorrections(plan)
    ensures Script(race.turns, race.states) && ValidWork(plan, WorkOf(race.turns, race.states))
    ensures |race.turns| == 22 && race.turns[20..] == [Compare(db.rows), Correct(db.rows)]
    ensures race.states[20..] == [db, mid, end]
    ensures FreshnessRace.Racing(db.rows, COMPARISON, AMENDMENT) && Fresh(db.rows)
    ensures Taken(db, Compare(db.rows)) == (mid, Committed) && Taken(mid, Correct(db.rows)) == (end, Committed)
    ensures !Fresh(end.rows)
  {
    race, db, mid, end := RaceTold(plan);
    StoryIsWork(plan, race, 22, end);
    BothCommit(db);
  }
}
