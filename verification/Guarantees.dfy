/**
 What the commands of `WorkbenchService` guarantee together. The theorems about runs
 hold of every run that calls of a proper planner drive, and the commands are one.
 */
module Guarantees {
  import opened Domain
  import opened Store
  import opened Lifecycle
  import opened Runs
  import opened ApprovalCommands
  import opened Workbench
  import opened Replays
  import opened Approvals
  import opened FactChains
  import opened CascadeClosure
  import opened Settlement
  import opened Revival
  import opened Freshness
  import opened Quotas
  import opened Locators

  // ---------- what single calls have checked ----------

  /** Capturing or uploading a source says nothing about facts. */
  lemma SourceCall(rows: Rows, call: Call)
    requires call.command.CaptureSource? || call.command.UploadSource?
    ensures PlanProfiling(rows, call).Ok? ==> QuotesChecked(rows, PlanProfiling(rows, call).value)
  {
  }

  lemma ProfilingCall(rows: Rows, call: Call)
    requires LicenceOf(call.command).Profiling?
    ensures PlanProfiling(rows, call).Ok? ==> QuotesChecked(rows, PlanProfiling(rows, call).value)
  {
    var ctx, ok, now := call.ctx, call.wellFormed, call.now;
    match call.command
    case Initialize(workspace, specs, source, facts, rubric) =>
      InitializationChecked(rows, ctx, workspace, specs, source, facts, rubric, ok, now);
    case AddCareerHistory(specs, source, facts) => HistoryChecked(rows, ctx, specs, source, facts, ok);
    case ApplyImport(input, ids) => ImportChecked(rows, ctx, input, ids);
    case ProposeFact(id, spec, locators, proposedBy) => ProposalChecked(rows, ctx, id, spec, locators, proposedBy, ok);
    case _ => SourceCall(rows, call);
  }

  /** All the checks that the theorems about runs rest on, made on the rows read. */
  ghost predicate AllChecked(view: Rows, request: Request, licence: Licence) {
    && (licence.Deciding? ==> Checked(view, request))
    && (licence.Comparing? ==> InputsRead(view, request))
    && (licence.Cascading? && request.mutations != [] ==> CascadesFrom(view, request, request.mutations[0].entity.id))
    && (licence.Recording? && request.mutations != [] ==> RecordsOneLead(view, request))
    && (TouchesFacts(licence) ==> QuotesChecked(view, request))
  }

  lemma DecidingChecked(rows: Rows, call: Call)
    requires call.command.DecideEvidence? && Keyed(rows)
    ensures AllChecked(rows, Submitted(DecisionPlan(rows, call)), Deciding)
  {
    var c := call.command;
    DecisionChecked(rows, call.ctx, c.id, c.expected, c.accept, call.wellFormed);
  }

  lemma ComparingChecked(rows: Rows, call: Call)
    requires call.command.ProposeComparison? && Keyed(rows)
    ensures AllChecked(rows, Submitted(ComparisonPlan(rows, call)), Comparing)
  {
    var c := call.command;
    ProposalReadsInputs(rows, call.ctx, c.comparedBy, c.id, c.evaluations, c.scenarios, call.wellFormed);
  }

  lemma CascadingChecked(rows: Rows, call: Call)
    requires call.command.CorrectFact? && Keyed(rows)
    ensures AllChecked(rows, Submitted(CascadePlan(rows, call)), Cascading)
  {
    var c := call.command;
    CorrectionCascades(rows, call.ctx, c.id, c.expected, c.value, c.locator, c.newId, call.now);
    CorrectionChecked(rows, call.ctx, c.id, c.expected, c.value, c.locator, c.newId, call.now);
  }

  lemma RecordingChecked(rows: Rows, call: Call)
    requires call.command.RecordLead? && Keyed(rows)
    ensures AllChecked(rows, Submitted(RecordingPlan(rows, call)), Recording)
  {
    var c := call.command;
    LeadRequestRecords(rows, call.ctx, c.source, c.lead, c.leadInput);
  }

  lemma LinkingChecked(rows: Rows, call: Call)
    requires call.command.ConfirmFact?
    ensures AllChecked(rows, Submitted(ConfirmationPlan(rows, call)), Linking)
  {
    var c := call.command;
    ConfirmationChecked(rows, call.ctx, c.id, c.expected, c.outcome, c.newId, call.now);
  }

  lemma ProfilingChecked(rows: Rows, call: Call)
    requires LicenceOf(call.command).Profiling?
    ensures AllChecked(rows, Submitted(PlanProfiling(rows, call)), Profiling)
  {
    ProfilingCall(rows, call);
  }

  /** What consumes an approval has seen it unexpired. */
  lemma ConsumingCall(rows: Rows, call: Call)
    requires LicenceOf(call.command).Consuming?
    ensures SeenUnexpired(Submitted(PlanConsuming(rows, call)), call.clock)
  {
    var ctx, ok, clock, now := call.ctx, call.wellFormed, call.clock, call.now;
    match call.command
    case AcceptComparison(id, expected, consumption) =>
      AcceptanceUnexpired(rows, ctx, id, expected, consumption, clock, now);
    case TransitionApplication(id, expected, details, consumption) =>
      TransitionUnexpired(rows, ctx, id, expected, details, consumption, ok, clock);
    case ReviewDraft(id, expected, consumption) => ReviewUnexpired(rows, ctx, id, expected, consumption, clock);
  }

  // ---------- proper planners ----------

  ghost predicate CheckedPlanner(plan: Planner) {
    forall rows, call :: Keyed(rows) ==> AllChecked(rows, Submitted(plan(rows, call)), LicenceOf(call.command))
  }

  ghost predicate TimelyPlanner(plan: Planner) {
    forall rows: Rows, call: Call :: LicenceOf(call.command).Consuming? ==>
        SeenUnexpired(Submitted(plan(rows, call)), call.clock)
  }

  /** A planner whose requests are sound, checked on the rows read, and consume no approval that has lapsed. */
  ghost predicate Proper(plan: Planner) { SoundPlanner(plan) && CheckedPlanner(plan) && TimelyPlanner(plan) }

  lemma PlanChecked(rows: Rows, call: Call)
    requires Keyed(rows)
    ensures AllChecked(rows, Submitted(Plan(rows, call)), LicenceOf(call.command))
  {
    match LicenceOf(call.command)
    case Deciding => DecidingChecked(rows, call);
    case Comparing => ComparingChecked(rows, call);
    case Cascading => CascadingChecked(rows, call);
    case Recording => RecordingChecked(rows, call);
    case Linking => LinkingChecked(rows, call);
    case Profiling => ProfilingChecked(rows, call);
    case _ =>
  }

  lemma PlanIsChecked()
    ensures CheckedPlanner(Plan)
  {
    forall rows, call | Keyed(rows)
      ensures AllChecked(rows, Submitted(Plan(rows, call)), LicenceOf(call.command))
    {
      PlanChecked(rows, call);
    }
  }

  lemma PlanIsTimely()
    ensures TimelyPlanner(Plan)
  {
    forall rows: Rows, call: Call | LicenceOf(call.command).Consuming?
      ensures SeenUnexpired(Submitted(Plan(rows, call)), call.clock)
    {
      ConsumingCall(rows, call);
      ConsumingPlanned(rows, call);
    }
  }

  lemma ConsumingPlanned(rows: Rows, call: Call)
    requires LicenceOf(call.command).Consuming?
    ensures Plan(rows, call) == PlanConsuming(rows, call)
  {
    assert PlanOf(Consuming, rows, call) == PlanConsuming(rows, call);
  }

  /** The commands of `WorkbenchService` are a proper planner: the theorems below hold of them. */
  lemma PlanIsProper()
    ensures Proper(Plan)
  {
    PlanIsSound();
    PlanIsChecked();
    PlanIsTimely();
  }

  // ---------- the theorems about runs of calls ----------

  lemma SubmissionChecked(plan: Planner, work: Work, i: nat)
    requires Proper(plan) && ValidWork(plan, work) && i < |work.calls|
    ensures var s := work.run.submissions[i]; AllChecked(s.view, s.request, s.licence)
  {
    WorkIsValid(plan, work);
    ViewOfRun(work.run, i);
    assert Issued(plan, work, i);
    var s := work.run.submissions[i];
    assert AllChecked(s.view, Submitted(plan(s.view, work.calls[i])), s.licence);
  }

  /** The calls of any run have made every check on the rows they read. */
  lemma WorkIsChecked(plan: Planner, work: Work)
    requires Proper(plan) && ValidWork(plan, work)
    ensures ValidRun(work.run)
    ensures DecisionsChecked(work.run) && ReadsKept(work.run) && RecordingsChecked(work.run)
            && QuotationsChecked(work.run)
  {
    WorkIsValid(plan, work);
    forall i | 0 <= i < |work.calls|
      ensures var s := work.run.submissions[i]; AllChecked(s.view, s.request, s.licence)
    {
      SubmissionChecked(plan, work, i);
    }
  }

  /**
   Every state that calls can reach, whatever is interleaved, repeated under one key or
   stopped half-way: consumed approvals match their effects and were granted by the user,
   facts form chains without cycles, settled operations are dated, completed evaluations
   belong each to a succeeded operation of its own, and facts quote their sources.
   */
  lemma EveryReachableState(plan: Planner, work: Work, i: nat)
    requires Proper(plan) && ValidWork(plan, work) && i < |work.run.states|
    ensures ReachableInvariant(work.run.states[i])
  {
    WorkIsChecked(plan, work);
    ConsumptionMatchesEffect(work.run, i);
    ApprovalsAreGrantedByTheUser(work.run, i);
    FactsFormChains(work.run, i);
    ChainsAreAcyclic(work.run, i);
    EvaluationsConclude(work.run, i);
    FactsQuoteTheirSources(work.run, i);
  }

  ghost predicate ReachableInvariant(db: Db) {
    Matched(db.rows) && UserGranted(db) && Linked(db.rows) && Acyclic(db.rows) && Orderly(db.rows)
      && Supported(db.rows)
  }

  /** The log accounts for every revision, and every completed evaluation is the one result of its operation. */
  ghost predicate WellRecorded(db: Db) { Accounted(db.rows, db.log) && AllYielded(db.rows) }

  /** With commands run one at a time, live comparisons are fresh and the discovery quotas hold. */
  lemma EverySerialState(plan: Planner, work: Work, i: nat)
    requires Proper(plan) && ValidWork(plan, work) && Serial(work.run) && i < |work.run.states|
    ensures Fresh(work.run.states[i].rows) && Within(work.run.states[i].rows)
  {
    WorkIsChecked(plan, work);
    LiveComparisonsAreFresh(work.run, i);
    QuotasHold(work.run, i);
  }

  /** Of the commands themselves: what holds in every state that they reach. */
  lemma EveryStateOfTheCommands(work: Work, i: nat)
    requires ValidWork(Plan, work) && i < |work.run.states|
    ensures ReachableInvariant(work.run.states[i])
  {
    PlanIsProper();
    EveryReachableState(Plan, work, i);
  }

  /** What holds exactly as long as no completion commits whose call got its admission from a replay. */
  lemma RecordsOfTheCommands(work: Work, i: nat)
    requires ValidWork(Plan, work) && DrawsFresh(work) && i < |work.run.states|
    ensures WellRecorded(work.run.states[i]) <==> NoReplayCompletes(work, i)
  {
    PlanIsSound();
    PlanContinues();
    RecordsHoldExactly(Plan, work, i);
  }

  /** And what holds with commands run one at a time. */
  lemma SerialStatesOfTheCommands(work: Work, i: nat)
    requires ValidWork(Plan, work) && Serial(work.run) && i < |work.run.states|
    ensures Fresh(work.run.states[i].rows) && Within(work.run.states[i].rows)
  {
    PlanIsProper();
    EverySerialState(Plan, work, i);
  }

  /**
   Under any interleaving, what was rejected is accepted later under the same identity
   only after a correction by the user, or by a call that had listed the evidence before
   the rejection was committed.
   */
  lemma RevivalsWereRaces(plan: Planner, work: Work, i: nat, j: nat, rejected: EntityId, accepted: EntityId)
    requires Proper(plan) && ValidWork(plan, work) && EvidenceListed(work.run) && i <= j < |work.run.states|
    requires IsRejected(work.run.states[i].rows, rejected) && !IsAccepted(work.run.states[i].rows, accepted)
    requires IsAccepted(work.run.states[j].rows, accepted) && SameIdentity(work.run.states[j].rows, rejected, accepted)
    ensures CorrectedSince(work.run.states[j].rows, accepted, rejected)
            || exists t, k :: 0 <= t <= k < j && Race(work.run, i, t, k, accepted, rejected)
  {
    WorkIsChecked(plan, work);
    RevivedOnlyByRace(work.run, i, j, rejected, accepted);
  }

  /** The same without a word on lists: the acceptance had not read the rejection. */
  lemma RevivalsWereUnaware(plan: Planner, work: Work, i: nat, j: nat, rejected: EntityId, accepted: EntityId)
    requires Proper(plan) && ValidWork(plan, work) && i <= j < |work.run.states|
    requires IsRejected(work.run.states[i].rows, rejected) && !IsAccepted(work.run.states[i].rows, accepted)
    requires IsAccepted(work.run.states[j].rows, accepted) && SameIdentity(work.run.states[j].rows, rejected, accepted)
    ensures CorrectedSince(work.run.states[j].rows, accepted, rejected)
            || exists k :: i <= k < j && AcceptsUnaware(work.run, k, accepted, rejected)
  {
    WorkIsChecked(plan, work);
    RevivedOnlyUnaware(work.run, i, j, rejected, accepted);
  }

  /**
   With commands run one at a time, what was rejected is not accepted later under the same
   identity, corrections apart.
   */
  lemma RejectionsAreRemembered(plan: Planner, work: Work, i: nat, j: nat, rejected: EntityId, accepted: EntityId)
    requires Proper(plan) && ValidWork(plan, work) && Serial(work.run) && i <= j < |work.run.states|
    requires IsRejected(work.run.states[i].rows, rejected) && !IsAccepted(work.run.states[i].rows, accepted)
    requires IsAccepted(work.run.states[j].rows, accepted) && SameIdentity(work.run.states[j].rows, rejected, accepted)
    ensures CorrectedSince(work.run.states[j].rows, accepted, rejected)
  {
    WorkIsChecked(plan, work);
    RejectionIsRemembered(work.run, i, j, rejected, accepted);
  }

  /** Every approval that is consumed was unexpired by the clock of the call that consumes it. */
  lemma ConsumedUnexpired(plan: Planner, work: Work, i: nat, x: EntityId)
    requires Proper(plan) && ValidWork(plan, work) && i < |work.calls| && ConsumedAt(work.run, i, x)
    ensures work.calls[i].clock < work.run.states[i + 1].rows[x].body.approval.expiresAt
  {
    WorkIsValid(plan, work);
    StepOfRun(work.run, i);
    assert Issued(plan, work, i);
    var call, s := work.calls[i], work.run.submissions[i];
    ConsumingWrite(s, work.run.states[i].rows, work.run.states[i + 1].rows, x);
    assert SeenUnexpired(Submitted(plan(s.view, call)), call.clock);
  }

  lemma ConsumingWrite(s: Submission, before: Rows, after: Rows, x: EntityId)
    requires Stepped(s, before, after) && !IsConsumed(before, x) && IsConsumed(after, x)
    ensures s.licence.Consuming? && exists m :: m in s.request.mutations && Consumes(m) && m.entity == after[x]
  {
    var k := WriteOf(s, before, after, x);
    assert Consumes(s.request.mutations[k]);
    EffectNeedsLicence(s.view, s.request.mutations[k], s.licence);
  }
}
