/**
 All the commands of `WorkbenchService` as one transition system.

 A step is a call with the rows it has read, followed by its commit. In a run
 with interleaving, each row of a step's view was read at some earlier moment,
 possibly a different one for each row, and any commits may have come between.
 In a serial run every view is the current state.
 */
module Workbench {
  import opened Domain
  import opened Store
  import opened Lifecycle
  import opened Runs
  import opened ProfileCommands
  import opened OperationCommands
  import opened DiscoveryCommands
  import opened ApprovalCommands
  import opened ImportCommands

  datatype Command =
    | Initialize(workspace: EntityId, specs: seq<FactSpec>, source: EntityId, factIds: seq<EntityId>,
                 rubricId: Option<EntityId>)
    | CaptureSource(id: EntityId, kind: SourceKind, trust: TrustClass, text: string, fromSetup: bool)
    | UploadSource(artifact: EntityId, source: EntityId, bytes: seq<nat>, text: string)
    | AddCareerHistory(specs: seq<FactSpec>, source: EntityId, factIds: seq<EntityId>)
    | ProposeFact(id: EntityId, spec: FactSpec, locators: seq<Locator>, proposedBy: ProposedBy)
    | ConfirmFact(id: EntityId, expected: nat, outcome: FactOutcome, newId: EntityId)
    | CorrectFact(id: EntityId, expected: nat, value: Primitive, locator: Locator, newId: EntityId)
    | ProposeEvidence(id: EntityId, classification: Classification, claim: string, sourceId: Option<EntityId>,
                      cited: Option<Locator>, fact: Option<EntityId>, operation: Option<EntityId>)
    | DecideEvidence(id: EntityId, expected: nat, accept: bool)
    | UpsertSearchProfile(id: EntityId, expectedProfile: Option<nat>, profile: SearchProfile)
    | RecordLead(source: EntityId, lead: EntityId, leadInput: LeadInput)
    | TriageLead(id: EntityId, expected: nat, decision: LeadState, newId: EntityId)
    | CaptureOpportunity(id: EntityId, source: EntityId, organization: string, url: Option<string>,
                         requisition: Option<string>)
    | UpdateSignals(id: EntityId, expected: nat, signals: nat)
    | CreateRubric(workspace: EntityId, id: EntityId, version: string)
    | AdmitOperation(id: EntityId, work: OperationKind, input: EntityId, route: Route, session: Session,
                     parent: Option<EntityId>)
    | StartOperation(id: EntityId)
    | RecordActivity(id: EntityId, expected: nat, phase: Phase)
    | Reconcile
    | Terminate(id: EntityId, expected: nat, state: OperationState, results: seq<EntityId>, artifacts: seq<EntityId>)
    | RequestCancellation(id: EntityId, expected: nat, direct: bool)
    | RequestFollowup(id: EntityId, expected: nat)
    | AdmitEvaluation(opportunity: EntityId, rubric: EntityId, existing: Option<EntityId>, newOperation: EntityId,
                      newId: EntityId, contradictions: nat)
    | CompleteEvaluation(admission: Admission, evidence: set<EntityId>, scored: Outcome<Scored>)
    | FailEvaluation(admission: Admission)
    | SealReport(id: EntityId, evaluation: EntityId, bytes: seq<nat>)
    | ProposeComparison(comparedBy: EntityId, id: EntityId, evaluations: seq<EntityId>,
                        scenarios: seq<map<string, nat>>)
    | RequestApproval(id: EntityId, effect: EffectKind, target: EntityId, expected: nat, expiresIn: nat,
                      transition: Option<EffectDetails>)
    | DecideApproval(id: EntityId, expected: nat, approve: bool, interaction: nat)
    | AcceptComparison(id: EntityId, expected: nat, consumption: Consumption)
    | CreateApplication(id: EntityId, opportunity: EntityId, effectiveDate: string, note: Option<string>)
    | TransitionApplication(id: EntityId, expected: nat, details: EffectDetails, consumption: Consumption)
    | CreateDraft(id: EntityId, style: nat, opportunity: EntityId, facts: seq<EntityId>, bytes: seq<nat>)
    | ReviewDraft(id: EntityId, expected: nat, consumption: Consumption)
    | ApplyImport(importInput: ImportInput, ids: seq<EntityId>)

  /** `clock` is the reading that an expiry check uses, `now` the later one that is recorded. */
  datatype Call = Call(ctx: Context, command: Command, wellFormed: bool, clock: Timestamp, now: Timestamp)

  /** The family of commands that a command belongs to. */
  function LicenceOf(command: Command): Licence {
    match command
    case Initialize(_, _, _, _, _) => Profiling
    case CaptureSource(_, _, _, _, _) => Profiling
    case UploadSource(_, _, _, _) => Profiling
    case AddCareerHistory(_, _, _) => Profiling
    case ProposeFact(_, _, _, _) => Profiling
    case ApplyImport(_, _) => Profiling
    case ConfirmFact(_, _, _, _) => Linking
    case CorrectFact(_, _, _, _, _) => Cascading
    case ProposeEvidence(_, _, _, _, _, _, _) => Proposing
    case DecideEvidence(_, _, _) => Deciding
    case AdmitOperation(_, _, _, _, _, _) => Operating
    case StartOperation(_) => Operating
    case RecordActivity(_, _, _) => Operating
    case Reconcile => Operating
    case Terminate(_, _, _, _, _) => Operating
    case RequestCancellation(_, _, _) => Operating
    case RequestFollowup(_, _) => Operating
    case AdmitEvaluation(_, _, _, _, _, _) => Operating
    case FailEvaluation(_) => Operating
    case CompleteEvaluation(admission, _, _) => CompletionLicence(admission)
    case ProposeComparison(_, _, _, _) => Comparing
    case RequestApproval(_, _, _, _, _, _) => Requesting
    case AcceptComparison(_, _, _) => Consuming
    case TransitionApplication(_, _, _, _) => Consuming
    case ReviewDraft(_, _, _) => Consuming
    case RecordLead(_, _, _) => Recording
    case TriageLead(_, _, _, _) => Triaging
    case _ => Ordinary
  }

  function PlanProfiling(rows: Rows, call: Call): (r: Outcome<Request>)
    requires LicenceOf(call.command).Profiling?
    ensures Sound(rows, r, Profiling)
  {
    var ctx, ok, now := call.ctx, call.wellFormed, call.now;
    match call.command
    case Initialize(workspace, specs, source, facts, rubric) =>
      var r := PlanInitialize(ctx, workspace, specs, source, facts, rubric, ok, now);
      InsertsOnlySound(rows, r);
      r
    case CaptureSource(id, kind, trust, text, fromSetup) =>
      var r := PlanCaptureSource(ctx, id, kind, trust, text, fromSetup, ok);
      InsertsOnlySound(rows, r);
      r
    case UploadSource(artifact, source, bytes, text) =>
      var r := PlanUploadSource(ctx, artifact, source, bytes, text, ok);
      InsertsOnlySound(rows, r);
      r
    case AddCareerHistory(specs, source, facts) =>
      var r := PlanAddCareerHistory(ctx, specs, source, facts, ok);
      InsertsOnlySound(rows, r);
      r
    case ApplyImport(input, ids) =>
      var r := PlanApplyImport(rows, ctx, input, ids);
      InsertsOnlySound(rows, r);
      r
    case ProposeFact(id, spec, locators, proposedBy) => PlanProposeFact(rows, ctx, id, spec, locators, proposedBy, ok)
  }

  function PlanOperating(rows: Rows, call: Call): (r: Outcome<Request>)
    requires LicenceOf(call.command).Operating?
    ensures Readable(rows, call) ==> Sound(rows, r, Operating)
  {
    var ctx, ok, now := call.ctx, call.wellFormed, call.now;
    match call.command
    case AdmitOperation(id, kind, input, route, session, parent) =>
      PlanAdmitOperation(rows, ctx, id, kind, input, route, session, parent, ok, now)
    case StartOperation(id) => PlanStartOperation(rows, ctx, id, now)
    case RecordActivity(id, expected, phase) => PlanRecordActivity(rows, ctx, id, expected, phase, ok, now)
    case Reconcile => PlanReconcile(rows, ctx, now)
    case Terminate(id, expected, state, results, artifacts) =>
      PlanTerminate(rows, ctx, id, expected, state, results, artifacts, ok, now)
    case RequestCancellation(id, expected, direct) => PlanRequestCancellation(rows, ctx, id, expected, direct, ok, now)
    case RequestFollowup(id, expected) => PlanRequestFollowup(rows, ctx, id, expected, ok, now)
    case AdmitEvaluation(opportunity, rubric, existing, newOperation, newId, contradictions) =>
      PlanAdmitEvaluation(rows, ctx, opportunity, rubric, existing, newOperation, newId, contradictions, now)
    case FailEvaluation(admission) => PlanFailEvaluation(rows, ctx, admission, now)
  }

  function PlanConsuming(rows: Rows, call: Call): (r: Outcome<Request>)
    requires LicenceOf(call.command).Consuming?
    ensures Sound(rows, r, Consuming)
  {
    var ctx, ok, clock, now := call.ctx, call.wellFormed, call.clock, call.now;
    match call.command
    case AcceptComparison(id, expected, consumption) =>
      PlanAcceptComparison(rows, ctx, id, expected, consumption, clock, now)
    case TransitionApplication(id, expected, details, consumption) =>
      PlanTransitionApplication(rows, ctx, id, expected, details, consumption, ok, clock)
    case ReviewDraft(id, expected, consumption) => PlanReviewDraft(rows, ctx, id, expected, consumption, clock)
  }

  function PlanOrdinary(rows: Rows, call: Call): (r: Outcome<Request>)
    requires LicenceOf(call.command).Ordinary?
    ensures Sound(rows, r, Ordinary)
  {
    var ctx, ok, clock := call.ctx, call.wellFormed, call.clock;
    match call.command
    case UpsertSearchProfile(id, expected, profile) => PlanUpsertSearchProfile(rows, ctx, id, expected, profile, ok)
    case CaptureOpportunity(id, source, organization, url, requisition) =>
      PlanCaptureOpportunity(rows, ctx, id, source, organization, url, requisition, ok)
    case UpdateSignals(id, expected, signals) => PlanUpdateSignals(rows, ctx, id, expected, signals)
    case CreateRubric(workspace, id, version) => PlanCreateRubric(rows, ctx, workspace, id, version, ok)
    case SealReport(id, evaluation, bytes) => PlanSealReport(rows, ctx, id, evaluation, bytes)
    case DecideApproval(id, expected, approve, interaction) =>
      PlanDecideApproval(rows, ctx, id, expected, approve, interaction, ok, clock)
    case CreateApplication(id, opportunity, effectiveDate, note) =>
      PlanCreateApplication(rows, ctx, id, opportunity, effectiveDate, note, ok)
    case CreateDraft(id, style, opportunity, facts, bytes) =>
      PlanCreateDraft(rows, ctx, id, style, opportunity, facts, bytes, ok)
  }

  function CompletionPlan(rows: Rows, call: Call): (r: Outcome<Request>)
    requires call.command.CompleteEvaluation?
    ensures var a := call.command.admission; AdmissionRead(rows, a) ==> Sound(rows, r, CompletionLicence(a))
  {
    var c := call.command;
    PlanCompleteEvaluation(rows, call.ctx, c.admission, c.evidence, c.scored, call.now)
  }

  function ConfirmationPlan(rows: Rows, call: Call): (r: Outcome<Request>)
    requires call.command.ConfirmFact?
    ensures Sound(rows, r, Linking)
  {
    var c := call.command;
    PlanConfirmFact(rows, call.ctx, c.id, c.expected, c.outcome, c.newId, call.now)
  }

  function CascadePlan(rows: Rows, call: Call): (r: Outcome<Request>)
    requires call.command.CorrectFact?
    ensures Sound(rows, r, Cascading)
  {
    var c := call.command;
    PlanCorrectFact(rows, call.ctx, c.id, c.expected, c.value, c.locator, c.newId, call.now)
  }

  function ProposalPlan(rows: Rows, call: Call): (r: Outcome<Request>)
    requires call.command.ProposeEvidence?
    ensures Sound(rows, r, Proposing)
  {
    var c := call.command;
    PlanProposeEvidence(rows, call.ctx, c.id, c.classification, c.claim, c.sourceId, c.cited, c.fact, c.operation)
  }

  function DecisionPlan(rows: Rows, call: Call): (r: Outcome<Request>)
    requires call.command.DecideEvidence?
    ensures Sound(rows, r, Deciding)
  {
    var c := call.command;
    PlanDecideEvidence(rows, call.ctx, c.id, c.expected, c.accept, call.wellFormed)
  }

  function ComparisonPlan(rows: Rows, call: Call): (r: Outcome<Request>)
    requires call.command.ProposeComparison?
    ensures Sound(rows, r, Comparing)
  {
    var c := call.command;
    PlanProposeComparison(rows, call.ctx, c.comparedBy, c.id, c.evaluations, c.scenarios, call.wellFormed)
  }

  function ApprovalPlan(rows: Rows, call: Call): (r: Outcome<Request>)
    requires call.command.RequestApproval?
    ensures Sound(rows, r, Requesting)
  {
    var c := call.command;
    PlanRequestApproval(rows, call.ctx, c.id, c.effect, c.target, c.expected, c.expiresIn, c.transition,
                        call.wellFormed, call.now)
  }

  function RecordingPlan(rows: Rows, call: Call): (r: Outcome<Request>)
    requires call.command.RecordLead?
    ensures Sound(rows, r, Recording)
  {
    var c := call.command;
    PlanRecordLead(rows, call.ctx, c.source, c.lead, c.leadInput)
  }

  function TriagePlan(rows: Rows, call: Call): (r: Outcome<Request>)
    requires call.command.TriageLead?
    ensures Sound(rows, r, Triaging)
  {
    var c := call.command;
    PlanTriageLead(rows, call.ctx, c.id, c.expected, c.decision, c.newId, call.wellFormed)
  }

  /** Everything that a call does before its commit, on the rows it has read. */
  function Plan(rows: Rows, call: Call): (r: Outcome<Request>)
    ensures Readable(rows, call) ==> Sound(rows, r, LicenceOf(call.command))
  {
    PlanOf(LicenceOf(call.command), rows, call)
  }

  function PlanOf(licence: Licence, rows: Rows, call: Call): (r: Outcome<Request>)
    requires licence == LicenceOf(call.command)
    ensures Readable(rows, call) ==> Sound(rows, r, licence)
  {
    match licence
    case Profiling => PlanProfiling(rows, call)
    case Linking => ConfirmationPlan(rows, call)
    case Cascading => CascadePlan(rows, call)
    case Proposing => ProposalPlan(rows, call)
    case Deciding => DecisionPlan(rows, call)
    case Operating => PlanOperating(rows, call)
    case Completing => CompletionPlan(rows, call)
    case Replaying => CompletionPlan(rows, call)
    case Comparing => ComparisonPlan(rows, call)
    case Requesting => ApprovalPlan(rows, call)
    case Consuming => PlanConsuming(rows, call)
    case Recording => RecordingPlan(rows, call)
    case Triaging => TriagePlan(rows, call)
    case Ordinary => PlanOrdinary(rows, call)
  }

  /** The two continuations of an admitted evaluation start from rows that the admission returned. */
  predicate Continues(command: Command) { command.CompleteEvaluation? || command.FailEvaluation? }

  ghost predicate Readable(rows: Rows, call: Call) {
    Keyed(rows) && (Continues(call.command) ==> AdmissionRead(rows, call.command.admission))
  }

  // ---------- runs of commands ----------

  /** What turns a call, on the rows it has read, into a request or an error. `Plan` is the one of the commands. */
  type Planner = (Rows, Call) -> Outcome<Request>

  /** What is submitted: the planned request, or nothing. */
  function Submitted(plan: Outcome<Request>): Request { if plan.Ok? then plan.value else Request([], []) }

  ghost predicate SoundPlanner(plan: Planner) {
    forall rows, call :: Readable(rows, call) ==> Sound(rows, Ok(Submitted(plan(rows, call))), LicenceOf(call.command))
  }

  /** Every command submits only what is well formed, lawful and in shape. */
  lemma PlanIsSound()
    ensures SoundPlanner(Plan)
  {
    forall rows, call | Readable(rows, call)
      ensures Sound(rows, Ok(Submitted(Plan(rows, call))), LicenceOf(call.command))
    {
      assert Sound(rows, Plan(rows, call), LicenceOf(call.command));
    }
  }

  /** A run of the store together with the calls that made its submissions. */
  datatype Work = Work(run: Run, calls: seq<Call>)

  /** The submission is the one that its call makes from the rows it has read. */
  ghost predicate Issued(plan: Planner, work: Work, i: nat)
    requires i < |work.calls| == |work.run.submissions|
  {
    var call, s := work.calls[i], work.run.submissions[i];
    s.licence == LicenceOf(call.command) && s.request == Submitted(plan(s.view, call))
  }

  ghost predicate PlansOperations(plan: Planner) {
    forall rows: Rows, call: Call :: LicenceOf(call.command).Operating? ==>
        plan(rows, call) == PlanOperating(rows, call)
  }

  ghost predicate PlansCompletions(plan: Planner) {
    forall rows: Rows, call: Call :: call.command.CompleteEvaluation? ==> plan(rows, call) == CompletionPlan(rows, call)
  }

  lemma PlanContinues()
    ensures PlansOperations(Plan) && PlansCompletions(Plan)
  {
    forall rows: Rows, call: Call | LicenceOf(call.command).Operating?
      ensures Plan(rows, call) == PlanOperating(rows, call)
    {
      OperatingPlanned(rows, call);
    }
    forall rows: Rows, call: Call | call.command.CompleteEvaluation?
      ensures Plan(rows, call) == CompletionPlan(rows, call)
    {
      CompletionPlanned(rows, call);
    }
  }

  lemma OperatingPlanned(rows: Rows, call: Call)
    requires LicenceOf(call.command).Operating?
    ensures Plan(rows, call) == PlanOperating(rows, call)
  {
  }

  lemma CompletionPlanned(rows: Rows, call: Call)
    requires call.command.CompleteEvaluation?
    ensures Plan(rows, call) == CompletionPlan(rows, call)
  {
    CompletingPlan(LicenceOf(call.command), rows, call);
  }

  lemma CompletingPlan(licence: Licence, rows: Rows, call: Call)
    requires licence == LicenceOf(call.command) && call.command.CompleteEvaluation? && MayComplete(licence)
    ensures PlanOf(licence, rows, call) == CompletionPlan(rows, call)
  {
  }

  /** What the call admits if its commit is its own. */
  function AdmissionBy(rows: Rows, call: Call): (r: Outcome<Admission>)
    requires call.command.AdmitEvaluation?
  {
    var c := call.command;
    AdmissionOf(rows, call.ctx, c.opportunity, c.rubric, c.existing, c.newOperation, c.newId, c.contradictions,
                call.now)
  }

  /** The store's reply to a submission. */
  function ReplyAt(run: Run, k: nat): Reply
    requires k < |run.submissions| < |run.states|
  {
    var s := run.submissions[k];
    Transact(run.states[k], s.key, s.digest, s.request).1
  }

  /** The call `k` has its commit made or replayed, and goes on with `a`. */
  ghost predicate Admits(work: Work, k: nat, a: Admission)
    requires k < |work.calls| == |work.run.submissions| < |work.run.states|
  {
    var call, s := work.calls[k], work.run.submissions[k];
    && call.command.AdmitEvaluation? && AdmissionBy(s.view, call).Ok?
    && ContinuedWith(AdmissionBy(s.view, call).value, ReplyAt(work.run, k)) == Ok(a)
  }

  /** An admission is continued only after the reply to its commit, and from the rows that the reply returned. */
  ghost predicate ContinuationOk(work: Work, i: nat)
    requires i < |work.calls| == |work.run.submissions| < |work.run.states|
  {
    Continues(work.calls[i].command) ==>
      var a := work.calls[i].command.admission;
      AdmissionRead(work.run.submissions[i].view, a) && exists k :: 0 <= k < i && Admits(work, k, a)
  }

  predicate SameAdmission(a: Command, b: Command) {
    && a.AdmitEvaluation? && b.AdmitEvaluation?
    && a.opportunity == b.opportunity && a.rubric == b.rubric && a.existing == b.existing
    && a.contradictions == b.contradictions
  }

  /** The digest of an admitting command is taken over its kind and its input, and tells both. */
  ghost predicate DigestTells(work: Work, j: nat, k: nat)
    requires j < |work.calls| == |work.run.submissions| && k < |work.calls|
  {
    work.calls[k].command.AdmitEvaluation? && work.run.submissions[j].digest == work.run.submissions[k].digest
    ==> SameAdmission(work.calls[j].command, work.calls[k].command)
  }

  /**
   Any interleaving of commands that read, are overtaken, and commit; also any crash, which
   is a call that never comes.
   */
  ghost predicate ValidWork(plan: Planner, work: Work) {
    && |work.calls| == |work.run.submissions|
    && Chained(work.run)
    && (forall i :: 0 <= i < |work.calls| ==> Issued(plan, work, i))
    && (forall i :: 0 <= i < |work.calls| ==> ContinuationOk(work, i))
    && (forall j, k :: 0 <= j < |work.calls| && 0 <= k < |work.calls| ==> DigestTells(work, j, k))
  }

  /** Whatever the calls are, they drive the store through a valid run. */
  lemma WorkIsValid(plan: Planner, work: Work)
    requires SoundPlanner(plan) && ValidWork(plan, work)
    ensures ValidRun(work.run)
  {
    forall i | 0 <= i < |work.calls|
      ensures Sound(work.run.submissions[i].view, Ok(work.run.submissions[i].request), work.run.submissions[i].licence)
    {
      SubmissionSound(plan, work, i);
    }
  }

  lemma SubmissionSound(plan: Planner, work: Work, i: nat)
    requires SoundPlanner(plan) && ValidWork(plan, work) && i < |work.calls|
    ensures Sound(work.run.submissions[i].view, Ok(work.run.submissions[i].request), work.run.submissions[i].licence)
  {
    assert Issued(plan, work, i) && ContinuationOk(work, i);
    var call, s := work.calls[i], work.run.submissions[i];
    if Readable(s.view, call) {
      assert Sound(s.view, Ok(Submitted(plan(s.view, call))), LicenceOf(call.command));
    }
  }

  lemma OnlyPlansCommit(db: Db, s: Submission, planned: Outcome<Request>)
    requires Commits(db, s) && s.request == Submitted(planned)
    ensures planned == Ok(s.request)
  {
  }

  /** What the commit of an admitting call leaves under its key. */
  lemma AdmissionWritten(plan: Planner, work: Work, j: nat)
    requires PlansOperations(plan) && ValidWork(plan, work) && j < |work.calls|
    requires work.calls[j].command.AdmitEvaluation? && Commits(work.run.states[j], work.run.submissions[j])
    ensures var s, own := work.run.submissions[j], AdmissionBy(work.run.submissions[j].view, work.calls[j]);
      own.Ok? && Written(s.request.mutations) == [own.value.operation, own.value.evaluation, own.value.opportunity]
  {
    assert Issued(plan, work, j);
    var call, s := work.calls[j], work.run.submissions[j];
    var c := call.command;
    OnlyPlansCommit(work.run.states[j], s, plan(s.view, call));
    assert plan(s.view, call) == PlanOperating(s.view, call);
    AdmissionWrites(s.view, call.ctx, c.opportunity, c.rubric, c.existing, c.newOperation, c.newId, c.contradictions,
                    call.now);
  }

  /** A replayed admission is one that a call with the same input has committed. */
  lemma ReplayedAdmission(plan: Planner, work: Work, k: nat, a: Admission) returns (j: nat)
    requires PlansOperations(plan) && ValidWork(plan, work) && k < |work.calls|
    requires Admits(work, k, a) && ReplyAt(work.run, k).Replayed?
    ensures j < k && Commits(work.run.states[j], work.run.submissions[j])
    ensures SameAdmission(work.calls[j].command, work.calls[k].command)
    ensures AdmissionBy(work.run.submissions[j].view, work.calls[j]).Ok?
    ensures var first := AdmissionBy(work.run.submissions[j].view, work.calls[j]).value;
      a.operation == first.operation && a.evaluation == first.evaluation && a.opportunity == first.opportunity
  {
    j := ReceiptOrigin(work.run, k, work.run.submissions[k].key);
    assert DigestTells(work, j, k);
    AdmissionWritten(plan, work, j);
  }

  /** A continued admission, replayed or not, has a running operation and a running evaluation of that operation. */
  lemma AdmissionsAreProper(plan: Planner, work: Work, i: nat)
    requires PlansOperations(plan) && ValidWork(plan, work) && i < |work.calls| && Continues(work.calls[i].command)
    ensures ProperAdmission(work.calls[i].command.admission)
  {
    assert ContinuationOk(work, i);
    var a := work.calls[i].command.admission;
    var k :| 0 <= k < i && Admits(work, k, a);
    AdmittedIsProper(plan, work, k, a);
  }

  lemma AdmittedIsProper(plan: Planner, work: Work, k: nat, a: Admission)
    requires PlansOperations(plan) && ValidWork(plan, work) && k < |work.calls| && Admits(work, k, a)
    ensures ProperAdmission(a)
  {
    if ReplyAt(work.run, k).Replayed? {
      var j := ReplayedAdmission(plan, work, k, a);
    }
  }
}
