/**
 The records of packages/domain/src/entities.ts, the transition graphs of
 state-machines.ts, and the error results of errors.ts.

 An entity is a header (identity and revision) around a body. Identities are
 numbers: only equality and their order (the tie-break of `localeCompare`)
 matter. A digest is represented by what was hashed, which is what a
 collision-free SHA-256 amounts to.
 */
module Domain {

  datatype Option<+T> = None | Some(value: T)

  // ---------- errors ----------

  datatype Code =
    | InvalidRequest | EntityNotFound | RevisionConflict | InvalidTransition
    | EvidenceUnsupported | EvidenceLocatorInvalid
    | ApprovalRequired | ApprovalDenied | ApprovalStale
    | DuplicateIdentity | ArtifactUnsealed | ArtifactLimitExceeded

  datatype Outcome<+T> = Ok(value: T) | Err(code: Code) {
    predicate IsFailure() { Err? }
    function PropagateFailure<U>(): Outcome<U>
      requires Err?
    {
      Err(code)
    }
    function Extract(): T
      requires Ok?
    {
      value
    }
  }

  datatype Check = Pass | Fail(code: Code) {
    predicate IsFailure() { Fail? }
    function PropagateFailure<U>(): Outcome<U>
      requires Fail?
    {
      Err(code)
    }
  }

  /** `assertDomain` */
  function Require(condition: bool, code: Code): Check {
    if condition then Pass else Fail(code)
  }

  // ---------- identities ----------

  type EntityId = nat
  type Timestamp = nat
  type Session = nat

  datatype Actor = User | Browser | DshAgent | DshChild | ImportActor | System

  predicate IsDirectUser(actor: Actor) { actor.User? || actor.Browser? }

  /** The authenticated part of a `CommandContext`. */
  datatype Context = Context(actor: Actor, operation: Option<EntityId>, session: Option<Session>)

  // ---------- records ----------

  datatype Digest =
    | Sha256(bytes: seq<nat>)
    | OfRecord(record: Entity)
    | OfEffect(kind: EffectKind, target: EntityId, revision: nat, details: EffectDetails)

  datatype SourceKind =
    CandidateSource | OpportunitySource | CompanySource | MarketSource | MessageSource | ImportSource
  datatype TrustClass = CandidatePrimary | CandidateDerived | External

  datatype Source = Source(
    kind: SourceKind, trust: TrustClass, digest: Digest, byteLength: nat,
    supersedes: Option<EntityId>, text: Option<string>, fromSetup: bool)

  datatype Locator = Locator(source: EntityId, start: int, end: int, quote: string)

  datatype Primitive = PNull | PBool(b: bool) | PNumber(shown: string) | PText(text: string)

  datatype FactStatus = FactProposed | Verified | DerivedUnverified | UserCannotConfirm | FactRejected | Superseded
  datatype ProposedBy = ByUser | ByImport | ByAgent | BySystem

  datatype Fact = Fact(
    factType: string, subject: string, predicate_: string, value: Primitive,
    status: FactStatus, locators: seq<Locator>, proposedBy: ProposedBy,
    confirmedAt: Option<Timestamp>, supersedes: Option<EntityId>)

  datatype SearchProfile = SearchProfile(criteria: string, active: bool)

  datatype LeadState = LeadNew | LeadShortlisted | LeadDismissed
  datatype Lead = Lead(
    source: EntityId, contentDigest: Digest, operation: EntityId,
    organization: string, url: string, host: string, requisition: Option<string>,
    state: LeadState, resultOpportunity: Option<EntityId>)

  datatype WorkflowState = Captured | Evaluating | Evaluated | Shortlisted | Discarded | Archived
  datatype Opportunity = Opportunity(
    source: EntityId, organization: string, url: Option<string>, requisition: Option<string>,
    workflow: WorkflowState, sourceDigest: Digest, signals: nat)

  datatype Classification =
    | CandidateFact | OpportunityFact | CompanyFact | MarketFact
    | Inference | Computation | Contradiction | Gap
  datatype Decision = EvidenceProposed | Accepted | Rejected
  datatype Evidence = Evidence(
    classification: Classification, claim: string, source: Option<EntityId>, locator: Option<Locator>,
    fact: Option<EntityId>, operation: Option<EntityId>, decision: Decision)

  datatype Rubric = Rubric(version: string, used: Option<Timestamp>)

  datatype DimensionScore = DimensionScore(key: string, value: nat)
  datatype EvaluationState =
    EvalPending | EvalRunning | EvalWaiting | EvalCompleted | EvalFailed | EvalCanceled | EvalStale
  datatype Evaluation = Evaluation(
    opportunity: EntityId, rubric: EntityId, acceptedEvidence: seq<EntityId>,
    scores: seq<DimensionScore>, aggregate: nat, contradictions: nat,
    state: EvaluationState, operation: Option<EntityId>, staleReason: Option<EntityId>)

  datatype ComparisonInput = ComparisonInput(
    evaluation: EntityId, revision: nat, opportunity: EntityId, aggregate: nat, values: map<string, nat>)
  datatype ScenarioResult = ScenarioResult(
    weights: map<string, nat>, ranked: seq<EntityId>, scores: map<EntityId, nat>)
  datatype ComparisonState = CompProposed | CompAccepted | CompStale
  datatype Comparison = Comparison(
    inputs: seq<ComparisonInput>, scenarios: seq<ScenarioResult>,
    state: ComparisonState, operation: EntityId, acceptedAt: Option<Timestamp>, staleReason: Option<EntityId>)

  datatype ApplicationState =
    | Considering | Preparing | ReadyForReview | Applied | Responded | Interview
    | Offer | Hired | AppRejected | Withdrawn | Closed
  datatype Application = Application(
    opportunity: EntityId, state: ApplicationState, stateRevision: nat, effectiveDate: string, note: Option<string>)

  datatype ArtifactKind = Draft(style: nat) | EvaluationReport | CandidateBytes | CareerOpsBytes
  datatype ArtifactState = Staged | Sealed | ArtStale | Revoked
  datatype Artifact = Artifact(
    kind: ArtifactKind, digest: Digest, facts: seq<EntityId>, evidence: seq<EntityId>,
    evaluations: seq<EntityId>, state: ArtifactState, staleReason: Option<EntityId>)

  datatype OperationKind = JobDiscovery | ProfileOrganization | EvaluationWork | OtherWork(name: nat)
  datatype Route = Deterministic | OrdinaryDsh | NativeChild | Rlm
  datatype OperationState = Queued | Running | WaitingForUser | Succeeded | Failed | Canceled | Indeterminate
  datatype Operation = Operation(
    kind: OperationKind, input: Option<EntityId>, inputRevision: Option<nat>, inputDigest: Option<Digest>,
    session: Option<Session>, parent: Option<EntityId>, state: OperationState, route: Route,
    startedAt: Option<Timestamp>, lastActivityAt: Timestamp, terminalAt: Option<Timestamp>,
    results: seq<EntityId>, artifacts: seq<EntityId>, cancelRequestedAt: Option<Timestamp>)

  datatype EffectKind = AcceptComparisonEffect | ReviewArtifactEffect | TransitionEffect
  /** The `effectDetails` object: empty except for an application transition. */
  datatype EffectDetails =
    | NoDetails
    | TransitionDetails(state: ApplicationState, effectiveDate: string, note: Option<string>)
  datatype ApprovalState = Pending | Approved | Denied | Expired | Consumed
  datatype Approval = Approval(
    effect: EffectKind, target: EntityId, digest: Digest, expected: map<EntityId, nat>,
    state: ApprovalState, expiresAt: Timestamp, interaction: Option<nat>)

  datatype Disposition = Imported | Skipped | Unsupported
  datatype MappingType =
    | ProfileMapping | CvMapping | ApplicationMapping | JobDescriptionMapping
    | ReportMapping | StoryMapping | PreferenceMapping
  datatype MappingRecord = MappingRecord(
    sourceType: MappingType, identity: string, disposition: Disposition, target: Option<EntityId>)
  datatype Manifest = Manifest(identityDigest: Digest, fingerprint: Digest, mappings: seq<MappingRecord>)

  datatype Body =
    | OfWorkspace(defaultRubric: Option<EntityId>)
    | OfSource(source: Source)
    | OfFact(fact: Fact)
    | OfSearchProfile(profile: SearchProfile)
    | OfLead(lead: Lead)
    | OfOpportunity(opportunity: Opportunity)
    | OfEvidence(evidence: Evidence)
    | OfRubric(rubric: Rubric)
    | OfEvaluation(evaluation: Evaluation)
    | OfComparison(comparison: Comparison)
    | OfApplication(application: Application)
    | OfManifest(manifest: Manifest)
    | OfArtifact(artifact: Artifact)
    | OfOperation(operation: Operation)
    | OfApproval(approval: Approval)

  datatype Entity = Entity(id: EntityId, revision: nat, body: Body)

  /** The tables of the store (`EntityByKind`, ports.ts:26-42). */
  datatype Kind =
    | WorkspaceKind | SourceTable | FactKind | SearchProfileKind | LeadKind | OpportunityKind | EvidenceKind
    | RubricKind | EvaluationKind | ComparisonKind | ApplicationKind | ManifestKind | ArtifactTable
    | OperationTable | ApprovalKind

  function KindOf(e: Entity): Kind {
    match e.body
    case OfWorkspace(_) => WorkspaceKind
    case OfSource(_) => SourceTable
    case OfFact(_) => FactKind
    case OfSearchProfile(_) => SearchProfileKind
    case OfLead(_) => LeadKind
    case OfOpportunity(_) => OpportunityKind
    case OfEvidence(_) => EvidenceKind
    case OfRubric(_) => RubricKind
    case OfEvaluation(_) => EvaluationKind
    case OfComparison(_) => ComparisonKind
    case OfApplication(_) => ApplicationKind
    case OfManifest(_) => ManifestKind
    case OfArtifact(_) => ArtifactTable
    case OfOperation(_) => OperationTable
    case OfApproval(_) => ApprovalKind
  }

  /** `updated`: the same identity with new contents and the next revision. */
  function Updated(e: Entity, body: Body): Entity {
    Entity(e.id, e.revision + 1, body)
  }

  // ---------- text ----------

  /** UTF-8, as `TextEncoder` produces it. */
  function Utf8(text: string): seq<nat> {
    if text == "" then []
    else
      var c := text[0] as int;
      (if c < 0x80 then [c]
       else if c < 0x800 then [0xC0 + c / 0x40, 0x80 + c % 0x40]
       else if c < 0x1_0000 then [0xE0 + c / 0x1000, 0x80 + c / 0x40 % 0x40, 0x80 + c % 0x40]
       else [0xF0 + c / 0x4_0000, 0x80 + c / 0x1000 % 0x40, 0x80 + c / 0x40 % 0x40, 0x80 + c % 0x40])
      + Utf8(text[1..])
  }

  function TextDigest(text: string): Digest { Sha256(Utf8(text)) }

  // ---------- transition graphs (state-machines.ts) ----------

  predicate ApplicationEdge(from: ApplicationState, to: ApplicationState) {
    match from
    case Considering => to in {Preparing, Withdrawn, Closed}
    case Preparing => to in {ReadyForReview, Withdrawn, Closed}
    case ReadyForReview => to in {Applied, Withdrawn, Closed}
    case Applied => to in {Responded, Interview, AppRejected, Withdrawn, Closed}
    case Responded => to in {Interview, Offer, AppRejected, Withdrawn, Closed}
    case Interview => to in {Offer, AppRejected, Withdrawn, Closed}
    case Offer => to in {Hired, Withdrawn, Closed}
    case Hired => false
    case AppRejected => false
    case Withdrawn => false
    case Closed => false
  }

  predicate ApprovalEdge(from: ApprovalState, to: ApprovalState) {
    match from
    case Pending => to in {Approved, Denied, Expired}
    case Approved => to in {Expired, Consumed}
    case Denied => false
    case Expired => false
    case Consumed => false
  }

  predicate OperationEdge(from: OperationState, to: OperationState) {
    match from
    case Queued => to in {Running, Canceled, Indeterminate}
    case Running => to in {WaitingForUser, Succeeded, Failed, Canceled, Indeterminate}
    case WaitingForUser => to in {Running, Failed, Canceled, Indeterminate}
    case Succeeded => false
    case Failed => false
    case Canceled => false
    case Indeterminate => false
  }

  predicate Terminal(state: OperationState) {
    state.Succeeded? || state.Failed? || state.Canceled? || state.Indeterminate?
  }
}
