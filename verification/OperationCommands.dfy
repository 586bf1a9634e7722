/**
 Operations: admission, activity, settlement, cancellation, restart
 reconciliation (packages/application/src/workbench.ts:2448-3140), and the
 two-commit evaluation (2160-2446, 3142-3296).
 */
module OperationCommands {
  import opened Domain
  import opened Store
  import opened Lifecycle
  import opened Listing
  import opened ProfileCommands

  const MAX_LINEAGE_DEPTH := 16

  /** The loop of `operationLineageIncludesSession`: up the parents, at most seventeen operations. */
  function LineageIncludes(rows: Rows, cursor: EntityId, session: Session, depth: nat,
                           seen: set<EntityId>): Outcome<bool>
    requires cursor in rows && rows[cursor].body.OfOperation?
    decreases MAX_LINEAGE_DEPTH + 1 - depth
  {
    if depth > MAX_LINEAGE_DEPTH || cursor in seen then Ok(false)
    else
      var o := rows[cursor].body.operation;
      if o.session == Some(session) then Ok(true)
      else if o.parent.None? then Ok(false)
      else
        var parent :- Fetch(rows, OperationTable, o.parent.value);
        LineageIncludes(rows, o.parent.value, session, depth + 1, seen + {cursor})
  }

  function AuthorizeOperation(rows: Rows, ctx: Context, id: EntityId): Outcome<Entity> {
    if !(IsDsh(ctx.actor) && ctx.operation == Some(id) && ctx.session.Some?) then Err(ApprovalDenied) else
    var operation :- Fetch(rows, OperationTable, id);
    if !operation.body.operation.route.NativeChild? then
      :- Require(SameSession(ctx, operation.body.operation), ApprovalDenied);
      Ok(operation)
    else
      var included :- LineageIncludes(rows, id, ctx.session.value, 0, {});
      :- Require(included, ApprovalDenied);
      Ok(operation)
  }

  /** The revision and the digest of the input an operation is admitted for. */
  function AdmittedInput(rows: Rows, kind: OperationKind, input: EntityId): Outcome<(nat, Digest)> {
    match kind
    case JobDiscovery =>
      var profile :- Fetch(rows, SearchProfileKind, input);
      :- Require(profile.body.profile.active, InvalidTransition);
      Ok((profile.revision, OfRecord(profile)))
    case ProfileOrganization =>
      var source :- Fetch(rows, SourceTable, input);
      var s := source.body.source;
      :- Require(s.kind.CandidateSource? && s.trust.CandidatePrimary? && s.text.Some?
                 && |Utf8(s.text.value)| <= MAX_CANDIDATE_EXTRACTION_BYTES && !s.fromSetup, EvidenceUnsupported);
      Ok((source.revision, s.digest))
    case _ =>
      var opportunity :- Fetch(rows, OpportunityKind, input);
      Ok((opportunity.revision, OfRecord(opportunity)))
  }

  /** A native child is admitted by a session of its parent's lineage, any other operation by its own session. */
  function SessionAdmits(rows: Rows, ctx: Context, route: Route, session: Session,
                         parent: Option<EntityId>): Outcome<()> {
    var _ :- if parent.Some? then Fetch(rows, OperationTable, parent.value) else Ok(Entity(0, 0, OfWorkspace(None)));
    if !route.NativeChild? then
      if ctx.session == Some(session) then Ok(()) else Err(ApprovalDenied)
    else if parent.None? then Err(InvalidRequest)
    else if ctx.session.None? then Err(ApprovalDenied)
    else
      var included :- LineageIncludes(rows, parent.value, ctx.session.value, 0, {});
      if included then Ok(()) else Err(ApprovalDenied)
  }

  function PlanAdmitOperation(rows: Rows, ctx: Context, id: EntityId, kind: OperationKind, input: EntityId,
                              route: Route,
                              session: Session, parent: Option<EntityId>, wellFormed: bool,
                              now: Timestamp): (r: Outcome<Request>)
    ensures Sound(rows, r, Operating)
  {
    if !IsDsh(ctx.actor) then Err(ApprovalRequired) else
    :- Require(wellFormed && !route.Deterministic?, InvalidRequest);
    var admitted :- AdmittedInput(rows, kind, input);
    var _ :- SessionAdmits(rows, ctx, route, session, parent);
    var operation := Operation(kind, Some(input), Some(admitted.0), Some(admitted.1), Some(session), parent,
                               Queued, route, None, now, None, [], [], None);
    Ok(Create(rows, ctx.actor, id, OfOperation(operation), Operating))
  }

  /** The second commit of `startOperation`: it goes on from the record the first one returned, at revision 1. */
  function PlanStartOperation(rows: Rows, ctx: Context, id: EntityId, now: Timestamp): (r: Outcome<Request>)
    ensures Sound(rows, r, Operating)
  {
    var admitted :- Fetch(rows, OperationTable, id);
    :- Require(admitted.revision == 1 && admitted.body.operation.state.Queued?, RevisionConflict);
    var started := admitted.body.operation.(state := Running, startedAt := Some(now), lastActivityAt := now);
    Ok(Revise(rows, ctx.actor, admitted, OfOperation(started), Operating))
  }

  datatype Phase = StartedPhase | FollowupPhase | DeletedPhase | OtherPhase

  function PlanRecordActivity(rows: Rows, ctx: Context, id: EntityId, expected: nat, phase: Phase, wellFormed: bool,
                              now: Timestamp): (r: Outcome<Request>)
    ensures Sound(rows, r, Operating)
  {
    var operation :- AuthorizeOperation(rows, ctx, id);
    var o := operation.body.operation;
    :- Require(operation.revision == expected, RevisionConflict);
    :- Require(wellFormed, InvalidRequest);
    :- Require(!Terminal(o.state) || phase.DeletedPhase?, InvalidTransition);
    var next := if phase.StartedPhase? || phase.FollowupPhase?
                then o.(state := Running, startedAt := if o.startedAt.Some? then o.startedAt
                        else Some(now), lastActivityAt := now)
                else o.(lastActivityAt := now);
    Ok(Revise(rows, ctx.actor, operation, OfOperation(next), Operating))
  }

  predicate Recoverable(rows: Rows, id: EntityId) {
    id in rows && rows[id].body.OfOperation?
    && (rows[id].body.operation.state.Queued? || rows[id].body.operation.state.Running?
        || rows[id].body.operation.state.WaitingForUser?)
  }

  function Recovered(e: Entity, now: Timestamp): Body {
    match e.body
    case OfOperation(o) => OfOperation(o.(state := Indeterminate, lastActivityAt := now, terminalAt := Some(now)))
    case _ => e.body
  }

  /** Every recoverable state has an edge to `Indeterminate`, so `requireOperationTransition` never refuses here.
      With nothing to recover the source returns without a commit, which the empty request stands for. */
  function PlanReconcile(rows: Rows, ctx: Context, now: Timestamp): (r: Outcome<Request>)
    ensures Sound(rows, r, Operating)
  {
    if !ctx.actor.System? then Err(ApprovalDenied) else
    var ids := Select(ListIds(rows, OperationTable), (id: EntityId) => Recoverable(rows, id));
    RecoverySound(rows, ids, ctx.actor, now);
    var recovered := Revised(rows, ids, (e: Entity) => Recovered(e, now));
    Ok(Request(Updates(recovered), EventsOf(recovered, ctx.actor)))
  }

  lemma RecoverySound(rows: Rows, ids: seq<EntityId>, actor: Actor, now: Timestamp)
    requires Increasing(ids) && forall id :: id in ids ==> id in rows && Recoverable(rows, id)
    ensures
      var recovered := Revised(rows, ids, (e: Entity) => Recovered(e, now));
      Sound(rows, Ok(Request(Updates(recovered), EventsOf(recovered, actor))), Operating)
  {
    if Keyed(rows) {
      var revise := (e: Entity) => Recovered(e, now);
      RevisedFromView(rows, ids, revise);
      RevisionsSound(rows, Revised(rows, ids, revise), actor, Operating);
    }
  }

  /** What `terminateOperation` demands of the results of a discovery or an organization run. */
  function CheckResults(rows: Rows, operation: Entity, results: seq<EntityId>): Outcome<()>
    requires operation.body.OfOperation?
  {
    var o := operation.body.operation;
    if results == [] then Ok(())
    else
      match o.kind
      case JobDiscovery =>
        var lead :- Fetch(rows, LeadKind, results[0]);
        :- Require(lead.body.lead.operation == operation.id, InvalidRequest);
        CheckResults(rows, operation, results[1..])
      case ProfileOrganization =>
        var fact :- Fetch(rows, FactKind, results[0]);
        var f := fact.body.fact;
        :- Require(f.status.FactProposed? && f.proposedBy.ByAgent? && o.input.Some? && f.locators != []
                   && (forall l :: l in f.locators ==> l.source == o.input.value), InvalidRequest);
        CheckResults(rows, operation, results[1..])
      case _ => Ok(())
  }

  predicate Distinct(ids: seq<EntityId>) { forall i, j :: 0 <= i < j < |ids| ==> ids[i] != ids[j] }

  function PlanTerminate(rows: Rows, ctx: Context, id: EntityId, expected: nat, state: OperationState,
                         results: seq<EntityId>,
                         artifacts: seq<EntityId>, wellFormed: bool, now: Timestamp): (r: Outcome<Request>)
    ensures Sound(rows, r, Operating)
  {
    var operation :- AuthorizeOperation(rows, ctx, id);
    var o := operation.body.operation;
    :- Require(operation.revision == expected, RevisionConflict);
    :- Require(!Terminal(o.state), InvalidTransition);
    :- Require(wellFormed && Terminal(state) && |results| <= 64 && |artifacts| <= 64, InvalidRequest);
    :- Require(o.kind.ProfileOrganization? ==> |results| <= 48 && Distinct(results), InvalidRequest);
    var _ :- CheckResults(rows, operation, results);
    :- Require(o.kind.JobDiscovery? || o.kind.ProfileOrganization? ==> artifacts == [], InvalidRequest);
    var settled := o.(state := state, lastActivityAt := now, terminalAt := Some(now), results := results,
                      artifacts := artifacts);
    Ok(Revise(rows, ctx.actor, operation, OfOperation(settled), Operating))
  }

  /** Settling an operation keeps to the operation graph except that it takes two kinds of short cut. */
  lemma TerminationFollowsGraph(rows: Rows, ctx: Context, id: EntityId, expected: nat, state: OperationState,
                                results: seq<EntityId>,
                                artifacts: seq<EntityId>, wellFormed: bool, now: Timestamp)
    requires PlanTerminate(rows, ctx, id, expected, state, results, artifacts, wellFormed, now).Ok?
    ensures id in rows && rows[id].body.OfOperation?
    ensures var from := rows[id].body.operation.state;
      OperationEdge(from, state) <==>
          !(from.Queued? && (state.Succeeded? || state.Failed?)) && !(from.WaitingForUser? && state.Succeeded?)
  {
    var from := rows[id].body.operation.state;
    assert Terminal(state) && !Terminal(from);
  }

  /** Both cancellation requests: by the operation's session, or (`direct`) by the browser. */
  function PlanRequestCancellation(rows: Rows, ctx: Context, id: EntityId, expected: nat, direct: bool,
                                   wellFormed: bool, now: Timestamp): (r: Outcome<Request>)
    ensures Sound(rows, r, Operating)
  {
    var operation :- if !direct then AuthorizeOperation(rows, ctx, id)
                     else if ctx.actor.Browser? then Fetch(rows, OperationTable, id) else Err(ApprovalDenied);
    var o := operation.body.operation;
    :- Require(operation.revision == expected, RevisionConflict);
    :- Require(!Terminal(o.state), InvalidTransition);
    :- Require(wellFormed, InvalidRequest);
    var requested := o.(lastActivityAt := now, cancelRequestedAt := if o.cancelRequestedAt.Some?
                        then o.cancelRequestedAt else Some(now));
    Ok(Revise(rows, ctx.actor, operation, OfOperation(requested), Operating))
  }

  function PlanRequestFollowup(rows: Rows, ctx: Context, id: EntityId, expected: nat, wellFormed: bool,
                               now: Timestamp): (r: Outcome<Request>)
    ensures Sound(rows, r, Operating)
  {
    if !ctx.actor.Browser? then Err(ApprovalDenied) else
    var operation :- Fetch(rows, OperationTable, id);
    var o := operation.body.operation;
    :- Require(o.route.NativeChild? && o.session.Some?, InvalidTransition);
    :- Require(operation.revision == expected, RevisionConflict);
    :- Require(wellFormed, InvalidRequest);
    Ok(Revise(rows, ctx.actor, operation, OfOperation(o.(lastActivityAt := now)), Operating))
  }

  // ---------- evaluation ----------

  /**
   All that the second commit starts from: what the admitting commit returned, the rubric
   read before it, and the identities that the call drew for its operation and evaluation.
   */
  datatype Admission = Admission(operation: Entity, evaluation: Entity, opportunity: Entity, rubric: Entity,
                                 ownOperation: EntityId, ownEvaluation: EntityId)

  /** The call is continued with the records that it has admitted itself. A replayed commit returns other records. */
  predicate Native(a: Admission) { a.ownOperation == a.operation.id && a.ownEvaluation == a.evaluation.id }

  /**
   What the call goes on with after the reply to its admitting commit: what it has admitted
   itself or, if the commit was a replay, what the same command had admitted before.
   */
  function ContinuedWith(own: Admission, reply: Reply): Outcome<Admission> {
    match reply
    case Committed => Ok(own)
    case Replayed(result) =>
      :- Require(|result| == 3, InvalidRequest);
      Ok(own.(operation := result[0], evaluation := result[1], opportunity := result[2]))
    case Refused(code) => Err(code)
  }

  /** Holds of every admission that `AdmissionOf` returns, so the continuations never fail on it. */
  predicate ProperAdmission(a: Admission) {
    && a.operation.body.OfOperation? && a.operation.body.operation.state.Running?
    && a.evaluation.body.OfEvaluation? && a.evaluation.body.evaluation.state.EvalRunning?
    && a.evaluation.body.evaluation.operation == Some(a.operation.id)
    && a.opportunity.body.OfOpportunity? && a.rubric.body.OfRubric?
    && a.evaluation.body.evaluation.staleReason.None?
  }

  function Carried(a: Admission): seq<Entity> { [a.operation, a.evaluation, a.opportunity, a.rubric] }

  /** The rows of an admission are among the rows read. */
  ghost predicate AdmissionRead(rows: Rows, a: Admission) {
    forall e :: e in Carried(a) ==> e.id in rows && rows[e.id] == e
  }

  /** A new operation is inserted, an existing one revised. */
  function Admitting(existing: Option<EntityId>, operation: Entity): Mutation {
    if existing.None? then Insert(operation) else Update(operation, Before(operation))
  }

  ghost predicate AdmitsLawfully(rows: Rows, first: Mutation) {
    && FromView(rows, first) && Lawful(rows, first, Operating)
    && (first.Update? ==> first.entity.id in rows && rows[first.entity.id].body.OfOperation?)
  }

  function AdmittedOperation(rows: Rows, ctx: Context, opportunity: Entity, existing: Option<EntityId>,
                             newOperation: EntityId, now: Timestamp): (r: Outcome<Entity>)
    ensures r.Ok? ==> r.value.body.OfOperation? && r.value.body.operation.state.Running?
    ensures r.Ok? && Keyed(rows) ==> AdmitsLawfully(rows, Admitting(existing, r.value))
  {
    match existing
    case None =>
      Ok(Entity(newOperation, 1, OfOperation(Operation(
        EvaluationWork, Some(opportunity.id), Some(opportunity.revision), Some(OfRecord(opportunity)), None, None,
        Running, Deterministic, Some(now), now, None, [], [], None))))
    case Some(id) =>
      var operation :- Fetch(rows, OperationTable, id);
      var o := operation.body.operation;
      :- Require(o.state.Running?, InvalidTransition);
      :- Require(o.kind.EvaluationWork? && o.input == Some(opportunity.id), InvalidRequest);
      :- Require(!o.route.Deterministic? && ctx.actor.DshAgent? && ctx.operation == Some(id)
                 && SameSession(ctx, o), ApprovalRequired);
      Ok(Updated(operation, OfOperation(o.(lastActivityAt := now))))
  }

  function AdmissionOf(rows: Rows, ctx: Context, opportunity: EntityId, rubric: EntityId, existing: Option<EntityId>,
                       operation: EntityId, evaluation: EntityId, contradictions: nat,
                       now: Timestamp): (r: Outcome<Admission>)
    ensures r.Ok? ==> ProperAdmission(r.value)
    ensures r.Ok? && Keyed(rows) ==> AdmitsLawfully(rows, Admitting(existing, r.value.operation))
    ensures r.Ok? && Keyed(rows) ==> FromView(rows, Update(r.value.opportunity, Before(r.value.opportunity)))
    ensures r.Ok? ==> r.value.evaluation.revision == 1
  {
    var opp :- Fetch(rows, OpportunityKind, opportunity);
    var rub :- Fetch(rows, RubricKind, rubric);
    var op :- AdmittedOperation(rows, ctx, opp, existing, operation, now);
    var pending := Evaluation(opportunity, rubric, [], [], 0, contradictions, EvalRunning, Some(op.id), None);
    Ok(Admission(op, Entity(evaluation, 1, OfEvaluation(pending)),
                 Updated(opp, OfOpportunity(opp.body.opportunity.(workflow := Evaluating))), rub,
                 op.id, evaluation))
  }

  function PlanAdmitEvaluation(rows: Rows, ctx: Context, opportunity: EntityId, rubric: EntityId,
                               existing: Option<EntityId>,
                               operation: EntityId, evaluation: EntityId, contradictions: nat,
                               now: Timestamp): (r: Outcome<Request>)
    ensures Sound(rows, r, Operating)
  {
    var a :- AdmissionOf(rows, ctx, opportunity, rubric, existing, operation, evaluation, contradictions, now);
    Ok(AdmissionRequest(rows, ctx.actor, Admitting(existing, a.operation), a))
  }

  /** The commit that admits an evaluation: `first` inserts or revises its operation. */
  function AdmissionRequest(ghost rows: Rows, actor: Actor, first: Mutation, a: Admission): (r: Request)
    requires first.entity.body.OfOperation? && a.evaluation.body.OfEvaluation? && a.opportunity.body.OfOpportunity?
    requires a.evaluation.revision == 1 && LawfulInsert(a.evaluation, Operating)
    requires Keyed(rows) ==> AdmitsLawfully(rows, first) && FromView(rows, Update(a.opportunity, Before(a.opportunity)))
    ensures Sound(rows, Ok(r), Operating)
  {
    Request(
      [first, Insert(a.evaluation), Update(a.opportunity, Before(a.opportunity))],
      [Event(first.entity.id, first.entity.revision, actor),
       Event(a.evaluation.id, 1, actor),
       Event(a.opportunity.id, a.opportunity.revision, actor)])
  }

  lemma AdmissionWrites(rows: Rows, ctx: Context, opportunity: EntityId, rubric: EntityId, existing: Option<EntityId>,
                        operation: EntityId, evaluation: EntityId, contradictions: nat, now: Timestamp)
    ensures
      var own := AdmissionOf(rows, ctx, opportunity, rubric, existing, operation, evaluation, contradictions, now);
      match PlanAdmitEvaluation(rows, ctx, opportunity, rubric, existing, operation, evaluation, contradictions, now)
      case Ok(request) =>
        own.Ok? && Written(request.mutations) == [own.value.operation, own.value.evaluation, own.value.opportunity]
      case Err(_) => own.Err?
  {
  }

  /** The admission of an evaluation for an operation that exists already. */
  lemma AdmissionRequested(rows: Rows, ctx: Context, opportunity: EntityId, rubric: EntityId, existing: EntityId,
                           operation: EntityId, evaluation: EntityId, contradictions: nat, now: Timestamp,
                           a: Admission)
    requires AdmissionOf(rows, ctx, opportunity, rubric, Some(existing), operation, evaluation, contradictions, now)
          == Ok(a)
    ensures PlanAdmitEvaluation(rows, ctx, opportunity, rubric, Some(existing), operation, evaluation, contradictions,
                                now)
         == Ok(Request([Update(a.operation, Before(a.operation)), Insert(a.evaluation),
                        Update(a.opportunity, Before(a.opportunity))],
                       [Event(a.operation.id, a.operation.revision, ctx.actor), Event(a.evaluation.id, 1, ctx.actor),
                        Event(a.opportunity.id, a.opportunity.revision, ctx.actor)]))
  {
  }

  predicate UniqueKeys(scores: seq<DimensionScore>) {
    forall i, j :: 0 <= i < j < |scores| ==> scores[i].key != scores[j].key
  }

  /** The arithmetic of `calculateScore`, which is not modelled: dimension scores with unique keys, or an error. */
  datatype Scored = Scored(scores: seq<DimensionScore>, aggregate: nat)

  function CompletionLicence(a: Admission): Licence { if Native(a) then Completing else Replaying }

  function PlanCompleteEvaluation(rows: Rows, ctx: Context, a: Admission, evidence: set<EntityId>,
                                  scored: Outcome<Scored>, now: Timestamp): (r: Outcome<Request>)
    ensures AdmissionRead(rows, a) ==> Sound(rows, r, CompletionLicence(a))
  {
    if !ProperAdmission(a) then Err(InvalidRequest) else
    var v := a.evaluation.body.evaluation;
    :- Require(v.contradictions == 0, EvidenceUnsupported);
    :- Require(forall id :: id in evidence ==> id in rows && rows[id].body.OfEvidence?, EntityNotFound);
    :- Require(forall id :: id in evidence ==> rows[id].body.evidence.decision.Accepted?, EvidenceUnsupported);
    var result :- scored;
    :- Require(UniqueKeys(result.scores), DuplicateIdentity);
    CompletionSound(rows, ctx.actor, a, result, SortedIds(evidence), now);
    Ok(CompletionRequest(ctx.actor, a, result, SortedIds(evidence), now))
  }

  lemma CompletionRequested(rows: Rows, ctx: Context, a: Admission, evidence: set<EntityId>, result: Scored,
                            now: Timestamp)
    requires ProperAdmission(a) && a.evaluation.body.evaluation.contradictions == 0 && UniqueKeys(result.scores)
    requires forall id :: id in evidence ==> id in rows && rows[id].body.OfEvidence?
    requires forall id :: id in evidence ==> rows[id].body.evidence.decision.Accepted?
    ensures PlanCompleteEvaluation(rows, ctx, a, evidence, Ok(result), now)
         == Ok(CompletionRequest(ctx.actor, a, result, SortedIds(evidence), now))
  {
  }

  function CompletedEvaluation(a: Admission, result: Scored, evidence: seq<EntityId>): Entity
    requires a.evaluation.body.OfEvaluation?
  {
    Updated(a.evaluation, OfEvaluation(a.evaluation.body.evaluation.(
                                         scores := result.scores, aggregate := result.aggregate, state := EvalCompleted,
                                           acceptedEvidence := evidence)))
  }

  function SucceededOperation(a: Admission, now: Timestamp): Entity
    requires a.operation.body.OfOperation?
  {
    Updated(a.operation, OfOperation(a.operation.body.operation.(
                                       state := Succeeded, lastActivityAt := now, terminalAt := Some(now),
                                         results := [a.ownEvaluation])))
  }

  function EvaluatedOpportunity(a: Admission): Entity
    requires a.opportunity.body.OfOpportunity?
  {
    Updated(a.opportunity, OfOpportunity(a.opportunity.body.opportunity.(workflow := Evaluated)))
  }

  function UsedRubric(a: Admission, now: Timestamp): Entity
    requires a.rubric.body.OfRubric?
  {
    var r := a.rubric.body.rubric;
    Updated(a.rubric, OfRubric(r.(used := if r.used.Some? then r.used else Some(now))))
  }

  /** The updates are of the records admitted, but the events name the identities that the call drew. */
  function CompletionRequest(actor: Actor, a: Admission, result: Scored, evidence: seq<EntityId>,
                             now: Timestamp): Request
    requires ProperAdmission(a)
  {
    var evaluation, operation := CompletedEvaluation(a, result, evidence), SucceededOperation(a, now);
    var opportunity, rubric := EvaluatedOpportunity(a), UsedRubric(a, now);
    Request(
      [Update(evaluation, a.evaluation.revision), Update(operation, a.operation.revision),
       Update(opportunity, a.opportunity.revision), Update(rubric, a.rubric.revision)],
      [Event(a.ownEvaluation, evaluation.revision, actor), Event(a.ownOperation, operation.revision, actor),
       Event(opportunity.id, opportunity.revision, actor), Event(rubric.id, rubric.revision, actor)])
  }

  lemma CompletionLawful(a: Admission, result: Scored, evidence: seq<EntityId>, now: Timestamp)
    requires ProperAdmission(a)
    ensures LawfulUpdate(a.evaluation, CompletedEvaluation(a, result, evidence), CompletionLicence(a))
    ensures LawfulUpdate(a.operation, SucceededOperation(a, now), CompletionLicence(a))
    ensures LawfulUpdate(a.opportunity, EvaluatedOpportunity(a), CompletionLicence(a))
    ensures LawfulUpdate(a.rubric, UsedRubric(a, now), CompletionLicence(a))
  {
  }

  /** The rows of an admission are the rows at their identities. */
  lemma CarriedRows(rows: Rows, a: Admission)
    requires AdmissionRead(rows, a)
    ensures a.operation.id in rows && rows[a.operation.id] == a.operation && a.evaluation.id in rows
            && rows[a.evaluation.id] == a.evaluation
    ensures a.opportunity.id in rows && rows[a.opportunity.id] == a.opportunity && a.rubric.id in rows
            && rows[a.rubric.id] == a.rubric
  {
    assert a.operation in Carried(a) && a.evaluation in Carried(a) && a.opportunity in Carried(a)
           && a.rubric in Carried(a);
  }

  /** Four updates of different rows. */
  lemma FourUpdates(view: Rows, request: Request, a: Mutation, b: Mutation, c: Mutation, d: Mutation)
    requires request.mutations == [a, b, c, d] && |request.events| == 4
    requires FromView(view, a) && FromView(view, b) && FromView(view, c) && FromView(view, d)
    requires a.entity.id != b.entity.id && a.entity.id != c.entity.id && a.entity.id != d.entity.id
    requires b.entity.id != c.entity.id && b.entity.id != d.entity.id && c.entity.id != d.entity.id
    ensures Submittable(view, request)
  {
  }

  lemma CompletionSubmittable(rows: Rows, actor: Actor, a: Admission, result: Scored, evidence: seq<EntityId>,
                             now: Timestamp)
    requires ProperAdmission(a) && AdmissionRead(rows, a)
    ensures Submittable(rows, CompletionRequest(actor, a, result, evidence, now))
  {
    CarriedRows(rows, a);
    var r := CompletionRequest(actor, a, result, evidence, now);
    FourUpdates(rows, r, r.mutations[0], r.mutations[1], r.mutations[2], r.mutations[3]);
  }

  lemma CompletionAllLawful(rows: Rows, actor: Actor, a: Admission, result: Scored, evidence: seq<EntityId>,
                            now: Timestamp)
    requires ProperAdmission(a) && AdmissionRead(rows, a)
    ensures AllLawful(rows, CompletionRequest(actor, a, result, evidence, now).mutations, CompletionLicence(a))
  {
    CarriedRows(rows, a);
    CompletionLawful(a, result, evidence, now);
  }

  lemma CompletionSound(rows: Rows, actor: Actor, a: Admission, result: Scored, evidence: seq<EntityId>, now: Timestamp)
    requires ProperAdmission(a)
    ensures AdmissionRead(rows, a) ==>
              Sound(rows, Ok(CompletionRequest(actor, a, result, evidence, now)), CompletionLicence(a))
  {
    if AdmissionRead(rows, a) {
      CompletionSubmittable(rows, actor, a, result, evidence, now);
      CompletionAllLawful(rows, actor, a, result, evidence, now);
    }
  }

  /** `failOperation` */
  function PlanFailEvaluation(rows: Rows, ctx: Context, a: Admission, now: Timestamp): (r: Outcome<Request>)
    ensures AdmissionRead(rows, a) ==> Sound(rows, r, Operating)
  {
    if !ProperAdmission(a) then Err(InvalidRequest) else
    FailureSound(rows, ctx.actor, a, now);
    Ok(FailureRequest(ctx.actor, a, now))
  }

  function FailedOperation(a: Admission, now: Timestamp): Entity
    requires a.operation.body.OfOperation?
  {
    Updated(a.operation, OfOperation(a.operation.body.operation.(state := Failed, lastActivityAt := now,
                                                                 terminalAt := Some(now))))
  }

  function FailedEvaluation(a: Admission): Entity
    requires a.evaluation.body.OfEvaluation?
  {
    Updated(a.evaluation, OfEvaluation(a.evaluation.body.evaluation.(state := EvalFailed)))
  }

  function FailureRequest(actor: Actor, a: Admission, now: Timestamp): Request
    requires ProperAdmission(a)
  {
    var operation, evaluation := FailedOperation(a, now), FailedEvaluation(a);
    Request(
      [Update(operation, a.operation.revision), Update(evaluation, a.evaluation.revision)],
      [Event(operation.id, operation.revision, actor), Event(evaluation.id, evaluation.revision, actor)])
  }

  lemma FailureSound(rows: Rows, actor: Actor, a: Admission, now: Timestamp)
    requires ProperAdmission(a)
    ensures AdmissionRead(rows, a) ==> Sound(rows, Ok(FailureRequest(actor, a, now)), Operating)
  {
    if AdmissionRead(rows, a) {
      CarriedRows(rows, a);
      assert LawfulUpdate(a.operation, FailedOperation(a, now), Operating);
      assert LawfulUpdate(a.evaluation, FailedEvaluation(a), Operating);
    }
  }
}
