/**
 Comparisons, approvals and the three effects that consume them, applications
 and candidate artifacts (packages/application/src/workbench.ts:3208-3296,
 3478-4313, 4360-4590).
 */
module ApprovalCommands {
  import opened Domain
  import opened Store
  import opened Lifecycle
  import opened Listing
  import opened OperationCommands
  import opened Scenarios

  // ---------- comparisons ----------

  predicate IsCurrentEvaluation(rows: Rows, id: EntityId) {
    id in rows && rows[id].body.OfEvaluation?
    && rows[id].body.evaluation.state.EvalCompleted? && rows[id].body.evaluation.staleReason.None?
  }

  /** Produced by an operation of a model session, not by the local demonstration. */
  predicate IsSemantic(rows: Rows, id: EntityId) {
    id in rows && rows[id].body.OfEvaluation?
    && (var operation := rows[id].body.evaluation.operation;
        operation.Some? && operation.value in rows && rows[operation.value].body.OfOperation?
        && (var o := rows[operation.value].body.operation;
            !o.route.Deterministic? && o.session.Some?))
  }

  function Keys(scores: seq<DimensionScore>): (keys: seq<string>)
    ensures |keys| == |scores|
  {
    seq(|scores|, i requires 0 <= i < |scores| => scores[i].key)
  }

  /** `Object.fromEntries`: a later entry replaces an earlier one. */
  function Values(scores: seq<DimensionScore>): map<string, nat> {
    if scores == [] then map[]
    else Values(scores[..|scores| - 1])[scores[|scores| - 1].key := scores[|scores| - 1].value]
  }

  function Projection(e: Entity): ComparisonInput
    requires e.body.OfEvaluation?
  {
    var v := e.body.evaluation;
    ComparisonInput(e.id, e.revision, v.opportunity, v.aggregate, Values(v.scores))
  }

  function ComparisonProjections(rows: Rows, ids: seq<EntityId>): Outcome<seq<ComparisonInput>> {
    if !(|ids| == 3 && Distinct(ids)) then Err(InvalidRequest) else
    :- Require(forall id :: id in ids ==> id in rows && rows[id].body.OfEvaluation?, EntityNotFound);
    :- Require(forall id :: id in ids ==> IsCurrentEvaluation(rows, id), InvalidTransition);
    :- Require(forall id :: id in ids ==> IsSemantic(rows, id), InvalidTransition);
    :- Require(forall id :: id in ids ==>
                 multiset(Keys(rows[id].body.evaluation.scores)) == multiset(Keys(rows[ids[0]].body.evaluation.scores)),
                   InvalidTransition);
    Ok([Projection(rows[ids[0]]), Projection(rows[ids[1]]), Projection(rows[ids[2]])])
  }

  /** One scenario: its weights cover the dimensions and total 10,000; every input is scored, and the inputs ranked. */
  function RunScenario(keys: seq<string>, inputs: seq<ComparisonInput>,
                       weights: map<string, nat>): Outcome<ScenarioResult> {
    if !(weights.Keys == (set k | k in keys) && WeightSum(keys, weights) == TOTAL_BASIS_POINTS)
      then Err(InvalidRequest) else
    var scores := ScoresOf(keys, inputs, weights);
    Ok(ScenarioResult(weights, Rank(scores, EvaluationIds(inputs)), scores))
  }

  function EvaluationIds(inputs: seq<ComparisonInput>): seq<EntityId> {
    if inputs == [] then [] else [inputs[0].evaluation] + EvaluationIds(inputs[1..])
  }

  function ScoresOf(keys: seq<string>, inputs: seq<ComparisonInput>, weights: map<string, nat>): map<EntityId, nat> {
    if inputs == [] then map[]
    else
      var last := inputs[|inputs| - 1];
      ScoresOf(keys, inputs[..|inputs| - 1], weights)[last.evaluation := Score(keys, last.values, weights)]
  }

  function RunScenarios(keys: seq<string>, inputs: seq<ComparisonInput>,
                        scenarios: seq<map<string, nat>>): Outcome<seq<ScenarioResult>> {
    if scenarios == [] then Ok([])
    else
      var first :- RunScenario(keys, inputs, scenarios[0]);
      var rest :- RunScenarios(keys, inputs, scenarios[1..]);
      Ok([first] + rest)
  }

  function PlanProposeComparison(rows: Rows, ctx: Context, operation: EntityId, id: EntityId,
                                 evaluations: seq<EntityId>,
                                 scenarios: seq<map<string, nat>>, wellFormed: bool): (r: Outcome<Request>)
    ensures Sound(rows, r, Comparing)
  {
    var op :- AuthorizeOperation(rows, ctx, operation);
    var o := op.body.operation;
    :- Require(o.route.Rlm? && (o.state.Queued? || o.state.Running?), InvalidTransition);
    :- Require(wellFormed && 0 < |scenarios| <= 8, InvalidRequest);
    var comparison :- ProposedComparison(rows, operation, evaluations, scenarios);
    Ok(ComparisonRequest(rows, ctx.actor, id, comparison))
  }

  function ComparisonRequest(rows: Rows, actor: Actor, id: EntityId, c: Comparison): (r: Request)
    requires c.state.CompProposed? && c.acceptedAt.None? && c.staleReason.None?
    ensures Sound(rows, Ok(r), Comparing)
  {
    Create(rows, actor, id, OfComparison(c), Comparing)
  }

  function ProposedComparison(rows: Rows, operation: EntityId, evaluations: seq<EntityId>,
                              scenarios: seq<map<string, nat>>): (r: Outcome<Comparison>)
    ensures r.Ok? ==> r.value.state.CompProposed? && r.value.acceptedAt.None? && r.value.staleReason.None?
  {
    var inputs :- ComparisonProjections(rows, evaluations);
    var results :- RunScenarios(Keys(rows[evaluations[0]].body.evaluation.scores), inputs, scenarios);
    Ok(Comparison(inputs, results, CompProposed, operation, None, None))
  }

  // ---------- approvals ----------

  /** `approvalEffectDigest`; `EffectText.EffectTextInjective` is why it can stand for its arguments. */
  function EffectDigest(effect: EffectKind, target: EntityId, revision: nat, details: EffectDetails): Digest {
    OfEffect(effect, target, revision, details)
  }

  function IsDraft(a: Artifact): bool { a.kind.Draft? }

  function PlanRequestApproval(rows: Rows, ctx: Context, id: EntityId, effect: EffectKind, target: EntityId,
                               expected: nat,
                               expiresIn: nat, transition: Option<EffectDetails>, wellFormed: bool,
                               now: Timestamp): (r: Outcome<Request>)
    ensures Sound(rows, r, Requesting)
  {
    if !IsDirectUser(ctx.actor) then Err(ApprovalRequired) else
    :- Require(1 <= expiresIn <= 3600, InvalidRequest);
    var details :- RequestedDetails(rows, effect, target, expected, transition, wellFormed);
    var approval := Approval(effect, target, EffectDigest(effect, target, expected, details), map[target := expected],
                             Pending, now + expiresIn, None);
    Ok(Create(rows, ctx.actor, id, OfApproval(approval), Requesting))
  }

  function RequestedDetails(rows: Rows, effect: EffectKind, target: EntityId, expected: nat,
                            transition: Option<EffectDetails>, wellFormed: bool): Outcome<EffectDetails> {
    match effect
    case AcceptComparisonEffect =>
      :- Require(transition.None?, InvalidRequest);
      var comparison :- Fetch(rows, ComparisonKind, target);
      :- Require(comparison.revision == expected, RevisionConflict);
      :- Require(comparison.body.comparison.state.CompProposed?, InvalidTransition);
      Ok(NoDetails)
    case ReviewArtifactEffect =>
      :- Require(transition.None?, InvalidRequest);
      var artifact :- Fetch(rows, ArtifactTable, target);
      :- Require(artifact.revision == expected, RevisionConflict);
      :- Require(artifact.body.artifact.state.Staged? && IsDraft(artifact.body.artifact), InvalidTransition);
      Ok(NoDetails)
    case TransitionEffect =>
      :- Require(transition.Some? && transition.value.TransitionDetails?, InvalidRequest);
      var application :- Fetch(rows, ApplicationKind, target);
      :- Require(application.revision == expected, RevisionConflict);
      :- Require(wellFormed, InvalidRequest);
      :- Require(ApplicationEdge(application.body.application.state, transition.value.state), InvalidTransition);
      Ok(transition.value)
  }

  predicate Lapsed(a: Approval, clock: Timestamp) { a.expiresAt <= clock }

  function ExpireRequest(rows: Rows, ctx: Context, approval: Entity): (r: Request)
    requires approval.body.OfApproval? && (approval.body.approval.state.Pending?
                                           || approval.body.approval.state.Approved?)
    requires Keyed(rows) ==> approval.id in rows && rows[approval.id] == approval
    ensures Sound(rows, Ok(r), Ordinary) && Sound(rows, Ok(r), Consuming)
  {
    var expired := OfApproval(approval.body.approval.(state := Expired));
    assert Revise(rows, ctx.actor, approval, expired, Consuming)
           == Revise(rows, ctx.actor, approval, expired, Ordinary);
    Revise(rows, ctx.actor, approval, expired, Ordinary)
  }

  /** A lapsed approval is not decided: what the command commits then is its expiry. */
  function PlanDecideApproval(rows: Rows, ctx: Context, id: EntityId, expected: nat, approve: bool, interaction: nat,
                              wellFormed: bool, clock: Timestamp): (r: Outcome<Request>)
    ensures Sound(rows, r, Ordinary)
  {
    if !IsDirectUser(ctx.actor) then Err(ApprovalRequired) else
    :- Require(wellFormed, InvalidRequest);
    var approval :- Fetch(rows, ApprovalKind, id);
    var a := approval.body.approval;
    :- Require(!a.state.Denied?, ApprovalDenied);
    if Lapsed(a, clock) && (a.state.Pending? || a.state.Approved?) then Ok(ExpireRequest(rows, ctx, approval))
    else
      :- Require(a.state.Pending?, ApprovalStale);
      :- Require(approval.revision == expected, ApprovalStale);
      var decided := a.(state := if approve then Approved else Denied, interaction := if approve then Some(interaction)
                        else None);
      Ok(Revise(rows, ctx.actor, approval, OfApproval(decided), Ordinary))
  }

  /** The `ApprovalConsumption` a caller supplies. */
  datatype Consumption = Consumption(approval: Option<EntityId>, expected: Option<nat>)

  datatype Usability = Usable(approval: Entity) | Lapsing(request: Request)

  /** `requireApprovedEffect` */
  function RequireApprovedEffect(rows: Rows, ctx: Context, effect: EffectKind, target: EntityId, revision: nat,
                                 consumption: Consumption, details: EffectDetails,
                                 clock: Timestamp): (r: Outcome<Usability>)
    ensures r.Ok? && r.value.Usable? ==>
              && consumption.approval.Some? && consumption.approval.value in rows
                && r.value.approval == rows[consumption.approval.value]
              && r.value.approval.body.OfApproval?
              && (var a := r.value.approval.body.approval;
                  && a.state.Approved? && a.interaction.Some? && clock < a.expiresAt
                  && a.effect == effect && a.target == target && a.expected == map[target := revision]
                  && a.digest == EffectDigest(effect, target, revision, details))
    ensures r.Ok? && r.value.Lapsing? ==> Sound(rows, Ok(r.value.request), Consuming)
  {
    if !(consumption.approval.Some? && consumption.expected.Some?) then Err(ApprovalRequired) else
    :- Require(Fetch(rows, ApprovalKind, consumption.approval.value).Ok?, ApprovalStale);
    var approval := rows[consumption.approval.value];
    var a := approval.body.approval;
    :- Require(!a.state.Denied?, ApprovalDenied);
    if Lapsed(a, clock) then
      if a.state.Pending? || a.state.Approved? then
        Ok(Lapsing(ExpireRequest(rows, ctx, approval)))
      else Err(ApprovalStale)
    else
      :- Require(!a.state.Pending?, ApprovalRequired);
      :- Require(a.state.Approved?, ApprovalStale);
      :- Require(approval.revision == consumption.expected.value, ApprovalStale);
      :- Require(a.effect == effect && a.target == target && a.expected == map[target := revision]
                 && a.digest == EffectDigest(effect, target, revision, details) && a.interaction.Some?, ApprovalStale);
      Ok(Usable(approval))
  }

  function Consume(approval: Entity): Entity
    requires approval.body.OfApproval?
  {
    Updated(approval, OfApproval(approval.body.approval.(state := Consumed)))
  }

  /** The commit that performs an effect on one row and consumes its approval. */
  function EffectRequest(rows: Rows, ctx: Context, changed: Entity, expected: nat, approval: Entity): (r: Request)
    requires approval.body.OfApproval? && approval.body.approval.state.Approved?
             && approval.body.approval.interaction.Some?
    requires !changed.body.OfApproval?
    requires Keyed(rows) ==> approval.id in rows && rows[approval.id] == approval
    requires Keyed(rows) ==>
               FromView(rows, Update(changed, expected)) && LawfulUpdate(rows[changed.id], changed, Consuming)
    requires Keyed(rows) ==> Performs(approval.body.approval, Update(changed, expected))
    requires UserOnly(Update(changed, expected)) ==> IsDirectUser(ctx.actor)
    ensures Sound(rows, Ok(r), Consuming)
  {
    Request([Update(changed, expected), Update(Consume(approval), approval.revision)],
            [Event(changed.id, changed.revision, ctx.actor), Event(approval.id, approval.revision + 1, ctx.actor)])
  }

  /** The recorded revisions of the inputs are the current ones. */
  predicate SameRevisions(current: seq<ComparisonInput>, recorded: seq<ComparisonInput>) {
    |current| == |recorded| && forall i :: 0 <= i < |current| ==> current[i].revision == recorded[i].revision
  }

  function PlanAcceptComparison(rows: Rows, ctx: Context, id: EntityId, expected: nat, consumption: Consumption,
                                clock: Timestamp, now: Timestamp): (r: Outcome<Request>)
    ensures Sound(rows, r, Consuming)
  {
    if !IsDirectUser(ctx.actor) then Err(ApprovalRequired) else
    var usability :- RequireApprovedEffect(rows, ctx, AcceptComparisonEffect, id, expected, consumption, NoDetails,
                                           clock);
    match usability
    case Lapsing(expiry) => Ok(expiry)
    case Usable(approval) =>
      var accepted :- AcceptedComparison(rows, id, expected, now);
      Ok(EffectRequest(rows, ctx, accepted, expected, approval))
  }

  /** The comparison as accepted, if its inputs are still current at the recorded revisions. */
  function AcceptedComparison(rows: Rows, id: EntityId, expected: nat, now: Timestamp): (r: Outcome<Entity>)
    ensures r.Ok? ==> r.value.body.OfComparison? && r.value.body.comparison.state.CompAccepted?
    ensures r.Ok? && Keyed(rows) ==>
              r.value.id == id && FromView(rows, Update(r.value, expected))
                && LawfulUpdate(rows[r.value.id], r.value, Consuming)
  {
    var comparison :- Fetch(rows, ComparisonKind, id);
    var c := comparison.body.comparison;
    :- Require(comparison.revision == expected, ApprovalStale);
    :- Require(c.state.CompProposed?, InvalidTransition);
    var current :- ComparisonProjections(rows, EvaluationIds(c.inputs));
    :- Require(SameRevisions(current, c.inputs), ApprovalStale);
    AcceptanceLawful(comparison, now);
    Ok(Accept(comparison, now))
  }

  function Accept(comparison: Entity, now: Timestamp): Entity
    requires comparison.body.OfComparison?
  {
    Updated(comparison, OfComparison(comparison.body.comparison.(state := CompAccepted, acceptedAt := Some(now))))
  }

  lemma AcceptanceLawful(comparison: Entity, now: Timestamp)
    requires comparison.body.OfComparison? && comparison.body.comparison.state.CompProposed?
    ensures LawfulUpdate(comparison, Accept(comparison, now), Consuming)
  {
  }

  // ---------- applications ----------

  predicate AppliesTo(rows: Rows, opportunity: EntityId, id: EntityId) {
    id in rows && rows[id].body.OfApplication? && rows[id].body.application.opportunity == opportunity
  }

  function PlanCreateApplication(rows: Rows, ctx: Context, id: EntityId, opportunity: EntityId, effectiveDate: string,
                                 note: Option<string>, wellFormed: bool): (r: Outcome<Request>)
    ensures Sound(rows, r, Ordinary)
  {
    var _ :- Fetch(rows, OpportunityKind, opportunity);
    :- Require(forall a :: a in rows ==> !AppliesTo(rows, opportunity, a), DuplicateIdentity);
    :- Require(wellFormed, InvalidRequest);
    Ok(Create(rows, ctx.actor, id, OfApplication(Application(opportunity, Considering, 1, effectiveDate, note)),
              Ordinary))
  }

  /** `details` carries the state, date and normalised note of the request. */
  function PlanTransitionApplication(rows: Rows, ctx: Context, id: EntityId, expected: nat, details: EffectDetails,
                                     consumption: Consumption,
                                     wellFormed: bool, clock: Timestamp): (r: Outcome<Request>)
    ensures Sound(rows, r, Consuming)
  {
    if !(wellFormed && details.TransitionDetails?) then Err(InvalidRequest) else
    if !IsDirectUser(ctx.actor) || consumption.approval.Some? || consumption.expected.Some? then
      var usability :- RequireApprovedEffect(rows, ctx, TransitionEffect, id, expected, consumption, details, clock);
      match usability
      case Lapsing(expiry) => Ok(expiry)
      case Usable(approval) =>
        var changed :- Transitioned(rows, id, expected, details, ApprovalStale);
        Ok(EffectRequest(rows, ctx, changed, expected, approval))
    else
      var changed :- Transitioned(rows, id, expected, details, RevisionConflict);
      Ok(Request([Update(changed, expected)], [Event(changed.id, changed.revision, ctx.actor)]))
  }

  function Transitioned(rows: Rows, id: EntityId, expected: nat, details: EffectDetails,
                        stale: Code): (r: Outcome<Entity>)
    requires details.TransitionDetails?
    ensures r.Ok? ==> r.value.body.OfApplication?
                      && (var a := r.value.body.application;
                          details == TransitionDetails(a.state, a.effectiveDate, a.note))
    ensures r.Ok? && Keyed(rows) ==>
              r.value.id == id && FromView(rows, Update(r.value, expected))
                && LawfulUpdate(rows[r.value.id], r.value, Consuming)
  {
    var application :- Fetch(rows, ApplicationKind, id);
    var a := application.body.application;
    :- Require(application.revision == expected, stale);
    :- Require(ApplicationEdge(a.state, details.state), InvalidTransition);
    Ok(Updated(application, OfApplication(a.(state := details.state, stateRevision := a.stateRevision + 1,
                                             effectiveDate := details.effectiveDate, note := details.note))))
  }

  // ---------- artifacts ----------

  predicate SupportsFact(rows: Rows, fact: EntityId, id: EntityId) {
    id in rows && rows[id].body.OfEvidence?
    && rows[id].body.evidence.classification.CandidateFact? && rows[id].body.evidence.decision.Accepted?
    && rows[id].body.evidence.fact == Some(fact)
  }

  /** The first accepted evidence of each fact, or nothing if one fact has none. */
  function SupportOf(rows: Rows, facts: seq<EntityId>): Outcome<seq<EntityId>> {
    if facts == [] then Ok([])
    else
      var support := Select(ListIds(rows, EvidenceKind), (id: EntityId) => SupportsFact(rows, facts[0], id));
      :- Require(support != [], EvidenceUnsupported);
      var rest :- SupportOf(rows, facts[1..]);
      Ok([support[0]] + rest)
  }

  /** The rendered bytes are an input; sealing returns their digest. */
  function PlanCreateDraft(rows: Rows, ctx: Context, id: EntityId, style: nat, opportunity: EntityId,
                           facts: seq<EntityId>, bytes: seq<nat>, wellFormed: bool): (r: Outcome<Request>)
    ensures Sound(rows, r, Ordinary)
  {
    if !(wellFormed && 0 < |facts| <= 32 && Distinct(facts)) then Err(InvalidRequest) else
    var _ :- Fetch(rows, OpportunityKind, opportunity);
    :- Require(forall f :: f in facts ==> f in rows && rows[f].body.OfFact?, EntityNotFound);
    :- Require(forall f :: f in facts ==> rows[f].body.fact.status.Verified?, EvidenceUnsupported);
    var support :- SupportOf(rows, facts);
    Ok(Create(rows, ctx.actor, id, OfArtifact(Artifact(Draft(style), Sha256(bytes), facts, support, [], Staged, None)),
              Ordinary))
  }

  function PlanReviewDraft(rows: Rows, ctx: Context, id: EntityId, expected: nat, consumption: Consumption,
                           clock: Timestamp): (r: Outcome<Request>)
    ensures Sound(rows, r, Consuming)
  {
    if !IsDirectUser(ctx.actor) then Err(ApprovalRequired) else
    var usability :- RequireApprovedEffect(rows, ctx, ReviewArtifactEffect, id, expected, consumption, NoDetails,
                                           clock);
    match usability
    case Lapsing(expiry) => Ok(expiry)
    case Usable(approval) =>
      var artifact :- Fetch(rows, ArtifactTable, id);
      var a := artifact.body.artifact;
      :- Require(artifact.revision == expected, ApprovalStale);
      :- Require(a.state.Staged? && IsDraft(a), InvalidTransition);
      Ok(EffectRequest(rows, ctx, Updated(artifact, OfArtifact(a.(state := Sealed))), expected, approval))
  }

  /** The facts behind the accepted evidence of an evaluation. */
  function FactsBehind(rows: Rows, evidence: seq<EntityId>): seq<EntityId> {
    if evidence == [] then []
    else
      var id := evidence[0];
      (if id in rows && rows[id].body.OfEvidence? && rows[id].body.evidence.fact.Some?
       then [rows[id].body.evidence.fact.value] else [])
      + FactsBehind(rows, evidence[1..])
  }

  function PlanSealReport(rows: Rows, ctx: Context, id: EntityId, evaluation: EntityId,
                          bytes: seq<nat>): (r: Outcome<Request>)
    ensures Sound(rows, r, Ordinary)
  {
    var e :- Fetch(rows, EvaluationKind, evaluation);
    var v := e.body.evaluation;
    :- Require(v.state.EvalCompleted?, ArtifactUnsealed);
    var _ :- Fetch(rows, OpportunityKind, v.opportunity);
    :- Require(forall x :: x in v.acceptedEvidence ==> x in rows && rows[x].body.OfEvidence?, EntityNotFound);
    :- Require(forall x :: x in v.acceptedEvidence ==> rows[x].body.evidence.decision.Accepted?, EvidenceUnsupported);
    var report := Artifact(EvaluationReport, Sha256(bytes), FactsBehind(rows, v.acceptedEvidence), v.acceptedEvidence,
                           [evaluation], Sealed, None);
    Ok(Create(rows, ctx.actor, id, OfArtifact(report), Ordinary))
  }

  // ---------- expiry ----------

  /** What consumes an approval has seen it unexpired. */
  ghost predicate SeenUnexpired(request: Request, clock: Timestamp) {
    forall m :: m in request.mutations && Consumes(m) ==> clock < m.entity.body.approval.expiresAt
  }

  lemma AcceptanceUnexpired(rows: Rows, ctx: Context, id: EntityId, expected: nat, consumption: Consumption,
                            clock: Timestamp, now: Timestamp)
    ensures var r := PlanAcceptComparison(rows, ctx, id, expected, consumption, clock, now);
            r.Ok? ==> SeenUnexpired(r.value, clock)
  {
  }

  lemma TransitionUnexpired(rows: Rows, ctx: Context, id: EntityId, expected: nat, details: EffectDetails,
                            consumption: Consumption, wellFormed: bool, clock: Timestamp)
    ensures var r := PlanTransitionApplication(rows, ctx, id, expected, details, consumption, wellFormed, clock);
            r.Ok? ==> SeenUnexpired(r.value, clock)
  {
  }

  lemma ReviewUnexpired(rows: Rows, ctx: Context, id: EntityId, expected: nat, consumption: Consumption,
                        clock: Timestamp)
    ensures var r := PlanReviewDraft(rows, ctx, id, expected, consumption, clock);
            r.Ok? ==> SeenUnexpired(r.value, clock)
  {
  }
}
