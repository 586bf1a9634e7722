/**
 The life of each record: what a command may insert and how it may change a row.

 `Licence` says which family of commands a request comes from. Only the few
 families named in a clause may make the changes on which the properties across
 records rest: consume an approval, link a correction to the fact it replaces,
 decide evidence, complete an evaluation, run a staleness cascade, or record a
 lead. `Shaped` says how those changes go together in one request.
 */
module Lifecycle {
  import opened Domain
  import opened Store
  import opened Listing

  datatype Licence =
    | Profiling      // set-up, sources, new facts, imports
    | Linking        // confirming or correcting a proposed fact
    | Cascading      // correcting a verified fact
    | Proposing      // new evidence
    | Deciding       // accepting or rejecting evidence
    | Operating      // operations, and the admission and failure of evaluations
    | Completing     // completing an evaluation
    | Replaying      // the same by a call whose admission was a replay
    | Comparing      // new comparisons
    | Requesting     // new approvals
    | Consuming      // the effects that need an approval
    | Recording      // discovery leads found by an operation
    | Triaging       // discovery leads decided by the user
    | Ordinary       // everything else

  predicate MayLink(licence: Licence) { licence.Linking? || licence.Cascading? }

  predicate MayComplete(licence: Licence) { licence.Completing? || licence.Replaying? }

  /** An approval names one target at one revision and the digest of one effect on it. */
  ghost predicate Bound(a: Approval) {
    a.digest.OfEffect? && a.digest.kind == a.effect && a.digest.target == a.target
      && a.expected == map[a.target := a.digest.revision]
  }

  ghost predicate LawfulInsert(e: Entity, licence: Licence) {
    match e.body
    case OfSource(s) => (licence.Profiling? && s.supersedes.None?) || licence.Recording?
    case OfFact(f) =>
      && !f.status.Superseded?
      && (licence.Profiling? || MayLink(licence))
      && (f.supersedes.Some? <==> MayLink(licence))
      && (f.supersedes.Some? ==> f.status.Verified? && f.proposedBy.ByUser? && f.confirmedAt.Some?)
    case OfLead(l) => licence.Recording? && l.state.LeadNew? && l.resultOpportunity.None?
    case OfEvidence(v) => licence.Proposing? && v.decision.EvidenceProposed?
    case OfEvaluation(v) => licence.Operating? && v.state.EvalRunning? && v.operation.Some? && v.staleReason.None?
    case OfComparison(c) => licence.Comparing? && c.state.CompProposed? && c.acceptedAt.None? && c.staleReason.None?
    case OfArtifact(a) => a.kind.Draft? ==> a.state.Staged?
    case OfSearchProfile(_) => licence.Ordinary?
    case OfOperation(o) => licence.Operating? && !Terminal(o.state) && o.terminalAt.None? && o.results == []
    case OfApproval(a) => licence.Requesting? && a.state.Pending? && a.interaction.None? && Bound(a)
    case _ => true
  }

  ghost predicate FactStep(was: Fact, f: Fact, licence: Licence) {
    && f.supersedes == was.supersedes && f.locators == was.locators && f.proposedBy == was.proposedBy
    && f.subject == was.subject && f.predicate_ == was.predicate_ && f.value == was.value
    && MayLink(licence) && !was.status.Superseded?
    && (if f.status.Superseded? then f.confirmedAt == was.confirmedAt
        else was.status.FactProposed? || was.status.DerivedUnverified?)
  }

  ghost predicate LeadStep(was: Lead, l: Lead, licence: Licence) {
    && l.url == was.url
    && (if licence.Recording? then !was.state.LeadShortlisted? && l.state.LeadNew? && l.resultOpportunity.None?
        else licence.Triaging? && l == was.(state := l.state, resultOpportunity := l.resultOpportunity)
             && (if l.state.LeadNew? then was.state.LeadDismissed? else was.state.LeadNew?)
             && (l.resultOpportunity.Some? <==> l.state.LeadShortlisted?))
  }

  ghost predicate EvaluationStep(was: Evaluation, v: Evaluation, licence: Licence) {
    && v.operation == was.operation && v.opportunity == was.opportunity && v.rubric == was.rubric
    && match v.state
       case EvalCompleted => MayComplete(licence) && was.state.EvalRunning? && v.staleReason == was.staleReason
       case EvalFailed => licence.Operating? && was.state.EvalRunning? && v == was.(state := EvalFailed)
       case EvalStale =>
         licence.Cascading? && was.state.EvalCompleted? && v == was.(state := EvalStale, staleReason := v.staleReason)
       case _ => false
  }

  ghost predicate ComparisonStep(was: Comparison, c: Comparison, licence: Licence) {
    match c.state
    case CompAccepted =>
      licence.Consuming? && was.state.CompProposed? && c.acceptedAt.Some?
        && c == was.(state := CompAccepted, acceptedAt := c.acceptedAt)
    case CompStale =>
      licence.Cascading? && !was.state.CompStale? && c == was.(state := CompStale, staleReason := c.staleReason)
    case CompProposed => false
  }

  ghost predicate ArtifactStep(was: Artifact, a: Artifact, licence: Licence) {
    match a.state
    case Sealed => licence.Consuming? && was.kind.Draft? && was.state.Staged? && a == was.(state := Sealed)
    case ArtStale =>
      licence.Cascading? && was.state.Sealed? && a == was.(state := ArtStale, staleReason := a.staleReason)
    case _ => false
  }

  ghost predicate OperationStep(was: Operation, o: Operation, licence: Licence) {
    && o.kind == was.kind && o.input == was.input && o.inputRevision == was.inputRevision
      && o.inputDigest == was.inputDigest
    && (licence.Operating? || (MayComplete(licence) && was.state.Running?))
    && o.session == was.session && o.parent == was.parent && o.route == was.route
    && (if Terminal(was.state) then o == was.(lastActivityAt := o.lastActivityAt)
        else if Terminal(o.state) then o.terminalAt.Some?
        else o.terminalAt == was.terminalAt && o.results == was.results)
  }

  ghost predicate ApprovalStep(was: Approval, a: Approval, licence: Licence) {
    && a == was.(state := a.state, interaction := a.interaction)
    && ApprovalEdge(was.state, a.state)
    && (a.state.Approved? ==> a.interaction.Some?)
    && (a.state.Consumed? ==> licence.Consuming?)
    && (a.state.Consumed? || a.state.Expired? ==> a.interaction == was.interaction)
  }

  ghost predicate ApplicationStep(was: Application, a: Application) {
    ApplicationEdge(was.state, a.state) && a.stateRevision == was.stateRevision + 1 && a.opportunity == was.opportunity
  }

  ghost predicate LawfulUpdate(was: Entity, e: Entity, licence: Licence)
    requires SameKind(was, e)
  {
    match e.body
    case OfSource(_) => false
    case OfManifest(_) => false
    case OfFact(f) => FactStep(was.body.fact, f, licence)
    case OfLead(l) => LeadStep(was.body.lead, l, licence)
    case OfEvidence(v) =>
      && licence.Deciding? && was.body.evidence.decision.EvidenceProposed? && !v.decision.EvidenceProposed?
      && v == was.body.evidence.(decision := v.decision)
    case OfEvaluation(v) => EvaluationStep(was.body.evaluation, v, licence)
    case OfComparison(c) => ComparisonStep(was.body.comparison, c, licence)
    case OfArtifact(a) => ArtifactStep(was.body.artifact, a, licence)
    case OfOperation(o) => OperationStep(was.body.operation, o, licence)
    case OfApproval(a) => ApprovalStep(was.body.approval, a, licence)
    case OfApplication(a) => ApplicationStep(was.body.application, a)
    case _ => true
  }

  ghost predicate Lawful(view: Rows, m: Mutation, licence: Licence) {
    match m
    case Insert(e) => LawfulInsert(e, licence)
    case Update(e, _) => e.id in view && SameKind(view[e.id], e) && LawfulUpdate(view[e.id], e, licence)
  }

  ghost predicate AllLawful(view: Rows, ms: seq<Mutation>, licence: Licence) {
    forall m :: m in ms ==> Lawful(view, m, licence)
  }

  // ---------- how changes go together ----------

  ghost predicate Supersedes(m: Mutation) {
    m.Update? && m.entity.body.OfFact? && m.entity.body.fact.status.Superseded?
  }

  ghost predicate LinksFact(m: Mutation) { m.Insert? && m.entity.body.OfFact? && m.entity.body.fact.supersedes.Some? }

  /** A fact is superseded exactly when its one replacement is inserted. */
  ghost predicate LinkShape(ms: seq<Mutation>) {
    if exists m :: m in ms && (Supersedes(m) || LinksFact(m)) then
      && |ms| >= 2 && Supersedes(ms[0]) && LinksFact(ms[1])
        && ms[1].entity.body.fact.supersedes == Some(ms[0].entity.id)
      && forall i :: 2 <= i < |ms| ==> !ms[i].entity.body.OfFact?
    else true
  }

  /** The effect that an approval's digest describes, on one row at one revision. */
  ghost predicate Performs(a: Approval, m: Mutation) {
    && m.Update? && a.target == m.entity.id && a.expected == map[a.target := m.expected]
    && a.digest.OfEffect? && a.digest.kind == a.effect && a.digest.target == a.target && a.digest.revision == m.expected
    && match a.effect
       case AcceptComparisonEffect => m.entity.body.OfComparison? && m.entity.body.comparison.state.CompAccepted?
       case ReviewArtifactEffect =>
         m.entity.body.OfArtifact? && m.entity.body.artifact.kind.Draft? && m.entity.body.artifact.state.Sealed?
       case TransitionEffect =>
         m.entity.body.OfApplication?
         && (var app := m.entity.body.application;
             a.digest.details == TransitionDetails(app.state, app.effectiveDate, app.note))
  }

  ghost predicate Consumes(m: Mutation) { m.entity.body.OfApproval? && m.entity.body.approval.state.Consumed? }

  ghost predicate NeedsApproval(m: Mutation) {
    (m.entity.body.OfComparison? && m.entity.body.comparison.state.CompAccepted?)
    || (m.Update? && m.entity.body.OfArtifact? && m.entity.body.artifact.state.Sealed?)
  }

  /** An approval is consumed only together with the effect it describes, and the effects that need one only with it. */
  ghost predicate EffectShape(ms: seq<Mutation>) {
    if exists m :: m in ms && (Consumes(m) || NeedsApproval(m)) then
      |ms| == 2 && Consumes(ms[1]) && ms[1].Update? && Performs(ms[1].entity.body.approval, ms[0])
    else true
  }

  /** An evaluation completes together with its operation. */
  ghost predicate CompletionShape(ms: seq<Mutation>) {
    && |ms| == 4
    && ms[0].Update? && ms[0].entity.body.OfEvaluation? && ms[0].entity.body.evaluation.state.EvalCompleted?
    && ms[1].Update? && ms[1].entity.body.OfOperation? && ms[1].entity.body.operation.state.Succeeded?
    && ms[0].entity.body.evaluation.operation == Some(ms[1].entity.id)
    && ms[2].entity.body.OfOpportunity? && ms[3].entity.body.OfRubric?
  }

  /** It is then the one result of the operation. */
  ghost predicate ResultNamed(ms: seq<Mutation>) {
    CompletionShape(ms) && ms[1].entity.body.operation.results == [ms[0].entity.id]
  }

  ghost predicate Shaped(ms: seq<Mutation>, licence: Licence) {
    match licence
    case Linking => LinkShape(ms)
    case Cascading => LinkShape(ms)
    case Consuming => EffectShape(ms)
    case Completing => ResultNamed(ms)
    case Replaying => CompletionShape(ms)
    case _ => true
  }

  // ---------- who acts ----------

  /** The changes that only the user makes in person. */
  ghost predicate UserOnly(m: Mutation) {
    match m.entity.body
    case OfApproval(a) => a.state.Pending? || a.state.Approved? || a.state.Denied?
    case OfComparison(c) => c.state.CompAccepted?
    case OfArtifact(a) => m.Update? && a.state.Sealed?
    case OfLead(l) => !l.state.LeadNew?
    case OfSearchProfile(_) => true
    case _ => false
  }

  /** An application moves by the user's own hand or under an approval of exactly that move. */
  ghost predicate MovesApplication(m: Mutation) { m.Update? && m.entity.body.OfApplication? }

  ghost predicate Attributed(request: Request)
    requires |request.events| == |request.mutations|
  {
    forall i :: 0 <= i < |request.mutations| ==>
      && (UserOnly(request.mutations[i]) ==> IsDirectUser(request.events[i].actor))
      && (MovesApplication(request.mutations[i]) ==>
            IsDirectUser(request.events[i].actor) || (|request.mutations| == 2 && i == 0
                                                      && Consumes(request.mutations[1])))
  }

  /** What a call whose admission was a replay submits may have events and a result that name no record. */
  ghost predicate SoundRequest(view: Rows, request: Request, licence: Licence) {
    && Submittable(view, request) && (licence.Replaying? || Truthful(request))
    && AllLawful(view, request.mutations, licence) && Shaped(request.mutations, licence)
    && Attributed(request)
  }

  /** The promise of every plan: what it submits, if anything, is well formed, lawful and in shape. */
  ghost predicate Sound(view: Rows, r: Outcome<Request>, licence: Licence) {
    Keyed(view) && r.Ok? && r.value.mutations != [] ==> SoundRequest(view, r.value, licence)
  }

  /** A mutation that needs no companion. */
  ghost predicate Alone(m: Mutation, licence: Licence) {
    !MayComplete(licence) && !Supersedes(m) && !LinksFact(m) && !Consumes(m) && !NeedsApproval(m)
  }

  /** The request that inserts one record. */
  function Create(ghost view: Rows, actor: Actor, id: EntityId, body: Body, ghost licence: Licence): (r: Request)
    requires LawfulInsert(Entity(id, 1, body), licence) && Alone(Insert(Entity(id, 1, body)), licence)
    requires UserOnly(Insert(Entity(id, 1, body))) ==> IsDirectUser(actor)
    ensures Sound(view, Ok(r), licence)
  {
    Request([Insert(Entity(id, 1, body))], [Event(id, 1, actor)])
  }

  /** The request that gives one record it has read a new body. */
  function Revise(ghost view: Rows, actor: Actor, was: Entity, body: Body, ghost licence: Licence): (r: Request)
    requires Keyed(view) ==> was.id in view && view[was.id] == was
    requires SameKind(was, Updated(was, body)) && LawfulUpdate(was, Updated(was, body), licence)
    requires Alone(Update(Updated(was, body), was.revision), licence)
    requires UserOnly(Update(Updated(was, body), was.revision)) || body.OfApplication? ==> IsDirectUser(actor)
    ensures Sound(view, Ok(r), licence)
  {
    Request([Update(Updated(was, body), was.revision)], [Event(was.id, was.revision + 1, actor)])
  }

  /** A request that only inserts keeps that promise whatever was read. */
  ghost predicate InsertsOnly(r: Outcome<Request>) {
    r.Ok? ==>
      && |r.value.events| == |r.value.mutations|
      && forall i :: 0 <= i < |r.value.mutations| ==>
           && r.value.mutations[i].Insert?
           && r.value.mutations[i].entity.revision == 1
           && LawfulInsert(r.value.mutations[i].entity, Profiling)
           && r.value.events[i].aggregate == r.value.mutations[i].entity.id
           && r.value.events[i].revision == 1
  }

  lemma InsertsOnlySound(view: Rows, r: Outcome<Request>)
    requires InsertsOnly(r)
    ensures Sound(view, r, Profiling)
  {
    if r.Ok? {
      forall m | m in r.value.mutations
        ensures FromView(view, m) && Lawful(view, m, Profiling)
      {
        var i :| 0 <= i < |r.value.mutations| && r.value.mutations[i] == m;
      }
    }
  }

  ghost predicate NewRow(e: Entity) { e.revision == 1 && LawfulInsert(e, Profiling) }

  lemma NewRowsOnly(entities: seq<Entity>, actor: Actor)
    requires forall e :: e in entities ==> NewRow(e)
    ensures InsertsOnly(Ok(Request(Inserts(entities), EventsOf(entities, actor))))
  {
    forall i | 0 <= i < |entities|
      ensures NewRow(entities[i])
    {
      assert entities[i] in entities;
    }
  }

  ghost predicate Impersonal(e: Entity) { !UserOnly(Update(e, Before(e))) && !e.body.OfApplication? }

  lemma RevisionsSound(view: Rows, entities: seq<Entity>, actor: Actor, licence: Licence)
    requires Keyed(view) && !MayComplete(licence) && Shaped(Updates(entities), licence)
    requires forall e :: e in entities ==>
               FromView(view, Update(e, Before(e))) && Lawful(view, Update(e, Before(e)), licence)
    requires forall e :: e in entities ==> Impersonal(e)
    requires forall i, j :: 0 <= i < j < |entities| ==> entities[i].id != entities[j].id
    ensures Sound(view, Ok(Request(Updates(entities), EventsOf(entities, actor))), licence)
  {
    forall m | m in Updates(entities)
      ensures FromView(view, m) && Lawful(view, m, licence)
    {
      var i :| 0 <= i < |entities| && Updates(entities)[i] == m;
      assert entities[i] in entities;
    }
    assert forall i :: 0 <= i < |entities| ==> entities[i] in entities && Impersonal(entities[i]);
  }
}
