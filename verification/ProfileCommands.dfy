/**
 Workspace set-up, sources, profile facts and evidence
 (packages/application/src/workbench.ts:499-1296, 1894-2099, 3298-3476).

 A plan is everything a command does before its commit, as a function of the
 rows it reads. Checks on the length or spelling of input text are one flag,
 `wellFormed`.
 */
module ProfileCommands {
  import opened Domain
  import opened Store
  import opened Lifecycle
  import opened Listing
  import opened EvidenceRules

  const MAX_INLINE_SOURCE_BYTES := 1024 * 1024
  const MAX_CANDIDATE_FILE_BYTES := 5 * 1024 * 1024
  const MAX_CANDIDATE_EXTRACTION_BYTES := 48 * 1024

  predicate IsDsh(actor: Actor) { actor.DshAgent? || actor.DshChild? }

  /** `context.dshSessionId === operation.dshSessionId`; an absent session equals nothing. */
  predicate SameSession(ctx: Context, operation: Operation) {
    ctx.session.Some? && ctx.session == operation.session
  }

  function InlineSource(kind: SourceKind, trust: TrustClass, text: string, supersedes: Option<EntityId>,
                        fromSetup: bool): Source {
    Source(kind, trust, TextDigest(text), |Utf8(text)|, supersedes, Some(text), fromSetup)
  }

  // ---------- facts built over a joined text ----------

  datatype FactSpec = FactSpec(factType: string, subject: string, predicate_: string, value: Primitive)

  function Claim(spec: FactSpec): string { RenderClaim(spec.subject, spec.predicate_, spec.value) }

  /** `claims.join("\n")` */
  function JoinClaims(specs: seq<FactSpec>): string {
    if specs == [] then ""
    else if |specs| == 1 then Claim(specs[0])
    else Claim(specs[0]) + "\n" + JoinClaims(specs[1..])
  }

  function LocatedFact(spec: FactSpec, source: EntityId, offset: nat, status: FactStatus,
                       confirmedAt: Option<Timestamp>): Fact {
    var claim := Claim(spec);
    Fact(spec.factType, spec.subject, spec.predicate_, spec.value, status,
         [Locator(source, offset, offset + |claim|, claim)], ByUser, confirmedAt, None)
  }

  /** The facts whose locators come from a running offset into the joined text. */
  function LocatedFacts(specs: seq<FactSpec>, source: EntityId, offset: nat, status: FactStatus,
                        confirmedAt: Option<Timestamp>): (facts: seq<Fact>)
    ensures |facts| == |specs|
    ensures forall f :: f in facts ==> f.status == status && f.supersedes.None?
  {
    if specs == [] then []
    else
      [LocatedFact(specs[0], source, offset, status, confirmedAt)]
      + LocatedFacts(specs[1..], source, offset + |Claim(specs[0])| + 1, status, confirmedAt)
  }

  function FactRows(ids: seq<EntityId>, facts: seq<Fact>): (entities: seq<Entity>)
    requires |ids| == |facts|
    ensures |entities| == |facts|
    ensures forall i :: 0 <= i < |facts| ==> entities[i] == Entity(ids[i], 1, OfFact(facts[i]))
    ensures (forall f :: f in facts ==> !f.status.Superseded? && f.supersedes.None?) ==> forall e :: e in entities ==>
              NewRow(e)
  {
    assert forall f :: f in facts ==> exists i :: 0 <= i < |facts| && facts[i] == f;
    seq(|facts|, i requires 0 <= i < |facts| => Entity(ids[i], 1, OfFact(facts[i])))
  }

  /** `initializeWorkspace`; the claims and the rubric the guided set-up chose are inputs. */
  function PlanInitialize(ctx: Context, workspace: EntityId, specs: seq<FactSpec>, source: EntityId,
                          facts: seq<EntityId>,
                          rubric: Option<EntityId>, wellFormed: bool, now: Timestamp): (r: Outcome<Request>)
    ensures InsertsOnly(r)
  {
    if !(wellFormed && |facts| == |specs|) then Err(InvalidRequest) else
    var text := JoinClaims(specs);
    var head := [Entity(workspace, 1, OfWorkspace(rubric))]
                + (if specs == [] then []
                   else [Entity(source, 1, OfSource(InlineSource(CandidateSource, CandidatePrimary, text, None,
                                                                 true)))]);
    var tail := if rubric.None? then [] else [Entity(rubric.value, 1, OfRubric(Rubric("1.0.0", None)))];
    var entities := head + FactRows(facts, LocatedFacts(specs, source, 0, Verified, Some(now))) + tail;
    NewRowsOnly(entities, ctx.actor);
    Ok(Request(Inserts(entities), EventsOf(entities, ctx.actor)))
  }

  function PlanCaptureSource(ctx: Context, id: EntityId, kind: SourceKind, trust: TrustClass, text: string,
                             fromSetup: bool, wellFormed: bool): (r: Outcome<Request>)
    ensures InsertsOnly(r)
  {
    if !(0 < |Utf8(text)| <= MAX_INLINE_SOURCE_BYTES) then Err(InvalidRequest) else
    :- Require(wellFormed, InvalidRequest);
    :- Require(if kind.CandidateSource? then !trust.External?
               else trust.External? || kind.ImportSource?, InvalidRequest);
    Ok(Request([Insert(Entity(id, 1, OfSource(InlineSource(kind, trust, text, None, fromSetup))))],
               [Event(id, 1, ctx.actor)]))
  }

  /** `wellFormed` stands for the PDF signature or UTF-8 check against the extracted text. */
  function PlanUploadSource(ctx: Context, artifact: EntityId, source: EntityId, bytes: seq<nat>, text: string,
                            wellFormed: bool): (r: Outcome<Request>)
    ensures InsertsOnly(r)
  {
    if !(0 < |bytes| <= MAX_CANDIDATE_FILE_BYTES) then Err(InvalidRequest) else
    :- Require(0 < |Utf8(text)| <= MAX_CANDIDATE_EXTRACTION_BYTES, InvalidRequest);
    :- Require(wellFormed, InvalidRequest);
    Ok(Request(
         [Insert(Entity(artifact, 1, OfArtifact(Artifact(CandidateBytes, Sha256(bytes), [], [], [], Sealed, None)))),
          Insert(Entity(source, 1, OfSource(Source(CandidateSource, CandidatePrimary, Sha256(bytes), |bytes|, None,
                                                   Some(text), false))))],
         [Event(artifact, 1, ctx.actor), Event(source, 1, ctx.actor)]))
  }

  /** The specifications are the role followed by the achievements of one person. */
  function PlanAddCareerHistory(ctx: Context, specs: seq<FactSpec>, source: EntityId, facts: seq<EntityId>,
                                wellFormed: bool): (r: Outcome<Request>)
    ensures InsertsOnly(r)
  {
    if !(wellFormed && specs != [] && |facts| == |specs|) then Err(InvalidRequest) else
    var text := JoinClaims(specs);
    :- Require(0 < |Utf8(text)| <= MAX_INLINE_SOURCE_BYTES, InvalidRequest);
    var entities := [Entity(source, 1, OfSource(InlineSource(CandidateSource, CandidatePrimary, text, None, false)))]
                    + FactRows(facts, LocatedFacts(specs, source, 0, FactProposed, None));
    NewRowsOnly(entities, ctx.actor);
    Ok(Request(Inserts(entities), EventsOf(entities, ctx.actor)))
  }

  /** Every locator quotes its source; with `primary`, every source is the candidate's own. */
  function CheckLocators(rows: Rows, locators: seq<Locator>, primary: bool): Outcome<()> {
    if locators == [] then Ok(())
    else
      var source :- Fetch(rows, SourceTable, locators[0].source);
      :- ValidateSourceLocator(locators[0].source, source.body.source, locators[0]);
      :- Require(primary ==> source.body.source.trust.CandidatePrimary?, EvidenceUnsupported);
      CheckLocators(rows, locators[1..], primary)
  }

  function PlanProposeFact(rows: Rows, ctx: Context, id: EntityId, spec: FactSpec, locators: seq<Locator>,
                           proposedBy: ProposedBy, wellFormed: bool): (r: Outcome<Request>)
    ensures Sound(rows, r, Profiling)
  {
    if !wellFormed then Err(InvalidRequest) else
    var _ :- if ctx.actor.DshAgent? then OrganizationAuthority(rows, ctx, locators, proposedBy) else Ok(());
    var _ :- CheckLocators(rows, locators, false);
    var fact := Fact(spec.factType, spec.subject, spec.predicate_, spec.value, FactProposed, locators, proposedBy, None,
                     None);
    Ok(Create(rows, ctx.actor, id, OfFact(fact), Profiling))
  }

  function OrganizationAuthority(rows: Rows, ctx: Context, locators: seq<Locator>,
                                 proposedBy: ProposedBy): Outcome<()> {
    if !(proposedBy.ByAgent? && ctx.operation.Some? && ctx.session.Some?) then Err(ApprovalDenied) else
    var operation :- Fetch(rows, OperationTable, ctx.operation.value);
    var o := operation.body.operation;
    :- Require(o.kind.ProfileOrganization? && o.state.Running? && SameSession(ctx, o) && o.input.Some?
               && (forall l :: l in locators ==> l.source == o.input.value), ApprovalDenied);
    Ok(())
  }

  datatype FactOutcome = Confirm | Correct(value: Primitive, locator: Locator) | NarrativeOnly | CannotConfirm

  /** The replacement that a user correction inserts beside the superseded fact. */
  function Correction(fact: Entity, value: Primitive, locator: Locator, now: Timestamp): Fact
    requires fact.body.OfFact?
  {
    fact.body.fact.(value := value, status := Verified, locators := [locator], proposedBy := ByUser,
                    confirmedAt := Some(now), supersedes := Some(fact.id))
  }

  function WithStatus(fact: Fact, status: FactStatus): Fact { fact.(status := status) }

  /** Supersede a proposed fact by the user's correction of it. */
  function ReplaceProposed(rows: Rows, actor: Actor, fact: Entity, value: Primitive, locator: Locator, newId: EntityId,
                           now: Timestamp): (r: Request)
    requires fact.body.OfFact? && (fact.body.fact.status.FactProposed? || fact.body.fact.status.DerivedUnverified?)
    requires Keyed(rows) ==> fact.id in rows && rows[fact.id] == fact
    ensures Sound(rows, Ok(r), Linking)
  {
    Request(
      [Update(Updated(fact, OfFact(WithStatus(fact.body.fact, Superseded))), fact.revision),
       Insert(Entity(newId, 1, OfFact(Correction(fact, value, locator, now))))],
      [Event(fact.id, fact.revision + 1, actor), Event(newId, 1, actor)])
  }

  function PlanConfirmFact(rows: Rows, ctx: Context, id: EntityId, expected: nat, outcome: FactOutcome, newId: EntityId,
                           now: Timestamp): (r: Outcome<Request>)
    ensures Sound(rows, r, Linking)
  {
    var fact :- Fetch(rows, FactKind, id);
    var f := fact.body.fact;
    :- Require(fact.revision == expected, RevisionConflict);
    :- Require(f.status.FactProposed? || f.status.DerivedUnverified?, InvalidTransition);
    match outcome
    case Correct(value, locator) =>
      var _ :- CheckLocators(rows, [locator], true);
      Ok(ReplaceProposed(rows, ctx.actor, fact, value, locator, newId, now))
    case Confirm =>
      :- Require(f.locators != [], EvidenceUnsupported);
      var _ :- CheckLocators(rows, f.locators, true);
      Ok(Revise(rows, ctx.actor, fact, OfFact(f.(status := Verified, confirmedAt := Some(now))), Linking))
    case NarrativeOnly =>
      Ok(Revise(rows, ctx.actor, fact, OfFact(f.(status := DerivedUnverified, confirmedAt := None)), Linking))
    case CannotConfirm =>
      Ok(Revise(rows, ctx.actor, fact, OfFact(f.(status := UserCannotConfirm, confirmedAt := None)), Linking))
  }

  // ---------- correcting a verified fact, and what that makes stale ----------

  predicate DependsOnFact(rows: Rows, fact: EntityId, id: EntityId) {
    id in rows && rows[id].body.OfEvidence?
    && rows[id].body.evidence.fact == Some(fact) && rows[id].body.evidence.decision.Accepted?
  }

  function DependentEvidence(rows: Rows, fact: EntityId): set<EntityId> {
    set id | id in rows && DependsOnFact(rows, fact, id)
  }

  predicate EvaluationUses(rows: Rows, evidence: set<EntityId>, id: EntityId) {
    id in rows && rows[id].body.OfEvaluation?
    && rows[id].body.evaluation.state.EvalCompleted?
    && exists e :: e in rows[id].body.evaluation.acceptedEvidence && e in evidence
  }

  predicate ComparisonUses(rows: Rows, evaluations: set<EntityId>, id: EntityId) {
    id in rows && rows[id].body.OfComparison?
    && !rows[id].body.comparison.state.CompStale?
    && exists input :: input in rows[id].body.comparison.inputs && input.evaluation in evaluations
  }

  predicate ArtifactUses(rows: Rows, fact: EntityId, evaluations: set<EntityId>, id: EntityId) {
    id in rows && rows[id].body.OfArtifact?
    && rows[id].body.artifact.state.Sealed?
    && (fact in rows[id].body.artifact.facts
        || exists e :: e in rows[id].body.artifact.evaluations && e in evaluations)
  }

  /** The evaluations, comparisons and artifacts that a correction of `fact` makes stale. */
  datatype Cascade = Cascade(evaluations: seq<EntityId>, comparisons: seq<EntityId>, artifacts: seq<EntityId>)

  function CascadeOf(rows: Rows, fact: EntityId): Cascade {
    var evidence := DependentEvidence(rows, fact);
    var evaluations := Select(ListIds(rows, EvaluationKind), (id: EntityId) => EvaluationUses(rows, evidence, id));
    var stale := set id | id in evaluations;
    Cascade(
      evaluations,
      Select(ListIds(rows, ComparisonKind), (id: EntityId) => ComparisonUses(rows, stale, id)),
      Select(ListIds(rows, ArtifactTable), (id: EntityId) => ArtifactUses(rows, fact, stale, id)))
  }

  /** The body that a cascade from `fact` gives to a row. */
  function Stale(fact: EntityId, e: Entity): Body {
    match e.body
    case OfEvaluation(v) => OfEvaluation(v.(state := EvalStale, staleReason := Some(fact)))
    case OfComparison(c) => OfComparison(c.(state := CompStale, staleReason := Some(fact)))
    case OfArtifact(a) => OfArtifact(a.(state := ArtStale, staleReason := Some(fact)))
    case _ => e.body
  }

  function StaleOf(rows: Rows, fact: EntityId, ids: seq<EntityId>): seq<Entity>
    requires forall id :: id in ids ==> id in rows
  {
    Revised(rows, ids, (e: Entity) => Stale(fact, e))
  }

  function StaleRows(rows: Rows, fact: EntityId): seq<Entity> {
    var c := CascadeOf(rows, fact);
    StaleOf(rows, fact, c.evaluations) + StaleOf(rows, fact, c.comparisons) + StaleOf(rows, fact, c.artifacts)
  }

  /** Rows revised from the view are updates of the view, in the order of their identities. */
  lemma RevisedFromView(rows: Rows, ids: seq<EntityId>, revise: Entity -> Body)
    requires Keyed(rows) && Increasing(ids) && forall id :: id in ids ==> id in rows
    requires forall id :: id in ids ==> SameKind(rows[id], Updated(rows[id], revise(rows[id])))
    ensures forall e :: e in Revised(rows, ids, revise) ==>
              FromView(rows, Update(e, Before(e))) && e.id in ids && e == Updated(rows[e.id], revise(rows[e.id]))
    ensures forall i, j :: 0 <= i < j < |ids| ==> Revised(rows, ids, revise)[i].id < Revised(rows, ids, revise)[j].id
  {
    var es := Revised(rows, ids, revise);
    assert forall i :: 0 <= i < |ids| ==> ids[i] in ids && es[i].id == ids[i];
    forall e | e in es
      ensures FromView(rows, Update(e, Before(e))) && e.id in ids && e == Updated(rows[e.id], revise(rows[e.id]))
    {
      var i :| 0 <= i < |es| && es[i] == e;
    }
  }

  lemma StaleTable(rows: Rows, fact: EntityId, ids: seq<EntityId>)
    requires Keyed(rows) && Increasing(ids)
    requires forall id :: id in ids ==> id in rows && LawfulStaleness(rows[id])
    ensures forall e :: e in StaleOf(rows, fact, ids) ==>
              e.id in ids && FromView(rows, Update(e, Before(e))) && Lawful(rows, Update(e, Before(e)), Cascading)
                && Impersonal(e)
    ensures forall i, j :: 0 <= i < j < |ids| ==>
              StaleOf(rows, fact, ids)[i].id < StaleOf(rows, fact, ids)[j].id
  {
    RevisedFromView(rows, ids, (e: Entity) => Stale(fact, e));
  }

  predicate LawfulStaleness(e: Entity) {
    (e.body.OfEvaluation? && e.body.evaluation.state.EvalCompleted?)
    || (e.body.OfComparison? && !e.body.comparison.state.CompStale?)
    || (e.body.OfArtifact? && e.body.artifact.state.Sealed?)
  }

  lemma StaleIds(rows: Rows, fact: EntityId)
    requires Keyed(rows)
    ensures forall e :: e in StaleRows(rows, fact) ==>
              FromView(rows, Update(e, Before(e))) && Lawful(rows, Update(e, Before(e)), Cascading)
                && !rows[e.id].body.OfFact? && Impersonal(e)
    ensures forall i, j :: 0 <= i < j < |StaleRows(rows, fact)| ==>
              StaleRows(rows, fact)[i].id != StaleRows(rows, fact)[j].id
  {
    var c := CascadeOf(rows, fact);
    StaleTable(rows, fact, c.evaluations);
    StaleTable(rows, fact, c.comparisons);
    StaleTable(rows, fact, c.artifacts);
    ThreeTables(rows, StaleOf(rows, fact, c.evaluations), StaleOf(rows, fact, c.comparisons),
                StaleOf(rows, fact, c.artifacts));
  }

  /** Identities that increase within each of three tables never meet. */
  lemma ThreeTables(rows: Rows, a: seq<Entity>, b: seq<Entity>, d: seq<Entity>)
    requires forall i, j :: 0 <= i < j < |a| ==> a[i].id < a[j].id
    requires forall i, j :: 0 <= i < j < |b| ==> b[i].id < b[j].id
    requires forall i, j :: 0 <= i < j < |d| ==> d[i].id < d[j].id
    requires forall e :: e in a ==> e.id in rows && rows[e.id].body.OfEvaluation?
    requires forall e :: e in b ==> e.id in rows && rows[e.id].body.OfComparison?
    requires forall e :: e in d ==> e.id in rows && rows[e.id].body.OfArtifact?
    ensures forall i, j :: 0 <= i < j < |a + b + d| ==> (a + b + d)[i].id != (a + b + d)[j].id
  {
    var all := a + b + d;
    forall i, j | 0 <= i < j < |all|
      ensures all[i].id != all[j].id
    {
      var n, m := |a|, |a| + |b|;
      assert all[i] in (if i < n then a else if i < m then b else d);
      assert all[j] in (if j < n then a else if j < m then b else d);
      if i < n <= j || n <= i < m <= j {
      } else if j < n {
        assert all[i] == a[i] && all[j] == a[j];
      } else if n <= i && j < m {
        assert all[i] == b[i - n] && all[j] == b[j - n];
      } else {
        assert all[i] == d[i - m] && all[j] == d[j - m];
      }
    }
  }

  /** Updating rows after an update of one other row and an insertion touches no row twice. */
  lemma HeadThenUpdates(head: Entity, expected: nat, inserted: Entity, tail: seq<Entity>)
    requires forall i, j :: 0 <= i < j < |tail| ==> tail[i].id != tail[j].id
    requires forall e :: e in tail ==> e.id != head.id
    ensures UpdatesDistinct([Update(head, expected), Insert(inserted)] + Updates(tail))
  {
    var ms := [Update(head, expected), Insert(inserted)] + Updates(tail);
    forall i, j | 0 <= i < j < |ms| && ms[i].Update? && ms[j].Update?
      ensures ms[i].entity.id != ms[j].entity.id
    {
      assert ms[j].entity == tail[j - 2] && tail[j - 2] in tail;
      if i >= 2 {
        assert ms[i].entity == tail[i - 2];
      }
    }
  }

  function CascadeRequest(actor: Actor, fact: Entity, superseded: Body, newId: EntityId, correction: Body,
                          stale: seq<Entity>): Request {
    Request([Update(Updated(fact, superseded), fact.revision), Insert(Entity(newId, 1, correction))] + Updates(stale),
            [Event(fact.id, fact.revision + 1, actor), Event(newId, 1, actor)] + EventsOf(stale, actor))
  }

  lemma CascadeShape(actor: Actor, fact: Entity, superseded: Body, newId: EntityId, correction: Body,
                     stale: seq<Entity>)
    requires superseded.OfFact? && superseded.fact.status.Superseded?
    requires correction.OfFact? && correction.fact.supersedes == Some(fact.id)
    requires forall e :: e in stale ==> !e.body.OfFact?
    ensures LinkShape(CascadeRequest(actor, fact, superseded, newId, correction, stale).mutations)
  {
    var ms := CascadeRequest(actor, fact, superseded, newId, correction, stale).mutations;
    forall i | 2 <= i < |ms|
      ensures !ms[i].entity.body.OfFact?
    {
      assert ms[i].entity == stale[i - 2] && stale[i - 2] in stale;
    }
  }

  lemma CascadeMutations(rows: Rows, head: seq<Mutation>, stale: seq<Entity>)
    requires forall m :: m in head ==> FromView(rows, m) && Lawful(rows, m, Cascading)
    requires forall e :: e in stale ==>
               FromView(rows, Update(e, Before(e))) && Lawful(rows, Update(e, Before(e)), Cascading)
    ensures forall m :: m in head + Updates(stale) ==> FromView(rows, m) && Lawful(rows, m, Cascading)
  {
    forall m | m in head + Updates(stale)
      ensures FromView(rows, m) && Lawful(rows, m, Cascading)
    {
      if m !in head {
        assert m in Updates(stale);
        var i :| 0 <= i < |stale| && Updates(stale)[i] == m;
        assert stale[i] in stale;
      }
    }
  }

  lemma CascadeAttributed(actor: Actor, fact: Entity, superseded: Body, newId: EntityId, correction: Body,
                          stale: seq<Entity>)
    requires superseded.OfFact? && correction.OfFact? && forall e :: e in stale ==> Impersonal(e)
    ensures Attributed(CascadeRequest(actor, fact, superseded, newId, correction, stale))
  {
    var ms := CascadeRequest(actor, fact, superseded, newId, correction, stale).mutations;
    forall i | 2 <= i < |ms|
      ensures !UserOnly(ms[i]) && !MovesApplication(ms[i])
    {
      assert ms[i] == Update(stale[i - 2], Before(stale[i - 2])) && stale[i - 2] in stale;
    }
  }

  lemma CascadeSound(rows: Rows, actor: Actor, fact: Entity, superseded: Body, newId: EntityId, correction: Body,
                     stale: seq<Entity>)
    requires Keyed(rows) && fact.id in rows && rows[fact.id] == fact && fact.body.OfFact? && superseded.OfFact?
    requires superseded.fact.status.Superseded? && correction.OfFact? && correction.fact.supersedes == Some(fact.id)
    requires FactStep(fact.body.fact, superseded.fact, Cascading)
             && LawfulInsert(Entity(newId, 1, correction), Cascading)
    requires forall e :: e in stale ==>
               FromView(rows, Update(e, Before(e))) && Lawful(rows, Update(e, Before(e)), Cascading)
                 && !rows[e.id].body.OfFact? && Impersonal(e)
    requires forall i, j :: 0 <= i < j < |stale| ==> stale[i].id != stale[j].id
    ensures Sound(rows, Ok(CascadeRequest(actor, fact, superseded, newId, correction, stale)), Cascading)
  {
    HeadThenUpdates(Updated(fact, superseded), fact.revision, Entity(newId, 1, correction), stale);
    CascadeShape(actor, fact, superseded, newId, correction, stale);
    CascadeAttributed(actor, fact, superseded, newId, correction, stale);
    CascadeMutations(rows, [Update(Updated(fact, superseded), fact.revision), Insert(Entity(newId, 1, correction))],
                     stale);
  }

  lemma StaleRowsSound(rows: Rows, actor: Actor, fact: Entity, superseded: Body, newId: EntityId, correction: Body)
    requires Keyed(rows) ==> fact.id in rows && rows[fact.id] == fact
    requires fact.body.OfFact? && superseded.OfFact?
    requires superseded.fact.status.Superseded? && correction.OfFact? && correction.fact.supersedes == Some(fact.id)
    requires FactStep(fact.body.fact, superseded.fact, Cascading)
             && LawfulInsert(Entity(newId, 1, correction), Cascading)
    ensures Sound(rows, Ok(CascadeRequest(actor, fact, superseded, newId, correction, StaleRows(rows, fact.id))),
                  Cascading)
  {
    if Keyed(rows) {
      StaleIds(rows, fact.id);
      CascadeSound(rows, actor, fact, superseded, newId, correction, StaleRows(rows, fact.id));
    }
  }

  /** What a correction submits: the fact superseded, its replacement, and the dependents. */
  function CorrectionRequest(rows: Rows, actor: Actor, id: EntityId, newId: EntityId, correction: Fact): Request
    requires id in rows && rows[id].body.OfFact?
  {
    CascadeRequest(actor, rows[id], OfFact(WithStatus(rows[id].body.fact, Superseded)), newId, OfFact(correction),
                   StaleRows(rows, id))
  }

  /**
   The verified fact to correct, at the expected revision, if the correction quotes a
   source of the candidate's own.
   */
  function Correctable(rows: Rows, id: EntityId, expected: nat, locator: Locator): (r: Outcome<Entity>)
    ensures r.Ok? ==>
              id in rows && r.value == rows[id] && rows[id].body.OfFact? && rows[id].body.fact.status.Verified?
                && rows[id].revision == expected
  {
    var fact :- Fetch(rows, FactKind, id);
    :- Require(fact.body.fact.status.Verified?, InvalidTransition);
    :- Require(fact.revision == expected, RevisionConflict);
    var _ :- CheckLocators(rows, [locator], true);
    Ok(fact)
  }

  function PlanCorrectFact(rows: Rows, ctx: Context, id: EntityId, expected: nat, value: Primitive, locator: Locator,
                           newId: EntityId, now: Timestamp): (r: Outcome<Request>)
    ensures Sound(rows, r, Cascading)
  {
    var fact :- Correctable(rows, id, expected, locator);
    var superseded, correction := OfFact(WithStatus(fact.body.fact, Superseded)),
      OfFact(Correction(fact, value, locator, now));
    assert Keyed(rows) ==> fact.id == id;
    StaleRowsSound(rows, ctx.actor, fact, superseded, newId, correction);
    Ok(CorrectionRequest(rows, ctx.actor, id, newId, Correction(fact, value, locator, now)))
  }

  // ---------- evidence ----------

  /** `operation` is running and `ctx` is its own session. */
  function RunningOwn(rows: Rows, ctx: Context, id: EntityId, notRunning: Code): Outcome<()> {
    var operation :- Fetch(rows, OperationTable, id);
    :- Require(operation.body.operation.state.Running?, notRunning);
    :- Require(ctx.operation == Some(id) && SameSession(ctx, operation.body.operation)
               && IsDsh(ctx.actor), ApprovalRequired);
    Ok(())
  }

  function PlanProposeEvidence(rows: Rows, ctx: Context, id: EntityId, classification: Classification, claim: string,
                               source: Option<EntityId>, locator: Option<Locator>, fact: Option<EntityId>,
                               operation: Option<EntityId>): (r: Outcome<Request>)
    ensures Sound(rows, r, Proposing)
  {
    if !(0 < |claim| <= 2000) then Err(InvalidRequest) else
    :- Require(locator.Some? ==> source == Some(locator.value.source), EvidenceLocatorInvalid);
    var _ :- if operation.Some? then RunningOwn(rows, ctx, operation.value, InvalidTransition) else Ok(());
    Ok(Create(rows, ctx.actor, id, OfEvidence(Evidence(classification, claim, source, locator, fact, operation,
                                                       EvidenceProposed)), Proposing))
  }

  /** `repository.get` of a reference that may be null. */
  function FetchSource(rows: Rows, id: Option<EntityId>): Outcome<Option<Source>> {
    match id
    case None => Ok(None)
    case Some(s) =>
      var source :- Fetch(rows, SourceTable, s);
      Ok(Some(source.body.source))
  }

  function FetchFact(rows: Rows, id: Option<EntityId>): Outcome<Option<Fact>> {
    match id
    case None => Ok(None)
    case Some(f) =>
      var fact :- Fetch(rows, FactKind, f);
      Ok(Some(fact.body.fact))
  }

  /** The loop of `isUserCorrectionDescendant` from one fact on, with its cycle guard. */
  function Descends(rows: Rows, cursor: EntityId, rejected: EntityId, seen: set<EntityId>,
                    corrected: bool): Outcome<bool>
    requires cursor in rows && rows[cursor].body.OfFact?
    decreases rows.Keys - seen
  {
    var f := rows[cursor].body.fact;
    if f.supersedes.None? || cursor in seen then Ok(false)
    else
      var corrected' := corrected || (f.proposedBy.ByUser? && f.confirmedAt.Some?);
      if f.supersedes.value == rejected then Ok(corrected')
      else
        var next :- Fetch(rows, FactKind, f.supersedes.value);
        Descends(rows, f.supersedes.value, rejected, seen + {cursor}, corrected')
  }

  /** `isUserCorrectionDescendant` */
  function IsUserCorrectionDescendant(rows: Rows, candidate: Option<EntityId>,
                                      rejected: Option<EntityId>): Outcome<bool> {
    if candidate.None? || rejected.None? then Ok(false)
    else
      var fact :- Fetch(rows, FactKind, candidate.value);
      Descends(rows, candidate.value, rejected.value, {}, false)
  }

  /** The check against one other item. */
  function NotRevivedBy(rows: Rows, other: Evidence, evidence: Evidence, source: Option<Source>): Outcome<()> {
    if !other.decision.Rejected? then Ok(())
    else
      var otherSource :- FetchSource(rows, other.source);
      if RejectionIdentity(other, otherSource) != RejectionIdentity(evidence, source) then Ok(())
      else
        var exempt :- if evidence.classification.CandidateFact? && other.classification.CandidateFact?
                      then IsUserCorrectionDescendant(rows, evidence.fact, other.fact) else Ok(false);
        if exempt then Ok(()) else Err(EvidenceUnsupported)
  }

  /** `assertRejectedEvidenceNotRevived`, over the evidence still to be looked at. */
  function NotRevived(rows: Rows, ids: seq<EntityId>, evidence: Evidence, source: Option<Source>): Outcome<()>
    requires forall id :: id in ids ==> id in rows && rows[id].body.OfEvidence?
  {
    if ids == [] then Ok(())
    else
      var _ :- NotRevivedBy(rows, rows[ids[0]].body.evidence, evidence, source);
      NotRevived(rows, ids[1..], evidence, source)
  }

  function PlanDecideEvidence(rows: Rows, ctx: Context, id: EntityId, expected: nat, accept: bool,
                              wellFormed: bool): (r: Outcome<Request>)
    ensures Sound(rows, r, Deciding)
  {
    if !wellFormed then Err(InvalidRequest) else
    var evidence :- Fetch(rows, EvidenceKind, id);
    var e := evidence.body.evidence;
    var _ :- if e.operation.Some? then RunningOwn(rows, ctx, e.operation.value, ApprovalRequired) else Ok(());
    :- Require(evidence.revision == expected, RevisionConflict);
    var source :- FetchSource(rows, e.source);
    var fact :- FetchFact(rows, e.fact);
    var _ :- if accept then AcceptanceAllowed(rows, e, source, fact)
             else if e.decision.EvidenceProposed? then Ok(()) else Err(InvalidTransition);
    Ok(Revise(rows, ctx.actor, evidence, OfEvidence(e.(decision := if accept then Accepted else Rejected)), Deciding))
  }

  function AcceptanceAllowed(rows: Rows, e: Evidence, source: Option<Source>, fact: Option<Fact>): Outcome<()> {
    var check := ValidateForAcceptance(e, source, fact);
    if check.Fail? then Err(check.code) else NotRevived(rows, ListIds(rows, EvidenceKind), e, source)
  }
}
