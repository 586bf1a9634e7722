/**
 Search criteria, discovery leads and opportunities
 (packages/application/src/workbench.ts:1298-1892, 2101-2158, 4315-4358).
 */
module DiscoveryCommands {
  import opened Domain
  import opened Store
  import opened Lifecycle
  import opened Listing
  import opened EvidenceRules
  import opened ProfileCommands
  import opened OperationCommands

  const MAX_LEADS_PER_OPERATION := 64
  const MAX_LEADS_PER_HOST := 20
  const MAX_LEADS_PER_WORKSPACE := 512
  const MAX_BYTES_PER_OPERATION := 8 * 1024 * 1024
  const MAX_BYTES_PER_WORKSPACE := 32 * 1024 * 1024

  function PlanUpsertSearchProfile(rows: Rows, ctx: Context, id: EntityId, expected: Option<nat>,
                                   profile: SearchProfile, wellFormed: bool): (r: Outcome<Request>)
    ensures Sound(rows, r, Ordinary)
  {
    if !IsDirectUser(ctx.actor) then Err(ApprovalDenied) else
    :- Require(wellFormed, InvalidRequest);
    var existing := ListIds(rows, SearchProfileKind);
    if existing == [] then
      :- Require(expected.None?, RevisionConflict);
      Ok(Create(rows, ctx.actor, id, OfSearchProfile(profile), Ordinary))
    else
      var current := rows[existing[0]];
      :- Require(expected == Some(current.revision), RevisionConflict);
      Ok(Revise(rows, ctx.actor, current, OfSearchProfile(profile), Ordinary))
  }

  // ---------- totals over sets of rows ----------

  /** `reduce((total, row) => total + weight(row), 0)`; the order of summation does not matter. */
  function Total(ids: set<EntityId>, weight: EntityId -> nat): nat
    decreases |ids|
  {
    if ids == {} then 0
    else
      HasLeast(ids);
      var least :| IsLeast(ids, least);
      weight(least) + Total(ids - {least}, weight)
  }

  /** `sourceBytes.get(lead.sourceDocumentId) ?? 0` */
  function SourceBytes(rows: Rows, id: EntityId): nat {
    if id in rows && rows[id].body.OfSource? then rows[id].body.source.byteLength else 0
  }

  predicate IsLead(rows: Rows, id: EntityId) { id in rows && rows[id].body.OfLead? }

  function LeadBytes(rows: Rows, id: EntityId): nat {
    if IsLead(rows, id) then SourceBytes(rows, rows[id].body.lead.source) else 0
  }

  function Leads(rows: Rows): set<EntityId> { set id | id in rows && IsLead(rows, id) }

  function LeadsOf(rows: Rows, operation: EntityId): set<EntityId> {
    set id | id in rows && IsLead(rows, id) && rows[id].body.lead.operation == operation
  }

  function OnHost(rows: Rows, leads: set<EntityId>, host: string): set<EntityId> {
    set id | id in leads && IsLead(rows, id) && rows[id].body.lead.host == host
  }

  predicate IsExternalPosting(rows: Rows, id: EntityId) {
    id in rows && rows[id].body.OfSource?
    && rows[id].body.source.kind.OpportunitySource? && rows[id].body.source.trust.External?
  }

  function ExternalPostings(rows: Rows): set<EntityId> { set id | id in rows && IsExternalPosting(rows, id) }

  // ---------- recording a lead ----------

  /** A normalised URL with its host; see `UrlNormalization`. */
  datatype NormalUrl = NormalUrl(text: string, host: string)

  predicate HasUrl(rows: Rows, url: string, id: EntityId) { IsLead(rows, id) && rows[id].body.lead.url == url }

  /** `existing.find((lead) => lead.normalizedUrl === normalizedUrl)` */
  function FirstWithUrl(rows: Rows, ids: seq<EntityId>, url: string): (first: Option<EntityId>)
    ensures first.Some? ==> first.value in ids && HasUrl(rows, url, first.value)
    ensures first.None? ==> forall id :: id in ids ==> !HasUrl(rows, url, id)
  {
    if ids == [] then None
    else if HasUrl(rows, url, ids[0]) then Some(ids[0])
    else FirstWithUrl(rows, ids[1..], url)
  }

  function PriorLead(rows: Rows, url: string): (prior: Option<EntityId>)
    ensures prior.Some? ==> HasUrl(rows, url, prior.value)
    ensures prior.None? ==> forall id :: !HasUrl(rows, url, id)
  {
    FirstWithUrl(rows, ListIds(rows, LeadKind), url)
  }

  /** The quota checks: `prior` is left out of the counts of its new operation. */
  predicate WithinQuotas(rows: Rows, operation: EntityId, host: string, prior: Option<EntityId>, bytes: nat) {
    var own := LeadsOf(rows, operation) - (if prior.Some? then {prior.value} else {});
    && |own| < MAX_LEADS_PER_OPERATION
    && |OnHost(rows, own, host)| < MAX_LEADS_PER_HOST
    && (|Leads(rows)| < MAX_LEADS_PER_WORKSPACE || prior.Some?)
    && Total(own, (id: EntityId) => LeadBytes(rows, id)) + bytes <= MAX_BYTES_PER_OPERATION
    && Total(ExternalPostings(rows), (id: EntityId) => SourceBytes(rows, id)) + bytes <= MAX_BYTES_PER_WORKSPACE
  }

  datatype LeadInput = LeadInput(organization: string, url: Option<NormalUrl>, posting: string,
                                 requisition: Option<string>, wellFormed: bool)

  /** A running discovery operation whose search criteria are still the admitted ones. */
  function DiscoveryAuthority(rows: Rows, ctx: Context): Outcome<EntityId> {
    if ctx.operation.None? then Err(ApprovalRequired) else
    var operation :- AuthorizeOperation(rows, ctx, ctx.operation.value);
    var o := operation.body.operation;
    :- Require(o.kind.JobDiscovery? && o.state.Running?, InvalidTransition);
    :- Require(o.cancelRequestedAt.None?, InvalidTransition);
    :- Require(o.input.Some? && o.inputRevision.Some? && o.inputDigest.Some?, InvalidTransition);
    var profile :- Fetch(rows, SearchProfileKind, o.input.value);
    :- Require(profile.body.profile.active && profile.revision == o.inputRevision.value
               && OfRecord(profile) == o.inputDigest.value, RevisionConflict);
    Ok(ctx.operation.value)
  }

  function PlanRecordLead(rows: Rows, ctx: Context, source: EntityId, newLead: EntityId,
                          input: LeadInput): (r: Outcome<Request>)
    ensures Sound(rows, r, Recording)
  {
    var operation :- DiscoveryAuthority(rows, ctx);
    var bytes := |Utf8(input.posting)|;
    :- Require(0 < bytes <= MAX_INLINE_SOURCE_BYTES, InvalidRequest);
    :- Require(input.url.Some?, InvalidRequest);
    var url := input.url.value;
    var digest := TextDigest(input.posting);
    var prior := PriorLead(rows, url.text);
    :- Require(prior.Some? ==>
                 var p := rows[prior.value].body.lead;
                 p.contentDigest != digest && !p.state.LeadShortlisted? && p.operation != operation, DuplicateIdentity);
    :- Require(WithinQuotas(rows, operation, url.host, prior, bytes), InvalidRequest);
    :- Require(input.wellFormed, InvalidRequest);
    var lead := Lead(source, digest, operation, input.organization, url.text, url.host, input.requisition, LeadNew,
                     None);
    Ok(LeadRequest(rows, ctx.actor, source, input.posting, prior, newLead, lead))
  }

  /** Insert the posting; insert the lead, or revise the one that was rediscovered. */
  function LeadRequest(rows: Rows, actor: Actor, source: EntityId, posting: string, prior: Option<EntityId>,
                       newLead: EntityId, lead: Lead): (r: Request)
    requires prior.Some? ==> IsLead(rows, prior.value)
    requires lead.state.LeadNew? && lead.resultOpportunity.None?
    requires prior.Some? ==>
               !rows[prior.value].body.lead.state.LeadShortlisted? && rows[prior.value].body.lead.url == lead.url
    ensures Sound(rows, Ok(r), Recording)
  {
    var superseded := if prior.Some? then Some(rows[prior.value].body.lead.source) else None;
    var document := Entity(source, 1, OfSource(InlineSource(OpportunitySource, External, posting, superseded, false)));
    match prior
    case None =>
      Request([Insert(document), Insert(Entity(newLead, 1, OfLead(lead)))],
              [Event(source, 1, actor), Event(newLead, 1, actor)])
    case Some(id) =>
      Request([Insert(document), Update(Updated(rows[id], OfLead(lead)), rows[id].revision)],
              [Event(source, 1, actor), Event(rows[id].id, rows[id].revision + 1, actor)])
  }

  // ---------- triage ----------

  function LowerAll(text: string): string {
    if text == "" then "" else [Lower(text[0])] + LowerAll(text[1..])
  }

  predicate SamePosting(rows: Rows, lead: Lead, id: EntityId) {
    id in rows && rows[id].body.OfOpportunity?
    && (var o := rows[id].body.opportunity;
        (lead.requisition.Some? && o.requisition == lead.requisition
         && LowerAll(o.organization) == LowerAll(lead.organization))
        || o.url == Some(lead.url))
  }

  /** `opportunities.find(...)` */
  function FirstSamePosting(rows: Rows, ids: seq<EntityId>, lead: Lead): (first: Option<EntityId>)
    ensures first.Some? ==> first.value in ids && SamePosting(rows, lead, first.value)
    ensures first.None? ==> forall id :: id in ids ==> !SamePosting(rows, lead, id)
  {
    if ids == [] then None
    else if SamePosting(rows, lead, ids[0]) then Some(ids[0])
    else FirstSamePosting(rows, ids[1..], lead)
  }

  function PlanTriageLead(rows: Rows, ctx: Context, id: EntityId, expected: nat, decision: LeadState,
                          newOpportunity: EntityId, wellFormed: bool): (r: Outcome<Request>)
    ensures Sound(rows, r, Triaging)
  {
    if !IsDirectUser(ctx.actor) then Err(ApprovalDenied) else
    var lead :- Fetch(rows, LeadKind, id);
    var l := lead.body.lead;
    :- Require(lead.revision == expected, RevisionConflict);
    :- Require(if decision.LeadNew? then l.state.LeadDismissed? else l.state.LeadNew?, InvalidTransition);
    :- Require(wellFormed, InvalidRequest);
    if !decision.LeadShortlisted? then
      Ok(Revise(rows, ctx.actor, lead, OfLead(l.(state := decision, resultOpportunity := None)), Triaging))
    else Ok(ShortlistRequest(rows, ctx.actor, lead, newOpportunity))
  }

  /** An opportunity that is the same posting becomes the result; without one, a new one does. */
  function ShortlistRequest(rows: Rows, actor: Actor, lead: Entity, newOpportunity: EntityId): (r: Request)
    requires lead.body.OfLead? && lead.body.lead.state.LeadNew? && IsDirectUser(actor)
    requires Keyed(rows) ==> lead.id in rows && rows[lead.id] == lead
    ensures Sound(rows, Ok(r), Triaging)
  {
    var l := lead.body.lead;
    match FirstSamePosting(rows, ListIds(rows, OpportunityKind), l)
    case Some(same) => Revise(rows, actor, lead, ShortlistedFor(l, same), Triaging)
    case None => WithOpportunity(rows, actor, lead, newOpportunity)
  }

  function ShortlistedFor(l: Lead, opportunity: EntityId): Body {
    OfLead(l.(state := LeadShortlisted, resultOpportunity := Some(opportunity)))
  }

  function WithOpportunity(ghost rows: Rows, actor: Actor, lead: Entity, newOpportunity: EntityId): (r: Request)
    requires lead.body.OfLead? && lead.body.lead.state.LeadNew? && IsDirectUser(actor)
    requires Keyed(rows) ==> lead.id in rows && rows[lead.id] == lead
    ensures Sound(rows, Ok(r), Triaging)
  {
    var l := lead.body.lead;
    var opportunity := Opportunity(l.source, l.organization, Some(l.url), l.requisition, Shortlisted, l.contentDigest,
                                   0);
    assert LawfulUpdate(lead, Updated(lead, ShortlistedFor(l, newOpportunity)), Triaging);
    Request([Update(Updated(lead, ShortlistedFor(l, newOpportunity)), lead.revision),
             Insert(Entity(newOpportunity, 1, OfOpportunity(opportunity)))],
            [Event(lead.id, lead.revision + 1, actor), Event(newOpportunity, 1, actor)])
  }

  // ---------- opportunities and rubrics ----------

  predicate SameRequisition(rows: Rows, organization: string, requisition: string, id: EntityId) {
    id in rows && rows[id].body.OfOpportunity?
    && LowerAll(rows[id].body.opportunity.organization) == LowerAll(organization)
    && rows[id].body.opportunity.requisition == Some(requisition)
  }

  /** `url` is the normalised form of the original URL, when it has one. */
  function PlanCaptureOpportunity(rows: Rows, ctx: Context, id: EntityId, source: EntityId, organization: string,
                                  url: Option<string>,
                                  requisition: Option<string>, wellFormed: bool): (r: Outcome<Request>)
    ensures Sound(rows, r, Ordinary)
  {
    var document :- Fetch(rows, SourceTable, source);
    :- Require(IsExternalPosting(rows, source), InvalidRequest);
    :- Require(requisition.Some? ==> forall o :: o in rows ==>
                 !SameRequisition(rows, organization, requisition.value, o), DuplicateIdentity);
    :- Require(wellFormed, InvalidRequest);
    var opportunity := Opportunity(source, organization, url, requisition, Captured, document.body.source.digest, 0);
    Ok(Create(rows, ctx.actor, id, OfOpportunity(opportunity), Ordinary))
  }

  /** Source status and legitimacy are one number, `signals`. */
  function PlanUpdateSignals(rows: Rows, ctx: Context, id: EntityId, expected: nat, signals: nat): (r: Outcome<Request>)
    ensures Sound(rows, r, Ordinary)
  {
    var opportunity :- Fetch(rows, OpportunityKind, id);
    :- Require(opportunity.revision == expected, RevisionConflict);
    Ok(Revise(rows, ctx.actor, opportunity, OfOpportunity(opportunity.body.opportunity.(signals := signals)), Ordinary))
  }

  predicate HasVersion(rows: Rows, version: string, id: EntityId) {
    id in rows && rows[id].body.OfRubric? && rows[id].body.rubric.version == version
  }

  function PlanCreateRubric(rows: Rows, ctx: Context, workspace: EntityId, id: EntityId, version: string,
                            wellFormed: bool): (r: Outcome<Request>)
    ensures Sound(rows, r, Ordinary)
  {
    if !wellFormed then Err(InvalidRequest) else
    :- Require(forall r :: r in rows ==> !HasVersion(rows, version, r), DuplicateIdentity);
    var w :- Fetch(rows, WorkspaceKind, workspace);
    Ok(Request([Insert(Entity(id, 1, OfRubric(Rubric(version, None)))),
                Update(Updated(w, OfWorkspace(Some(id))), w.revision)],
               [Event(id, 1, ctx.actor), Event(w.id, w.revision + 1, ctx.actor)]))
  }
}
