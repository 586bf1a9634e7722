/**
 `WorkbenchService` in its own form: methods that read the store step by step,
 check, and commit. Each ends exactly as the plan of its command says, run
 against the store as a whole (`Executed`).
 */
module Service {
  import opened Domain
  import opened Store
  import opened Listing
  import opened EvidenceRules
  import opened ProfileCommands
  import opened CascadeClosure
  import opened OperationCommands
  import opened DiscoveryCommands
  import opened ApprovalCommands
  import opened ImportSelection
  import opened ImportCommands

  /** A plan that fails throws; an empty request stands for an early return; any other is committed. */
  function Executed(db: Db, plan: Outcome<Request>, key: nat, command: nat): (Db, Outcome<()>) {
    match plan
    case Err(code) => (db, Err(code))
    case Ok(request) =>
      if request.mutations == [] then (db, Ok(()))
      else
        var (after, reply) := Transact(db, key, command, request);
        (after, if reply.Refused? then Err(reply.code) else Ok(()))
  }

  /** What recording the expiry of a lapsed approval throws. */
  function ExpiryCode(reply: Reply): Code {
    if reply.Refused? && reply.code != RevisionConflict then reply.code else ApprovalStale
  }

  /** One number for each of the three commits that an evaluation may make: their keys, or their command digests. */
  datatype EvaluationCommits = EvaluationCommits(admit: nat, complete: nat, fail: nat)

  datatype EvaluationInput = EvaluationInput(
    opportunity: EntityId, rubric: EntityId, existing: Option<EntityId>, newOperation: EntityId, newId: EntityId,
    contradictions: nat, evidence: set<EntityId>, scored: Outcome<Scored>)

  function AdmissionFor(rows: Rows, ctx: Context, input: EvaluationInput, now: Timestamp): Outcome<Admission> {
    AdmissionOf(rows, ctx, input.opportunity, input.rubric, input.existing, input.newOperation, input.newId,
                input.contradictions, now)
  }

  /** The request that admits an evaluation. */
  function AdmittingRequest(rows: Rows, ctx: Context, input: EvaluationInput, now: Timestamp): Request
    requires AdmissionFor(rows, ctx, input, now).Ok?
  {
    PlanAdmitEvaluation(rows, ctx, input.opportunity, input.rubric, input.existing, input.newOperation, input.newId,
                        input.contradictions, now).value
  }

  /**
   An evaluation: a commit that admits it, and then one that completes it or, if anything
   fails, one that fails it. The call goes on with what the first commit has returned,
   which after a replay is what an earlier call has admitted.
   */
  function EvaluationRun(db: Db, ctx: Context, input: EvaluationInput, now: Timestamp, terminalAt: Timestamp,
                         failedAt: Timestamp, keys: EvaluationCommits,
                         digests: EvaluationCommits): (Db, Outcome<()>) {
    match AdmissionFor(db.rows, ctx, input, now)
    case Err(code) => (db, Err(code))
    case Ok(own) =>
      var (admitted, reply) := Transact(db, keys.admit, digests.admit, AdmittingRequest(db.rows, ctx, input, now));
      match ContinuedWith(own, reply)
      case Err(code) => (admitted, Err(code))
      case Ok(a) => ContinuationRun(admitted, ctx, a, input, terminalAt, failedAt, keys, digests)
  }

  function ContinuationRun(admitted: Db, ctx: Context, a: Admission, input: EvaluationInput, terminalAt: Timestamp,
                           failedAt: Timestamp, keys: EvaluationCommits,
                           digests: EvaluationCommits): (Db, Outcome<()>) {
    var plan := PlanCompleteEvaluation(admitted.rows, ctx, a, input.evidence, input.scored, terminalAt);
    var (completed, second) := Executed(admitted, plan, keys.complete, digests.complete);
    if second.Ok? then (completed, second)
    else
      var (failed, third) := Executed(completed, PlanFailEvaluation(completed.rows, ctx, a, failedAt), keys.fail,
                                      digests.fail);
      (failed, if third.Err? then third else second)
  }

  /** What `startOperation` admits, if its first commit is its own. */
  datatype StartInput = StartInput(id: EntityId, kind: OperationKind, input: EntityId, route: Route, session: Session,
                                   parent: Option<EntityId>, wellFormed: bool)

  function PlanAdmission(rows: Rows, ctx: Context, i: StartInput, now: Timestamp): Outcome<Request> {
    PlanAdmitOperation(rows, ctx, i.id, i.kind, i.input, i.route, i.session, i.parent, i.wellFormed, now)
  }

  /** The one record that a commit returns, its own or that of the commit it repeats. */
  function Returned(request: Request, reply: Reply): Outcome<Entity> {
    match reply
    case Refused(code) => Err(code)
    case Committed => :- Require(|request.mutations| == 1, InvalidRequest); Ok(request.mutations[0].entity)
    case Replayed(result) => :- Require(|result| == 1, InvalidRequest); Ok(result[0])
  }

  /** One commit admits an operation, the next one starts the operation that the first has returned. */
  function StartRun(db: Db, ctx: Context, input: StartInput, now: Timestamp, startedAt: Timestamp,
                    keys: StartCommits, digests: StartCommits): (Db, Outcome<()>) {
    match PlanAdmission(db.rows, ctx, input, now)
    case Err(code) => (db, Err(code))
    case Ok(request) =>
      var (admitted, reply) := Transact(db, keys.admit, digests.admit, request);
      match Returned(request, reply)
      case Err(code) => (admitted, Err(code))
      case Ok(operation) =>
        Executed(admitted, PlanStartReturned(operation, ctx, startedAt), keys.start, digests.start)
  }

  datatype StartCommits = StartCommits(admit: nat, start: nat)

  function PlanStartReturned(operation: Entity, ctx: Context, startedAt: Timestamp): Outcome<Request> {
    PlanStartOperation(map[operation.id := operation], ctx, operation.id, startedAt)
  }

  function Prefixed(before: seq<Entity>, rest: Outcome<seq<Entity>>): Outcome<seq<Entity>> {
    match rest
    case Err(code) => Err(code)
    case Ok(entities) => Ok(before + entities)
  }

  lemma NothingPrefixed(rest: Outcome<seq<Entity>>)
    ensures Prefixed([], rest) == rest
  {
    if rest.Ok? {
      assert [] + rest.value == rest.value;
    }
  }

  lemma PrefixedTwice(before: seq<Entity>, next: seq<Entity>, rest: Outcome<seq<Entity>>)
    ensures Prefixed(before, Prefixed(next, rest)) == Prefixed(before + next, rest)
  {
    if rest.Ok? {
      assert before + (next + rest.value) == (before + next) + rest.value;
    }
  }

  /** The first `i` facts are located, and `offset` is where the next claim starts. */
  ghost predicate LocatedUpTo(facts: seq<Fact>, specs: seq<FactSpec>, i: nat, source: EntityId, offset: nat,
                              status: FactStatus, confirmedAt: Option<Timestamp>)
    requires i <= |specs|
  {
    LocatedFacts(specs, source, 0, status, confirmedAt)
      == facts + LocatedFacts(specs[i..], source, offset, status, confirmedAt)
  }

  lemma NoneLocated(specs: seq<FactSpec>, source: EntityId, status: FactStatus, confirmedAt: Option<Timestamp>)
    ensures LocatedUpTo([], specs, 0, source, 0, status, confirmedAt)
  {
    assert specs[0..] == specs;
  }

  lemma NextLocated(facts: seq<Fact>, specs: seq<FactSpec>, i: nat, source: EntityId, offset: nat, status: FactStatus,
                    confirmedAt: Option<Timestamp>)
    requires i < |specs| && LocatedUpTo(facts, specs, i, source, offset, status, confirmedAt)
    ensures LocatedUpTo(facts + [LocatedFact(specs[i], source, offset, status, confirmedAt)], specs, i + 1, source,
                        offset + |Claim(specs[i])| + 1, status, confirmedAt)
  {
    assert specs[i..][1..] == specs[i + 1..];
  }

  lemma AllLocated(facts: seq<Fact>, specs: seq<FactSpec>, source: EntityId, offset: nat, status: FactStatus,
                   confirmedAt: Option<Timestamp>)
    requires LocatedUpTo(facts, specs, |specs|, source, offset, status, confirmedAt)
    ensures facts == LocatedFacts(specs, source, 0, status, confirmedAt)
  {
    assert facts + [] == facts;
  }

  lemma CascadesIfKeyed(rows: Rows, actor: Actor, id: EntityId, newId: EntityId, correction: Fact)
    requires id in rows && rows[id].body.OfFact?
    ensures Keyed(rows) ==> CascadesFrom(rows, CorrectionRequest(rows, actor, id, newId, correction), id)
  {
    if Keyed(rows) {
      RequestCascades(rows, actor, id, newId, correction);
    }
  }

  ghost predicate AllEvidence(rows: Rows, ids: seq<EntityId>) {
    forall id :: id in ids ==> id in rows && rows[id].body.OfEvidence?
  }

  /** The first `i` items revive nothing. */
  ghost predicate PassedUpTo(rows: Rows, ids: seq<EntityId>, i: nat, evidence: Evidence, source: Option<Source>)
    requires AllEvidence(rows, ids) && i <= |ids|
  {
    NotRevived(rows, ids, evidence, source) == NotRevived(rows, ids[i..], evidence, source)
  }

  lemma NonePassed(rows: Rows, ids: seq<EntityId>, evidence: Evidence, source: Option<Source>)
    requires AllEvidence(rows, ids)
    ensures PassedUpTo(rows, ids, 0, evidence, source)
  {
    assert ids[0..] == ids;
  }

  lemma NextPassed(rows: Rows, ids: seq<EntityId>, i: nat, evidence: Evidence, source: Option<Source>)
    requires AllEvidence(rows, ids) && i < |ids| && PassedUpTo(rows, ids, i, evidence, source)
    ensures ids[i] in rows && rows[ids[i]].body.OfEvidence?
    ensures var r := NotRevivedBy(rows, rows[ids[i]].body.evidence, evidence, source);
      if r.Ok? then PassedUpTo(rows, ids, i + 1, evidence, source)
        else NotRevived(rows, ids, evidence, source) == r
  {
    assert ids[i..][1..] == ids[i + 1..] && ids[i] in ids;
  }

  lemma AllPassed(rows: Rows, ids: seq<EntityId>, evidence: Evidence, source: Option<Source>)
    requires AllEvidence(rows, ids) && PassedUpTo(rows, ids, |ids|, evidence, source)
    ensures NotRevived(rows, ids, evidence, source) == Ok(())
  {
  }

  ghost predicate IsApplication(rows: Rows, id: EntityId) { id in rows && rows[id].body.OfApplication? }

  /** The application is at that revision, and the graph has an edge to that state. */
  ghost predicate Movable(rows: Rows, id: EntityId, expected: nat, state: ApplicationState) {
    IsApplication(rows, id) && rows[id].revision == expected
    && ApplicationEdge(rows[id].body.application.state, state)
  }

  /** The locator quotes a source of the candidate's own. */
  ghost predicate QuotesOwnSource(rows: Rows, l: Locator) {
    && l.source in rows && rows[l.source].body.OfSource?
    && (var s := rows[l.source].body.source;
        && s.trust.CandidatePrimary? && s.text.Some?
        && 0 <= l.start < l.end && Slice(s.text.value, l.start, l.end) == l.quote)
  }

  /**
   The caller's own discovery operation is running, is not to be cancelled, and its search
   profile is as it was admitted.
   */
  ghost predicate Discovering(rows: Rows, ctx: Context) {
    && ctx.operation.Some? && AuthorizeOperation(rows, ctx, ctx.operation.value).Ok?
    && (var o := rows[ctx.operation.value].body.operation;
        && o.kind.JobDiscovery? && o.state.Running? && o.cancelRequestedAt.None?
        && o.input.Some? && o.inputRevision.Some? && o.inputDigest.Some?
        && o.input.value in rows && rows[o.input.value].body.OfSearchProfile?
        && (var profile := rows[o.input.value];
            profile.body.profile.active && profile.revision == o.inputRevision.value
              && OfRecord(profile) == o.inputDigest.value))
  }

  class WorkbenchService {
    const store: WorkspaceStore

    constructor (store: WorkspaceStore)
      ensures this.store == store
    {
      this.store := store;
    }

    /** `repository.commit` */
    method Submit(key: nat, command: nat, request: Request) returns (r: Outcome<()>)
      requires request.mutations != []
      modifies store
      ensures (store.State(), r) == Executed(old(store.State()), Ok(request), key, command)
    {
      var reply := store.Commit(key, command, request);
      return if reply.Refused? then Err(reply.code) else Ok(());
    }

    // ---------- loops over chains of records ----------

    method CorrectionDescendant(candidate: Option<EntityId>, rejected: Option<EntityId>) returns (r: Outcome<bool>)
      ensures r == IsUserCorrectionDescendant(store.rows, candidate, rejected)
    {
      if candidate.None? || rejected.None? {
        return Ok(false);
      }
      var fact :- store.Get(FactKind, candidate.value);
      var cursor, includesUserCorrection := candidate.value, false;
      var seen: set<EntityId> := {};
      while fact.body.fact.supersedes.Some? && cursor !in seen
        invariant cursor in store.rows && store.rows[cursor] == fact && fact.body.OfFact?
        invariant IsUserCorrectionDescendant(store.rows, candidate, rejected)
               == Descends(store.rows, cursor, rejected.value, seen, includesUserCorrection)
        decreases store.rows.Keys - seen
      {
        seen := seen + {cursor};
        includesUserCorrection := includesUserCorrection
          || (fact.body.fact.proposedBy.ByUser? && fact.body.fact.confirmedAt.Some?);
        if fact.body.fact.supersedes == rejected {
          return Ok(includesUserCorrection);
        }
        cursor := fact.body.fact.supersedes.value;
        fact :- store.Get(FactKind, cursor);
      }
      return Ok(false);
    }

    method LineageIncludesSession(operation: EntityId, session: Session) returns (r: Outcome<bool>)
      requires operation in store.rows && store.rows[operation].body.OfOperation?
      ensures r == LineageIncludes(store.rows, operation, session, 0, {})
    {
      var cursor, depth := operation, 0;
      var seen: set<EntityId> := {};
      while depth <= MAX_LINEAGE_DEPTH
        invariant depth <= MAX_LINEAGE_DEPTH + 1
        invariant cursor in store.rows && store.rows[cursor].body.OfOperation?
        invariant LineageIncludes(store.rows, operation, session, 0, {})
                  == LineageIncludes(store.rows, cursor, session, depth, seen)
      {
        if cursor in seen {
          return Ok(false);
        }
        seen := seen + {cursor};
        var o := store.rows[cursor].body.operation;
        if o.session == Some(session) {
          return Ok(true);
        }
        if o.parent.None? {
          return Ok(false);
        }
        var _ :- store.Get(OperationTable, o.parent.value);
        cursor, depth := o.parent.value, depth + 1;
      }
      return Ok(false);
    }

    method Authorize(ctx: Context, id: EntityId) returns (r: Outcome<Entity>)
      ensures r == AuthorizeOperation(store.rows, ctx, id)
    {
      if !(IsDsh(ctx.actor) && ctx.operation == Some(id) && ctx.session.Some?) {
        return Err(ApprovalDenied);
      }
      var operation :- store.Get(OperationTable, id);
      if !operation.body.operation.route.NativeChild? {
        :- Require(SameSession(ctx, operation.body.operation), ApprovalDenied);
        return Ok(operation);
      }
      var included :- LineageIncludesSession(id, ctx.session.value);
      :- Require(included, ApprovalDenied);
      return Ok(operation);
    }

    // ---------- evidence ----------

    method CheckRunningOwn(ctx: Context, id: EntityId, notRunning: Code) returns (r: Outcome<()>)
      ensures r == RunningOwn(store.rows, ctx, id, notRunning)
    {
      var operation :- store.Get(OperationTable, id);
      :- Require(operation.body.operation.state.Running?, notRunning);
      :- Require(ctx.operation == Some(id) && SameSession(ctx, operation.body.operation)
                 && IsDsh(ctx.actor), ApprovalRequired);
      return Ok(());
    }

    method GetSource(id: Option<EntityId>) returns (r: Outcome<Option<Source>>)
      ensures r == FetchSource(store.rows, id)
    {
      if id.None? {
        return Ok(None);
      }
      var source :- store.Get(SourceTable, id.value);
      return Ok(Some(source.body.source));
    }

    method GetFact(id: Option<EntityId>) returns (r: Outcome<Option<Fact>>)
      ensures r == FetchFact(store.rows, id)
    {
      if id.None? {
        return Ok(None);
      }
      var fact :- store.Get(FactKind, id.value);
      return Ok(Some(fact.body.fact));
    }

    method AssertRejectedEvidenceNotRevived(evidence: Evidence, source: Option<Source>) returns (r: Outcome<()>)
      ensures r == NotRevived(store.rows, ListIds(store.rows, EvidenceKind), evidence, source)
    {
      r := CheckNoneRevived(ListIds(store.rows, EvidenceKind), evidence, source);
    }

    method CheckNoneRevived(ids: seq<EntityId>, evidence: Evidence, source: Option<Source>) returns (r: Outcome<()>)
      requires AllEvidence(store.rows, ids)
      ensures r == NotRevived(store.rows, ids, evidence, source)
    {
      NonePassed(store.rows, ids, evidence, source);
      for i := 0 to |ids|
        invariant PassedUpTo(store.rows, ids, i, evidence, source)
      {
        NextPassed(store.rows, ids, i, evidence, source);
        var _ :- CheckNotRevived(store.rows[ids[i]].body.evidence, evidence, source);
      }
      AllPassed(store.rows, ids, evidence, source);
      return Ok(());
    }

    method CheckNotRevived(rejected: Evidence, evidence: Evidence, source: Option<Source>) returns (r: Outcome<()>)
      ensures r == NotRevivedBy(store.rows, rejected, evidence, source)
    {
      if !rejected.decision.Rejected? {
        return Ok(());
      }
      var rejectedSource :- GetSource(rejected.source);
      if RejectionIdentity(rejected, rejectedSource) != RejectionIdentity(evidence, source) {
        return Ok(());
      }
      if evidence.classification.CandidateFact? && rejected.classification.CandidateFact? {
        var exempt :- CorrectionDescendant(evidence.fact, rejected.fact);
        if exempt {
          return Ok(());
        }
      }
      return Err(EvidenceUnsupported);
    }

    method ProposeEvidence(ctx: Context, id: EntityId, classification: Classification, claim: string,
                           source: Option<EntityId>, locator: Option<Locator>,
                           fact: Option<EntityId>, operation: Option<EntityId>, key: nat, command: nat)
                           returns (r: Outcome<()>)
      modifies store
      ensures (store.State(), r)
              == Executed(old(store.State()), PlanProposeEvidence(old(store.rows), ctx, id, classification, claim,
                                                                  source, locator, fact, operation), key, command)
    {
      if !(0 < |claim| <= 2000) {
        return Err(InvalidRequest);
      }
      :- Require(locator.Some? ==> source == Some(locator.value.source), EvidenceLocatorInvalid);
      if operation.Some? {
        var _ :- CheckRunningOwn(ctx, operation.value, InvalidTransition);
      }
      var evidence := Evidence(classification, claim, source, locator, fact, operation, EvidenceProposed);
      r := Submit(key, command, Request([Insert(Entity(id, 1, OfEvidence(evidence)))], [Event(id, 1, ctx.actor)]));
    }

    method DecideEvidence(ctx: Context, id: EntityId, expected: nat, accept: bool, wellFormed: bool, key: nat,
                          command: nat) returns (r: Outcome<()>)
      modifies store
      ensures (store.State(), r)
              == Executed(old(store.State()), PlanDecideEvidence(old(store.rows), ctx, id, expected, accept,
                                                                 wellFormed), key, command)
    {
      if !wellFormed {
        return Err(InvalidRequest);
      }
      var evidence :- store.Get(EvidenceKind, id);
      var e := evidence.body.evidence;
      if e.operation.Some? {
        var _ :- CheckRunningOwn(ctx, e.operation.value, ApprovalRequired);
      }
      :- Require(evidence.revision == expected, RevisionConflict);
      var source :- GetSource(e.source);
      var fact :- GetFact(e.fact);
      if accept {
        :- ValidateForAcceptance(e, source, fact);
        var _ :- AssertRejectedEvidenceNotRevived(e, source);
      } else {
        :- Require(e.decision.EvidenceProposed?, InvalidTransition);
      }
      var decided := Updated(evidence, OfEvidence(e.(decision := if accept then Accepted else Rejected)));
      r := Submit(key, command, Request([Update(decided, expected)],
                                        [Event(evidence.id, decided.revision, ctx.actor)]));
    }

    // ---------- profile facts ----------

    /** `claims.join("\n")` */
    method Join(claims: seq<FactSpec>) returns (text: string)
      ensures text == JoinClaims(claims)
    {
      text := "";
      var i := |claims|;
      while i > 0
        invariant 0 <= i <= |claims|
        invariant text == JoinClaims(claims[i..])
      {
        i := i - 1;
        assert claims[i..][1..] == claims[i + 1..];
        text := if i == |claims| - 1 then Claim(claims[i]) else Claim(claims[i]) + "\n" + text;
      }
      assert claims[0..] == claims;
    }

    /** The facts over a joined text, each located by a running offset. */
    method Locate(specs: seq<FactSpec>, source: EntityId, status: FactStatus, confirmedAt: Option<Timestamp>)
      returns (facts: seq<Fact>)
      ensures facts == LocatedFacts(specs, source, 0, status, confirmedAt)
    {
      facts := [];
      var offset: nat := 0;
      NoneLocated(specs, source, status, confirmedAt);
      for i := 0 to |specs|
        invariant LocatedUpTo(facts, specs, i, source, offset, status, confirmedAt)
      {
        NextLocated(facts, specs, i, source, offset, status, confirmedAt);
        facts := facts + [LocatedFact(specs[i], source, offset, status, confirmedAt)];
        offset := offset + |Claim(specs[i])| + 1;
      }
      AllLocated(facts, specs, source, offset, status, confirmedAt);
    }

    method AddCareerHistory(ctx: Context, specs: seq<FactSpec>, source: EntityId, factIds: seq<EntityId>,
                            wellFormed: bool, key: nat, command: nat) returns (r: Outcome<()>)
      modifies store
      ensures (store.State(), r)
              == Executed(old(store.State()), PlanAddCareerHistory(ctx, specs, source, factIds, wellFormed), key,
                          command)
    {
      if !(wellFormed && specs != [] && |factIds| == |specs|) {
        return Err(InvalidRequest);
      }
      var text := Join(specs);
      :- Require(0 < |Utf8(text)| <= MAX_INLINE_SOURCE_BYTES, InvalidRequest);
      var facts := Locate(specs, source, FactProposed, None);
      var entities := [Entity(source, 1, OfSource(InlineSource(CandidateSource, CandidatePrimary, text, None,
                                                               false)))] + FactRows(factIds, facts);
      r := Submit(key, command, Request(Inserts(entities), EventsOf(entities, ctx.actor)));
    }

    method CheckSources(locators: seq<Locator>, primary: bool) returns (r: Outcome<()>)
      ensures r == CheckLocators(store.rows, locators, primary)
    {
      for i := 0 to |locators|
        invariant CheckLocators(store.rows, locators, primary) == CheckLocators(store.rows, locators[i..], primary)
      {
        assert locators[i..][1..] == locators[i + 1..];
        var source :- store.Get(SourceTable, locators[i].source);
        :- ValidateSourceLocator(locators[i].source, source.body.source, locators[i]);
        :- Require(primary ==> source.body.source.trust.CandidatePrimary?, EvidenceUnsupported);
      }
      return Ok(());
    }

    method ConfirmFact(ctx: Context, id: EntityId, expected: nat, outcome: FactOutcome, newId: EntityId, now: Timestamp,
                       key: nat, command: nat) returns (r: Outcome<()>)
      modifies store
      ensures (store.State(), r)
              == Executed(old(store.State()), PlanConfirmFact(old(store.rows), ctx, id, expected, outcome, newId, now),
                          key, command)
    {
      var fact :- store.Get(FactKind, id);
      var f := fact.body.fact;
      :- Require(fact.revision == expected, RevisionConflict);
      :- Require(f.status.FactProposed? || f.status.DerivedUnverified?, InvalidTransition);
      if outcome.Correct? {
        var _ :- CheckSources([outcome.locator], true);
        var superseded := Updated(fact, OfFact(WithStatus(f, Superseded)));
        var corrected := Entity(newId, 1, OfFact(Correction(fact, outcome.value, outcome.locator, now)));
        r := Submit(key, command, Request([Update(superseded, expected), Insert(corrected)],
                                          [Event(fact.id, superseded.revision, ctx.actor),
                                           Event(newId, 1, ctx.actor)]));
        return;
      }
      if outcome.Confirm? {
        :- Require(f.locators != [], EvidenceUnsupported);
        var _ :- CheckSources(f.locators, true);
      }
      var status := if outcome.Confirm? then Verified else if outcome.NarrativeOnly? then DerivedUnverified
        else UserCannotConfirm;
      var next := Updated(fact, OfFact(f.(status := status, confirmedAt := if outcome.Confirm? then Some(now)
                                          else None)));
      r := Submit(key, command, Request([Update(next, expected)], [Event(fact.id, next.revision, ctx.actor)]));
    }

    method CorrectVerifiedFact(ctx: Context, id: EntityId, expected: nat, value: Primitive, locator: Locator,
                               newId: EntityId, now: Timestamp, key: nat, command: nat) returns (r: Outcome<()>)
      modifies store
      ensures (store.State(), r)
              == Executed(old(store.State()), PlanCorrectFact(old(store.rows), ctx, id, expected, value, locator, newId,
                                                              now), key, command)
    {
      var fact :- GetCorrectable(id, expected, locator);
      var request := CascadeMutations(ctx, id, newId, Correction(fact, value, locator, now));
      r := Submit(key, command, request);
    }

    method GetCorrectable(id: EntityId, expected: nat, locator: Locator) returns (r: Outcome<Entity>)
      ensures r == Correctable(store.rows, id, expected, locator)
      ensures r.Ok? <==>
                && id in store.rows && store.rows[id].body.OfFact? && store.rows[id].body.fact.status.Verified?
                && store.rows[id].revision == expected && QuotesOwnSource(store.rows, locator)
      ensures r.Ok? ==> r.value == store.rows[id]
    {
      var fact :- store.Get(FactKind, id);
      :- Require(fact.body.fact.status.Verified?, InvalidTransition);
      :- Require(fact.revision == expected, RevisionConflict);
      var _ :- CheckSources([locator], true);
      return Ok(fact);
    }

    method CascadeMutations(ctx: Context, id: EntityId, newId: EntityId, correction: Fact) returns (request: Request)
      requires id in store.rows && store.rows[id].body.OfFact?
      ensures request == CorrectionRequest(store.rows, ctx.actor, id, newId, correction) && request.mutations != []
      ensures Keyed(store.rows) ==> CascadesFrom(store.rows, request, id)
    {
      CascadesIfKeyed(store.rows, ctx.actor, id, newId, correction);
      var fact := store.rows[id];
      var superseded := Updated(fact, OfFact(WithStatus(fact.body.fact, Superseded)));
      var corrected := Entity(newId, 1, OfFact(correction));
      var cascade := CascadeOf(store.rows, id);
      var stale := StaleOf(store.rows, id, cascade.evaluations) + StaleOf(store.rows, id,
            cascade.comparisons) + StaleOf(store.rows, id, cascade.artifacts);
      return Request([Update(superseded, fact.revision), Insert(corrected)] + Updates(stale),
                     [Event(fact.id, superseded.revision, ctx.actor), Event(newId, 1, ctx.actor)] + EventsOf(stale,
                         ctx.actor));
    }

    // ---------- approvals and their effects ----------

    method ProposeComparison(ctx: Context, operation: EntityId, id: EntityId, evaluations: seq<EntityId>,
                             scenarios: seq<map<string, nat>>, wellFormed: bool,
                             key: nat, command: nat) returns (r: Outcome<()>)
      modifies store
      ensures (store.State(), r)
              == Executed(old(store.State()), PlanProposeComparison(old(store.rows), ctx, operation, id, evaluations,
                                                                    scenarios, wellFormed), key, command)
    {
      var authorized :- Authorize(ctx, operation);
      var o := authorized.body.operation;
      :- Require(o.route.Rlm? && (o.state.Queued? || o.state.Running?), InvalidTransition);
      :- Require(wellFormed && 0 < |scenarios| <= 8, InvalidRequest);
      var inputs :- ComparisonProjections(store.rows, evaluations);
      var results :- RunScenarios(Keys(store.rows[evaluations[0]].body.evaluation.scores), inputs, scenarios);
      var comparison := Entity(id, 1, OfComparison(Comparison(inputs, results, CompProposed, operation, None, None)));
      r := Submit(key, command, Request([Insert(comparison)], [Event(id, 1, ctx.actor)]));
    }

    method RequestApproval(ctx: Context, id: EntityId, effect: EffectKind, target: EntityId, expected: nat,
                           expiresIn: nat,
                           transition: Option<EffectDetails>, wellFormed: bool, now: Timestamp, key: nat, command: nat)
                           returns (r: Outcome<()>)
      modifies store
      ensures (store.State(), r)
              == Executed(old(store.State()), PlanRequestApproval(old(store.rows), ctx, id, effect, target, expected,
                                                                  expiresIn, transition, wellFormed, now), key, command)
    {
      if !IsDirectUser(ctx.actor) {
        return Err(ApprovalRequired);
      }
      :- Require(1 <= expiresIn <= 3600, InvalidRequest);
      var details :- CheckRequested(effect, target, expected, transition, wellFormed);
      var approval := Entity(id, 1, OfApproval(Approval(effect, target, EffectDigest(effect, target, expected, details),
                                                        map[target := expected],
                                                        Pending, now + expiresIn, None)));
      r := Submit(key, command, Request([Insert(approval)], [Event(id, 1, ctx.actor)]));
    }

    method CheckRequested(effect: EffectKind, target: EntityId, expected: nat, transition: Option<EffectDetails>,
                          wellFormed: bool) returns (r: Outcome<EffectDetails>)
      ensures r == RequestedDetails(store.rows, effect, target, expected, transition, wellFormed)
    {
      match effect
      case AcceptComparisonEffect =>
        :- Require(transition.None?, InvalidRequest);
        var comparison :- store.Get(ComparisonKind, target);
        :- Require(comparison.revision == expected, RevisionConflict);
        :- Require(comparison.body.comparison.state.CompProposed?, InvalidTransition);
        return Ok(NoDetails);
      case ReviewArtifactEffect =>
        :- Require(transition.None?, InvalidRequest);
        var artifact :- store.Get(ArtifactTable, target);
        :- Require(artifact.revision == expected, RevisionConflict);
        :- Require(artifact.body.artifact.state.Staged? && IsDraft(artifact.body.artifact), InvalidTransition);
        return Ok(NoDetails);
      case TransitionEffect =>
        :- Require(transition.Some? && transition.value.TransitionDetails?, InvalidRequest);
        var application :- store.Get(ApplicationKind, target);
        :- Require(application.revision == expected, RevisionConflict);
        :- Require(wellFormed, InvalidRequest);
        :- Require(ApplicationEdge(application.body.application.state, transition.value.state), InvalidTransition);
        return Ok(transition.value);
    }

    /** An approval that has lapsed is recorded as expired instead, and the decision refused. */
    ghost predicate DecisionExecuted(before: Db, after: Db, lapsed: bool, plan: Outcome<Request>, expiryKey: nat,
                                     key: nat, command: nat, r: Outcome<()>) {
      if lapsed && plan.Ok? then
        var (expired, reply) := Transact(before, expiryKey, command, plan.value);
        after == expired && r == Err(ExpiryCode(reply))
      else (after, r) == Executed(before, plan, key, command)
    }

    method DecideApproval(ctx: Context, id: EntityId, expected: nat, approve: bool, interaction: nat, wellFormed: bool,
                          clock: Timestamp, expiryKey: nat, key: nat, command: nat) returns (r: Outcome<()>)
      modifies store
      ensures
        var rows := old(store.rows);
        DecisionExecuted(old(store.State()), store.State(), id in rows && rows[id].body.OfApproval?
                         && Lapsed(rows[id].body.approval, clock),
                         PlanDecideApproval(rows, ctx, id, expected, approve, interaction, wellFormed, clock),
                         expiryKey,
                         key, command, r)
    {
      if !IsDirectUser(ctx.actor) {
        return Err(ApprovalRequired);
      }
      :- Require(wellFormed, InvalidRequest);
      var approval :- store.Get(ApprovalKind, id);
      var a := approval.body.approval;
      :- Require(!a.state.Denied?, ApprovalDenied);
      if Lapsed(a, clock) && (a.state.Pending? || a.state.Approved?) {
        var reply := store.Commit(expiryKey, command, ExpireRequest(store.rows, ctx, approval));
        return Err(ExpiryCode(reply));
      }
      :- Require(a.state.Pending?, ApprovalStale);
      :- Require(approval.revision == expected, ApprovalStale);
      var decided := Updated(approval, OfApproval(a.(state := if approve then Approved
                                                     else Denied, interaction := if approve then Some(interaction)
                                                       else None)));
      r := Submit(key, command, Request([Update(decided, expected)],
                                        [Event(approval.id, decided.revision, ctx.actor)]));
    }

    /**
     What checking an approval does and gives: an approval that has lapsed is recorded as
     expired, and then refused.
     */
    ghost predicate ApprovalChecked(before: Db, after: Db, usability: Outcome<Usability>, key: nat, command: nat,
                                    r: Outcome<Entity>) {
      match usability
      case Err(code) => after == before && r == Err(code)
      case Ok(Usable(approval)) => after == before && r == Ok(approval)
      case Ok(Lapsing(expiry)) =>
        var (expired, reply) := Transact(before, key, command, expiry);
        after == expired && r == Err(ExpiryCode(reply))
    }

    method ApprovedEffect(ctx: Context, effect: EffectKind, target: EntityId, revision: nat, consumption: Consumption,
                          details: EffectDetails, clock: Timestamp, key: nat, command: nat) returns (r: Outcome<Entity>)
      modifies store
      ensures ApprovalChecked(old(store.State()), store.State(),
                              RequireApprovedEffect(old(store.rows), ctx, effect, target, revision, consumption,
                                                    details, clock), key, command, r)
    {
      if !(consumption.approval.Some? && consumption.expected.Some?) {
        return Err(ApprovalRequired);
      }
      var found := store.Get(ApprovalKind, consumption.approval.value);
      if found.Err? {
        return Err(ApprovalStale);
      }
      var approval := found.value;
      var a := approval.body.approval;
      if a.state.Denied? {
        return Err(ApprovalDenied);
      }
      if Lapsed(a, clock) {
        if a.state.Pending? || a.state.Approved? {
          var reply := store.Commit(key, command, ExpireRequest(store.rows, ctx, approval));
          return Err(ExpiryCode(reply));
        }
        return Err(ApprovalStale);
      }
      :- Require(!a.state.Pending?, ApprovalRequired);
      :- Require(a.state.Approved?, ApprovalStale);
      :- Require(approval.revision == consumption.expected.value, ApprovalStale);
      :- Require(a.effect == effect && a.target == target && a.expected == map[target := revision]
                 && a.digest == EffectDigest(effect, target, revision, details) && a.interaction.Some?, ApprovalStale);
      return Ok(approval);
    }

    /** How a command ends that needs an approval; `expiryKey` is the key under which a lapse is recorded. */
    ghost predicate EffectExecuted(before: Db, after: Db, usability: Outcome<Usability>, plan: Outcome<Request>,
                                   expiryKey: nat, key: nat, command: nat, r: Outcome<()>) {
      if usability.Ok? && usability.value.Lapsing? then
        var (expired, reply) := Transact(before, expiryKey, command, usability.value.request);
        after == expired && r == Err(ExpiryCode(reply))
      else (after, r) == Executed(before, plan, key, command)
    }

    method AcceptComparison(ctx: Context, id: EntityId, expected: nat, consumption: Consumption, clock: Timestamp,
                            now: Timestamp,
                            expiryKey: nat, key: nat, command: nat) returns (r: Outcome<()>)
      modifies store
      ensures EffectExecuted(old(store.State()), store.State(),
                             if IsDirectUser(ctx.actor) then RequireApprovedEffect(old(store.rows), ctx,
                                 AcceptComparisonEffect, id, expected, consumption, NoDetails, clock)
                             else Err(ApprovalRequired),
                             PlanAcceptComparison(old(store.rows), ctx, id, expected, consumption, clock, now),
                             expiryKey, key, command, r)
    {
      if !IsDirectUser(ctx.actor) {
        return Err(ApprovalRequired);
      }
      var approval :- ApprovedEffect(ctx, AcceptComparisonEffect, id, expected, consumption, NoDetails, clock,
                                     expiryKey, command);
      var comparison :- store.Get(ComparisonKind, id);
      var c := comparison.body.comparison;
      :- Require(comparison.revision == expected, ApprovalStale);
      :- Require(c.state.CompProposed?, InvalidTransition);
      var current :- ComparisonProjections(store.rows, EvaluationIds(c.inputs));
      :- Require(SameRevisions(current, c.inputs), ApprovalStale);
      var accepted := Updated(comparison, OfComparison(c.(state := CompAccepted, acceptedAt := Some(now))));
      var consumed := Consume(approval);
      r := Submit(key, command, Request([Update(accepted, expected), Update(consumed, approval.revision)],
                                        [Event(accepted.id, accepted.revision, ctx.actor),
                                         Event(approval.id, consumed.revision, ctx.actor)]));
    }

    method ReviewDraft(ctx: Context, id: EntityId, expected: nat, consumption: Consumption, clock: Timestamp,
                       expiryKey: nat, key: nat, command: nat) returns (r: Outcome<()>)
      modifies store
      ensures EffectExecuted(old(store.State()), store.State(),
                             if IsDirectUser(ctx.actor) then RequireApprovedEffect(old(store.rows), ctx,
                                 ReviewArtifactEffect, id, expected, consumption, NoDetails, clock)
                             else Err(ApprovalRequired),
                             PlanReviewDraft(old(store.rows), ctx, id, expected, consumption, clock), expiryKey, key,
                             command, r)
    {
      if !IsDirectUser(ctx.actor) {
        return Err(ApprovalRequired);
      }
      var approval :- ApprovedEffect(ctx, ReviewArtifactEffect, id, expected, consumption, NoDetails, clock, expiryKey,
                                     command);
      var artifact :- store.Get(ArtifactTable, id);
      var a := artifact.body.artifact;
      :- Require(artifact.revision == expected, ApprovalStale);
      :- Require(a.state.Staged? && IsDraft(a), InvalidTransition);
      var reviewed := Updated(artifact, OfArtifact(a.(state := Sealed)));
      var consumed := Consume(approval);
      r := Submit(key, command, Request([Update(reviewed, expected), Update(consumed, approval.revision)],
                                        [Event(reviewed.id, reviewed.revision, ctx.actor),
                                         Event(approval.id, consumed.revision, ctx.actor)]));
    }

    predicate NeedsConsumption(ctx: Context, consumption: Consumption) {
      !IsDirectUser(ctx.actor) || consumption.approval.Some? || consumption.expected.Some?
    }

    method TransitionApplication(ctx: Context, id: EntityId, expected: nat, details: EffectDetails,
                                 consumption: Consumption, wellFormed: bool,
                                 clock: Timestamp, expiryKey: nat, key: nat, command: nat) returns (r: Outcome<()>)
      requires details.TransitionDetails?
      modifies store
      ensures EffectExecuted(old(store.State()), store.State(),
                             if wellFormed && NeedsConsumption(ctx, consumption)
                             then RequireApprovedEffect(old(store.rows), ctx, TransitionEffect, id, expected,
                                                        consumption, details, clock)
                             else Err(InvalidRequest),
                             PlanTransitionApplication(old(store.rows), ctx, id, expected, details, consumption,
                                                       wellFormed, clock), expiryKey, key, command, r)
    {
      if !wellFormed {
        return Err(InvalidRequest);
      }
      var approval: Option<Entity> := None;
      if NeedsConsumption(ctx, consumption) {
        var approved :- ApprovedEffect(ctx, TransitionEffect, id, expected, consumption, details, clock, expiryKey,
                                       command);
        approval := Some(approved);
      }
      var transitioned :- MoveApplication(id, expected, details, if approval.None? then RevisionConflict
                                          else ApprovalStale);
      var mutations, events := [Update(transitioned, expected)],
        [Event(transitioned.id, transitioned.revision, ctx.actor)];
      if approval.Some? {
        var consumed := Consume(approval.value);
        mutations := mutations + [Update(consumed, approval.value.revision)];
        events := events + [Event(consumed.id, consumed.revision, ctx.actor)];
        assert mutations == [Update(transitioned, expected), Update(consumed, approval.value.revision)];
        assert events == [Event(transitioned.id, transitioned.revision, ctx.actor),
                          Event(consumed.id, consumed.revision, ctx.actor)];
      }
      r := Submit(key, command, Request(mutations, events));
    }

    method MoveApplication(id: EntityId, expected: nat, details: EffectDetails, stale: Code)
      returns (r: Outcome<Entity>)
      requires details.TransitionDetails?
      ensures r == Transitioned(store.rows, id, expected, details, stale)
      ensures r.Ok? <==> Movable(store.rows, id, expected, details.state)
      ensures r.Ok? ==> r.value.id == store.rows[id].id && r.value.revision == expected + 1
      ensures r.Err? ==> r.code == (if !IsApplication(store.rows, id) then EntityNotFound
                                    else if store.rows[id].revision != expected then stale else InvalidTransition)
    {
      var application :- store.Get(ApplicationKind, id);
      var a := application.body.application;
      :- Require(application.revision == expected, stale);
      :- Require(ApplicationEdge(a.state, details.state), InvalidTransition);
      return Ok(Updated(application, OfApplication(a.(state := details.state, stateRevision := a.stateRevision + 1,
                                                      effectiveDate := details.effectiveDate, note := details.note))));
    }

    // ---------- operations ----------

    method ReconcileInterruptedOperations(ctx: Context, now: Timestamp, key: nat, command: nat) returns (r: Outcome<()>)
      modifies store
      ensures (store.State(), r) == Executed(old(store.State()), PlanReconcile(old(store.rows), ctx, now), key, command)
    {
      if !ctx.actor.System? {
        return Err(ApprovalDenied);
      }
      var rows := store.rows;
      var interrupted := Select(ListIds(rows, OperationTable), (id: EntityId) => Recoverable(rows, id));
      if interrupted == [] {
        return Ok(());
      }
      var recovered := Revised(rows, interrupted, (e: Entity) => Recovered(e, now));
      r := Submit(key, command, Request(Updates(recovered), EventsOf(recovered, ctx.actor)));
    }

    method CheckResultIds(operation: Entity, results: seq<EntityId>) returns (r: Outcome<()>)
      requires operation.body.OfOperation?
      ensures r == CheckResults(store.rows, operation, results)
    {
      var o := operation.body.operation;
      for i := 0 to |results|
        invariant CheckResults(store.rows, operation, results) == CheckResults(store.rows, operation, results[i..])
      {
        assert results[i..][1..] == results[i + 1..];
        match o.kind
        case JobDiscovery =>
          var lead :- store.Get(LeadKind, results[i]);
          :- Require(lead.body.lead.operation == operation.id, InvalidRequest);
        case ProfileOrganization =>
          var fact :- store.Get(FactKind, results[i]);
          var f := fact.body.fact;
          :- Require(f.status.FactProposed? && f.proposedBy.ByAgent? && o.input.Some? && f.locators != []
                     && (forall l :: l in f.locators ==> l.source == o.input.value), InvalidRequest);
        case _ =>
          return Ok(());
      }
      return Ok(());
    }

    method TerminateOperation(ctx: Context, id: EntityId, expected: nat, state: OperationState, results: seq<EntityId>,
                              artifacts: seq<EntityId>,
                              wellFormed: bool, now: Timestamp, key: nat, command: nat) returns (r: Outcome<()>)
      modifies store
      ensures (store.State(), r)
              == Executed(old(store.State()), PlanTerminate(old(store.rows), ctx, id, expected, state, results,
                                                            artifacts, wellFormed, now), key, command)
    {
      var operation :- Authorize(ctx, id);
      var o := operation.body.operation;
      :- Require(operation.revision == expected, RevisionConflict);
      :- Require(!Terminal(o.state), InvalidTransition);
      :- Require(wellFormed && Terminal(state) && |results| <= 64 && |artifacts| <= 64, InvalidRequest);
      :- Require(o.kind.ProfileOrganization? ==> |results| <= 48 && Distinct(results), InvalidRequest);
      var _ :- CheckResultIds(operation, results);
      :- Require(o.kind.JobDiscovery? || o.kind.ProfileOrganization? ==> artifacts == [], InvalidRequest);
      var terminal := Updated(operation, OfOperation(o.(state := state, lastActivityAt := now, terminalAt := Some(now),
                                                        results := results, artifacts := artifacts)));
      r := Submit(key, command, Request([Update(terminal, operation.revision)],
                                        [Event(operation.id, terminal.revision, ctx.actor)]));
    }

    method StartOperation(ctx: Context, i: StartInput, now: Timestamp, startedAt: Timestamp, keys: StartCommits,
                          digests: StartCommits) returns (r: Outcome<()>)
      modifies store
      ensures (store.State(), r) == StartRun(old(store.State()), ctx, i, now, startedAt, keys, digests)
    {
      if !IsDsh(ctx.actor) {
        return Err(ApprovalRequired);
      }
      :- Require(i.wellFormed && !i.route.Deterministic?, InvalidRequest);
      var inputOf :- AdmittedInput(store.rows, i.kind, i.input);
      var _ :- SessionAdmits(store.rows, ctx, i.route, i.session, i.parent);
      var operation := Entity(i.id, 1, OfOperation(Operation(i.kind, Some(i.input), Some(inputOf.0), Some(inputOf.1),
                                                             Some(i.session), i.parent, Queued, i.route, None, now,
                                                             None, [], [], None)));
      var request := Request([Insert(operation)], [Event(i.id, 1, ctx.actor)]);
      var reply := store.Commit(keys.admit, digests.admit, request);
      var admitted :- Returned(request, reply);
      r := StartAdmitted(ctx, admitted, startedAt, keys.start, digests.start);
    }

    /** Goes on from the record that the first commit returned, without another look at the store. */
    method StartAdmitted(ctx: Context, admitted: Entity, now: Timestamp, key: nat, command: nat)
      returns (r: Outcome<()>)
      modifies store
      ensures (store.State(), r)
              == Executed(old(store.State()), PlanStartReturned(admitted, ctx, now), key, command)
      ensures r.Ok? ==> admitted.body.OfOperation? && admitted.revision == 1 && admitted.body.operation.state.Queued?
    {
      if !admitted.body.OfOperation? {
        return Err(EntityNotFound);
      }
      :- Require(admitted.revision == 1 && admitted.body.operation.state.Queued?, RevisionConflict);
      var o := admitted.body.operation;
      var running := o.(state := Running, startedAt := Some(now), lastActivityAt := now);
      var started := Updated(admitted, OfOperation(running));
      r := Submit(key, command, Request([Update(started, admitted.revision)],
                                        [Event(admitted.id, started.revision, ctx.actor)]));
    }

    // ---------- evaluation ----------

    /** Reads every item of evidence: are all accepted? */
    method AllAccepted(evidence: set<EntityId>) returns (r: Outcome<bool>)
      ensures r.Ok? <==> forall id :: id in evidence ==> id in store.rows && store.rows[id].body.OfEvidence?
      ensures r.Ok? ==> (r.value <==> forall id :: id in evidence ==> store.rows[id].body.evidence.decision.Accepted?)
      ensures r.Err? ==> r.code == EntityNotFound
    {
      var ids, all := SortedIds(evidence), true;
      for i := 0 to |ids|
        invariant forall k :: 0 <= k < i ==> ids[k] in store.rows && store.rows[ids[k]].body.OfEvidence?
        invariant all <==> forall k :: 0 <= k < i ==> store.rows[ids[k]].body.evidence.decision.Accepted?
      {
        assert ids[i] in ids;
        var item :- store.Get(EvidenceKind, ids[i]);
        all := all && item.body.evidence.decision.Accepted?;
      }
      assert forall k :: 0 <= k < |ids| ==> ids[k] in ids;
      assert forall id :: id in evidence ==> exists k :: 0 <= k < |ids| && ids[k] == id;
      return Ok(all);
    }

    /** The body of the `try`: its failures are caught by `Evaluate`. */
    method CompleteEvaluation(ctx: Context, a: Admission, evidence: set<EntityId>, scored: Outcome<Scored>,
                              terminalAt: Timestamp, key: nat, command: nat) returns (r: Outcome<()>)
      requires ProperAdmission(a)
      modifies store
      ensures (store.State(), r)
              == Executed(old(store.State()), PlanCompleteEvaluation(old(store.rows), ctx, a, evidence, scored,
                                                                     terminalAt), key, command)
    {
      if a.evaluation.body.evaluation.contradictions != 0 {
        return Err(EvidenceUnsupported);
      }
      var accepted :- AllAccepted(evidence);
      :- Require(accepted, EvidenceUnsupported);
      var score :- scored;
      :- Require(UniqueKeys(score.scores), DuplicateIdentity);
      r := Submit(key, command, CompletionRequest(ctx.actor, a, score, SortedIds(evidence), terminalAt));
    }

    method FailOperation(ctx: Context, a: Admission, now: Timestamp, key: nat, command: nat) returns (r: Outcome<()>)
      requires ProperAdmission(a)
      modifies store
      ensures (store.State(), r)
              == Executed(old(store.State()), PlanFailEvaluation(old(store.rows), ctx, a, now), key, command)
    {
      var failedOperation, failedEvaluation := FailedOperation(a, now), FailedEvaluation(a);
      r := Submit(key, command, Request(
        [Update(failedOperation, a.operation.revision), Update(failedEvaluation, a.evaluation.revision)],
        [Event(failedOperation.id, failedOperation.revision, ctx.actor),
         Event(failedEvaluation.id, failedEvaluation.revision, ctx.actor)]));
    }

    method Evaluate(ctx: Context, input: EvaluationInput, now: Timestamp, terminalAt: Timestamp, failedAt: Timestamp,
                    keys: EvaluationCommits, digests: EvaluationCommits) returns (r: Outcome<()>)
      modifies store
      ensures (store.State(), r) == EvaluationRun(old(store.State()), ctx, input, now, terminalAt, failedAt, keys,
                                                  digests)
    {
      var opportunity :- store.Get(OpportunityKind, input.opportunity);
      var rubric :- store.Get(RubricKind, input.rubric);
      var operation :- AdmittedOperation(store.rows, ctx, opportunity, input.existing, input.newOperation, now);
      var pending := Entity(input.newId, 1, OfEvaluation(Evaluation(input.opportunity, input.rubric, [], [], 0,
                                                                    input.contradictions, EvalRunning,
                                                                      Some(operation.id), None)));
      var evaluating := Updated(opportunity, OfOpportunity(opportunity.body.opportunity.(workflow := Evaluating)));
      var first := if input.existing.None? then Insert(operation) else Update(operation, Before(operation));
      var reply := store.Commit(keys.admit, digests.admit, Request(
        [first, Insert(pending), Update(evaluating, opportunity.revision)],
        [Event(operation.id, operation.revision, ctx.actor), Event(input.newId, 1, ctx.actor),
         Event(evaluating.id, evaluating.revision, ctx.actor)]));
      var a :- ContinuedWith(Admission(operation, pending, evaluating, rubric, operation.id, input.newId), reply);
      r := ContinueEvaluation(ctx, a, input, terminalAt, failedAt, keys, digests);
    }

    method ContinueEvaluation(ctx: Context, a: Admission, input: EvaluationInput, terminalAt: Timestamp,
                              failedAt: Timestamp, keys: EvaluationCommits, digests: EvaluationCommits)
      returns (r: Outcome<()>)
      modifies store
      ensures (store.State(), r)
              == ContinuationRun(old(store.State()), ctx, a, input, terminalAt, failedAt, keys, digests)
    {
      if !ProperAdmission(a) {
        return Err(InvalidRequest);
      }
      r := CompleteEvaluation(ctx, a, input.evidence, input.scored, terminalAt, keys.complete, digests.complete);
      if r.Err? {
        var _ :- FailOperation(ctx, a, failedAt, keys.fail, digests.fail);
      }
    }

    // ---------- discovery ----------

    method CheckDiscovery(ctx: Context) returns (r: Outcome<EntityId>)
      ensures r == DiscoveryAuthority(store.rows, ctx)
      ensures r.Ok? <==> Discovering(store.rows, ctx)
      ensures r.Ok? ==> r.value == ctx.operation.value
    {
      if ctx.operation.None? {
        return Err(ApprovalRequired);
      }
      var operation :- Authorize(ctx, ctx.operation.value);
      var o := operation.body.operation;
      :- Require(o.kind.JobDiscovery? && o.state.Running?, InvalidTransition);
      :- Require(o.cancelRequestedAt.None?, InvalidTransition);
      :- Require(o.input.Some? && o.inputRevision.Some? && o.inputDigest.Some?, InvalidTransition);
      var profile :- store.Get(SearchProfileKind, o.input.value);
      :- Require(profile.body.profile.active && profile.revision == o.inputRevision.value
                 && OfRecord(profile) == o.inputDigest.value, RevisionConflict);
      return Ok(ctx.operation.value);
    }

    method RecordDiscoveryLead(ctx: Context, source: EntityId, newLead: EntityId, input: LeadInput, key: nat,
                               command: nat) returns (r: Outcome<()>)
      modifies store
      ensures (store.State(), r)
              == Executed(old(store.State()), PlanRecordLead(old(store.rows), ctx, source, newLead, input), key,
                          command)
    {
      var operation :- CheckDiscovery(ctx);
      var bytes := |Utf8(input.posting)|;
      :- Require(0 < bytes <= MAX_INLINE_SOURCE_BYTES, InvalidRequest);
      :- Require(input.url.Some?, InvalidRequest);
      var url, contentDigest := input.url.value, TextDigest(input.posting);
      var prior := PriorLead(store.rows, url.text);
      if prior.Some? {
        var p := store.rows[prior.value].body.lead;
        :- Require(p.contentDigest != contentDigest && !p.state.LeadShortlisted?
                   && p.operation != operation, DuplicateIdentity);
      }
      :- Require(WithinQuotas(store.rows, operation, url.host, prior, bytes), InvalidRequest);
      :- Require(input.wellFormed, InvalidRequest);
      var fields := Lead(source, contentDigest, operation, input.organization, url.text, url.host, input.requisition,
                         LeadNew, None);
      var request := LeadMutations(ctx, source, input.posting, prior, newLead, fields);
      r := Submit(key, command, request);
    }

    method LeadMutations(ctx: Context, source: EntityId, posting: string, prior: Option<EntityId>, newLead: EntityId,
                         fields: Lead) returns (request: Request)
      requires fields.state.LeadNew? && fields.resultOpportunity.None?
      requires prior.Some? ==>
                 IsLead(store.rows, prior.value) && !store.rows[prior.value].body.lead.state.LeadShortlisted?
                   && store.rows[prior.value].body.lead.url == fields.url
      ensures request == LeadRequest(store.rows, ctx.actor, source, posting, prior, newLead, fields)
    {
      var supersedes := if prior.Some? then Some(store.rows[prior.value].body.lead.source) else None;
      var document := Entity(source, 1, OfSource(InlineSource(OpportunitySource, External, posting, supersedes,
                                                              false)));
      var mutations, events := [Insert(document)], [Event(source, 1, ctx.actor)];
      if prior.None? {
        mutations := mutations + [Insert(Entity(newLead, 1, OfLead(fields)))];
        events := events + [Event(newLead, 1, ctx.actor)];
      } else {
        var was := store.rows[prior.value];
        mutations := mutations + [Update(Updated(was, OfLead(fields)), was.revision)];
        events := events + [Event(was.id, was.revision + 1, ctx.actor)];
      }
      return Request(mutations, events);
    }

    method FindSamePosting(lead: Lead) returns (found: Option<EntityId>)
      ensures found == FirstSamePosting(store.rows, ListIds(store.rows, OpportunityKind), lead)
    {
      var ids := ListIds(store.rows, OpportunityKind);
      for i := 0 to |ids|
        invariant FirstSamePosting(store.rows, ids, lead) == FirstSamePosting(store.rows, ids[i..], lead)
      {
        assert ids[i..][1..] == ids[i + 1..];
        if SamePosting(store.rows, lead, ids[i]) {
          return Some(ids[i]);
        }
      }
      return None;
    }

    method TriageDiscoveryLead(ctx: Context, id: EntityId, expected: nat, decision: LeadState, newOpportunity: EntityId,
                               wellFormed: bool, key: nat, command: nat) returns (r: Outcome<()>)
      modifies store
      ensures (store.State(), r)
              == Executed(old(store.State()), PlanTriageLead(old(store.rows), ctx, id, expected, decision,
                                                             newOpportunity, wellFormed), key, command)
    {
      if !IsDirectUser(ctx.actor) {
        return Err(ApprovalDenied);
      }
      var lead :- store.Get(LeadKind, id);
      var l := lead.body.lead;
      :- Require(lead.revision == expected, RevisionConflict);
      :- Require(if decision.LeadNew? then l.state.LeadDismissed? else l.state.LeadNew?, InvalidTransition);
      :- Require(wellFormed, InvalidRequest);
      if !decision.LeadShortlisted? {
        var decided := Updated(lead, OfLead(l.(state := decision, resultOpportunity := None)));
        r := Submit(key, command, Request([Update(decided, lead.revision)],
                                          [Event(decided.id, decided.revision, ctx.actor)]));
        return;
      }
      var request := Shortlist(ctx, lead, newOpportunity);
      r := Submit(key, command, request);
    }

    /** The existing opportunity for the posting becomes the result, or a new one does. */
    method Shortlist(ctx: Context, lead: Entity, newOpportunity: EntityId) returns (request: Request)
      requires lead.body.OfLead? && lead.body.lead.state.LeadNew? && IsDirectUser(ctx.actor)
      requires Keyed(store.rows) ==> lead.id in store.rows && store.rows[lead.id] == lead
      ensures request == ShortlistRequest(store.rows, ctx.actor, lead, newOpportunity) && request.mutations != []
    {
      var l := lead.body.lead;
      var existing := FindSamePosting(l);
      var opportunity := if existing.Some? then existing.value else newOpportunity;
      var shortlisted := Updated(lead, ShortlistedFor(l, opportunity));
      var mutations, events := [Update(shortlisted, lead.revision)],
        [Event(shortlisted.id, shortlisted.revision, ctx.actor)];
      if existing.None? {
        var created := Opportunity(l.source, l.organization, Some(l.url), l.requisition, Shortlisted, l.contentDigest,
                                   0);
        mutations := mutations + [Insert(Entity(newOpportunity, 1, OfOpportunity(created)))];
        events := events + [Event(newOpportunity, 1, ctx.actor)];
      }
      return Request(mutations, events);
    }

    // ---------- imports ----------

    method PushFiles(files: seq<ImportFile>, ids: seq<EntityId>) returns (pushed: seq<Entity>)
      requires |ids| == 2 * |files|
      ensures pushed == FileRows(files, ids)
    {
      pushed := [];
      for i := 0 to |files|
        invariant FileRows(files, ids) == pushed + FileRows(files[i..], ids[2 * i..])
      {
        assert files[i..][1..] == files[i + 1..] && ids[2 * i..][2..] == ids[2 * (i + 1)..];
        pushed := pushed + [ArtifactRow(files[i], ids[2 * i]), SourceRow(files[i], ids[2 * i + 1])];
      }
    }

    method PushFacts(files: seq<ImportFile>, fileIds: seq<EntityId>, items: seq<FactItem>, ids: seq<EntityId>)
      returns (r: Outcome<seq<Entity>>)
      requires |fileIds| == 2 * |files| && |ids| == |items|
      ensures r == ImportedFacts(files, fileIds, items, ids)
    {
      var pushed: seq<Entity> := [];
      NothingPrefixed(ImportedFacts(files, fileIds, items, ids));
      assert items[0..] == items && ids[0..] == ids;
      for i := 0 to |items|
        invariant ImportedFacts(files, fileIds, items, ids)
                  == Prefixed(pushed, ImportedFacts(files, fileIds, items[i..], ids[i..]))
      {
        assert items[i..][1..] == items[i + 1..] && ids[i..][1..] == ids[i + 1..];
        var fact :- ImportedFact(files, fileIds, items[i]);
        var row := Entity(ids[i], 1, OfFact(fact));
        PrefixedTwice(pushed, [row], ImportedFacts(files, fileIds, items[i + 1..], ids[i + 1..]));
        pushed := pushed + [row];
      }
      assert pushed + [] == pushed;
      return Ok(pushed);
    }

    method PushApplications(files: seq<ImportFile>, fileIds: seq<EntityId>, items: seq<ApplicationItem>,
                            ids: seq<EntityId>) returns (r: Outcome<seq<Entity>>)
      requires |fileIds| == 2 * |files| && |ids| == 2 * |items|
      ensures r == ImportedApplications(files, fileIds, items, ids)
    {
      var pushed: seq<Entity> := [];
      NothingPrefixed(ImportedApplications(files, fileIds, items, ids));
      assert items[0..] == items && ids[0..] == ids;
      for i := 0 to |items|
        invariant ImportedApplications(files, fileIds, items, ids)
                  == Prefixed(pushed, ImportedApplications(files, fileIds, items[i..], ids[2 * i..]))
      {
        assert items[i..][1..] == items[i + 1..] && ids[2 * i..][2..] == ids[2 * (i + 1)..];
        var item := items[i];
        var tracker := SourceByPath(files, fileIds, item.path);
        :- Require(tracker.Some? && tracker.value.body.OfSource?, EntityNotFound);
        var opportunity := Opportunity(tracker.value.id, item.organization, item.url, None, Captured,
                                       tracker.value.body.source.digest, 0);
        var application := Application(ids[2 * i], item.state, 1, item.effectiveDate, item.note);
        var pair := [Entity(ids[2 * i], 1, OfOpportunity(opportunity)),
                     Entity(ids[2 * i + 1], 1, OfApplication(application))];
        PrefixedTwice(pushed, pair, ImportedApplications(files, fileIds, items[i + 1..], ids[2 * (i + 1)..]));
        pushed := pushed + pair;
      }
      assert pushed + [] == pushed;
      return Ok(pushed);
    }

    method ApplyCareerOpsImport(ctx: Context, input: ImportInput, ids: seq<EntityId>, key: nat, command: nat)
      returns (r: Outcome<()>)
      requires |ids| == IdsNeeded(input)
      modifies store
      ensures (store.State(), r)
              == Executed(old(store.State()), PlanApplyImport(old(store.rows), ctx, input, ids), key, command)
    {
      if !(input.wellFormed && 0 < |input.files| <= 512) {
        return Err(InvalidRequest);
      }
      if exists id :: id in store.rows && IdenticalManifest(store.rows, input, id) {
        return Ok(());
      }
      :- Require(UniquePaths(input.files), DuplicateIdentity);
      :- CheckFiles(input.files);
      :- Require(TotalBytes(input.files) <= MAX_IMPORT_BYTES, ArtifactLimitExceeded);
      :- Require(input.computed == input.fingerprint, RevisionConflict);
      var p := SplitIds(input, ids);
      var entities := PushFiles(input.files, p.files);
      var facts :- PushFacts(input.files, p.files, input.plan.facts, p.facts);
      var applications :- PushApplications(input.files, p.files, input.plan.applications, p.applications);
      var manifest := Entity(p.manifest, 1, OfManifest(Manifest(input.identityDigest, input.fingerprint,
                                                                Mappings(input, p))));
      entities := entities + facts + applications + [manifest];
      r := Submit(key, command, Request(Inserts(entities), EventsOf(entities, ctx.actor)));
    }
  }
}
