/**
 What approvals guarantee in every run, whatever is interleaved: an approval is
 consumed at most once, its effect lands exactly at the approved revision, and
 an effect that needs an approval has exactly one.
 */
module Approvals {
  import opened Domain
  import opened Store
  import opened Lifecycle
  import opened Runs

  ghost predicate IsApproval(rows: Rows, id: EntityId) { id in rows && rows[id].body.OfApproval? }

  ghost predicate IsConsumed(rows: Rows, id: EntityId) {
    IsApproval(rows, id) && rows[id].body.approval.state.Consumed?
  }

  /** How far along its graph an approval is at each revision, and what it then carries. */
  ghost predicate OnPath(e: Entity)
    requires e.body.OfApproval?
  {
    var a := e.body.approval;
    && Bound(a)
    && match a.state
       case Pending => e.revision == 1
       case Approved => e.revision == 2 && a.interaction.Some?
       case Denied => e.revision == 2
       case Expired => 2 <= e.revision <= 3
       case Consumed => e.revision == 3 && a.interaction.Some?
  }

  ghost predicate AllOnPath(rows: Rows) { forall id :: IsApproval(rows, id) ==> OnPath(rows[id]) }

  ghost predicate AcceptanceDated(rows: Rows, id: EntityId) {
    id in rows && rows[id].body.OfComparison? ==>
      var c := rows[id].body.comparison;
      (c.state.CompProposed? ==> c.acceptedAt.None?) && (c.state.CompAccepted? ==> c.acceptedAt.Some?)
  }

  /** The row that a consumed approval was for shows its effect, at a revision past the approved one. */
  ghost predicate Enacted(rows: Rows, a: Approval) {
    && a.digest.OfEffect? && a.target in rows && a.digest.revision < rows[a.target].revision
    && match a.effect
       case AcceptComparisonEffect =>
         rows[a.target].body.OfComparison? && rows[a.target].body.comparison.acceptedAt.Some?
       case ReviewArtifactEffect =>
         rows[a.target].body.OfArtifact? && rows[a.target].body.artifact.kind.Draft?
           && !rows[a.target].body.artifact.state.Staged?
       case TransitionEffect => rows[a.target].body.OfApplication?
  }

  ghost predicate AllEnacted(rows: Rows) { forall id :: IsConsumed(rows, id) ==> Enacted(rows, rows[id].body.approval) }

  /** One acceptance or review of one row, or one move of one application from one revision. */
  ghost predicate SameEffect(a: Approval, b: Approval) {
    a.target == b.target && (a.effect.TransitionEffect? ==>
                               a.digest == b.digest || (a.digest.OfEffect? && b.digest.OfEffect?
                                                        && a.digest.revision == b.digest.revision))
  }

  ghost predicate OneEach(rows: Rows) {
    forall i, j ::
      IsConsumed(rows, i) && IsConsumed(rows, j) && SameEffect(rows[i].body.approval, rows[j].body.approval) ==> i == j
  }

  /** The effects that never happen without an approval. */
  ghost predicate NeededApproval(rows: Rows, id: EntityId) {
    id in rows
    && ((rows[id].body.OfComparison? && rows[id].body.comparison.acceptedAt.Some?)
        || (rows[id].body.OfArtifact? && rows[id].body.artifact.kind.Draft? && !rows[id].body.artifact.state.Staged?))
  }

  ghost predicate Authorizes(rows: Rows, approval: EntityId, id: EntityId) {
    IsConsumed(rows, approval) && rows[approval].body.approval.target == id
  }

  ghost predicate AllAuthorized(rows: Rows) {
    forall id :: NeededApproval(rows, id) ==> exists a :: Authorizes(rows, a, id)
  }

  ghost predicate Matched(rows: Rows) {
    && AllOnPath(rows) && AllEnacted(rows) && OneEach(rows) && AllAuthorized(rows)
    && forall id :: AcceptanceDated(rows, id)
  }

  // ---------- one commit ----------

  ghost predicate Effectful(ms: seq<Mutation>) { exists m :: m in ms && (Consumes(m) || NeedsApproval(m)) }

  lemma EffectNeedsLicence(view: Rows, m: Mutation, licence: Licence)
    requires Lawful(view, m, licence) && (Consumes(m) || NeedsApproval(m))
    ensures licence.Consuming?
  {
  }

  lemma EffectsNeedLicence(view: Rows, request: Request, licence: Licence)
    requires SoundRequest(view, request, licence) && Effectful(request.mutations)
    ensures licence.Consuming?
  {
    var m :| m in request.mutations && (Consumes(m) || NeedsApproval(m));
    EffectNeedsLicence(view, m, licence);
  }

  lemma PathStep(before: Rows, after: Rows, licence: Licence)
    requires Evolved(before, after, licence) && AllOnPath(before)
    ensures AllOnPath(after)
  {
    forall id | IsApproval(after, id)
      ensures OnPath(after[id])
    {
      assert RowChange(before, after, id, licence);
    }
  }

  lemma DatesStep(before: Rows, after: Rows, licence: Licence)
    requires Evolved(before, after, licence) && forall id :: AcceptanceDated(before, id)
    ensures forall id :: AcceptanceDated(after, id)
  {
    forall id
      ensures AcceptanceDated(after, id)
    {
      if id in after {
        assert RowChange(before, after, id, licence) && AcceptanceDated(before, id);
      }
    }
  }

  lemma ConsumedRow(before: Rows, after: Rows, licence: Licence, id: EntityId)
    requires id in after && RowChange(before, after, id, licence) && IsConsumed(before, id)
    ensures IsConsumed(after, id) && after[id] == before[id]
  {
  }

  lemma ConsumedStays(before: Rows, after: Rows, licence: Licence, id: EntityId)
    requires Evolved(before, after, licence) && IsConsumed(before, id)
    ensures IsConsumed(after, id) && after[id] == before[id]
  {
    ConsumedRow(before, after, licence, id);
  }

  lemma EnactedStays(before: Rows, after: Rows, licence: Licence, a: Approval)
    requires Evolved(before, after, licence) && Enacted(before, a)
    ensures Enacted(after, a)
  {
    assert RowChange(before, after, a.target, licence);
  }

  /** Nothing becomes consumed, and nothing shows a new effect. */
  ghost predicate Quiet(before: Rows, after: Rows) {
    && (forall id :: IsConsumed(after, id) ==> IsConsumed(before, id) && before[id] == after[id])
    && (forall id :: NeededApproval(after, id) ==> NeededApproval(before, id))
  }

  ghost predicate QuietAt(before: Rows, after: Rows, id: EntityId)
    requires id in after
  {
    (id in before && after[id] == before[id]) || (!IsConsumed(after, id) && !Sealing(before, after, id))
  }

  /** A row that no consumption and no effect that needs one has touched. */
  lemma QuietRow(s: Submission, before: Rows, after: Rows, id: EntityId)
    requires Stepped(s, before, after) && !Effectful(s.request.mutations) && id in after
    ensures QuietAt(before, after, id)
  {
    var ms := s.request.mutations;
    if id in Touched(ms) {
      var m :| m in ms && m.entity.id == id;
      assert !Consumes(m) && !NeedsApproval(m);
    }
  }

  /** The row becomes an accepted comparison or a sealed artifact. */
  ghost predicate Sealing(before: Rows, after: Rows, id: EntityId)
    requires id in after
  {
    (after[id].body.OfComparison? && after[id].body.comparison.state.CompAccepted?)
    || (id in before && after[id].body.OfArtifact? && after[id].body.artifact.state.Sealed?)
  }

  lemma QuietRows(before: Rows, after: Rows, licence: Licence)
    requires Evolved(before, after, licence) && forall id :: id in after ==> QuietAt(before, after, id)
    ensures Quiet(before, after)
  {
    forall id | id in after && (IsConsumed(after, id) || NeededApproval(after, id))
      ensures IsConsumed(after, id) ==> IsConsumed(before, id) && before[id] == after[id]
      ensures NeededApproval(after, id) ==> NeededApproval(before, id)
    {
      assert QuietAt(before, after, id) && RowChange(before, after, id, licence);
    }
  }

  lemma QuietIfNotEffectful(s: Submission, before: Rows, after: Rows)
    requires Stepped(s, before, after) && !Effectful(s.request.mutations)
    ensures Quiet(before, after)
  {
    StepEvolves(s, before, after);
    forall id | id in after
      ensures QuietAt(before, after, id)
    {
      QuietRow(s, before, after, id);
    }
    QuietRows(before, after, s.licence);
  }

  lemma QuietStep(before: Rows, after: Rows, licence: Licence)
    requires Evolved(before, after, licence) && Quiet(before, after) && Matched(before)
    ensures AllEnacted(after) && OneEach(after) && AllAuthorized(after)
  {
    forall id | IsConsumed(after, id)
      ensures Enacted(after, after[id].body.approval)
    {
      EnactedStays(before, after, licence, before[id].body.approval);
    }
    forall id | NeededApproval(after, id)
      ensures exists a :: Authorizes(after, a, id)
    {
      var a :| Authorizes(before, a, id);
      ConsumedStays(before, after, licence, a);
      assert Authorizes(after, a, id);
    }
  }

  /** The commit that consumes the approval `x`, and what it does to the row `t` that `x` is for. */
  ghost predicate Consumption(before: Rows, after: Rows, x: EntityId, t: EntityId) {
    && x != t && IsApproval(before, x) && before[x].body.approval.state.Approved? && IsConsumed(after, x)
    && after[x].body.approval == before[x].body.approval.(state := Consumed)
    && t in before && t in after && SameKind(before[t], after[t]) && after[t].revision == before[t].revision + 1
    && (var a := after[x].body.approval;
        && a.target == t && a.digest.OfEffect? && a.digest.revision == before[t].revision && a.digest.kind == a.effect
        && match a.effect
           case AcceptComparisonEffect =>
             before[t].body.OfComparison? && before[t].body.comparison.state.CompProposed?
               && after[t].body.comparison.state.CompAccepted?
           case ReviewArtifactEffect =>
             before[t].body.OfArtifact? && before[t].body.artifact.kind.Draft? && before[t].body.artifact.state.Staged?
             && after[t].body.artifact.kind.Draft? && after[t].body.artifact.state.Sealed?
           case TransitionEffect =>
             before[t].body.OfApplication?
             && (var app := after[t].body.application;
                 a.digest.details == TransitionDetails(app.state, app.effectiveDate, app.note)))
    && after.Keys == before.Keys
    && forall id :: id in before && id != x && id != t ==> after[id] == before[id]
  }

  lemma ConsumptionKeys(s: Submission, before: Rows, after: Rows, effect: Mutation, consumption: Mutation)
    requires Stepped(s, before, after) && s.request.mutations == [effect, consumption]
    requires effect.Update? && consumption.Update?
    ensures after.Keys == before.Keys
    ensures forall id :: id in before && id != consumption.entity.id && id != effect.entity.id ==>
              after[id] == before[id]
    ensures UpdatedRow(s, before, after, effect) && UpdatedRow(s, before, after, consumption)
    ensures consumption.entity.id != effect.entity.id
  {
    var ms := s.request.mutations;
    assert ms[0] in ms && ms[1] in ms && ms[0] == effect && ms[1] == consumption;
    UpdatesRow(s, before, after, effect);
    UpdatesRow(s, before, after, consumption);
    assert Touched(ms) == {effect.entity.id, consumption.entity.id};
  }

  lemma ConsumptionRows(s: Submission, before: Rows, after: Rows, effect: Mutation, consumption: Mutation)
    requires UpdatedRow(s, before, after, effect) && UpdatedRow(s, before, after, consumption)
             && consumption.entity.id != effect.entity.id
    requires after.Keys == before.Keys
    requires forall id :: id in before && id != consumption.entity.id && id != effect.entity.id ==>
               after[id] == before[id]
    requires effect.Update? && Consumes(consumption) && consumption.Update?
             && Performs(consumption.entity.body.approval, effect)
    ensures Consumption(before, after, consumption.entity.id, effect.entity.id)
  {
  }

  ghost predicate EffectThenConsumption(ms: seq<Mutation>) {
    |ms| == 2 && ms[0].Update? && ms[1].Update? && Consumes(ms[1]) && Performs(ms[1].entity.body.approval, ms[0])
  }

  lemma EffectPair(s: Submission, before: Rows, after: Rows)
    requires Stepped(s, before, after) && Effectful(s.request.mutations)
    ensures EffectThenConsumption(s.request.mutations)
  {
    EffectsNeedLicence(s.view, s.request, s.licence);
    assert EffectShape(s.request.mutations);
  }

  lemma EffectfulIsConsumption(s: Submission, before: Rows, after: Rows)
    requires Stepped(s, before, after) && Effectful(s.request.mutations)
    ensures |s.request.mutations| == 2
    ensures Consumption(before, after, s.request.mutations[1].entity.id, s.request.mutations[0].entity.id)
  {
    EffectPair(s, before, after);
    var ms := s.request.mutations;
    assert ms == [ms[0], ms[1]];
    ConsumptionKeys(s, before, after, ms[0], ms[1]);
    ConsumptionRows(s, before, after, ms[0], ms[1]);
  }

  lemma ConsumptionEnacts(before: Rows, after: Rows, x: EntityId, t: EntityId)
    requires Matched(before) && Consumption(before, after, x, t) && forall id :: AcceptanceDated(after, id)
    ensures Enacted(after, after[x].body.approval)
    ensures forall id :: IsConsumed(before, id) ==> !SameEffect(before[id].body.approval, after[x].body.approval)
    ensures !NeededApproval(before, t)
  {
    assert AcceptanceDated(before, t) && AcceptanceDated(after, t);
    forall id | IsConsumed(before, id)
      ensures !SameEffect(before[id].body.approval, after[x].body.approval)
    {
      assert Enacted(before, before[id].body.approval);
    }
  }

  lemma ConsumptionOthers(before: Rows, after: Rows, licence: Licence, x: EntityId, t: EntityId, id: EntityId)
    requires Evolved(before, after, licence) && Matched(before) && Consumption(before, after, x, t)
    requires IsConsumed(after, id) && id != x
    ensures IsConsumed(before, id) && after[id] == before[id] && Enacted(after, after[id].body.approval)
  {
    assert id != t;
    EnactedStays(before, after, licence, before[id].body.approval);
  }

  lemma ConsumptionAuthorizes(before: Rows, after: Rows, x: EntityId, t: EntityId, id: EntityId)
    requires Matched(before) && Consumption(before, after, x, t) && NeededApproval(after, id)
    ensures exists a :: Authorizes(after, a, id)
  {
    if id == t {
      assert Authorizes(after, x, t);
    } else {
      assert id != x && NeededApproval(before, id);
      var a :| Authorizes(before, a, id);
      assert a != x && a != t;
      assert Authorizes(after, a, id);
    }
  }

  lemma ConsumptionStep(before: Rows, after: Rows, licence: Licence, x: EntityId, t: EntityId)
    requires Evolved(before, after, licence) && Matched(before) && Consumption(before, after, x, t)
    requires forall id :: AcceptanceDated(after, id)
    ensures AllEnacted(after) && OneEach(after) && AllAuthorized(after)
  {
    ConsumptionEnacts(before, after, x, t);
    forall id | IsConsumed(after, id) && id != x
      ensures IsConsumed(before, id) && after[id] == before[id] && Enacted(after, after[id].body.approval)
    {
      ConsumptionOthers(before, after, licence, x, t, id);
    }
    forall id | NeededApproval(after, id)
      ensures exists a :: Authorizes(after, a, id)
    {
      ConsumptionAuthorizes(before, after, x, t, id);
    }
  }

  lemma MatchedStep(s: Submission, before: Rows, after: Rows)
    requires Stepped(s, before, after) && Matched(before)
    ensures Matched(after)
  {
    StepEvolves(s, before, after);
    PathStep(before, after, s.licence);
    DatesStep(before, after, s.licence);
    if Effectful(s.request.mutations) {
      EffectfulIsConsumption(s, before, after);
      ConsumptionStep(before, after, s.licence, s.request.mutations[1].entity.id, s.request.mutations[0].entity.id);
    } else {
      QuietIfNotEffectful(s, before, after);
      QuietStep(before, after, s.licence);
    }
  }

  // ---------- runs ----------

  lemma MatchedAt(run: Run, i: nat)
    requires ValidRun(run) && i < |run.submissions| && Matched(run.states[i].rows)
    ensures Matched(run.states[i + 1].rows)
  {
    StepOfRun(run, i);
    if Commits(run.states[i], run.submissions[i]) {
      MatchedStep(run.submissions[i], run.states[i].rows, run.states[i + 1].rows);
    }
  }

  /**
   In every reachable state of every run: a comparison has been accepted, and a
   draft has left its staged state, exactly when a consumed approval targets it,
   and then there is just one; and every consumed approval was approved in an
   interaction and shows its effect past the approved revision.
   */
  lemma {:induction false} ConsumptionMatchesEffect(run: Run, i: nat)
    requires ValidRun(run) && i < |run.states|
    ensures Matched(run.states[i].rows)
  {
    if i > 0 {
      ConsumptionMatchesEffect(run, i - 1);
      MatchedAt(run, i - 1);
    }
  }

  lemma AcceptedIffConsumed(run: Run, i: nat, id: EntityId)
    requires ValidRun(run) && i < |run.states| && id in run.states[i].rows
    requires run.states[i].rows[id].body.OfComparison?
             || (run.states[i].rows[id].body.OfArtifact? && run.states[i].rows[id].body.artifact.kind.Draft?)
    ensures NeededApproval(run.states[i].rows, id) <==> exists a :: Authorizes(run.states[i].rows, a, id)
    ensures forall a, b :: Authorizes(run.states[i].rows, a, id) && Authorizes(run.states[i].rows, b, id) ==> a == b
  {
    var rows := run.states[i].rows;
    ConsumptionMatchesEffect(run, i);
    forall a | Authorizes(rows, a, id)
      ensures Enacted(rows, rows[a].body.approval) && NeededApproval(rows, id)
    {
    }
  }

  ghost predicate ConsumedAt(run: Run, i: nat, x: EntityId)
    requires i + 1 < |run.states|
  {
    !IsConsumed(run.states[i].rows, x) && IsConsumed(run.states[i + 1].rows, x)
  }

  /**
   The commit that consumes an approval performs its effect at exactly the approved
   revision, and does nothing else.
   */
  lemma EffectAtApprovedRevision(run: Run, i: nat, x: EntityId)
    requires ValidRun(run) && i < |run.submissions| && ConsumedAt(run, i, x)
    ensures Consumption(run.states[i].rows, run.states[i + 1].rows, x, run.states[i + 1].rows[x].body.approval.target)
  {
    var s, before, after := run.submissions[i], run.states[i].rows, run.states[i + 1].rows;
    StepOfRun(run, i);
    ConsumingStep(s, before, after, x);
  }

  lemma ConsumingStep(s: Submission, before: Rows, after: Rows, x: EntityId)
    requires Stepped(s, before, after) && !IsConsumed(before, x) && IsConsumed(after, x)
    ensures Consumption(before, after, x, after[x].body.approval.target)
  {
    if !Effectful(s.request.mutations) {
      QuietIfNotEffectful(s, before, after);
    }
    EffectfulIsConsumption(s, before, after);
    OnlyOneConsumed(before, after, s.request.mutations[1].entity.id, s.request.mutations[0].entity.id, x);
  }

  lemma OnlyOneConsumed(before: Rows, after: Rows, x: EntityId, t: EntityId, other: EntityId)
    requires Consumption(before, after, x, t) && !IsConsumed(before, other) && IsConsumed(after, other)
    ensures other == x && after[x].body.approval.target == t
  {
  }

  lemma ConsumedStaysAt(run: Run, j: nat, x: EntityId)
    requires ValidRun(run) && j < |run.submissions| && IsConsumed(run.states[j].rows, x)
    ensures IsConsumed(run.states[j + 1].rows, x)
  {
    RowsChangeLawfully(run, j);
    if run.states[j + 1] != run.states[j] {
      ConsumedStays(run.states[j].rows, run.states[j + 1].rows, run.submissions[j].licence, x);
    }
  }

  lemma {:induction false} StaysConsumed(run: Run, i: nat, j: nat, x: EntityId)
    requires ValidRun(run) && i <= j < |run.states| && IsConsumed(run.states[i].rows, x)
    ensures IsConsumed(run.states[j].rows, x)
    decreases j
  {
    if i < j {
      StaysConsumed(run, i, j - 1, x);
      ConsumedStaysAt(run, j - 1, x);
    }
  }

  /** No approval is consumed by two commits. */
  lemma ConsumedOnce(run: Run, i: nat, j: nat, x: EntityId)
    requires ValidRun(run) && i < |run.submissions| && j < |run.submissions|
    requires ConsumedAt(run, i, x) && ConsumedAt(run, j, x)
    ensures i == j
  {
    if i < j {
      StaysConsumed(run, i + 1, j, x);
    } else if j < i {
      StaysConsumed(run, j + 1, i, x);
    }
  }

  // ---------- who decided ----------

  ghost predicate Witness(e: Event, id: EntityId) { e.aggregate == id && e.revision == 2 && IsDirectUser(e.actor) }

  ghost predicate Granted(rows: Rows, id: EntityId) {
    IsApproval(rows, id) && (rows[id].body.approval.state.Approved? || rows[id].body.approval.state.Consumed?)
  }

  ghost predicate UserGranted(db: Db) {
    forall id :: Granted(db.rows, id) ==> exists e :: e in db.log && Witness(e, id)
  }

  lemma WitnessKept(before: Db, after: Db, id: EntityId)
    requires UserGranted(before) && Granted(before.rows, id) && before.log <= after.log
    ensures exists e :: e in after.log && Witness(e, id)
  {
    var e :| e in before.log && Witness(e, id);
    assert e in after.log;
  }

  lemma GrantStep(s: Submission, before: Db, after: Db, id: EntityId)
    requires Stepped(s, before.rows, after.rows) && after.log == before.log + s.request.events
    requires UserGranted(before) && Granted(after.rows, id) && OnPath(after.rows[id])
    ensures exists e :: e in after.log && Witness(e, id)
  {
    if Granted(before.rows, id) {
      WitnessKept(before, after, id);
    } else {
      StepEvolves(s, before.rows, after.rows);
      var k := WriteOf(s, before.rows, after.rows, id);
      NewGrant(before.rows, after.rows, s.licence, id);
      GrantAttributed(s.request, k, id);
      assert s.request.events[k] in after.log;
    }
  }

  lemma NewGrant(before: Rows, after: Rows, licence: Licence, id: EntityId)
    requires Evolved(before, after, licence) && !Granted(before, id) && Granted(after, id) && OnPath(after[id])
    ensures after[id].body.approval.state.Approved? && after[id].revision == 2
  {
    assert RowChange(before, after, id, licence);
  }

  lemma GrantAttributed(request: Request, k: nat, id: EntityId)
    requires |request.events| == |request.mutations| && Attributed(request) && k < |request.mutations|
    requires request.mutations[k].entity.body.OfApproval? && request.mutations[k].entity.body.approval.state.Approved?
             && request.mutations[k].entity.revision == 2
    requires request.events[k].aggregate == id && request.events[k].revision == request.mutations[k].entity.revision
    ensures Witness(request.events[k], id)
  {
    assert UserOnly(request.mutations[k]);
  }

  lemma GrantsAt(run: Run, i: nat)
    requires ValidRun(run) && i < |run.submissions| && UserGranted(run.states[i]) && Matched(run.states[i + 1].rows)
    ensures UserGranted(run.states[i + 1])
  {
    StepOfRun(run, i);
    if Commits(run.states[i], run.submissions[i]) {
      GrantsStep(run.submissions[i], run.states[i], run.states[i + 1]);
    }
  }

  lemma GrantsStep(s: Submission, before: Db, after: Db)
    requires Stepped(s, before.rows, after.rows) && after.log == before.log + s.request.events
    requires UserGranted(before) && Matched(after.rows)
    ensures UserGranted(after)
  {
    forall id | Granted(after.rows, id)
      ensures exists e :: e in after.log && Witness(e, id)
    {
      GrantStep(s, before, after, id);
    }
  }

  /** The log of every reachable state names the user who granted each approval that is granted or consumed. */
  lemma {:induction false} ApprovalsAreGrantedByTheUser(run: Run, i: nat)
    requires ValidRun(run) && i < |run.states|
    ensures UserGranted(run.states[i])
  {
    if i > 0 {
      ApprovalsAreGrantedByTheUser(run, i - 1);
      ConsumptionMatchesEffect(run, i);
      GrantsAt(run, i - 1);
    }
  }

  ghost predicate MovedByUser(events: seq<Event>, id: EntityId) {
    exists e :: e in events && e.aggregate == id && IsDirectUser(e.actor)
  }

  /**
   An application changes only by an event of the user's own, or by a commit that consumes
   an approval of exactly that change.
   */
  lemma ApplicationMoves(run: Run, i: nat, id: EntityId)
    requires ValidRun(run) && i < |run.submissions|
    requires id in run.states[i].rows && run.states[i].rows[id].body.OfApplication?
    requires id in run.states[i + 1].rows && run.states[i + 1].rows[id] != run.states[i].rows[id]
    ensures Commits(run.states[i], run.submissions[i])
    ensures MovedByUser(run.submissions[i].request.events, id)
            || (exists x :: ConsumedAt(run, i, x) && Consumption(run.states[i].rows, run.states[i + 1].rows, x, id))
  {
    var s, before, after := run.submissions[i], run.states[i].rows, run.states[i + 1].rows;
    StepOfRun(run, i);
    ApplicationStepBy(s, before, after, id);
    if !MovedByUser(s.request.events, id) {
      EffectfulIsConsumption(s, before, after);
      assert ConsumedAt(run, i, s.request.mutations[1].entity.id);
    }
  }

  /** By the user's own hand, or as the effect of an approval. */
  ghost predicate ProperlyMoved(request: Request, id: EntityId) {
    MovedByUser(request.events, id)
    || (Effectful(request.mutations) && |request.mutations| == 2 && request.mutations[0].entity.id == id)
  }

  lemma ApplicationStepBy(s: Submission, before: Rows, after: Rows, id: EntityId)
    requires Stepped(s, before, after)
    requires id in before && id in after && before[id].body.OfApplication? && after[id] != before[id]
    ensures ProperlyMoved(s.request, id)
  {
    StepEvolves(s, before, after);
    StaysApplication(before, after, s.licence, id);
    var k := WriteOf(s, before, after, id);
    MoveAttributed(s.request, k, id);
  }

  lemma StaysApplication(before: Rows, after: Rows, licence: Licence, id: EntityId)
    requires Evolved(before, after, licence) && id in before && before[id].body.OfApplication?
    ensures id in after && after[id].body.OfApplication?
  {
    assert id in after && RowChange(before, after, id, licence);
  }

  lemma MoveAttributed(request: Request, k: nat, id: EntityId)
    requires |request.events| == |request.mutations| && Attributed(request) && k < |request.mutations|
    requires request.mutations[k].Update? && request.mutations[k].entity.body.OfApplication?
    requires request.mutations[k].entity.id == id && request.events[k].aggregate == id
    ensures ProperlyMoved(request, id)
  {
    assert MovesApplication(request.mutations[k]) && request.events[k] in request.events;
    if !IsDirectUser(request.events[k].actor) {
      assert Consumes(request.mutations[1]) && request.mutations[1] in request.mutations;
    }
  }
}
