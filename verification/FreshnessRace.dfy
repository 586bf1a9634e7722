/**
 A proposal and a correction that race: both read the same rows, the comparison is
 committed first, and the correction, which has not listed it, makes an evaluation
 that it uses stale.
 */
module FreshnessRace {
  import opened Domain
  import opened Store
  import opened Listing
  import opened Lifecycle
  import opened Runs
  import opened ProfileCommands
  import opened ApprovalCommands
  import opened CascadeClosure
  import opened Freshness

  datatype Proposal = Proposal(ctx: Context, operation: EntityId, id: EntityId, evaluations: seq<EntityId>,
                               scenarios: seq<map<string, nat>>)

  function Propose(rows: Rows, p: Proposal): Outcome<Request> {
    PlanProposeComparison(rows, p.ctx, p.operation, p.id, p.evaluations, p.scenarios, true)
  }

  datatype Amendment = Amendment(ctx: Context, fact: EntityId, expected: nat, value: Primitive, locator: Locator,
                                 newId: EntityId, now: Timestamp)

  function Amend(rows: Rows, a: Amendment): Outcome<Request> {
    PlanCorrectFact(rows, a.ctx, a.fact, a.expected, a.value, a.locator, a.newId, a.now)
  }

  /**
   Both calls are planned on these rows, under identities of their own, and the proposal
   uses an evaluation that depends on the fact.
   */
  ghost predicate Racing(rows: Rows, p: Proposal, a: Amendment) {
    && Keyed(rows) && Propose(rows, p).Ok? && Amend(rows, a).Ok?
    && p.id !in rows && a.newId !in rows && p.id != a.newId
    && exists e :: e in p.evaluations && EvaluationDepends(rows, a.fact, e)
  }

  // ---------- the commits ----------

  /** The rows with the proposed comparison, which uses each of its evaluations. */
  ghost predicate Proposed(rows: Rows, after: Rows, p: Proposal) {
    && after.Keys == rows.Keys + {p.id} && (forall id :: id in rows && id != p.id ==> after[id] == rows[id])
    && after[p.id].id == p.id && after[p.id].revision == 1 && IsLiveComparison(after, p.id)
    && forall e :: e in p.evaluations ==> exists x :: x in after[p.id].body.comparison.inputs && x.evaluation == e
  }

  lemma ProposalRequest(rows: Rows, p: Proposal)
    requires Propose(rows, p).Ok?
    ensures |p.evaluations| == 3 && ComparisonProjections(rows, p.evaluations).Ok?
    ensures var r := Propose(rows, p).value;
      && |r.mutations| == |r.events| == 1 && r.mutations[0].Insert? && r.mutations[0].entity.id == p.id
      && r.mutations[0].entity.revision == 1 && r.mutations[0].entity.body.OfComparison?
      && r.mutations[0].entity.body.comparison.state.CompProposed?
      && r.mutations[0].entity.body.comparison.inputs == ComparisonProjections(rows, p.evaluations).value
  {
  }

  lemma InputsAreEvaluations(rows: Rows, ids: seq<EntityId>)
    requires Keyed(rows) && ComparisonProjections(rows, ids).Ok?
    ensures forall e :: e in ids ==> exists x :: x in ComparisonProjections(rows, ids).value && x.evaluation == e
  {
    var inputs := ComparisonProjections(rows, ids).value;
    assert ids == [ids[0], ids[1], ids[2]];
    assert ids[0] in ids && ids[1] in ids && ids[2] in ids;
    assert inputs[0] in inputs && inputs[1] in inputs && inputs[2] in inputs;
    assert inputs[0].evaluation == ids[0] && inputs[1].evaluation == ids[1] && inputs[2].evaluation == ids[2];
  }

  /** The request inserts one proposed comparison that uses each of the evaluations. */
  ghost predicate InsertsComparison(r: Request, id: EntityId, evaluations: seq<EntityId>) {
    && |r.mutations| == |r.events| == 1 && r.mutations[0].Insert?
    && r.mutations[0].entity.id == id && r.mutations[0].entity.revision == 1
    && r.mutations[0].entity.body.OfComparison? && r.mutations[0].entity.body.comparison.state.CompProposed?
    && forall e :: e in evaluations ==>
        exists x :: x in r.mutations[0].entity.body.comparison.inputs && x.evaluation == e
  }

  lemma ProposalInserts(rows: Rows, p: Proposal)
    requires Keyed(rows) && Propose(rows, p).Ok?
    ensures InsertsComparison(Propose(rows, p).value, p.id, p.evaluations)
  {
    ProposalRequest(rows, p);
    InputsAreEvaluations(rows, p.evaluations);
  }

  lemma ProposalCommits(db: Db, p: Proposal, r: Request, key: nat, command: nat)
    requires InsertsComparison(r, p.id, p.evaluations) && p.id !in db.rows && key !in db.receipts
    ensures var (mid, reply) := Transact(db, key, command, r);
      reply == Committed && Proposed(db.rows, mid.rows, p) && mid.receipts.Keys == db.receipts.Keys + {key}
  {
    assert r.mutations == [r.mutations[0]];
    assert Applicable(db.rows, r.mutations);
    CurrentRequestCommits(db, key, command, r);
    assert r.mutations[0] in r.mutations && Touched(r.mutations) == {p.id};
  }

  /** What applies to some rows applies to more rows, if it inserts none of the new ones. */
  lemma AppliesToMore(rows: Rows, more: Rows, ms: seq<Mutation>)
    requires Applicable(rows, ms) && (forall id :: id in rows ==> id in more && more[id] == rows[id])
    requires forall m :: m in ms && m.Insert? ==> m.entity.id !in more
    ensures Applicable(more, ms)
  {
    forall m | m in ms
      ensures FromView(more, m)
    {
      assert FromView(rows, m);
    }
  }

  lemma AmendmentRequest(rows: Rows, a: Amendment)
    requires Keyed(rows) && Amend(rows, a).Ok? && a.newId !in rows
    ensures Corrects(rows, Amend(rows, a).value, a.fact, a.newId)
  {
    CorrectionPlan(rows, a.ctx, a.fact, a.expected, a.value, a.locator, a.newId, a.now);
    CorrectionCascades(rows, a.ctx, a.fact, a.expected, a.value, a.locator, a.newId, a.now);
    var correction := Correction(rows[a.fact], a.value, a.locator, a.now);
    var ms := CorrectionRequest(rows, a.ctx.actor, a.fact, a.newId, correction).mutations;
    RequestTail(rows, a.ctx.actor, a.fact, a.newId, correction);
    StaleIds(rows, a.fact);
    assert SoundRequest(rows, Amend(rows, a).value, Cascading);
    CorrectionApplicable(rows, ms, a.fact, a.newId, StaleRows(rows, a.fact));
    OneInsert(ms, StaleRows(rows, a.fact), a.newId);
  }

  lemma OneInsert(ms: seq<Mutation>, stale: seq<Entity>, newId: EntityId)
    requires Tail(ms, stale) && ms[0].Update? && ms[1].entity.id == newId
    ensures forall m :: m in ms && m.Insert? ==> m.entity.id == newId
  {
    forall k | 2 <= k < |ms|
      ensures ms[k].Update?
    {
      assert ms[k] == Update(stale[k - 2], Before(stale[k - 2])) by {
        assert ms[(k - 2) + 2] == Update(stale[k - 2], Before(stale[k - 2]));
      }
    }
    forall m | m in ms && m.Insert?
      ensures m == ms[1]
    {
      var k :| 0 <= k < |ms| && ms[k] == m;
    }
  }

  lemma LateCommits(rows: Rows, mid: Db, request: Request, key: nat, command: nat)
    requires Keyed(rows) && Keyed(mid.rows) && Behind(rows, mid.rows) && key !in mid.receipts
    requires SoundRequest(rows, request, Cascading) && Applicable(mid.rows, request.mutations)
    ensures var (end, reply) := Transact(mid, key, command, request);
      reply == Committed && Stepped(Submission(rows, request, Cascading, key, command), mid.rows, end.rows)
  {
    CurrentRequestCommits(mid, key, command, request);
    CommitEffect(rows, mid, key, command, request);
    CommitKeyed(rows, mid, key, command, request);
  }

  /** A correction that has read the rows before the proposal commits after it, and leaves a stale comparison. */
  lemma LateLeavesStale(rows: Rows, mid: Db, p: Proposal, request: Request, fact: EntityId, key: nat, command: nat)
    requires Keyed(rows) && p.id !in rows && Proposed(rows, mid.rows, p) && key !in mid.receipts
    requires SoundRequest(rows, request, Cascading) && CascadesFrom(rows, request, fact)
             && Applicable(rows, request.mutations)
    requires forall m :: m in request.mutations && m.Insert? ==> m.entity.id !in mid.rows
    requires exists e :: e in p.evaluations && EvaluationDepends(rows, fact, e)
    ensures var (end, reply) := Transact(mid, key, command, request); reply == Committed && !Fresh(end.rows)
  {
    AppliesToMore(rows, mid.rows, request.mutations);
    LateCommits(rows, mid, request, key, command);
    var end := Transact(mid, key, command, request).0;
    var e :| e in p.evaluations && EvaluationDepends(rows, fact, e);
    var x :| x in mid.rows[p.id].body.comparison.inputs && x.evaluation == e;
    OverlookedIsNotFresh(Submission(rows, request, Cascading, key, command), mid.rows, end.rows, p.id, x);
  }

  /** The correction, as planned on these rows. */
  ghost predicate Corrects(rows: Rows, request: Request, fact: EntityId, newId: EntityId) {
    && SoundRequest(rows, request, Cascading) && CascadesFrom(rows, request, fact)
      && Applicable(rows, request.mutations)
    && forall m :: m in request.mutations && m.Insert? ==> m.entity.id == newId
  }

  lemma RequestsRace(db: Db, p: Proposal, proposal: Request, correction: Request, fact: EntityId, newId: EntityId,
                     first: nat, second: nat, command: nat, other: nat)
    requires Keyed(db.rows) && InsertsComparison(proposal, p.id, p.evaluations)
             && Corrects(db.rows, correction, fact, newId)
    requires p.id !in db.rows && newId !in db.rows && p.id != newId
    requires first !in db.receipts && second !in db.receipts && first != second
    requires exists e :: e in p.evaluations && EvaluationDepends(db.rows, fact, e)
    ensures var (mid, r1) := Transact(db, first, command, proposal);
      var (end, r2) := Transact(mid, second, other, correction);
      r1 == Committed && r2 == Committed && !Fresh(end.rows)
  {
    ProposalCommits(db, p, proposal, first, command);
    LateLeavesStale(db.rows, Transact(db, first, command, proposal).0, p, correction, fact, second, other);
  }

  /**
   Whenever they race like this, both calls commit, the hypotheses of
   `Freshness.OverlookedIsNotFresh` hold, and the comparison is left on a stale evaluation.
   */
  lemma RaceLeavesStale(db: Db, p: Proposal, a: Amendment, first: nat, second: nat, command: nat, other: nat)
    requires Racing(db.rows, p, a) && first !in db.receipts && second !in db.receipts && first != second
    ensures var (mid, r1) := Transact(db, first, command, Propose(db.rows, p).value);
      var (end, r2) := Transact(mid, second, other, Amend(db.rows, a).value);
      r1 == Committed && r2 == Committed && !Fresh(end.rows)
  {
    ProposalInserts(db.rows, p);
    AmendmentRequest(db.rows, a);
    RequestsRace(db, p, Propose(db.rows, p).value, Amend(db.rows, a).value, a.fact, a.newId, first, second, command,
                 other);
  }
}
