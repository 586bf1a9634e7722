/**
 Decisions about evidence: each item is decided once, and a rejected identity is
 never accepted again, except for candidate facts that the user has corrected
 since, unless the acceptance was overtaken by the rejection: it had read the
 evidence before. With commands run one at a time that does not happen.
 */
module Revival {
  import opened Domain
  import opened Store
  import opened Listing
  import opened Lifecycle
  import opened Runs
  import opened EvidenceRules
  import opened ProfileCommands
  import opened FactChains

  ghost predicate IsEvidence(rows: Rows, id: EntityId) { id in rows && rows[id].body.OfEvidence? }

  ghost predicate IsAccepted(rows: Rows, id: EntityId) {
    IsEvidence(rows, id) && rows[id].body.evidence.decision.Accepted?
  }

  ghost predicate IsRejected(rows: Rows, id: EntityId) {
    IsEvidence(rows, id) && rows[id].body.evidence.decision.Rejected?
  }

  /** The rejection identity of an item in the store; none if its source is missing. */
  ghost function IdentityOf(rows: Rows, id: EntityId): Option<Identity>
    requires IsEvidence(rows, id)
  {
    var e := rows[id].body.evidence;
    match FetchSource(rows, e.source)
    case Err(_) => None
    case Ok(source) => Some(RejectionIdentity(e, source))
  }

  ghost predicate SameIdentity(rows: Rows, a: EntityId, b: EntityId) {
    IsEvidence(rows, a) && IsEvidence(rows, b) && IdentityOf(rows, a).Some?
      && IdentityOf(rows, a) == IdentityOf(rows, b)
  }

  /** The one excuse: both are candidate facts and the user corrected the rejected one's fact into the other's. */
  ghost predicate CorrectedSince(rows: Rows, accepted: EntityId, rejected: EntityId)
    requires IsEvidence(rows, accepted) && IsEvidence(rows, rejected)
  {
    var a, r := rows[accepted].body.evidence, rows[rejected].body.evidence;
    && a.classification.CandidateFact? && r.classification.CandidateFact?
    && a.fact.Some? && r.fact.Some? && ProperAncestor(rows, r.fact.value, a.fact.value)
  }

  // ---------- what the command checks ----------

  ghost predicate Excused(rows: Rows, evidence: Evidence, other: Evidence) {
    evidence.classification.CandidateFact? && other.classification.CandidateFact?
    && IsUserCorrectionDescendant(rows, evidence.fact, other.fact) == Ok(true)
  }

  ghost predicate Tolerated(rows: Rows, id: EntityId, evidence: Evidence, source: Option<Source>)
    requires IsEvidence(rows, id)
  {
    IsRejected(rows, id) ==>
      && IdentityOf(rows, id).Some?
      && (IdentityOf(rows, id) == Some(RejectionIdentity(evidence, source)) ==>
            Excused(rows, evidence, rows[id].body.evidence))
  }

  lemma OneTolerated(rows: Rows, id: EntityId, evidence: Evidence, source: Option<Source>)
    requires IsEvidence(rows, id)
    ensures NotRevivedBy(rows, rows[id].body.evidence, evidence, source).Ok? <==> Tolerated(rows, id, evidence, source)
  {
  }

  /** The scan over the evidence passes exactly when every rejected item differs in identity or is excused. */
  lemma {:induction false} NotRevivedMeans(rows: Rows, ids: seq<EntityId>, evidence: Evidence, source: Option<Source>)
    requires forall id :: id in ids ==> id in rows && rows[id].body.OfEvidence?
    ensures NotRevived(rows, ids, evidence, source).Ok? <==> forall id :: id in ids ==>
              Tolerated(rows, id, evidence, source)
  {
    if ids != [] {
      NotRevivedMeans(rows, ids[1..], evidence, source);
      assert ids == [ids[0]] + ids[1..];
      OneTolerated(rows, ids[0], evidence, source);
    }
  }

  /** What an acceptance has checked on the rows it read. */
  ghost predicate AcceptanceChecked(view: Rows, id: EntityId) {
    && IsEvidence(view, id) && IdentityOf(view, id).Some?
    && forall r :: IsRejected(view, r) ==>
         && IdentityOf(view, r).Some?
         && (IdentityOf(view, r) == IdentityOf(view, id) ==>
               Excused(view, view[id].body.evidence, view[r].body.evidence))
  }

  /** A decision is about one item, whose source was found; an acceptance has checked the rejected items. */
  ghost predicate Checked(view: Rows, request: Request) {
    && |request.mutations| <= 1
    && forall m :: m in request.mutations && m.entity.body.OfEvidence? ==>
         && IsEvidence(view, m.entity.id) && IdentityOf(view, m.entity.id).Some?
         && (m.entity.body.evidence.decision.Accepted? ==> AcceptanceChecked(view, m.entity.id))
  }

  lemma DecisionChecked(view: Rows, ctx: Context, id: EntityId, expected: nat, accept: bool, wellFormed: bool)
    requires Keyed(view)
    ensures var r := PlanDecideEvidence(view, ctx, id, expected, accept, wellFormed); r.Ok? ==> Checked(view, r.value)
  {
    var r := PlanDecideEvidence(view, ctx, id, expected, accept, wellFormed);
    if r.Ok? && accept {
      AcceptanceIsChecked(view, id);
    }
  }

  lemma AcceptanceIsChecked(view: Rows, id: EntityId)
    requires IsEvidence(view, id) && FetchSource(view, view[id].body.evidence.source).Ok?
    requires NotRevived(view, ListIds(view, EvidenceKind), view[id].body.evidence,
                        FetchSource(view, view[id].body.evidence.source).value).Ok?
    ensures AcceptanceChecked(view, id)
  {
    var e := view[id].body.evidence;
    RejectedAreTolerated(view, ListIds(view, EvidenceKind), e, FetchSource(view, e.source).value);
    ToleratedIsChecked(view, id, FetchSource(view, e.source).value);
  }

  lemma RejectedAreTolerated(view: Rows, ids: seq<EntityId>, e: Evidence, source: Option<Source>)
    requires forall id :: id in ids <==> id in view && view[id].body.OfEvidence?
    requires NotRevived(view, ids, e, source).Ok?
    ensures forall r :: IsRejected(view, r) ==> Tolerated(view, r, e, source)
  {
    NotRevivedMeans(view, ids, e, source);
  }

  lemma ToleratedIsChecked(view: Rows, id: EntityId, source: Option<Source>)
    requires IsEvidence(view, id) && FetchSource(view, view[id].body.evidence.source) == Ok(source)
    requires forall r :: IsRejected(view, r) ==> Tolerated(view, r, view[id].body.evidence, source)
    ensures AcceptanceChecked(view, id)
  {
  }

  // ---------- what never changes ----------

  lemma EvidenceKept(before: Rows, after: Rows, licence: Licence, id: EntityId)
    requires Evolved(before, after, licence) && IsEvidence(before, id)
    ensures IsEvidence(after, id)
    ensures before[id].body.evidence.decision.EvidenceProposed? || after[id] == before[id]
    ensures after[id].body.evidence == before[id].body.evidence.(decision := after[id].body.evidence.decision)
    ensures IdentityOf(before, id).Some? ==> IdentityOf(after, id) == IdentityOf(before, id)
  {
    assert RowChange(before, after, id, licence);
    var source := before[id].body.evidence.source;
    if source.Some? && source.value in before {
      assert RowChange(before, after, source.value, licence);
    }
  }

  lemma AncestorKept(before: Rows, after: Rows, licence: Licence, ancestor: EntityId, id: EntityId)
    requires Evolved(before, after, licence) && ProperAncestor(before, ancestor, id)
    ensures ProperAncestor(after, ancestor, id)
  {
    LinksKept(before, after, licence);
    var ids :| ChainTo(before, ids, id, ancestor);
    forall k | 0 <= k < |ids|
      ensures IsFact(after, ids[k])
    {
      assert RowChange(before, after, ids[k], licence);
    }
    assert ChainTo(after, ids, id, ancestor);
  }

  lemma EvidenceKeptAt(run: Run, i: nat, id: EntityId)
    requires ValidRun(run) && i < |run.submissions| && IsEvidence(run.states[i].rows, id)
    ensures var before, after := run.states[i].rows, run.states[i + 1].rows;
      && IsEvidence(after, id)
      && (before[id].body.evidence.decision.EvidenceProposed? || after[id] == before[id])
      && after[id].body.evidence == before[id].body.evidence.(decision := after[id].body.evidence.decision)
      && (IdentityOf(before, id).Some? ==> IdentityOf(after, id) == IdentityOf(before, id))
  {
    RowsChangeLawfully(run, i);
    if run.states[i + 1] != run.states[i] {
      EvidenceKept(run.states[i].rows, run.states[i + 1].rows, run.submissions[i].licence, id);
    }
  }

  /** Each item is decided at most once: a decided item never changes again. */
  lemma {:induction false} DecidedOnce(run: Run, i: nat, j: nat, id: EntityId)
    requires ValidRun(run) && i <= j < |run.states|
    requires IsAccepted(run.states[i].rows, id) || IsRejected(run.states[i].rows, id)
    ensures IsEvidence(run.states[j].rows, id) && run.states[j].rows[id] == run.states[i].rows[id]
    decreases j
  {
    if i < j {
      DecidedOnce(run, i, j - 1, id);
      EvidenceKeptAt(run, j - 1, id);
    }
  }

  lemma {:induction false} IdentityKept(run: Run, i: nat, j: nat, id: EntityId)
    requires ValidRun(run) && i <= j < |run.states| && IsEvidence(run.states[i].rows, id)
             && IdentityOf(run.states[i].rows, id).Some?
    ensures IsEvidence(run.states[j].rows, id) && IdentityOf(run.states[j].rows, id)
            == IdentityOf(run.states[i].rows, id)
    decreases j
  {
    if i < j {
      IdentityKept(run, i, j - 1, id);
      EvidenceKeptAt(run, j - 1, id);
    }
  }

  // ---------- runs ----------

  /** Decisions have made their checks on what they read. */
  ghost predicate DecisionsChecked(run: Run) {
    forall s :: s in run.submissions && s.licence.Deciding? ==> Checked(s.view, s.request)
  }

  /** An item accepted by a commit was read as it was, and checked on the rows that were read. */
  lemma AcceptedAfterCheck(s: Submission, before: Rows, after: Rows, id: EntityId)
    requires Stepped(s, before, after) && (s.licence.Deciding? ==> Checked(s.view, s.request))
    requires !IsAccepted(before, id) && IsAccepted(after, id)
    ensures AcceptanceChecked(s.view, id)
  {
    StepEvolves(s, before, after);
    assert RowChange(before, after, id, s.licence);
    var k := WriteOf(s, before, after, id);
    assert Checked(s.view, s.request);
  }

  /** The commit at which an item is accepted. */
  lemma {:induction false} AcceptanceMoment(run: Run, i: nat, j: nat, id: EntityId) returns (k: nat)
    requires ValidRun(run) && i <= j < |run.states|
    requires !IsAccepted(run.states[i].rows, id) && IsAccepted(run.states[j].rows, id)
    ensures i <= k < j && !IsAccepted(run.states[k].rows, id) && IsAccepted(run.states[k + 1].rows, id)
    decreases j
  {
    if IsAccepted(run.states[j - 1].rows, id) {
      k := AcceptanceMoment(run, i, j - 1, id);
    } else {
      k := j - 1;
    }
  }

  // ---------- what a command has read still holds ----------

  /** Sources and the links of facts never change, and evidence only once. */
  ghost predicate Persists(e: Entity, rows: Rows, id: EntityId) {
    && (e.body.OfSource? ==> id in rows && rows[id].body == e.body)
    && (e.body.OfFact? ==> IsFact(rows, id) && rows[id].body.fact.supersedes == e.body.fact.supersedes)
    && (e.body.OfEvidence? ==>
          && IsEvidence(rows, id)
          && rows[id].body.evidence == e.body.evidence.(decision := rows[id].body.evidence.decision))
  }

  lemma PersistsOn(e: Entity, before: Rows, after: Rows, licence: Licence, id: EntityId)
    requires Evolved(before, after, licence) && id in before && Persists(e, before, id)
    ensures Persists(e, after, id)
  {
    assert id in after && RowChange(before, after, id, licence);
  }

  lemma {:induction false} RowPersists(run: Run, i: nat, j: nat, id: EntityId)
    requires ValidRun(run) && i <= j < |run.states| && id in run.states[i].rows
    ensures id in run.states[j].rows && Persists(run.states[i].rows[id], run.states[j].rows, id)
    decreases j
  {
    if i < j {
      RowPersists(run, i, j - 1, id);
      RowPersistsAt(run, run.states[i].rows[id], j - 1, id);
    }
  }

  lemma RowPersistsAt(run: Run, e: Entity, i: nat, id: EntityId)
    requires ValidRun(run) && i < |run.submissions| && id in run.states[i].rows && Persists(e, run.states[i].rows, id)
    ensures id in run.states[i + 1].rows && Persists(e, run.states[i + 1].rows, id)
  {
    RowsChangeLawfully(run, i);
    if run.states[i + 1] != run.states[i] {
      PersistsOn(e, run.states[i].rows, run.states[i + 1].rows, run.submissions[i].licence, id);
    }
  }

  ghost predicate AllPersist(view: Rows, rows: Rows) { forall id :: id in view ==> Persists(view[id], rows, id) }

  lemma ViewPersists(run: Run, i: nat)
    requires ValidRun(run) && i < |run.submissions|
    ensures AllPersist(run.submissions[i].view, run.states[i].rows)
  {
    assert Follows(run, i);
    var view := run.submissions[i].view;
    forall id | id in view
      ensures Persists(view[id], run.states[i].rows, id)
    {
      var t :| 0 <= t < |run.states[..i + 1]| && SeenAt(run.states[..i + 1][t], view, id);
      RowPersists(run, t, i, id);
    }
  }

  lemma IdentityPersists(view: Rows, rows: Rows, id: EntityId)
    requires AllPersist(view, rows) && IsEvidence(view, id) && IdentityOf(view, id).Some?
    ensures IsEvidence(rows, id) && IdentityOf(rows, id) == IdentityOf(view, id)
  {
    assert Persists(view[id], rows, id);
    var source := view[id].body.evidence.source;
    if source.Some? {
      assert Persists(view[source.value], rows, source.value);
    }
  }

  /** A chain of corrections that was found among the rows read is still there. */
  lemma {:induction false} DescentPersists(view: Rows, rows: Rows, cursor: EntityId, rejected: EntityId,
                                           seen: set<EntityId>, corrected: bool)
    requires AllPersist(view, rows) && Linked(rows) && IsFact(view, cursor)
    requires Descends(view, cursor, rejected, seen, corrected) == Ok(true)
    ensures ProperAncestor(rows, rejected, cursor)
    decreases view.Keys - seen
  {
    var previous := view[cursor].body.fact.supersedes.value;
    assert Persists(view[cursor], rows, cursor) && Replaces(rows, cursor, previous);
    AncestorStep(rows, cursor, previous, rejected);
    if previous != rejected {
      var f := view[cursor].body.fact;
      DescentPersists(view, rows, previous, rejected, seen + {cursor}, corrected
                      || (f.proposedBy.ByUser? && f.confirmedAt.Some?));
    }
  }

  /** What excused an acceptance among the rows it read is a correction in the store. */
  lemma ExcusePersists(view: Rows, rows: Rows, accepted: EntityId, rejected: EntityId)
    requires AllPersist(view, rows) && Linked(rows) && IsEvidence(view, accepted) && IsEvidence(view, rejected)
    requires Excused(view, view[accepted].body.evidence, view[rejected].body.evidence)
    ensures IsEvidence(rows, accepted) && IsEvidence(rows, rejected) && CorrectedSince(rows, accepted, rejected)
  {
    assert Persists(view[accepted], rows, accepted) && Persists(view[rejected], rows, rejected);
    var a, r := view[accepted].body.evidence.fact, view[rejected].body.evidence.fact;
    DescentPersists(view, rows, a.value, r.value, {}, false);
  }

  lemma CorrectionRemainsAt(run: Run, k: nat, accepted: EntityId, rejected: EntityId)
    requires ValidRun(run) && k < |run.submissions|
    requires IsEvidence(run.states[k].rows, accepted) && IsEvidence(run.states[k].rows, rejected)
    requires CorrectedSince(run.states[k].rows, accepted, rejected)
    ensures IsEvidence(run.states[k + 1].rows, accepted) && IsEvidence(run.states[k + 1].rows, rejected)
    ensures CorrectedSince(run.states[k + 1].rows, accepted, rejected)
  {
    EvidenceKeptAt(run, k, accepted);
    EvidenceKeptAt(run, k, rejected);
    var rows := run.states[k].rows;
    RowsChangeLawfully(run, k);
    if run.states[k + 1] != run.states[k] {
      AncestorKept(rows, run.states[k + 1].rows, run.submissions[k].licence,
                   rows[rejected].body.evidence.fact.value, rows[accepted].body.evidence.fact.value);
    }
  }

  lemma {:induction false} CorrectionRemains(run: Run, k: nat, j: nat, accepted: EntityId, rejected: EntityId)
    requires ValidRun(run) && k <= j < |run.states|
    requires IsEvidence(run.states[k].rows, accepted) && IsEvidence(run.states[k].rows, rejected)
    requires CorrectedSince(run.states[k].rows, accepted, rejected)
    ensures IsEvidence(run.states[j].rows, accepted) && IsEvidence(run.states[j].rows, rejected)
    ensures CorrectedSince(run.states[j].rows, accepted, rejected)
    decreases j
  {
    if k < j {
      CorrectionRemains(run, k, j - 1, accepted, rejected);
      CorrectionRemainsAt(run, j - 1, accepted, rejected);
    }
  }

  // ---------- when an acceptance revives what was rejected ----------

  ghost predicate IsDecided(rows: Rows, id: EntityId) { IsAccepted(rows, id) || IsRejected(rows, id) }

  /** The item becomes accepted or rejected. */
  ghost predicate DecidedAt(run: Run, k: nat, id: EntityId)
    requires k + 1 < |run.states|
  {
    !IsDecided(run.states[k].rows, id) && IsDecided(run.states[k + 1].rows, id)
  }

  /** The commit that decides an item has the one mutation that does, and was checked. */
  lemma DecidingWrite(s: Submission, before: Rows, after: Rows, id: EntityId)
    requires Stepped(s, before, after) && (s.licence.Deciding? ==> Checked(s.view, s.request))
    requires !IsDecided(before, id) && IsDecided(after, id)
    ensures s.licence.Deciding? && |s.request.mutations| == 1 && s.request.mutations[0].entity == after[id]
    ensures UpdatedRow(s, before, after, s.request.mutations[0])
    ensures after[id].id == id
  {
    StepEvolves(s, before, after);
    assert RowChange(before, after, id, s.licence);
    var k := WriteOf(s, before, after, id);
    assert Checked(s.view, s.request);
    UpdatesRow(s, before, after, s.request.mutations[k]);
  }

  ghost predicate Identified(rows: Rows) { forall id :: IsDecided(rows, id) ==> IdentityOf(rows, id).Some? }

  /** In every reachable state whatever was decided has an identity: its source is there. */
  lemma {:induction false} DecidedIsIdentified(run: Run, i: nat)
    requires ValidRun(run) && DecisionsChecked(run) && i < |run.states|
    ensures Identified(run.states[i].rows)
  {
    if i > 0 {
      DecidedIsIdentified(run, i - 1);
      forall id | IsDecided(run.states[i].rows, id)
        ensures IdentityOf(run.states[i].rows, id).Some?
      {
        if IsDecided(run.states[i - 1].rows, id) {
          EvidenceKeptAt(run, i - 1, id);
        } else {
          NewlyIdentified(run, i - 1, id);
        }
      }
    }
  }

  lemma NewlyIdentified(run: Run, k: nat, id: EntityId)
    requires ValidRun(run) && DecisionsChecked(run) && k < |run.submissions| && DecidedAt(run, k, id)
    ensures IsEvidence(run.states[k].rows, id) && IdentityOf(run.states[k].rows, id).Some?
    ensures IdentityOf(run.states[k + 1].rows, id).Some?
  {
    StepOfRun(run, k);
    DecidingWrite(run.submissions[k], run.states[k].rows, run.states[k + 1].rows, id);
    ViewPersists(run, k);
    assert run.submissions[k].request.mutations[0] in run.submissions[k].request.mutations;
    IdentityPersists(run.submissions[k].view, run.states[k].rows, id);
    EvidenceKeptAt(run, k, id);
  }

  /** The rows differ in the decision of one item. */
  ghost predicate OneDecided(before: Rows, after: Rows, id: EntityId) {
    && after.Keys == before.Keys && IsEvidence(before, id) && IsEvidence(after, id)
    && before[id].body.evidence.decision.EvidenceProposed?
    && after[id].body.evidence == before[id].body.evidence.(decision := after[id].body.evidence.decision)
    && forall x :: x in before && x != id ==> after[x] == before[x]
  }

  lemma DecisionIsOne(s: Submission, before: Rows, after: Rows, id: EntityId)
    requires Stepped(s, before, after) && (s.licence.Deciding? ==> Checked(s.view, s.request))
    requires !IsDecided(before, id) && IsDecided(after, id)
    ensures OneDecided(before, after, id) && Touched(s.request.mutations) == {id}
  {
    DecidingWrite(s, before, after, id);
    OneMutation(s.view, s.request.mutations, before, after);
  }

  lemma OneMutation(view: Rows, ms: seq<Mutation>, before: Rows, after: Rows)
    requires Effect(view, ms, before, after) && |ms| == 1
    ensures Touched(ms) == {ms[0].entity.id} && after.Keys == before.Keys + {ms[0].entity.id}
    ensures forall x :: x in before && x != ms[0].entity.id ==> after[x] == before[x]
  {
    assert ms[0] in ms;
  }

  lemma IdentitySame(before: Rows, after: Rows, id: EntityId, x: EntityId)
    requires OneDecided(before, after, id) && IsEvidence(before, x)
    ensures IsEvidence(after, x) && IdentityOf(after, x) == IdentityOf(before, x)
  {
  }

  lemma AncestorSame(before: Rows, after: Rows, id: EntityId, ancestor: EntityId, x: EntityId)
    requires OneDecided(before, after, id)
    ensures ProperAncestor(after, ancestor, x) <==> ProperAncestor(before, ancestor, x)
  {
    if ids :| ChainTo(before, ids, x, ancestor) {
      assert ChainTo(after, ids, x, ancestor);
    }
    if ids :| ChainTo(after, ids, x, ancestor) {
      assert ChainTo(before, ids, x, ancestor);
    }
  }

  lemma CorrectionSame(before: Rows, after: Rows, id: EntityId, rejected: EntityId)
    requires OneDecided(before, after, id) && IsEvidence(before, rejected)
    ensures IsEvidence(after, rejected) && (CorrectedSince(after, id, rejected) <==>
                                              CorrectedSince(before, id, rejected))
  {
    var a, r := before[id].body.evidence.fact, before[rejected].body.evidence.fact;
    if a.Some? && r.Some? {
      AncestorSame(before, after, id, r.value, a.value);
    }
  }

  /** On the rows of a reachable state the check excuses exactly the corrections. */
  lemma ExcusedIffCorrected(run: Run, k: nat, accepted: EntityId, rejected: EntityId)
    requires ValidRun(run) && k < |run.states| && IsEvidence(run.states[k].rows, accepted)
             && IsEvidence(run.states[k].rows, rejected)
    ensures var rows := run.states[k].rows;
      Excused(rows, rows[accepted].body.evidence, rows[rejected].body.evidence) <==>
          CorrectedSince(rows, accepted, rejected)
  {
    var rows := run.states[k].rows;
    var a, r := rows[accepted].body.evidence.fact, rows[rejected].body.evidence.fact;
    if a.Some? && r.Some? {
      if IsFact(rows, a.value) {
        CorrectionDescentIsAncestry(run, k, a.value, r.value);
      } else if ProperAncestor(rows, r.value, a.value) {
        DescendantCorrects(rows, r.value, a.value);
      }
    }
  }

  /** A rejected item of the same identity, without a correction since. */
  ghost predicate Revives(rows: Rows, accepted: EntityId, rejected: EntityId) {
    IsRejected(rows, rejected) && SameIdentity(rows, rejected, accepted) && !CorrectedSince(rows, accepted, rejected)
  }

  ghost predicate RevivesNothing(rows: Rows, accepted: EntityId) { forall r :: !Revives(rows, accepted, r) }

  ghost predicate AcceptedAt(run: Run, k: nat, id: EntityId)
    requires k + 1 < |run.states|
  {
    !IsAccepted(run.states[k].rows, id) && IsAccepted(run.states[k + 1].rows, id)
  }

  /**
   Whatever was interleaved, a commit that accepts an item revives nothing that was
   rejected if and only if the check that the command made on the rows it had read
   would still pass on the rows at its commit.
   */
  lemma AcceptanceRevivesNothing(run: Run, k: nat, id: EntityId)
    requires ValidRun(run) && DecisionsChecked(run) && k < |run.submissions| && AcceptedAt(run, k, id)
    ensures RevivesNothing(run.states[k + 1].rows, id) <==> AcceptanceChecked(run.states[k].rows, id)
  {
    var before, after := run.states[k].rows, run.states[k + 1].rows;
    StepOfRun(run, k);
    if IsRejected(before, id) {
      DecidedOnce(run, k, k + 1, id);
    }
    DecisionIsOne(run.submissions[k], before, after, id);
    NewlyIdentified(run, k, id);
    DecidedIsIdentified(run, k);
    forall r
      ensures Revives(after, id, r) <==> BlockedBy(before, id, r)
    {
      RevivesIffBlocked(run, k, id, r);
    }
    CheckedMeans(before, id);
  }

  lemma CheckedMeans(rows: Rows, id: EntityId)
    requires Identified(rows) && IsEvidence(rows, id) && IdentityOf(rows, id).Some?
    ensures AcceptanceChecked(rows, id) <==> forall r :: !BlockedBy(rows, id, r)
  {
    if forall r :: !BlockedBy(rows, id, r) {
      forall r | IsRejected(rows, r)
        ensures IdentityOf(rows, r).Some?
        ensures IdentityOf(rows, r) == IdentityOf(rows, id) ==>
                  Excused(rows, rows[id].body.evidence, rows[r].body.evidence)
      {
        assert IsDecided(rows, r) && !BlockedBy(rows, id, r);
      }
    }
  }

  /** The check of an acceptance fails on this item. */
  ghost predicate BlockedBy(rows: Rows, id: EntityId, r: EntityId)
    requires IsEvidence(rows, id)
  {
    IsRejected(rows, r) && IdentityOf(rows, r) == IdentityOf(rows, id)
      && !Excused(rows, rows[id].body.evidence, rows[r].body.evidence)
  }

  lemma RevivesIffBlocked(run: Run, k: nat, id: EntityId, r: EntityId)
    requires ValidRun(run) && k + 1 < |run.states| && OneDecided(run.states[k].rows, run.states[k + 1].rows, id)
    requires IsAccepted(run.states[k + 1].rows, id) && IdentityOf(run.states[k].rows, id).Some?
    ensures Revives(run.states[k + 1].rows, id, r) <==> BlockedBy(run.states[k].rows, id, r)
  {
    var before, after := run.states[k].rows, run.states[k + 1].rows;
    if IsEvidence(before, r) {
      IdentitySame(before, after, id, r);
      IdentitySame(before, after, id, id);
      CorrectionSame(before, after, id, r);
      ExcusedIffCorrected(run, k, id, r);
    }
  }

  // ---------- races ----------

  /** What the acceptance that `submissions[k]` makes has listed: all evidence of the state `t`. */
  ghost predicate Listed(run: Run, k: nat, t: nat)
    requires k < |run.submissions| < |run.states|
  {
    t <= k
    && forall id :: IsEvidence(run.states[t].rows, id) && id !in Touched(run.submissions[k].request.mutations) ==>
         id in run.submissions[k].view && run.submissions[k].view[id] == run.states[t].rows[id]
  }

  /** `repository.list` is one query: what a decision has listed is the evidence of one moment. */
  ghost predicate EvidenceListed(run: Run) {
    |run.submissions| < |run.states|
    && forall k :: 0 <= k < |run.submissions| && run.submissions[k].licence.Deciding? ==>
        exists t: nat :: Listed(run, k, t)
  }

  /** The commit accepts the item without having read that the other one is rejected. */
  ghost predicate AcceptsUnaware(run: Run, k: nat, accepted: EntityId, rejected: EntityId)
    requires k < |run.submissions| < |run.states|
  {
    !IsAccepted(run.states[k].rows, accepted) && IsAccepted(run.states[k + 1].rows, accepted)
    && !IsRejected(run.submissions[k].view, rejected)
  }

  /** An acceptance that has read the rejection of its identity rests on a correction. */
  lemma AwareAcceptance(run: Run, k: nat, j: nat, rejected: EntityId, accepted: EntityId)
    requires ValidRun(run) && DecisionsChecked(run) && k < |run.submissions| && k < j < |run.states|
    requires !IsAccepted(run.states[k].rows, accepted) && IsAccepted(run.states[k + 1].rows, accepted)
    requires IsRejected(run.submissions[k].view, rejected) && SameIdentity(run.states[j].rows, rejected, accepted)
    ensures CorrectedSince(run.states[j].rows, accepted, rejected)
  {
    var view, rows := run.submissions[k].view, run.states[k].rows;
    StepOfRun(run, k);
    AcceptedAfterCheck(run.submissions[k], rows, run.states[k + 1].rows, accepted);
    ViewPersists(run, k);
    IdentityPersists(view, rows, rejected);
    IdentityPersists(view, rows, accepted);
    IdentityKept(run, k, j, rejected);
    IdentityKept(run, k, j, accepted);
    FactsFormChains(run, k);
    ExcusePersists(view, rows, accepted, rejected);
    CorrectionRemains(run, k, j, accepted, rejected);
  }

  /**
   Whatever is interleaved: once an item is rejected, one with the same rejection
   identity that was not accepted yet is accepted later only if both are candidate
   facts and its fact is a proper user-corrected descendant of the rejected one's, or
   if the acceptance had read the evidence before the rejection was committed.
   */
  lemma RevivedOnlyUnaware(run: Run, i: nat, j: nat, rejected: EntityId, accepted: EntityId)
    requires ValidRun(run) && DecisionsChecked(run) && i <= j < |run.states|
    requires IsRejected(run.states[i].rows, rejected) && !IsAccepted(run.states[i].rows, accepted)
    requires IsAccepted(run.states[j].rows, accepted) && SameIdentity(run.states[j].rows, rejected, accepted)
    ensures CorrectedSince(run.states[j].rows, accepted, rejected)
            || exists k :: i <= k < j && AcceptsUnaware(run, k, accepted, rejected)
  {
    var k := AcceptanceMoment(run, i, j, accepted);
    if IsRejected(run.submissions[k].view, rejected) {
      AwareAcceptance(run, k, j, rejected, accepted);
    } else {
      assert AcceptsUnaware(run, k, accepted, rejected);
    }
  }

  /**
   With commands run one at a time a rejected identity is never accepted again,
   corrections apart.
   */
  lemma RejectionIsRemembered(run: Run, i: nat, j: nat, rejected: EntityId, accepted: EntityId)
    requires ValidRun(run) && Serial(run) && DecisionsChecked(run) && i <= j < |run.states|
    requires IsRejected(run.states[i].rows, rejected) && !IsAccepted(run.states[i].rows, accepted)
    requires IsAccepted(run.states[j].rows, accepted) && SameIdentity(run.states[j].rows, rejected, accepted)
    ensures CorrectedSince(run.states[j].rows, accepted, rejected)
  {
    forall k | i <= k < j
      ensures !AcceptsUnaware(run, k, accepted, rejected)
    {
      DecidedOnce(run, i, k, rejected);
    }
    RevivedOnlyUnaware(run, i, j, rejected, accepted);
  }

  /**
   The acceptance had listed the evidence at the moment `t`, before the rejection that was
   committed by the moment `i`.
   */
  ghost predicate Race(run: Run, i: nat, t: nat, k: nat, accepted: EntityId, rejected: EntityId)
    requires k < |run.submissions| < |run.states|
  {
    t < i <= k && Listed(run, k, t) && AcceptsUnaware(run, k, accepted, rejected)
  }

  /**
   With lists that are each of one moment: what was rejected comes back only by a user
   correction, or by an acceptance that had listed the evidence before the rejection.
   */
  lemma RevivedOnlyByRace(run: Run, i: nat, j: nat, rejected: EntityId, accepted: EntityId)
    requires ValidRun(run) && DecisionsChecked(run) && EvidenceListed(run) && i <= j < |run.states|
    requires IsRejected(run.states[i].rows, rejected) && !IsAccepted(run.states[i].rows, accepted)
    requires IsAccepted(run.states[j].rows, accepted) && SameIdentity(run.states[j].rows, rejected, accepted)
    ensures CorrectedSince(run.states[j].rows, accepted, rejected)
            || exists t, k :: 0 <= t <= k < j && Race(run, i, t, k, accepted, rejected)
  {
    RevivedOnlyUnaware(run, i, j, rejected, accepted);
    if !CorrectedSince(run.states[j].rows, accepted, rejected) {
      var k :| i <= k < j && AcceptsUnaware(run, k, accepted, rejected);
      var t := UnawareListedBefore(run, i, k, rejected, accepted);
      assert Race(run, i, t, k, accepted, rejected);
    }
  }

  lemma UnawareListedBefore(run: Run, i: nat, k: nat, rejected: EntityId, accepted: EntityId) returns (t: nat)
    requires ValidRun(run) && DecisionsChecked(run) && EvidenceListed(run) && i <= k < |run.submissions|
    requires IsRejected(run.states[i].rows, rejected) && AcceptsUnaware(run, k, accepted, rejected)
    ensures t < i && Listed(run, k, t)
  {
    OnlyAcceptedTouched(run, i, k, rejected, accepted);
    t :| Listed(run, k, t);
    if t >= i {
      DecidedOnce(run, i, t, rejected);
    }
  }

  lemma OnlyAcceptedTouched(run: Run, i: nat, k: nat, rejected: EntityId, accepted: EntityId)
    requires ValidRun(run) && DecisionsChecked(run) && i <= k < |run.submissions|
    requires IsRejected(run.states[i].rows, rejected) && AcceptedAt(run, k, accepted)
    ensures run.submissions[k].licence.Deciding? && rejected !in Touched(run.submissions[k].request.mutations)
  {
    DecidedOnce(run, i, k + 1, rejected);
    if IsRejected(run.states[k].rows, accepted) {
      DecidedOnce(run, k, k + 1, accepted);
    }
    StepOfRun(run, k);
    DecisionIsOne(run.submissions[k], run.states[k].rows, run.states[k + 1].rows, accepted);
    DecidingWrite(run.submissions[k], run.states[k].rows, run.states[k + 1].rows, accepted);
  }
}
