/**
 Supersession of profile facts, in every run whatever is interleaved: the facts
 form disjoint acyclic chains of user corrections of which only the heads live,
 and the ancestry loop of `isUserCorrectionDescendant` decides exactly the proper
 ancestors.
 */
module FactChains {
  import opened Domain
  import opened Store
  import opened Lifecycle
  import opened Runs
  import opened ProfileCommands

  ghost predicate IsFact(rows: Rows, id: EntityId) { id in rows && rows[id].body.OfFact? }

  ghost predicate IsSuperseded(rows: Rows, id: EntityId) { IsFact(rows, id) && rows[id].body.fact.status.Superseded? }

  /** `next` names `id` as the fact it replaces. */
  ghost predicate Replaces(rows: Rows, next: EntityId, id: EntityId) {
    IsFact(rows, next) && rows[next].body.fact.supersedes == Some(id)
  }

  ghost predicate UserCorrection(rows: Rows, id: EntityId)
    requires IsFact(rows, id)
  {
    rows[id].body.fact.proposedBy.ByUser? && rows[id].body.fact.confirmedAt.Some?
    && !rows[id].body.fact.status.FactProposed? && !rows[id].body.fact.status.DerivedUnverified?
  }

  /** How many states of a history lack an identity before the first one that has it. */
  function Birth(states: seq<Db>, id: EntityId): (b: nat)
    ensures b <= |states|
    ensures states != [] && id in states[|states| - 1].rows ==> b < |states|
  {
    if states == [] then 0
    else
      var n := |states| - 1;
      var b := Birth(states[..n], id);
      if b < n || id in states[n].rows then b else n + 1
  }

  /** What was born is still there. */
  lemma {:induction false} BornStays(states: seq<Db>, id: EntityId)
    requires History(states) && Birth(states, id) < |states|
    ensures id in states[|states| - 1].rows
  {
    var n := |states| - 1;
    if id !in states[n].rows {
      assert n > 0 && History(states[..n]);
      BornStays(states[..n], id);
      assert Transacted(states[n - 1], states[n - 1 + 1]);
      TransactedBehind(states[n - 1], states[n]);
      assert false;
    }
  }

  /** A fact was recorded in an earlier commit than the fact that replaces it. */
  ghost predicate Ordered(states: seq<Db>)
    requires states != []
  {
    forall x, p :: Replaces(states[|states| - 1].rows, x, p) ==> Birth(states, p) < Birth(states, x)
  }

  /** The facts form chains. */
  ghost predicate Linked(rows: Rows) {
    && (forall x, p :: Replaces(rows, x, p) ==> IsSuperseded(rows, p) && UserCorrection(rows, x))
    && (forall p :: IsSuperseded(rows, p) ==> exists x :: Replaces(rows, x, p))
    && (forall x, y, p :: Replaces(rows, x, p) && Replaces(rows, y, p) ==> x == y)
  }

  // ---------- one commit ----------

  ghost predicate Linkful(ms: seq<Mutation>) { exists m :: m in ms && (Supersedes(m) || LinksFact(m)) }

  /** The commit supersedes `p` by the new fact `x` and touches no other fact. */
  ghost predicate Link(before: Rows, after: Rows, x: EntityId, p: EntityId) {
    && IsFact(before, p) && !IsSuperseded(before, p) && IsSuperseded(after, p)
    && after[p].body.fact.supersedes == before[p].body.fact.supersedes
    && x !in before && Replaces(after, x, p) && UserCorrection(after, x) && !IsSuperseded(after, x)
    && forall id :: IsFact(after, id) && id != x && id != p ==> id in before && after[id] == before[id]
  }

  /** The commit supersedes nothing and links nothing. */
  ghost predicate NoLink(before: Rows, after: Rows) {
    && (forall id :: IsSuperseded(after, id) ==> IsSuperseded(before, id))
    && (forall x, p :: Replaces(after, x, p) ==> Replaces(before, x, p))
  }

  lemma LinkNeedsLicence(s: Submission, before: Rows, after: Rows)
    requires Stepped(s, before, after) && Linkful(s.request.mutations)
    ensures LinkShape(s.request.mutations) && MayLink(s.licence)
  {
    var m :| m in s.request.mutations && (Supersedes(m) || LinksFact(m));
    assert Lawful(s.view, m, s.licence);
  }

  lemma NoLinkAt(s: Submission, before: Rows, after: Rows, id: EntityId)
    requires Stepped(s, before, after) && !Linkful(s.request.mutations) && IsFact(after, id)
    ensures IsSuperseded(after, id) ==> IsSuperseded(before, id)
    ensures forall p :: Replaces(after, id, p) ==> Replaces(before, id, p)
  {
    if id !in before || after[id] != before[id] {
      StepEvolves(s, before, after);
      var k := WriteOf(s, before, after, id);
      WriteNoLink(before, after, s.licence, id, s.request.mutations[k]);
    }
  }

  lemma WriteNoLink(before: Rows, after: Rows, licence: Licence, id: EntityId, m: Mutation)
    requires Evolved(before, after, licence) && IsFact(after, id) && m.entity == after[id]
             && (m.Insert? <==> id !in before)
    requires !Supersedes(m) && !LinksFact(m)
    ensures IsSuperseded(after, id) ==> IsSuperseded(before, id)
    ensures forall p :: Replaces(after, id, p) ==> Replaces(before, id, p)
  {
    assert RowChange(before, after, id, licence);
  }

  lemma LinkfulIsLink(s: Submission, before: Rows, after: Rows)
    requires Stepped(s, before, after) && Linkful(s.request.mutations)
    ensures |s.request.mutations| >= 2 && Link(before, after, s.request.mutations[1].entity.id,
                                               s.request.mutations[0].entity.id)
  {
    LinkNeedsLicence(s, before, after);
    var ms := s.request.mutations;
    LinkMutations(ms);
    LinkRows(s, before, after);
    forall id | IsFact(after, id) && id != ms[1].entity.id && id != ms[0].entity.id
      ensures id in before && after[id] == before[id]
    {
      OtherFactsKept(s, before, after, id);
    }
    LinkHolds(s, before, after, ms[0], ms[1]);
  }

  lemma LinkHolds(s: Submission, before: Rows, after: Rows, m: Mutation, n: Mutation)
    requires Supersedes(m) && LinksFact(n) && n.entity.body.fact.supersedes == Some(m.entity.id) && MayLink(s.licence)
    requires UpdatedRow(s, before, after, m)
    requires n.entity.id !in before && n.entity.id in after && after[n.entity.id] == n.entity
             && LawfulInsert(n.entity, s.licence)
    requires forall id :: IsFact(after, id) && id != n.entity.id && id != m.entity.id ==>
               id in before && after[id] == before[id]
    ensures Link(before, after, n.entity.id, m.entity.id)
  {
  }

  /** The two facts of a link around its commit. */
  lemma LinkRows(s: Submission, before: Rows, after: Rows)
    requires Stepped(s, before, after) && |s.request.mutations| >= 2
    requires Supersedes(s.request.mutations[0]) && LinksFact(s.request.mutations[1])
    ensures var m, n := s.request.mutations[0], s.request.mutations[1];
      && UpdatedRow(s, before, after, m)
      && n.entity.id !in before && n.entity.id in after && after[n.entity.id] == n.entity
        && LawfulInsert(n.entity, s.licence)
  {
    var ms := s.request.mutations;
    assert ms[0] in ms && ms[1] in ms;
    UpdatesRow(s, before, after, ms[0]);
    assert Lawful(s.view, ms[1], s.licence);
  }

  lemma OtherFactsKept(s: Submission, before: Rows, after: Rows, id: EntityId)
    requires Stepped(s, before, after) && IsFact(after, id)
    requires var ms := s.request.mutations;
             |ms| >= 2 && id != ms[0].entity.id && id != ms[1].entity.id
               && forall i :: 2 <= i < |ms| ==> !ms[i].entity.body.OfFact?
    ensures id in before && after[id] == before[id]
  {
    if id !in before || after[id] != before[id] {
      var k := WriteOf(s, before, after, id);
    }
  }

  lemma LinkMutations(ms: seq<Mutation>)
    requires LinkShape(ms) && Linkful(ms)
    ensures |ms| >= 2 && Supersedes(ms[0]) && LinksFact(ms[1])
            && ms[1].entity.body.fact.supersedes == Some(ms[0].entity.id)
    ensures forall i :: 2 <= i < |ms| ==> !ms[i].entity.body.OfFact?
  {
  }

  lemma LinksKept(before: Rows, after: Rows, licence: Licence)
    requires Evolved(before, after, licence)
    ensures forall id :: IsSuperseded(before, id) ==> IsSuperseded(after, id)
    ensures forall x, p :: Replaces(before, x, p) ==> Replaces(after, x, p)
    ensures forall x :: IsFact(before, x) && UserCorrection(before, x) ==> IsFact(after, x) && UserCorrection(after, x)
  {
    forall id | IsFact(before, id)
      ensures IsFact(after, id) && after[id].body.fact.supersedes == before[id].body.fact.supersedes
      ensures IsSuperseded(before, id) ==> IsSuperseded(after, id)
      ensures UserCorrection(before, id) ==> UserCorrection(after, id)
    {
      assert RowChange(before, after, id, licence);
    }
  }

  lemma LinkedByLink(before: Rows, after: Rows, licence: Licence, x: EntityId, p: EntityId)
    requires Evolved(before, after, licence) && Linked(before) && Link(before, after, x, p)
    ensures Linked(after)
  {
    LinksKept(before, after, licence);
    forall y, q | Replaces(after, y, q)
      ensures IsSuperseded(after, q) && UserCorrection(after, y) && (y == x || (Replaces(before, y, q) && q != p))
    {
    }
    forall q | IsSuperseded(after, q)
      ensures exists y :: Replaces(after, y, q)
    {
      if q == p {
        assert Replaces(after, x, q);
      } else {
        assert q != x && IsSuperseded(before, q);
        var y :| Replaces(before, y, q);
        assert Replaces(after, y, q);
      }
    }
  }

  lemma LinkedByNoLink(before: Rows, after: Rows, licence: Licence)
    requires Evolved(before, after, licence) && Linked(before) && NoLink(before, after)
    ensures Linked(after)
  {
    LinksKept(before, after, licence);
    forall p | IsSuperseded(after, p)
      ensures exists x :: Replaces(after, x, p)
    {
      var x :| Replaces(before, x, p);
      assert Replaces(after, x, p);
    }
  }

  lemma LinkedStep(s: Submission, before: Rows, after: Rows)
    requires Stepped(s, before, after) && Linked(before)
    ensures Linked(after)
  {
    StepEvolves(s, before, after);
    if Linkful(s.request.mutations) {
      LinkfulIsLink(s, before, after);
      LinkedByLink(before, after, s.licence, s.request.mutations[1].entity.id, s.request.mutations[0].entity.id);
    } else {
      forall id | IsFact(after, id)
        ensures IsSuperseded(after, id) ==> IsSuperseded(before, id)
        ensures forall p :: Replaces(after, id, p) ==> Replaces(before, id, p)
      {
        NoLinkAt(s, before, after, id);
      }
      LinkedByNoLink(before, after, s.licence);
    }
  }

  /** Every new fact is born after every old one. */
  lemma BirthStep(states: seq<Db>, after: Db, x: EntityId, p: EntityId)
    requires History(states) && p in states[|states| - 1].rows && x in after.rows
    ensures x !in states[|states| - 1].rows ==> Birth(states + [after], p) < Birth(states + [after], x)
    ensures x in states[|states| - 1].rows ==>
              Birth(states + [after], p) == Birth(states, p) && Birth(states + [after], x) == Birth(states, x)
  {
    assert (states + [after])[..|states|] == states;
    if x !in states[|states| - 1].rows && Birth(states, x) < |states| {
      BornStays(states, x);
    }
  }

  lemma OrderedStep(s: Submission, states: seq<Db>, after: Db)
    requires History(states) && Ordered(states)
    requires var before := states[|states| - 1]; Stepped(s, before.rows, after.rows) && Linked(before.rows)
    ensures Ordered(states + [after])
  {
    var before := states[|states| - 1];
    forall x, p | Replaces(after.rows, x, p)
      ensures Birth(states + [after], p) < Birth(states + [after], x)
    {
      PredecessorIsOld(s, before.rows, after.rows, x, p);
      BirthStep(states, after, x, p);
    }
  }

  lemma PredecessorIsOld(s: Submission, before: Rows, after: Rows, x: EntityId, p: EntityId)
    requires Stepped(s, before, after) && Linked(before) && Replaces(after, x, p)
    ensures p in before && (x in before ==> Replaces(before, x, p))
  {
    if Linkful(s.request.mutations) {
      LinkfulIsLink(s, before, after);
      LinkedPredecessor(before, after, s.request.mutations[1].entity.id, s.request.mutations[0].entity.id, x, p);
    } else {
      NoLinkAt(s, before, after, x);
    }
  }

  lemma LinkedPredecessor(before: Rows, after: Rows, latest: EntityId, replaced: EntityId, x: EntityId, p: EntityId)
    requires Linked(before) && Link(before, after, latest, replaced) && Replaces(after, x, p)
    ensures p in before && (x in before ==> Replaces(before, x, p))
  {
    if x != latest {
      assert Replaces(before, x, p);
    }
  }

  // ---------- runs ----------

  ghost predicate Chains(states: seq<Db>) { states != [] && Linked(states[|states| - 1].rows) && Ordered(states) }

  /**
   In every reachable state a fact is superseded exactly when one fact names it as
   predecessor, there is then only one, it is a confirmed correction by the user,
   and it was recorded in a later commit.
   */
  lemma {:induction false} FactsFormChains(run: Run, i: nat)
    requires ValidRun(run) && i < |run.states|
    ensures Chains(run.states[..i + 1])
  {
    if i == 0 {
      assert Linked(EMPTY.rows) && run.states[..1] == [EMPTY];
    } else {
      FactsFormChains(run, i - 1);
      ChainsAt(run, i - 1);
    }
  }

  lemma ChainsAt(run: Run, i: nat)
    requires ValidRun(run) && i < |run.submissions| && Chains(run.states[..i + 1])
    ensures Chains(run.states[..i + 2])
  {
    var states, after := run.states[..i + 1], run.states[i + 1];
    assert run.states[..i + 2] == states + [after];
    StepOfRun(run, i);
    RunIsHistory(run, i + 1);
    if Commits(run.states[i], run.submissions[i]) {
      LinkedStep(run.submissions[i], run.states[i].rows, after.rows);
      OrderedStep(run.submissions[i], states, after);
    } else {
      Waiting(states);
    }
  }

  /** A step that changes nothing. */
  lemma Waiting(states: seq<Db>)
    requires Chains(states)
    ensures Chains(states + [states[|states| - 1]])
  {
    var last := states[|states| - 1];
    assert (states + [last])[..|states|] == states;
    forall x, p | Replaces(last.rows, x, p)
      ensures Birth(states + [last], p) < Birth(states + [last], x)
    {
      assert IsSuperseded(last.rows, p);
    }
  }

  /** A chain of facts, each followed by the one it replaces. */
  ghost predicate Chain(rows: Rows, ids: seq<EntityId>) {
    && ids != [] && (forall k :: 0 <= k < |ids| ==> IsFact(rows, ids[k]))
    && forall k :: 0 <= k < |ids| - 1 ==> Replaces(rows, ids[k], ids[k + 1])
  }

  lemma {:induction false} ChainOrdered(states: seq<Db>, ids: seq<EntityId>, j: nat, k: nat)
    requires Chains(states) && Chain(states[|states| - 1].rows, ids) && j < k < |ids|
    ensures Birth(states, ids[k]) < Birth(states, ids[j])
    decreases k
  {
    assert Replaces(states[|states| - 1].rows, ids[k - 1], ids[k - 1 + 1]);
    if j < k - 1 {
      ChainOrdered(states, ids, j, k - 1);
    }
  }

  /** No chain meets itself. */
  ghost predicate Acyclic(rows: Rows) {
    forall ids :: Chain(rows, ids) ==> forall j, k :: 0 <= j < k < |ids| ==> ids[j] != ids[k]
  }

  lemma ChainsAreAcyclic(run: Run, i: nat)
    requires ValidRun(run) && i < |run.states|
    ensures Acyclic(run.states[i].rows)
  {
    FactsFormChains(run, i);
    forall ids, j, k | Chain(run.states[i].rows, ids) && 0 <= j < k < |ids|
      ensures ids[j] != ids[k]
    {
      ChainOrdered(run.states[..i + 1], ids, j, k);
    }
  }

  /** A chain down to `id` from a fact that nothing replaces. */
  ghost predicate HeadChain(rows: Rows, ids: seq<EntityId>, id: EntityId) {
    Chain(rows, ids) && ids[|ids| - 1] == id && !IsSuperseded(rows, ids[0])
  }

  lemma {:induction false} HeadExists(states: seq<Db>, id: EntityId)
    requires Chains(states) && IsFact(states[|states| - 1].rows, id)
    ensures var rows := states[|states| - 1].rows; exists ids :: HeadChain(rows, ids, id)
    decreases |states| - Birth(states, id)
  {
    var rows := states[|states| - 1].rows;
    if IsSuperseded(rows, id) {
      var next :| Replaces(rows, next, id);
      HeadExists(states, next);
      var ids :| HeadChain(rows, ids, next);
      assert HeadChain(rows, ids + [id], id);
    } else {
      assert HeadChain(rows, [id], id);
    }
  }

  lemma {:induction false} HeadUnique(rows: Rows, a: seq<EntityId>, b: seq<EntityId>, id: EntityId)
    requires Linked(rows) && HeadChain(rows, a, id) && HeadChain(rows, b, id)
    ensures a == b
    decreases |a|
  {
    var m, n := |a| - 1, |b| - 1;
    if m > 0 && n > 0 {
      assert Replaces(rows, a[m - 1], a[m - 1 + 1]) && Replaces(rows, b[n - 1], b[n - 1 + 1]);
      HeadUnique(rows, a[..m], b[..n], a[m - 1]);
      assert a == a[..m] + [id] && b == b[..n] + [id];
    } else {
      if m > 0 {
        EndSuperseded(rows, a);
      }
      if n > 0 {
        EndSuperseded(rows, b);
      }
    }
  }

  lemma EndSuperseded(rows: Rows, ids: seq<EntityId>)
    requires Linked(rows) && Chain(rows, ids) && |ids| > 1
    ensures IsSuperseded(rows, ids[|ids| - 1])
  {
    var n := |ids| - 1;
    assert Replaces(rows, ids[n - 1], ids[n - 1 + 1]);
  }

  /** In every reachable state each fact lies below exactly one live fact, along exactly one chain. */
  lemma OneLiveHead(run: Run, i: nat, id: EntityId)
    requires ValidRun(run) && i < |run.states| && IsFact(run.states[i].rows, id)
    ensures exists ids :: HeadChain(run.states[i].rows, ids, id)
    ensures forall a, b :: HeadChain(run.states[i].rows, a, id) && HeadChain(run.states[i].rows, b, id) ==> a == b
  {
    FactsFormChains(run, i);
    HeadExists(run.states[..i + 1], id);
    forall a, b | HeadChain(run.states[i].rows, a, id) && HeadChain(run.states[i].rows, b, id)
      ensures a == b
    {
      HeadUnique(run.states[i].rows, a, b, id);
    }
  }

  // ---------- the ancestry loop ----------

  ghost predicate ChainTo(rows: Rows, ids: seq<EntityId>, id: EntityId, ancestor: EntityId) {
    Chain(rows, ids) && |ids| >= 2 && ids[0] == id && ids[|ids| - 1] == ancestor
  }

  ghost predicate ProperAncestor(rows: Rows, ancestor: EntityId, id: EntityId) {
    exists ids :: ChainTo(rows, ids, id, ancestor)
  }

  lemma AncestorStep(rows: Rows, id: EntityId, previous: EntityId, ancestor: EntityId)
    requires Linked(rows) && Replaces(rows, id, previous)
    ensures ProperAncestor(rows, ancestor, id) <==> previous == ancestor || ProperAncestor(rows, ancestor, previous)
  {
    if previous == ancestor {
      assert ChainTo(rows, [id, previous], id, ancestor);
    }
    if ProperAncestor(rows, ancestor, previous) {
      var ids :| ChainTo(rows, ids, previous, ancestor);
      assert ChainTo(rows, [id] + ids, id, ancestor);
    }
    if ProperAncestor(rows, ancestor, id) && previous != ancestor {
      var ids :| ChainTo(rows, ids, id, ancestor);
      assert Replaces(rows, ids[0], ids[0 + 1]);
      assert ChainTo(rows, ids[1..], previous, ancestor);
    }
  }

  lemma DescendantCorrects(rows: Rows, ancestor: EntityId, id: EntityId)
    requires ProperAncestor(rows, ancestor, id)
    ensures IsFact(rows, id) && rows[id].body.fact.supersedes.Some?
  {
    var ids :| ChainTo(rows, ids, id, ancestor);
    assert Replaces(rows, ids[0], ids[0 + 1]);
  }

  /**
   The loop never fails, never sees a fact twice, and answers whether the rejected
   fact is a proper ancestor: every step it takes is a confirmed user correction.
   */
  lemma {:induction false} DescendsIsAncestry(states: seq<Db>, cursor: EntityId, rejected: EntityId,
                                              seen: set<EntityId>, corrected: bool)
    requires Chains(states) && IsFact(states[|states| - 1].rows, cursor)
    requires forall x :: x in seen ==> Birth(states, cursor) < Birth(states, x)
    ensures cursor !in seen
    ensures var rows := states[|states| - 1].rows;
      Descends(rows, cursor, rejected, seen, corrected) == Ok(ProperAncestor(rows, rejected, cursor))
    decreases Birth(states, cursor)
  {
    var rows := states[|states| - 1].rows;
    var f := rows[cursor].body.fact;
    if f.supersedes.None? {
      if ProperAncestor(rows, rejected, cursor) {
        DescendantCorrects(rows, rejected, cursor);
      }
    } else {
      var previous := f.supersedes.value;
      assert Replaces(rows, cursor, previous);
      AncestorStep(rows, cursor, previous, rejected);
      if previous != rejected {
        DescendsIsAncestry(states, previous, rejected, seen + {cursor}, true);
      }
    }
  }

  /**
   In every reachable state `isUserCorrectionDescendant` is exactly "the rejected fact is a
   proper ancestor of the candidate".
   */
  lemma CorrectionDescentIsAncestry(run: Run, i: nat, candidate: EntityId, rejected: EntityId)
    requires ValidRun(run) && i < |run.states| && IsFact(run.states[i].rows, candidate)
    ensures IsUserCorrectionDescendant(run.states[i].rows, Some(candidate), Some(rejected))
         == Ok(ProperAncestor(run.states[i].rows, rejected, candidate))
  {
    FactsFormChains(run, i);
    DescendsIsAncestry(run.states[..i + 1], candidate, rejected, {}, false);
  }
}
