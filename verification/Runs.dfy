/**
 Runs of the store under sound submissions, whatever commands make them.

 With interleaving, each row of a submission's view was read at some earlier
 moment, possibly a different one for each row, and any commits may have come
 between. In a serial run every view is the current state.
 */
module Runs {
  import opened Domain
  import opened Store
  import opened Lifecycle

  /** `view` is what was read; `key` and `digest` are the idempotency key and the command digest. */
  datatype Submission = Submission(view: Rows, request: Request, licence: Licence, key: nat, digest: nat)

  function After(db: Db, s: Submission): Db { Transact(db, s.key, s.digest, s.request).0 }

  predicate Commits(db: Db, s: Submission) { Transact(db, s.key, s.digest, s.request).1 == Committed }

  /** `states[i + 1]` is the state that `submissions[i]` leaves behind. */
  datatype Run = Run(states: seq<Db>, submissions: seq<Submission>)

  ghost predicate Chained(run: Run) {
    && |run.states| == |run.submissions| + 1
    && run.states[0] == EMPTY
    && forall i :: 0 <= i < |run.submissions| ==> Follows(run, i)
  }

  ghost predicate Follows(run: Run, i: nat)
    requires i < |run.submissions| < |run.states|
  {
    && run.states[i + 1] == After(run.states[i], run.submissions[i])
    && StaleView(run.states[..i + 1], run.submissions[i].view)
  }

  ghost predicate ValidRun(run: Run) {
    && Chained(run)
    && forall s :: s in run.submissions ==> Sound(s.view, Ok(s.request), s.licence)
  }

  ghost predicate Serial(run: Run) {
    |run.submissions| < |run.states| && forall i :: 0 <= i < |run.submissions| ==>
        run.submissions[i].view == run.states[i].rows
  }

  lemma RunIsHistory(run: Run, n: nat)
    requires Chained(run) && 0 < n <= |run.states|
    ensures History(run.states[..n])
  {
    forall i | 0 <= i < n - 1
      ensures Transacted(run.states[..n][i], run.states[..n][i + 1])
    {
      assert Follows(run, i);
    }
  }

  /** What a committed submission was and did: `before` and `after` are the rows around its commit. */
  ghost predicate Stepped(s: Submission, before: Rows, after: Rows) {
    && Behind(s.view, before) && Keyed(s.view) && Keyed(before) && Keyed(after)
    && SoundRequest(s.view, s.request, s.licence)
    && Effect(s.view, s.request.mutations, before, after)
    && IdsDistinct(s.request.mutations)
  }

  /**
   Optimistic concurrency over whole runs: whatever was interleaved, a submission
   that commits finds every row it updates exactly as it was read, inserts only
   new rows, and changes no other row; one that does not commit changes nothing.
   */
  lemma {:induction false} StepOfRun(run: Run, i: nat)
    requires ValidRun(run) && i < |run.submissions|
    ensures Keyed(run.states[i].rows)
    ensures if Commits(run.states[i], run.submissions[i])
            then Stepped(run.submissions[i], run.states[i].rows, run.states[i + 1].rows)
                 && run.states[i + 1].log == run.states[i].log + run.submissions[i].request.events
            else run.states[i + 1] == run.states[i]
    decreases i, 1
  {
    var db, s := run.states[i], run.submissions[i];
    assert Follows(run, i);
    ViewOfRun(run, i);
    KeyedRun(run, i);
    if Commits(db, s) {
      assert Sound(s.view, Ok(s.request), s.licence);
      CommitEffect(s.view, db, s.key, s.digest, s.request);
      CommitKeyed(s.view, db, s.key, s.digest, s.request);
    }
  }

  lemma {:induction false} KeyedRun(run: Run, i: nat)
    requires ValidRun(run) && i < |run.states|
    ensures Keyed(run.states[i].rows)
    decreases i, 0
  {
    if i > 0 {
      StepOfRun(run, i - 1);
    }
  }

  lemma {:induction false} ViewOfRun(run: Run, i: nat)
    requires ValidRun(run) && i < |run.submissions|
    ensures Keyed(run.submissions[i].view) && Behind(run.submissions[i].view, run.states[i].rows)
    decreases i, 1, 0
  {
    assert Follows(run, i);
    var view := run.submissions[i].view;
    RunIsHistory(run, i + 1);
    StaleViewBehind(run.states[..i + 1], view);
    forall id | id in view
      ensures view[id].id == id && view[id].revision >= 1
    {
      var t :| 0 <= t < |run.states[..i + 1]| && SeenAt(run.states[..i + 1][t], view, id);
      KeyedRun(run, t);
    }
  }

  /** A commit whose request is truthful. */
  ghost predicate TruthfulAt(run: Run, i: nat)
    requires i < |run.submissions| < |run.states|
  {
    Commits(run.states[i], run.submissions[i]) ==> Truthful(run.submissions[i].request)
  }

  lemma StepAccounted(run: Run, i: nat)
    requires ValidRun(run) && i < |run.submissions| && TruthfulAt(run, i)
    requires Accounted(run.states[i].rows, run.states[i].log)
    ensures Accounted(run.states[i + 1].rows, run.states[i + 1].log)
  {
    var db, s := run.states[i], run.submissions[i];
    StepOfRun(run, i);
    if Commits(db, s) {
      assert Follows(run, i);
      CommitAccounted(s.view, db, s.key, s.digest, s.request);
    }
  }

  /**
   After truthful commits the events of each identity carry revisions 1, 2, ..., n, with n the
   stored revision. Every commit is truthful but those of completions under a replayed admission.
   */
  lemma {:induction false} LogAccountsForState(run: Run, i: nat)
    requires ValidRun(run) && i < |run.states| && forall j :: 0 <= j < i ==> TruthfulAt(run, j)
    ensures Accounted(run.states[i].rows, run.states[i].log)
  {
    if i > 0 {
      LogAccountsForState(run, i - 1);
      StepAccounted(run, i - 1);
    }
  }

  /** A receipt was left by the commit that its key had. */
  lemma {:induction false} ReceiptOrigin(run: Run, i: nat, key: nat) returns (j: nat)
    requires Chained(run) && i < |run.states| && key in run.states[i].receipts
    ensures j < i && Commits(run.states[j], run.submissions[j]) && run.submissions[j].key == key
    ensures var s := run.submissions[j];
      run.states[i].receipts[key] == Receipt(s.digest, Written(s.request.mutations))
  {
    assert i > 0 && Follows(run, i - 1);
    if Commits(run.states[i - 1], run.submissions[i - 1]) && run.submissions[i - 1].key == key {
      j := i - 1;
    } else {
      j := ReceiptOrigin(run, i - 1, key);
    }
  }

  /** The records that completing an evaluation writes. */
  predicate OfEvaluationWork(body: Body) {
    body.OfEvaluation? || body.OfOperation? || body.OfOpportunity? || body.OfRubric?
  }

  /** The mutation that wrote a row which the commit changed, and its event. */
  lemma WriteOf(s: Submission, before: Rows, after: Rows, id: EntityId) returns (k: nat)
    requires Stepped(s, before, after) && id in after && (id !in before || after[id] != before[id])
    ensures k < |s.request.mutations| == |s.request.events|
    ensures s.request.mutations[k].entity == after[id] && after[id].id == id
            && s.request.mutations[k] in s.request.mutations
    ensures s.request.mutations[k].Insert? <==> id !in before
    ensures Lawful(s.view, s.request.mutations[k], s.licence) && Attributed(s.request)
    ensures Truthful(s.request) || OfEvaluationWork(after[id].body)
    ensures Truthful(s.request) ==>
              s.request.events[k].aggregate == id && s.request.events[k].revision == after[id].revision
  {
    var ms := s.request.mutations;
    assert id in Touched(ms);
    k :| 0 <= k < |ms| && ms[k].entity.id == id;
    assert ms[k] in ms;
  }

  /** An update that was committed: the row was as it was read, and is now as asked. */
  ghost predicate UpdatedRow(s: Submission, before: Rows, after: Rows, m: Mutation) {
    var id := m.entity.id;
    && m.Update? && id in s.view && id in before && before[id] == s.view[id] && id in after && after[id] == m.entity
    && SameKind(before[id], after[id]) && before[id].revision == m.expected && after[id].revision == m.expected + 1
    && LawfulUpdate(before[id], after[id], s.licence)
  }

  lemma UpdatesRow(s: Submission, before: Rows, after: Rows, m: Mutation)
    requires Stepped(s, before, after) && m in s.request.mutations && m.Update?
    ensures UpdatedRow(s, before, after, m)
  {
    assert Lawful(s.view, m, s.licence) && FromView(s.view, m);
  }

  /** A row around a commit: new at revision 1, unchanged, or one revision further by a change its life cycle allows. */
  ghost predicate RowChange(before: Rows, after: Rows, id: EntityId, licence: Licence)
    requires id in after
  {
    if id !in before then after[id].revision == 1 && LawfulInsert(after[id], licence)
    else
      && SameKind(before[id], after[id])
      && (after[id] == before[id]
          || (after[id].revision == before[id].revision + 1 && LawfulUpdate(before[id], after[id], licence)))
  }

  ghost predicate Evolved(before: Rows, after: Rows, licence: Licence) {
    && (forall id :: id in before ==> id in after)
    && (forall id :: id in after ==> RowChange(before, after, id, licence))
  }

  lemma StepEvolves(s: Submission, before: Rows, after: Rows)
    requires Stepped(s, before, after)
    ensures Evolved(before, after, s.licence)
  {
    var ms := s.request.mutations;
    forall id | id in after
      ensures RowChange(before, after, id, s.licence)
    {
      if id in Touched(ms) {
        var m :| m in ms && m.entity.id == id;
        assert Lawful(s.view, m, s.licence) && FromView(s.view, m);
      }
    }
  }

  /** Between any two consecutive states of any run every row is new, unchanged, or changed as its life cycle allows. */
  lemma RowsChangeLawfully(run: Run, i: nat)
    requires ValidRun(run) && i < |run.submissions|
    ensures run.states[i + 1] == run.states[i]
            || (Commits(run.states[i], run.submissions[i])
                && Evolved(run.states[i].rows, run.states[i + 1].rows, run.submissions[i].licence))
  {
    StepOfRun(run, i);
    if Commits(run.states[i], run.submissions[i]) {
      StepEvolves(run.submissions[i], run.states[i].rows, run.states[i + 1].rows);
    }
  }
}
