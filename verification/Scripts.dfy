/**
 Runs written out turn by turn: who calls what, on which earlier state's rows, and
 what the store then holds. A script that plays is a run of the commands.
 */
module Scripts {
  import opened Domain
  import opened Store
  import opened Lifecycle
  import opened Runs
  import opened OperationCommands
  import opened Workbench

  // ---------- what the scripts need to know of a planner: it plans their commands as the plans of these say ----------

  ghost predicate PlansProposals(plan: Planner) {
    forall rows: Rows, call: Call :: call.command.ProposeEvidence? ==> plan(rows, call) == ProposalPlan(rows, call)
  }

  ghost predicate PlansDecisions(plan: Planner) {
    forall rows: Rows, call: Call :: call.command.DecideEvidence? ==> plan(rows, call) == DecisionPlan(rows, call)
  }

  ghost predicate PlansRecordings(plan: Planner) {
    forall rows: Rows, call: Call :: call.command.RecordLead? ==> plan(rows, call) == RecordingPlan(rows, call)
  }

  ghost predicate PlansOrdinary(plan: Planner) {
    forall rows: Rows, call: Call :: LicenceOf(call.command).Ordinary? ==> plan(rows, call) == PlanOrdinary(rows, call)
  }

  ghost predicate PlansComparisons(plan: Planner) {
    forall rows: Rows, call: Call :: call.command.ProposeComparison? ==> plan(rows, call) == ComparisonPlan(rows, call)
  }

  ghost predicate PlansCorrections(plan: Planner) {
    forall rows: Rows, call: Call :: call.command.CorrectFact? ==> plan(rows, call) == CascadePlan(rows, call)
  }

  ghost predicate PlansProfiling(plan: Planner) {
    forall rows: Rows, call: Call :: LicenceOf(call.command).Profiling? ==>
        plan(rows, call) == PlanProfiling(rows, call)
  }

  /** The planner of the commands. */
  ghost predicate PlansAll(plan: Planner) {
    && PlansProfiling(plan) && PlansProposals(plan) && PlansDecisions(plan) && PlansComparisons(plan)
    && PlansCorrections(plan) && PlansRecordings(plan) && PlansOperations(plan) && PlansCompletions(plan)
    && PlansOrdinary(plan)
  }

  lemma ProposalPlanned(rows: Rows, call: Call)
    requires call.command.ProposeEvidence?
    ensures Plan(rows, call) == ProposalPlan(rows, call)
  {
    assert LicenceOf(call.command) == Proposing;
    assert PlanOf(Proposing, rows, call) == ProposalPlan(rows, call);
  }

  lemma DecisionPlanned(rows: Rows, call: Call)
    requires call.command.DecideEvidence?
    ensures Plan(rows, call) == DecisionPlan(rows, call)
  {
    assert LicenceOf(call.command) == Deciding;
    assert PlanOf(Deciding, rows, call) == DecisionPlan(rows, call);
  }

  lemma ComparisonPlanned(rows: Rows, call: Call)
    requires call.command.ProposeComparison?
    ensures Plan(rows, call) == ComparisonPlan(rows, call)
  {
    assert LicenceOf(call.command) == Comparing;
    assert PlanOf(Comparing, rows, call) == ComparisonPlan(rows, call);
  }

  lemma CascadePlanned(rows: Rows, call: Call)
    requires call.command.CorrectFact?
    ensures Plan(rows, call) == CascadePlan(rows, call)
  {
    assert LicenceOf(call.command) == Cascading;
    assert PlanOf(Cascading, rows, call) == CascadePlan(rows, call);
  }

  lemma RecordingPlanned(rows: Rows, call: Call)
    requires call.command.RecordLead?
    ensures Plan(rows, call) == RecordingPlan(rows, call)
  {
    assert LicenceOf(call.command) == Recording;
    assert PlanOf(Recording, rows, call) == RecordingPlan(rows, call);
  }

  lemma OrdinaryPlanned(rows: Rows, call: Call)
    requires LicenceOf(call.command).Ordinary?
    ensures Plan(rows, call) == PlanOrdinary(rows, call)
  {
    assert LicenceOf(call.command) == Ordinary;
    assert PlanOf(Ordinary, rows, call) == PlanOrdinary(rows, call);
  }

  lemma ProfilingPlanned(rows: Rows, call: Call)
    requires LicenceOf(call.command).Profiling?
    ensures Plan(rows, call) == PlanProfiling(rows, call)
  {
    assert LicenceOf(call.command) == Profiling;
    assert PlanOf(Profiling, rows, call) == PlanProfiling(rows, call);
  }

  lemma PlanAgrees()
    ensures PlansAll(Plan)
  {
    PlanContinues();
    forall rows: Rows, call: Call | call.command.ProposeEvidence?
      ensures Plan(rows, call) == ProposalPlan(rows, call)
    {
      ProposalPlanned(rows, call);
    }
    forall rows: Rows, call: Call | call.command.DecideEvidence?
      ensures Plan(rows, call) == DecisionPlan(rows, call)
    {
      DecisionPlanned(rows, call);
    }
    forall rows: Rows, call: Call | call.command.ProposeComparison?
      ensures Plan(rows, call) == ComparisonPlan(rows, call)
    {
      ComparisonPlanned(rows, call);
    }
    forall rows: Rows, call: Call | call.command.CorrectFact?
      ensures Plan(rows, call) == CascadePlan(rows, call)
    {
      CascadePlanned(rows, call);
    }
    forall rows: Rows, call: Call | call.command.RecordLead?
      ensures Plan(rows, call) == RecordingPlan(rows, call)
    {
      RecordingPlanned(rows, call);
    }
    forall rows: Rows, call: Call | LicenceOf(call.command).Ordinary?
      ensures Plan(rows, call) == PlanOrdinary(rows, call)
    {
      OrdinaryPlanned(rows, call);
    }
    forall rows: Rows, call: Call | LicenceOf(call.command).Profiling?
      ensures Plan(rows, call) == PlanProfiling(rows, call)
    {
      ProfilingPlanned(rows, call);
    }
  }

  lemma PlannedAs(plan: Planner, rows: Rows, call: Call, r: Outcome<Request>)
    requires PlansOperations(plan) && LicenceOf(call.command).Operating? && PlanOperating(rows, call) == r
    ensures plan(rows, call) == r
  {
  }

  // ---------- scripts ----------

  /** A call that has read all its rows in the state `seen`, and what it then submits under which key and digest. */
  datatype Turn = Turn(call: Call, seen: nat, request: Request, key: nat, digest: nat)

  /** The store after a turn that commits and leaves these rows. */
  function Landed(db: Db, turn: Turn, rows: Rows): Db {
    Db(rows, db.log + turn.request.events,
       db.receipts[turn.key := Receipt(turn.digest, Written(turn.request.mutations))])
  }

  ghost predicate Script(turns: seq<Turn>, states: seq<Db>) {
    && |states| == |turns| + 1 && states[0] == EMPTY
    && forall i :: 0 <= i < |turns| ==> turns[i].seen <= i
  }

  /** The turns as a run. */
  ghost function WorkOf(turns: seq<Turn>, states: seq<Db>): Work
    requires Script(turns, states)
  {
    Work(Run(states, seq(|turns|, i requires 0 <= i < |turns| => SubmissionOf(turns[i], states))),
         seq(|turns|, i requires 0 <= i < |turns| => turns[i].call))
  }

  ghost function SubmissionOf(turn: Turn, states: seq<Db>): Submission
    requires turn.seen < |states|
  {
    Submission(states[turn.seen].rows, turn.request, LicenceOf(turn.call.command), turn.key, turn.digest)
  }

  /** What the store makes of a turn. */
  function Taken(db: Db, turn: Turn): (Db, Reply) { Transact(db, turn.key, turn.digest, turn.request) }

  /** The turn is planned on the rows that it has seen, and takes the store from one state to the next. */
  ghost predicate Steps(plan: Planner, turn: Turn, seen: Rows, before: Db, after: Db) {
    plan(seen, turn.call) == Ok(turn.request) && Taken(before, turn).0 == after
  }

  ghost predicate Plays(plan: Planner, turns: seq<Turn>, states: seq<Db>, i: nat)
    requires Script(turns, states) && i < |turns|
  {
    Steps(plan, turns[i], states[turns[i].seen].rows, states[i], states[i + 1])
  }

  ghost predicate AllPlay(plan: Planner, turns: seq<Turn>, states: seq<Db>) {
    Script(turns, states) && forall i :: 0 <= i < |turns| ==> Plays(plan, turns, states, i)
  }

  /** A request of one mutation commits if that mutation applies. */
  lemma OneCommits(db: Db, turn: Turn, m: Mutation)
    requires turn.request.mutations == [m] && |turn.request.events| == 1
    requires turn.key !in db.receipts && ApplyOne(db.rows, m).Ok?
    ensures Taken(db, turn) == (Landed(db, turn, ApplyOne(db.rows, m).value), Committed)
  {
    var ms := [m];
    assert ms[..0] == [] && ApplyAll(db.rows, ms[..0]) == Ok(db.rows);
  }

  lemma TwoApply(rows: Rows, m: Mutation, n: Mutation)
    requires ApplyOne(rows, m).Ok? && ApplyOne(ApplyOne(rows, m).value, n).Ok?
    ensures ApplyAll(rows, [m, n]) == ApplyOne(ApplyOne(rows, m).value, n)
  {
    var ms := [m, n];
    assert ms[..1] == [m] && [m][..0] == [] && ApplyAll(rows, [m][..0]) == Ok(rows);
    assert ApplyAll(rows, [m]) == ApplyOne(rows, m);
  }

  lemma NextApplies(rows: Rows, ms: seq<Mutation>, m: Mutation)
    requires ApplyAll(rows, ms).Ok?
    ensures ApplyAll(rows, ms + [m]) == ApplyOne(ApplyAll(rows, ms).value, m)
  {
    assert (ms + [m])[..|ms|] == ms;
  }

  ghost predicate Fits(rows: Rows, m: Mutation) {
    && m.Update? && m.entity.revision == m.expected + 1
    && m.entity.id in rows && SameKind(rows[m.entity.id], m.entity) && rows[m.entity.id].revision == m.expected
  }

  lemma FourApply(rows: Rows, a: Mutation, b: Mutation, c: Mutation, d: Mutation)
    requires Fits(rows, a) && Fits(rows, b) && Fits(rows, c) && Fits(rows, d)
    requires a.entity.id != b.entity.id && a.entity.id != c.entity.id && a.entity.id != d.entity.id
    requires b.entity.id != c.entity.id && b.entity.id != d.entity.id && c.entity.id != d.entity.id
    ensures ApplyAll(rows, [a, b, c, d])
         == Ok(rows[a.entity.id := a.entity][b.entity.id := b.entity][c.entity.id := c.entity][d.entity.id := d.entity])
  {
    TwoApply(rows, a, b);
    NextApplies(rows, [a, b], c);
    assert [a, b] + [c] == [a, b, c];
    NextApplies(rows, [a, b, c], d);
    assert [a, b, c] + [d] == [a, b, c, d];
  }

  lemma TwoCommit(db: Db, turn: Turn, m: Mutation, n: Mutation)
    requires turn.request.mutations == [m, n] && |turn.request.events| == 2 && turn.key !in db.receipts
    requires ApplyOne(db.rows, m).Ok? && ApplyOne(ApplyOne(db.rows, m).value, n).Ok?
    ensures Taken(db, turn) == (Landed(db, turn, ApplyOne(ApplyOne(db.rows, m).value, n).value), Committed)
  {
    TwoApply(db.rows, m, n);
  }

  lemma SnapshotIsStale(states: seq<Db>, t: nat)
    requires t < |states|
    ensures StaleView(states, states[t].rows)
  {
    assert forall id :: id in states[t].rows ==> SeenAt(states[t], states[t].rows, id);
  }

  lemma TurnFollows(turns: seq<Turn>, states: seq<Db>, i: nat)
    requires Script(turns, states) && i < |turns| && Taken(states[i], turns[i]).0 == states[i + 1]
    ensures Follows(WorkOf(turns, states).run, i)
  {
    var seen := turns[i].seen;
    assert states[..i + 1][seen] == states[seen];
    SnapshotIsStale(states[..i + 1], seen);
  }

  /** The turn gets its commit made or replayed, and goes on with `a`. */
  ghost predicate TurnAdmits(turn: Turn, seen: Rows, db: Db, a: Admission) {
    && turn.call.command.AdmitEvaluation? && AdmissionBy(seen, turn.call).Ok?
    && ContinuedWith(AdmissionBy(seen, turn.call).value, Taken(db, turn).1) == Ok(a)
  }

  ghost predicate TurnContinues(turns: seq<Turn>, states: seq<Db>, i: nat)
    requires Script(turns, states) && i < |turns|
  {
    Continues(turns[i].call.command) ==>
      var a := turns[i].call.command.admission;
      && AdmissionRead(states[turns[i].seen].rows, a)
      && exists k :: 0 <= k < i && TurnAdmits(turns[k], states[turns[k].seen].rows, states[k], a)
  }

  predicate DigestsDiffer(j: Turn, k: Turn) {
    k.call.command.AdmitEvaluation? && j.digest == k.digest ==> SameAdmission(j.call.command, k.call.command)
  }

  /** A script that plays, and goes on only from what was admitted before, is a run of the commands. */
  lemma ScriptIsWork(plan: Planner, turns: seq<Turn>, states: seq<Db>)
    requires AllPlay(plan, turns, states)
    requires forall i :: 0 <= i < |turns| ==> TurnContinues(turns, states, i)
    requires forall j, k :: j in turns && k in turns ==> DigestsDiffer(j, k)
    ensures ValidWork(plan, WorkOf(turns, states))
  {
    var work := WorkOf(turns, states);
    forall i | 0 <= i < |turns|
      ensures Follows(work.run, i) && Issued(plan, work, i) && ContinuationOk(work, i)
    {
      assert Plays(plan, turns, states, i) && TurnContinues(turns, states, i);
      TurnFollows(turns, states, i);
      ContinuationInWork(turns, states, i);
    }
    forall j, k | 0 <= j < |turns| && 0 <= k < |turns|
      ensures DigestTells(work, j, k)
    {
      assert turns[j] in turns && turns[k] in turns && DigestsDiffer(turns[j], turns[k]);
    }
  }

  lemma AdmissionInWork(turns: seq<Turn>, states: seq<Db>, k: nat, a: Admission)
    requires Script(turns, states) && k < |turns|
    ensures Admits(WorkOf(turns, states), k, a)
       <==> TurnAdmits(turns[k], states[turns[k].seen].rows, states[k], a)
  {
  }

  lemma ContinuationInWork(turns: seq<Turn>, states: seq<Db>, i: nat)
    requires Script(turns, states) && i < |turns| && TurnContinues(turns, states, i)
    ensures ContinuationOk(WorkOf(turns, states), i)
  {
    if Continues(turns[i].call.command) {
      var a := turns[i].call.command.admission;
      var k :| 0 <= k < i && TurnAdmits(turns[k], states[turns[k].seen].rows, states[k], a);
      AdmissionInWork(turns, states, k, a);
    }
  }

  /** No turn admits an evaluation or goes on with one. */
  predicate Plain(turns: seq<Turn>) {
    forall turn :: turn in turns ==> !turn.call.command.AdmitEvaluation? && !Continues(turn.call.command)
  }

  lemma PlainScriptIsWork(plan: Planner, turns: seq<Turn>, states: seq<Db>)
    requires AllPlay(plan, turns, states) && Plain(turns)
    ensures ValidWork(plan, WorkOf(turns, states))
  {
    assert forall i :: 0 <= i < |turns| ==> turns[i] in turns;
    ScriptIsWork(plan, turns, states);
  }

  // ---------- scripts told turn by turn ----------

  datatype Story = Story(turns: seq<Turn>, states: seq<Db>)

  const BEGINNING := Story([], [EMPTY])

  function Then(story: Story, turn: Turn, after: Db): Story { Story(story.turns + [turn], story.states + [after]) }

  ghost predicate Told(plan: Planner, story: Story) {
    && AllPlay(plan, story.turns, story.states)
    && forall i :: 0 <= i < |story.turns| ==> TurnContinues(story.turns, story.states, i)
  }

  /** The store as it is after so many turns. */
  ghost predicate Now(story: Story, turns: nat, db: Db) {
    |story.turns| == turns && |story.states| == turns + 1 && story.states[turns] == db
  }

  lemma Beginning(plan: Planner)
    ensures Told(plan, BEGINNING) && Now(BEGINNING, 0, EMPTY)
  {
  }

  /** A script that goes on. */
  ghost predicate GoesOn(story: Story, next: Story) {
    && Script(story.turns, story.states) && Script(next.turns, next.states)
    && |story.turns| <= |next.turns|
    && (forall i :: 0 <= i < |story.turns| ==> next.turns[i] == story.turns[i])
    && (forall i :: 0 <= i < |story.states| ==> next.states[i] == story.states[i])
  }

  lemma ThenGoesOn(story: Story, turn: Turn, after: Db)
    requires Script(story.turns, story.states) && turn.seen <= |story.turns|
    ensures GoesOn(story, Then(story, turn, after))
  {
  }

  lemma OldTurn(plan: Planner, story: Story, next: Story, i: nat)
    requires Told(plan, story) && GoesOn(story, next) && i < |story.turns|
    ensures Plays(plan, next.turns, next.states, i) && TurnContinues(next.turns, next.states, i)
  {
    assert Plays(plan, story.turns, story.states, i) && TurnContinues(story.turns, story.states, i);
    if Continues(story.turns[i].call.command) {
      var a := story.turns[i].call.command.admission;
      var k :| 0 <= k < i && TurnAdmits(story.turns[k], story.states[story.turns[k].seen].rows, story.states[k], a);
      AdmittedInStory(story, next, k, a);
    }
  }

  /** The turn `k` of the story goes on with the admission. */
  ghost predicate Admitted(story: Story, k: nat, a: Admission)
    requires Script(story.turns, story.states)
  {
    k < |story.turns| && TurnAdmits(story.turns[k], story.states[story.turns[k].seen].rows, story.states[k], a)
  }

  lemma AdmittedInStory(story: Story, next: Story, k: nat, a: Admission)
    requires GoesOn(story, next) && Admitted(story, k, a)
    ensures Admitted(next, k, a)
  {
  }

  /** The rows that a turn of the story reads. */
  ghost predicate Reads(story: Story, seen: nat, read: Rows) {
    seen < |story.states| && story.states[seen].rows == read
  }

  /** One more turn; if it goes on with an admission, that is of the turn `k`. */
  lemma NextTurn(plan: Planner, story: Story, turn: Turn, read: Rows, now: Db, after: Db, k: nat)
    requires Told(plan, story) && Now(story, |story.turns|, now) && Reads(story, turn.seen, read)
    requires Steps(plan, turn, read, now, after)
    requires Continues(turn.call.command) ==>
               AdmissionRead(read, turn.call.command.admission) && Admitted(story, k, turn.call.command.admission)
    ensures Told(plan, Then(story, turn, after)) && Now(Then(story, turn, after), |story.turns| + 1, after)
  {
    var next := Then(story, turn, after);
    ThenGoesOn(story, turn, after);
    forall i | 0 <= i < |next.turns|
      ensures Plays(plan, next.turns, next.states, i) && TurnContinues(next.turns, next.states, i)
    {
      if i < |story.turns| {
        OldTurn(plan, story, next, i);
      } else {
        LastTurn(plan, story, turn, read, now, after, k);
      }
    }
  }

  lemma NextContinuation(plan: Planner, story: Story, turn: Turn, now: Db, after: Db, k: nat, a: Admission)
    requires Told(plan, story) && Now(story, turn.seen, now) && Steps(plan, turn, now.rows, now, after)
    requires Continues(turn.call.command) && turn.call.command.admission == a
    requires AdmissionRead(now.rows, a) && Admitted(story, k, a)
    ensures Told(plan, Then(story, turn, after)) && Now(Then(story, turn, after), turn.seen + 1, after)
  {
    NextTurn(plan, story, turn, now.rows, now, after, k);
  }

  lemma LastTurn(plan: Planner, story: Story, turn: Turn, read: Rows, now: Db, after: Db, k: nat)
    requires Told(plan, story) && Now(story, |story.turns|, now) && Reads(story, turn.seen, read)
    requires Steps(plan, turn, read, now, after)
    requires Continues(turn.call.command) ==>
               AdmissionRead(read, turn.call.command.admission) && Admitted(story, k, turn.call.command.admission)
    ensures var next := Then(story, turn, after);
      && Script(next.turns, next.states) && Plays(plan, next.turns, next.states, |story.turns|)
      && TurnContinues(next.turns, next.states, |story.turns|)
  {
    ThenGoesOn(story, turn, after);
    if Continues(turn.call.command) {
      AdmittedInStory(story, Then(story, turn, after), k, turn.call.command.admission);
    }
  }

  lemma LastAdmits(story: Story, turn: Turn, now: Db, after: Db, a: Admission)
    requires Script(story.turns, story.states) && Now(story, turn.seen, now) && TurnAdmits(turn, now.rows, now, a)
    ensures Script(Then(story, turn, after).turns, Then(story, turn, after).states)
    ensures Admitted(Then(story, turn, after), turn.seen, a)
  {
    ThenGoesOn(story, turn, after);
  }

  /** Told so far, by turns whose digests are their numbers, so that no two of them have one digest. */
  ghost predicate Telling(plan: Planner, story: Story, turns: nat, now: Db) {
    && Told(plan, story) && Now(story, turns, now)
    && forall i :: 0 <= i < turns ==> story.turns[i].digest == i
  }

  lemma Tell(plan: Planner, story: Story, turn: Turn, now: Db, after: Db)
    requires Telling(plan, story, turn.seen, now) && turn.digest == turn.seen
    requires Steps(plan, turn, now.rows, now, after) && !Continues(turn.call.command)
    ensures Telling(plan, Then(story, turn, after), turn.seen + 1, after)
  {
    NextTurn(plan, story, turn, now.rows, now, after, 0);
  }

  /** A turn that has read an earlier state. */
  lemma TellLate(plan: Planner, story: Story, turn: Turn, turns: nat, read: Rows, now: Db, after: Db)
    requires Telling(plan, story, turns, now) && turn.digest == turns && Reads(story, turn.seen, read)
    requires Steps(plan, turn, read, now, after) && !Continues(turn.call.command)
    ensures Telling(plan, Then(story, turn, after), turns + 1, after)
  {
    NextTurn(plan, story, turn, read, now, after, 0);
  }

  /** Two turns that have read the same state. */
  lemma TellBoth(plan: Planner, story: Story, first: Turn, second: Turn, db: Db)
    returns (next: Story, mid: Db, end: Db)
    requires Telling(plan, story, first.seen, db) && !Continues(first.call.command) && !Continues(second.call.command)
    requires first.digest == first.seen == second.seen && second.digest == first.seen + 1
    requires plan(db.rows, first.call) == Ok(first.request) && plan(db.rows, second.call) == Ok(second.request)
    ensures mid == Taken(db, first).0 && end == Taken(mid, second).0
    ensures Telling(plan, next, first.seen + 2, end)
    ensures next.states[first.seen..] == [db, mid, end] && next.turns[first.seen..] == [first, second]
  {
    mid := Taken(db, first).0;
    end := Taken(mid, second).0;
    Tell(plan, story, first, db, mid);
    var between := Then(story, first, mid);
    TellLate(plan, between, second, first.seen + 1, db.rows, mid, end);
    next := Then(between, second, end);
  }

  lemma TellContinuation(plan: Planner, story: Story, turn: Turn, now: Db, after: Db, k: nat, a: Admission)
    requires Telling(plan, story, turn.seen, now) && turn.digest == turn.seen
    requires Steps(plan, turn, now.rows, now, after)
    requires Continues(turn.call.command) && turn.call.command.admission == a
    requires AdmissionRead(now.rows, a) && Admitted(story, k, a)
    ensures Telling(plan, Then(story, turn, after), turn.seen + 1, after)
  {
    NextContinuation(plan, story, turn, now, after, k, a);
  }

  lemma DigestsAreNumbers(plan: Planner, story: Story, turns: nat, now: Db)
    requires Telling(plan, story, turns, now)
    ensures forall j, k :: j in story.turns && k in story.turns ==> DigestsDiffer(j, k)
  {
    forall j, k | j in story.turns && k in story.turns && j.digest == k.digest
      ensures j == k
    {
      var x :| 0 <= x < turns && story.turns[x] == j;
      var y :| 0 <= y < turns && story.turns[y] == k;
    }
  }

  lemma StoryIsWork(plan: Planner, story: Story, turns: nat, now: Db)
    requires Telling(plan, story, turns, now)
    ensures ValidWork(plan, WorkOf(story.turns, story.states))
  {
    DigestsAreNumbers(plan, story, turns, now);
    ScriptIsWork(plan, story.turns, story.states);
  }
}
