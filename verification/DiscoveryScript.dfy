/**
 A discovery operation from its admission on, and two ways to go on: its session
 settles it before it was ever started, or two overlapping calls record one posting
 each under the same URL.
 */
module DiscoveryScript {
  import opened Domain
  import opened Store
  import opened Listing
  import opened OperationCommands
  import opened Workbench
  import opened Scripts

  const BY_USER := Context(User, None, None)
  const BY_SESSION := Context(DshAgent, Some(2), Some(7))

  const PROFILE := Entity(1, 1, OfSearchProfile(SearchProfile("remote", true)))

  /** The operation 2 of the session 7, on the profile 1. */
  function Search(revision: nat, state: OperationState, startedAt: Option<Timestamp>, at: Timestamp,
                  terminalAt: Option<Timestamp>): Entity {
    Entity(2, revision, OfOperation(Operation(
      JobDiscovery, Some(1), Some(1), Some(OfRecord(PROFILE)), Some(7), None, state, OrdinaryDsh, startedAt, at,
        terminalAt, [], [], None)))
  }

  const QUEUED := Search(1, Queued, None, 3, None)
  const SUCCEEDED := Search(2, Succeeded, None, 5, Some(5))

  const UPSERT := Turn(Call(BY_USER, UpsertSearchProfile(1, None, PROFILE.body.profile), true, 0, 0), 0,
                       Request([Insert(PROFILE)], [Event(1, 1, User)]), 1, 1)
  const ADMIT := Turn(Call(BY_SESSION, AdmitOperation(2, JobDiscovery, 1, OrdinaryDsh, 7, None), true, 3, 3), 1,
                      Request([Insert(QUEUED)], [Event(2, 1, DshAgent)]), 2, 2)
  const SETTLE := Turn(Call(BY_SESSION, Terminate(2, 1, Succeeded, [], []), true, 5, 5), 2,
                       Request([Update(SUCCEEDED, 1)], [Event(2, 2, DshAgent)]), 3, 3)

  const DB1 := Landed(EMPTY, UPSERT, map[1 := PROFILE])
  const DB2 := Landed(DB1, ADMIT, map[1 := PROFILE, 2 := QUEUED])
  const DB3 := Landed(DB2, SETTLE, map[1 := PROFILE, 2 := SUCCEEDED])

  const STATES := [EMPTY, DB1, DB2, DB3]
  const TURNS := [UPSERT, ADMIT, SETTLE]

  // ---------- the calls ----------

  lemma UpsertPlanned(plan: Planner)
    requires PlansOrdinary(plan)
    ensures plan(EMPTY.rows, UPSERT.call) == Ok(UPSERT.request)
  {
    assert ListIds(EMPTY.rows, SearchProfileKind) == [];
    assert plan(EMPTY.rows, UPSERT.call) == PlanOrdinary(EMPTY.rows, UPSERT.call);
  }

  lemma AdmissionPlanned(plan: Planner)
    requires PlansOperations(plan)
    ensures plan(DB1.rows, ADMIT.call) == Ok(ADMIT.request)
  {
    assert plan(DB1.rows, ADMIT.call) == PlanOperating(DB1.rows, ADMIT.call);
  }

  lemma SettlementPlanned(plan: Planner)
    requires PlansOperations(plan)
    ensures plan(DB2.rows, SETTLE.call) == Ok(SETTLE.request)
  {
    assert AuthorizeOperation(DB2.rows, BY_SESSION, 2) == Ok(QUEUED);
    assert plan(DB2.rows, SETTLE.call) == PlanOperating(DB2.rows, SETTLE.call);
  }

  // ---------- the commits ----------

  lemma AdmissionLands()
    ensures Taken(EMPTY, UPSERT) == (DB1, Committed)
    ensures Taken(DB1, ADMIT) == (DB2, Committed)
  {
    OneCommits(EMPTY, UPSERT, Insert(PROFILE));
    assert EMPTY.rows[1 := PROFILE] == DB1.rows;
    OneCommits(DB1, ADMIT, Insert(QUEUED));
    assert DB1.rows[2 := QUEUED] == DB2.rows;
  }

  lemma SettlementLands()
    ensures Taken(DB2, SETTLE) == (DB3, Committed)
  {
    OneCommits(DB2, SETTLE, Update(SUCCEEDED, 1));
    assert DB2.rows[2 := SUCCEEDED] == DB3.rows;
  }

  lemma TurnPlays(plan: Planner, i: nat)
    requires i < 3 && plan(STATES[TURNS[i].seen].rows, TURNS[i].call) == Ok(TURNS[i].request)
    ensures Script(TURNS, STATES) && Plays(plan, TURNS, STATES, i)
  {
    AdmissionLands();
    SettlementLands();
  }

  /** An admitted operation that was never started is settled as succeeded, which is no edge of the graph. */
  lemma QueuedCanSucceed(plan: Planner)
    requires PlansOrdinary(plan) && PlansOperations(plan)
    ensures Script(TURNS, STATES) && ValidWork(plan, WorkOf(TURNS, STATES))
    ensures DB2.rows[2] == QUEUED && DB3.rows[2] == SUCCEEDED && !OperationEdge(Queued, Succeeded)
  {
    forall i | 0 <= i < 3
      ensures Script(TURNS, STATES) && Plays(plan, TURNS, STATES, i)
    {
      if i == 0 {
        UpsertPlanned(plan);
      } else if i == 1 {
        AdmissionPlanned(plan);
      } else {
        SettlementPlanned(plan);
      }
      TurnPlays(plan, i);
    }
    PlainScriptIsWork(plan, TURNS, STATES);
  }
}
