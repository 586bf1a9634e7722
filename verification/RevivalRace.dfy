/**
 A rejection and an acceptance that race: two gaps with one claim are proposed, one is
 rejected, and the other is accepted on the evidence that was listed before.
 */
module RevivalRace {
  import opened Domain
  import opened Store
  import opened Listing
  import opened EvidenceRules
  import opened ProfileCommands
  import opened Revival
  import opened Workbench
  import opened Scripts

  const BY_USER := Context(User, None, None)
  const CLAIM := "no portfolio"

  function GapAs(decision: Decision): Body { OfEvidence(Evidence(Gap, CLAIM, None, None, None, None, decision)) }

  function Proposed(id: EntityId): Entity { Entity(id, 1, GapAs(EvidenceProposed)) }

  function Decided(id: EntityId, decision: Decision): Entity { Entity(id, 2, GapAs(decision)) }

  function ProposeGap(id: EntityId): Turn {
    Turn(Call(BY_USER, ProposeEvidence(id, Gap, CLAIM, None, None, None, None), true, 0, 0), 0,
         Request([Insert(Proposed(id))], [Event(id, 1, User)]), id, id)
  }

  /** A decision on the evidence of the state 2, in which both items are proposed. */
  function DecideGap(id: EntityId, accept: bool): Turn {
    Turn(Call(BY_USER, DecideEvidence(id, 1, accept), true, 0, 0), 2,
         Request([Update(Decided(id, if accept then Accepted else Rejected), 1)], [Event(id, 2, User)]), id + 2, id + 2)
  }

  const BOTH: Rows := map[1 := Proposed(1), 2 := Proposed(2)]
  const DB1 := Landed(EMPTY, ProposeGap(1), map[1 := Proposed(1)])
  const DB2 := Landed(DB1, ProposeGap(2), BOTH)
  const DB3 := Landed(DB2, DecideGap(1, false), map[1 := Decided(1, Rejected), 2 := Proposed(2)])
  const DB4 := Landed(DB3, DecideGap(2, true), map[1 := Decided(1, Rejected), 2 := Decided(2, Accepted)])

  const STATES := [EMPTY, DB1, DB2, DB3, DB4]
  const TURNS := [ProposeGap(1), ProposeGap(2), DecideGap(1, false), DecideGap(2, true)]

  ghost function RaceWork(): Work { WorkOf(TURNS, STATES) }

  // ---------- the calls ----------

  ghost predicate NothingRejected(rows: Rows) { forall id :: !IsRejected(rows, id) }

  lemma AcceptanceIsAllowed(rows: Rows, e: Evidence, source: Option<Source>, fact: Option<Fact>)
    requires NothingRejected(rows) && ValidateForAcceptance(e, source, fact).Pass?
    ensures AcceptanceAllowed(rows, e, source, fact).Ok?
  {
    var ids := ListIds(rows, EvidenceKind);
    forall id | id in ids
      ensures Tolerated(rows, id, e, source)
    {
      assert !IsRejected(rows, id);
    }
    NotRevivedMeans(rows, ids, e, source);
  }

  /** A proposed gap can be rejected, and where nothing was rejected it can be accepted. */
  lemma DecisionPlanned(rows: Rows, id: EntityId, accept: bool)
    requires id in rows && rows[id] == Proposed(id) && NothingRejected(rows)
    ensures PlanDecideEvidence(rows, BY_USER, id, 1, accept, true) == Ok(DecideGap(id, accept).request)
  {
    AcceptanceIsAllowed(rows, Proposed(id).body.evidence, None, None);
  }

  // ---------- the commits ----------

  lemma ProposalLands(i: nat)
    requires i < 2
    ensures Taken(STATES[i], TURNS[i]) == (STATES[i + 1], Committed)
  {
    OneCommits(STATES[i], TURNS[i], Insert(Proposed(i + 1)));
    assert EMPTY.rows[1 := Proposed(1)] == DB1.rows && DB1.rows[2 := Proposed(2)] == BOTH;
  }

  lemma DecisionLands(i: nat)
    requires i == 2 || i == 3
    ensures Taken(STATES[i], TURNS[i]) == (STATES[i + 1], Committed)
  {
    OneCommits(STATES[i], TURNS[i], Update(Decided(i - 1, if i == 3 then Accepted else Rejected), 1));
    assert BOTH[1 := Decided(1, Rejected)] == DB3.rows && DB3.rows[2 := Decided(2, Accepted)] == DB4.rows;
  }

  lemma ProposalTurn(plan: Planner, i: nat)
    requires PlansProposals(plan) && i < 2
    ensures plan(EMPTY.rows, TURNS[i].call) == Ok(TURNS[i].request)
  {
    assert ProposalPlan(EMPTY.rows, TURNS[i].call) == Ok(TURNS[i].request);
  }

  lemma DecisionTurn(plan: Planner, i: nat)
    requires PlansDecisions(plan) && (i == 2 || i == 3)
    ensures plan(BOTH, TURNS[i].call) == Ok(TURNS[i].request)
  {
    DecisionPlanned(BOTH, i - 1, i == 3);
    assert plan(BOTH, TURNS[i].call) == DecisionPlan(BOTH, TURNS[i].call);
  }

  lemma TurnPlays(plan: Planner, i: nat)
    requires i < 4 && plan(STATES[TURNS[i].seen].rows, TURNS[i].call) == Ok(TURNS[i].request)
    ensures Script(TURNS, STATES) && Plays(plan, TURNS, STATES, i)
  {
    if i < 2 {
      ProposalLands(i);
    } else {
      DecisionLands(i);
    }
  }

  // ---------- the race ----------

  /** The race is a run of the commands: four calls, each of which commits. */
  lemma RaceRuns(plan: Planner)
    requires PlansProposals(plan) && PlansDecisions(plan)
    ensures Script(TURNS, STATES) && ValidWork(plan, RaceWork())
  {
    forall i | 0 <= i < 4
      ensures Script(TURNS, STATES) && Plays(plan, TURNS, STATES, i)
    {
      if i < 2 {
        ProposalTurn(plan, i);
      } else {
        DecisionTurn(plan, i);
      }
      TurnPlays(plan, i);
    }
    PlainScriptIsWork(plan, TURNS, STATES);
  }

  lemma RaceIsListed()
    requires Script(TURNS, STATES)
    ensures EvidenceListed(RaceWork().run) && Listed(RaceWork().run, 3, 2)
  {
    var run := RaceWork().run;
    assert Listed(run, 2, 2) && Listed(run, 3, 2);
  }

  lemma RaceOutcome()
    requires Script(TURNS, STATES)
    ensures IsRejected(DB3.rows, 1) && !IsAccepted(DB3.rows, 2) && IsAccepted(DB4.rows, 2)
    ensures SameIdentity(DB4.rows, 1, 2) && !CorrectedSince(DB4.rows, 2, 1)
    ensures AcceptsUnaware(RaceWork().run, 3, 2, 1)
  {
  }

  /**
   What `Revival.RevivedOnlyByRace` leaves open does happen: item 1 is rejected in the
   state 3, item 2 is accepted after that, on the evidence of the state 2, although it
   has the identity of item 1 and nothing was corrected.
   */
  lemma RejectedEvidenceRevived(plan: Planner)
    requires PlansProposals(plan) && PlansDecisions(plan)
    ensures Script(TURNS, STATES) && ValidWork(plan, RaceWork()) && EvidenceListed(RaceWork().run)
    ensures IsRejected(DB3.rows, 1) && !IsAccepted(DB3.rows, 2) && IsAccepted(DB4.rows, 2)
    ensures SameIdentity(DB4.rows, 1, 2) && !CorrectedSince(DB4.rows, 2, 1)
    ensures Race(RaceWork().run, 3, 2, 3, 2, 1)
  {
    RaceRuns(plan);
    RaceIsListed();
    RaceOutcome();
  }
}
