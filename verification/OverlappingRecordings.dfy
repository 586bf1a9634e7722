/**
 Two recordings of one operation that overlap: each has read the leads before the
 other has committed, and both record a posting under the same URL.
 */
module OverlappingRecordings {
  import opened Domain
  import opened Store
  import opened ProfileCommands
  import opened OperationCommands
  import opened DiscoveryCommands
  import opened Quotas
  import opened Workbench
  import opened Scripts
  import opened DiscoveryScript

  const URL := NormalUrl("https://jobs.example/1", "jobs.example")
  const FOUND := LeadInput("Example", Some(URL), "p", None, true)
  const POSTING := InlineSource(OpportunitySource, External, "p", None, false)

  const RUNNING := Search(2, Running, Some(4), 4, None)

  function Recorded(source: EntityId): Lead {
    Lead(source, TextDigest("p"), 2, "Example", URL.text, URL.host, None, LeadNew, None)
  }

  const START := Turn(Call(BY_SESSION, StartOperation(2), true, 4, 4), 2,
                      Request([Update(RUNNING, 1)], [Event(2, 2, DshAgent)]), 3, 3)

  /** A recording on the rows of the state 3, in which the operation has just been started. */
  function Record(source: EntityId, lead: EntityId): Turn {
    Turn(Call(BY_SESSION, RecordLead(source, lead, FOUND), true, 6, 6), 3,
         Request([Insert(Entity(source, 1, OfSource(POSTING))), Insert(Entity(lead, 1, OfLead(Recorded(source))))],
                 [Event(source, 1, DshAgent), Event(lead, 1, DshAgent)]), lead, lead)
  }

  const STARTED := Landed(DB2, START, map[1 := PROFILE, 2 := RUNNING])

  function With(db: Db, source: EntityId, lead: EntityId): Db {
    Landed(db, Record(source, lead),
           db.rows[source := Entity(source, 1, OfSource(POSTING))][lead := Entity(lead, 1, OfLead(Recorded(source)))])
  }

  const ONCE := With(STARTED, 3, 4)
  const TWICE := With(ONCE, 5, 6)

  const OVERLAP_STATES := [EMPTY, DB1, DB2, STARTED, ONCE, TWICE]
  const OVERLAP := [UPSERT, ADMIT, START, Record(3, 4), Record(5, 6)]

  // ---------- the calls ----------

  lemma StartPlanned(plan: Planner)
    requires PlansOperations(plan)
    ensures plan(DB2.rows, START.call) == Ok(START.request)
  {
    assert plan(DB2.rows, START.call) == PlanOperating(DB2.rows, START.call);
  }

  lemma EmptyHasRoom(rows: Rows, operation: EntityId, host: string)
    requires forall id :: id in rows ==> !rows[id].body.OfLead? && !rows[id].body.OfSource?
    ensures WithinQuotas(rows, operation, host, None, 1)
  {
    assert LeadsOf(rows, operation) == {} && Leads(rows) == {} && ExternalPostings(rows) == {};
    assert OnHost(rows, {}, host) == {};
  }

  lemma OperationIsRunning()
    ensures DiscoveryAuthority(STARTED.rows, BY_SESSION) == Ok(2)
  {
    assert AuthorizeOperation(STARTED.rows, BY_SESSION, 2) == Ok(RUNNING);
  }

  lemma RecordingPlanned(plan: Planner, source: EntityId, lead: EntityId)
    requires PlansRecordings(plan)
    ensures plan(STARTED.rows, Record(source, lead).call) == Ok(Record(source, lead).request)
  {
    OperationIsRunning();
    EmptyHasRoom(STARTED.rows, 2, URL.host);
    assert Utf8("p") == ['p' as nat];
    var call := Record(source, lead).call;
    assert plan(STARTED.rows, call) == RecordingPlan(STARTED.rows, call);
  }

  // ---------- the commits ----------

  lemma StartLands()
    ensures Taken(DB2, START) == (STARTED, Committed)
  {
    OneCommits(DB2, START, Update(RUNNING, 1));
    assert DB2.rows[2 := RUNNING] == STARTED.rows;
  }

  lemma RecordingLands(db: Db, source: EntityId, lead: EntityId)
    requires source !in db.rows && lead !in db.rows && source != lead && lead !in db.receipts
    ensures Taken(db, Record(source, lead)) == (With(db, source, lead), Committed)
  {
    var r := Record(source, lead).request;
    TwoCommit(db, Record(source, lead), r.mutations[0], r.mutations[1]);
  }

  lemma OverlapTurnPlays(plan: Planner, i: nat)
    requires i < 5 && plan(OVERLAP_STATES[OVERLAP[i].seen].rows, OVERLAP[i].call) == Ok(OVERLAP[i].request)
    ensures Script(OVERLAP, OVERLAP_STATES) && Plays(plan, OVERLAP, OVERLAP_STATES, i)
  {
    AdmissionLands();
    StartLands();
    RecordingLands(STARTED, 3, 4);
    RecordingLands(ONCE, 5, 6);
  }

  /** The overlap is a run of the commands, and leaves two leads with one URL. */
  lemma OverlapDuplicates(plan: Planner)
    requires PlansOrdinary(plan) && PlansOperations(plan) && PlansRecordings(plan)
    ensures Script(OVERLAP, OVERLAP_STATES) && ValidWork(plan, WorkOf(OVERLAP, OVERLAP_STATES))
    ensures HasUrl(TWICE.rows, URL.text, 4) && HasUrl(TWICE.rows, URL.text, 6) && !Within(TWICE.rows)
    ensures !RoomAtCommit(Record(5, 6).request, ONCE.rows)
  {
    forall i | 0 <= i < 5
      ensures Script(OVERLAP, OVERLAP_STATES) && Plays(plan, OVERLAP, OVERLAP_STATES, i)
    {
      if i == 0 {
        UpsertPlanned(plan);
      } else if i == 1 {
        AdmissionPlanned(plan);
      } else if i == 2 {
        StartPlanned(plan);
      } else {
        RecordingPlanned(plan, if i == 3 then 3 else 5, if i == 3 then 4 else 6);
      }
      OverlapTurnPlays(plan, i);
    }
    PlainScriptIsWork(plan, OVERLAP, OVERLAP_STATES);
    TwoLeadsOneUrl();
  }

  lemma TwoLeadsOneUrl()
    ensures HasUrl(TWICE.rows, URL.text, 4) && HasUrl(TWICE.rows, URL.text, 6) && !Within(TWICE.rows)
    ensures !RoomAtCommit(Record(5, 6).request, ONCE.rows)
  {
    assert HasUrl(ONCE.rows, URL.text, 4);
  }
}
