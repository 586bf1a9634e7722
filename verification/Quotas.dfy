/**
 The discovery quotas, even as rediscovery moves leads between operations: they hold
 in every reachable state of commands run one at a time, and, under any interleaving,
 after each recording that still had room at its commit.
 */
module Quotas {
  import opened Domain
  import opened Store
  import opened Listing
  import opened Lifecycle
  import opened Runs
  import opened DiscoveryCommands

  // ---------- sums over sets ----------

  lemma {:induction false} TotalSame(ids: set<EntityId>, a: EntityId -> nat, b: EntityId -> nat)
    requires forall id :: id in ids ==> a(id) == b(id)
    ensures Total(ids, a) == Total(ids, b)
    decreases |ids|
  {
    if ids != {} {
      HasLeast(ids);
      var least :| IsLeast(ids, least);
      TotalSame(ids - {least}, a, b);
    }
  }

  lemma LeastUnique(ids: set<EntityId>, x: EntityId, y: EntityId)
    requires IsLeast(ids, x) && IsLeast(ids, y)
    ensures x == y
  {
  }

  /** Any element may be taken out first. */
  lemma {:induction false} TotalWithout(ids: set<EntityId>, x: EntityId, w: EntityId -> nat)
    requires x in ids
    ensures Total(ids, w) == w(x) + Total(ids - {x}, w)
    decreases |ids|
  {
    HasLeast(ids);
    var least :| IsLeast(ids, least);
    assert Total(ids, w) == w(least) + Total(ids - {least}, w) by {
      LeastTotal(ids, least, w);
    }
    if x != least {
      TotalWithout(ids - {least}, x, w);
      assert IsLeast(ids - {x}, least);
      LeastTotal(ids - {x}, least, w);
      assert ids - {least} - {x} == ids - {x} - {least};
    }
  }

  lemma LeastTotal(ids: set<EntityId>, least: EntityId, w: EntityId -> nat)
    requires IsLeast(ids, least)
    ensures Total(ids, w) == w(least) + Total(ids - {least}, w)
  {
    HasLeast(ids);
    var chosen :| IsLeast(ids, chosen) && Total(ids, w) == w(chosen) + Total(ids - {chosen}, w);
    LeastUnique(ids, least, chosen);
  }

  lemma {:induction false} TotalWithin(part: set<EntityId>, whole: set<EntityId>, w: EntityId -> nat)
    requires part <= whole
    ensures Total(part, w) <= Total(whole, w)
    decreases |whole|
  {
    if part == whole {
    } else {
      var x :| x in whole && x !in part;
      TotalWithout(whole, x, w);
      TotalWithin(part, whole - {x}, w);
    }
  }

  lemma CardinalityWithin(part: set<EntityId>, whole: set<EntityId>)
    requires part <= whole
    ensures |part| <= |whole|
  {
    assert whole == part + (whole - part);
  }

  // ---------- the invariant ----------

  ghost predicate SourcePresent(rows: Rows, id: EntityId) {
    IsLead(rows, id) ==> IsExternalPosting(rows, rows[id].body.lead.source)
  }

  /** Sources that discovery recorded: the current one of a lead, or one that a later posting superseded. */
  ghost predicate IsDiscovered(rows: Rows, id: EntityId) {
    id in rows && rows[id].body.OfSource?
    && ((exists lead :: IsLead(rows, lead) && rows[lead].body.lead.source == id)
        || (exists next :: next in rows && rows[next].body.OfSource? && rows[next].body.source.supersedes == Some(id)))
  }

  ghost function Discovered(rows: Rows): set<EntityId> { set id | id in rows && IsDiscovered(rows, id) }

  ghost predicate OperationWithin(rows: Rows, operation: EntityId) {
    && |LeadsOf(rows, operation)| <= MAX_LEADS_PER_OPERATION
    && Total(LeadsOf(rows, operation), (id: EntityId) => LeadBytes(rows, id)) <= MAX_BYTES_PER_OPERATION
  }

  ghost predicate HostWithin(rows: Rows, operation: EntityId, host: string) {
    |OnHost(rows, LeadsOf(rows, operation), host)| <= MAX_LEADS_PER_HOST
  }

  ghost predicate WorkspaceWithin(rows: Rows) {
    && |Leads(rows)| <= MAX_LEADS_PER_WORKSPACE
    && Total(Discovered(rows), (id: EntityId) => SourceBytes(rows, id)) <= MAX_BYTES_PER_WORKSPACE
  }

  ghost predicate UniqueUrls(rows: Rows) {
    forall a, b :: IsLead(rows, a) && IsLead(rows, b) && rows[a].body.lead.url == rows[b].body.lead.url ==> a == b
  }

  ghost predicate ResultIffShortlisted(rows: Rows, id: EntityId) {
    IsLead(rows, id) ==> (rows[id].body.lead.resultOpportunity.Some? <==> rows[id].body.lead.state.LeadShortlisted?)
  }

  ghost predicate SupersededPresent(rows: Rows, next: EntityId) {
    next in rows && rows[next].body.OfSource? && rows[next].body.source.supersedes.Some? ==>
      IsExternalPosting(rows, rows[next].body.source.supersedes.value)
  }

  ghost predicate SourcesPresent(rows: Rows) { forall id :: SourcePresent(rows, id) && SupersededPresent(rows, id) }

  ghost predicate Within(rows: Rows) {
    && SourcesPresent(rows)
    && (forall operation :: OperationWithin(rows, operation))
    && (forall operation, host :: HostWithin(rows, operation, host))
    && WorkspaceWithin(rows)
    && UniqueUrls(rows)
  }

  // ---------- what a recording reads and asks for ----------

  ghost function PriorOf(m: Mutation): Option<EntityId> { if m.Insert? then None else Some(m.entity.id) }

  /** A recording inserts one posting and inserts or moves one lead, within the quotas of the rows it read. */
  ghost predicate RecordsOneLead(view: Rows, request: Request) {
    && |request.mutations| == 2
    && (var document, m := request.mutations[0], request.mutations[1];
        && document.Insert? && document.entity.body.OfSource? && m.entity.body.OfLead?
        && (var s, l := document.entity.body.source, m.entity.body.lead;
            && s.kind.OpportunitySource? && s.trust.External? && l.source == document.entity.id
            && WithinQuotas(view, l.operation, l.host, PriorOf(m), s.byteLength)
            && (match m
                case Insert(_) => s.supersedes.None? && forall id :: !HasUrl(view, l.url, id)
                case Update(e, _) =>
                  && HasUrl(view, l.url, e.id) && s.supersedes == Some(view[e.id].body.lead.source)
                  && view[e.id].body.lead.operation != l.operation)))
  }

  lemma LeadRequestRecords(view: Rows, ctx: Context, source: EntityId, newLead: EntityId, input: LeadInput)
    requires Keyed(view)
    ensures var r := PlanRecordLead(view, ctx, source, newLead, input); r.Ok? ==> RecordsOneLead(view, r.value)
  {
  }

  ghost predicate RecordingsChecked(run: Run) {
    forall s :: s in run.submissions && s.licence.Recording? && s.request.mutations != [] ==>
        RecordsOneLead(s.view, s.request)
  }

  // ---------- one commit ----------

  /**
   The commit inserts the posting `x` and makes it the source of the lead `k`, which is new
   or moves to another operation.
   */
  ghost predicate LeadPlaced(before: Rows, after: Rows, x: EntityId, k: EntityId) {
    && x !in before && x != k && after.Keys == before.Keys + {x, k}
    && IsExternalPosting(after, x) && IsLead(after, k) && after[k].body.lead.source == x
    && (var s, l := after[x].body.source, after[k].body.lead;
        if k in before then
          HasUrl(before, l.url, k) && s.supersedes == Some(before[k].body.lead.source)
            && before[k].body.lead.operation != l.operation
        else s.supersedes.None?)
    && forall id :: id in before && id != k ==> after[id] == before[id]
  }

  /** A new lead has a URL of its own. */
  ghost predicate UrlFree(rows: Rows, k: EntityId, url: string) { k in rows || forall id :: !HasUrl(rows, url, id) }

  ghost predicate LeadMoved(before: Rows, after: Rows, x: EntityId, k: EntityId) {
    LeadPlaced(before, after, x, k) && UrlFree(before, k, after[k].body.lead.url)
  }

  /**
   The quotas leave room for one more posting of this size; of the workspace's postings
   only those of discovery count.
   */
  ghost predicate Room(rows: Rows, operation: EntityId, host: string, prior: Option<EntityId>, bytes: nat) {
    var own := LeadsOf(rows, operation) - (if prior.Some? then {prior.value} else {});
    && |own| < MAX_LEADS_PER_OPERATION
    && |OnHost(rows, own, host)| < MAX_LEADS_PER_HOST
    && (|Leads(rows)| < MAX_LEADS_PER_WORKSPACE || prior.Some?)
    && Total(own, (id: EntityId) => LeadBytes(rows, id)) + bytes <= MAX_BYTES_PER_OPERATION
    && Total(Discovered(rows), (id: EntityId) => SourceBytes(rows, id)) + bytes <= MAX_BYTES_PER_WORKSPACE
  }

  /** The command's own check counts every external posting, so it asks for more. */
  lemma QuotasLeaveRoom(rows: Rows, operation: EntityId, host: string, prior: Option<EntityId>, bytes: nat)
    requires SourcesPresent(rows) && WithinQuotas(rows, operation, host, prior, bytes)
    ensures Room(rows, operation, host, prior, bytes)
  {
    DiscoveredArePostings(rows);
    TotalWithin(Discovered(rows), ExternalPostings(rows), (id: EntityId) => SourceBytes(rows, id));
  }

  ghost function PriorIn(rows: Rows, k: EntityId): Option<EntityId> { if k in rows then Some(k) else None }

  ghost predicate RoomFor(before: Rows, document: Entity, lead: Entity)
    requires document.body.OfSource? && lead.body.OfLead?
  {
    var l := lead.body.lead;
    UrlFree(before, lead.id, l.url) && Room(before, l.operation, l.host, PriorIn(before, lead.id),
                                            document.body.source.byteLength)
  }

  /** The quota check of a recording, on the rows at its commit. */
  ghost predicate RoomAtCommit(request: Request, before: Rows) {
    && |request.mutations| == 2
    && request.mutations[0].entity.body.OfSource? && request.mutations[1].entity.body.OfLead?
    && RoomFor(before, request.mutations[0].entity, request.mutations[1].entity)
  }

  lemma TwoMutations(s: Submission, before: Rows, after: Rows)
    requires Stepped(s, before, after) && |s.request.mutations| == 2 && s.request.mutations[0].Insert?
    ensures var x, m := s.request.mutations[0].entity, s.request.mutations[1]; var k := m.entity;
      && x.id !in before && x.id != k.id && after.Keys == before.Keys + {x.id, k.id} && after[x.id] == x
        && after[k.id] == k
      && (m.Update? <==> k.id in before) && (m.Update? ==> k.id in s.view && before[k.id] == s.view[k.id])
      && forall id :: id in before && id != k.id ==> after[id] == before[id]
  {
    var ms := s.request.mutations;
    assert ms[0] in ms && ms[1] in ms;
    assert Touched(ms) == {ms[0].entity.id, ms[1].entity.id};
  }

  lemma RecordingStep(s: Submission, before: Rows, after: Rows)
    requires Stepped(s, before, after) && RecordsOneLead(s.view, s.request)
    ensures LeadPlaced(before, after, s.request.mutations[0].entity.id, s.request.mutations[1].entity.id)
    ensures after[s.request.mutations[0].entity.id] == s.request.mutations[0].entity
    ensures after[s.request.mutations[1].entity.id] == s.request.mutations[1].entity
  {
    TwoMutations(s, before, after);
  }

  lemma LeadsAfter(before: Rows, after: Rows, x: EntityId, k: EntityId)
    requires LeadMoved(before, after, x, k)
    ensures Leads(after) == Leads(before) + {k}
    ensures k in before ==> k in Leads(before)
  {
    forall id
      ensures IsLead(after, id) <==> id == k || IsLead(before, id)
    {
    }
  }

  lemma LeadsOfAfter(before: Rows, after: Rows, x: EntityId, k: EntityId, o: EntityId)
    requires LeadMoved(before, after, x, k)
    ensures LeadsOf(after, o) == (if o == after[k].body.lead.operation then LeadsOf(before, o) + {k}
                                  else LeadsOf(before, o) - {k})
    ensures k in LeadsOf(before, o) ==> o != after[k].body.lead.operation
  {
    forall id | id != k
      ensures id in LeadsOf(after, o) <==> id in LeadsOf(before, o)
    {
    }
  }

  lemma BytesAfter(before: Rows, after: Rows, x: EntityId, k: EntityId)
    requires LeadMoved(before, after, x, k) && SourcesPresent(before)
    ensures forall id :: IsLead(before, id) && id != k ==> LeadBytes(after, id) == LeadBytes(before, id)
    ensures LeadBytes(after, k) == after[x].body.source.byteLength
  {
    forall id | IsLead(before, id) && id != k
      ensures LeadBytes(after, id) == LeadBytes(before, id)
    {
      assert SourcePresent(before, id);
    }
  }

  /** The leads of any other operation after a recording, with what they weigh. */
  lemma OperationAfter(before: Rows, after: Rows, x: EntityId, k: EntityId, o: EntityId)
    requires LeadMoved(before, after, x, k) && SourcesPresent(before) && OperationWithin(before, o)
    requires o != after[k].body.lead.operation
    ensures OperationWithin(after, o)
  {
    LeadsOfAfter(before, after, x, k, o);
    BytesAfter(before, after, x, k);
    var own := LeadsOf(before, o) - {k};
    var was, now := (id: EntityId) => LeadBytes(before, id), (id: EntityId) => LeadBytes(after, id);
    TotalSame(own, was, now);
    CardinalityWithin(own, LeadsOf(before, o));
    TotalWithin(own, LeadsOf(before, o), was);
  }

  /** The operation that records counts one lead more, and weighs the new posting more. */
  lemma OwnOperationAfter(before: Rows, after: Rows, x: EntityId, k: EntityId)
    requires LeadMoved(before, after, x, k) && SourcesPresent(before)
    ensures var o := after[k].body.lead.operation;
      && k !in LeadsOf(before, o) && |LeadsOf(after, o)| == |LeadsOf(before, o)| + 1
      && Total(LeadsOf(after, o), (id: EntityId) => LeadBytes(after, id))
         == Total(LeadsOf(before, o), (id: EntityId) => LeadBytes(before, id)) + after[x].body.source.byteLength
  {
    var o := after[k].body.lead.operation;
    LeadsOfAfter(before, after, x, k, o);
    BytesAfter(before, after, x, k);
    var own := LeadsOf(before, o);
    var was, now := (id: EntityId) => LeadBytes(before, id), (id: EntityId) => LeadBytes(after, id);
    TotalSame(own, was, now);
    assert LeadsOf(after, o) - {k} == own;
    TotalWithout(LeadsOf(after, o), k, now);
  }

  lemma HostAfter(before: Rows, after: Rows, x: EntityId, k: EntityId, o: EntityId, host: string)
    requires LeadMoved(before, after, x, k) && HostWithin(before, o, host)
    requires o != after[k].body.lead.operation || host != after[k].body.lead.host
    ensures HostWithin(after, o, host)
  {
    LeadsOfAfter(before, after, x, k, o);
    CardinalityWithin(OnHost(after, LeadsOf(after, o), host), OnHost(before, LeadsOf(before, o), host));
  }

  lemma OwnHostAfter(before: Rows, after: Rows, x: EntityId, k: EntityId)
    requires LeadMoved(before, after, x, k)
    ensures var l := after[k].body.lead;
      |OnHost(after, LeadsOf(after, l.operation), l.host)| == |OnHost(before, LeadsOf(before, l.operation), l.host)| + 1
  {
    var l := after[k].body.lead;
    LeadsOfAfter(before, after, x, k, l.operation);
    var was, now := OnHost(before, LeadsOf(before, l.operation), l.host),
      OnHost(after, LeadsOf(after, l.operation), l.host);
    assert k !in was;
    forall id
      ensures id in now <==> id == k || id in was
    {
    }
    assert now == was + {k};
  }

  /** Discovery's sources grow by exactly the new posting: what a moved lead pointed at is superseded, not forgotten. */
  lemma DiscoveredAfter(before: Rows, after: Rows, x: EntityId, k: EntityId)
    requires LeadMoved(before, after, x, k) && SourcesPresent(before)
    ensures Discovered(after) == Discovered(before) + {x}
  {
    forall id
      ensures IsDiscovered(after, id) <==> id == x || IsDiscovered(before, id)
    {
      DiscoveredForth(before, after, x, k, id);
      DiscoveredBack(before, after, x, k, id);
    }
  }

  lemma DiscoveredForth(before: Rows, after: Rows, x: EntityId, k: EntityId, id: EntityId)
    requires LeadMoved(before, after, x, k) && SourcesPresent(before)
    ensures id == x || IsDiscovered(before, id) ==> IsDiscovered(after, id)
  {
    if id == x {
      assert IsLead(after, k) && after[k].body.lead.source == x;
    } else if IsDiscovered(before, id) {
      if lead :| IsLead(before, lead) && before[lead].body.lead.source == id {
        if lead == k {
          assert after[x].body.source.supersedes == Some(id);
        } else {
          assert IsLead(after, lead) && after[lead].body.lead.source == id;
        }
      } else {
        var next :| next in before && before[next].body.OfSource? && before[next].body.source.supersedes == Some(id);
        assert after[next] == before[next];
      }
    }
  }

  lemma DiscoveredBack(before: Rows, after: Rows, x: EntityId, k: EntityId, id: EntityId)
    requires LeadMoved(before, after, x, k) && SourcesPresent(before)
    ensures IsDiscovered(after, id) ==> id == x || IsDiscovered(before, id)
  {
    if IsDiscovered(after, id) && id != x {
      assert id in before && after[id] == before[id];
      if lead :| IsLead(after, lead) && after[lead].body.lead.source == id {
        assert lead != k && IsLead(before, lead) && before[lead].body.lead.source == id;
      } else {
        var next :| next in after && after[next].body.OfSource? && after[next].body.source.supersedes == Some(id);
        if next == x {
          assert k in before && SourcePresent(before, k);
          assert IsLead(before, k) && before[k].body.lead.source == id;
        } else {
          assert next in before && before[next].body.source.supersedes == Some(id);
        }
      }
    }
  }

  lemma LeadCountAfter(before: Rows, after: Rows, x: EntityId, k: EntityId)
    requires LeadMoved(before, after, x, k)
    ensures |Leads(after)| == |Leads(before)| + (if k in before then 0 else 1)
  {
    LeadsAfter(before, after, x, k);
    if k in before {
      assert Leads(after) == Leads(before);
    }
  }

  lemma DiscoveredArePostings(rows: Rows)
    requires SourcesPresent(rows)
    ensures Discovered(rows) <= ExternalPostings(rows)
  {
    forall id | id in Discovered(rows)
      ensures id in ExternalPostings(rows)
    {
      DiscoveredPosting(rows, id);
    }
  }

  lemma OldPostingKept(before: Rows, after: Rows, x: EntityId, k: EntityId, id: EntityId)
    requires LeadMoved(before, after, x, k) && id in before && before[id].body.OfSource?
    ensures SourceBytes(after, id) == SourceBytes(before, id)
  {
  }

  lemma PostingsAfter(before: Rows, after: Rows, x: EntityId, k: EntityId)
    requires LeadMoved(before, after, x, k) && SourcesPresent(before)
    ensures Total(Discovered(after), (id: EntityId) => SourceBytes(after, id))
         == Total(Discovered(before), (id: EntityId) => SourceBytes(before, id)) + after[x].body.source.byteLength
  {
    DiscoveredAfter(before, after, x, k);
    var was, now := (id: EntityId) => SourceBytes(before, id), (id: EntityId) => SourceBytes(after, id);
    var earlier := Discovered(before);
    assert x !in earlier;
    forall id | id in earlier
      ensures was(id) == now(id)
    {
      OldPostingKept(before, after, x, k, id);
    }
    TotalWithout(earlier + {x}, x, now);
    assert earlier + {x} - {x} == earlier;
    TotalSame(earlier, was, now);
  }

  lemma UrlsAfter(before: Rows, after: Rows, x: EntityId, k: EntityId)
    requires LeadMoved(before, after, x, k) && UniqueUrls(before)
    ensures UniqueUrls(after)
  {
    forall a | IsLead(after, a) && after[a].body.lead.url == after[k].body.lead.url
      ensures a == k
    {
      if a != k {
        assert HasUrl(before, after[k].body.lead.url, a);
      }
    }
  }

  lemma SourcesAfter(before: Rows, after: Rows, x: EntityId, k: EntityId)
    requires LeadMoved(before, after, x, k) && SourcesPresent(before)
    ensures SourcesPresent(after)
  {
    forall id
      ensures SourcePresent(after, id) && SupersededPresent(after, id)
    {
      assert SourcePresent(before, id) && SupersededPresent(before, id) && SourcePresent(before, k);
    }
  }

  /** What a recording leaves alone stays within the quotas. */
  ghost predicate OthersWithin(after: Rows, l: Lead) {
    && SourcesPresent(after) && UniqueUrls(after)
    && (forall o :: o != l.operation ==> OperationWithin(after, o))
    && (forall o, host :: o != l.operation || host != l.host ==> HostWithin(after, o, host))
  }

  lemma OthersStayWithin(before: Rows, after: Rows, x: EntityId, k: EntityId)
    requires LeadMoved(before, after, x, k) && Within(before)
    ensures OthersWithin(after, after[k].body.lead)
  {
    forall o | o != after[k].body.lead.operation
      ensures OperationWithin(after, o)
    {
      OperationAfter(before, after, x, k, o);
    }
    forall o, host | o != after[k].body.lead.operation || host != after[k].body.lead.host
      ensures HostWithin(after, o, host)
    {
      HostAfter(before, after, x, k, o, host);
    }
    UrlsAfter(before, after, x, k);
    SourcesAfter(before, after, x, k);
  }

  /** What a recording adds to. */
  ghost predicate OwnWithin(after: Rows, l: Lead) {
    OperationWithin(after, l.operation) && HostWithin(after, l.operation, l.host) && WorkspaceWithin(after)
  }

  lemma OwnAndOthers(after: Rows, l: Lead)
    requires OthersWithin(after, l)
    ensures Within(after) <==> OwnWithin(after, l)
  {
    if OwnWithin(after, l) {
      forall o
        ensures OperationWithin(after, o)
      {
        if o == l.operation {
        }
      }
      forall o, host
        ensures HostWithin(after, o, host)
      {
        if o == l.operation && host == l.host {
        }
      }
    }
  }

  ghost predicate OperationRoom(rows: Rows, own: set<EntityId>, bytes: nat) {
    |own| < MAX_LEADS_PER_OPERATION && Total(own,
                                             (id: EntityId) => LeadBytes(rows, id)) + bytes <= MAX_BYTES_PER_OPERATION
  }

  ghost predicate WorkspaceRoom(rows: Rows, isNew: bool, bytes: nat) {
    && (isNew ==> |Leads(rows)| < MAX_LEADS_PER_WORKSPACE)
    && Total(Discovered(rows), (id: EntityId) => SourceBytes(rows, id)) + bytes <= MAX_BYTES_PER_WORKSPACE
  }

  lemma RoomInParts(rows: Rows, l: Lead, k: EntityId, bytes: nat)
    requires k !in LeadsOf(rows, l.operation)
    ensures var own := LeadsOf(rows, l.operation);
      Room(rows, l.operation, l.host, PriorIn(rows, k), bytes)
      <==> OperationRoom(rows, own, bytes) && |OnHost(rows, own, l.host)| < MAX_LEADS_PER_HOST
           && WorkspaceRoom(rows, k !in rows, bytes)
  {
    var own := LeadsOf(rows, l.operation);
    assert own - {k} == own && own - {} == own;
  }

  lemma OperationIffRoom(before: Rows, after: Rows, x: EntityId, k: EntityId)
    requires LeadMoved(before, after, x, k) && SourcesPresent(before)
    ensures var o := after[k].body.lead.operation;
      OperationWithin(after, o) <==> OperationRoom(before, LeadsOf(before, o), after[x].body.source.byteLength)
  {
    OwnOperationAfter(before, after, x, k);
  }

  lemma WorkspaceIffRoom(before: Rows, after: Rows, x: EntityId, k: EntityId)
    requires LeadMoved(before, after, x, k) && SourcesPresent(before) && WorkspaceWithin(before)
    ensures WorkspaceWithin(after) <==> WorkspaceRoom(before, k !in before, after[x].body.source.byteLength)
  {
    LeadCountAfter(before, after, x, k);
    PostingsAfter(before, after, x, k);
  }

  /** The counts after a recording are within the quotas exactly when there was room for it. */
  lemma OwnWithinIffRoom(before: Rows, after: Rows, x: EntityId, k: EntityId)
    requires LeadMoved(before, after, x, k) && Within(before)
    ensures var l := after[k].body.lead;
      OwnWithin(after, l) <==> Room(before, l.operation, l.host, PriorIn(before, k), after[x].body.source.byteLength)
  {
    OperationIffRoom(before, after, x, k);
    OwnHostAfter(before, after, x, k);
    WorkspaceIffRoom(before, after, x, k);
    LeadsOfAfter(before, after, x, k, after[k].body.lead.operation);
    RoomInParts(before, after[k].body.lead, k, after[x].body.source.byteLength);
  }

  /**
   A recording keeps the quotas and the URLs exactly when there is room for it, and its URL
   is free, at its commit.
   */
  lemma RecordedExactly(before: Rows, after: Rows, x: EntityId, k: EntityId)
    requires LeadPlaced(before, after, x, k) && Within(before) && after[x].id == x && after[k].id == k
    ensures Within(after) <==> RoomFor(before, after[x], after[k])
  {
    var l := after[k].body.lead;
    if UrlFree(before, k, l.url) {
      OthersStayWithin(before, after, x, k);
      OwnAndOthers(after, l);
      OwnWithinIffRoom(before, after, x, k);
    } else {
      var id :| HasUrl(before, l.url, id);
      assert IsLead(after, id) && after[id].body.lead.url == l.url && id != k;
    }
  }

  // ---------- commits that record nothing ----------

  ghost predicate SameLead(a: Lead, b: Lead) {
    a.operation == b.operation && a.host == b.host && a.url == b.url && a.source == b.source
  }

  /** Leads keep their place, sources stay, and no new source supersedes another. */
  ghost predicate LeadsKept(before: Rows, after: Rows) {
    && (forall id :: IsLead(after, id) <==> IsLead(before, id))
    && (forall id :: IsLead(before, id) ==> SameLead(before[id].body.lead, after[id].body.lead))
    && (forall id :: id in before && before[id].body.OfSource? ==> id in after && after[id] == before[id])
    && (forall id :: id in after && after[id].body.OfSource? && id !in before ==>
          after[id].body.source.supersedes.None?)
    && (forall id :: id in after && id in before ==> SameKind(before[id], after[id]))
  }

  lemma NoRecordingKeepsLeads(before: Rows, after: Rows, licence: Licence)
    requires Evolved(before, after, licence) && !licence.Recording?
    ensures LeadsKept(before, after)
  {
    forall id | id in after
      ensures IsLead(after, id) <==> IsLead(before, id)
      ensures IsLead(before, id) ==> SameLead(before[id].body.lead, after[id].body.lead)
      ensures id in before ==> SameKind(before[id], after[id])
      ensures id in before && before[id].body.OfSource? ==> after[id] == before[id]
      ensures id !in before && after[id].body.OfSource? ==> after[id].body.source.supersedes.None?
    {
      assert RowChange(before, after, id, licence);
    }
  }

  lemma KeptDiscovered(before: Rows, after: Rows, id: EntityId)
    requires LeadsKept(before, after) && SourcesPresent(before)
    ensures IsDiscovered(after, id) <==> IsDiscovered(before, id)
  {
    if IsDiscovered(before, id) {
      if lead :| IsLead(before, lead) && before[lead].body.lead.source == id {
        assert IsLead(after, lead) && after[lead].body.lead.source == id;
      } else {
        var next :| next in before && before[next].body.OfSource? && before[next].body.source.supersedes == Some(id);
        assert after[next].body.source.supersedes == Some(id);
      }
    }
    if IsDiscovered(after, id) {
      if lead :| IsLead(after, lead) && after[lead].body.lead.source == id {
        assert IsLead(before, lead) && before[lead].body.lead.source == id && SourcePresent(before, lead);
      } else {
        var next :| next in after && after[next].body.OfSource? && after[next].body.source.supersedes == Some(id);
        assert next in before && before[next].body.OfSource? && SupersededPresent(before, next);
      }
    }
  }

  lemma DiscoveredPosting(rows: Rows, id: EntityId)
    requires SourcesPresent(rows) && IsDiscovered(rows, id)
    ensures IsExternalPosting(rows, id)
  {
    if lead :| IsLead(rows, lead) && rows[lead].body.lead.source == id {
      assert SourcePresent(rows, lead);
    } else {
      var next :| next in rows && rows[next].body.OfSource? && rows[next].body.source.supersedes == Some(id);
      assert SupersededPresent(rows, next);
    }
  }

  /** Kept leads weigh and count what they did. */
  lemma KeptOperation(before: Rows, after: Rows, o: EntityId)
    requires LeadsKept(before, after) && SourcesPresent(before) && OperationWithin(before, o)
    ensures OperationWithin(after, o)
  {
    forall id
      ensures id in LeadsOf(after, o) <==> id in LeadsOf(before, o)
    {
    }
    assert LeadsOf(after, o) == LeadsOf(before, o);
    forall id | id in LeadsOf(before, o)
      ensures LeadBytes(after, id) == LeadBytes(before, id)
    {
      assert SourcePresent(before, id);
    }
    TotalSame(LeadsOf(before, o), (id: EntityId) => LeadBytes(before, id), (id: EntityId) => LeadBytes(after, id));
  }

  lemma KeptHost(before: Rows, after: Rows, o: EntityId, host: string)
    requires LeadsKept(before, after) && HostWithin(before, o, host)
    ensures HostWithin(after, o, host)
  {
    assert OnHost(after, LeadsOf(after, o), host) == OnHost(before, LeadsOf(before, o), host);
  }

  lemma KeptWorkspace(before: Rows, after: Rows)
    requires LeadsKept(before, after) && SourcesPresent(before) && WorkspaceWithin(before)
    ensures WorkspaceWithin(after)
  {
    assert Leads(after) == Leads(before);
    forall id
      ensures IsDiscovered(after, id) <==> IsDiscovered(before, id)
    {
      KeptDiscovered(before, after, id);
    }
    assert Discovered(after) == Discovered(before);
    forall id | id in Discovered(before)
      ensures SourceBytes(after, id) == SourceBytes(before, id)
    {
      DiscoveredPosting(before, id);
    }
    TotalSame(Discovered(before), (id: EntityId) => SourceBytes(before, id), (id: EntityId) => SourceBytes(after, id));
  }

  lemma KeptSources(before: Rows, after: Rows)
    requires LeadsKept(before, after) && SourcesPresent(before)
    ensures SourcesPresent(after)
  {
    forall id
      ensures SourcePresent(after, id) && SupersededPresent(after, id)
    {
      assert SourcePresent(before, id) && SupersededPresent(before, id);
    }
  }

  lemma KeptWithin(before: Rows, after: Rows)
    requires LeadsKept(before, after) && Within(before)
    ensures Within(after)
  {
    KeptSources(before, after);
    forall o
      ensures OperationWithin(after, o)
    {
      KeptOperation(before, after, o);
    }
    forall o, host
      ensures HostWithin(after, o, host)
    {
      KeptHost(before, after, o, host);
    }
    KeptWorkspace(before, after);
  }

  lemma EmptyWithin()
    ensures Within(map[])
  {
    assert Leads(map[]) == {} && Discovered(map[]) == {};
    forall o: EntityId
      ensures OperationWithin(map[], o)
    {
      assert LeadsOf(map[], o) == {};
    }
    forall o: EntityId, host: string
      ensures HostWithin(map[], o, host)
    {
      assert OnHost(map[], LeadsOf(map[], o), host) == {};
    }
  }

  // ---------- runs ----------

  /**
   Whatever is interleaved, a step keeps the quotas and the uniqueness of URLs if and
   only if it is not the commit of a recording, or there is room for the recording, and
   its URL is free, on the rows at its commit.
   */
  lemma QuotasKeptExactly(run: Run, i: nat)
    requires ValidRun(run) && RecordingsChecked(run) && i < |run.submissions| && Within(run.states[i].rows)
    ensures Within(run.states[i + 1].rows) <==>
              (Commits(run.states[i], run.submissions[i]) && run.submissions[i].licence.Recording? ==>
                 RoomAtCommit(run.submissions[i].request, run.states[i].rows))
  {
    StepOfRun(run, i);
    var s, before, after := run.submissions[i], run.states[i].rows, run.states[i + 1].rows;
    if Commits(run.states[i], s) {
      if s.licence.Recording? {
        RecordingStep(s, before, after);
        RecordedExactly(before, after, s.request.mutations[0].entity.id, s.request.mutations[1].entity.id);
      } else {
        StepEvolves(s, before, after);
        NoRecordingKeepsLeads(before, after, s.licence);
        KeptWithin(before, after);
      }
    }
  }

  /** On the rows that it has read, the check of a recording leaves room for it. */
  lemma CheckedHasRoom(view: Rows, request: Request)
    requires RecordsOneLead(view, request) && Within(view)
    requires request.mutations[1].Update? <==> request.mutations[1].entity.id in view
    ensures RoomAtCommit(request, view)
  {
    var s, l := request.mutations[0].entity.body.source, request.mutations[1].entity.body.lead;
    QuotasLeaveRoom(view, l.operation, l.host, PriorOf(request.mutations[1]), s.byteLength);
  }

  lemma WithinAt(run: Run, i: nat)
    requires ValidRun(run) && Serial(run) && RecordingsChecked(run) && i < |run.submissions|
             && Within(run.states[i].rows)
    ensures Within(run.states[i + 1].rows)
  {
    StepOfRun(run, i);
    var s := run.submissions[i];
    if Commits(run.states[i], s) && s.licence.Recording? {
      TwoMutations(s, run.states[i].rows, run.states[i + 1].rows);
      CheckedHasRoom(s.view, s.request);
    }
    QuotasKeptExactly(run, i);
  }

  /**
   With commands run one at a time, in every reachable state each operation has at
   most 64 leads, at most 20 of them on one host, with at most 8 MiB of current
   postings; the workspace has at most 512 leads and 32 MiB of postings that
   discovery recorded, current or superseded; and no two leads have one URL.
   */
  lemma {:induction false} QuotasHold(run: Run, i: nat)
    requires ValidRun(run) && Serial(run) && RecordingsChecked(run) && i < |run.states|
    ensures Within(run.states[i].rows)
  {
    if i == 0 {
      EmptyWithin();
    } else {
      QuotasHold(run, i - 1);
      WithinAt(run, i - 1);
    }
  }

  /** Shortlisting is for good and a lead has a result opportunity exactly when shortlisted, whatever is interleaved. */
  lemma {:induction false} ShortlistedForGood(run: Run, i: nat, j: nat, id: EntityId)
    requires ValidRun(run) && i <= j < |run.states| && IsLead(run.states[i].rows, id)
    ensures IsLead(run.states[j].rows, id) && ResultIffShortlisted(run.states[j].rows, id)
    ensures run.states[i].rows[id].body.lead.state.LeadShortlisted? ==> run.states[j].rows[id] == run.states[i].rows[id]
    decreases j, j - i
  {
    if i < j {
      ShortlistedForGood(run, i, j - 1, id);
      ShortlistedAt(run, j - 1, id);
    } else if i > 0 {
      ResultFromBefore(run, i - 1, id);
    }
  }

  lemma ShortlistedAt(run: Run, i: nat, id: EntityId)
    requires ValidRun(run) && i < |run.submissions| && IsLead(run.states[i].rows, id)
             && ResultIffShortlisted(run.states[i].rows, id)
    ensures IsLead(run.states[i + 1].rows, id) && ResultIffShortlisted(run.states[i + 1].rows, id)
    ensures run.states[i].rows[id].body.lead.state.LeadShortlisted? ==>
              run.states[i + 1].rows[id] == run.states[i].rows[id]
  {
    RowsChangeLawfully(run, i);
    if run.states[i + 1] != run.states[i] {
      assert RowChange(run.states[i].rows, run.states[i + 1].rows, id, run.submissions[i].licence);
    }
  }

  lemma {:induction false} ResultFromBefore(run: Run, i: nat, id: EntityId)
    requires ValidRun(run) && i < |run.submissions| && IsLead(run.states[i + 1].rows, id)
    ensures ResultIffShortlisted(run.states[i + 1].rows, id)
    decreases i
  {
    RowsChangeLawfully(run, i);
    if IsLead(run.states[i].rows, id) {
      if i > 0 {
        ResultFromBefore(run, i - 1, id);
      }
      ShortlistedAt(run, i, id);
    } else {
      assert RowChange(run.states[i].rows, run.states[i + 1].rows, id, run.submissions[i].licence);
    }
  }
}
