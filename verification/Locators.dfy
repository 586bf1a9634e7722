/**
 Every profile fact quotes its sources, in every run: the locators built by
 running offsets over joined claims, those an import found, and those a user or
 an agent gave. Sources never change, so a quotation that was right stays right.
 */
module Locators {
  import opened Domain
  import opened Store
  import opened Listing
  import opened Lifecycle
  import opened Runs
  import opened EvidenceRules
  import opened ProfileCommands
  import opened CascadeClosure
  import opened ImportSelection
  import opened ImportCommands

  // ---------- running offsets ----------

  ghost predicate Quotes(source: EntityId, text: string, f: Fact) {
    f.locators != [] && forall l :: l in f.locators ==>
        l.source == source && 0 <= l.start < l.end && Slice(text, l.start, l.end) == l.quote
  }

  lemma MiddleSlice(a: string, b: string, c: string)
    ensures Slice(a + b + c, |a|, |a| + |b|) == b
  {
  }

  /** The text from the first claim on, and how it continues. */
  function AfterFirst(specs: seq<FactSpec>): string
    requires specs != []
  {
    if |specs| == 1 then "" else "\n" + JoinClaims(specs[1..])
  }

  lemma Regroup(a: string, b: string, c: string, d: string)
    ensures a + (b + c + d) == (a + b + c) + d
    ensures a + (b + c + d) == a + b + (c + d)
  {
  }

  lemma JoinedText(before: string, specs: seq<FactSpec>)
    requires specs != []
    ensures before + JoinClaims(specs) == before + Claim(specs[0]) + AfterFirst(specs)
    ensures |specs| > 1 ==> before + JoinClaims(specs) == (before + Claim(specs[0]) + "\n") + JoinClaims(specs[1..])
  {
    if |specs| > 1 {
      assert JoinClaims(specs) == Claim(specs[0]) + "\n" + JoinClaims(specs[1..]);
      Regroup(before, Claim(specs[0]), "\n", JoinClaims(specs[1..]));
    } else {
      assert JoinClaims(specs) == Claim(specs[0]);
      assert before + Claim(specs[0]) + "" == before + Claim(specs[0]);
    }
  }

  lemma FirstQuotes(before: string, specs: seq<FactSpec>, source: EntityId, f: Fact)
    requires specs != [] && f.locators == [Locator(source, |before|, |before| + |Claim(specs[0])|, Claim(specs[0]))]
    ensures Quotes(source, before + JoinClaims(specs), f)
  {
    JoinedText(before, specs);
    MiddleSlice(before, Claim(specs[0]), AfterFirst(specs));
  }

  lemma LocatedSplit(specs: seq<FactSpec>, source: EntityId, offset: nat, status: FactStatus,
                     confirmedAt: Option<Timestamp>)
    requires specs != []
    ensures var facts := LocatedFacts(specs, source, offset, status, confirmedAt);
      && facts != [] && facts[0].locators == [Locator(source, offset, offset + |Claim(specs[0])|, Claim(specs[0]))]
      && facts == [facts[0]] + LocatedFacts(specs[1..], source, offset + |Claim(specs[0])| + 1, status, confirmedAt)
  {
  }

  lemma NextOffset(text: string, before: string, specs: seq<FactSpec>) returns (next: string)
    requires |specs| > 1 && text == before + JoinClaims(specs)
    ensures text == next + JoinClaims(specs[1..]) && |next| == |before| + |Claim(specs[0])| + 1
  {
    JoinedText(before, specs);
    next := before + Claim(specs[0]) + "\n";
  }

  ghost predicate AllQuote(source: EntityId, text: string, facts: seq<Fact>) {
    forall f :: f in facts ==> Quotes(source, text, f)
  }

  lemma AllQuoteCons(source: EntityId, text: string, first: Fact, rest: seq<Fact>)
    requires Quotes(source, text, first) && AllQuote(source, text, rest)
    ensures AllQuote(source, text, [first] + rest)
  {
  }

  /** Facts located from the end of `before` on quote the text that continues with their claims. */
  lemma {:induction false} OffsetsQuote(text: string, before: string, specs: seq<FactSpec>, source: EntityId,
                                        status: FactStatus, confirmedAt: Option<Timestamp>)
    requires text == before + JoinClaims(specs)
    ensures AllQuote(source, text, LocatedFacts(specs, source, |before|, status, confirmedAt))
    decreases |specs|
  {
    if specs != [] {
      LocatedSplit(specs, source, |before|, status, confirmedAt);
      var facts := LocatedFacts(specs, source, |before|, status, confirmedAt);
      var rest := LocatedFacts(specs[1..], source, |before| + |Claim(specs[0])| + 1, status, confirmedAt);
      FirstQuotes(before, specs, source, facts[0]);
      if |specs| > 1 {
        var next := NextOffset(text, before, specs);
        OffsetsQuote(text, next, specs[1..], source, status, confirmedAt);
      }
      AllQuoteCons(source, text, facts[0], rest);
    }
  }

  // ---------- what a request may quote ----------

  /** A source that was read, or that the same request inserts. */
  ghost predicate Known(view: Rows, ms: seq<Mutation>, id: EntityId, s: Source) {
    (id in view && view[id].body == OfSource(s)) || Insert(Entity(id, 1, OfSource(s))) in ms
  }

  ghost predicate Located(id: EntityId, s: Source, l: Locator, primary: bool) {
    l.source == id && ValidateSourceLocator(id, s, l).Pass? && (primary ==> s.trust.CandidatePrimary?)
  }

  ghost predicate LocatorKnown(view: Rows, ms: seq<Mutation>, l: Locator, primary: bool) {
    exists s :: Known(view, ms, l.source, s) && Located(l.source, s, l, primary)
  }

  ghost predicate FactSupported(view: Rows, ms: seq<Mutation>, f: Fact) {
    && (f.status.Verified? ==> f.locators != [])
    && forall l :: l in f.locators ==> LocatorKnown(view, ms, l, f.status.Verified?)
  }

  /** What a request says about facts: all that it inserts, and all that it verifies, is supported. */
  ghost predicate QuotesChecked(view: Rows, request: Request) {
    forall m ::
      m in request.mutations && m.entity.body.OfFact? && (m.Insert? || m.entity.body.fact.status.Verified?) ==>
        FactSupported(view, request.mutations, m.entity.body.fact)
  }

  lemma {:induction false} CheckedLocators(rows: Rows, ms: seq<Mutation>, locators: seq<Locator>, primary: bool)
    requires CheckLocators(rows, locators, primary).Ok?
    ensures forall l :: l in locators ==> LocatorKnown(rows, ms, l, primary)
  {
    if locators != [] {
      CheckedLocators(rows, ms, locators[1..], primary);
      assert Known(rows, ms, locators[0].source, rows[locators[0].source].body.source);
      assert Located(locators[0].source, rows[locators[0].source].body.source, locators[0], primary);
    }
  }

  lemma ProposalChecked(view: Rows, ctx: Context, id: EntityId, spec: FactSpec, locators: seq<Locator>,
                        proposedBy: ProposedBy, wellFormed: bool)
    ensures var r := PlanProposeFact(view, ctx, id, spec, locators, proposedBy, wellFormed);
            r.Ok? ==> QuotesChecked(view, r.value)
  {
    var r := PlanProposeFact(view, ctx, id, spec, locators, proposedBy, wellFormed);
    if r.Ok? {
      CheckedLocators(view, r.value.mutations, locators, false);
    }
  }

  lemma ConfirmationChecked(view: Rows, ctx: Context, id: EntityId, expected: nat, outcome: FactOutcome,
                            newId: EntityId, now: Timestamp)
    ensures var r := PlanConfirmFact(view, ctx, id, expected, outcome, newId, now);
            r.Ok? ==> QuotesChecked(view, r.value)
  {
    var r := PlanConfirmFact(view, ctx, id, expected, outcome, newId, now);
    if r.Ok? {
      match outcome
      case Correct(value, locator) => CheckedLocators(view, r.value.mutations, [locator], true);
      case Confirm => CheckedLocators(view, r.value.mutations, view[id].body.fact.locators, true);
      case _ =>
    }
  }

  lemma CorrectionChecked(view: Rows, ctx: Context, id: EntityId, expected: nat, value: Primitive, locator: Locator,
                          newId: EntityId, now: Timestamp)
    requires Keyed(view)
    ensures var r := PlanCorrectFact(view, ctx, id, expected, value, locator, newId, now);
            r.Ok? ==> QuotesChecked(view, r.value)
  {
    var r := PlanCorrectFact(view, ctx, id, expected, value, locator, newId, now);
    if r.Ok? {
      CorrectionPlan(view, ctx, id, expected, value, locator, newId, now);
      CorrectablePasses(view, id, expected, locator);
      CorrectionLinks(view, r.value);
      CorrectionQuotes(view, ctx.actor, id, newId, Correction(view[id], value, locator, now));
    }
  }

  lemma CorrectablePasses(view: Rows, id: EntityId, expected: nat, locator: Locator)
    requires Correctable(view, id, expected, locator).Ok?
    ensures id in view && view[id].body.OfFact? && CheckLocators(view, [locator], true).Ok?
  {
  }

  lemma CorrectionLinks(view: Rows, request: Request)
    requires SoundRequest(view, request, Cascading)
    ensures LinkShape(request.mutations)
  {
  }

  /** A correction whose locators were checked quotes what it cites. */
  lemma CorrectionQuotes(view: Rows, actor: Actor, id: EntityId, newId: EntityId, correction: Fact)
    requires id in view && view[id].body.OfFact? && correction.supersedes == Some(id)
    requires correction.locators != [] && CheckLocators(view, correction.locators, true).Ok?
             && correction.status.Verified?
    requires LinkShape(CorrectionRequest(view, actor, id, newId, correction).mutations)
    ensures QuotesChecked(view, CorrectionRequest(view, actor, id, newId, correction))
  {
    var request := CorrectionRequest(view, actor, id, newId, correction);
    CheckedLocators(view, request.mutations, correction.locators, true);
    CorrectionMutations(view, actor, id, newId, correction);
    LinkQuotes(view, request, newId, correction);
  }

  lemma CorrectionMutations(view: Rows, actor: Actor, id: EntityId, newId: EntityId, correction: Fact)
    requires id in view && view[id].body.OfFact? && correction.supersedes == Some(id)
    ensures var ms := CorrectionRequest(view, actor, id, newId, correction).mutations;
      |ms| >= 2 && Supersedes(ms[0]) && ms[1] == Insert(Entity(newId, 1, OfFact(correction))) && LinksFact(ms[1])
  {
  }

  lemma LinkQuotes(view: Rows, request: Request, newId: EntityId, correction: Fact)
    requires LinkShape(request.mutations) && |request.mutations| >= 2 && Supersedes(request.mutations[0])
             && LinksFact(request.mutations[1])
    requires request.mutations[1] == Insert(Entity(newId, 1, OfFact(correction)))
             && FactSupported(view, request.mutations, correction)
    ensures QuotesChecked(view, request)
  {
    var ms := request.mutations;
    assert ms[0] in ms;
    forall m | m in ms && m.entity.body.OfFact? && (m.Insert? || m.entity.body.fact.status.Verified?)
      ensures m == ms[1]
    {
      var k :| 0 <= k < |ms| && ms[k] == m;
    }
  }

  /** Facts over one new inline source that the same request inserts. */
  lemma LocatedRowsSupported(view: Rows, ms: seq<Mutation>, specs: seq<FactSpec>, source: EntityId, s: Source,
                             status: FactStatus, confirmedAt: Option<Timestamp>)
    requires Insert(Entity(source, 1, OfSource(s))) in ms && s.text == Some(JoinClaims(specs))
             && s.trust.CandidatePrimary?
    ensures forall f :: f in LocatedFacts(specs, source, 0, status, confirmedAt) ==> FactSupported(view, ms, f)
  {
    OffsetsQuote(JoinClaims(specs), "", specs, source, status, confirmedAt);
    forall f, l | f in LocatedFacts(specs, source, 0, status, confirmedAt) && l in f.locators
      ensures LocatorKnown(view, ms, l, f.status.Verified?)
    {
      assert Known(view, ms, l.source, s) && Located(l.source, s, l, f.status.Verified?);
    }
  }

  /** The facts of a request whose other insertions are no facts. */
  lemma InsertedFactsChecked(view: Rows, entities: seq<Entity>, actor: Actor)
    requires forall e :: e in entities && e.body.OfFact? ==> FactSupported(view, Inserts(entities), e.body.fact)
    ensures QuotesChecked(view, Request(Inserts(entities), EventsOf(entities, actor)))
  {
    forall m | m in Inserts(entities)
      ensures m.entity in entities
    {
      var i :| 0 <= i < |entities| && Inserts(entities)[i] == m;
    }
  }

  lemma InsertedAmong(entities: seq<Entity>, e: Entity)
    requires e in entities
    ensures Insert(e) in Inserts(entities)
  {
    var i :| 0 <= i < |entities| && entities[i] == e;
    assert Inserts(entities)[i] == Insert(e);
  }

  lemma FactRowsHold(ids: seq<EntityId>, facts: seq<Fact>)
    requires |ids| == |facts|
    ensures forall e :: e in FactRows(ids, facts) ==> e.body.OfFact? && e.body.fact in facts
  {
    forall e | e in FactRows(ids, facts)
      ensures e.body.OfFact? && e.body.fact in facts
    {
      var i :| 0 <= i < |facts| && FactRows(ids, facts)[i] == e;
    }
  }

  lemma HistoryChecked(view: Rows, ctx: Context, specs: seq<FactSpec>, source: EntityId, facts: seq<EntityId>,
                       wellFormed: bool)
    ensures var r := PlanAddCareerHistory(ctx, specs, source, facts, wellFormed); r.Ok? ==> QuotesChecked(view, r.value)
  {
    if PlanAddCareerHistory(ctx, specs, source, facts, wellFormed).Ok? {
      var document := Entity(source, 1, OfSource(InlineSource(CandidateSource, CandidatePrimary, JoinClaims(specs),
                                                              None, false)));
      var located := LocatedFacts(specs, source, 0, FactProposed, None);
      var entities := [document] + FactRows(facts, located);
      InsertedAmong(entities, document);
      FactRowsHold(facts, located);
      LocatedRowsSupported(view, Inserts(entities), specs, source, document.body.source, FactProposed, None);
      InsertedFactsChecked(view, entities, ctx.actor);
    }
  }

  lemma InitializationChecked(view: Rows, ctx: Context, workspace: EntityId, specs: seq<FactSpec>, source: EntityId,
                              facts: seq<EntityId>,
                              rubric: Option<EntityId>, wellFormed: bool, now: Timestamp)
    ensures var r := PlanInitialize(ctx, workspace, specs, source, facts, rubric, wellFormed, now);
            r.Ok? ==> QuotesChecked(view, r.value)
  {
    if PlanInitialize(ctx, workspace, specs, source, facts, rubric, wellFormed, now).Ok? {
      var document := Entity(source, 1, OfSource(InlineSource(CandidateSource, CandidatePrimary, JoinClaims(specs),
                                                              None, true)));
      var located := LocatedFacts(specs, source, 0, Verified, Some(now));
      var entities := [Entity(workspace, 1, OfWorkspace(rubric))] + (if specs == [] then []
                                                                     else [document]) + FactRows(facts, located)
        + (if rubric.None? then [] else [Entity(rubric.value, 1, OfRubric(Rubric("1.0.0", None)))]);
      FactRowsHold(facts, located);
      if specs != [] {
        InsertedAmong(entities, document);
        LocatedRowsSupported(view, Inserts(entities), specs, source, document.body.source, Verified, Some(now));
      }
      InsertedFactsChecked(view, entities, ctx.actor);
    }
  }

  // ---------- imports ----------

  lemma {:induction false} SourceAmongFiles(files: seq<ImportFile>, ids: seq<EntityId>, path: string)
    requires |ids| == 2 * |files|
    ensures var e := SourceByPath(files, ids, path);
            e.Some? ==> e.value in FileRows(files, ids) && e.value.body.OfSource? && e.value.revision == 1
  {
    if files != [] && files[0].path != path {
      SourceAmongFiles(files[1..], ids[2..], path);
    }
  }

  lemma {:induction false} ImportedFactsSupported(view: Rows, ms: seq<Mutation>, files: seq<ImportFile>,
                                                  fileIds: seq<EntityId>, items: seq<FactItem>, ids: seq<EntityId>)
    requires |fileIds| == 2 * |files| && |ids| == |items|
    requires forall e :: e in FileRows(files, fileIds) ==> Insert(e) in ms
    requires ImportedFacts(files, fileIds, items, ids).Ok?
    ensures forall e :: e in ImportedFacts(files, fileIds, items, ids).value && e.body.OfFact? ==>
              FactSupported(view, ms, e.body.fact)
  {
    if items != [] {
      ImportedFactsSupported(view, ms, files, fileIds, items[1..], ids[1..]);
      SourceAmongFiles(files, fileIds, items[0].path);
      var source, fact := SourceByPath(files, fileIds, items[0].path).value,
        ImportedFact(files, fileIds, items[0]).value;
      assert Known(view, ms, source.id, source.body.source)
             && Located(source.id, source.body.source, fact.locators[0], false);
    }
  }

  lemma ImportRowsSupported(view: Rows, input: ImportInput, ids: seq<EntityId>, ms: seq<Mutation>)
    requires |ids| == IdsNeeded(input) && ImportRows(input, ids).Ok?
    requires forall e :: e in ImportRows(input, ids).value ==> Insert(e) in ms
    ensures forall e :: e in ImportRows(input, ids).value && e.body.OfFact? ==> FactSupported(view, ms, e.body.fact)
  {
    var p := SplitIds(input, ids);
    var files, facts := FileRows(input.files, p.files),
      ImportedFacts(input.files, p.files, input.plan.facts, p.facts).value;
    var applications := ImportedApplications(input.files, p.files, input.plan.applications, p.applications).value;
    FilesAreNoFacts(input.files, p.files);
    ApplicationsAreNoFacts(input.files, p.files, input.plan.applications, p.applications);
    ImportedFactsSupported(view, ms, input.files, p.files, input.plan.facts, p.facts);
  }

  lemma {:induction false} FilesAreNoFacts(files: seq<ImportFile>, ids: seq<EntityId>)
    requires |ids| == 2 * |files|
    ensures forall e :: e in FileRows(files, ids) ==> !e.body.OfFact?
  {
    if files != [] {
      FilesAreNoFacts(files[1..], ids[2..]);
    }
  }

  lemma {:induction false} ApplicationsAreNoFacts(files: seq<ImportFile>, fileIds: seq<EntityId>,
                                                  items: seq<ApplicationItem>, ids: seq<EntityId>)
    requires |fileIds| == 2 * |files| && |ids| == 2 * |items|
    requires ImportedApplications(files, fileIds, items, ids).Ok?
    ensures forall e :: e in ImportedApplications(files, fileIds, items, ids).value ==> !e.body.OfFact?
  {
    if items != [] {
      ApplicationsAreNoFacts(files, fileIds, items[1..], ids[2..]);
    }
  }

  lemma ImportChecked(view: Rows, ctx: Context, input: ImportInput, ids: seq<EntityId>)
    ensures var r := PlanApplyImport(view, ctx, input, ids); r.Ok? ==> QuotesChecked(view, r.value)
  {
    var r := PlanApplyImport(view, ctx, input, ids);
    if r.Ok? && r.value.mutations != [] {
      ImportRowsChecked(view, ctx.actor, input, ids);
    }
  }

  lemma ImportRowsChecked(view: Rows, actor: Actor, input: ImportInput, ids: seq<EntityId>)
    requires |ids| == IdsNeeded(input) && ImportRows(input, ids).Ok?
    ensures var entities := ImportRows(input, ids).value;
            QuotesChecked(view, Request(Inserts(entities), EventsOf(entities, actor)))
  {
    var entities := ImportRows(input, ids).value;
    forall e | e in entities
      ensures Insert(e) in Inserts(entities)
    {
      InsertedAmong(entities, e);
    }
    ImportRowsSupported(view, input, ids, Inserts(entities));
    InsertedFactsChecked(view, entities, actor);
  }

  // ---------- runs ----------

  ghost predicate SourceHolds(rows: Rows, l: Locator, primary: bool) {
    l.source in rows && rows[l.source].body.OfSource? && Located(l.source, rows[l.source].body.source, l, primary)
  }

  /** Every locator quotes its source; a verified fact has one, and only in the candidate's own sources. */
  ghost predicate FactHolds(rows: Rows, f: Fact) {
    && (f.status.Verified? ==> f.locators != [])
    && forall l :: l in f.locators ==> SourceHolds(rows, l, f.status.Verified?)
  }

  ghost predicate IsFixedSource(rows: Rows, id: EntityId) {
    id in rows && rows[id].body.OfSource? ==> rows[id].revision == 1
  }

  ghost predicate Supported(rows: Rows) {
    && (forall id :: IsFixedSource(rows, id))
    && forall id :: id in rows && rows[id].body.OfFact? ==> FactHolds(rows, rows[id].body.fact)
  }

  lemma SourceKept(before: Rows, after: Rows, licence: Licence, id: EntityId)
    requires Evolved(before, after, licence)
    ensures id in before && before[id].body.OfSource? ==> id in after && after[id] == before[id]
    ensures IsFixedSource(before, id) ==> IsFixedSource(after, id)
  {
    if id in after {
      assert RowChange(before, after, id, licence);
    }
  }

  lemma HoldsKept(before: Rows, after: Rows, licence: Licence, f: Fact)
    requires Evolved(before, after, licence) && FactHolds(before, f)
    ensures FactHolds(after, f)
  {
    forall l | l in f.locators
      ensures SourceHolds(after, l, f.status.Verified?)
    {
      SourceKept(before, after, licence, l.source);
    }
  }

  /** A source that a request may quote is in the store once the request has committed. */
  lemma KnownHolds(s: Submission, before: Rows, after: Rows, id: EntityId, source: Source)
    requires Stepped(s, before, after) && IsFixedSource(before, id) && Known(s.view, s.request.mutations, id, source)
    ensures id in after && after[id].body == OfSource(source)
  {
    if id in s.view && s.view[id].body == OfSource(source) {
      ReadSourceIsThere(s.view, before, id);
      StepEvolves(s, before, after);
      SourceKept(before, after, s.licence, id);
    } else {
      NewSourceIsThere(s.view, s.request.mutations, before, after, id, source);
    }
  }

  lemma ReadSourceIsThere(view: Rows, before: Rows, id: EntityId)
    requires Behind(view, before) && Keyed(view) && IsFixedSource(before, id) && id in view && view[id].body.OfSource?
    ensures id in before && before[id] == view[id]
  {
  }

  lemma NewSourceIsThere(view: Rows, ms: seq<Mutation>, before: Rows, after: Rows, id: EntityId, source: Source)
    requires Effect(view, ms, before, after) && Insert(Entity(id, 1, OfSource(source))) in ms
    ensures id in after && after[id].body == OfSource(source)
  {
    var m := Insert(Entity(id, 1, OfSource(source)));
    assert m.entity.id in after && after[m.entity.id] == m.entity;
  }

  lemma SupportHolds(s: Submission, before: Rows, after: Rows, f: Fact)
    requires Stepped(s, before, after) && (forall id :: IsFixedSource(before, id))
             && FactSupported(s.view, s.request.mutations, f)
    ensures FactHolds(after, f)
  {
    forall l | l in f.locators
      ensures SourceHolds(after, l, f.status.Verified?)
    {
      assert LocatorKnown(s.view, s.request.mutations, l, f.status.Verified?);
      var source :| Known(s.view, s.request.mutations, l.source, source)
        && Located(l.source, source, l, f.status.Verified?);
      KnownHolds(s, before, after, l.source, source);
    }
  }

  ghost predicate TouchesFacts(licence: Licence) { licence.Profiling? || MayLink(licence) }

  ghost predicate QuotationsChecked(run: Run) {
    forall s :: s in run.submissions && TouchesFacts(s.licence) ==> QuotesChecked(s.view, s.request)
  }

  lemma FactAfter(s: Submission, before: Rows, after: Rows, id: EntityId)
    requires Stepped(s, before, after) && (TouchesFacts(s.licence) ==> QuotesChecked(s.view, s.request))
             && Supported(before)
    requires id in after && after[id].body.OfFact?
    ensures FactHolds(after, after[id].body.fact)
  {
    StepEvolves(s, before, after);
    if id in before && (after[id] == before[id] || !after[id].body.fact.status.Verified?) {
      OldFactHolds(before, after, s.licence, id);
    } else {
      var k := WriteOf(s, before, after, id);
      FactWriteLicence(before, after, s.licence, id);
      SupportHolds(s, before, after, after[id].body.fact);
    }
  }

  lemma FactWriteLicence(before: Rows, after: Rows, licence: Licence, id: EntityId)
    requires Evolved(before, after, licence) && id in after && after[id].body.OfFact?
             && (id !in before || after[id] != before[id])
    ensures TouchesFacts(licence)
  {
    assert RowChange(before, after, id, licence);
  }

  lemma OldFactHolds(before: Rows, after: Rows, licence: Licence, id: EntityId)
    requires Evolved(before, after, licence) && Supported(before) && id in before && id in after
             && after[id].body.OfFact?
    requires after[id] == before[id] || !after[id].body.fact.status.Verified?
    ensures FactHolds(after, after[id].body.fact)
  {
    assert RowChange(before, after, id, licence);
    var was, f := before[id].body.fact, after[id].body.fact;
    HoldsKept(before, after, licence, was);
    forall l | l in f.locators
      ensures SourceHolds(after, l, f.status.Verified?)
    {
      assert SourceHolds(after, l, was.status.Verified?);
    }
  }

  lemma SupportedAt(run: Run, i: nat)
    requires ValidRun(run) && QuotationsChecked(run) && i < |run.submissions| && Supported(run.states[i].rows)
    ensures Supported(run.states[i + 1].rows)
  {
    StepOfRun(run, i);
    var s, before, after := run.submissions[i], run.states[i].rows, run.states[i + 1].rows;
    if Commits(run.states[i], s) {
      forall id | id in after && after[id].body.OfFact?
        ensures FactHolds(after, after[id].body.fact)
      {
        FactAfter(s, before, after, id);
      }
      StepEvolves(s, before, after);
      forall id
        ensures IsFixedSource(after, id)
      {
        SourceKept(before, after, s.licence, id);
      }
    }
  }

  /**
   In every reachable state of every run the locators of each fact quote the text of
   their sources exactly, and each verified fact has at least one locator, all of
   them in sources of the candidate's own.
   */
  lemma {:induction false} FactsQuoteTheirSources(run: Run, i: nat)
    requires ValidRun(run) && QuotationsChecked(run) && i < |run.states|
    ensures Supported(run.states[i].rows)
  {
    if i > 0 {
      FactsQuoteTheirSources(run, i - 1);
      SupportedAt(run, i - 1);
    }
  }
}
