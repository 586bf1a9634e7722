/**
 Importing a selection loses nothing: the manifest carries every identity of the
 discovered plan as often as it was discovered, what was not selected is skipped,
 and rows are created for exactly what was selected.
 */
module ImportConservation {
  import opened Domain
  import opened ImportSelection
  import opened ImportCommands

  datatype MappingKey = MappingKey(sourceType: MappingType, identity: string)

  function FactKey(f: FactItem): MappingKey { MappingKey(ProfileMapping, FactIdentity(f)) }
  function ApplicationKey(a: ApplicationItem): MappingKey { MappingKey(ApplicationMapping, a.identity) }
  function PassiveKey(p: PassiveItem): MappingKey { MappingKey(p.sourceType, p.identity) }
  function RecordKey(m: MappingRecord): MappingKey { MappingKey(m.sourceType, m.identity) }

  /** Every identity of a plan, as often as it occurs. */
  function PlanKeys(plan: Plan): seq<MappingKey> {
    Apply(plan.facts, FactKey) + Apply(plan.applications, ApplicationKey) + Apply(plan.passives, PassiveKey)
  }

  // ---------- selection ----------

  lemma {:induction false} ApplyCons<S, T>(items: seq<S>, f: S -> T)
    requires items != []
    ensures Apply(items, f) == [f(items[0])] + Apply(items[1..], f)
  {
  }

  lemma {:induction false} ApplyAppend<S, T>(a: seq<S>, b: seq<S>, f: S -> T)
    ensures Apply(a + b, f) == Apply(a, f) + Apply(b, f)
  {
  }

  /** Filtering by a condition and by its negation splits the elements. */
  lemma {:induction false} FilterSplits<S(!new), T>(items: seq<S>, keep: S -> bool, drop: S -> bool, f: S -> T)
    requires forall x :: drop(x) == !keep(x)
    ensures multiset(Apply(Filter(items, keep), f)) + multiset(Apply(Filter(items, drop), f))
            == multiset(Apply(items, f))
  {
    if items != [] {
      FilterSplits(items[1..], keep, drop, f);
      ApplyCons(items, f);
      var kept, dropped := Filter(items[1..], keep), Filter(items[1..], drop);
      if keep(items[0]) {
        assert Filter(items, keep) == [items[0]] + kept && Filter(items, drop) == dropped;
        ApplyCons([items[0]] + kept, f);
        assert ([items[0]] + kept)[1..] == kept;
      } else {
        assert Filter(items, keep) == kept && Filter(items, drop) == [items[0]] + dropped;
        ApplyCons([items[0]] + dropped, f);
        assert ([items[0]] + dropped)[1..] == dropped;
      }
    }
  }

  /** The selected plan has every identity of the discovered one, as often. */
  lemma SelectionConserves(plan: Plan, selected: set<string>)
    requires SelectPlan(plan, selected).Ok?
    ensures multiset(PlanKeys(SelectPlan(plan, selected).value)) == multiset(PlanKeys(plan))
  {
    var chosen := SelectPlan(plan, selected).value;
    var keepFact, dropFact := (f: FactItem) => KeepFact(selected, f), (f: FactItem) => !KeepFact(selected, f);
    var keepApp, dropApp := (a: ApplicationItem) => KeepApplication(selected, a),
      (a: ApplicationItem) => !KeepApplication(selected, a);
    var skippedFacts, skippedApps := Filter(plan.facts, dropFact), Filter(plan.applications, dropApp);
    var passives := Apply(plan.passives, (p: PassiveItem) => SkipUnselected(selected, p));
    FilterSplits(plan.facts, keepFact, dropFact, FactKey);
    FilterSplits(plan.applications, keepApp, dropApp, ApplicationKey);
    ApplyAppend(passives + Apply(skippedFacts, SkippedFact), Apply(skippedApps, SkippedApplication), PassiveKey);
    ApplyAppend(passives, Apply(skippedFacts, SkippedFact), PassiveKey);
    assert Apply(passives, PassiveKey) == Apply(plan.passives, PassiveKey);
    assert Apply(Apply(skippedFacts, SkippedFact), PassiveKey) == Apply(skippedFacts, FactKey);
    assert Apply(Apply(skippedApps, SkippedApplication), PassiveKey) == Apply(skippedApps, ApplicationKey);
    assert PlanKeys(chosen) == Apply(chosen.facts, FactKey) + Apply(chosen.applications, ApplicationKey)
                               + (Apply(plan.passives, PassiveKey) + Apply(skippedFacts, FactKey) + Apply(skippedApps,
                                     ApplicationKey));
  }

  // ---------- the manifest ----------

  lemma {:induction false} FactMappingKeys(items: seq<FactItem>, ids: seq<EntityId>)
    requires |ids| == |items|
    ensures Apply(FactMappings(items, ids), RecordKey) == Apply(items, FactKey)
    ensures forall m :: m in FactMappings(items, ids) ==>
              m.disposition.Imported? && exists f :: f in items && m.identity == FactIdentity(f)
  {
    if items != [] {
      FactMappingKeys(items[1..], ids[1..]);
      ApplyCons(items, FactKey);
      ApplyCons(FactMappings(items, ids), RecordKey);
    }
  }

  lemma {:induction false} ApplicationMappingKeys(items: seq<ApplicationItem>, ids: seq<EntityId>)
    requires |ids| == 2 * |items|
    ensures Apply(ApplicationMappings(items, ids), RecordKey) == Apply(items, ApplicationKey)
    ensures forall m :: m in ApplicationMappings(items, ids) ==>
              m.disposition.Imported? && exists a :: a in items && m.identity == a.identity
  {
    if items != [] {
      ApplicationMappingKeys(items[1..], ids[2..]);
      ApplyCons(items, ApplicationKey);
      ApplyCons(ApplicationMappings(items, ids), RecordKey);
    }
  }

  lemma {:induction false} PassiveMappingKeys(files: seq<ImportFile>, fileIds: seq<EntityId>, items: seq<PassiveItem>)
    requires |fileIds| == 2 * |files|
    ensures Apply(PassiveMappings(files, fileIds, items), RecordKey) == Apply(items, PassiveKey)
    ensures forall m :: m in PassiveMappings(files, fileIds, items) ==>
              exists p :: p in items && m.identity == p.identity && m.disposition == p.disposition
  {
    if items != [] {
      PassiveMappingKeys(files, fileIds, items[1..]);
      ApplyCons(items, PassiveKey);
      ApplyCons(PassiveMappings(files, fileIds, items), RecordKey);
    }
  }

  lemma ManifestKeys(input: ImportInput, p: IdPlan)
    requires |p.files| == 2 * |input.files| && |p.facts| == |input.plan.facts|
             && |p.applications| == 2 * |input.plan.applications|
    ensures Apply(Mappings(input, p), RecordKey) == PlanKeys(input.plan)
  {
    var plan := input.plan;
    var a, b, c := FactMappings(plan.facts, p.facts), ApplicationMappings(plan.applications, p.applications),
      PassiveMappings(input.files, p.files, plan.passives);
    FactMappingKeys(plan.facts, p.facts);
    ApplicationMappingKeys(plan.applications, p.applications);
    PassiveMappingKeys(input.files, p.files, plan.passives);
    ApplyAppend(a + b, c, RecordKey);
    ApplyAppend(a, b, RecordKey);
  }

  /** In a selected plan, what was not selected is only among the passive mappings, and skipped there. */
  lemma UnselectedSkipped(plan: Plan, selected: set<string>, input: ImportInput, p: IdPlan, m: MappingRecord)
    requires SelectPlan(plan, selected) == Ok(input.plan)
    requires |p.files| == 2 * |input.files| && |p.facts| == |input.plan.facts|
             && |p.applications| == 2 * |input.plan.applications|
    requires m in Mappings(input, p) && m.identity !in selected
    ensures m.disposition.Skipped?
  {
    ImportedSelected(plan, selected, input, p);
    PassiveMappingKeys(input.files, p.files, input.plan.passives);
    assert m in PassiveMappings(input.files, p.files, input.plan.passives);
    var q :| q in input.plan.passives && m.identity == q.identity && m.disposition == q.disposition;
    PassiveDisposition(plan, selected, q);
  }

  /** What is imported was selected. */
  lemma ImportedSelected(plan: Plan, selected: set<string>, input: ImportInput, p: IdPlan)
    requires SelectPlan(plan, selected) == Ok(input.plan)
    requires |p.files| == 2 * |input.files| && |p.facts| == |input.plan.facts|
             && |p.applications| == 2 * |input.plan.applications|
    ensures forall m :: m in FactMappings(input.plan.facts, p.facts) ==> m.identity in selected
    ensures forall m :: m in ApplicationMappings(input.plan.applications, p.applications) ==> m.identity in selected
  {
    FactMappingKeys(input.plan.facts, p.facts);
    ApplicationMappingKeys(input.plan.applications, p.applications);
    assert forall f :: f in input.plan.facts ==> KeepFact(selected, f);
    assert forall a :: a in input.plan.applications ==> KeepApplication(selected, a);
  }

  lemma PassiveDisposition(plan: Plan, selected: set<string>, q: PassiveItem)
    requires SelectPlan(plan, selected).Ok? && q in SelectPlan(plan, selected).value.passives && q.identity !in selected
    ensures q.disposition.Skipped?
  {
    var facts := Filter(plan.facts, (f: FactItem) => !KeepFact(selected, f));
    var applications := Filter(plan.applications, (a: ApplicationItem) => !KeepApplication(selected, a));
    var passives := Apply(plan.passives, (p: PassiveItem) => SkipUnselected(selected, p));
    if q in passives {
      var i :| 0 <= i < |passives| && passives[i] == q;
    } else if q in Apply(facts, SkippedFact) {
      var i :| 0 <= i < |facts| && Apply(facts, SkippedFact)[i] == q;
    } else {
      assert q in Apply(applications, SkippedApplication);
      var i :| 0 <= i < |applications| && Apply(applications, SkippedApplication)[i] == q;
    }
  }

  // ---------- the rows ----------

  /** What an imported fact keeps of the item it comes from. */
  datatype FactSummary = FactSummary(factType: string, subject: string, predicate_: string, value: Primitive,
                                     quote: string)

  function SummaryOfItem(f: FactItem): FactSummary {
    FactSummary(f.factType, f.subject, f.predicate_, f.value, f.quote)
  }

  function SummaryOfFact(f: Fact): FactSummary {
    FactSummary(f.factType, f.subject, f.predicate_, f.value, if f.locators == [] then "" else f.locators[0].quote)
  }

  function FactsAmong(entities: seq<Entity>): seq<FactSummary> {
    if entities == [] then []
    else (if entities[0].body.OfFact? then [SummaryOfFact(entities[0].body.fact)] else []) + FactsAmong(entities[1..])
  }

  datatype ApplicationSummary = ApplicationSummary(organization: string, url: Option<string>, state: ApplicationState,
                                                   effectiveDate: string, note: Option<string>)

  function SummaryOfApplication(a: ApplicationItem): ApplicationSummary {
    ApplicationSummary(a.organization, a.url, a.state, a.effectiveDate, a.note)
  }

  /** Each application directly after the opportunity it is for. */
  function ApplicationsAmong(entities: seq<Entity>): seq<ApplicationSummary> {
    if |entities| < 2 then []
    else
      var o, a := entities[0], entities[1];
      (if o.body.OfOpportunity? && a.body.OfApplication? && a.body.application.opportunity == o.id then
         [ApplicationSummary(o.body.opportunity.organization, o.body.opportunity.url, a.body.application.state,
                             a.body.application.effectiveDate, a.body.application.note)]
       else [])
      + ApplicationsAmong(entities[1..])
  }

  lemma {:induction false} FactsAppend(a: seq<Entity>, b: seq<Entity>)
    ensures FactsAmong(a + b) == FactsAmong(a) + FactsAmong(b)
  {
    if a == [] {
      assert a + b == b;
    } else {
      assert (a + b)[1..] == a[1..] + b;
      FactsAppend(a[1..], b);
    }
  }

  lemma {:induction false} NoFacts(entities: seq<Entity>)
    requires forall e :: e in entities ==> !e.body.OfFact?
    ensures FactsAmong(entities) == []
  {
    if entities != [] {
      NoFacts(entities[1..]);
    }
  }

  lemma {:induction false} FilesHold(files: seq<ImportFile>, ids: seq<EntityId>)
    requires |ids| == 2 * |files|
    ensures forall e :: e in FileRows(files, ids) ==> e.body.OfArtifact? || e.body.OfSource?
  {
    if files != [] {
      FilesHold(files[1..], ids[2..]);
    }
  }

  lemma {:induction false} ApplicationsHold(files: seq<ImportFile>, fileIds: seq<EntityId>, items: seq<ApplicationItem>,
                                            ids: seq<EntityId>)
    requires |fileIds| == 2 * |files| && |ids| == 2 * |items| && ImportedApplications(files, fileIds, items, ids).Ok?
    ensures forall e :: e in ImportedApplications(files, fileIds, items, ids).value ==>
              e.body.OfOpportunity? || e.body.OfApplication?
  {
    if items != [] {
      ApplicationsHold(files, fileIds, items[1..], ids[2..]);
    }
  }

  lemma {:induction false} FactsHold(files: seq<ImportFile>, fileIds: seq<EntityId>, items: seq<FactItem>,
                                     ids: seq<EntityId>)
    requires |fileIds| == 2 * |files| && |ids| == |items| && ImportedFacts(files, fileIds, items, ids).Ok?
    ensures FactsAmong(ImportedFacts(files, fileIds, items, ids).value) == Apply(items, SummaryOfItem)
  {
    if items != [] {
      FactsHold(files, fileIds, items[1..], ids[1..]);
      ApplyCons(items, SummaryOfItem);
      var rest := ImportedFacts(files, fileIds, items[1..], ids[1..]).value;
      var fact := ImportedFact(files, fileIds, items[0]).value;
      assert ImportedFacts(files, fileIds, items, ids).value[1..] == rest;
      assert SummaryOfFact(fact) == SummaryOfItem(items[0]);
    }
  }

  /** An import creates exactly the facts of its plan, in order. */
  lemma ImportCreatesFacts(input: ImportInput, ids: seq<EntityId>)
    requires |ids| == IdsNeeded(input) && ImportRows(input, ids).Ok?
    ensures FactsAmong(ImportRows(input, ids).value) == Apply(input.plan.facts, SummaryOfItem)
  {
    var p := SplitIds(input, ids);
    var files, facts := FileRows(input.files, p.files),
      ImportedFacts(input.files, p.files, input.plan.facts, p.facts).value;
    var applications := ImportedApplications(input.files, p.files, input.plan.applications, p.applications).value;
    var manifest := Entity(p.manifest, 1, OfManifest(Manifest(input.identityDigest, input.fingerprint,
                                                              Mappings(input, p))));
    FilesHold(input.files, p.files);
    ApplicationsHold(input.files, p.files, input.plan.applications, p.applications);
    NoFacts(files);
    NoFacts(applications);
    NoFacts([manifest]);
    FactsHold(input.files, p.files, input.plan.facts, p.facts);
    FactsAppend(files + facts + applications, [manifest]);
    FactsAppend(files + facts, applications);
    FactsAppend(files, facts);
  }

  lemma {:induction false} NoOpportunities(prefix: seq<Entity>, rest: seq<Entity>)
    requires forall e :: e in prefix ==> !e.body.OfOpportunity?
    ensures ApplicationsAmong(prefix + rest) == ApplicationsAmong(rest)
  {
    if prefix == [] {
      assert prefix + rest == rest;
    } else {
      assert (prefix + rest)[1..] == prefix[1..] + rest;
      NoOpportunities(prefix[1..], rest);
    }
  }

  lemma {:induction false} PairsAmong(files: seq<ImportFile>, fileIds: seq<EntityId>, items: seq<ApplicationItem>,
                                      ids: seq<EntityId>, last: Entity)
    requires |fileIds| == 2 * |files| && |ids| == 2 * |items| && ImportedApplications(files, fileIds, items, ids).Ok?
    requires last.body.OfManifest?
    ensures ApplicationsAmong(ImportedApplications(files, fileIds, items, ids).value + [last])
            == Apply(items, SummaryOfApplication)
  {
    var all := ImportedApplications(files, fileIds, items, ids).value + [last];
    if items != [] {
      PairsAmong(files, fileIds, items[1..], ids[2..], last);
      var rest := ImportedApplications(files, fileIds, items[1..], ids[2..]).value + [last];
      assert all == [all[0], all[1]] + rest;
      assert all[1..] == [all[1]] + rest && all[2..] == rest;
      NoOpportunities([all[1]], rest);
      ApplyCons(items, SummaryOfApplication);
    }
  }

  /** An import creates exactly the applications of its plan, in order, each with its opportunity. */
  lemma ImportCreatesApplications(input: ImportInput, ids: seq<EntityId>)
    requires |ids| == IdsNeeded(input) && ImportRows(input, ids).Ok?
    ensures ApplicationsAmong(ImportRows(input, ids).value) == Apply(input.plan.applications, SummaryOfApplication)
  {
    var p := SplitIds(input, ids);
    var files, facts := FileRows(input.files, p.files),
      ImportedFacts(input.files, p.files, input.plan.facts, p.facts).value;
    var applications := ImportedApplications(input.files, p.files, input.plan.applications, p.applications).value;
    var manifest := Entity(p.manifest, 1, OfManifest(Manifest(input.identityDigest, input.fingerprint,
                                                              Mappings(input, p))));
    FilesHold(input.files, p.files);
    OnlyFacts(input.files, p.files, input.plan.facts, p.facts);
    assert ImportRows(input, ids).value == (files + facts) + (applications + [manifest]);
    NoOpportunities(files + facts, applications + [manifest]);
    PairsAmong(input.files, p.files, input.plan.applications, p.applications, manifest);
  }

  lemma {:induction false} OnlyFacts(files: seq<ImportFile>, fileIds: seq<EntityId>, items: seq<FactItem>,
                                     ids: seq<EntityId>)
    requires |fileIds| == 2 * |files| && |ids| == |items| && ImportedFacts(files, fileIds, items, ids).Ok?
    ensures forall e :: e in ImportedFacts(files, fileIds, items, ids).value ==> e.body.OfFact?
  {
    if items != [] {
      OnlyFacts(files, fileIds, items[1..], ids[1..]);
    }
  }

  /** The rows of an import of what the user selected out of a discovered plan. */
  ghost predicate ImportsSelection(entities: seq<Entity>, discovered: Plan, selected: set<string>) {
    && entities != [] && entities[|entities| - 1].body.OfManifest?
    && (var mappings := entities[|entities| - 1].body.manifest.mappings;
        && multiset(Apply(mappings, RecordKey)) == multiset(PlanKeys(discovered))
        && forall m :: m in mappings && m.identity !in selected ==> m.disposition.Skipped?)
    && FactsAmong(entities) == Apply(Filter(discovered.facts, (f: FactItem) => KeepFact(selected, f)), SummaryOfItem)
    && ApplicationsAmong(entities) == Apply(Filter(discovered.applications,
                                                   (a: ApplicationItem) => KeepApplication(selected, a)),
                                                     SummaryOfApplication)
  }

  /**
   Importing a selection: the manifest has every discovered identity as often as it
   was discovered, marks each unselected one skipped, and facts and applications are
   created for exactly the selected items.
   */
  lemma ImportOfSelection(input: ImportInput, ids: seq<EntityId>, discovered: Plan, selected: set<string>)
    requires SelectPlan(discovered, selected) == Ok(input.plan)
    requires |ids| == IdsNeeded(input) && ImportRows(input, ids).Ok?
    ensures ImportsSelection(ImportRows(input, ids).value, discovered, selected)
  {
    var p, entities := SplitIds(input, ids), ImportRows(input, ids).value;
    var manifest := Entity(p.manifest, 1, OfManifest(Manifest(input.identityDigest, input.fingerprint,
                                                              Mappings(input, p))));
    assert entities[|entities| - 1] == manifest;
    SelectionConserves(discovered, selected);
    ManifestKeys(input, p);
    forall m | m in Mappings(input, p) && m.identity !in selected
      ensures m.disposition.Skipped?
    {
      UnselectedSkipped(discovered, selected, input, p, m);
    }
    ImportCreatesFacts(input, ids);
    ImportCreatesApplications(input, ids);
  }
}
