/**
 `applyCareerOpsImport` (packages/application/src/workbench.ts:4613-4991).
 */
module ImportCommands {
  import opened Domain
  import opened Store
  import opened Lifecycle
  import opened Listing
  import opened EvidenceRules
  import opened ImportSelection

  const MAX_FILE_BYTES := 5 * 1024 * 1024
  const MAX_IMPORT_BYTES := 25 * 1024 * 1024

  /** `text` is the content of a text file that is short enough and decodes as UTF-8. */
  datatype ImportFile = ImportFile(path: string, kind: SourceKind, trust: TrustClass, bytes: seq<nat>, digest: Digest,
                                   text: Option<string>)

  /** `files` are in the order of their paths, and `computed` is their fingerprint. */
  datatype ImportInput = ImportInput(
    identityDigest: Digest, fingerprint: Digest, computed: Digest, files: seq<ImportFile>, plan: Plan, wellFormed: bool)

  predicate IdenticalManifest(rows: Rows, input: ImportInput, id: EntityId) {
    id in rows && rows[id].body.OfManifest?
    && rows[id].body.manifest.identityDigest == input.identityDigest
      && rows[id].body.manifest.fingerprint == input.fingerprint
  }

  predicate UniquePaths(files: seq<ImportFile>) {
    forall i, j :: 0 <= i < j < |files| ==> files[i].path != files[j].path
  }

  function CheckFiles(files: seq<ImportFile>): Check {
    if files == [] then Pass
    else if !(0 < |files[0].bytes| <= MAX_FILE_BYTES) then Fail(ArtifactLimitExceeded)
    else if files[0].digest != Sha256(files[0].bytes) then Fail(ArtifactUnsealed)
    else CheckFiles(files[1..])
  }

  function TotalBytes(files: seq<ImportFile>): nat {
    if files == [] then 0 else |files[0].bytes| + TotalBytes(files[1..])
  }

  /** Identities in the order the source draws them: two per file, one per fact, two per application, the manifest. */
  function IdsNeeded(input: ImportInput): nat {
    2 * |input.files| + |input.plan.facts| + 2 * |input.plan.applications| + 1
  }

  function ArtifactRow(file: ImportFile, id: EntityId): Entity {
    Entity(id, 1, OfArtifact(Artifact(CareerOpsBytes, file.digest, [], [], [], Sealed, None)))
  }

  function SourceRow(file: ImportFile, id: EntityId): Entity {
    Entity(id, 1, OfSource(Source(file.kind, file.trust, file.digest, |file.bytes|, None, file.text, false)))
  }

  function FileRows(files: seq<ImportFile>, ids: seq<EntityId>): seq<Entity>
    requires |ids| == 2 * |files|
  {
    if files == [] then []
    else [ArtifactRow(files[0], ids[0]), SourceRow(files[0], ids[1])] + FileRows(files[1..], ids[2..])
  }

  /** `sourceByPath.get` */
  function SourceByPath(files: seq<ImportFile>, ids: seq<EntityId>, path: string): Option<Entity>
    requires |ids| == 2 * |files|
  {
    if files == [] then None
    else if files[0].path == path then Some(SourceRow(files[0], ids[1]))
    else SourceByPath(files[1..], ids[2..], path)
  }

  /** The fact a located proposal becomes, if its source is text and quotes it. */
  function ImportedFact(files: seq<ImportFile>, fileIds: seq<EntityId>, item: FactItem): (r: Outcome<Fact>)
    requires |fileIds| == 2 * |files|
    ensures r.Ok? ==> r.value.status.FactProposed? && r.value.supersedes.None?
  {
    var source := SourceByPath(files, fileIds, item.path);
    :- Require(source.Some? && source.value.body.OfSource?
               && source.value.body.source.text.Some?, EvidenceLocatorInvalid);
    var locator := Locator(source.value.id, item.start, item.end, item.quote);
    :- ValidateSourceLocator(source.value.id, source.value.body.source, locator);
    Ok(Fact(item.factType, item.subject, item.predicate_, item.value, FactProposed, [locator], ByImport, None, None))
  }

  function ImportedFacts(files: seq<ImportFile>, fileIds: seq<EntityId>, items: seq<FactItem>,
                         ids: seq<EntityId>): Outcome<seq<Entity>>
    requires |fileIds| == 2 * |files| && |ids| == |items|
  {
    if items == [] then Ok([])
    else
      var fact :- ImportedFact(files, fileIds, items[0]);
      var rest :- ImportedFacts(files, fileIds, items[1..], ids[1..]);
      Ok([Entity(ids[0], 1, OfFact(fact))] + rest)
  }

  function ImportedApplications(files: seq<ImportFile>, fileIds: seq<EntityId>, items: seq<ApplicationItem>,
                                ids: seq<EntityId>): Outcome<seq<Entity>>
    requires |fileIds| == 2 * |files| && |ids| == 2 * |items|
  {
    if items == [] then Ok([])
    else
      var item := items[0];
      var tracker := SourceByPath(files, fileIds, item.path);
      :- Require(tracker.Some? && tracker.value.body.OfSource?, EntityNotFound);
      var opportunity := Opportunity(tracker.value.id, item.organization, item.url, None, Captured,
                                     tracker.value.body.source.digest, 0);
      var application := Application(ids[0], item.state, 1, item.effectiveDate, item.note);
      var rest :- ImportedApplications(files, fileIds, items[1..], ids[2..]);
      Ok([Entity(ids[0], 1, OfOpportunity(opportunity)), Entity(ids[1], 1, OfApplication(application))] + rest)
  }

  // ---------- the manifest ----------

  function FactMappings(items: seq<FactItem>, ids: seq<EntityId>): seq<MappingRecord>
    requires |ids| == |items|
  {
    if items == [] then []
    else
      [MappingRecord(ProfileMapping, FactIdentity(items[0]), Imported, Some(ids[0]))]
      + FactMappings(items[1..], ids[1..])
  }

  function ApplicationMappings(items: seq<ApplicationItem>, ids: seq<EntityId>): seq<MappingRecord>
    requires |ids| == 2 * |items|
  {
    if items == [] then []
    else [MappingRecord(ApplicationMapping, items[0].identity, Imported,
                        Some(ids[1]))] + ApplicationMappings(items[1..], ids[2..])
  }

  function PassiveMappings(files: seq<ImportFile>, fileIds: seq<EntityId>, items: seq<PassiveItem>): seq<MappingRecord>
    requires |fileIds| == 2 * |files|
  {
    if items == [] then []
    else
      var source := SourceByPath(files, fileIds, items[0].path);
      [MappingRecord(items[0].sourceType, items[0].identity, items[0].disposition, if source.Some?
                     then Some(source.value.id) else None)]
      + PassiveMappings(files, fileIds, items[1..])
  }

  datatype IdPlan = IdPlan(files: seq<EntityId>, facts: seq<EntityId>, applications: seq<EntityId>, manifest: EntityId)

  function SplitIds(input: ImportInput, ids: seq<EntityId>): (p: IdPlan)
    requires |ids| == IdsNeeded(input)
    ensures |p.files| == 2 * |input.files| && |p.facts| == |input.plan.facts|
            && |p.applications| == 2 * |input.plan.applications|
  {
    var a := 2 * |input.files|;
    var b := a + |input.plan.facts|;
    var c := b + 2 * |input.plan.applications|;
    IdPlan(ids[..a], ids[a..b], ids[b..c], ids[c])
  }

  function Mappings(input: ImportInput, p: IdPlan): seq<MappingRecord>
    requires |p.files| == 2 * |input.files| && |p.facts| == |input.plan.facts|
             && |p.applications| == 2 * |input.plan.applications|
  {
    FactMappings(input.plan.facts, p.facts)
    + ApplicationMappings(input.plan.applications, p.applications)
    + PassiveMappings(input.files, p.files, input.plan.passives)
  }

  lemma {:induction false} ImportedFactsNew(files: seq<ImportFile>, fileIds: seq<EntityId>, items: seq<FactItem>,
                                            ids: seq<EntityId>)
    requires |fileIds| == 2 * |files| && |ids| == |items|
    requires ImportedFacts(files, fileIds, items, ids).Ok?
    ensures forall e :: e in ImportedFacts(files, fileIds, items, ids).value ==> NewRow(e)
  {
    if items != [] {
      ImportedFactsNew(files, fileIds, items[1..], ids[1..]);
    }
  }

  lemma {:induction false} ImportedApplicationsNew(files: seq<ImportFile>, fileIds: seq<EntityId>,
                                                   items: seq<ApplicationItem>, ids: seq<EntityId>)
    requires |fileIds| == 2 * |files| && |ids| == 2 * |items|
    requires ImportedApplications(files, fileIds, items, ids).Ok?
    ensures forall e :: e in ImportedApplications(files, fileIds, items, ids).value ==> NewRow(e)
  {
    if items != [] {
      ImportedApplicationsNew(files, fileIds, items[1..], ids[2..]);
    }
  }

  lemma {:induction false} FileRowsNew(files: seq<ImportFile>, ids: seq<EntityId>)
    requires |ids| == 2 * |files|
    ensures forall e :: e in FileRows(files, ids) ==> NewRow(e)
  {
    if files != [] {
      FileRowsNew(files[1..], ids[2..]);
    }
  }

  function ImportRows(input: ImportInput, ids: seq<EntityId>): (r: Outcome<seq<Entity>>)
    requires |ids| == IdsNeeded(input)
    ensures r.Ok? ==> forall e :: e in r.value ==> NewRow(e)
  {
    ImportRowsOf(input, SplitIds(input, ids))
  }

  function ImportRowsOf(input: ImportInput, p: IdPlan): (r: Outcome<seq<Entity>>)
    requires |p.files| == 2 * |input.files| && |p.facts| == |input.plan.facts|
             && |p.applications| == 2 * |input.plan.applications|
    ensures r.Ok? ==> forall e :: e in r.value ==> NewRow(e)
  {
    FileRowsNew(input.files, p.files);
    var facts :- ImportedFacts(input.files, p.files, input.plan.facts, p.facts);
    ImportedFactsNew(input.files, p.files, input.plan.facts, p.facts);
    var applications :- ImportedApplications(input.files, p.files, input.plan.applications, p.applications);
    ImportedApplicationsNew(input.files, p.files, input.plan.applications, p.applications);
    var manifest := Entity(p.manifest, 1, OfManifest(Manifest(input.identityDigest, input.fingerprint,
                                                              Mappings(input, p))));
    Ok(FileRows(input.files, p.files) + facts + applications + [manifest])
  }

  /** An import already on record returns without a commit, which the empty request stands for. */
  function PlanApplyImport(rows: Rows, ctx: Context, input: ImportInput, ids: seq<EntityId>): (r: Outcome<Request>)
    ensures InsertsOnly(r)
  {
    if !(input.wellFormed && 0 < |input.files| <= 512) then Err(InvalidRequest) else
    if exists id :: id in rows && IdenticalManifest(rows, input, id) then Ok(Request([], []))
    else
      :- Require(UniquePaths(input.files), DuplicateIdentity);
      :- CheckFiles(input.files);
      :- Require(TotalBytes(input.files) <= MAX_IMPORT_BYTES, ArtifactLimitExceeded);
      :- Require(input.computed == input.fingerprint, RevisionConflict);
      :- Require(|ids| == IdsNeeded(input), InvalidRequest);
      var entities :- ImportRows(input, ids);
      NewRowsOnly(entities, ctx.actor);
      Ok(Request(Inserts(entities), EventsOf(entities, ctx.actor)))
  }
}
