/**
 The traversal that finds located fact proposals in a profile document
 (packages/career-ops-import/src/index.ts:479-555). The parsed YAML tree is an
 input, and so is which field names count as sensitive.
 */
module ScalarFacts {
  import opened Domain
  import opened EvidenceRules
  import opened ImportSelection
  import opened Canonical
  import opened ImportCommands

  datatype Yaml =
    | Scalar(value: Primitive)
    | NotFinite // `.nan` and the infinities, which canonical JSON refuses
    | Sequence(items: seq<Yaml>)
    | Mapping(entries: seq<Entry>)
    | Unmapped // dates and other values that are no JSON primitives
  datatype Entry = Entry(key: string, value: Yaml)

  const PROFILE := "config/profile.yml"
  const MAX_PROPOSALS := 256

  function Digit(n: nat): char
    requires n < 10
  {
    '0' + n as char
  }

  /** `String(index)` */
  function Number(n: nat): string { if n < 10 then [Digit(n)] else Number(n / 10) + [Digit(n % 10)] }

  /** `path.join(".")` */
  function Dotted(path: seq<string>): string {
    if path == [] then "" else if |path| == 1 then path[0] else path[0] + "." + Dotted(path[1..])
  }

  function PrimitiveJson(value: Primitive): string {
    match value
    case PNull => "null"
    case PBool(b) => if b then "true" else "false"
    case PNumber(shown) => shown
    case PText(text) => Quote(text)
  }

  predicate OccursAt(text: string, part: string, i: nat) { i + |part| <= |text| && text[i..i + |part|] == part }

  /** `indexOf`, from a position on. */
  function IndexFrom(text: string, part: string, i: nat): (r: Option<nat>)
    requires i <= |text|
    ensures r.Some? ==> i <= r.value && OccursAt(text, part, r.value) && forall k :: i <= k < r.value ==>
              !OccursAt(text, part, k)
    ensures r.None? ==> forall k :: k >= i ==> !OccursAt(text, part, k)
    decreases |text| - i
  {
    if OccursAt(text, part, i) then Some(i) else if i == |text| then None else IndexFrom(text, part, i + 1)
  }

  /** The texts that may stand for a value in the document. */
  function Candidates(value: Primitive): seq<string> {
    match value
    case PText("") => [Quote("")]
    case PText(text) => [text, Quote(text)]
    case _ => [Show(value)]
  }

  datatype Place = Place(start: nat, quote: string)

  /** The first candidate that occurs, at its first occurrence. */
  function Find(text: string, candidates: seq<string>): (r: Option<Place>)
    ensures r.Some? ==> r.value.quote in candidates && OccursAt(text, r.value.quote, r.value.start)
    ensures r.None? ==> forall c, k :: c in candidates && k >= 0 ==> !OccursAt(text, c, k)
  {
    if candidates == [] then None
    else
      match IndexFrom(text, candidates[0], 0)
      case Some(start) => Some(Place(start, candidates[0]))
      case None => Find(text, candidates[1..])
  }

  // ---------- the traversal ----------

  datatype Found = Found(proposals: seq<FactItem>, seen: set<string>, warnings: seq<string>) {
    function Visit(text: string, sensitive: string -> bool, value: Yaml, path: seq<string>): Outcome<Found>
      decreases value, 0
    {
      match value
      case Sequence(items) => VisitItems(text, sensitive, items, path, 0)
      case Mapping(entries) => VisitEntries(text, sensitive, entries, path)
      case Unmapped => Ok(this)
      case NotFinite => if sensitive(Dotted(path)) then Ok(Warned(path)) else Err(InvalidRequest)
      case Scalar(primitive) => Ok(VisitScalar(text, sensitive, primitive, path))
    }

    function VisitItems(text: string, sensitive: string -> bool, items: seq<Yaml>, path: seq<string>,
                        index: nat): Outcome<Found>
      decreases items
    {
      if items == [] then Ok(this)
      else
        var next :- Visit(text, sensitive, items[0], path + [Number(index)]);
        next.VisitItems(text, sensitive, items[1..], path, index + 1)
    }

    function VisitEntries(text: string, sensitive: string -> bool, entries: seq<Entry>,
                          path: seq<string>): Outcome<Found>
      decreases entries
    {
      if entries == [] then Ok(this)
      else
        var next :- VisitEntry(text, sensitive, entries[0], path);
        next.VisitEntries(text, sensitive, entries[1..], path)
    }

    function VisitEntry(text: string, sensitive: string -> bool, entry: Entry, path: seq<string>): Outcome<Found>
      decreases entry
    {
      Visit(text, sensitive, entry.value, path + [entry.key])
    }

    function Warned(path: seq<string>): Found { this.(warnings := warnings + [Dotted(path)]) }

    function VisitScalar(text: string, sensitive: string -> bool, primitive: Primitive, path: seq<string>): Found {
      var predicate_ := Dotted(path);
      if sensitive(predicate_) then Warned(path)
      else
        var identity := predicate_ + ":" + PrimitiveJson(primitive);
        if identity in seen then this
        else
          var marked := this.(seen := seen + {identity});
          match Find(text, Candidates(primitive))
          case None => marked.Warned(path)
          case Some(place) =>
            marked.(proposals := proposals + [Proposal(path, primitive, place)])
    }
  }

  function Proposal(path: seq<string>, primitive: Primitive, place: Place): FactItem {
    FactItem(PROFILE, if path == [] then "profile" else path[0], "candidate", Dotted(path), primitive,
             place.start, place.start + |place.quote|, place.quote)
  }

  const NOTHING := Found([], {}, [])

  function ScalarFactsOf(text: string, sensitive: string -> bool, root: Yaml): Outcome<seq<FactItem>> {
    var found :- NOTHING.Visit(text, sensitive, root, []);
    Ok(if |found.proposals| <= MAX_PROPOSALS then found.proposals else found.proposals[..MAX_PROPOSALS])
  }

  class Scanner {
    const text: string
    const sensitive: string -> bool
    var proposals: seq<FactItem>
    var seen: set<string>
    var warnings: seq<string>

    function State(): Found
      reads this
    {
      Found(proposals, seen, warnings)
    }

    constructor (text: string, sensitive: string -> bool)
      ensures this.text == text && this.sensitive == sensitive && State() == NOTHING
    {
      this.text, this.sensitive, proposals, seen, warnings := text, sensitive, [], {}, [];
    }

    /** The traversal ends as specified, or throws what is specified. */
    predicate Ends(r: Outcome<()>, specified: Outcome<Found>)
      reads this
    {
      match specified
      case Err(code) => r == Err(code)
      case Ok(found) => r == Ok(()) && State() == found
    }

    method Visit(value: Yaml, path: seq<string>) returns (r: Outcome<()>)
      modifies this
      ensures Ends(r, old(State()).Visit(text, sensitive, value, path))
      decreases value
    {
      match value {
        case Sequence(items) =>
          for i := 0 to |items|
            invariant old(State()).VisitItems(text, sensitive, items, path, 0)
                      == State().VisitItems(text, sensitive, items[i..], path, i)
          {
            assert items[i..][1..] == items[i + 1..];
            var _ :- Visit(items[i], path + [Number(i)]);
          }
        case Mapping(entries) =>
          for i := 0 to |entries|
            invariant old(State()).VisitEntries(text, sensitive, entries, path)
                      == State().VisitEntries(text, sensitive, entries[i..], path)
          {
            assert entries[i..][1..] == entries[i + 1..];
            var _ :- Visit(entries[i].value, path + [entries[i].key]);
          }
        case Unmapped =>
        case NotFinite =>
          if !sensitive(Dotted(path)) {
            return Err(InvalidRequest);
          }
          warnings := warnings + [Dotted(path)];
        case Scalar(primitive) => VisitScalar(primitive, path);
      }
      return Ok(());
    }

    method VisitScalar(primitive: Primitive, path: seq<string>)
      modifies this
      ensures State() == old(State()).VisitScalar(text, sensitive, primitive, path)
    {
      var predicate_ := Dotted(path);
      if sensitive(predicate_) {
        warnings := warnings + [predicate_];
        return;
      }
      var identity := predicate_ + ":" + PrimitiveJson(primitive);
      if identity in seen {
        return;
      }
      seen := seen + {identity};
      var place := Find(text, Candidates(primitive));
      if place.None? {
        warnings := warnings + [predicate_];
        return;
      }
      proposals := proposals + [Proposal(path, primitive, place.value)];
    }
  }

  method FindScalarFacts(text: string, sensitive: string -> bool, root: Yaml) returns (r: Outcome<seq<FactItem>>)
    ensures r == ScalarFactsOf(text, sensitive, root)
  {
    var scanner := new Scanner(text, sensitive);
    var _ :- scanner.Visit(root, []);
    return Ok(if |scanner.proposals| <= MAX_PROPOSALS then scanner.proposals else scanner.proposals[..MAX_PROPOSALS]);
  }

  // ---------- what it finds ----------

  ghost predicate Exact(text: string, f: FactItem) {
    && f.quote != "" && f.end == f.start + |f.quote| && f.start >= 0 && OccursAt(text, f.quote, f.start)
    && f.quote in Candidates(f.value)
  }

  function IdentityOf(f: FactItem): string { f.predicate_ + ":" + PrimitiveJson(f.value) }

  /** Every proposal quotes the document, is not sensitive, and has been seen; no two have one identity. */
  ghost predicate Good(text: string, sensitive: string -> bool, found: Found) {
    && (forall i :: 0 <= i < |found.proposals| ==>
         Exact(text, found.proposals[i]) && !sensitive(found.proposals[i].predicate_)
           && IdentityOf(found.proposals[i]) in found.seen)
    && (forall i, j :: 0 <= i < j < |found.proposals| ==>
          IdentityOf(found.proposals[i]) != IdentityOf(found.proposals[j]))
  }

  /** A scalar value shows as something. */
  ghost predicate Shown(value: Primitive) { value.PNumber? ==> value.shown != "" }

  ghost predicate AllShown(value: Yaml) {
    match value
    case Scalar(p) => Shown(p)
    case Sequence(items) => forall i :: 0 <= i < |items| ==> AllShown(items[i])
    case Mapping(entries) => forall i :: 0 <= i < |entries| ==> AllShown(entries[i].value)
    case _ => true
  }

  lemma ScalarGood(text: string, sensitive: string -> bool, found: Found, primitive: Primitive, path: seq<string>)
    requires Good(text, sensitive, found) && Shown(primitive)
    ensures Good(text, sensitive, found.VisitScalar(text, sensitive, primitive, path))
  {
    var place := Find(text, Candidates(primitive));
    if place.Some? {
      assert place.value.quote != "";
    }
  }

  ghost predicate GoodIfOk(text: string, sensitive: string -> bool, r: Outcome<Found>) {
    r.Ok? ==> Good(text, sensitive, r.value)
  }

  lemma {:induction false} VisitGood(text: string, sensitive: string -> bool, found: Found, value: Yaml,
                                     path: seq<string>)
    requires Good(text, sensitive, found) && AllShown(value)
    ensures GoodIfOk(text, sensitive, found.Visit(text, sensitive, value, path))
    decreases value, 0
  {
    match value
    case Sequence(items) => ItemsGood(text, sensitive, found, items, path, 0);
    case Mapping(entries) => EntriesGood(text, sensitive, found, entries, path);
    case Unmapped =>
    case NotFinite =>
    case Scalar(primitive) => ScalarGood(text, sensitive, found, primitive, path);
  }

  lemma {:induction false} ItemsGood(text: string, sensitive: string -> bool, found: Found, items: seq<Yaml>,
                                     path: seq<string>, index: nat)
    requires Good(text, sensitive, found) && forall i :: 0 <= i < |items| ==> AllShown(items[i])
    ensures GoodIfOk(text, sensitive, found.VisitItems(text, sensitive, items, path, index))
    decreases items
  {
    if items != [] {
      VisitGood(text, sensitive, found, items[0], path + [Number(index)]);
      var next := found.Visit(text, sensitive, items[0], path + [Number(index)]);
      if next.Ok? {
        ItemsGood(text, sensitive, next.value, items[1..], path, index + 1);
      }
    }
  }

  lemma {:induction false} EntriesGood(text: string, sensitive: string -> bool, found: Found, entries: seq<Entry>,
                                       path: seq<string>)
    requires Good(text, sensitive, found) && forall i :: 0 <= i < |entries| ==> AllShown(entries[i].value)
    ensures GoodIfOk(text, sensitive, found.VisitEntries(text, sensitive, entries, path))
    decreases entries
  {
    if entries != [] {
      EntryGood(text, sensitive, found, entries[0], path);
      var next := found.VisitEntry(text, sensitive, entries[0], path);
      if next.Ok? {
        EntriesGood(text, sensitive, next.value, entries[1..], path);
      }
    }
  }

  lemma {:induction false} EntryGood(text: string, sensitive: string -> bool, found: Found, entry: Entry,
                                     path: seq<string>)
    requires Good(text, sensitive, found) && AllShown(entry.value)
    ensures GoodIfOk(text, sensitive, found.VisitEntry(text, sensitive, entry, path))
    decreases entry
  {
    VisitGood(text, sensitive, found, entry.value, path + [entry.key]);
  }

  // ---------- when it fails ----------

  /** Some field that is not sensitive holds a number that is not finite. */
  ghost predicate HoldsNotFinite(sensitive: string -> bool, value: Yaml, path: seq<string>) {
    match value
    case Sequence(items) => exists i: nat :: i < |items| && HoldsNotFinite(sensitive, items[i], path + [Number(i)])
    case Mapping(entries) =>
      exists i: nat :: i < |entries| && HoldsNotFinite(sensitive, entries[i].value, path + [entries[i].key])
    case NotFinite => !sensitive(Dotted(path))
    case _ => false
  }

  /** Some item from `index` on does. */
  ghost predicate ItemNotFinite(sensitive: string -> bool, items: seq<Yaml>, path: seq<string>, index: nat) {
    exists i: nat :: i < |items| && HoldsNotFinite(sensitive, items[i], path + [Number(index + i)])
  }

  ghost predicate EntryNotFinite(sensitive: string -> bool, entries: seq<Entry>, path: seq<string>) {
    exists i: nat :: i < |entries| && HoldsNotFinite(sensitive, entries[i].value, path + [entries[i].key])
  }

  lemma {:induction false} VisitFails(text: string, sensitive: string -> bool, found: Found, value: Yaml,
                                      path: seq<string>)
    ensures found.Visit(text, sensitive, value, path).Err? <==> HoldsNotFinite(sensitive, value, path)
    decreases value, 0
  {
    match value
    case Sequence(items) =>
      ItemsFail(text, sensitive, found, items, path, 0);
      assert ItemNotFinite(sensitive, items, path, 0) <==> HoldsNotFinite(sensitive, value, path);
    case Mapping(entries) => EntriesFail(text, sensitive, found, entries, path);
    case _ =>
  }

  lemma {:induction false} ItemsFail(text: string, sensitive: string -> bool, found: Found, items: seq<Yaml>,
                                     path: seq<string>, index: nat)
    ensures found.VisitItems(text, sensitive, items, path, index).Err? <==> ItemNotFinite(sensitive, items, path, index)
    decreases items
  {
    if items != [] {
      VisitFails(text, sensitive, found, items[0], path + [Number(index)]);
      ItemsCons(sensitive, items, path, index);
      var next := found.Visit(text, sensitive, items[0], path + [Number(index)]);
      if next.Ok? {
        ItemsFail(text, sensitive, next.value, items[1..], path, index + 1);
      }
    }
  }

  lemma ItemsCons(sensitive: string -> bool, items: seq<Yaml>, path: seq<string>, index: nat)
    requires items != []
    ensures ItemNotFinite(sensitive, items, path, index) <==>
              HoldsNotFinite(sensitive, items[0], path + [Number(index)])
                || ItemNotFinite(sensitive, items[1..], path, index + 1)
  {
    var rest := items[1..];
    if i: nat :| i < |items| && HoldsNotFinite(sensitive, items[i], path + [Number(index + i)]) {
      if i > 0 {
        assert rest[i - 1] == items[i] && index + 1 + (i - 1) == index + i;
      }
    }
    if i: nat :| i < |rest| && HoldsNotFinite(sensitive, rest[i], path + [Number(index + 1 + i)]) {
      assert items[i + 1] == rest[i] && index + (i + 1) == index + 1 + i;
    }
    if HoldsNotFinite(sensitive, items[0], path + [Number(index)]) {
      assert index + 0 == index;
    }
  }

  lemma {:induction false} EntriesFail(text: string, sensitive: string -> bool, found: Found, entries: seq<Entry>,
                                       path: seq<string>)
    ensures found.VisitEntries(text, sensitive, entries, path).Err? <==> EntryNotFinite(sensitive, entries, path)
    decreases entries
  {
    if entries != [] {
      EntryFails(text, sensitive, found, entries[0], path);
      EntriesCons(sensitive, entries, path);
      var next := found.VisitEntry(text, sensitive, entries[0], path);
      if next.Ok? {
        EntriesFail(text, sensitive, next.value, entries[1..], path);
      }
    }
  }

  lemma {:induction false} EntryFails(text: string, sensitive: string -> bool, found: Found, entry: Entry,
                                      path: seq<string>)
    ensures found.VisitEntry(text, sensitive, entry, path).Err? <==>
              HoldsNotFinite(sensitive, entry.value, path + [entry.key])
    decreases entry
  {
    VisitFails(text, sensitive, found, entry.value, path + [entry.key]);
  }

  lemma EntriesCons(sensitive: string -> bool, entries: seq<Entry>, path: seq<string>)
    requires entries != []
    ensures EntryNotFinite(sensitive, entries, path) <==>
              HoldsNotFinite(sensitive, entries[0].value, path + [entries[0].key])
                || EntryNotFinite(sensitive, entries[1..], path)
  {
    var rest := entries[1..];
    assert forall i: nat :: i < |rest| ==> rest[i] == entries[i + 1];
    if i: nat :| i < |entries| && HoldsNotFinite(sensitive, entries[i].value, path + [entries[i].key]) {
      if i > 0 {
        assert rest[i - 1] == entries[i];
      }
    }
  }

  // ---------- the results ----------

  /**
   Discovery of facts fails exactly for a document in which a field that is not sensitive
   holds a number that is not finite.
   */
  lemma FailsExactly(text: string, sensitive: string -> bool, root: Yaml)
    ensures ScalarFactsOf(text, sensitive, root).Err? <==> HoldsNotFinite(sensitive, root, [])
  {
    VisitFails(text, sensitive, NOTHING, root, []);
  }

  /**
   Whatever the document, if its traversal does not fail, every proposal quotes it
   exactly at its offsets, no sensitive field is proposed, no field is proposed twice
   with one value, and there are at most 256 proposals.
   */
  lemma ProposalsQuoteTheDocument(text: string, sensitive: string -> bool, root: Yaml)
    requires AllShown(root) && ScalarFactsOf(text, sensitive, root).Ok?
    ensures var r := ScalarFactsOf(text, sensitive, root).value;
      && |r| <= MAX_PROPOSALS
      && (forall f :: f in r ==>
            0 <= f.start < f.end && Slice(text, f.start, f.end) == f.quote && !sensitive(f.predicate_))
      && (forall i, j :: 0 <= i < j < |r| ==> r[i].predicate_ != r[j].predicate_ || r[i].value != r[j].value)
  {
    VisitGood(text, sensitive, NOTHING, root, []);
    var found, r := NOTHING.Visit(text, sensitive, root, []).value, ScalarFactsOf(text, sensitive, root).value;
    forall f | f in r
      ensures Exact(text, f) && !sensitive(f.predicate_)
    {
      var i :| 0 <= i < |r| && r[i] == f;
      assert found.proposals[i] == f;
    }
    forall i, j | 0 <= i < j < |r|
      ensures r[i].predicate_ != r[j].predicate_ || r[i].value != r[j].value
    {
      assert IdentityOf(found.proposals[i]) != IdentityOf(found.proposals[j]);
    }
  }

  /** Applying such a proposal never fails on its locator, if the document is among the imported files. */
  lemma ProposalsApply(files: seq<ImportFile>, fileIds: seq<EntityId>, text: string, sensitive: string -> bool,
                       root: Yaml, f: FactItem)
    requires AllShown(root) && ScalarFactsOf(text, sensitive, root).Ok?
             && f in ScalarFactsOf(text, sensitive, root).value
    requires f.path == PROFILE
    requires |fileIds| == 2 * |files| && SourceByPath(files, fileIds, PROFILE).Some?
    requires var e := SourceByPath(files, fileIds, PROFILE).value; e.body.OfSource? && e.body.source.text == Some(text)
    ensures ImportedFact(files, fileIds, f).Ok?
  {
    ProposalsQuoteTheDocument(text, sensitive, root);
  }
}
