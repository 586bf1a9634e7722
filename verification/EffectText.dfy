/**
 The text whose SHA-256 is an approval's effect digest
 (packages/application/src/workbench.ts:406-418). It determines the effect, so
 with a collision-free digest an approval never fits another effect; this is what
 lets `Digest.OfEffect` stand for the digest elsewhere.
 */
module EffectText {
  import opened Domain
  import opened Canonical
  import opened CanonicalEquivalence

  function Show(n: nat): (s: string)
    ensures s != "" && forall c :: c in s ==> IsDigit(c)
  {
    var last := '0' + (n % 10) as char;
    if n < 10 then [last] else Show(n / 10) + [last]
  }

  lemma {:induction false} ShowDecimal(n: nat)
    ensures Decimal(Show(n)) == n
  {
    var s, last := Show(n), '0' + (n % 10) as char;
    if n < 10 {
      assert s[..|s| - 1] == "";
    } else {
      ShowDecimal(n / 10);
      assert s[..|s| - 1] == Show(n / 10);
    }
  }

  function EffectName(kind: EffectKind): string {
    match kind
    case AcceptComparisonEffect => "comparison.accept"
    case ReviewArtifactEffect => "artifact.review"
    case TransitionEffect => "application.transition"
  }

  function StateName(state: ApplicationState): string {
    match state
    case Considering => "considering"
    case Preparing => "preparing"
    case ReadyForReview => "ready_for_review"
    case Applied => "applied"
    case Responded => "responded"
    case Interview => "interview"
    case Offer => "offer"
    case Hired => "hired"
    case AppRejected => "rejected"
    case Withdrawn => "withdrawn"
    case Closed => "closed"
  }

  function DetailsJson(details: EffectDetails): Json {
    match details
    case NoDetails => JObject([])
    case TransitionDetails(state, effectiveDate, note) =>
      JObject(TransitionFields(StateName(state), effectiveDate, NoteJson(note)))
  }

  /** `name` is the text of an entity identity. */
  function EffectJson(name: EntityId -> string, kind: EffectKind, target: EntityId, revision: nat,
                      details: EffectDetails): Json {
    JObject(EffectFields(EffectName(kind), name(target), Show(revision), DetailsJson(details)))
  }

  lemma OnlyPartner(a: seq<Member>, b: seq<Member>, k: nat)
    requires Equiv(JObject(a), JObject(b)) && k < |a| && k < |b|
    requires a[k].key == b[k].key && KeysDiffer(b)
    ensures Equiv(a[k].value, b[k].value)
  {
    assert HasEquiv(a[k], b);
    var j :| 0 <= j < |b| && EquivMember(a[k], b[j]);
  }

  lemma StatesDiffer(a: ApplicationState, b: ApplicationState)
    requires StateName(a) == StateName(b)
    ensures a == b
  {
    assert |StateName(a)| == |StateName(b)| && StateName(a)[0] == StateName(b)[0];
  }

  lemma NamesDiffer(a: EffectKind, b: EffectKind)
    requires EffectName(a) == EffectName(b)
    ensures a == b
  {
    assert |EffectName(a)| == |EffectName(b)|;
  }

  function NoteJson(note: Option<string>): Json { if note.None? then JNull else JString(note.value) }

  function TransitionFields(state: string, effectiveDate: string, note: Json): (r: seq<Member>)
    ensures KeysDiffer(r)
  {
    assert |"state"| == 5 && |"effectiveDate"| == 13 && |"note"| == 4;
    [Member("state", JString(state)), Member("effectiveDate", JString(effectiveDate)), Member("note", note)]
  }

  function EffectFields(kind: string, target: string, revision: Numeral, details: Json): (r: seq<Member>)
    ensures KeysDiffer(r)
  {
    assert |"effectKind"| == 10 && |"targetId"| == 8 && |"targetRevision"| == 14 && |"effectDetails"| == 13;
    [Member("effectKind", JString(kind)), Member("targetId", JString(target)),
     Member("targetRevision", JNumber(revision)), Member("effectDetails", details)]
  }

  lemma DetailsDiffer(a: EffectDetails, b: EffectDetails)
    requires Equiv(DetailsJson(a), DetailsJson(b))
    ensures a == b
  {
    if a.TransitionDetails? && b.TransitionDetails? {
      TransitionsAgree(StateName(a.state), a.effectiveDate, a.note, StateName(b.state), b.effectiveDate, b.note);
      StatesDiffer(a.state, b.state);
    }
  }

  lemma TransitionsAgree(state: string, date: string, note: Option<string>, state': string, date': string,
                         note': Option<string>)
    requires Equiv(JObject(TransitionFields(state, date, NoteJson(note))),
                   JObject(TransitionFields(state', date', NoteJson(note'))))
    ensures state == state' && date == date' && note == note'
  {
    var m, n := TransitionFields(state, date, NoteJson(note)), TransitionFields(state', date', NoteJson(note'));
    OnlyPartner(m, n, 0);
    OnlyPartner(m, n, 1);
    OnlyPartner(m, n, 2);
  }

  lemma FieldsAgree(kind: string, target: string, revision: Numeral, details: Json, kind': string, target': string,
                    revision': Numeral, details': Json)
    requires Equiv(JObject(EffectFields(kind, target, revision, details)),
                   JObject(EffectFields(kind', target', revision', details')))
    ensures kind == kind' && target == target' && revision == revision' && Equiv(details, details')
  {
    var m, n := EffectFields(kind, target, revision, details), EffectFields(kind', target', revision', details');
    OnlyPartner(m, n, 0);
    OnlyPartner(m, n, 1);
    OnlyPartner(m, n, 2);
    OnlyPartner(m, n, 3);
  }

  lemma EffectSupported(name: EntityId -> string, kind: EffectKind, target: EntityId, revision: nat,
                        details: EffectDetails)
    ensures Supported(EffectJson(name, kind, target, revision, details))
  {
    assert Supported(DetailsJson(details));
  }

  /** The canonical text of an effect determines its kind, target, revision and details. */
  lemma EffectTextInjective(le: (string, string) -> bool, name: EntityId -> string,
                            kind: EffectKind, target: EntityId, revision: nat, details: EffectDetails,
                            kind': EffectKind, target': EntityId, revision': nat, details': EffectDetails)
    requires forall a: EntityId, b: EntityId :: name(a) == name(b) ==> a == b
    requires CanonicalJson(le, EffectJson(name, kind, target, revision, details))
             == CanonicalJson(le, EffectJson(name, kind', target', revision', details'))
    ensures kind == kind' && target == target' && revision == revision' && details == details'
  {
    var v, w := EffectJson(name, kind, target, revision, details),
      EffectJson(name, kind', target', revision', details');
    EffectSupported(name, kind, target, revision, details);
    NormalizeSupports(le, v);
    CanonicalDistinguishes(le, v, w);
    FieldsAgree(EffectName(kind), name(target), Show(revision), DetailsJson(details),
                EffectName(kind'), name(target'), Show(revision'), DetailsJson(details'));
    NamesDiffer(kind, kind');
    ShowDecimal(revision);
    ShowDecimal(revision');
    DetailsDiffer(details, details');
  }
}
