/**
 packages/domain/src/evidence.ts: what a source locator must quote, what may be
 accepted as evidence, and the identity under which a rejection is remembered.
 */
module EvidenceRules {
  import opened Domain

  function Min(a: int, b: int): int { if a <= b then a else b }

  /** `String.prototype.slice` for offsets that are not negative: both are clamped to the text. */
  function Slice(text: string, start: int, end: int): string
    requires 0 <= start <= end
  {
    text[Min(start, |text|)..Min(end, |text|)]
  }

  function ValidateSourceLocator(id: EntityId, source: Source, locator: Locator): Check {
    if locator.source != id then Fail(EvidenceLocatorInvalid)
    else if !(0 <= locator.start < locator.end) then Fail(EvidenceLocatorInvalid)
    else if source.text.None? then Fail(EvidenceLocatorInvalid)
    else Require(Slice(source.text.value, locator.start, locator.end) == locator.quote, EvidenceLocatorInvalid)
  }

  function Show(value: Primitive): string {
    match value
    case PNull => "null"
    case PBool(b) => if b then "true" else "false"
    case PNumber(shown) => shown
    case PText(text) => text
  }

  function RenderClaim(subject: string, predicate_: string, value: Primitive): string {
    subject + " " + predicate_ + " " + Show(value)
  }

  predicate IsSpace(c: char) { c in {' ', '\t', '\n', '\r'} }

  function Lower(c: char): char { if 'A' <= c <= 'Z' then c + 32 as char else c }

  /** Trim, fold white space and lower the case (NFKC is not modelled). */
  function NormalizeText(text: string): string { Squeeze(text, false, false) }

  function Squeeze(text: string, gap: bool, started: bool): string {
    if text == "" then ""
    else if IsSpace(text[0]) then Squeeze(text[1..], true, started)
    else (if gap && started then " " else "") + [Lower(text[0])] + Squeeze(text[1..], false, true)
  }

  datatype LocatorIdentity = LocatorIdentity(start: int, end: int, quote: string)
  datatype SourceIdentity = SourceIdentity(digest: Digest, locator: Option<LocatorIdentity>)
  /** The object whose canonical JSON text is the rejection identity. */
  datatype Identity = Identity(claim: string, source: Option<SourceIdentity>)

  function RejectionIdentity(evidence: Evidence, source: Option<Source>): Identity {
    Identity(
      NormalizeText(evidence.claim),
      match source
      case None => None
      case Some(s) =>
        Some(SourceIdentity(
               s.digest,
               match evidence.locator
               case None => None
               case Some(l) => Some(LocatorIdentity(l.start, l.end, NormalizeText(l.quote))))))
  }

  predicate IsExternalFact(c: Classification) { c.OpportunityFact? || c.CompanyFact? || c.MarketFact? }

  function ValidateForAcceptance(evidence: Evidence, source: Option<Source>, fact: Option<Fact>): Check {
    if !evidence.decision.EvidenceProposed? then Fail(InvalidTransition)
    else if evidence.classification.Gap? then
      Require(evidence.source.None? && evidence.locator.None?, EvidenceUnsupported)
    else if evidence.classification.CandidateFact?
      && !(fact.Some? && fact.value.status.Verified?
           && evidence.claim == RenderClaim(fact.value.subject, fact.value.predicate_, fact.value.value)
           && source.Some? && source.value.trust.CandidatePrimary?) then Fail(EvidenceUnsupported)
    else if IsExternalFact(evidence.classification)
      && !(source.Some? && source.value.trust.External?
           && evidence.locator.Some? && evidence.claim == evidence.locator.value.quote) then Fail(EvidenceUnsupported)
    else if !evidence.classification.CandidateFact? && !IsExternalFact(evidence.classification)
      && evidence.claim == "" then
      Fail(EvidenceUnsupported)
    else if source.Some? && evidence.locator.Some? && evidence.source.Some? then
      ValidateSourceLocator(evidence.source.value, source.value, evidence.locator.value)
    else Pass
  }
}
