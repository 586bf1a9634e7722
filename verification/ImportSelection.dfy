/**
 The user's selection out of a discovered Career Ops plan
 (apps/server/src/routes.ts:290-356) and the mappings that applying it records
 (packages/application/src/workbench.ts:4795-4944).
 */
module ImportSelection {
  import opened Domain

  datatype FactItem = FactItem(path: string, factType: string, subject: string, predicate_: string, value: Primitive,
                               start: int, end: int, quote: string)
  datatype ApplicationItem = ApplicationItem(
    path: string, identity: string, organization: string, url: Option<string>, state: ApplicationState,
    effectiveDate: string, note: Option<string>)
  datatype PassiveItem = PassiveItem(sourceType: MappingType, identity: string, path: string, disposition: Disposition)

  datatype Plan = Plan(facts: seq<FactItem>, applications: seq<ApplicationItem>, passives: seq<PassiveItem>)

  /** `profileIdentity` */
  function FactIdentity(item: FactItem): string { item.path + ":" + item.predicate_ }

  function Filter<T(!new)>(items: seq<T>, keep: T -> bool): (kept: seq<T>)
    ensures forall x :: x in kept <==> x in items && keep(x)
  {
    if items == [] then []
    else (if keep(items[0]) then [items[0]] else []) + Filter(items[1..], keep)
  }

  function Apply<S, T>(items: seq<S>, f: S -> T): (mapped: seq<T>)
    ensures |mapped| == |items|
    ensures forall i :: 0 <= i < |items| ==> mapped[i] == f(items[i])
  {
    seq(|items|, i requires 0 <= i < |items| => f(items[i]))
  }

  function SkipUnselected(selected: set<string>, item: PassiveItem): PassiveItem {
    if item.identity in selected then item else item.(disposition := Skipped)
  }

  function SkippedFact(item: FactItem): PassiveItem {
    PassiveItem(ProfileMapping, FactIdentity(item), item.path, Skipped)
  }
  function SkippedApplication(item: ApplicationItem): PassiveItem {
    PassiveItem(ApplicationMapping, item.identity, item.path, Skipped)
  }

  function Available(plan: Plan): set<string> {
    (set f | f in plan.facts :: FactIdentity(f))
    + (set a | a in plan.applications :: a.identity)
    + (set p | p in plan.passives :: p.identity)
  }

  function KeepFact(selected: set<string>, f: FactItem): bool { FactIdentity(f) in selected }
  function KeepApplication(selected: set<string>, a: ApplicationItem): bool { a.identity in selected }

  /** Selected facts and applications stay; unselected ones become skipped passive mappings. */
  function SelectPlan(plan: Plan, selected: set<string>): Outcome<Plan> {
    if !(selected <= Available(plan)) then Err(InvalidRequest) else
    Ok(Plan(
         Filter(plan.facts, (f: FactItem) => KeepFact(selected, f)),
         Filter(plan.applications, (a: ApplicationItem) => KeepApplication(selected, a)),
         Apply(plan.passives, (p: PassiveItem) => SkipUnselected(selected, p))
         + Apply(Filter(plan.facts, (f: FactItem) => !KeepFact(selected, f)), SkippedFact)
         + Apply(Filter(plan.applications, (a: ApplicationItem) => !KeepApplication(selected, a)), SkippedApplication)))
  }
}
