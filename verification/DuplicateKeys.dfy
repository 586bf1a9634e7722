/**
 `parseJsonWithoutDuplicateKeys` (packages/contracts/src/validation.ts:15-56).

 The scanner of jsonc-parser is not modelled: its callbacks are the input, and so
 is whether the strict second parse succeeds.
 */
module DuplicateKeys {

  datatype Visit = ObjectBegin | Property(name: string) | ObjectEnd | Elsewhere | ParseError

  datatype Verdict = Duplicated(issues: seq<string>) | Malformed | Accepted

  /** One callback, on the stack of key sets (the innermost object last) and the duplicates so far. */
  datatype Scan = Scan(objectKeys: seq<set<string>>, duplicates: seq<string>, errors: nat) {
    function Step(e: Visit): Scan {
      var top := |objectKeys| - 1;
      match e
      case ObjectBegin => this.(objectKeys := objectKeys + [{}])
      case Property(name) =>
        if top < 0 then this
        else Scan(objectKeys[top := objectKeys[top] + {name}],
                  if name in objectKeys[top] then duplicates + [name] else duplicates, errors)
      case ObjectEnd => if top < 0 then this else this.(objectKeys := objectKeys[..top])
      case Elsewhere => this
      case ParseError => this.(errors := errors + 1)
    }

    function Run(events: seq<Visit>): Scan
      decreases |events|
    {
      if events == [] then this else Step(events[0]).Run(events[1..])
    }
  }

  const START := Scan([], [], 0)

  /** `[...new Set(names)]`: each name once, in the order of first occurrence. */
  function Unique(names: seq<string>): (r: seq<string>)
    ensures forall n :: n in r <==> n in names
    ensures forall i, j :: 0 <= i < j < |r| ==> r[i] != r[j]
  {
    if names == [] then []
    else
      var last, rest := names[|names| - 1], Unique(names[..|names| - 1]);
      assert names == names[..|names| - 1] + [last];
      if last in rest then rest else rest + [last]
  }

  function VerdictOf(s: Scan, strictParse: bool): Verdict {
    if s.duplicates != [] then Duplicated(Unique(s.duplicates))
    else if s.errors > 0 || !strictParse then Malformed
    else Accepted
  }

  method ParseWithoutDuplicateKeys(events: seq<Visit>, strictParse: bool) returns (verdict: Verdict)
    ensures verdict == VerdictOf(START.Run(events), strictParse)
  {
    var objectKeys: seq<set<string>> := [];
    var duplicates: seq<string> := [];
    var parseErrors := 0;
    for i := 0 to |events|
      invariant START.Run(events) == Scan(objectKeys, duplicates, parseErrors).Run(events[i..])
    {
      assert events[i..][1..] == events[i + 1..];
      match events[i] {
        case ObjectBegin =>
          objectKeys := objectKeys + [{}];
        case Property(name) =>
          if |objectKeys| > 0 {
            var keys := objectKeys[|objectKeys| - 1];
            if name in keys {
              duplicates := duplicates + [name];
            }
            objectKeys := objectKeys[|objectKeys| - 1 := keys + {name}];
          }
        case ObjectEnd =>
          if |objectKeys| > 0 {
            objectKeys := objectKeys[..|objectKeys| - 1];
          }
        case Elsewhere =>
        case ParseError =>
          parseErrors := parseErrors + 1;
      }
    }
    assert events[|events|..] == [];
    if |duplicates| > 0 {
      return Duplicated(Unique(duplicates));
    }
    if parseErrors > 0 || !strictParse {
      return Malformed;
    }
    return Accepted;
  }

  // ---------- documents ----------

  datatype Tree = Leaf | Items(items: seq<Tree>) | Fields(fields: seq<Field>)
  datatype Field = Field(name: string, value: Tree)

  /** The callbacks for a complete value. */
  function Visits(v: Tree): seq<Visit> {
    match v
    case Leaf => [Elsewhere]
    case Items(items) => [Elsewhere] + VisitItems(items) + [Elsewhere]
    case Fields(fields) => [ObjectBegin] + VisitFields(fields) + [ObjectEnd]
  }

  function VisitItems(items: seq<Tree>): seq<Visit> {
    if items == [] then [] else Visits(items[0]) + VisitItems(items[1..])
  }

  function VisitFields(fields: seq<Field>): seq<Visit> {
    if fields == [] then [] else [Property(fields[0].name)] + Visits(fields[0].value) + VisitFields(fields[1..])
  }

  /** Some object, at some depth, has two fields of this name. */
  ghost predicate Repeats(v: Tree, name: string) {
    match v
    case Leaf => false
    case Items(items) => exists i :: 0 <= i < |items| && Repeats(items[i], name)
    case Fields(fields) =>
      || (exists i, j :: 0 <= i < j < |fields| && fields[i].name == name && fields[j].name == name)
      || (exists i :: 0 <= i < |fields| && Repeats(fields[i].value, name))
  }

  // ---------- the stack machine on a complete value ----------

  lemma {:induction false} RunAppend(s: Scan, a: seq<Visit>, b: seq<Visit>)
    ensures s.Run(a + b) == s.Run(a).Run(b)
    decreases |a|
  {
    if a == [] {
      assert a + b == b;
    } else {
      assert (a + b)[1..] == a[1..] + b;
      RunAppend(s.Step(a[0]), a[1..], b);
    }
  }

  lemma RunOne(s: Scan, e: Visit)
    ensures s.Run([e]) == s.Step(e)
  {
    assert [e][1..] == [];
  }

  ghost predicate FindsRepeats(s: Scan, t: Scan, v: Tree) {
    && t.objectKeys == s.objectKeys && t.errors == s.errors
    && forall n :: n in t.duplicates <==> n in s.duplicates || Repeats(v, n)
  }

  /**
   After any complete value the stack is what it was, and the duplicates have grown by
   exactly the names it repeats.
   */
  lemma {:induction false} RunValue(s: Scan, v: Tree)
    ensures FindsRepeats(s, s.Run(Visits(v)), v)
    decreases v
  {
    match v
    case Leaf => RunOne(s, Elsewhere);
    case Items(items) =>
      RunOne(s, Elsewhere);
      RunAppend(s, [Elsewhere] + VisitItems(items), [Elsewhere]);
      RunAppend(s, [Elsewhere], VisitItems(items));
      RunItems(s, items);
      RunOne(s.Run(VisitItems(items)), Elsewhere);
    case Fields(fields) =>
      var begun := s.Step(ObjectBegin);
      RunOne(s, ObjectBegin);
      RunAppend(s, [ObjectBegin] + VisitFields(fields), [ObjectEnd]);
      RunAppend(s, [ObjectBegin], VisitFields(fields));
      RunFields(begun, fields);
      RunOne(begun.Run(VisitFields(fields)), ObjectEnd);
  }

  lemma {:induction false} RunItems(s: Scan, items: seq<Tree>)
    ensures s.Run(VisitItems(items)).objectKeys == s.objectKeys && s.Run(VisitItems(items)).errors == s.errors
    ensures forall n :: n in s.Run(VisitItems(items)).duplicates <==>
              n in s.duplicates || exists i :: 0 <= i < |items| && Repeats(items[i], n)
    decreases items
  {
    if items != [] {
      RunValue(s, items[0]);
      RunAppend(s, Visits(items[0]), VisitItems(items[1..]));
      RunItems(s.Run(Visits(items[0])), items[1..]);
      assert items == [items[0]] + items[1..];
    }
  }

  /** The names of fields that come after an equal name, or after one already in `seen`. */
  ghost predicate RepeatsIn(fields: seq<Field>, seen: set<string>, name: string) {
    || (name in seen && exists i :: 0 <= i < |fields| && fields[i].name == name)
    || (exists i, j :: 0 <= i < j < |fields| && fields[i].name == name && fields[j].name == name)
    || (exists i :: 0 <= i < |fields| && Repeats(fields[i].value, name))
  }

  lemma {:induction false} RunFields(s: Scan, fields: seq<Field>)
    requires s.objectKeys != []
    ensures var t := s.Run(VisitFields(fields)); var top := |s.objectKeys| - 1;
      && |t.objectKeys| == |s.objectKeys| && t.objectKeys[..top] == s.objectKeys[..top] && t.errors == s.errors
      && forall n :: n in t.duplicates <==> n in s.duplicates || RepeatsIn(fields, s.objectKeys[top], n)
    decreases fields
  {
    if fields != [] {
      var name, value, rest := fields[0].name, fields[0].value, fields[1..];
      var named := s.Step(Property(name));
      RunOne(s, Property(name));
      RunAppend(s, [Property(name)] + Visits(value), VisitFields(rest));
      RunAppend(s, [Property(name)], Visits(value));
      RunValue(named, value);
      RunFields(named.Run(Visits(value)), rest);
      forall n
        ensures RepeatsIn(fields, s.objectKeys[|s.objectKeys| - 1], n) <==>
                (n == name && name in s.objectKeys[|s.objectKeys| - 1]) || Repeats(value, n)
                || RepeatsIn(rest, s.objectKeys[|s.objectKeys| - 1] + {name}, n)
      {
        RepeatsCons(fields, s.objectKeys[|s.objectKeys| - 1], n);
      }
    }
  }

  lemma RepeatsCons(fields: seq<Field>, seen: set<string>, n: string)
    requires fields != []
    ensures RepeatsIn(fields, seen, n) <==>
            (n == fields[0].name && n in seen) || Repeats(fields[0].value, n)
              || RepeatsIn(fields[1..], seen + {fields[0].name}, n)
  {
    assert fields == [fields[0]] + fields[1..];
    var rest := fields[1..];
    assert forall i :: 0 <= i < |rest| ==> rest[i] == fields[i + 1];
    assert forall i :: 0 < i < |fields| ==> fields[i] == rest[i - 1];
  }

  /**
   A well-formed document is rejected for duplicates exactly when some object at some
   depth repeats a name, with exactly the repeated names as issues; otherwise it is
   accepted; and the scan ends on an empty stack.
   */
  lemma DuplicatesFoundExactly(v: Tree)
    ensures START.Run(Visits(v)).objectKeys == []
    ensures VerdictOf(START.Run(Visits(v)), true) == Accepted <==> forall n :: !Repeats(v, n)
    ensures (exists n :: Repeats(v, n)) ==>
              var verdict := VerdictOf(START.Run(Visits(v)), true);
              verdict.Duplicated? && forall n :: n in verdict.issues <==> Repeats(v, n)
  {
    RunValue(START, v);
    var d := START.Run(Visits(v)).duplicates;
    assert forall n :: n in d <==> Repeats(v, n);
    if d != [] {
      assert d[0] in d && Repeats(v, d[0]);
    }
  }
}
