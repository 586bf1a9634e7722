/** Canonical texts are equal exactly for values that are equal up to the order of object keys, at any depth. */
module CanonicalEquivalence {
  import opened Domain
  import opened StableSort
  import opened Canonical
  import opened CanonicalText

  // ---------- index keys ----------

  ghost predicate Digits(s: string) { forall c :: c in s ==> IsDigit(c) }

  ghost predicate NoLeadingZero(s: string) { s != "" && Digits(s) && (s[0] == '0' ==> s == "0") }

  lemma {:induction false} DecimalPositive(s: string)
    requires Digits(s) && s != "" && s[0] != '0'
    ensures Decimal(s) >= 1
  {
    var n := |s| - 1;
    assert s[0] in s && s[n] in s;
    assert Digits(s[..n]) by { assert forall c :: c in s[..n] ==> c in s; }
    if n > 0 {
      DecimalPositive(s[..n]);
    }
  }

  lemma {:induction false} DecimalInjective(s: string, t: string)
    requires NoLeadingZero(s) && NoLeadingZero(t) && Decimal(s) == Decimal(t)
    ensures s == t
  {
    var m, n := |s| - 1, |t| - 1;
    assert s[m] in s && t[n] in t && s[0] in s && t[0] in t;
    assert Digits(s[..m]) && Digits(t[..n]) by {
      assert (forall c :: c in s[..m] ==> c in s) && (forall c :: c in t[..n] ==> c in t);
    }
    assert Decimal(s[..m]) == Decimal(t[..n]) && s[m] == t[n];
    assert s == s[..m] + [s[m]] && t == t[..n] + [t[n]];
    if m > 0 {
      DecimalPositive(s[..m]);
    }
    if n > 0 {
      DecimalPositive(t[..n]);
    }
    if m > 0 && n > 0 {
      DecimalInjective(s[..m], t[..n]);
    }
  }

  lemma IndexInjective(a: string, b: string)
    requires IndexOf(a).Some? && IndexOf(a) == IndexOf(b)
    ensures a == b
  {
    DecimalInjective(a, b);
  }

  // ---------- the order of the keys ----------

  ghost predicate KeysDiffer(members: seq<Member>) {
    forall i, j :: 0 <= i < j < |members| ==> members[i].key != members[j].key
  }

  /** `localeCompare` tells the two keys apart, or the enumeration of index keys does. */
  ghost predicate Told(le: (string, string) -> bool, a: string, b: string) {
    a == b || IndexOf(a).Some? || IndexOf(b).Some? || !le(a, b) || !le(b, a)
  }

  ghost predicate AllTold(le: (string, string) -> bool, members: seq<Member>) {
    forall i, j :: 0 <= i < j < |members| ==> Told(le, members[i].key, members[j].key)
  }

  lemma IndexFirstPreorder()
    ensures TotalPreorder(IndexFirst)
  {
  }

  lemma ByKeyPreorder(le: (string, string) -> bool)
    requires TotalPreorder(le)
    ensures TotalPreorder(ByKey(le))
  {
    var k := ByKey(le);
    forall a: Member, b: Member
      ensures k(a, b) || k(b, a)
    {
      assert le(a.key, b.key) || le(b.key, a.key);
    }
    forall a: Member, b: Member, c: Member | k(a, b) && k(b, c)
      ensures k(a, c)
    {
      assert le(a.key, b.key) && le(b.key, c.key);
    }
  }

  lemma ArrangeSorts(le: (string, string) -> bool, members: seq<Member>)
    requires TotalPreorder(le)
    ensures TotalPreorder(Lex(IndexFirst, ByKey(le))) && Sorted(Lex(IndexFirst, ByKey(le)), Arrange(le, members))
  {
    IndexFirstPreorder();
    ByKeyPreorder(le);
    LexPreorder(IndexFirst, ByKey(le));
    SortSorts(ByKey(le), members);
    SortRefines(IndexFirst, ByKey(le), Sort(ByKey(le), members));
  }

  lemma ToldApart(le: (string, string) -> bool, members: seq<Member>, a: Member, b: Member)
    requires KeysDiffer(members) && AllTold(le, members) && a in members && b in members
    requires Lex(IndexFirst, ByKey(le))(a, b) && Lex(IndexFirst, ByKey(le))(b, a)
    ensures a == b
  {
    var i :| 0 <= i < |members| && members[i] == a;
    var j :| 0 <= j < |members| && members[j] == b;
    assert IndexFirst(a, b) && IndexFirst(b, a) && ByKey(le)(a, b) && ByKey(le)(b, a);
    if IndexOf(a.key).Some? {
      IndexInjective(a.key, b.key);
    }
    assert i < j ==> Told(le, members[i].key, members[j].key);
    assert j < i ==> Told(le, members[j].key, members[i].key);
  }

  /** If the order tells the keys apart, the same members in any order are arranged alike. */
  lemma ArrangementUnique(le: (string, string) -> bool, a: seq<Member>, b: seq<Member>)
    requires TotalPreorder(le) && KeysDiffer(a) && AllTold(le, a) && multiset(a) == multiset(b)
    ensures Arrange(le, a) == Arrange(le, b)
  {
    var l := Lex(IndexFirst, ByKey(le));
    ArrangeSorts(le, a);
    ArrangeSorts(le, b);
    forall x, y | x in Arrange(le, a) && y in Arrange(le, a) && l(x, y) && l(y, x)
      ensures x == y
    {
      assert x in multiset(Arrange(le, a)) && y in multiset(Arrange(le, a));
      assert x in a && y in a;
      ToldApart(le, a, x, y);
    }
    SortedPermutation(l, Arrange(le, a), Arrange(le, b));
  }

  // ---------- equality up to key order ----------

  /** The keys of every object, at any depth, are different. */
  ghost predicate DistinctKeys(v: Json) {
    match v
    case JArray(items) => forall i :: 0 <= i < |items| ==> DistinctKeys(items[i])
    case JObject(members) => KeysDiffer(members) && forall i :: 0 <= i < |members| ==> DistinctKeys(members[i].value)
    case _ => true
  }

  ghost predicate KeysTold(le: (string, string) -> bool, v: Json) {
    match v
    case JArray(items) => forall i :: 0 <= i < |items| ==> KeysTold(le, items[i])
    case JObject(members) => AllTold(le, members) && forall i :: 0 <= i < |members| ==> KeysTold(le, members[i].value)
    case _ => true
  }

  /** Equal up to the order of object keys, at any depth. */
  ghost predicate Equiv(v: Json, w: Json) {
    match v
    case JArray(a) => w.JArray? && |a| == |w.items| && forall i :: 0 <= i < |a| ==> Equiv(a[i], w.items[i])
    case JObject(a) =>
      && w.JObject? && |a| == |w.members|
      && (forall i :: 0 <= i < |a| ==> HasEquiv(a[i], w.members))
      && (forall j :: 0 <= j < |w.members| ==> IsEquiv(a, w.members[j]))
    case _ => v == w
  }

  ghost predicate EquivMember(m: Member, n: Member) { m.key == n.key && Equiv(m.value, n.value) }

  ghost predicate HasEquiv(m: Member, b: seq<Member>) { exists j :: 0 <= j < |b| && EquivMember(m, b[j]) }

  ghost predicate IsEquiv(a: seq<Member>, n: Member) { exists i :: 0 <= i < |a| && EquivMember(a[i], n) }

  lemma {:induction false} NormalItems(le: (string, string) -> bool, items: seq<Json>)
    requires NormalizeItems(le, items).Ok?
    ensures forall i :: 0 <= i < |items| ==> Normalize(le, items[i]) == Ok(NormalizeItems(le, items).value[i])
  {
    if items != [] {
      NormalItems(le, items[1..]);
      var rest := NormalizeItems(le, items[1..]).value;
      forall i | 0 < i < |items|
        ensures Normalize(le, items[i]) == Ok(NormalizeItems(le, items).value[i])
      {
        assert items[1..][i - 1] == items[i];
      }
    }
  }

  ghost predicate NormalOf(le: (string, string) -> bool, m: Member, n: Member) {
    n.key == m.key && Normalize(le, m.value) == Ok(n.value)
  }

  lemma {:induction false} NormalMembers(le: (string, string) -> bool, members: seq<Member>)
    requires NormalizeMembers(le, members).Ok?
    ensures forall i :: 0 <= i < |members| ==> NormalOf(le, members[i], NormalizeMembers(le, members).value[i])
  {
    if members != [] {
      NormalMembers(le, members[1..]);
      forall i | 0 < i < |members|
        ensures NormalOf(le, members[i], NormalizeMembers(le, members).value[i])
      {
        assert members[1..][i - 1] == members[i];
      }
    }
  }

  /** Different keys and the same elements make the same multiset. */
  lemma {:induction false} SameElements(a: seq<Member>, b: seq<Member>)
    requires KeysDiffer(a) && KeysDiffer(b) && forall m :: m in a <==> m in b
    ensures multiset(a) == multiset(b)
  {
    OncePer(a);
    OncePer(b);
    forall m
      ensures multiset(a)[m] == multiset(b)[m]
    {
    }
  }

  lemma {:induction false} OncePer(a: seq<Member>)
    requires KeysDiffer(a)
    ensures forall m :: multiset(a)[m] == if m in a then 1 else 0
  {
    if a != [] {
      OncePer(a[1..]);
      assert a == [a[0]] + a[1..];
      assert a[0] !in a[1..];
    }
  }

  /** Values with one normal form are equivalent, whatever the order of keys is. */
  lemma {:induction false} SameNormalForm(le: (string, string) -> bool, v: Json, w: Json)
    requires Normalize(le, v).Ok? && Normalize(le, v) == Normalize(le, w)
    ensures Equiv(v, w)
    decreases v
  {
    match v
    case JArray(a) =>
      NormalItems(le, a);
      NormalItems(le, w.items);
      forall i | 0 <= i < |a|
        ensures Equiv(a[i], w.items[i])
      {
        SameNormalForm(le, a[i], w.items[i]);
      }
    case JObject(a) =>
      SameNormalMembers(le, a, w.members);
    case _ =>
  }

  lemma {:induction false} SameNormalMember(le: (string, string) -> bool, m: Member, n: Member, normal: Member)
    requires NormalOf(le, m, normal) && NormalOf(le, n, normal)
    ensures EquivMember(m, n)
    decreases m
  {
    SameNormalForm(le, m.value, n.value);
  }

  lemma {:induction false} SameNormalMembers(le: (string, string) -> bool, a: seq<Member>, b: seq<Member>)
    requires Normalize(le, JObject(a)).Ok? && Normalize(le, JObject(a)) == Normalize(le, JObject(b))
    ensures Equiv(JObject(a), JObject(b))
    decreases a, 1
  {
    var m, n := NormalizeMembers(le, a).value, NormalizeMembers(le, b).value;
    SameMembers(le, m, n);
    forall i | 0 <= i < |a|
      ensures HasEquiv(a[i], b)
    {
      EquivFound(le, a, b, m, n, i);
    }
    forall j | 0 <= j < |b|
      ensures IsEquiv(a, b[j])
    {
      EquivBack(le, a, b, m, n, j);
    }
  }

  lemma {:induction false} EquivFound(le: (string, string) -> bool, a: seq<Member>, b: seq<Member>, m: seq<Member>,
                                      n: seq<Member>, i: nat)
    requires NormalizeMembers(le, a) == Ok(m) && NormalizeMembers(le, b) == Ok(n) && i < |a|
             && forall x :: x in m <==> x in n
    ensures HasEquiv(a[i], b)
    decreases a, 0
  {
    NormalMembers(le, a);
    NormalMembers(le, b);
    assert m[i] in n;
    var j :| 0 <= j < |n| && n[j] == m[i];
    SameNormalMember(le, a[i], b[j], m[i]);
  }

  lemma {:induction false} EquivBack(le: (string, string) -> bool, a: seq<Member>, b: seq<Member>, m: seq<Member>,
                                     n: seq<Member>, j: nat)
    requires NormalizeMembers(le, a) == Ok(m) && NormalizeMembers(le, b) == Ok(n) && j < |b|
             && forall x :: x in m <==> x in n
    ensures IsEquiv(a, b[j])
    decreases a, 0
  {
    NormalMembers(le, a);
    NormalMembers(le, b);
    assert n[j] in m;
    var i :| 0 <= i < |m| && m[i] == n[j];
    SameNormalMember(le, a[i], b[j], m[i]);
  }

  lemma SameMembers(le: (string, string) -> bool, m: seq<Member>, n: seq<Member>)
    requires Arrange(le, m) == Arrange(le, n)
    ensures |m| == |n| && forall x :: x in m <==> x in n
  {
    assert multiset(m) == multiset(Arrange(le, m)) && multiset(n) == multiset(Arrange(le, n));
    assert |m| == |multiset(m)| && |n| == |multiset(n)|;
    forall x
      ensures x in m <==> x in n
    {
      assert x in multiset(m) <==> x in multiset(n);
    }
  }

  /** Equivalent values have one normal form, if the order of keys tells them apart. */
  lemma {:induction false} EquivalentNormalForms(le: (string, string) -> bool, v: Json, w: Json)
    requires TotalPreorder(le) && DistinctKeys(v) && DistinctKeys(w) && KeysTold(le, v) && Equiv(v, w)
    ensures Normalize(le, v) == Normalize(le, w)
    decreases v
  {
    match v
    case JArray(a) => EquivalentItems(le, a, w.items);
    case JObject(a) =>
      EquivalentMembers(le, a, w.members);
    case _ =>
  }

  lemma {:induction false} EquivalentItems(le: (string, string) -> bool, a: seq<Json>, b: seq<Json>)
    requires TotalPreorder(le) && |a| == |b| && forall i :: 0 <= i < |a| ==>
               DistinctKeys(a[i]) && DistinctKeys(b[i]) && KeysTold(le, a[i]) && Equiv(a[i], b[i])
    ensures NormalizeItems(le, a) == NormalizeItems(le, b)
    decreases a
  {
    if a != [] {
      EquivalentNormalForms(le, a[0], b[0]);
      EquivalentItems(le, a[1..], b[1..]);
    }
  }

  lemma {:induction false} NormalMembersFail(le: (string, string) -> bool, members: seq<Member>)
    requires NormalizeMembers(le, members).Err?
    ensures exists i :: 0 <= i < |members| && Normalize(le, members[i].value).Err?
  {
    if Normalize(le, members[0].value).Ok? {
      NormalMembersFail(le, members[1..]);
      var i :| 0 <= i < |members[1..]| && Normalize(le, members[1..][i].value).Err?;
      assert Normalize(le, members[i + 1].value).Err?;
    }
  }

  ghost predicate SameForm(le: (string, string) -> bool, m: Member, n: Member) {
    m.key == n.key && Normalize(le, m.value) == Normalize(le, n.value)
  }

  /** Each member of one object has a partner with the same normal form in the other. */
  ghost predicate Partnered(le: (string, string) -> bool, a: seq<Member>, b: seq<Member>) {
    forall i :: 0 <= i < |a| ==> HasForm(le, a[i], b)
  }

  ghost predicate HasForm(le: (string, string) -> bool, m: Member, b: seq<Member>) {
    exists j :: 0 <= j < |b| && SameForm(le, m, b[j])
  }

  lemma {:induction false} EquivalentMember(le: (string, string) -> bool, m: Member, n: Member)
    requires TotalPreorder(le) && DistinctKeys(m.value) && DistinctKeys(n.value) && KeysTold(le, m.value)
             && EquivMember(m, n)
    ensures SameForm(le, m, n) && SameForm(le, n, m)
    decreases m
  {
    EquivalentNormalForms(le, m.value, n.value);
  }

  lemma {:induction false} Partners(le: (string, string) -> bool, a: seq<Member>, b: seq<Member>)
    requires TotalPreorder(le) && DistinctKeys(JObject(a)) && DistinctKeys(JObject(b)) && KeysTold(le, JObject(a))
    requires Equiv(JObject(a), JObject(b))
    ensures Partnered(le, a, b) && Partnered(le, b, a)
    decreases a, 0
  {
    forall i | 0 <= i < |a|
      ensures HasForm(le, a[i], b)
    {
      assert HasEquiv(a[i], b);
      var j :| 0 <= j < |b| && EquivMember(a[i], b[j]);
      EquivalentMember(le, a[i], b[j]);
    }
    forall j | 0 <= j < |b|
      ensures HasForm(le, b[j], a)
    {
      assert IsEquiv(a, b[j]);
      var i :| 0 <= i < |a| && EquivMember(a[i], b[j]);
      EquivalentMember(le, a[i], b[j]);
    }
  }

  lemma PartnersFail(le: (string, string) -> bool, a: seq<Member>, b: seq<Member>)
    requires Partnered(le, a, b) && NormalizeMembers(le, a).Err?
    ensures NormalizeMembers(le, b).Err?
  {
    NormalMembersFail(le, a);
    var i :| 0 <= i < |a| && Normalize(le, a[i].value).Err?;
    assert HasForm(le, a[i], b);
    var j :| 0 <= j < |b| && SameForm(le, a[i], b[j]);
    MembersNormal(le, b);
  }

  lemma MembersNormal(le: (string, string) -> bool, members: seq<Member>)
    ensures NormalizeMembers(le, members).Ok? ==> forall i :: 0 <= i < |members| ==> Normalize(le, members[i].value).Ok?
  {
    if NormalizeMembers(le, members).Ok? {
      NormalMembers(le, members);
      assert forall i :: 0 <= i < |members| ==> NormalOf(le, members[i], NormalizeMembers(le, members).value[i]);
    }
  }

  lemma PartnersWithin(le: (string, string) -> bool, a: seq<Member>, b: seq<Member>, m: seq<Member>, n: seq<Member>,
                       x: Member)
    requires Partnered(le, a, b) && NormalizeMembers(le, a) == Ok(m) && NormalizeMembers(le, b) == Ok(n) && x in m
    ensures x in n
  {
    NormalMembers(le, a);
    NormalMembers(le, b);
    var i :| 0 <= i < |m| && m[i] == x;
    assert NormalOf(le, a[i], m[i]);
    assert HasForm(le, a[i], b);
    var j :| 0 <= j < |b| && SameForm(le, a[i], b[j]);
    assert NormalOf(le, b[j], n[j]);
  }

  lemma {:induction false} EquivalentMembers(le: (string, string) -> bool, a: seq<Member>, b: seq<Member>)
    requires TotalPreorder(le) && DistinctKeys(JObject(a)) && DistinctKeys(JObject(b)) && KeysTold(le, JObject(a))
    requires Equiv(JObject(a), JObject(b))
    ensures Normalize(le, JObject(a)) == Normalize(le, JObject(b))
    decreases a, 1
  {
    Partners(le, a, b);
    var m, n := NormalizeMembers(le, a), NormalizeMembers(le, b);
    if m.Err? {
      PartnersFail(le, a, b);
    } else if n.Err? {
      PartnersFail(le, b, a);
    } else {
      SameArrangement(le, a, b, m.value, n.value);
    }
  }

  lemma SameArrangement(le: (string, string) -> bool, a: seq<Member>, b: seq<Member>, m: seq<Member>, n: seq<Member>)
    requires TotalPreorder(le) && KeysDiffer(a) && KeysDiffer(b) && AllTold(le, a)
    requires NormalizeMembers(le, a) == Ok(m) && NormalizeMembers(le, b) == Ok(n)
    requires Partnered(le, a, b) && Partnered(le, b, a)
    ensures Arrange(le, m) == Arrange(le, n)
  {
    forall x
      ensures x in m <==> x in n
    {
      if x in m {
        PartnersWithin(le, a, b, m, n, x);
      }
      if x in n {
        PartnersWithin(le, b, a, n, m, x);
      }
    }
    ArrangedAlike(le, a, b, m, n);
  }

  lemma ArrangedAlike(le: (string, string) -> bool, a: seq<Member>, b: seq<Member>, m: seq<Member>, n: seq<Member>)
    requires TotalPreorder(le) && KeysDiffer(a) && KeysDiffer(b) && AllTold(le, a)
    requires NormalizeMembers(le, a) == Ok(m) && NormalizeMembers(le, b) == Ok(n)
    requires forall x :: x in m <==> x in n
    ensures Arrange(le, m) == Arrange(le, n)
  {
    SameKeys(le, a, m);
    SameKeys(le, b, n);
    SameElements(m, n);
    ArrangementUnique(le, m, n);
  }

  lemma SameKeys(le: (string, string) -> bool, a: seq<Member>, m: seq<Member>)
    requires NormalizeMembers(le, a) == Ok(m) && KeysDiffer(a)
    ensures KeysDiffer(m) && (AllTold(le, a) ==> AllTold(le, m))
  {
    NormalMembers(le, a);
    assert forall i :: 0 <= i < |a| ==> NormalOf(le, a[i], m[i]);
  }

  // ---------- canonicalJson ----------

  lemma {:induction false} NormalizeSupports(le: (string, string) -> bool, v: Json)
    ensures Normalize(le, v).Ok? <==> Supported(v)
    ensures Normalize(le, v).Ok? ==> Supported(Normalize(le, v).value)
  {
    match v
    case JArray(a) => ItemsSupport(le, a);
    case JObject(a) =>
      MembersSupport(le, a);
      if NormalizeMembers(le, a).Ok? {
        ArrangeSupports(le, NormalizeMembers(le, a).value);
      }
    case _ =>
  }

  lemma ArrangeSupports(le: (string, string) -> bool, members: seq<Member>)
    requires forall m :: m in members ==> Supported(m.value)
    ensures Supported(JObject(Arrange(le, members)))
  {
    var r := Arrange(le, members);
    forall i | 0 <= i < |r|
      ensures Supported(r[i].value)
    {
      assert r[i] in multiset(r);
      assert r[i] in members;
    }
  }

  lemma {:induction false} ItemsSupport(le: (string, string) -> bool, items: seq<Json>)
    ensures NormalizeItems(le, items).Ok? <==> forall i :: 0 <= i < |items| ==> Supported(items[i])
    ensures NormalizeItems(le, items).Ok? ==> forall i :: 0 <= i < |items| ==>
              Supported(NormalizeItems(le, items).value[i])
  {
    if items != [] {
      NormalizeSupports(le, items[0]);
      ItemsSupport(le, items[1..]);
      assert items == [items[0]] + items[1..];
    }
  }

  lemma {:induction false} MembersSupport(le: (string, string) -> bool, members: seq<Member>)
    ensures NormalizeMembers(le, members).Ok? <==> forall i :: 0 <= i < |members| ==> Supported(members[i].value)
    ensures NormalizeMembers(le, members).Ok? ==> forall m :: m in NormalizeMembers(le, members).value ==>
              Supported(m.value)
  {
    if members != [] {
      NormalizeSupports(le, members[0].value);
      MembersSupport(le, members[1..]);
      assert members == [members[0]] + members[1..];
    }
  }

  /** `canonicalJson` */
  function CanonicalJson(le: (string, string) -> bool, v: Json): Outcome<string> {
    var normal :- Normalize(le, v);
    NormalizeSupports(le, v);
    Ok(Text(normal))
  }

  /** Equal texts always come from values that are equal up to key order. */
  lemma CanonicalDistinguishes(le: (string, string) -> bool, v: Json, w: Json)
    requires CanonicalJson(le, v).Ok? && CanonicalJson(le, v) == CanonicalJson(le, w)
    ensures Equiv(v, w)
  {
    NormalizeSupports(le, v);
    NormalizeSupports(le, w);
    TextInjective(Normalize(le, v).value, Normalize(le, w).value);
    SameNormalForm(le, v, w);
  }

  /**
   Where the collation tells the keys of each object apart, canonical texts are equal
   exactly for values that are equal up to the order of object keys, at any depth.
   */
  lemma CanonicalDecidesEquivalence(le: (string, string) -> bool, v: Json, w: Json)
    requires TotalPreorder(le) && DistinctKeys(v) && DistinctKeys(w) && KeysTold(le, v) && Supported(v)
    ensures CanonicalJson(le, v) == CanonicalJson(le, w) <==> Equiv(v, w)
  {
    NormalizeSupports(le, v);
    if CanonicalJson(le, v) == CanonicalJson(le, w) {
      CanonicalDistinguishes(le, v, w);
    }
    if Equiv(v, w) {
      EquivalentNormalForms(le, v, w);
    }
  }
}
