/**
 When canonical text really is canonical: exactly when the collation tells apart
 the keys of every object that are not array indexes. `localeCompare` does not do
 so for every pair of keys (two spellings of an accented letter compare equal), and
 tied keys keep the order they came in.
 */
module CanonicalTies {
  import opened Domain
  import opened StableSort
  import opened Canonical
  import opened CanonicalText
  import opened CanonicalEquivalence

  // ---------- two tied members, swapped ----------

  lemma {:induction false} ClassAppend<T>(le: (T, T) -> bool, a: T, s: seq<T>, t: seq<T>)
    ensures Class(le, a, s + t) == Class(le, a, s) + Class(le, a, t)
  {
    if s == [] {
      assert s + t == t;
    } else {
      ClassAppend(le, a, s[1..], t);
      assert (s + t)[1..] == s[1..] + t;
    }
  }

  lemma {:induction false} ClassesCommute<T>(p: (T, T) -> bool, q: (T, T) -> bool, a: T, s: seq<T>)
    ensures Class(p, a, Class(q, a, s)) == Class(q, a, Class(p, a, s))
  {
    if s != [] {
      ClassesCommute(p, q, a, s[1..]);
      var inP, inQ := p(a, s[0]) && p(s[0], a), q(a, s[0]) && q(s[0], a);
      var headP, headQ := if inP then [s[0]] else [], if inQ then [s[0]] else [];
      ClassAppend(p, a, headQ, Class(q, a, s[1..]));
      ClassAppend(q, a, headP, Class(p, a, s[1..]));
      assert Class(p, a, headQ) == Class(q, a, headP) == if inP && inQ then [s[0]] else [];
    }
  }

  lemma ClassOne<T>(le: (T, T) -> bool, a: T, x: T)
    ensures Class(le, a, [x]) == if le(a, x) && le(x, a) then [x] else []
  {
    assert [x][1..] == [];
  }

  /** The members that tie with `x` in both sorts, in their order. */
  function Peers(le: (string, string) -> bool, x: Member, members: seq<Member>): seq<Member> {
    Class(IndexFirst, x, Class(ByKey(le), x, members))
  }

  lemma PeersAppend(le: (string, string) -> bool, x: Member, s: seq<Member>, t: seq<Member>)
    ensures Peers(le, x, s + t) == Peers(le, x, s) + Peers(le, x, t)
  {
    ClassAppend(ByKey(le), x, s, t);
    ClassAppend(IndexFirst, x, Class(ByKey(le), x, s), Class(ByKey(le), x, t));
  }

  /** Arranging keeps the order of peers. */
  lemma PeersKept(le: (string, string) -> bool, x: Member, members: seq<Member>)
    requires TotalPreorder(le)
    ensures Peers(le, x, Arrange(le, members)) == Peers(le, x, members)
  {
    var by_, sorted := ByKey(le), Sort(ByKey(le), members);
    IndexFirstPreorder();
    ByKeyPreorder(le);
    SortIsStable(by_, members, x);
    SortIsStable(IndexFirst, sorted, x);
    ClassesCommute(IndexFirst, by_, x, Arrange(le, members));
    ClassesCommute(IndexFirst, by_, x, sorted);
  }

  lemma PeersSplit(le: (string, string) -> bool, x: Member, s: seq<Member>, pre: seq<Member>, first: Member,
                   post: seq<Member>)
    requires s == pre + [first] + post && Peers(le, x, [first]) == [first]
    ensures |Peers(le, x, pre)| < |Peers(le, x, s)| && Peers(le, x, s)[|Peers(le, x, pre)|] == first
  {
    PeersAppend(le, x, pre + [first], post);
    PeersAppend(le, x, pre, [first]);
  }

  function Swap(members: seq<Member>, i: nat, j: nat): seq<Member>
    requires i < j < |members|
  {
    members[i := members[j]][j := members[i]]
  }

  lemma SplitAt(s: seq<Member>, i: nat)
    requires i < |s|
    ensures s == s[..i] + [s[i]] + s[i + 1..]
  {
  }

  /** Sequences that first differ in two peers have different peers. */
  lemma PeersDiffer(le: (string, string) -> bool, x: Member, s: seq<Member>, t: seq<Member>, i: nat)
    requires i < |s| && i < |t| && s[..i] == t[..i] && s[i] != t[i]
    requires Peers(le, x, [s[i]]) == [s[i]] && Peers(le, x, [t[i]]) == [t[i]]
    ensures Peers(le, x, s) != Peers(le, x, t)
  {
    SplitAt(s, i);
    SplitAt(t, i);
    PeersSplit(le, x, s, s[..i], s[i], s[i + 1..]);
    PeersSplit(le, x, t, s[..i], t[i], t[i + 1..]);
  }

  lemma SwapShows(le: (string, string) -> bool, members: seq<Member>, i: nat, j: nat)
    requires TotalPreorder(le) && i < j < |members| && !Told(le, members[i].key, members[j].key)
    ensures Arrange(le, Swap(members, i, j)) != Arrange(le, members)
  {
    var x, swapped := members[i], Swap(members, i, j);
    TiedPeers(le, x, members[j]);
    PeersKept(le, x, members);
    PeersKept(le, x, swapped);
    assert members[..i] == swapped[..i];
    PeersDiffer(le, x, members, swapped, i);
  }

  lemma TiedPeers(le: (string, string) -> bool, x: Member, y: Member)
    requires TotalPreorder(le) && !Told(le, x.key, y.key)
    ensures x != y && Peers(le, x, [x]) == [x] && Peers(le, x, [y]) == [y]
  {
    var k := ByKey(le);
    assert le(x.key, x.key);
    assert k(x, x) && k(x, y) && k(y, x) && IndexFirst(x, x) && IndexFirst(x, y) && IndexFirst(y, x);
    ClassOne(k, x, x);
    ClassOne(k, x, y);
    ClassOne(IndexFirst, x, x);
    ClassOne(IndexFirst, x, y);
  }

  // ---------- at any depth ----------

  lemma {:induction false} EquivReflexive(v: Json)
    ensures Equiv(v, v)
  {
    match v
    case JArray(a) =>
      forall i | 0 <= i < |a|
        ensures Equiv(a[i], a[i])
      {
        EquivReflexive(a[i]);
      }
    case JObject(a) =>
      forall i | 0 <= i < |a|
        ensures EquivMember(a[i], a[i])
      {
        EquivReflexive(a[i].value);
      }
      MembersEquiv(a, a);
    case _ =>
  }

  lemma MembersEquiv(a: seq<Member>, b: seq<Member>)
    requires |a| == |b| && forall i :: 0 <= i < |a| ==> EquivMember(a[i], b[i])
    ensures Equiv(JObject(a), JObject(b))
  {
    forall i | 0 <= i < |a|
      ensures HasEquiv(a[i], b) && IsEquiv(a, b[i])
    {
      assert EquivMember(a[i], b[i]);
    }
  }

  lemma SwapEquiv(members: seq<Member>, i: nat, j: nat)
    requires i < j < |members|
    ensures Equiv(JObject(members), JObject(Swap(members, i, j)))
  {
    var b := Swap(members, i, j);
    forall k | 0 <= k < |members|
      ensures HasEquiv(members[k], b) && IsEquiv(members, b[k])
    {
      var other := if k == i then j else if k == j then i else k;
      EquivReflexive(members[k].value);
      EquivReflexive(b[k].value);
      assert EquivMember(members[k], b[other]) && EquivMember(members[other], b[k]);
    }
  }

  lemma {:induction false} NormalizeSwap(le: (string, string) -> bool, a: seq<Member>, i: nat, j: nat)
    requires i < j < |a| && NormalizeMembers(le, a).Ok?
    ensures NormalizeMembers(le, Swap(a, i, j)) == Ok(Swap(NormalizeMembers(le, a).value, i, j))
  {
    MembersSupport(le, a);
    var b, m := Swap(a, i, j), NormalizeMembers(le, a).value;
    MembersSupport(le, b);
    NormalMembers(le, a);
    NormalMembers(le, b);
    var n := NormalizeMembers(le, b).value;
    forall k | 0 <= k < |a|
      ensures n[k] == Swap(m, i, j)[k]
    {
      var from := if k == i then j else if k == j then i else k;
      assert NormalOf(le, a[from], m[from]) && NormalOf(le, b[k], n[k]);
    }
    assert n == Swap(m, i, j);
  }

  /** Another value, equal up to key order, with another normal form. */
  ghost predicate Rival(le: (string, string) -> bool, v: Json, w: Json) {
    DistinctKeys(w) && Supported(w) && Equiv(v, w) && Normalize(le, v) != Normalize(le, w)
  }

  lemma {:induction false} TieHasRival(le: (string, string) -> bool, v: Json) returns (w: Json)
    requires TotalPreorder(le) && DistinctKeys(v) && Supported(v) && !KeysTold(le, v)
    ensures Rival(le, v, w)
    decreases v
  {
    NormalizeSupports(le, v);
    match v
    case JArray(a) =>
      var i :| 0 <= i < |a| && !KeysTold(le, a[i]);
      var x := TieHasRival(le, a[i]);
      w := JArray(a[i := x]);
      ItemRival(le, a, i, x);
    case JObject(a) =>
      if i, j :| 0 <= i < j < |a| && !Told(le, a[i].key, a[j].key) {
        w := JObject(Swap(a, i, j));
        SwapRival(le, a, i, j);
      } else {
        var i :| 0 <= i < |a| && !KeysTold(le, a[i].value);
        var x := TieHasRival(le, a[i].value);
        w := JObject(a[i := Member(a[i].key, x)]);
        MemberRival(le, a, i, x);
      }
  }

  lemma SwapRival(le: (string, string) -> bool, a: seq<Member>, i: nat, j: nat)
    requires TotalPreorder(le) && DistinctKeys(JObject(a)) && Supported(JObject(a)) && i < j < |a|
             && !Told(le, a[i].key, a[j].key)
    ensures Rival(le, JObject(a), JObject(Swap(a, i, j)))
  {
    SwapEquiv(a, i, j);
    SwapWellFormed(a, i, j);
    SwapNormal(le, a, i, j);
  }

  lemma SwapWellFormed(a: seq<Member>, i: nat, j: nat)
    requires DistinctKeys(JObject(a)) && Supported(JObject(a)) && i < j < |a|
    ensures DistinctKeys(JObject(Swap(a, i, j))) && Supported(JObject(Swap(a, i, j)))
  {
  }

  lemma SwapNormal(le: (string, string) -> bool, a: seq<Member>, i: nat, j: nat)
    requires TotalPreorder(le) && Supported(JObject(a)) && i < j < |a| && !Told(le, a[i].key, a[j].key)
    ensures Normalize(le, JObject(a)) != Normalize(le, JObject(Swap(a, i, j)))
  {
    MembersSupport(le, a);
    NormalizeSwap(le, a, i, j);
    NormalMembers(le, a);
    var m := NormalizeMembers(le, a).value;
    assert NormalOf(le, a[i], m[i]) && NormalOf(le, a[j], m[j]);
    SwapShows(le, m, i, j);
  }

  lemma ItemRival(le: (string, string) -> bool, a: seq<Json>, i: nat, x: Json)
    requires DistinctKeys(JArray(a)) && Supported(JArray(a)) && i < |a| && Rival(le, a[i], x)
    ensures Rival(le, JArray(a), JArray(a[i := x]))
  {
    ReplacedItemEquiv(a, i, x);
    NormalizeSupports(le, JArray(a));
    ItemNormal(le, a, a[i := x], i);
  }

  lemma ReplacedItemEquiv(a: seq<Json>, i: nat, x: Json)
    requires i < |a| && Equiv(a[i], x)
    ensures Equiv(JArray(a), JArray(a[i := x]))
  {
    forall k | 0 <= k < |a|
      ensures Equiv(a[k], a[i := x][k])
    {
      EquivReflexive(a[k]);
    }
  }

  lemma ItemNormal(le: (string, string) -> bool, a: seq<Json>, b: seq<Json>, i: nat)
    requires i < |a| == |b| && Normalize(le, JArray(a)).Ok? && Normalize(le, a[i]) != Normalize(le, b[i])
    ensures Normalize(le, JArray(a)) != Normalize(le, JArray(b))
  {
    NormalItems(le, a);
    if NormalizeItems(le, b).Ok? {
      NormalItems(le, b);
    }
  }

  lemma MemberRival(le: (string, string) -> bool, a: seq<Member>, i: nat, x: Json)
    requires DistinctKeys(JObject(a)) && Supported(JObject(a)) && i < |a| && Rival(le, a[i].value, x)
    ensures Rival(le, JObject(a), JObject(a[i := Member(a[i].key, x)]))
  {
    var b := a[i := Member(a[i].key, x)];
    ReplacedEquiv(a, i, x);
    ReplacedWellFormed(a, i, x);
    MemberNormal(le, a, b, i);
  }

  lemma ReplacedEquiv(a: seq<Member>, i: nat, x: Json)
    requires i < |a| && Equiv(a[i].value, x)
    ensures Equiv(JObject(a), JObject(a[i := Member(a[i].key, x)]))
  {
    var b := a[i := Member(a[i].key, x)];
    forall k | 0 <= k < |a|
      ensures EquivMember(a[k], b[k])
    {
      EquivReflexive(a[k].value);
    }
    MembersEquiv(a, b);
  }

  lemma ReplacedWellFormed(a: seq<Member>, i: nat, x: Json)
    requires DistinctKeys(JObject(a)) && Supported(JObject(a)) && i < |a| && DistinctKeys(x) && Supported(x)
    ensures DistinctKeys(JObject(a[i := Member(a[i].key, x)])) && Supported(JObject(a[i := Member(a[i].key, x)]))
  {
  }

  lemma MemberNormal(le: (string, string) -> bool, a: seq<Member>, b: seq<Member>, i: nat)
    requires KeysDiffer(a) && Supported(JObject(a)) && Supported(JObject(b)) && i < |a| == |b|
    requires forall k :: 0 <= k < |a| ==> a[k].key == b[k].key
    requires Normalize(le, a[i].value) != Normalize(le, b[i].value)
    ensures Normalize(le, JObject(a)) != Normalize(le, JObject(b))
  {
    MembersSupport(le, a);
    MembersSupport(le, b);
    var m, n := NormalizeMembers(le, a).value, NormalizeMembers(le, b).value;
    if Arrange(le, m) == Arrange(le, n) {
      ArrangedMembersAgree(le, a, b, m, n, i);
    }
  }

  lemma ArrangedMembersAgree(le: (string, string) -> bool, a: seq<Member>, b: seq<Member>, m: seq<Member>,
                             n: seq<Member>, i: nat)
    requires KeysDiffer(a) && i < |a| == |b| && forall k :: 0 <= k < |a| ==> a[k].key == b[k].key
    requires NormalizeMembers(le, a) == Ok(m) && NormalizeMembers(le, b) == Ok(n) && Arrange(le, m) == Arrange(le, n)
    ensures Normalize(le, a[i].value) == Normalize(le, b[i].value)
  {
    NormalMembers(le, a);
    NormalMembers(le, b);
    assert NormalOf(le, a[i], m[i]) && NormalOf(le, b[i], n[i]);
    assert forall k :: 0 <= k < |b| ==> NormalOf(le, b[k], n[k]);
    SameMembers(le, m, n);
    SameKeyed(m, n, i);
  }

  lemma SameKeyed(m: seq<Member>, n: seq<Member>, i: nat)
    requires i < |m| == |n| && KeysDiffer(n) && m[i].key == n[i].key && forall x :: x in m ==> x in n
    ensures m[i] == n[i]
  {
    assert m[i] in m && m[i] in n;
    var k :| 0 <= k < |n| && n[k] == m[i];
  }

  /**
   The canonical text of a value is the same for every way of ordering its keys if
   and only if the collation (or the enumeration of array indexes) tells the keys of
   each of its objects apart.
   */
  lemma CanonicalIffKeysTold(le: (string, string) -> bool, v: Json)
    requires TotalPreorder(le) && DistinctKeys(v) && Supported(v)
    ensures KeysTold(le, v) <==> forall w :: DistinctKeys(w) && Equiv(v, w) ==>
              CanonicalJson(le, w) == CanonicalJson(le, v)
  {
    if KeysTold(le, v) {
      forall w | DistinctKeys(w) && Equiv(v, w)
        ensures CanonicalJson(le, w) == CanonicalJson(le, v)
      {
        CanonicalDecidesEquivalence(le, v, w);
      }
    } else {
      var w := TieHasRival(le, v);
      NormalizeSupports(le, v);
      NormalizeSupports(le, w);
      if CanonicalJson(le, w) == CanonicalJson(le, v) {
        TextInjective(Normalize(le, v).value, Normalize(le, w).value);
      }
    }
  }

  /** Two spellings of one letter, which collate alike: U+00E9, and "e" with the combining accent U+0301. */
  const COMPOSED := Member("\U{00E9}", JNull)
  const DECOMPOSED := Member("e\U{0301}", JBool(true))

  lemma PairEquiv(x: Member, y: Member)
    requires EquivMember(x, x) && EquivMember(y, y)
    ensures Equiv(JObject([x, y]), JObject([y, x]))
  {
    var a, b := [x, y], [y, x];
    assert EquivMember(a[0], b[1]) && EquivMember(a[1], b[0]);
    assert HasEquiv(a[0], b) && HasEquiv(a[1], b);
    assert IsEquiv(a, b[0]) && IsEquiv(a, b[1]);
  }

  lemma PairDiffers(le: (string, string) -> bool, x: Member, y: Member)
    requires TotalPreorder(le) && Supported(x.value) && Supported(y.value) && !Told(le, x.key, y.key)
    ensures CanonicalJson(le, JObject([x, y])).Ok?
            && CanonicalJson(le, JObject([x, y])) != CanonicalJson(le, JObject([y, x]))
  {
    var a, b := [x, y], [y, x];
    assert Swap(a, 0, 1) == b;
    SwapNormal(le, a, 0, 1);
    NormalizeSupports(le, JObject(a));
    NormalizeSupports(le, JObject(b));
    if CanonicalJson(le, JObject(a)) == CanonicalJson(le, JObject(b)) {
      TextInjective(Normalize(le, JObject(a)).value, Normalize(le, JObject(b)).value);
    }
  }

  /** One object, written in two orders: under a collation that ties its keys, it has two canonical texts. */
  lemma TiedKeysDiffer(le: (string, string) -> bool)
    requires TotalPreorder(le) && le(COMPOSED.key, DECOMPOSED.key) && le(DECOMPOSED.key, COMPOSED.key)
    ensures
      var v, w := JObject([COMPOSED, DECOMPOSED]), JObject([DECOMPOSED, COMPOSED]);
      Equiv(v, w) && CanonicalJson(le, v).Ok? && CanonicalJson(le, v) != CanonicalJson(le, w)
  {
    assert |COMPOSED.key| != |DECOMPOSED.key| && !IsDigit(COMPOSED.key[0]) && !IsDigit(DECOMPOSED.key[0]);
    PairEquiv(COMPOSED, DECOMPOSED);
    PairDiffers(le, COMPOSED, DECOMPOSED);
  }
}
