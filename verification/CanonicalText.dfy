/** `JSON.stringify` is unambiguous: different values have different texts, and no text runs into what follows it. */
module CanonicalText {
  import opened Canonical

  lemma SplitEqual(a: string, r: string, b: string, q: string)
    requires a + r == b + q && |a| == |b|
    ensures a == b && r == q
  {
    assert a == (a + r)[..|a|] && b == (b + q)[..|b|];
    assert r == (a + r)[|a|..] && q == (b + q)[|b|..];
  }

  lemma HexDistinct(m: nat, n: nat)
    requires m < 16 && n < 16 && Hex(m) == Hex(n)
    ensures m == n
  {
  }

  /** The length of an escape and its second character tell which escape it is. */
  lemma EscapeShape(c: char)
    ensures EscapeChar(c) != "" && EscapeChar(c)[0] != '"'
    ensures EscapeChar(c)[0] != '\\' ==> EscapeChar(c) == [c]
    ensures EscapeChar(c)[0] == '\\' ==>
              |EscapeChar(c)| >= 2 && (|EscapeChar(c)| == 6 <==> EscapeChar(c)[1] == 'u')
                && (|EscapeChar(c)| != 6 ==> |EscapeChar(c)| == 2)
  {
  }

  lemma EscapeDistinct(c: char, d: char)
    requires EscapeChar(c) == EscapeChar(d)
    ensures c == d
  {
    if |EscapeChar(c)| == 6 {
      assert EscapeChar(c)[4] == EscapeChar(d)[4] && EscapeChar(c)[5] == EscapeChar(d)[5];
      HexDistinct(c as nat / 16, d as nat / 16);
      HexDistinct(c as nat % 16, d as nat % 16);
    } else {
      assert EscapeChar(c)[|EscapeChar(c)| - 1] == EscapeChar(d)[|EscapeChar(d)| - 1];
    }
  }

  lemma EscapesDiffer(c: char, x: string, d: char, y: string)
    requires EscapeChar(c) + x == EscapeChar(d) + y
    ensures c == d && x == y
  {
    EscapeShape(c);
    EscapeShape(d);
    var whole := EscapeChar(c) + x;
    assert whole[0] == EscapeChar(c)[0] == EscapeChar(d)[0];
    if EscapeChar(c)[0] == '\\' {
      assert whole[1] == EscapeChar(c)[1] == EscapeChar(d)[1];
    }
    SplitEqual(EscapeChar(c), x, EscapeChar(d), y);
    EscapeDistinct(c, d);
  }

  lemma {:induction false} EscapeUnambiguous(s: string, r: string, t: string, q: string)
    requires Escape(s) + r == Escape(t) + q
    ensures s == t && r == q
  {
    if s == "" || t == "" {
      EscapeEnds(s, r);
      EscapeEnds(t, q);
      assert s == "" && t == "";
      SplitEqual("\"", r, "\"", q);
    } else {
      Reassociate(EscapeChar(s[0]), Escape(s[1..]), r);
      Reassociate(EscapeChar(t[0]), Escape(t[1..]), q);
      EscapesDiffer(s[0], Escape(s[1..]) + r, t[0], Escape(t[1..]) + q);
      EscapeUnambiguous(s[1..], r, t[1..], q);
      assert s == [s[0]] + s[1..] && t == [t[0]] + t[1..];
    }
  }

  lemma Reassociate(a: string, b: string, c: string)
    ensures (a + b) + c == a + (b + c)
  {
  }

  lemma EscapeEnds(s: string, r: string)
    ensures (Escape(s) + r)[0] == '"' <==> s == ""
  {
    if s != "" {
      EscapeShape(s[0]);
    }
  }

  lemma QuoteUnambiguous(s: string, r: string, t: string, q: string)
    requires Quote(s) + r == Quote(t) + q
    ensures s == t && r == q
  {
    Reassociate("\"", Escape(s), r);
    Reassociate("\"", Escape(t), q);
    SplitEqual("\"", Escape(s) + r, "\"", Escape(t) + q);
    EscapeUnambiguous(s, r, t, q);
  }

  /** What may follow a value: nothing, or the punctuation of an enclosing array or object. */
  predicate Delimited(r: string) { r == "" || r[0] == ',' || r[0] == ']' || r[0] == '}' }

  lemma ShorterNumeral(a: string, r: string, b: string, q: string)
    requires a + r == b + q && |a| < |b|
    ensures r != "" && r[0] in b
  {
    assert (a + r)[|a|] == r[0] && (b + q)[|a|] == b[|a|];
  }

  lemma NumeralUnambiguous(a: Numeral, r: string, b: Numeral, q: string)
    requires Delimited(r) && Delimited(q) && a + r == b + q
    ensures a == b && r == q
  {
    if |a| < |b| {
      ShorterNumeral(a, r, b, q);
    } else if |b| < |a| {
      ShorterNumeral(b, q, a, r);
    } else {
      SplitEqual(a, r, b, q);
    }
  }

  /** The first character of a text tells the kind of value. */
  function Lead(v: Json): (c: char)
    requires Supported(v)
    ensures Text(v) != "" && Text(v)[0] == c
  {
    match v
    case JNull => 'n'
    case JBool(b) => if b then 't' else 'f'
    case JNumber(shown) => shown[0]
    case JString(_) => '"'
    case JArray(_) => '['
    case JObject(_) => '{'
  }

  ghost predicate SameKind(v: Json, w: Json) {
    (v.JNull? && w.JNull?) || (v.JBool? && w.JBool? && v == w) || (v.JNumber? && w.JNumber?)
    || (v.JString? && w.JString?) || (v.JArray? && w.JArray?) || (v.JObject? && w.JObject?)
  }

  lemma LeadTellsKind(v: Json, r: string, w: Json, q: string)
    requires Supported(v) && Supported(w) && Text(v) + r == Text(w) + q
    ensures SameKind(v, w)
  {
    assert (Text(v) + r)[0] == Lead(v) && (Text(w) + q)[0] == Lead(w);
  }

  lemma {:induction false} TextUnambiguous(v: Json, r: string, w: Json, q: string)
    requires Supported(v) && Supported(w) && Delimited(r) && Delimited(q)
    requires Text(v) + r == Text(w) + q
    ensures v == w && r == q
    decreases v
  {
    LeadTellsKind(v, r, w, q);
    match v
    case JNull => SplitEqual("null", r, "null", q);
    case JBool(_) => SplitEqual(Text(v), r, Text(w), q);
    case JNumber(a) => NumeralUnambiguous(a, r, w.shown, q);
    case JString(s) => QuoteUnambiguous(s, r, w.text, q);
    case JArray(a) => ArrayUnambiguous(a, r, w.items, q);
    case JObject(a) => ObjectUnambiguous(a, r, w.members, q);
  }

  lemma {:induction false} ArrayUnambiguous(a: seq<Json>, r: string, b: seq<Json>, q: string)
    requires Supported(JArray(a)) && Supported(JArray(b)) && Delimited(r) && Delimited(q)
    requires Text(JArray(a)) + r == Text(JArray(b)) + q
    ensures a == b && r == q
    decreases a
  {
    var s := if a == [] then "]" else Text(a[0]) + ItemsText(a[1..]);
    var t := if b == [] then "]" else Text(b[0]) + ItemsText(b[1..]);
    Reassociate("[", s, r);
    Reassociate("[", t, q);
    SplitEqual("[", s + r, "[", t + q);
    if a == [] || b == [] {
      FirstItem(a, r);
      FirstItem(b, q);
      SplitEqual("]", r, "]", q);
    } else {
      Reassociate(Text(a[0]), ItemsText(a[1..]), r);
      Reassociate(Text(b[0]), ItemsText(b[1..]), q);
      ItemsDelimited(a[1..], r);
      ItemsDelimited(b[1..], q);
      TextUnambiguous(a[0], ItemsText(a[1..]) + r, b[0], ItemsText(b[1..]) + q);
      ItemsUnambiguous(a[1..], r, b[1..], q);
      assert a == [a[0]] + a[1..] && b == [b[0]] + b[1..];
    }
  }

  lemma FirstItem(a: seq<Json>, r: string)
    requires Supported(JArray(a))
    ensures ((if a == [] then "]" else Text(a[0]) + ItemsText(a[1..])) + r)[0] == ']' <==> a == []
  {
    if a != [] {
      assert Text(a[0])[0] == Lead(a[0]);
    }
  }

  lemma ItemsDelimited(a: seq<Json>, r: string)
    requires forall i :: 0 <= i < |a| ==> Supported(a[i])
    ensures Delimited(ItemsText(a) + r) && ((ItemsText(a) + r)[0] == ']' <==> a == [])
  {
  }

  lemma {:induction false} ItemsUnambiguous(a: seq<Json>, r: string, b: seq<Json>, q: string)
    requires (forall i :: 0 <= i < |a| ==> Supported(a[i])) && (forall i :: 0 <= i < |b| ==> Supported(b[i]))
    requires Delimited(r) && Delimited(q) && ItemsText(a) + r == ItemsText(b) + q
    ensures a == b && r == q
    decreases a
  {
    ItemsDelimited(a, r);
    ItemsDelimited(b, q);
    if a == [] {
      SplitEqual("]", r, "]", q);
    } else {
      Regroup(",", Text(a[0]), ItemsText(a[1..]), r);
      Regroup(",", Text(b[0]), ItemsText(b[1..]), q);
      SplitEqual(",", Text(a[0]) + (ItemsText(a[1..]) + r), ",", Text(b[0]) + (ItemsText(b[1..]) + q));
      ItemsDelimited(a[1..], r);
      ItemsDelimited(b[1..], q);
      TextUnambiguous(a[0], ItemsText(a[1..]) + r, b[0], ItemsText(b[1..]) + q);
      ItemsUnambiguous(a[1..], r, b[1..], q);
      assert a == [a[0]] + a[1..] && b == [b[0]] + b[1..];
    }
  }

  lemma Regroup(a: string, b: string, c: string, d: string)
    ensures (a + b + c) + d == a + (b + (c + d))
  {
  }

  lemma {:induction false} MemberUnambiguous(m: Member, r: string, n: Member, q: string)
    requires Supported(m.value) && Supported(n.value) && Delimited(r) && Delimited(q)
    requires MemberText(m) + r == MemberText(n) + q
    ensures m == n && r == q
    decreases m
  {
    Regroup(Quote(m.key), ":", Text(m.value), r);
    Regroup(Quote(n.key), ":", Text(n.value), q);
    QuoteUnambiguous(m.key, ":" + (Text(m.value) + r), n.key, ":" + (Text(n.value) + q));
    SplitEqual(":", Text(m.value) + r, ":", Text(n.value) + q);
    TextUnambiguous(m.value, r, n.value, q);
  }

  lemma {:induction false} ObjectUnambiguous(a: seq<Member>, r: string, b: seq<Member>, q: string)
    requires Supported(JObject(a)) && Supported(JObject(b)) && Delimited(r) && Delimited(q)
    requires Text(JObject(a)) + r == Text(JObject(b)) + q
    ensures a == b && r == q
    decreases a
  {
    var s := if a == [] then "}" else MemberText(a[0]) + MembersText(a[1..]);
    var t := if b == [] then "}" else MemberText(b[0]) + MembersText(b[1..]);
    Reassociate("{", s, r);
    Reassociate("{", t, q);
    SplitEqual("{", s + r, "{", t + q);
    if a == [] || b == [] {
      FirstMember(a, r);
      FirstMember(b, q);
      SplitEqual("}", r, "}", q);
    } else {
      Reassociate(MemberText(a[0]), MembersText(a[1..]), r);
      Reassociate(MemberText(b[0]), MembersText(b[1..]), q);
      MembersDelimited(a[1..], r);
      MembersDelimited(b[1..], q);
      MemberUnambiguous(a[0], MembersText(a[1..]) + r, b[0], MembersText(b[1..]) + q);
      MembersUnambiguous(a[1..], r, b[1..], q);
      assert a == [a[0]] + a[1..] && b == [b[0]] + b[1..];
    }
  }

  lemma FirstMember(a: seq<Member>, r: string)
    requires Supported(JObject(a))
    ensures ((if a == [] then "}" else MemberText(a[0]) + MembersText(a[1..])) + r)[0] == '}' <==> a == []
  {
  }

  lemma MembersDelimited(a: seq<Member>, r: string)
    requires forall i :: 0 <= i < |a| ==> Supported(a[i].value)
    ensures Delimited(MembersText(a) + r) && ((MembersText(a) + r)[0] == '}' <==> a == [])
  {
  }

  lemma {:induction false} MembersUnambiguous(a: seq<Member>, r: string, b: seq<Member>, q: string)
    requires (forall i :: 0 <= i < |a| ==> Supported(a[i].value))
             && (forall i :: 0 <= i < |b| ==> Supported(b[i].value))
    requires Delimited(r) && Delimited(q) && MembersText(a) + r == MembersText(b) + q
    ensures a == b && r == q
    decreases a
  {
    MembersDelimited(a, r);
    MembersDelimited(b, q);
    if a == [] {
      SplitEqual("}", r, "}", q);
    } else {
      Regroup(",", MemberText(a[0]), MembersText(a[1..]), r);
      Regroup(",", MemberText(b[0]), MembersText(b[1..]), q);
      SplitEqual(",", MemberText(a[0]) + (MembersText(a[1..]) + r), ",", MemberText(b[0]) + (MembersText(b[1..]) + q));
      MembersDelimited(a[1..], r);
      MembersDelimited(b[1..], q);
      MemberUnambiguous(a[0], MembersText(a[1..]) + r, b[0], MembersText(b[1..]) + q);
      MembersUnambiguous(a[1..], r, b[1..], q);
      assert a == [a[0]] + a[1..] && b == [b[0]] + b[1..];
    }
  }

  /** Two supported values with the same text are the same value. */
  lemma TextInjective(v: Json, w: Json)
    requires Supported(v) && Supported(w) && Text(v) == Text(w)
    ensures v == w
  {
    assert Text(v) + "" == Text(w) + "";
    TextUnambiguous(v, "", w, "");
  }
}
