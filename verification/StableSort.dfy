/**
 `Array.prototype.sort`, which is stable, over an order that may hold in both directions
 between different elements.
 */
module StableSort {

  ghost predicate TotalPreorder<T(!new)>(le: (T, T) -> bool) {
    && (forall a, b :: le(a, b) || le(b, a))
    && (forall a, b, c :: le(a, b) && le(b, c) ==> le(a, c))
  }

  ghost predicate Sorted<T>(le: (T, T) -> bool, s: seq<T>) {
    forall i, j :: 0 <= i < j < |s| ==> le(s[i], s[j])
  }

  function Place<T>(le: (T, T) -> bool, x: T, s: seq<T>): (r: seq<T>)
    ensures multiset(r) == multiset(s) + multiset{x}
  {
    if s == [] then [x]
    else if le(x, s[0]) then [x] + s
    else
      assert s == [s[0]] + s[1..];
      [s[0]] + Place(le, x, s[1..])
  }

  function Sort<T>(le: (T, T) -> bool, s: seq<T>): (r: seq<T>)
    ensures multiset(r) == multiset(s)
  {
    if s == [] then []
    else
      assert s == [s[0]] + s[1..];
      Place(le, s[0], Sort(le, s[1..]))
  }

  lemma SortedCons<T>(le: (T, T) -> bool, head: T, tail: seq<T>)
    requires Sorted(le, tail) && forall x :: x in multiset(tail) ==> le(head, x)
    ensures Sorted(le, [head] + tail)
  {
    forall i, j | 0 <= i < j < |[head] + tail|
      ensures le(([head] + tail)[i], ([head] + tail)[j])
    {
      assert tail[j - 1] in multiset(tail);
    }
  }

  lemma SortedHead<T>(le: (T, T) -> bool, s: seq<T>, x: T)
    requires Sorted(le, s) && x in multiset(s)
    ensures s != [] && (x == s[0] || le(s[0], x))
  {
    assert x in s;
    var i :| 0 <= i < |s| && s[i] == x;
  }

  lemma {:induction false} PlaceSorted<T(!new)>(le: (T, T) -> bool, x: T, s: seq<T>)
    requires TotalPreorder(le) && Sorted(le, s)
    ensures Sorted(le, Place(le, x, s))
  {
    if s == [] {
    } else if le(x, s[0]) {
      forall y | y in multiset(s)
        ensures le(x, y)
      {
        SortedHead(le, s, y);
      }
      SortedCons(le, x, s);
    } else {
      PlaceSorted(le, x, s[1..]);
      assert s == [s[0]] + s[1..];
      forall y | y in multiset(Place(le, x, s[1..]))
        ensures le(s[0], y)
      {
        assert y == x || y in multiset(s[1..]);
        if y in multiset(s[1..]) {
          SortedHead(le, s, y);
          assert le(s[0], s[0]);
        }
      }
      SortedCons(le, s[0], Place(le, x, s[1..]));
    }
  }

  lemma {:induction false} SortSorts<T(!new)>(le: (T, T) -> bool, s: seq<T>)
    requires TotalPreorder(le)
    ensures Sorted(le, Sort(le, s))
  {
    if s != [] {
      SortSorts(le, s[1..]);
      PlaceSorted(le, s[0], Sort(le, s[1..]));
    }
  }

  /** Sorting what is sorted changes nothing. */
  lemma {:induction false} SortedIsFixed<T>(le: (T, T) -> bool, s: seq<T>)
    requires Sorted(le, s)
    ensures Sort(le, s) == s
  {
    if s != [] {
      SortedIsFixed(le, s[1..]);
      assert s == [s[0]] + s[1..];
      if |s| > 1 {
        assert le(s[0], s[1]);
      }
    }
  }

  // ---------- stability ----------

  /** The elements that tie with `a`, in order. */
  function Class<T>(le: (T, T) -> bool, a: T, s: seq<T>): seq<T> {
    if s == [] then []
    else (if le(a, s[0]) && le(s[0], a) then [s[0]] else []) + Class(le, a, s[1..])
  }

  lemma {:induction false} PlaceKeepsClass<T(!new)>(le: (T, T) -> bool, x: T, s: seq<T>, a: T)
    requires TotalPreorder(le)
    ensures Class(le, a, Place(le, x, s)) == (if le(a, x) && le(x, a) then [x] else []) + Class(le, a, s)
  {
    if s != [] && !le(x, s[0]) {
      PlaceKeepsClass(le, x, s[1..], a);
      var r := Place(le, x, s[1..]);
      assert ([s[0]] + r)[1..] == r;
    } else {
      assert ([x] + s)[1..] == s;
    }
  }

  /** Elements that tie keep their order. */
  lemma {:induction false} SortIsStable<T(!new)>(le: (T, T) -> bool, s: seq<T>, a: T)
    requires TotalPreorder(le)
    ensures Class(le, a, Sort(le, s)) == Class(le, a, s)
  {
    if s != [] {
      SortIsStable(le, s[1..], a);
      PlaceKeepsClass(le, s[0], Sort(le, s[1..]), a);
    }
  }

  lemma {:induction false} ClassMember<T>(le: (T, T) -> bool, a: T, s: seq<T>, x: T)
    ensures x in Class(le, a, s) <==> x in s && le(a, x) && le(x, a)
  {
    if s != [] {
      ClassMember(le, a, s[1..], x);
      assert s == [s[0]] + s[1..];
    }
  }

  lemma ClassHead<T(!new)>(le: (T, T) -> bool, s: seq<T>)
    requires TotalPreorder(le) && s != []
    ensures Class(le, s[0], s) == [s[0]] + Class(le, s[0], s[1..])
  {
    assert le(s[0], s[0]);
  }

  lemma SomeClass<T(!new)>(le: (T, T) -> bool, s: seq<T>)
    requires TotalPreorder(le)
    ensures s != [] ==> exists a :: Class(le, a, s) != []
  {
    if s != [] {
      ClassHead(le, s);
    }
  }

  /** Two sorted sequences with the same classes start with the same element. */
  lemma SameHead<T(!new)>(le: (T, T) -> bool, s: seq<T>, t: seq<T>)
    requires TotalPreorder(le) && Sorted(le, s) && Sorted(le, t) && s != [] && t != []
    requires forall a :: Class(le, a, s) == Class(le, a, t)
    ensures s[0] == t[0]
  {
    ClassHead(le, s);
    ClassHead(le, t);
    ClassMember(le, s[0], t, s[0]);
    ClassMember(le, t[0], s, t[0]);
    assert s[0] in Class(le, s[0], t) && t[0] in Class(le, t[0], s);
    SortedHead(le, s, t[0]);
    SortedHead(le, t, s[0]);
    assert le(s[0], t[0]) && le(t[0], s[0]);
    assert Class(le, s[0], t)[0] == t[0];
  }

  /** Being sorted with ties in their given order determines the sequence: it is the stable sort. */
  lemma {:induction false} StableSortUnique<T(!new)>(le: (T, T) -> bool, s: seq<T>, t: seq<T>)
    requires TotalPreorder(le) && Sorted(le, s) && Sorted(le, t)
    requires forall a :: Class(le, a, s) == Class(le, a, t)
    ensures s == t
    decreases |s| + |t|
  {
    if s == [] || t == [] {
      SomeClass(le, s);
      SomeClass(le, t);
    } else {
      SameHead(le, s, t);
      forall a
        ensures Class(le, a, s[1..]) == Class(le, a, t[1..])
      {
        var first := if le(a, s[0]) && le(s[0], a) then [s[0]] else [];
        assert Class(le, a, s) == first + Class(le, a, s[1..]) && Class(le, a, t) == first + Class(le, a, t[1..]);
        assert (first + Class(le, a, s[1..]))[|first|..] == Class(le, a, s[1..]);
        assert (first + Class(le, a, t[1..]))[|first|..] == Class(le, a, t[1..]);
      }
      StableSortUnique(le, s[1..], t[1..]);
      assert s == [s[0]] + s[1..] && t == [t[0]] + t[1..];
    }
  }

  // ---------- when ties do not matter ----------

  /** Different elements of `s` never tie. */
  ghost predicate NoTies<T>(le: (T, T) -> bool, s: seq<T>) {
    forall x, y :: x in s && y in s && le(x, y) && le(y, x) ==> x == y
  }

  lemma {:induction false} SortedPermutation<T(!new)>(le: (T, T) -> bool, s: seq<T>, t: seq<T>)
    requires TotalPreorder(le) && Sorted(le, s) && Sorted(le, t) && multiset(s) == multiset(t) && NoTies(le, s)
    ensures s == t
  {
    assert |s| == |multiset(s)| && |t| == |multiset(t)|;
    if s != [] {
      assert s[0] in multiset(t) && t[0] in multiset(s);
      SortedHead(le, s, t[0]);
      SortedHead(le, t, s[0]);
      assert t[0] in s;
      assert s == [s[0]] + s[1..] && t == [t[0]] + t[1..];
      assert multiset(s[1..]) == multiset(s) - multiset{s[0]};
      assert multiset(t[1..]) == multiset(t) - multiset{t[0]};
      SortedPermutation(le, s[1..], t[1..]);
    }
  }

  // ---------- one sort after another ----------

  /** By `p`, and among ties of `p` by `q`. */
  function Lex<T>(p: (T, T) -> bool, q: (T, T) -> bool): (T, T) -> bool {
    (a: T, b: T) => p(a, b) && (p(b, a) ==> q(a, b))
  }

  lemma LexPreorder<T(!new)>(p: (T, T) -> bool, q: (T, T) -> bool)
    requires TotalPreorder(p) && TotalPreorder(q)
    ensures TotalPreorder(Lex(p, q))
  {
    var l := Lex(p, q);
    forall a, b
      ensures l(a, b) || l(b, a)
    {
      assert p(a, b) || p(b, a);
      assert q(a, b) || q(b, a);
    }
    forall a, b, c | l(a, b) && l(b, c)
      ensures l(a, c)
    {
      assert p(a, c);
      if p(c, a) {
        assert p(b, a) && p(c, b);
        assert q(a, c);
      }
    }
  }

  /** Placing an element that `q` puts before all others. */
  lemma {:induction false} PlaceLex<T(!new)>(p: (T, T) -> bool, q: (T, T) -> bool, x: T, s: seq<T>)
    requires TotalPreorder(p) && TotalPreorder(q) && Sorted(Lex(p, q), s)
    requires forall y :: y in multiset(s) ==> q(x, y)
    ensures Sorted(Lex(p, q), Place(p, x, s))
  {
    LexPreorder(p, q);
    var l := Lex(p, q);
    if s == [] {
    } else if p(x, s[0]) {
      assert s[0] in multiset(s);
      forall y | y in multiset(s)
        ensures l(x, y)
      {
        SortedHead(l, s, y);
        assert p(s[0], s[0]);
      }
      SortedCons(l, x, s);
    } else {
      assert s == [s[0]] + s[1..];
      PlaceLex(p, q, x, s[1..]);
      assert p(s[0], x);
      forall y | y in multiset(Place(p, x, s[1..]))
        ensures l(s[0], y)
      {
        assert y == x || y in multiset(s[1..]);
        if y != x {
          SortedHead(l, s, y);
          assert l(s[0], s[0]);
        }
      }
      SortedCons(l, s[0], Place(p, x, s[1..]));
    }
  }

  /** A stable sort by `p` of what is sorted by `q` is sorted by `p` and then `q`. */
  lemma {:induction false} SortRefines<T(!new)>(p: (T, T) -> bool, q: (T, T) -> bool, s: seq<T>)
    requires TotalPreorder(p) && TotalPreorder(q) && Sorted(q, s)
    ensures Sorted(Lex(p, q), Sort(p, s))
  {
    if s != [] {
      SortRefines(p, q, s[1..]);
      forall y | y in multiset(Sort(p, s[1..]))
        ensures q(s[0], y)
      {
        assert y in multiset(s[1..]) && y in s[1..];
        var i :| 0 <= i < |s[1..]| && s[1..][i] == y;
        assert q(s[0], s[i + 1]);
      }
      PlaceLex(p, q, s[0], Sort(p, s[1..]));
    }
  }
}
