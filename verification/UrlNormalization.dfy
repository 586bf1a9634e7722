/**
 `normalizeDiscoveryUrl` on a parsed URL (packages/application/src/workbench.ts:69-70, 436-469).

 Parsing and serialising are the platform's. What they contribute here: query
 parameters are decoded names and values, parameters are sorted by the UTF-16 code
 units of their names (section 6.2 of the WHATWG URL Standard), and setting the path
 of an HTTP URL to the empty string gives "/".
 */
module UrlNormalization {
  import opened Domain
  import opened StableSort

  datatype Param = Param(name: string, value: string)

  /** The parts that normalisation may change. */
  datatype Parts = Parts(pathname: string, params: seq<Param>, hash: string)

  /** The parts that it only checks. */
  datatype Origin = Origin(protocol: string, username: string, password: string, host: string)

  // ---------- names ----------

  /** Unicode simple case folding, for the letters that the patterns below contain. */
  function Fold(c: char): char {
    if 'A' <= c <= 'Z' then c + 32 as char
    else if c == '\U{017F}' then 's'
    else if c == '\U{212A}' then 'k'
    else c
  }

  function FoldAll(s: string): string { if s == "" then "" else [Fold(s[0])] + FoldAll(s[1..]) }

  const SENSITIVE := {
    "accesstoken", "access_token", "access-token", "apikey", "api_key", "api-key", "auth", "authorization", "code",
    "credential", "jwt", "key", "password", "secret", "session", "signature", "sig", "token"}

  predicate IsSensitive(name: string) { FoldAll(name) in SENSITIVE }

  predicate EndsLine(c: char) { c in {'\n', '\r', '\U{2028}', '\U{2029}'} }

  predicate IsTracking(name: string) {
    var folded := FoldAll(name);
    || folded in {"ref", "referrer", "source"}
    || ("utm_" < folded && forall c :: c in folded[4..] ==> !EndsLine(c))
  }

  // ---------- the order of names ----------

  function CodeUnits(s: string): seq<nat> {
    if s == "" then []
    else
      var c := s[0] as nat;
      (if c < 0x1_0000 then [c] else [0xD800 + (c - 0x1_0000) / 0x400,
                                      0xDC00 + (c - 0x1_0000) % 0x400]) + CodeUnits(s[1..])
  }

  predicate UnitsLe(a: seq<nat>, b: seq<nat>) {
    a == [] || (b != [] && (a[0] < b[0] || (a[0] == b[0] && UnitsLe(a[1..], b[1..]))))
  }

  predicate NameLe(a: Param, b: Param) { UnitsLe(CodeUnits(a.name), CodeUnits(b.name)) }

  lemma {:induction false} UnitsTotal(a: seq<nat>, b: seq<nat>)
    ensures UnitsLe(a, b) || UnitsLe(b, a)
  {
    if a != [] && b != [] {
      UnitsTotal(a[1..], b[1..]);
    }
  }

  lemma {:induction false} UnitsTransitive(a: seq<nat>, b: seq<nat>, c: seq<nat>)
    requires UnitsLe(a, b) && UnitsLe(b, c)
    ensures UnitsLe(a, c)
  {
    if a != [] && a[0] == b[0] && b[0] == c[0] {
      UnitsTransitive(a[1..], b[1..], c[1..]);
    }
  }

  lemma NameOrder()
    ensures TotalPreorder(NameLe)
  {
    forall a: Param, b: Param
      ensures NameLe(a, b) || NameLe(b, a)
    {
      UnitsTotal(CodeUnits(a.name), CodeUnits(b.name));
    }
    forall a: Param, b: Param, c: Param | NameLe(a, b) && NameLe(b, c)
      ensures NameLe(a, c)
    {
      UnitsTransitive(CodeUnits(a.name), CodeUnits(b.name), CodeUnits(c.name));
    }
  }

  // ---------- what normalisation gives ----------

  function Keep(params: seq<Param>, drop: set<string>): seq<Param> {
    if params == [] then [] else (if params[0].name in drop then [] else [params[0]]) + Keep(params[1..], drop)
  }

  lemma {:induction false} KeptMembers(params: seq<Param>, drop: set<string>)
    ensures forall p :: p in Keep(params, drop) <==> p in params && p.name !in drop
  {
    if params != [] {
      KeptMembers(params[1..], drop);
      assert params == [params[0]] + params[1..];
    }
  }

  function Tracked(params: seq<Param>): set<string> { set p | p in params && IsTracking(p.name) :: p.name }

  /** `replace(/\/+$/u, "")` */
  function StripSlashes(path: string): string {
    if path != "" && path[|path| - 1] == '/' then StripSlashes(path[..|path| - 1]) else path
  }

  function SetPath(path: string): string { if path == "" then "/" else path }

  function CheckUrl(origin: Origin, params: seq<Param>): Check {
    if !(origin.protocol in {"https:", "http:"}) then Fail(InvalidRequest)
    else if origin.username != "" || origin.password != "" then Fail(InvalidRequest)
    else Require(forall p :: p in params ==> !IsSensitive(p.name), InvalidRequest)
  }

  function Normalized(u: Parts): Parts {
    Parts(
      if |u.pathname| > 1 then SetPath(StripSlashes(u.pathname)) else u.pathname,
      Sort(NameLe, Keep(u.params, Tracked(u.params))),
      "")
  }

  // ---------- the code ----------

  class ParsedUrl {
    const origin: Origin
    var pathname: string
    var params: seq<Param>
    var hash: string

    function Value(): Parts
      reads this
    {
      Parts(pathname, params, hash)
    }

    constructor (origin: Origin, parts: Parts)
      ensures this.origin == origin && Value() == parts
    {
      this.origin, pathname, params, hash := origin, parts.pathname, parts.params, parts.hash;
    }

    method Delete(name: string)
      modifies this`params
      ensures params == Keep(old(params), {name})
    {
      params := Keep(params, {name});
    }
  }

  method NormalizeDiscoveryUrl(parsed: ParsedUrl) returns (check: Check)
    modifies parsed
    ensures check == CheckUrl(parsed.origin, old(parsed.params))
    ensures check.Pass? ==> parsed.Value() == Normalized(old(parsed.Value()))
  {
    if !(parsed.origin.protocol in {"https:", "http:"}) {
      return Fail(InvalidRequest);
    }
    if |parsed.origin.username| != 0 || |parsed.origin.password| != 0 {
      return Fail(InvalidRequest);
    }
    parsed.hash := "";
    check := DropTracking(parsed);
    if check.Fail? {
      return;
    }
    parsed.params := Sort(NameLe, parsed.params);
    if |parsed.pathname| > 1 {
      parsed.pathname := SetPath(StripSlashes(parsed.pathname));
    }
  }

  /** The loop over the keys, which are listed once, before any of them is deleted. */
  method DropTracking(parsed: ParsedUrl) returns (check: Check)
    modifies parsed`params
    ensures check == Require(forall p :: p in old(parsed.params) ==> !IsSensitive(p.name), InvalidRequest)
    ensures check.Pass? ==> parsed.params == Keep(old(parsed.params), Tracked(old(parsed.params)))
  {
    ghost var given := parsed.params;
    check := DropWhere(parsed, IsSensitive, IsTracking);
    assert Named(given, IsTracking) == Tracked(given);
  }

  /** Stops at a forbidden key; deletes every parameter with an unwanted one. */
  method DropWhere(parsed: ParsedUrl, forbidden: string -> bool, unwanted: string -> bool) returns (check: Check)
    modifies parsed`params
    ensures check == if Clean(old(parsed.params), forbidden) then Pass else Fail(InvalidRequest)
    ensures check.Pass? ==> parsed.params == Keep(old(parsed.params), Named(old(parsed.params), unwanted))
  {
    ghost var given := parsed.params;
    var keys := Names(parsed.params);
    KeepNone(given, keys, unwanted);
    var i := 0;
    while i < |keys|
      invariant i <= |keys|
      invariant parsed.params == Kept(given, keys, i, unwanted)
      invariant CleanUpTo(keys, i, forbidden)
    {
      if forbidden(keys[i]) {
        OneForbidden(given, keys, i, forbidden);
        return Fail(InvalidRequest);
      }
      DroppedNext(given, keys, i, unwanted);
      if unwanted(keys[i]) {
        parsed.Delete(keys[i]);
      }
      i := i + 1;
    }
    DroppedIsNamed(given, keys, unwanted);
    NoneForbidden(given, keys, forbidden);
    return Pass;
  }

  ghost predicate Clean(params: seq<Param>, forbidden: string -> bool) {
    forall p :: p in params ==> !forbidden(p.name)
  }

  ghost predicate CleanUpTo(keys: seq<string>, n: nat, forbidden: string -> bool)
    requires n <= |keys|
  {
    forall k :: 0 <= k < n ==> !forbidden(keys[k])
  }

  lemma KeepNone(params: seq<Param>, keys: seq<string>, unwanted: string -> bool)
    ensures Kept(params, keys, 0, unwanted) == params
  {
    KeepAll(params);
    assert DroppedBy(keys, 0, unwanted) == {};
  }

  ghost predicate NamesOf(params: seq<Param>, keys: seq<string>) {
    |keys| == |params| && forall i :: 0 <= i < |params| ==> keys[i] == params[i].name
  }

  /** What is left once the first `n` keys have been looked at. */
  ghost function Kept(params: seq<Param>, keys: seq<string>, n: nat, unwanted: string -> bool): seq<Param>
    requires n <= |keys|
  {
    Keep(params, DroppedBy(keys, n, unwanted))
  }

  lemma OneForbidden(params: seq<Param>, keys: seq<string>, i: nat, forbidden: string -> bool)
    requires NamesOf(params, keys) && i < |keys| && forbidden(keys[i])
    ensures !Clean(params, forbidden)
  {
    assert params[i] in params;
  }

  ghost function Named(params: seq<Param>, unwanted: string -> bool): set<string> {
    set p | p in params && unwanted(p.name) :: p.name
  }

  /** `[...searchParams.keys()]` */
  function Names(params: seq<Param>): (names: seq<string>)
    ensures NamesOf(params, names)
  {
    seq(|params|, i requires 0 <= i < |params| => params[i].name)
  }

  ghost function DroppedBy(keys: seq<string>, n: nat, unwanted: string -> bool): set<string>
    requires n <= |keys|
  {
    set k | 0 <= k < n && unwanted(keys[k]) :: keys[k]
  }

  lemma NoneForbidden(params: seq<Param>, keys: seq<string>, forbidden: string -> bool)
    requires NamesOf(params, keys)
    requires CleanUpTo(keys, |keys|, forbidden)
    ensures Clean(params, forbidden)
  {
    forall p | p in params
      ensures !forbidden(p.name)
    {
      var i :| 0 <= i < |params| && params[i] == p;
      assert !forbidden(keys[i]);
    }
  }

  lemma DroppedNext(params: seq<Param>, keys: seq<string>, i: nat, unwanted: string -> bool)
    requires i < |keys|
    ensures Kept(params, keys, i + 1, unwanted)
         == if unwanted(keys[i]) then Keep(Kept(params, keys, i, unwanted), {keys[i]})
           else Kept(params, keys, i, unwanted)
  {
    if unwanted(keys[i]) {
      assert DroppedBy(keys, i + 1, unwanted) == DroppedBy(keys, i, unwanted) + {keys[i]};
      KeepTwice(params, DroppedBy(keys, i, unwanted), {keys[i]});
    } else {
      assert DroppedBy(keys, i + 1, unwanted) == DroppedBy(keys, i, unwanted);
    }
  }

  lemma DroppedIsNamed(params: seq<Param>, keys: seq<string>, unwanted: string -> bool)
    requires NamesOf(params, keys)
    ensures Kept(params, keys, |keys|, unwanted) == Keep(params, Named(params, unwanted))
  {
    forall n
      ensures n in DroppedBy(keys, |keys|, unwanted) <==> n in Named(params, unwanted)
    {
      if n in Named(params, unwanted) {
        var p :| p in params && unwanted(p.name) && p.name == n;
        var i :| 0 <= i < |params| && params[i] == p;
        assert keys[i] == n;
      }
      if n in DroppedBy(keys, |keys|, unwanted) {
        var k :| 0 <= k < |keys| && unwanted(keys[k]) && keys[k] == n;
        assert params[k] in params;
      }
    }
    assert DroppedBy(keys, |keys|, unwanted) == Named(params, unwanted);
  }

  lemma {:induction false} KeepAll(params: seq<Param>)
    ensures Keep(params, {}) == params
  {
    if params != [] {
      KeepAll(params[1..]);
      assert params == [params[0]] + params[1..];
    }
  }

  lemma {:induction false} KeepTwice(params: seq<Param>, a: set<string>, b: set<string>)
    ensures Keep(Keep(params, a), b) == Keep(params, a + b)
  {
    if params != [] {
      KeepTwice(params[1..], a, b);
      if params[0].name in a {
        assert Keep(params, a) == Keep(params[1..], a) && Keep(params, a + b) == Keep(params[1..], a + b);
      } else {
        assert Keep(params, a) == [params[0]] + Keep(params[1..], a);
        assert Keep(params, a)[1..] == Keep(params[1..], a);
      }
    }
  }

  // ---------- properties ----------

  lemma {:induction false} NothingToDrop(params: seq<Param>, drop: set<string>)
    requires forall p :: p in params ==> p.name !in drop
    ensures Keep(params, drop) == params
  {
    if params != [] {
      assert params == [params[0]] + params[1..];
      NothingToDrop(params[1..], drop);
    }
  }

  lemma {:induction false} StripsAll(path: string)
    ensures StripSlashes(path) <= path
    ensures StripSlashes(path) != "" ==> StripSlashes(path)[|StripSlashes(path)| - 1] != '/'
    ensures forall k :: |StripSlashes(path)| <= k < |path| ==> path[k] == '/'
    ensures StripSlashes(StripSlashes(path)) == StripSlashes(path)
  {
    if path != "" && path[|path| - 1] == '/' {
      StripsAll(path[..|path| - 1]);
    }
  }

  /** What an accepted URL looks like once normalised. */
  ghost predicate IsNormal(u: Parts) {
    && u.hash == ""
    && (forall p :: p in u.params ==> !IsTracking(p.name) && !IsSensitive(p.name))
    && Sorted(NameLe, u.params)
    && (|u.pathname| > 1 ==> u.pathname[|u.pathname| - 1] != '/')
  }

  lemma NormalizedIsNormal(origin: Origin, u: Parts)
    requires CheckUrl(origin, u.params).Pass?
    ensures IsNormal(Normalized(u))
  {
    NameOrder();
    var kept := Keep(u.params, Tracked(u.params));
    KeptMembers(u.params, Tracked(u.params));
    SortSorts(NameLe, kept);
    forall p | p in Sort(NameLe, kept)
      ensures !IsTracking(p.name) && !IsSensitive(p.name)
    {
      assert p in multiset(Sort(NameLe, kept)) && p in kept;
    }
    StripsAll(u.pathname);
  }

  lemma NormalIsFixed(u: Parts)
    requires IsNormal(u)
    ensures Normalized(u) == u
  {
    NothingToDrop(u.params, Tracked(u.params));
    SortedIsFixed(NameLe, u.params);
  }

  /** Normalising again is accepted and changes nothing. */
  lemma NormalizationIdempotent(origin: Origin, u: Parts)
    requires CheckUrl(origin, u.params).Pass?
    ensures CheckUrl(origin, Normalized(u).params).Pass?
    ensures Normalized(Normalized(u)) == Normalized(u)
  {
    NormalizedIsNormal(origin, u);
    NormalIsFixed(Normalized(u));
  }

  /** Of each name, the same parameters in the same order. */
  ghost predicate SameClasses(s: seq<Param>, t: seq<Param>) { forall a :: Class(NameLe, a, s) == Class(NameLe, a, t) }

  /**
   The parameters of the result are the stable sort by name of those kept: they are
   sorted, those of one name are in their given order, and nothing else is so.
   */
  lemma ParametersAreStableSort(u: Parts, t: seq<Param>)
    requires Sorted(NameLe, t)
    ensures t == Normalized(u).params <==> SameClasses(t, Keep(u.params, Tracked(u.params)))
  {
    NameOrder();
    var kept := Keep(u.params, Tracked(u.params));
    var sorted := Sort(NameLe, kept);
    forall a
      ensures Class(NameLe, a, sorted) == Class(NameLe, a, kept)
    {
      SortIsStable(NameLe, kept, a);
    }
    SortSorts(NameLe, kept);
    if SameClasses(t, kept) {
      forall a
        ensures Class(NameLe, a, t) == Class(NameLe, a, sorted)
      {
        assert Class(NameLe, a, t) == Class(NameLe, a, kept);
      }
      StableSortUnique(NameLe, t, sorted);
    }
  }
}
