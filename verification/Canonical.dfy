/**
 packages/domain/src/canonical.ts: the text behind the approval digest and the
 rejection identity.

 A value is what JavaScript hands to `canonicalJson`: numbers are the text that
 `Number` shows (so -0 is 0), objects list their own keys in enumeration order.
 `le` is `localeCompare(...) <= 0`, a total preorder that may tie different keys.
 */
module Canonical {
  import opened Domain
  import opened StableSort

  predicate IsDigit(c: char) { '0' <= c <= '9' }

  predicate IsNumeral(s: string) {
    s != "" && (IsDigit(s[0]) || s[0] == '-') && forall c :: c in s ==> IsDigit(c) || c in {'-', '+', '.', 'e'}
  }

  type Numeral = s: string | IsNumeral(s) witness "0"

  datatype Member = Member(key: string, value: Json)
  datatype Json =
    | JNull
    | JBool(b: bool)
    | JNumber(shown: Numeral)
    | JString(text: string)
    | JArray(items: seq<Json>)
    | JObject(members: seq<Member>)
    | JNotFinite   // NaN and the infinities
    | JUnsupported // functions, symbols, big integers, undefined

  // ---------- normalize ----------

  /** The value of an array-index key; `Object.fromEntries` enumerates those first, in ascending order. */
  function IndexOf(key: string): Option<nat> {
    if key == "" || (key[0] == '0' && key != "0") || exists c :: c in key && !IsDigit(c) then None
    else
      var n := Decimal(key);
      if n < 0xFFFF_FFFF then Some(n) else None
  }

  function Decimal(digits: string): nat
    requires forall c :: c in digits ==> IsDigit(c)
  {
    if digits == "" then 0
    else
      var last := digits[|digits| - 1];
      assert last in digits && IsDigit(last);
      10 * Decimal(digits[..|digits| - 1]) + (last - '0') as nat
  }

  predicate IndexFirst(a: Member, b: Member) {
    match IndexOf(a.key)
    case None => IndexOf(b.key).None?
    case Some(m) => IndexOf(b.key).None? || m <= IndexOf(b.key).value
  }

  /** `Object.fromEntries`: the object enumerates index keys first, the others in the order given. */
  function FromEntries(entries: seq<Member>): seq<Member> { Sort(IndexFirst, entries) }

  function ByKey(le: (string, string) -> bool): (Member, Member) -> bool {
    (a: Member, b: Member) => le(a.key, b.key)
  }

  function Arrange(le: (string, string) -> bool, members: seq<Member>): (r: seq<Member>)
    ensures multiset(r) == multiset(members)
  {
    FromEntries(Sort(ByKey(le), members))
  }

  /** The entries are sorted by key alone, so it makes no difference that their values are normalised first. */
  function Normalize(le: (string, string) -> bool, v: Json): (r: Outcome<Json>)
    ensures r.Err? ==> r.code == InvalidRequest
  {
    match v
    case JArray(items) =>
      var normal :- NormalizeItems(le, items);
      Ok(JArray(normal))
    case JObject(members) =>
      var normal :- NormalizeMembers(le, members);
      Ok(JObject(Arrange(le, normal)))
    case JNotFinite => Err(InvalidRequest)
    case JUnsupported => Err(InvalidRequest)
    case _ => Ok(v)
  }

  function NormalizeItems(le: (string, string) -> bool, items: seq<Json>): (r: Outcome<seq<Json>>)
    ensures r.Ok? ==> |r.value| == |items|
    ensures r.Err? ==> r.code == InvalidRequest
  {
    if items == [] then Ok([])
    else
      var first :- Normalize(le, items[0]);
      var rest :- NormalizeItems(le, items[1..]);
      Ok([first] + rest)
  }

  function NormalizeMembers(le: (string, string) -> bool, members: seq<Member>): (r: Outcome<seq<Member>>)
    ensures r.Ok? ==> |r.value| == |members|
    ensures r.Err? ==> r.code == InvalidRequest
  {
    if members == [] then Ok([])
    else
      var first :- Normalize(le, members[0].value);
      var rest :- NormalizeMembers(le, members[1..]);
      Ok([Member(members[0].key, first)] + rest)
  }

  // ---------- JSON.stringify ----------

  predicate Supported(v: Json) {
    match v
    case JArray(items) => forall i :: 0 <= i < |items| ==> Supported(items[i])
    case JObject(members) => forall i :: 0 <= i < |members| ==> Supported(members[i].value)
    case JNotFinite => false
    case JUnsupported => false
    case _ => true
  }

  function Hex(n: nat): char
    requires n < 16
  {
    if n < 10 then '0' + n as char else 'a' + (n - 10) as char
  }

  function EscapeChar(c: char): string {
    if c == '"' then "\\\""
    else if c == '\\' then "\\\\"
    else if c == 8 as char then "\\b"
    else if c == 12 as char then "\\f"
    else if c == '\n' then "\\n"
    else if c == '\r' then "\\r"
    else if c == '\t' then "\\t"
    else if c < ' ' then "\\u00" + [Hex(c as nat / 16), Hex(c as nat % 16)]
    else [c]
  }

  /** The escaped characters and the closing quotation mark. */
  function Escape(text: string): string {
    if text == "" then "\"" else EscapeChar(text[0]) + Escape(text[1..])
  }

  function Quote(text: string): string { "\"" + Escape(text) }

  function Text(v: Json): string
    requires Supported(v)
  {
    match v
    case JNull => "null"
    case JBool(b) => if b then "true" else "false"
    case JNumber(shown) => shown
    case JString(text) => Quote(text)
    case JArray(items) => "[" + (if items == [] then "]" else Text(items[0]) + ItemsText(items[1..]))
    case JObject(members) => "{" + (if members == [] then "}" else MemberText(members[0]) + MembersText(members[1..]))
  }

  function ItemsText(items: seq<Json>): string
    requires forall i :: 0 <= i < |items| ==> Supported(items[i])
  {
    if items == [] then "]" else "," + Text(items[0]) + ItemsText(items[1..])
  }

  function MemberText(m: Member): string
    requires Supported(m.value)
  {
    Quote(m.key) + ":" + Text(m.value)
  }

  function MembersText(members: seq<Member>): string
    requires forall i :: 0 <= i < |members| ==> Supported(members[i].value)
  {
    if members == [] then "}" else "," + MemberText(members[0]) + MembersText(members[1..])
  }
}
