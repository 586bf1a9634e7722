/** Deterministic identities (packages/application/src/ids.ts:8-77). */
module Ids {

  const ALPHABET := "0123456789ABCDEFGHJKMNPQRSTVWXYZ"

  /** `ALPHABET.charAt(digit)`: the alphabet leaves out I, L, O and U. */
  function CharAt(digit: nat): (c: char)
    requires digit < 32
    ensures c != '_'
  {
    if digit < 10 then '0' + digit as char
    else if digit < 18 then 'A' + (digit - 10) as char
    else if digit < 20 then 'J' + (digit - 18) as char
    else if digit < 22 then 'M' + (digit - 20) as char
    else if digit < 27 then 'P' + (digit - 22) as char
    else 'V' + (digit - 27) as char
  }

  /** The digits are those of the source's alphabet, in its order. */
  lemma CharAtIsAlphabet(digit: nat)
    requires digit < 32
    ensures CharAt(digit) == ALPHABET[digit]
  {
  }

  /** The digits of a value, without padding. */
  function Digits(value: nat): (s: string)
    ensures s != ""
  {
    if value < 32 then [CharAt(value)] else Digits(value / 32) + [CharAt(value % 32)]
  }

  function Zeros(n: nat): string { if n == 0 then "" else "0" + Zeros(n - 1) }

  function PadStart(s: string, length: nat): string { Zeros(if |s| < length then length - |s| else 0) + s }

  function Token(value: nat, length: nat): string { PadStart(Digits(value), length) }

  /** The source's `do ... while` loop, with its test at the end of the body. */
  method DeterministicToken(value: nat, length: nat) returns (token: string)
    ensures token == Token(value, length)
  {
    var remaining, result := value, "";
    var again := true;
    while again
      invariant again ==> Digits(value) == Digits(remaining) + result
      invariant !again ==> result == Digits(value)
      decreases again, remaining
    {
      var before := result;
      result := [CharAt(remaining % 32)] + result;
      assert remaining >= 32 ==> Digits(remaining) + before == Digits(remaining / 32) + result;
      remaining := remaining / 32;
      again := remaining > 0;
    }
    return PadStart(result, length);
  }

  // ---------- decoding ----------

  function DigitOf(c: char): nat {
    if '0' <= c <= '9' then (c - '0') as nat
    else if 'A' <= c <= 'H' then (c - 'A') as nat + 10
    else if 'J' <= c <= 'K' then (c - 'J') as nat + 18
    else if 'M' <= c <= 'N' then (c - 'M') as nat + 20
    else if 'P' <= c <= 'T' then (c - 'P') as nat + 22
    else if 'V' <= c <= 'Z' then (c - 'V') as nat + 27
    else 0
  }

  lemma DigitOfCharAt(d: nat)
    requires d < 32
    ensures DigitOf(CharAt(d)) == d
  {
  }

  function Decode(s: string): nat { if s == "" then 0 else 32 * Decode(s[..|s| - 1]) + DigitOf(s[|s| - 1]) }

  lemma {:induction false} DecodeDigits(value: nat)
    ensures Decode(Digits(value)) == value
  {
    DigitOfCharAt(value % 32);
    if value < 32 {
      DecodeLast("", CharAt(value));
      assert "" + [CharAt(value)] == [CharAt(value)];
    } else {
      DecodeDigits(value / 32);
      DecodeLast(Digits(value / 32), CharAt(value % 32));
    }
  }

  lemma DecodeLast(s: string, c: char)
    ensures Decode(s + [c]) == 32 * Decode(s) + DigitOf(c)
  {
    assert (s + [c])[..|s|] == s;
  }

  lemma {:induction false} DecodeZeros(n: nat, s: string)
    ensures Decode(Zeros(n) + s) == Decode(s)
    decreases |s|, n
  {
    var t := Zeros(n) + s;
    if s == "" {
      if n > 0 {
        ZerosShift(n - 1);
        assert t[..|t| - 1] == Zeros(n - 1) + "";
        DecodeZeros(n - 1, "");
      }
    } else {
      assert t[..|t| - 1] == Zeros(n) + s[..|s| - 1];
      DecodeZeros(n, s[..|s| - 1]);
    }
  }

  lemma {:induction false} ZerosShift(n: nat)
    ensures Zeros(n + 1) == Zeros(n) + "0"
  {
    if n > 0 {
      ZerosShift(n - 1);
      assert "0" + (Zeros(n - 1) + "0") == ("0" + Zeros(n - 1)) + "0";
    }
  }

  /** A token decodes to its counter, for every value and every padding. */
  lemma TokenDecodes(value: nat, length: nat)
    ensures Decode(Token(value, length)) == value
  {
    var s := Digits(value);
    DecodeZeros(if |s| < length then length - |s| else 0, s);
    DecodeDigits(value);
  }

  // ---------- the factory ----------

  ghost predicate NoUnderscore(s: string) { forall c :: c in s ==> c != '_' }

  predicate IsCrockford(c: char) {
    '0' <= c <= '9' || 'A' <= c <= 'H' || 'J' <= c <= 'K' || 'M' <= c <= 'N' || 'P' <= c <= 'T' || 'V' <= c <= 'Z'
  }

  predicate IsSeed(seed: string) { |seed| == 10 && forall c :: c in seed ==> IsCrockford(c) }

  function IdOf(prefix: string, seed: string, value: nat): string { prefix + "_" + seed + Token(value, 6) }

  lemma {:induction false} DigitsPlain(value: nat)
    ensures NoUnderscore(Digits(value))
  {
    if value >= 32 {
      DigitsPlain(value / 32);
    }
  }

  lemma {:induction false} ZerosPlain(n: nat)
    ensures NoUnderscore(Zeros(n))
  {
    if n > 0 {
      ZerosPlain(n - 1);
    }
  }

  lemma TokenPlain(value: nat, length: nat)
    ensures NoUnderscore(Token(value, length))
  {
    DigitsPlain(value);
    var s := Digits(value);
    ZerosPlain(if |s| < length then length - |s| else 0);
  }

  lemma LongerTail(a: string, x: string, b: string, y: string)
    requires a + "_" + x == b + "_" + y && |x| < |y|
    ensures '_' in y
  {
    var k := |a| - |b| - 1;
    assert (a + "_" + x)[|a|] == '_' && (b + "_" + y)[|a|] == y[k];
  }

  /** The last underscore separates, whatever stands before it. */
  lemma LastUnderscore(a: string, x: string, b: string, y: string)
    requires NoUnderscore(x) && NoUnderscore(y) && a + "_" + x == b + "_" + y
    ensures x == y
  {
    var s, t := a + "_" + x, b + "_" + y;
    if |x| < |y| {
      LongerTail(a, x, b, y);
    } else if |y| < |x| {
      LongerTail(b, y, a, x);
    } else {
      assert x == s[|s| - |x|..] && y == t[|t| - |y|..];
    }
  }

  /** Identities of one factory differ when their counters do, whatever their prefixes. */
  lemma IdsDiffer(prefix: string, other: string, seed: string, m: nat, n: nat)
    requires IsSeed(seed) && IdOf(prefix, seed, m) == IdOf(other, seed, n)
    ensures m == n
  {
    var x, y := seed + Token(m, 6), seed + Token(n, 6);
    TokenPlain(m, 6);
    TokenPlain(n, 6);
    assert IdOf(prefix, seed, m) == prefix + "_" + x && IdOf(other, seed, n) == other + "_" + y;
    LastUnderscore(prefix, x, other, y);
    assert Token(m, 6) == x[10..] && Token(n, 6) == y[10..];
    TokenDecodes(m, 6);
    TokenDecodes(n, 6);
  }

  ghost predicate Carries(id: string, prefix: string, seed: string, value: nat) { id == IdOf(prefix, seed, value) }

  /** The identity was issued under this counter. */
  ghost predicate Numbered(id: string, seed: string, value: nat) { exists prefix :: Carries(id, prefix, seed, value) }

  lemma OneNumber(id: string, seed: string, m: nat, n: nat)
    requires IsSeed(seed) && Numbered(id, seed, m) && Numbered(id, seed, n)
    ensures m == n
  {
    var p :| Carries(id, p, seed, m);
    var q :| Carries(id, q, seed, n);
    IdsDiffer(p, q, seed, m, n);
  }

  /** Identities numbered 1, 2, ... are all different. */
  lemma NumberedDiffer(issued: seq<string>, seed: string)
    requires IsSeed(seed) && forall i :: 0 <= i < |issued| ==> Numbered(issued[i], seed, i + 1)
    ensures forall i, j :: 0 <= i < j < |issued| ==> issued[i] != issued[j]
  {
    forall i, j | 0 <= i < j < |issued|
      ensures issued[i] != issued[j]
    {
      if issued[i] == issued[j] {
        OneNumber(issued[i], seed, i + 1, j + 1);
      }
    }
  }

  class DeterministicIdFactory {
    const seed: string
    var nextValue: nat
    ghost var issued: seq<string>

    /** The identities issued so far carry the counters 1, 2, ..., in order, and are all different. */
    ghost predicate Valid()
      reads this
    {
      && IsSeed(seed) && |issued| == nextValue
      && (forall i :: 0 <= i < |issued| ==> Numbered(issued[i], seed, i + 1))
      && (forall i, j :: 0 <= i < j < |issued| ==> issued[i] != issued[j])
    }

    constructor (seed: string)
      requires IsSeed(seed)
      ensures Valid() && this.seed == seed && nextValue == 0 && issued == []
    {
      this.seed, nextValue, issued := seed, 0, [];
    }

    /** The source's constructor throws on a seed that is not ten Crockford characters. */
    static method Create(seed: string) returns (factory: DeterministicIdFactory?)
      ensures factory == null <==> !IsSeed(seed)
      ensures factory != null ==> fresh(factory) && factory.Valid() && factory.seed == seed && factory.nextValue == 0
    {
      if |seed| == 10 && forall c :: c in seed ==> IsCrockford(c) {
        factory := new DeterministicIdFactory(seed);
      } else {
        factory := null;
      }
    }

    method Next(prefix: string) returns (id: string)
      requires Valid()
      modifies this
      ensures Valid() && nextValue == old(nextValue) + 1
      ensures id == IdOf(prefix, seed, nextValue)
      ensures id !in old(issued) && issued == old(issued) + [id]
    {
      nextValue := nextValue + 1;
      var token := DeterministicToken(nextValue, 6);
      id := prefix + "_" + seed + token;
      assert Carries(id, prefix, seed, nextValue);
      NumberedDiffer(issued + [id], seed);
      assert forall i :: 0 <= i < |issued| ==> (issued + [id])[i] == issued[i] && (issued + [id])[|issued|] == id;
      issued := issued + [id];
    }

    method Entity(prefix: string) returns (id: string)
      requires Valid()
      modifies this
      ensures Valid() && nextValue == old(nextValue) + 1 && id == IdOf(prefix, seed, nextValue)
      ensures id !in old(issued) && issued == old(issued) + [id]
    {
      id := Next(prefix);
    }

    method Workspace() returns (id: string)
      requires Valid()
      modifies this
      ensures Valid() && nextValue == old(nextValue) + 1 && id == IdOf("workspace", seed, nextValue)
      ensures id !in old(issued) && issued == old(issued) + [id]
    {
      id := Next("workspace");
    }
  }
}
