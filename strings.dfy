/**
 * The handful of PHP string functions the library relies on: integer to
 * string conversion, `explode`, `implode`, `str_replace('[]', '', …, $count)`
 * and ASCII case mapping.
 */
module Strings {

  function DigitChar(d: nat): (c: char)
    requires d < 10
    ensures '0' <= c <= '9'
  {
    "0123456789"[d]
  }

  function DigitValue(c: char): nat
    requires '0' <= c <= '9'
  {
    c as nat - '0' as nat
  }

  /** The decimal text of a natural number, as PHP's `(string) $n` writes it. */
  function NatToString(n: nat): (s: string)
    ensures |s| >= 1
    ensures forall i :: 0 <= i < |s| ==> '0' <= s[i] <= '9'
    decreases n
  {
    if n < 10 then [DigitChar(n)] else NatToString(n / 10) + [DigitChar(n % 10)]
  }

  /** Reading decimal digits back: the partner of NatToString. */
  function ParseNat(s: string): nat
    requires forall i :: 0 <= i < |s| ==> '0' <= s[i] <= '9'
  {
    if s == [] then 0 else 10 * ParseNat(s[..|s| - 1]) + DigitValue(s[|s| - 1])
  }

  lemma {:induction false} ParseNatToString(n: nat)
    ensures ParseNat(NatToString(n)) == n
    decreases n
  {
    var s := NatToString(n);
    if n >= 10 {
      assert s[..|s| - 1] == NatToString(n / 10);
      ParseNatToString(n / 10);
    }
  }

  /** Different numbers have different decimal texts, so list keys never collide. */
  lemma NatToStringInjective(m: nat, n: nat)
    requires NatToString(m) == NatToString(n)
    ensures m == n
  {
    ParseNatToString(m);
    ParseNatToString(n);
  }

  /** `(string) $i` for a PHP integer. */
  function IntToString(i: int): (s: string)
    ensures |s| >= 1
  {
    if i < 0 then "-" + NatToString(-i) else NatToString(i)
  }

  /** `explode($c, $s)`: the pieces between the separators, empty pieces included. */
  function Explode(s: string, c: char): (parts: seq<string>)
    ensures |parts| >= 1
    ensures forall i :: 0 <= i < |parts| ==> c !in parts[i]
  {
    if s == [] then [""]
    else
      var rest := Explode(s[1..], c);
      if s[0] == c then [""] + rest else [[s[0]] + rest[0]] + rest[1..]
  }

  /** `implode($c, $parts)` for a one-character glue. */
  function Implode(parts: seq<string>, c: char): string
  {
    if parts == [] then "" else if |parts| == 1 then parts[0] else parts[0] + [c] + Implode(parts[1..], c)
  }

  /** `implode` with a glue of any length. */
  function Join(parts: seq<string>, glue: string): string
  {
    if parts == [] then "" else if |parts| == 1 then parts[0] else parts[0] + glue + Join(parts[1..], glue)
  }

  lemma {:induction false} ImplodeExplode(s: string, c: char)
    ensures Implode(Explode(s, c), c) == s
  {
    if s != [] {
      ImplodeExplode(s[1..], c);
      var rest := Explode(s[1..], c);
      if s[0] != c {
        if |rest| == 1 {
          assert s == [s[0]] + rest[0];
        } else {
          assert Implode(rest, c) == rest[0] + [c] + Implode(rest[1..], c);
          assert s == [s[0]] + s[1..];
        }
      }
    }
  }

  /** Index of the first occurrence of `c`. */
  function FirstIndex(s: string, c: char): (i: nat)
    requires c in s
    ensures i < |s| && s[i] == c && c !in s[..i]
  {
    if s[0] == c then 0 else 1 + FirstIndex(s[1..], c)
  }

  /** `explode($c, $s, 2)` when the separator occurs: the text before it and the text after. */
  function SplitFirst(s: string, c: char): (parts: (string, string))
    requires c in s
    ensures c !in parts.0
    ensures s == parts.0 + [c] + parts.1
    ensures |parts.1| < |s|
  {
    var i := FirstIndex(s, c);
    assert s == s[..i] + [c] + s[i + 1..];
    (s[..i], s[i + 1..])
  }

  predicate ContainsBrackets(s: string)
  {
    exists i :: 0 <= i < |s| - 1 && s[i] == '[' && s[i + 1] == ']'
  }

  /** `str_replace('[]', '', $s, $count)`: removes every "[]" scanning left to right, and counts them. */
  function RemoveBrackets(s: string): (r: (string, nat))
    ensures r.1 == 0 <==> !ContainsBrackets(s)
    ensures r.1 == 0 ==> r.0 == s
    ensures |r.0| == |s| - 2 * r.1
  {
    if |s| < 2 then (s, 0)
    else if s[0] == '[' && s[1] == ']' then
      var rest := RemoveBrackets(s[2..]);
      (rest.0, rest.1 + 1)
    else
      var rest := RemoveBrackets(s[1..]);
      assert ContainsBrackets(s) <==> ContainsBrackets(s[1..]) by {
        if ContainsBrackets(s) {
          var i :| 0 <= i < |s| - 1 && s[i] == '[' && s[i + 1] == ']';
          assert s[1..][i - 1] == '[';
        }
        if ContainsBrackets(s[1..]) {
          var i :| 0 <= i < |s[1..]| - 1 && s[1..][i] == '[' && s[1..][i + 1] == ']';
          assert s[i + 1] == '[' && s[i + 2] == ']';
        }
      }
      ([s[0]] + rest.0, rest.1)
  }

  predicate IsUpper(c: char) { 'A' <= c <= 'Z' }
  predicate IsLower(c: char) { 'a' <= c <= 'z' }
  predicate IsDigit(c: char) { '0' <= c <= '9' }

  function ToUpper(c: char): (u: char)
    ensures !IsLower(u)
    ensures !IsLower(c) ==> u == c
  {
    if IsLower(c) then (c as int - 32) as char else c
  }

  function ToLower(c: char): (l: char)
    ensures !IsUpper(l)
    ensures !IsUpper(c) ==> l == c
  {
    if IsUpper(c) then (c as int + 32) as char else c
  }

  /** `strtolower`, ASCII only. */
  function Lowercase(s: string): (r: string)
    ensures |r| == |s|
    ensures forall i :: 0 <= i < |r| ==> r[i] == ToLower(s[i])
  {
    seq(|s|, i requires 0 <= i < |s| => ToLower(s[i]))
  }

  function StartsWith(s: string, prefix: string): bool
  {
    |prefix| <= |s| && s[..|prefix|] == prefix
  }
}
