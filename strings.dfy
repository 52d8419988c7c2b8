/**
 * Text helpers shared by the generators: the character classes of
 * JavaScript regular expressions (`\s`, `\w`, `[A-Z]`), ASCII case maps,
 * and the `trim`, `split` and `join` string operations.
 */
module Strings {

  /** JavaScript `\s`, which is also the set `String.prototype.trim` removes. */
  predicate IsSpace(c: char) {
    c == ' ' || c == '\t' || c == '\n' || c == '\r' || c == '\U{000B}' || c == '\U{000C}'
    || c == '\U{00A0}' || c == '\U{1680}' || ('\U{2000}' <= c <= '\U{200A}')
    || c == '\U{2028}' || c == '\U{2029}' || c == '\U{202F}' || c == '\U{205F}'
    || c == '\U{3000}' || c == '\U{FEFF}'
  }

  /** JavaScript `\w` without the `u` flag. */
  predicate IsWordChar(c: char) {
    ('a' <= c <= 'z') || ('A' <= c <= 'Z') || ('0' <= c <= '9') || c == '_'
  }

  predicate IsUpper(c: char) { 'A' <= c <= 'Z' }

  predicate IsQuote(c: char) { c == '"' || c == '\'' }

  function ToUpper(c: char): (u: char)
    ensures !IsSpace(c) ==> !IsSpace(u)
    ensures c != '-' ==> u != '-'
  {
    if 'a' <= c <= 'z' then (c as int - 32) as char else c
  }

  function ToLower(c: char): (l: char)
    ensures IsSpace(l) <==> IsSpace(c)
    ensures !IsUpper(l)
    ensures l == '-' <==> c == '-'
  {
    if IsUpper(c) then (c as int + 32) as char else c
  }

  /** `s.toLowerCase()`, restricted to ASCII letters. */
  function LowerString(s: string): (r: string)
    ensures |r| == |s|
    ensures forall i :: 0 <= i < |s| ==> r[i] == ToLower(s[i])
  {
    if s == [] then [] else [ToLower(s[0])] + LowerString(s[1..])
  }

  predicate NoSpace(s: string) { forall i :: 0 <= i < |s| ==> !IsSpace(s[i]) }

  function TrimStart(s: string): (r: string)
    ensures |r| <= |s| && r == s[|s| - |r|..]
    ensures r == [] || !IsSpace(r[0])
  {
    if s != [] && IsSpace(s[0]) then TrimStart(s[1..]) else s
  }

  function TrimEnd(s: string): (r: string)
    ensures |r| <= |s| && r == s[..|r|]
    ensures r == [] || !IsSpace(r[|r| - 1])
  {
    if s != [] && IsSpace(s[|s| - 1]) then TrimEnd(s[..|s| - 1]) else s
  }

  /** `s.trim()`. */
  function Trim(s: string): (r: string)
    ensures r == [] || (!IsSpace(r[0]) && !IsSpace(r[|r| - 1]))
  {
    TrimEnd(TrimStart(s))
  }

  lemma TrimKeepsChars(s: string)
    ensures forall c :: c in Trim(s) ==> c in s
  {
    var t := TrimStart(s);
    forall c | c in Trim(s) ensures c in s {
      var k :| 0 <= k < |Trim(s)| && Trim(s)[k] == c;
      assert c == t[k];
      assert t[k] == s[|s| - |t| + k];
    }
  }

  /** Trimming a trimmed string changes nothing. */
  lemma TrimFixed(s: string)
    requires s == [] || (!IsSpace(s[0]) && !IsSpace(s[|s| - 1]))
    ensures TrimStart(s) == s && TrimEnd(s) == s && Trim(s) == s
  {
  }

  /** Leading whitespace stops at the first character that is not whitespace. */
  lemma {:induction false} TrimStartAppend(a: string, b: string)
    requires b != [] && !IsSpace(b[0])
    ensures TrimStart(a + b) == TrimStart(a) + b
  {
    if a != [] {
      assert (a + b)[1..] == a[1..] + b;
      TrimStartAppend(a[1..], b);
    } else {
      assert a + b == b;
    }
  }

  /** Trailing whitespace stops at the last character that is not whitespace. */
  lemma {:induction false} TrimEndAppend(a: string, b: string)
    requires a != [] && !IsSpace(a[|a| - 1])
    ensures TrimEnd(a + b) == a + TrimEnd(b)
    decreases |b|
  {
    if b != [] {
      assert (a + b)[..|a + b| - 1] == a + b[..|b| - 1];
      TrimEndAppend(a, b[..|b| - 1]);
    } else {
      assert a + b == a;
    }
  }

  /** A string is its part before position `i` and the rest. */
  lemma SplitAt(s: string, i: nat)
    requires i <= |s|
    ensures s == s[..i] + s[i..]
  {
  }

  /** A string is its part before position `i`, the character there, and the rest. */
  lemma SplitAround(s: string, i: nat)
    requires i < |s|
    ensures s == s[..i] + [s[i]] + s[i + 1..]
  {
  }

  /** Trimming the start removes characters and adds none. */
  lemma TrimStartAbsent(s: string, d: char)
    requires d !in s
    ensures d !in TrimStart(s)
  {
    var t := TrimStart(s);
    forall c | c in t ensures c in s {
      var k :| 0 <= k < |t| && t[k] == c;
      assert t[k] == s[|s| - |t| + k];
    }
  }

  /** Trimming stops at a character that is not whitespace, from either side. */
  lemma TrimAround(a: string, c: char, b: string)
    requires !IsSpace(c)
    ensures Trim(a + [c] + b) == TrimStart(a) + [c] + TrimEnd(b)
  {
    TrimStartBefore(a, c, b);
    TrimEndAfter(TrimStart(a), c, b);
  }

  lemma {:induction false} TrimStartBefore(a: string, c: char, b: string)
    requires !IsSpace(c)
    ensures TrimStart(a + [c] + b) == TrimStart(a) + [c] + b
  {
    var s := a + [c] + b;
    if a == [] {
      assert s == [c] + b && s[0] == c;
    } else if IsSpace(a[0]) {
      assert s[0] == a[0] && s[1..] == a[1..] + [c] + b;
      TrimStartBefore(a[1..], c, b);
    } else {
      assert s[0] == a[0];
    }
  }

  lemma TrimEndAfter(x: string, c: char, b: string)
    requires !IsSpace(c)
    ensures TrimEnd(x + [c] + b) == x + [c] + TrimEnd(b)
  {
    var xc := x + [c];
    assert xc[|xc| - 1] == c;
    TrimEndAppend(xc, b);
  }

  /** `s.split(d)` for a one-character separator: never empty, `"".split(d) == [""]`. */
  function Split(s: string, d: char): (parts: seq<string>)
    ensures |parts| >= 1
  {
    if s == [] then [[]]
    else
      var rest := Split(s[1..], d);
      if s[0] == d then [[]] + rest else [[s[0]] + rest[0]] + rest[1..]
  }

  /** The text before the first `d` (all of `s` when there is none): `s.split(d)[0]`. */
  function BeforeFirst(s: string, d: char): (r: string)
    ensures d !in r
    ensures |r| <= |s| && r == s[..|r|]
    ensures |r| < |s| ==> s[|r|] == d
  {
    if s == [] || s[0] == d then [] else [s[0]] + BeforeFirst(s[1..], d)
  }

  /** Without the separator, the text before its first occurrence is the whole string. */
  lemma {:induction false} BeforeFirstAbsent(s: string, d: char)
    requires d !in s
    ensures BeforeFirst(s, d) == s
  {
    if s != [] {
      assert s[0] in s;
      assert d !in s[1..] by {
        forall c | c in s[1..] ensures c in s { }
      }
      BeforeFirstAbsent(s[1..], d);
    }
  }

  /** The text before the first separator is everything up to it. */
  lemma {:induction false} BeforeFirstAt(u: string, d: char, v: string)
    requires d !in u
    ensures BeforeFirst(u + [d] + v, d) == u
  {
    if u != [] {
      assert u[0] in u;
      assert d !in u[1..] by {
        forall c | c in u[1..] ensures c in u { }
      }
      assert (u + [d] + v)[1..] == u[1..] + [d] + v;
      BeforeFirstAt(u[1..], d, v);
    }
  }

  lemma {:induction false} SplitHead(s: string, d: char)
    ensures Split(s, d)[0] == BeforeFirst(s, d)
  {
    if s != [] && s[0] != d {
      SplitHead(s[1..], d);
    }
  }

  /** `parts.join("")`. */
  function Concat(parts: seq<string>): string {
    if parts == [] then [] else parts[0] + Concat(parts[1..])
  }

  /** `parts.join(sep)`. */
  function Join(parts: seq<string>, sep: string): string {
    if parts == [] then []
    else if |parts| == 1 then parts[0]
    else parts[0] + sep + Join(parts[1..], sep)
  }

  /** First index `>= from` holding `c`. */
  function IndexOfFrom(s: string, c: char, from: nat): (r: int)
    requires from <= |s|
    ensures r == -1 || (from <= r < |s| && s[r] == c)
    ensures forall k :: from <= k < (if r == -1 then |s| else r) ==> s[k] != c
    decreases |s| - from
  {
    if from == |s| then -1 else if s[from] == c then from else IndexOfFrom(s, c, from + 1)
  }

  /** First index `>= i` that is not whitespace. */
  function SkipSpaces(s: string, i: nat): (j: nat)
    requires i <= |s|
    ensures i <= j <= |s|
    ensures forall k :: i <= k < j ==> IsSpace(s[k])
    ensures j == |s| || !IsSpace(s[j])
    decreases |s| - i
  {
    if i < |s| && IsSpace(s[i]) then SkipSpaces(s, i + 1) else i
  }

  /** First index `>= i` that is not a word character. */
  function SkipWord(s: string, i: nat): (j: nat)
    requires i <= |s|
    ensures i <= j <= |s|
    ensures forall k :: i <= k < j ==> IsWordChar(s[k])
    ensures j == |s| || !IsWordChar(s[j])
    decreases |s| - i
  {
    if i < |s| && IsWordChar(s[i]) then SkipWord(s, i + 1) else i
  }

  /** Does `s` hold `w` at position `i`? */
  predicate At(s: string, i: nat, w: string) {
    i + |w| <= |s| && s[i..i + |w|] == w
  }

  /** `s.filter(x => !excluded.includes(x))`. */
  function Remove(s: seq<string>, excluded: set<string>): (r: seq<string>)
    ensures |r| <= |s|
  {
    if s == [] then []
    else (if s[0] in excluded then [] else [s[0]]) + Remove(s[1..], excluded)
  }

  lemma RemoveElements(s: seq<string>, excluded: set<string>)
    ensures forall x :: x in Remove(s, excluded) <==> x in s && x !in excluded
  {
    if s != [] {
      RemoveElements(s[1..], excluded);
    }
  }

  lemma RemoveAppend(a: seq<string>, b: seq<string>, excluded: set<string>)
    ensures Remove(a + b, excluded) == Remove(a, excluded) + Remove(b, excluded)
  {
    if a == [] {
      assert a + b == b;
    } else {
      var head := if a[0] in excluded then [] else [a[0]];
      calc {
        Remove(a + b, excluded);
        { assert (a + b)[0] == a[0]; assert (a + b)[1..] == a[1..] + b; }
        head + Remove(a[1..] + b, excluded);
        { RemoveAppend(a[1..], b, excluded); }
        head + (Remove(a[1..], excluded) + Remove(b, excluded));
        (head + Remove(a[1..], excluded)) + Remove(b, excluded);
      }
    }
  }

  /** `args[i] || fallback`: a missing or empty argument takes the default. */
  function ArgOr(args: seq<string>, i: nat, fallback: string): string {
    if i < |args| && args[i] != "" then args[i] else fallback
  }
}
