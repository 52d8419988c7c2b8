/**
 * Prop extraction: a shallow lexical scan of a component's source for the
 * names of its configurable props. Two regular-expression searches are
 * hand-coded here: the interface scan `/interface\s+\w+Props\s*\{([^}]+)\}/s`
 * followed by `/(\w+)[\?]?\s*:/g` over its body, and the destructuring scan
 * `/function\s+\w+\s*\(\{([^}]+)\}/` whose body is split on `,`.
 */
module PropExtraction {
  import opened Wrappers
  import opened Strings

  /** The body of an `interface <Word>Props { ... }` declaration starting at `i`. */
  function InterfaceBodyAt(code: string, i: nat): Option<string> {
    if !At(code, i, "interface") || i + 9 >= |code| || !IsSpace(code[i + 9]) then None
    else
      var k := SkipSpaces(code, i + 9);
      var e := SkipWord(code, k);
      // `\w+Props`: the word run must end in `Props` and have at least one character before it
      if e - k < 6 || code[e - 5..e] != "Props" then None
      else
        var m := SkipSpaces(code, e);
        if m >= |code| || code[m] != '{' then None
        else
          // `[^}]+\}`: at least one character, up to the first `}`
          var c := IndexOfFrom(code, '}', m + 1);
          if c <= m + 1 then None else Some(code[m + 1..c])
  }

  /** The leftmost interface match at or after `i` (`String.prototype.match` without `g`). */
  function FindInterfaceBody(code: string, i: nat): Option<string>
    decreases |code| - i
  {
    if i >= |code| then None
    else if InterfaceBodyAt(code, i).Some? then InterfaceBodyAt(code, i)
    else FindInterfaceBody(code, i + 1)
  }

  /** The body of `function <word>({ ... }` starting at `i`. */
  function DestructureBodyAt(code: string, i: nat): Option<string> {
    if !At(code, i, "function") || i + 8 >= |code| || !IsSpace(code[i + 8]) then None
    else
      var k := SkipSpaces(code, i + 8);
      var e := SkipWord(code, k);
      if e == k then None
      else
        var m := SkipSpaces(code, e);
        if m + 1 >= |code| || code[m] != '(' || code[m + 1] != '{' then None
        else
          var c := IndexOfFrom(code, '}', m + 2);
          if c <= m + 2 then None else Some(code[m + 2..c])
  }

  function FindDestructureBody(code: string, i: nat): Option<string>
    decreases |code| - i
  {
    if i >= |code| then None
    else if DestructureBodyAt(code, i).Some? then DestructureBodyAt(code, i)
    else FindDestructureBody(code, i + 1)
  }

  /**
   * The names `/(\w+)[\?]?\s*:/g` captures in `block` from position `p` on.
   * A word run followed by an optional `?`, optional whitespace and a `:`
   * is captured whole; an attempt that starts inside a word run fails exactly
   * when the attempt at the start of that run failed, so the scan resumes
   * at the end of the run.
   */
  function PropTokensFrom(block: string, p: nat): seq<string>
    requires p <= |block|
    decreases |block| - p
  {
    if p == |block| then []
    else if !IsWordChar(block[p]) then PropTokensFrom(block, p + 1)
    else
      var e := SkipWord(block, p);
      var q := if e < |block| && block[e] == '?' then e + 1 else e;
      var r := SkipSpaces(block, q);
      if r < |block| && block[r] == ':' then [block[p..e]] + PropTokensFrom(block, r + 1)
      else PropTokensFrom(block, e)
  }

  /** `p.trim().split(":")[0].trim()`. */
  function DestructureEntry(entry: string): string {
    Trim(BeforeFirst(Trim(entry), ':'))
  }

  /** `parts.map(DestructureEntry)`. */
  function DestructureEntries(parts: seq<string>): seq<string> {
    seq(|parts|, k requires 0 <= k < |parts| => DestructureEntry(parts[k]))
  }

  /** Names found by the interface scan, in match order. */
  function InterfaceNames(code: string): seq<string> {
    match FindInterfaceBody(code, 0)
    case None => []
    case Some(block) => PropTokensFrom(block, 0)
  }

  /** Names found by the destructuring scan, one per `,`-separated entry. */
  function DestructureNames(code: string): seq<string> {
    match FindDestructureBody(code, 0)
    case None => []
    case Some(block) => DestructureEntries(Split(block, ','))
  }

  predicate NoDuplicates(s: seq<string>) {
    forall i, j :: 0 <= i < j < |s| ==> s[i] != s[j]
  }

  /** `[...new Set(s)]`: each value once, at the position of its first occurrence. */
  function FirstOccurrences(s: seq<string>): seq<string>
    decreases |s|
  {
    if s == [] then []
    else
      var init := s[..|s| - 1];
      FirstOccurrences(init) + (if s[|s| - 1] in init then [] else [s[|s| - 1]])
  }

  /** What `analyzeComponentProps` returns for `code`. */
  function ExtractedProps(code: string): seq<string> {
    FirstOccurrences(InterfaceNames(code) + DestructureNames(code))
  }

  lemma {:induction false} FirstOccurrencesElements(s: seq<string>)
    ensures forall x :: x in FirstOccurrences(s) <==> x in s
    decreases |s|
  {
    if s != [] {
      var init := s[..|s| - 1];
      FirstOccurrencesElements(init);
      assert s == init + [s[|s| - 1]];
    }
  }

  /** The de-duplicated list holds no value twice. */
  lemma {:induction false} FirstOccurrencesDistinct(s: seq<string>)
    ensures NoDuplicates(FirstOccurrences(s))
    decreases |s|
  {
    if s != [] {
      var init := s[..|s| - 1];
      FirstOccurrencesDistinct(init);
      FirstOccurrencesElements(init);
    }
  }

  /** A list without duplicates is left as it is. */
  lemma {:induction false} FirstOccurrencesOfDistinct(s: seq<string>)
    requires NoDuplicates(s)
    ensures FirstOccurrences(s) == s
    decreases |s|
  {
    if s != [] {
      var init := s[..|s| - 1];
      assert NoDuplicates(init);
      FirstOccurrencesOfDistinct(init);
      assert s[|s| - 1] !in init;
      assert s == init + [s[|s| - 1]];
    }
  }

  /**
   * De-duplicating `a + b` keeps the de-duplicated `a` in front, followed by
   * the values of `b` that `a` does not hold, in their first-occurrence
   * order: interface-scan names come first, then the new destructured ones.
   */
  lemma {:induction false} FirstOccurrencesAppend(a: seq<string>, b: seq<string>)
    ensures FirstOccurrences(a + b) == FirstOccurrences(a) + Remove(FirstOccurrences(b), set x | x in a)
    decreases |b|
  {
    var inA := set x | x in a;
    if b == [] {
      assert a + b == a;
    } else {
      var initB := b[..|b| - 1];
      var y := b[|b| - 1];
      assert (a + b)[..|a + b| - 1] == a + initB;
      assert (a + b)[|a + b| - 1] == y;
      FirstOccurrencesAppend(a, initB);
      var tail := if y in initB then [] else [y];
      assert FirstOccurrences(b) == FirstOccurrences(initB) + tail;
      RemoveAppend(FirstOccurrences(initB), tail, inA);
      assert (y in a + initB) == (y in inA || y in initB);
    }
  }

  /** A non-empty run of word characters. */
  predicate IsWord(t: string) {
    t != [] && forall k :: 0 <= k < |t| ==> IsWordChar(t[k])
  }

  /** Every interface-scan name is a non-empty run of word characters. */
  lemma {:induction false} PropTokensAreWords(block: string, p: nat)
    requires p <= |block|
    ensures forall t :: t in PropTokensFrom(block, p) ==> IsWord(t)
    decreases |block| - p
  {
    if p < |block| {
      if !IsWordChar(block[p]) {
        PropTokensAreWords(block, p + 1);
      } else {
        var e := SkipWord(block, p);
        var q := if e < |block| && block[e] == '?' then e + 1 else e;
        var r := SkipSpaces(block, q);
        if r < |block| && block[r] == ':' {
          var rest := PropTokensFrom(block, r + 1);
          PropTokensAreWords(block, r + 1);
          WordRun(block, p);
          assert PropTokensFrom(block, p) == [block[p..e]] + rest;
          forall t | t in [block[p..e]] + rest ensures IsWord(t) {
            if t != block[p..e] {
              assert t in rest;
            }
          }
        } else {
          PropTokensAreWords(block, e);
        }
      }
    }
  }

  lemma AppendAssoc(a: seq<string>, b: seq<string>, c: seq<string>)
    ensures (a + b) + c == a + (b + c)
  {
  }

  /** The word run starting at a word character is a word. */
  lemma WordRun(block: string, p: nat)
    requires p < |block| && IsWordChar(block[p])
    ensures IsWord(block[p..SkipWord(block, p)])
  {
    var w := block[p..SkipWord(block, p)];
    assert forall k :: 0 <= k < |w| ==> w[k] == block[p + k];
  }

  /**
   * A destructured entry is the trimmed text before its first `:`; nothing
   * else is removed, so a default such as `a = 1` is kept as written.
   */
  lemma DestructureEntryShape(entry: string)
    ensures ':' !in DestructureEntry(entry)
    ensures DestructureEntry(entry) == [] ||
            (!IsSpace(DestructureEntry(entry)[0]) && !IsSpace(DestructureEntry(entry)[|DestructureEntry(entry)| - 1]))
    ensures ':' !in entry ==> DestructureEntry(entry) == Trim(entry)
  {
    TrimKeepsChars(BeforeFirst(Trim(entry), ':'));
    if ':' !in entry {
      TrimKeepsChars(entry);
      BeforeFirstAbsent(Trim(entry), ':');
      TrimFixed(Trim(entry));
    }
  }

  /** An entry with a type annotation keeps the trimmed text before the `:`. */
  lemma DestructureEntryBeforeColon(a: string, b: string)
    requires ':' !in a
    ensures DestructureEntry(a + ":" + b) == Trim(a)
  {
    var ts := TrimStart(a);
    TrimStartAbsent(a, ':');
    TrimAround(a, ':', b);
    BeforeFirstAt(ts, ':', TrimEnd(b));
    assert TrimStart(ts) == ts;
  }

  /**
   * The `for (const match of block.matchAll(...)) props.push(match[1])`
   * loop: one attempt of the global prop pattern per position.
   */
  method ScanPropTokens(block: string) returns (names: seq<string>)
    ensures names == PropTokensFrom(block, 0)
  {
    names := [];
    var p := 0;
    while p < |block|
      invariant p <= |block|
      invariant names + PropTokensFrom(block, p) == PropTokensFrom(block, 0)
      decreases |block| - p
    {
      if !IsWordChar(block[p]) {
        p := p + 1;
      } else {
        var e := SkipWord(block, p);
        var q := if e < |block| && block[e] == '?' then e + 1 else e;
        var r := SkipSpaces(block, q);
        if r < |block| && block[r] == ':' {
          AppendAssoc(names, [block[p..e]], PropTokensFrom(block, r + 1));
          names := names + [block[p..e]];
          p := r + 1;
        } else {
          p := e;
        }
      }
    }
  }

  /** `[...new Set(found)]`: insertion into a set, in list order. */
  method Deduplicate(found: seq<string>) returns (props: seq<string>)
    ensures props == FirstOccurrences(found)
    ensures NoDuplicates(props)
    ensures forall x :: x in props <==> x in found
  {
    props := [];
    var seen: set<string> := {};
    for i := 0 to |found|
      invariant props == FirstOccurrences(found[..i])
      invariant forall x :: x in seen <==> x in found[..i]
    {
      assert found[..i + 1][..i] == found[..i];
      if found[i] !in seen {
        props := props + [found[i]];
        seen := seen + {found[i]};
      }
    }
    assert found[..|found|] == found;
    FirstOccurrencesDistinct(found);
    FirstOccurrencesElements(found);
  }

  /**
   * `analyzeComponentProps`: collect the interface-scan names, then the
   * destructured names, then drop repeated names keeping first occurrences.
   */
  method AnalyzeComponentProps(code: string) returns (props: seq<string>)
    ensures props == ExtractedProps(code)
    ensures NoDuplicates(props)
    ensures forall x :: x in props <==> x in InterfaceNames(code) || x in DestructureNames(code)
    ensures FindInterfaceBody(code, 0).None? && FindDestructureBody(code, 0).None? ==> props == []
  {
    var found: seq<string> := [];
    var interfaceMatch := FindInterfaceBody(code, 0);
    if interfaceMatch.Some? {
      found := ScanPropTokens(interfaceMatch.value);
    }
    var destructureMatch := FindDestructureBody(code, 0);
    if destructureMatch.Some? {
      found := found + DestructureEntries(Split(destructureMatch.value, ','));
    }
    assert found == InterfaceNames(code) + DestructureNames(code);
    props := Deduplicate(found);
  }
}
