/**
 * The two name-casing helpers that every generator uses to derive type
 * names, file names and schema identifiers from the component name.
 * Both scripts carry identical copies; they are modelled once here.
 */
module Casing {
  import opened Strings

  /** `word.charAt(0).toUpperCase() + word.slice(1)`. */
  function Capitalize(w: string): string {
    if w == [] then [] else [ToUpper(w[0])] + w[1..]
  }

  /** `words.map(Capitalize).join("")`. */
  function JoinCapitalized(words: seq<string>): string {
    if words == [] then [] else Capitalize(words[0]) + JoinCapitalized(words[1..])
  }

  /** `str.split("-").map(Capitalize).join("")`. */
  function ToPascalCase(s: string): string {
    JoinCapitalized(Split(s, '-'))
  }

  /**
   * Reference reading of Pascal casing, one character at a time: every `-`
   * is dropped, and a character is upper-cased exactly when it starts a
   * word (it is first, or follows a `-`).
   */
  function PascalScan(s: string, wordStart: bool): (r: string)
    ensures '-' !in r
    ensures |r| <= |s|
  {
    if s == [] then []
    else if s[0] == '-' then PascalScan(s[1..], true)
    else [if wordStart then ToUpper(s[0]) else s[0]] + PascalScan(s[1..], false)
  }

  lemma {:induction false} PascalScanAtWordStart(s: string)
    ensures PascalScan(s, true) == Capitalize(Split(s, '-')[0]) + JoinCapitalized(Split(s, '-')[1..])
    decreases |s|
  {
    if s != [] {
      var rest := Split(s[1..], '-');
      if s[0] == '-' {
        PascalScanAtWordStart(s[1..]);
        assert Split(s, '-') == [[]] + rest;
      } else {
        PascalScanInsideWord(s[1..]);
        assert Split(s, '-') == [[s[0]] + rest[0]] + rest[1..];
        assert Capitalize([s[0]] + rest[0]) == [ToUpper(s[0])] + rest[0];
      }
    }
  }

  lemma {:induction false} PascalScanInsideWord(s: string)
    ensures PascalScan(s, false) == Split(s, '-')[0] + JoinCapitalized(Split(s, '-')[1..])
    decreases |s|
  {
    if s != [] {
      var rest := Split(s[1..], '-');
      if s[0] == '-' {
        PascalScanAtWordStart(s[1..]);
        assert Split(s, '-') == [[]] + rest;
      } else {
        PascalScanInsideWord(s[1..]);
        assert Split(s, '-') == [[s[0]] + rest[0]] + rest[1..];
      }
    }
  }

  /**
   * `toPascalCase` removes every `-` and upper-cases exactly the first
   * character of each hyphen-separated word, leaving the others as they are.
   */
  lemma PascalCaseIsScan(s: string)
    ensures ToPascalCase(s) == PascalScan(s, true)
    ensures '-' !in ToPascalCase(s)
  {
    PascalScanAtWordStart(s);
  }

  /**
   * `str.toLowerCase().replace(/\s+/g, "-")`: every maximal run of
   * whitespace becomes a single `-`.
   */
  function ToKebabCase(s: string): string {
    ReplaceSpaceRuns(LowerString(s))
  }

  function ReplaceSpaceRuns(s: string): string
    decreases |s|
  {
    if s == [] then []
    else if IsSpace(s[0]) then "-" + ReplaceSpaceRuns(TrimStart(s[1..]))
    else [s[0]] + ReplaceSpaceRuns(s[1..])
  }

  lemma {:induction false} ReplaceSpaceRunsClean(s: string)
    ensures NoSpace(ReplaceSpaceRuns(s))
    ensures !NoSpace(s) || ReplaceSpaceRuns(s) == s
    ensures (forall i :: 0 <= i < |s| ==> !IsUpper(s[i])) ==>
              forall i :: 0 <= i < |ReplaceSpaceRuns(s)| ==> !IsUpper(ReplaceSpaceRuns(s)[i])
    decreases |s|
  {
    if s != [] {
      if IsSpace(s[0]) {
        ReplaceSpaceRunsClean(TrimStart(s[1..]));
      } else {
        ReplaceSpaceRunsClean(s[1..]);
      }
    }
  }

  lemma LowerStringFixed(s: string)
    requires forall i :: 0 <= i < |s| ==> !IsUpper(s[i])
    ensures LowerString(s) == s
  {
  }

  /** Kebab casing leaves no whitespace and is idempotent. */
  lemma KebabCaseIdempotent(s: string)
    ensures NoSpace(ToKebabCase(s))
    ensures ToKebabCase(ToKebabCase(s)) == ToKebabCase(s)
  {
    var k := ToKebabCase(s);
    ReplaceSpaceRunsClean(LowerString(s));
    LowerStringFixed(k);
    ReplaceSpaceRunsClean(k);
  }

  /** A name already in lower case without whitespace is its own kebab form. */
  lemma KebabCaseOfKebabName(s: string)
    requires NoSpace(s)
    requires forall i :: 0 <= i < |s| ==> !IsUpper(s[i])
    ensures ToKebabCase(s) == s
  {
    LowerStringFixed(s);
    ReplaceSpaceRunsClean(s);
  }
}
