/**
 * The import rewrites applied to fetched component code:
 * `code.replace(/from\s+['"]MODULE['"]/g, REPLACEMENT)`, for the
 * `framer-motion` module (rewritten to `motion/react`) and for the
 * `@/lib/utils` module (rewritten to itself with double quotes).
 */
module ImportRewrite {
  import opened Wrappers
  import opened Strings

  const FramerMotion := "framer-motion"
  const MotionImport := "from \"motion/react\""
  const LibUtils := "@/lib/utils"
  const UtilsImport := "from \"@/lib/utils\""

  /** `t` begins with the keyword `from`. */
  predicate StartsWithFrom(t: string) {
    |t| >= 4 && t[0] == 'f' && t[1] == 'r' && t[2] == 'o' && t[3] == 'm'
  }

  /**
   * The length of the match of `from\s+['"]m['"]` at the start of `t`, if
   * any. `\s+` is greedy and a quote is never whitespace, so the match is
   * determined by the first non-space after `from`; the two quotes are
   * independent of each other.
   */
  function ImportMatch(t: string, m: string): (r: Option<nat>)
    ensures r.Some? ==> 0 < r.value <= |t|
  {
    if !StartsWithFrom(t) then None
    else
      var j := SkipSpaces(t, 4);
      if j > 4 && j + |m| + 1 < |t| && IsQuote(t[j]) && At(t, j + 1, m) && IsQuote(t[j + 1 + |m|])
      then Some(j + |m| + 2)
      else None
  }

  /**
   * The text of one import that the pattern matches in full: `from`, one or
   * more whitespace characters, a quote, the module name and a quote.
   */
  predicate IsImportOf(u: string, m: string) {
    |u| >= |m| + 7 && u[..4] == "from"
    && (forall k :: 4 <= k < |u| - |m| - 2 ==> IsSpace(u[k]))
    && IsQuote(u[|u| - |m| - 2]) && u[|u| - |m| - 1..|u| - 1] == m && IsQuote(u[|u| - 1])
  }

  /** Whitespace up to a character that is not whitespace is skipped exactly. */
  lemma {:induction false} SkipSpacesTo(t: string, i: nat, j: nat)
    requires i <= j < |t| && !IsSpace(t[j])
    requires forall k :: i <= k < j ==> IsSpace(t[k])
    ensures SkipSpaces(t, i) == j
    decreases j - i
  {
    if i < j {
      SkipSpacesTo(t, i + 1, j);
    }
  }

  /**
   * Every import written `from`, whitespace, a quote of either kind, the
   * module and a quote of either kind is a match, and the match covers it.
   */
  lemma ImportMatchOfParts(sp: string, q: char, q': char, m: string, w: string)
    requires sp != [] && (forall c :: c in sp ==> IsSpace(c))
    requires IsQuote(q) && IsQuote(q')
    ensures ImportMatch("from" + sp + [q] + m + [q'] + w, m) == Some(|sp| + |m| + 6)
  {
    var t := "from" + sp + [q] + m + [q'] + w;
    var j := 4 + |sp|;
    assert t[..4] == "from";
    assert StartsWithFrom(t) by {
      assert t[0] == 'f' && t[1] == 'r' && t[2] == 'o' && t[3] == 'm';
    }
    forall k | 4 <= k < j
      ensures IsSpace(t[k])
    {
      assert t[k] == sp[k - 4];
      assert sp[k - 4] in sp;
    }
    assert t[j] == q;
    SkipSpacesTo(t, 4, j);
    assert t[j + 1..j + 1 + |m|] == m;
    assert t[j + 1 + |m|] == q';
  }

  /** What the pattern matches is an import of `m`. */
  lemma ImportMatchSound(t: string, m: string, n: nat)
    requires ImportMatch(t, m) == Some(n)
    ensures n <= |t| && IsImportOf(t[..n], m)
  {
    var j := SkipSpaces(t, 4);
    assert j == n - |m| - 2;
    var u := t[..n];
    assert u[..4] == t[..4];
    assert u[j] == t[j] && u[n - 1] == t[n - 1];
    assert u[j + 1..n - 1] == t[j + 1..j + 1 + |m|];
    forall k | 4 <= k < j
      ensures IsSpace(u[k])
    {
      assert 4 <= k < SkipSpaces(t, 4);
      assert IsSpace(t[k]);
      assert u[k] == t[k];
    }
  }

  /** The pattern matches a prefix of length `n` exactly when that prefix is an import of `m`. */
  lemma ImportMatchIff(t: string, m: string, n: nat)
    ensures ImportMatch(t, m) == Some(n) <==> n <= |t| && IsImportOf(t[..n], m)
  {
    if ImportMatch(t, m) == Some(n) {
      ImportMatchSound(t, m, n);
    }
    if n <= |t| && IsImportOf(t[..n], m) {
      var u := t[..n];
      var sp := u[4..n - |m| - 2];
      assert t == "from" + sp + [u[n - |m| - 2]] + m + [u[n - 1]] + t[n..];
      forall c | c in sp
        ensures IsSpace(c)
      {
        var k :| 0 <= k < |sp| && sp[k] == c;
        assert c == u[4 + k];
      }
      ImportMatchOfParts(sp, u[n - |m| - 2], u[n - 1], m, t[n..]);
    }
  }

  /**
   * A global `replace`: each match, leftmost first, is replaced and the
   * search resumes after it; elsewhere characters are copied one by one.
   */
  function ReplaceImports(t: string, m: string, rep: string): string
    decreases |t|
  {
    if t == [] then []
    else
      match ImportMatch(t, m)
      case Some(n) => rep + ReplaceImports(t[n..], m, rep)
      case None => [t[0]] + ReplaceImports(t[1..], m, rep)
  }

  /** The two rewrites the fetch script performs. */
  predicate IsFetchRewrite(m: string, rep: string) {
    (m == FramerMotion && rep == MotionImport) || (m == LibUtils && rep == UtilsImport)
  }

  lemma {:induction false} SkipSpacesAgree(t: string, u: string, i: nat, n: nat)
    requires i <= |t| && i <= |u| && n <= |t| && n <= |u|
    requires SkipSpaces(t, i) < n && u[..n] == t[..n]
    ensures SkipSpaces(u, i) == SkipSpaces(t, i)
    decreases |t| - i
  {
    assert u[i] == u[..n][i] == t[..n][i] == t[i];
    if IsSpace(t[i]) {
      SkipSpacesAgree(t, u, i + 1, n);
    }
  }

  /** A match depends only on the characters it spans. */
  lemma MatchDependsOnPrefix(t: string, u: string, m: string, n: nat)
    requires ImportMatch(t, m) == Some(n)
    requires n <= |u| && u[..n] == t[..n]
    ensures ImportMatch(u, m) == Some(n)
  {
    var j := SkipSpaces(t, 4);
    assert forall k :: 0 <= k < n ==> u[k] == t[k] by {
      forall k | 0 <= k < n
        ensures u[k] == t[k]
      {
        assert u[k] == u[..n][k];
      }
    }
    assert SkipSpaces(u, 4) == j by {
      SkipSpacesAgree(t, u, 4, n);
    }
    assert u[j + 1..j + 1 + |m|] == t[j + 1..j + 1 + |m|];
  }

  /** Inside a match, an `f` after the first character can only come from the module name. */
  lemma LetterFInsideMatch(t: string, m: string, n: nat, p: nat)
    requires ImportMatch(t, m) == Some(n) && 1 <= p < n && t[p] == 'f'
    ensures var j := SkipSpaces(t, 4);
      j + 1 <= p < j + 1 + |m| && m[p - j - 1] == 'f' && (p + 2 < j + 1 + |m| ==> t[p + 2] == m[p - j + 1])
  {
    var j := SkipSpaces(t, 4);
    assert t[j + 1..j + 1 + |m|] == m;
  }

  lemma MotionImportLetters()
    ensures |MotionImport| == 19
    ensures MotionImport[0] == 'f' && MotionImport[2] == 'o'
    ensures forall k :: 1 <= k < 19 ==> MotionImport[k] != 'f'
  {
  }

  lemma UtilsImportLetters()
    ensures |UtilsImport| == 18
    ensures UtilsImport[0] == 'f' && 'f' !in LibUtils
  {
  }

  /**
   * A replacement text is never the inside of a longer match: a match that
   * starts before an inserted replacement ends before it.
   */
  lemma MatchStopsBeforeReplacement(x: string, w: string, m: string, rep: string)
    requires IsFetchRewrite(m, rep) && |x| >= 1
    requires ImportMatch(x + rep + w, m).Some?
    ensures ImportMatch(x + rep + w, m).value <= |x|
  {
    var t := x + rep + w;
    var n := ImportMatch(t, m).value;
    if n > |x| {
      var p := |x|;
      assert t[p] == rep[0];
      if m == FramerMotion {
        MotionImportLetters();
        assert t[p + 2] == rep[2];
        LetterFInsideMatch(t, m, n, p);
      } else {
        UtilsImportLetters();
        LetterFInsideMatch(t, m, n, p);
      }
    }
  }

  /** No match starts inside `from "motion/react"`, whatever follows it. */
  lemma NoFramerMatchInMotionImport(w: string, k: nat)
    requires k < |MotionImport|
    ensures ImportMatch(MotionImport[k..] + w, FramerMotion) == None
  {
    var t := MotionImport[k..] + w;
    if k == 0 {
      assert t[4] == ' ' && t[5] == '"' && t[6] == 'm';
      assert SkipSpaces(t, 4) == 5;
      assert t[6] != FramerMotion[0];
    } else {
      MotionImportLetters();
      assert t[0] == MotionImport[k] != 'f';
    }
  }

  /** `from "@/lib/utils"` is itself a whole match of its own pattern. */
  lemma UtilsImportMatchesItself(w: string)
    ensures ImportMatch(UtilsImport + w, LibUtils) == Some(|UtilsImport|)
  {
    var t := UtilsImport + w;
    assert t[0] == 'f' && t[1] == 'r' && t[2] == 'o' && t[3] == 'm' && t[4] == ' ' && t[5] == '"';
    assert SkipSpaces(t, 4) == 5;
    assert t[6..17] == LibUtils;
    assert t[17] == '"';
  }

  /** No match starts at any position of `r` when `w` follows it. */
  predicate NoMatchStarts(r: string, w: string, m: string)
    decreases |r|
  {
    r == [] || (ImportMatch(r + w, m) == None && NoMatchStarts(r[1..], w, m))
  }

  lemma CopyStep(t: string, m: string, rep: string)
    requires t != [] && ImportMatch(t, m) == None
    ensures ReplaceImports(t, m, rep) == [t[0]] + ReplaceImports(t[1..], m, rep)
  {
  }

  /** Text in which no match starts is copied unchanged. */
  lemma {:induction false} CopiedThrough(r: string, w: string, m: string, rep: string)
    requires NoMatchStarts(r, w, m)
    ensures ReplaceImports(r + w, m, rep) == r + ReplaceImports(w, m, rep)
    decreases |r|
  {
    if r == [] {
      assert r + w == w;
    } else {
      var t := r + w;
      var tail := ReplaceImports(w, m, rep);
      assert ReplaceImports(t, m, rep) == [r[0]] + ReplaceImports(r[1..] + w, m, rep) by {
        assert ImportMatch(t, m) == None;
        assert t[0] == r[0] && t[1..] == r[1..] + w;
        CopyStep(t, m, rep);
      }
      assert ReplaceImports(r[1..] + w, m, rep) == r[1..] + tail by {
        CopiedThrough(r[1..], w, m, rep);
      }
      assert [r[0]] + (r[1..] + tail) == r + tail;
    }
  }

  lemma {:induction false} NoFramerMatchFrom(w: string, k: nat)
    requires k <= |MotionImport|
    ensures NoMatchStarts(MotionImport[k..], w, FramerMotion)
    decreases |MotionImport| - k
  {
    if k < |MotionImport| {
      NoFramerMatchInMotionImport(w, k);
      NoFramerMatchFrom(w, k + 1);
      assert MotionImport[k..][1..] == MotionImport[k + 1..];
    }
  }

  /** Rewriting copies a replacement text through unchanged. */
  lemma ReplacementPassesThrough(w: string, m: string, rep: string)
    requires IsFetchRewrite(m, rep)
    ensures ReplaceImports(rep + w, m, rep) == rep + ReplaceImports(w, m, rep)
  {
    if m == LibUtils {
      UtilsImportMatchesItself(w);
      assert (rep + w)[|rep|..] == w;
    } else {
      NoFramerMatchFrom(w, 0);
      assert MotionImport[0..] == MotionImport;
      CopiedThrough(rep, w, m, rep);
    }
  }

  lemma ReplaceStep(t: string, m: string, rep: string, n: nat)
    requires ImportMatch(t, m) == Some(n)
    ensures ReplaceImports(t, m, rep) == rep + ReplaceImports(t[n..], m, rep)
  {
  }

  /** An import of `m` at the front of the text is replaced, and the rest is rewritten on. */
  lemma ImportReplaced(sp: string, q: char, q': char, m: string, rep: string, w: string)
    requires sp != [] && (forall c :: c in sp ==> IsSpace(c))
    requires IsQuote(q) && IsQuote(q')
    ensures ReplaceImports("from" + sp + [q] + m + [q'] + w, m, rep) == rep + ReplaceImports(w, m, rep)
  {
    var t := "from" + sp + [q] + m + [q'] + w;
    ImportMatchOfParts(sp, q, q', m, w);
    ReplaceStep(t, m, rep, |sp| + |m| + 6);
    assert t[|sp| + |m| + 6..] == w;
  }

  /** `from 'framer-motion'` becomes `from "motion/react"`. */
  lemma FramerImportRewritten(w: string)
    ensures ReplaceImports("from 'framer-motion'" + w, FramerMotion, MotionImport)
      == MotionImport + ReplaceImports(w, FramerMotion, MotionImport)
  {
    assert " " + "'" == " '";
    assert "from 'framer-motion'" == "from" + " " + ['\''] + FramerMotion + ['\''];
    ImportReplaced(" ", '\'', '\'', FramerMotion, MotionImport, w);
  }

  /**
   * The utils rewrite only normalises the import: whatever the spacing and
   * quotes, the module stays `@/lib/utils`, now after one space and between
   * double quotes.
   */
  lemma UtilsImportNormalised(sp: string, q: char, q': char, w: string)
    requires sp != [] && (forall c :: c in sp ==> IsSpace(c))
    requires IsQuote(q) && IsQuote(q')
    ensures ReplaceImports("from" + sp + [q] + LibUtils + [q'] + w, LibUtils, UtilsImport)
      == "from" + " " + ['"'] + LibUtils + ['"'] + ReplaceImports(w, LibUtils, UtilsImport)
  {
    ImportReplaced(sp, q, q', LibUtils, UtilsImport, w);
    UtilsImportShape();
  }

  lemma UtilsImportShape()
    ensures UtilsImport == "from" + " " + ['"'] + LibUtils + ['"']
  {
  }

  /** A match that ends inside `x` is unaffected by what follows `x`. */
  lemma MatchInsidePrefix(x: string, v: string, r: string, m: string)
    requires ImportMatch(x + r, m).Some? && ImportMatch(x + r, m).value <= |x|
    ensures ImportMatch(x + v, m) == ImportMatch(x + r, m)
  {
    var n := ImportMatch(x + r, m).value;
    assert (x + v)[..n] == x[..n] == (x + r)[..n];
    MatchDependsOnPrefix(x + r, x + v, m, n);
  }

  /** The case where `v` starts with a match: the new match must end inside `x`. */
  lemma NoNewMatchBeforeReplacement(x: string, v: string, m: string, rep: string, e: nat)
    requires IsFetchRewrite(m, rep) && |x| >= 1
    requires ImportMatch(v, m) == Some(e)
    requires ImportMatch(x + ReplaceImports(v, m, rep), m).Some?
    ensures ImportMatch(x + v, m) == ImportMatch(x + ReplaceImports(v, m, rep), m)
  {
    var r := ReplaceImports(v, m, rep);
    var w := ReplaceImports(v[e..], m, rep);
    ReplaceStep(v, m, rep, e);
    assert x + r == x + rep + w;
    MatchStopsBeforeReplacement(x, w, m, rep);
    MatchInsidePrefix(x, v, r, m);
  }

  /** Rewriting never creates a match at a position it copied. */
  lemma {:induction false} NoNewMatch(x: string, v: string, m: string, rep: string)
    requires IsFetchRewrite(m, rep) && |x| >= 1
    requires ImportMatch(x + ReplaceImports(v, m, rep), m).Some?
    ensures ImportMatch(x + v, m) == ImportMatch(x + ReplaceImports(v, m, rep), m)
    decreases |v|
  {
    if v == [] {
      assert ReplaceImports(v, m, rep) == v;
    } else if ImportMatch(v, m).Some? {
      NoNewMatchBeforeReplacement(x, v, m, rep, ImportMatch(v, m).value);
    } else {
      var x' := x + [v[0]];
      CopyStep(v, m, rep);
      assert x + ReplaceImports(v, m, rep) == x' + ReplaceImports(v[1..], m, rep);
      NoNewMatch(x', v[1..], m, rep);
      assert x' + v[1..] == x + v;
    }
  }

  /** Rewriting a second time changes nothing. */
  lemma {:induction false} ReplaceImportsIdempotent(s: string, m: string, rep: string)
    requires IsFetchRewrite(m, rep)
    ensures ReplaceImports(ReplaceImports(s, m, rep), m, rep) == ReplaceImports(s, m, rep)
    decreases |s|
  {
    if s != [] {
      match ImportMatch(s, m)
      case Some(e) =>
        var w := ReplaceImports(s[e..], m, rep);
        ReplacementPassesThrough(w, m, rep);
        ReplaceImportsIdempotent(s[e..], m, rep);
      case None =>
        var w := ReplaceImports(s[1..], m, rep);
        assert [s[0]] + s[1..] == s;
        if ImportMatch([s[0]] + w, m).Some? {
          NoNewMatch([s[0]], s[1..], m, rep);
        }
        assert ([s[0]] + w)[1..] == w;
        ReplaceImportsIdempotent(s[1..], m, rep);
    }
  }
}
