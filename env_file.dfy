/**
 * The `.env.local` reader shared by the page seeding and page integration
 * scripts: the file is split on newlines and every line that matches the
 * assignment pattern `^([^=:#]+)=["']?([^"'\n]+)["']?$` stores its trimmed
 * value under its trimmed key, later lines overwriting earlier ones.
 */
module EnvFile {
  import opened Wrappers
  import opened Strings

  /** The pieces of a matching line: the two capture groups and the optional quotes around the value. */
  datatype EnvMatch = EnvMatch(rawKey: string, open: string, rawValue: string, close: string)

  /** `["']?` */
  predicate IsOptionalQuote(q: string) { q == [] || (|q| == 1 && IsQuote(q[0])) }

  /** `[^=:#]` */
  predicate IsKeyChar(c: char) { c != '=' && c != ':' && c != '#' }

  /** `[^"'\n]` */
  predicate IsValueChar(c: char) { !IsQuote(c) && c != '\n' }

  /** The pattern's constraints on each piece. */
  predicate WellFormed(m: EnvMatch) {
    && m.rawKey != [] && (forall c :: c in m.rawKey ==> IsKeyChar(c))
    && IsOptionalQuote(m.open) && IsOptionalQuote(m.close)
    && m.rawValue != [] && (forall c :: c in m.rawValue ==> IsValueChar(c))
  }

  /** The line the pieces make up. */
  function LineOf(m: EnvMatch): string {
    m.rawKey + "=" + (m.open + m.rawValue + m.close)
  }

  /** The text before the first `=` and the text after it, when there is one. */
  function SplitAssignment(line: string): (r: Option<(string, string)>)
    ensures r.None? <==> '=' !in line
    ensures r.Some? ==> '=' !in r.value.0 && line == r.value.0 + "=" + r.value.1
  {
    var key := BeforeFirst(line, '=');
    if |key| == |line| then None
    else
      SplitAround(line, |key|);
      Some((key, line[|key| + 1..]))
  }

  /** `["']?` at the start: the first character when it is a quote. */
  function OpenQuote(rest: string): (o: string)
    ensures IsOptionalQuote(o) && |o| <= |rest| && o == rest[..|o|]
    ensures o == [] ==> rest == [] || !IsQuote(rest[0])
  {
    if rest != [] && IsQuote(rest[0]) then rest[..1] else []
  }

  /** `["']?$`: the last character when it is a quote. */
  function CloseQuote(body: string): (c: string)
    ensures IsOptionalQuote(c) && |c| <= |body| && c == body[|body| - |c|..]
    ensures c == [] ==> body == [] || !IsQuote(body[|body| - 1])
  {
    if body != [] && IsQuote(body[|body| - 1]) then body[|body| - 1..] else []
  }

  /** The value with the optional quotes around it taken off. */
  function StripQuotes(rest: string): (r: (string, string, string))
    ensures rest == r.0 + r.1 + r.2
    ensures IsOptionalQuote(r.0) && IsOptionalQuote(r.2)
  {
    var open := OpenQuote(rest);
    var body := rest[|open|..];
    var close := CloseQuote(body);
    SplitAt(rest, |open|);
    SplitAt(body, |body| - |close|);
    (open, body[..|body| - |close|], close)
  }

  /**
   * Matching one line. The key runs up to the first `=`; an opening quote
   * is taken when present; a closing quote is taken when the line ends in
   * one; what lies between must be a non-empty run of value characters.
   */
  function MatchEnvLine(line: string): (r: Option<EnvMatch>)
    ensures r.Some? ==> WellFormed(r.value) && LineOf(r.value) == line
  {
    match SplitAssignment(line)
    case None => None
    case Some(assignment) =>
      var key := assignment.0;
      var pieces := StripQuotes(assignment.1);
      if key != [] && ':' !in key && '#' !in key && pieces.1 != [] && forall c :: c in pieces.1 ==> IsValueChar(c) then
        assert forall c :: c in key ==> IsKeyChar(c);
        Some(EnvMatch(key, pieces.0, pieces.1, pieces.2))
      else None
  }

  lemma StripQuotesUnique(o: string, v: string, c: string)
    requires IsOptionalQuote(o) && IsOptionalQuote(c)
    requires v != [] && !IsQuote(v[0]) && !IsQuote(v[|v| - 1])
    ensures StripQuotes(o + v + c) == (o, v, c)
  {
    var rest := o + v + c;
    assert OpenQuote(rest) == o by {
      if o == [] {
        assert rest[0] == v[0];
      } else {
        assert rest[0] == o[0] && rest[..1] == o;
      }
    }
    var body := rest[|o|..];
    assert body == v + c;
    assert CloseQuote(body) == c by {
      if c == [] {
        assert body[|body| - 1] == v[|v| - 1];
      } else {
        assert body[|body| - 1] == c[0] && body[|body| - 1..] == c;
      }
    }
    assert body[..|body| - |c|] == v;
  }

  lemma {:induction false} BeforeFirstOfPrefix(a: string, d: char, b: string)
    requires d !in a
    ensures BeforeFirst(a + [d] + b, d) == a
  {
    if a != [] {
      assert (a + [d] + b)[1..] == a[1..] + [d] + b;
      BeforeFirstOfPrefix(a[1..], d, b);
    }
  }

  /** Every well-formed line matches, and yields exactly its own pieces. */
  lemma MatchComplete(m: EnvMatch)
    requires WellFormed(m)
    ensures MatchEnvLine(LineOf(m)) == Some(m)
  {
    var line := LineOf(m);
    assert line == m.rawKey + ['='] + (m.open + m.rawValue + m.close);
    BeforeFirstOfPrefix(m.rawKey, '=', m.open + m.rawValue + m.close);
    assert SplitAssignment(line) == Some((m.rawKey, m.open + m.rawValue + m.close));
    assert m.rawValue[0] in m.rawValue;
    assert m.rawValue[|m.rawValue| - 1] in m.rawValue;
    StripQuotesUnique(m.open, m.rawValue, m.close);
  }

  /** A line matches exactly when it is made of well-formed pieces. */
  lemma MatchIff(line: string)
    ensures MatchEnvLine(line).Some? <==> exists m :: WellFormed(m) && LineOf(m) == line
  {
    if exists m :: WellFormed(m) && LineOf(m) == line {
      var m :| WellFormed(m) && LineOf(m) == line;
      MatchComplete(m);
    }
  }

  /** Comment lines are skipped. */
  lemma CommentLineIgnored(line: string)
    requires line != [] && line[0] == '#'
    ensures MatchEnvLine(line) == None
  {
    var key := BeforeFirst(line, '=');
    if key != [] {
      assert key[0] == '#';
    }
  }

  /** A line with no `=` is skipped. */
  lemma NoAssignmentIgnored(line: string)
    requires '=' !in line
    ensures MatchEnvLine(line) == None
  {
  }

  lemma SplitAssignmentOf(key: string, rest: string)
    requires '=' !in key
    ensures SplitAssignment(key + "=" + rest) == Some((key, rest))
  {
    var line := key + "=" + rest;
    assert line == key + ['='] + rest;
    BeforeFirstOfPrefix(key, '=', rest);
    assert line[|key| + 1..] == rest;
  }

  /**
   * A value made of quotes only is skipped: `KEY=`, `KEY=""` and `KEY=''`
   * assign nothing, since the value must hold at least one character.
   */
  lemma QuotesOnlyValueIgnored(key: string, rest: string)
    requires '=' !in key && forall c :: c in rest ==> IsQuote(c)
    ensures MatchEnvLine(key + "=" + rest) == None
  {
    SplitAssignmentOf(key, rest);
    var pieces := StripQuotes(rest);
    if pieces.1 != [] {
      assert pieces.1[0] in rest;
    }
  }

  /**
   * A quote inside the value makes the whole line skipped, whether or not
   * the value is also wrapped in quotes (`KEY="it's"`): only the first and
   * the last character can be taken as the optional quotes.
   */
  lemma EmbeddedQuoteIgnored(key: string, a: string, q: char, b: string)
    requires '=' !in key && IsQuote(q)
    requires a != [] && b != []
    ensures MatchEnvLine(key + "=" + (a + [q] + b)) == None
  {
    var rest := a + [q] + b;
    SplitAssignmentOf(key, rest);
    var pieces := StripQuotes(rest);
    var i := |a| - |pieces.0|;
    assert 0 <= i < |pieces.1|;
    assert pieces.1[i] == rest[|a|] == q;
    assert q in pieces.1;
  }

  /** What a line contributes: its trimmed key and trimmed value, when it matches. */
  function LineAssignment(line: string): Option<(string, string)> {
    match MatchEnvLine(line)
    case Some(m) => Some((Trim(m.rawKey), Trim(m.rawValue)))
    case None => None
  }

  /** The contribution of every line, in order. */
  function Assignments(lines: seq<string>): (r: seq<Option<(string, string)>>)
    ensures |r| == |lines|
    decreases |lines|
  {
    if lines == [] then [] else Assignments(lines[..|lines| - 1]) + [LineAssignment(lines[|lines| - 1])]
  }

  lemma {:induction false} AssignmentsAt(lines: seq<string>, i: nat)
    requires i < |lines|
    ensures Assignments(lines)[i] == LineAssignment(lines[i])
    decreases |lines|
  {
    if i < |lines| - 1 {
      AssignmentsAt(lines[..|lines| - 1], i);
    }
  }

  /** Storing one contribution. */
  function Assign(vars: map<string, string>, a: Option<(string, string)>): map<string, string> {
    if a.Some? then vars[a.value.0 := a.value.1] else vars
  }

  /** Storing contributions in order. */
  function Fold(assignments: seq<Option<(string, string)>>): map<string, string>
    decreases |assignments|
  {
    if assignments == [] then map[]
    else Assign(Fold(assignments[..|assignments| - 1]), assignments[|assignments| - 1])
  }

  /** The dictionary after processing `lines` in order. */
  function EnvVars(lines: seq<string>): map<string, string> {
    Fold(Assignments(lines))
  }

  lemma EnvVarsStep(lines: seq<string>, i: nat)
    requires i < |lines|
    ensures EnvVars(lines[..i + 1]) == Assign(EnvVars(lines[..i]), LineAssignment(lines[i]))
  {
    assert lines[..i + 1][..i] == lines[..i];
    var a := Assignments(lines[..i + 1]);
    assert a[..|a| - 1] == Assignments(lines[..i]);
  }

  /**
   * Reading the env file: every line is tried in turn, and a match stores
   * its trimmed value under its trimmed key.
   */
  method ParseEnvFile(text: string) returns (vars: map<string, string>)
    ensures vars == EnvVars(Split(text, '\n'))
  {
    var lines := Split(text, '\n');
    vars := map[];
    var i := 0;
    while i < |lines|
      invariant 0 <= i <= |lines|
      invariant vars == EnvVars(lines[..i])
    {
      EnvVarsStep(lines, i);
      var m := MatchEnvLine(lines[i]);
      if m.Some? {
        vars := vars[Trim(m.value.rawKey) := Trim(m.value.rawValue)];
      }
      i := i + 1;
    }
    assert lines[..|lines|] == lines;
  }

  /** A key is stored exactly when some contribution names it. */
  lemma {:induction false} FoldKeys(assignments: seq<Option<(string, string)>>, k: string)
    ensures k in Fold(assignments) <==>
      exists i :: 0 <= i < |assignments| && assignments[i].Some? && assignments[i].value.0 == k
    decreases |assignments|
  {
    if assignments != [] {
      var init := assignments[..|assignments| - 1];
      FoldKeys(init, k);
      if exists i :: 0 <= i < |init| && init[i].Some? && init[i].value.0 == k {
        var i :| 0 <= i < |init| && init[i].Some? && init[i].value.0 == k;
        assert assignments[i] == init[i];
      }
    }
  }

  /** The stored value is the one from the last contribution naming the key. */
  lemma {:induction false} FoldLastWins(assignments: seq<Option<(string, string)>>, i: nat)
    requires i < |assignments| && assignments[i].Some?
    requires forall j :: i < j < |assignments| && assignments[j].Some? ==> assignments[j].value.0 != assignments[i].value.0
    ensures assignments[i].value.0 in Fold(assignments)
    ensures Fold(assignments)[assignments[i].value.0] == assignments[i].value.1
    decreases |assignments|
  {
    var init := assignments[..|assignments| - 1];
    if i < |assignments| - 1 {
      assert init[i] == assignments[i];
      forall j | i < j < |init| && init[j].Some?
        ensures init[j].value.0 != init[i].value.0
      {
        assert init[j] == assignments[j];
      }
      FoldLastWins(init, i);
    }
  }

  /** A key is defined exactly when some line assigns it. */
  lemma EnvKeys(lines: seq<string>, k: string)
    ensures k in EnvVars(lines) <==>
      exists i :: 0 <= i < |lines| && LineAssignment(lines[i]).Some? && LineAssignment(lines[i]).value.0 == k
  {
    FoldKeys(Assignments(lines), k);
    forall i | 0 <= i < |lines|
      ensures Assignments(lines)[i] == LineAssignment(lines[i])
    {
      AssignmentsAt(lines, i);
    }
  }

  /** The value a key ends up with is the one from the last line that assigns it. */
  lemma LastMatchWins(lines: seq<string>, i: nat)
    requires i < |lines| && LineAssignment(lines[i]).Some?
    requires forall j :: i < j < |lines| && LineAssignment(lines[j]).Some? ==>
      LineAssignment(lines[j]).value.0 != LineAssignment(lines[i]).value.0
    ensures LineAssignment(lines[i]).value.0 in EnvVars(lines)
    ensures EnvVars(lines)[LineAssignment(lines[i]).value.0] == LineAssignment(lines[i]).value.1
  {
    forall j | 0 <= j < |lines|
      ensures Assignments(lines)[j] == LineAssignment(lines[j])
    {
      AssignmentsAt(lines, j);
    }
    FoldLastWins(Assignments(lines), i);
  }
}
