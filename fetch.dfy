/**
 * The component fetcher: resolves the API key, parses its arguments,
 * refuses to overwrite an existing component unless forced, requests the
 * component, dispatches on the response status, rewrites the imports of
 * the fetched code and saves it.
 */
module AceternityFetch {
  import opened Wrappers
  import opened Strings
  import opened Artifacts
  import opened ImportRewrite

  const EnvPath := ".env.local"
  const KeyAssignment := "ACETERNITY_API_KEY="

  /** A character `.` does not match: JavaScript's line terminators. */
  predicate IsLineTerminator(c: char) {
    c == '\n' || c == '\r' || c == '\U{2028}' || c == '\U{2029}'
  }

  /** The end of the line that contains position `i`. */
  function LineEnd(s: string, i: nat): (e: nat)
    requires i <= |s|
    ensures i <= e <= |s|
    ensures forall k :: i <= k < e ==> !IsLineTerminator(s[k])
    ensures e == |s| || IsLineTerminator(s[e])
    decreases |s| - i
  {
    if i < |s| && !IsLineTerminator(s[i]) then LineEnd(s, i + 1) else i
  }

  /** Does `/ACETERNITY_API_KEY=(.+)/` match at position `i`? */
  predicate KeyMatchesAt(s: string, i: nat) {
    At(s, i, KeyAssignment) && i + |KeyAssignment| < |s| && !IsLineTerminator(s[i + |KeyAssignment|])
  }

  /**
   * The capture group of the leftmost match at or after `i`: the rest of
   * the line after the assignment, which is never empty.
   */
  function KeyCaptureFrom(s: string, i: nat): (r: Option<string>)
    requires i <= |s|
    ensures r.None? <==> forall k :: i <= k <= |s| ==> !KeyMatchesAt(s, k)
    ensures r.Some? ==> r.value != [] && forall c :: c in r.value ==> !IsLineTerminator(c)
    decreases |s| - i
  {
    if KeyMatchesAt(s, i) then
      var start := i + |KeyAssignment|;
      Some(s[start..LineEnd(s, start)])
    else if i == |s| then None
    else KeyCaptureFrom(s, i + 1)
  }

  /** `s.replace(/["']/g, "")`. */
  function RemoveQuotes(s: string): (r: string)
    ensures forall c :: c in r ==> c in s && !IsQuote(c)
    ensures (forall c :: c in s ==> !IsQuote(c)) ==> r == s
  {
    if s == [] then []
    else
      assert forall c :: c in s[1..] ==> c in s;
      (if IsQuote(s[0]) then [] else [s[0]]) + RemoveQuotes(s[1..])
  }

  /** Quotes are removed piece by piece: the other characters keep their order. */
  lemma {:induction false} RemoveQuotesAppend(a: string, b: string)
    ensures RemoveQuotes(a + b) == RemoveQuotes(a) + RemoveQuotes(b)
  {
    if a == [] {
      assert a + b == b;
    } else {
      assert (a + b)[0] == a[0] && (a + b)[1..] == a[1..] + b;
      RemoveQuotesAppend(a[1..], b);
    }
  }

  /** A key written between quotes is read without them. */
  lemma RemoveSurroundingQuotes(q: char, v: string, q': char)
    requires IsQuote(q) && IsQuote(q') && forall c :: c in v ==> !IsQuote(c)
    ensures RemoveQuotes([q] + v + [q']) == v
  {
    RemoveQuotesAppend([q] + v, [q']);
    RemoveQuotesAppend([q], v);
  }

  /** The key read from the env file, if its text matches. */
  function FileKey(envText: string): Option<string> {
    match KeyCaptureFrom(envText, 0)
    case Some(raw) => Some(RemoveQuotes(Trim(raw)))
    case None => None
  }

  /**
   * The API key in effect: an environment value wins when it is truthy;
   * otherwise the env file, when present and matching, supplies it.
   */
  function ApiKey(env: Option<string>, files: FileSystem): (key: Option<string>)
    ensures Truthy(env) ==> key == env
    ensures !Truthy(env) && EnvPath !in files ==> key == env
    ensures !Truthy(env) && EnvPath in files ==>
      key == (if FileKey(Contents(files[EnvPath])).Some? then FileKey(Contents(files[EnvPath])) else env)
  {
    if Truthy(env) || EnvPath !in files then env
    else match FileKey(Contents(files[EnvPath]))
      case Some(k) => Some(k)
      case None => env
  }

  /** Resolving the API key, as the fetcher does it step by step. */
  method ResolveApiKey(env: Option<string>, files: FileSystem) returns (key: Option<string>)
    ensures key == ApiKey(env, files)
  {
    key := env;
    if !Truthy(key) && EnvPath in files {
      var envText := Contents(files[EnvPath]);
      var found := KeyCaptureFrom(envText, 0);
      if found.Some? {
        key := Some(RemoveQuotes(Trim(found.value)));
      }
    }
  }

  /**
   * A key that is only a pair of quotes is read as the empty key, which
   * counts as missing.
   */
  lemma QuotedEmptyKeyIsMissing(env: Option<string>, files: FileSystem)
    requires !Truthy(env)
    requires EnvPath in files && Contents(files[EnvPath]) == KeyAssignment + QuotePair
    ensures FileKey(Contents(files[EnvPath])) == Some("")
    ensures !Truthy(ApiKey(env, files))
  {
    QuotePairCaptured();
    QuotePairRemoved();
  }

  /** The value `""` as it stands in the env file. */
  const QuotePair := "\"\""

  lemma QuotePairCaptured()
    ensures KeyCaptureFrom(KeyAssignment + QuotePair, 0) == Some(QuotePair)
  {
    assert KeyAssignment + QuotePair == [] + KeyAssignment + QuotePair + [];
    assert QuotePair[0] in QuotePair;
    KeyFoundAfterPrefix([], QuotePair, []);
  }

  lemma QuotePairRemoved()
    ensures RemoveQuotes(Trim(QuotePair)) == ""
  {
    assert TrimStart(QuotePair) == QuotePair;
    assert TrimEnd(QuotePair) == QuotePair;
  }

  /** A key read from the file never holds a quote character. */
  lemma FileKeyHasNoQuotes(envText: string)
    ensures FileKey(envText).Some? ==> forall c :: c in FileKey(envText).value ==> !IsQuote(c)
  {
  }

  /**
   * A plain key on the first line is read as written:
   * `ACETERNITY_API_KEY=sk-123` gives `sk-123`.
   */
  lemma PlainKeyRead(value: string, rest: string)
    requires value != [] && !IsSpace(value[0]) && !IsSpace(value[|value| - 1])
    requires forall c :: c in value ==> !IsLineTerminator(c) && !IsQuote(c)
    requires rest == [] || IsLineTerminator(rest[0])
    ensures FileKey(KeyAssignment + value + rest) == Some(value)
  {
    assert KeyAssignment + value + rest == [] + KeyAssignment + value + rest;
    KeyFoundAfterPrefix([], value, rest);
    TrimFixed(value);
  }

  /**
   * The match is unanchored: an assignment behind a comment marker, or in
   * the middle of a line, is found all the same.
   */
  lemma {:induction false} KeyFoundAfterPrefix(prefix: string, value: string, rest: string)
    requires forall k :: 0 <= k < |prefix| ==> !KeyMatchesAt(prefix + KeyAssignment + value + rest, k)
    requires value != [] && (forall c :: c in value ==> !IsLineTerminator(c))
    requires rest == [] || IsLineTerminator(rest[0])
    ensures KeyCaptureFrom(prefix + KeyAssignment + value + rest, 0) == Some(value)
  {
    var s := prefix + KeyAssignment + value + rest;
    var start := |prefix| + |KeyAssignment|;
    assert s[|prefix|..start] == KeyAssignment;
    assert s[start] == value[0];
    assert value[0] in value;
    assert KeyMatchesAt(s, |prefix|);
    KeyCaptureAdvance(s, 0, |prefix|);
    forall k | start <= k < start + |value|
      ensures !IsLineTerminator(s[k])
    {
      assert s[k] == value[k - start];
      assert value[k - start] in value;
    }
    LineEndAt(s, start, start + |value|);
    assert s[start..start + |value|] == value;
  }

  /** Positions without a match are skipped. */
  lemma {:induction false} KeyCaptureAdvance(s: string, i: nat, j: nat)
    requires i <= j <= |s|
    requires forall k :: i <= k < j ==> !KeyMatchesAt(s, k)
    ensures KeyCaptureFrom(s, i) == KeyCaptureFrom(s, j)
    decreases j - i
  {
    if i < j {
      KeyCaptureAdvance(s, i + 1, j);
      KeyCaptureSkip(s, i);
    }
  }

  /** One position without a match is skipped. */
  lemma KeyCaptureSkip(s: string, i: nat)
    requires i < |s| && !KeyMatchesAt(s, i)
    ensures KeyCaptureFrom(s, i) == KeyCaptureFrom(s, i + 1)
  {
  }

  lemma {:induction false} LineEndAt(s: string, i: nat, e: nat)
    requires i <= e <= |s|
    requires forall k :: i <= k < e ==> !IsLineTerminator(s[k])
    requires e == |s| || IsLineTerminator(s[e])
    ensures LineEnd(s, i) == e
    decreases e - i
  {
    if i < e {
      LineEndAt(s, i + 1, e);
    }
  }

  /** `{ component, category, force }` as the command line gives them. */
  datatype FetchOptions = FetchOptions(component: string, category: Option<string>, force: bool)

  /** `args.indexOf(x)`, or `|args|` when absent. */
  function IndexOf(args: seq<string>, x: string): (i: nat)
    ensures i <= |args|
    ensures i < |args| ==> args[i] == x
    ensures forall k :: 0 <= k < i ==> args[k] != x
  {
    if args == [] then 0 else if args[0] == x then 0 else 1 + IndexOf(args[1..], x)
  }

  /**
   * Argument parsing: the component is the first argument; the category is
   * the argument after the first `--category` (undefined when that is the
   * last argument), `animations` when there is no `--category`; `force` is
   * set by `--force` anywhere.
   */
  function ParseFetchArgs(args: seq<string>): (opts: Option<FetchOptions>)
    ensures opts.None? <==> args == []
    ensures opts.Some? ==> opts.value.component == args[0]
    ensures opts.Some? ==> (opts.value.force <==> "--force" in args)
    ensures opts.Some? && "--category" !in args ==> opts.value.category == Some("animations")
    ensures opts.Some? && "--category" in args ==>
      var i := IndexOf(args, "--category");
      opts.value.category == (if i + 1 < |args| then Some(args[i + 1]) else None)
  {
    if args == [] then None
    else
      var category :=
        if "--category" in args then
          var i := IndexOf(args, "--category");
          if i + 1 < |args| then Some(args[i + 1]) else None
        else Some("animations");
      Some(FetchOptions(args[0], category, "--force" in args))
  }

  /** `category = "animations"`: the default parameter replaces an undefined category. */
  function EffectiveCategory(opts: FetchOptions): string {
    opts.category.GetOr("animations")
  }

  /** A trailing `--category` ends up as the default folder. */
  lemma TrailingCategoryDefaults(args: seq<string>)
    requires |args| >= 2 && args[|args| - 1] == "--category"
    requires "--category" !in args[..|args| - 1]
    ensures EffectiveCategory(ParseFetchArgs(args).value) == "animations"
  {
    assert args[|args| - 1] in args;
  }

  /** Where the fetched component is saved; the name is used as given. */
  function OutputPath(opts: FetchOptions): string {
    CoreFilePath(EffectiveCategory(opts), opts.component)
  }

  /** The parsed JSON body: `code`, `source` and `dependencies`, the last taken to be an array of strings
      (a non-array value would make the script fail after saving the file, which is not modelled). */
  datatype FetchedData = FetchedData(code: Option<string>, source: Option<string>, dependencies: seq<string>)

  /** The server's reply; a body of `None` is one that is not valid JSON. */
  datatype HttpResponse = HttpResponse(status: int, body: Option<FetchedData>)

  /** `response.ok`. */
  predicate IsOk(status: int) { 200 <= status <= 299 }

  /** `data.code || data.source || ""`. */
  function SelectCode(d: FetchedData): (code: string)
    ensures Truthy(d.code) ==> code == d.code.value
    ensures !Truthy(d.code) && Truthy(d.source) ==> code == d.source.value
    ensures !Truthy(d.code) && !Truthy(d.source) ==> code == ""
  {
    if Truthy(d.code) then d.code.value else if Truthy(d.source) then d.source.value else ""
  }

  /** The saved text: the framer-motion rewrite, then the utils rewrite. */
  function FixImports(code: string): string {
    ReplaceImports(ReplaceImports(code, FramerMotion, MotionImport), LibUtils, UtilsImport)
  }

  /** Rewriting framer-motion imports a second time changes nothing. */
  lemma FramerRewriteIdempotent(code: string)
    ensures var once := ReplaceImports(code, FramerMotion, MotionImport);
      ReplaceImports(once, FramerMotion, MotionImport) == once
  {
    ReplaceImportsIdempotent(code, FramerMotion, MotionImport);
  }

  /** Rewriting utils imports a second time changes nothing. */
  lemma UtilsRewriteIdempotent(code: string)
    ensures var once := ReplaceImports(code, LibUtils, UtilsImport);
      ReplaceImports(once, LibUtils, UtilsImport) == once
  {
    ReplaceImportsIdempotent(code, LibUtils, UtilsImport);
  }

  /** How a fetch run ends. */
  datatype FetchOutcome =
    | MissingApiKey
    | AlreadyExists(path: string)
    | InvalidApiKey
    | ComponentNotFound
    | RequestFailed(status: Option<int>)   // network error, other non-OK status, or a body that is not JSON
    | Saved(path: string, dependencies: seq<string>)

  function ExitCode(o: FetchOutcome): nat {
    match o
    case AlreadyExists(_) => 0
    case Saved(_, _) => 0
    case _ => 1
  }

  /**
   * `fetchComponent`. The reply to the request is an input: `None` stands
   * for a request that fails before any status arrives. It is only
   * consulted once the key and existence checks have passed.
   */
  method FetchComponent(apiKey: Option<string>, opts: FetchOptions, files: FileSystem, response: Option<HttpResponse>)
    returns (outcome: FetchOutcome, files': FileSystem)
    ensures !Truthy(apiKey) ==> outcome == MissingApiKey
    ensures Truthy(apiKey) && OutputPath(opts) in files && !opts.force ==> outcome == AlreadyExists(OutputPath(opts))
    ensures Truthy(apiKey) && (OutputPath(opts) !in files || opts.force) ==>
      match response
      case None => outcome == RequestFailed(None)
      case Some(r) =>
        if r.status == 401 then outcome == InvalidApiKey
        else if r.status == 404 then outcome == ComponentNotFound
        else if !IsOk(r.status) || r.body.None? then outcome == RequestFailed(Some(r.status))
        else outcome == Saved(OutputPath(opts), r.body.value.dependencies)
    ensures outcome.Saved? ==>
      files' == files[OutputPath(opts) := Source(FixImports(SelectCode(response.value.body.value)))]
    ensures !outcome.Saved? ==> files' == files
  {
    files' := files;
    if !Truthy(apiKey) {
      return MissingApiKey, files';
    }
    var outputPath := OutputPath(opts);
    if outputPath in files && !opts.force {
      return AlreadyExists(outputPath), files';
    }
    if response.None? {
      return RequestFailed(None), files';
    }
    var r := response.value;
    if !IsOk(r.status) {
      if r.status == 401 {
        return InvalidApiKey, files';
      }
      if r.status == 404 {
        return ComponentNotFound, files';
      }
      return RequestFailed(Some(r.status)), files';
    }
    if r.body.None? {
      return RequestFailed(Some(r.status)), files';
    }
    var data := r.body.value;
    var code := SelectCode(data);
    code := ReplaceImports(code, FramerMotion, MotionImport);
    code := ReplaceImports(code, LibUtils, UtilsImport);
    files' := files'[outputPath := Source(code)];
    outcome := Saved(outputPath, data.dependencies);
  }

  /**
   * The command-line entry with the key already resolved: no arguments is a
   * usage error; otherwise the component is fetched. Every failure leaves
   * the files as they were.
   */
  method FetchMain(args: seq<string>, apiKey: Option<string>, files: FileSystem, response: Option<HttpResponse>)
    returns (exitCode: nat, files': FileSystem)
    ensures args == [] ==> exitCode == 1 && files' == files
    ensures exitCode == 1 ==> files' == files
    ensures args != [] && !Truthy(apiKey) ==> exitCode == 1
    ensures args != [] && Truthy(apiKey) ==>
      var opts := ParseFetchArgs(args).value;
      if OutputPath(opts) in files && !opts.force then exitCode == 0 && files' == files
      else if response.Some? && IsOk(response.value.status) && response.value.body.Some? then
        && exitCode == 0
        && files' == files[OutputPath(opts) := Source(FixImports(SelectCode(response.value.body.value)))]
      else exitCode == 1
  {
    var opts := ParseFetchArgs(args);
    if opts.None? {
      return 1, files;
    }
    var outcome;
    outcome, files' := FetchComponent(apiKey, opts.value, files, response);
    exitCode := ExitCode(outcome);
  }

  /**
   * The whole command: the key is resolved from the environment and the
   * env file, then the entry runs with it.
   */
  method FetchCommand(args: seq<string>, env: Option<string>, files: FileSystem, response: Option<HttpResponse>)
    returns (exitCode: nat, files': FileSystem)
    ensures args == [] ==> exitCode == 1 && files' == files
    ensures exitCode == 1 ==> files' == files
    ensures args != [] && !Truthy(ApiKey(env, files)) ==> exitCode == 1
    ensures args != [] && Truthy(ApiKey(env, files)) ==>
      var opts := ParseFetchArgs(args).value;
      if OutputPath(opts) in files && !opts.force then exitCode == 0 && files' == files
      else if response.Some? && IsOk(response.value.status) && response.value.body.Some? then
        && exitCode == 0
        && files' == files[OutputPath(opts) := Source(FixImports(SelectCode(response.value.body.value)))]
      else exitCode == 1
  {
    var key := ResolveApiKey(env, files);
    exitCode, files' := FetchMain(args, key, files, response);
  }
}
