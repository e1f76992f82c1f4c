/**
 * EnvironmentConfig: the build tier, the `KEY=VALUE` env-file parser, the
 * choice of ONE whole configuration map (the first readable env file, else
 * Config.plist, else the tier's built-in defaults), and the per-key lookup in
 * which a non-empty process-environment variable overrides that map, with the
 * typed readers and accessors built on it.
 *
 * What the Swift code reads from the system is a parameter here: the bundle's
 * resource path, the current directory, the readable files (path to contents),
 * the already stringified Config.plist dictionary, and the process environment.
 */
module Config {
  import opened Wrappers
  import opened Text
  import opened Numerals

  /** `AppEnvironment`: the tier chosen at build time by the DEBUG and STAGING flags. */
  datatype Tier = Development | Staging | Production

  /** The tier's raw value. */
  function TierName(t: Tier): string {
    match t
    case Development => "development"
    case Staging => "staging"
    case Production => "production"
  }

  /** The env file of a tier, `env.<tier>`. */
  function EnvFileName(t: Tier): string {
    "env." + TierName(t)
  }

  // ---------------------------------------------------------------------------
  // Parsing an env file
  // ---------------------------------------------------------------------------

  datatype Entry = Entry(key: string, value: string)

  /**
   * What one line contributes: nothing for a blank line, a `#` comment or a
   * line without `=`; otherwise the trimmed text before the first `=` as the
   * key and the text after it, trimmed of whitespace and then of quotes, as
   * the value.
   */
  function ParseLine(line: string): Option<Entry> {
    var trimmed := Trim(line, Whitespaces);
    if trimmed == [] || trimmed[0] == '#' then None
    else
      match FirstIndex(trimmed, '=')
      case None => None
      case Some(i) =>
        Some(Entry(Trim(trimmed[..i], Whitespaces), Trim(Trim(trimmed[i + 1..], Whitespaces), Quotes)))
  }

  /** The line sets `key`. */
  predicate Defines(line: string, key: string) {
    ParseLine(line).Some? && ParseLine(line).value.key == key
  }

  /** The map that the lines build when each line's entry overwrites the earlier ones. */
  function Parsed(lines: seq<string>): map<string, string> {
    if lines == [] then map[]
    else Apply(Parsed(lines[..|lines| - 1]), ParseLine(lines[|lines| - 1]))
  }

  /** Records one line's entry, if it has one. */
  function Apply(config: map<string, string>, e: Option<Entry>): map<string, string> {
    match e
    case None => config
    case Some(e) => config[e.key := e.value]
  }

  /** Blank lines, comments and lines without `=` add no entry. */
  lemma SkippedLines(line: string)
    ensures Trim(line, Whitespaces) == [] ==> ParseLine(line).None?
    ensures Trim(line, Whitespaces) != [] && Trim(line, Whitespaces)[0] == '#' ==> ParseLine(line).None?
    ensures '=' !in line ==> ParseLine(line).None?
  {
    TrimKeeps(line, Whitespaces, '=');
  }

  /**
   * A line `k=v` whose key part is no comment has the trimmed `k` as key and
   * `v`, trimmed of whitespace and then of quotes, as value; `v` may itself
   * hold `=`, since only the first `=` splits.
   */
  lemma SplitsAtFirstEquals(k: string, v: string)
    requires '=' !in k
    requires Trim(k, Whitespaces) == [] || Trim(k, Whitespaces)[0] != '#'
    ensures ParseLine(k + "=" + v) == Some(Entry(Trim(k, Whitespaces), Trim(Trim(v, Whitespaces), Quotes)))
  {
    var ks := TrimStart(k, Whitespaces);
    var ve := TrimEnd(v, Whitespaces);
    TrimAround(k, '=', v, Whitespaces);
    var trimmed := ks + ['='] + ve;
    assert k + "=" + v == k + ['='] + v;
    TrimStartFacts(k, Whitespaces);
    SuffixAvoids(k, |k| - |ks|, '=');
    FirstIndexAfter(ks, '=', ve);
    assert trimmed[0] != '#' by {
      if ks != [] {
        TrimEnds(ks, Whitespaces);
        TrimEndKeepsHead(ks, Whitespaces);
      }
    }
    assert trimmed[..|ks|] == ks;
    assert trimmed[|ks| + 1..] == ve;
    TrimAfterTrimStart(k, Whitespaces);
    TrimAfterTrimEnd(v, Whitespaces);
  }

  /**
   * Quotes around a value are removed, as in `API_KEY="abc123"`, which sets
   * `API_KEY` to `abc123`.
   */
  lemma QuotedValue(k: string, q: char, v: string)
    requires '=' !in k && k != [] && k[0] != '#'
    requires k[0] !in Whitespaces && k[|k| - 1] !in Whitespaces
    requires q in Quotes
    requires v == [] || (v[0] !in Whitespaces + Quotes && v[|v| - 1] !in Whitespaces + Quotes)
    ensures ParseLine(k + "=" + ([q] + v + [q])) == Some(Entry(k, v))
  {
    var quoted := [q] + v + [q];
    TrimUntouched(k, Whitespaces);
    TrimUntouched(quoted, Whitespaces);
    TrimEnclosed(q, v, Quotes);
    SplitsAtFirstEquals(k, quoted);
  }

  /** A key takes the value of the last line that sets it. */
  lemma {:induction false} ParsedLastOccurrenceWins(lines: seq<string>, i: nat, e: Entry)
    requires i < |lines| && ParseLine(lines[i]) == Some(e)
    requires forall j :: i < j < |lines| ==> !Defines(lines[j], e.key)
    ensures e.key in Parsed(lines) && Parsed(lines)[e.key] == e.value
    decreases |lines|
  {
    if i < |lines| - 1 {
      var earlier := lines[..|lines| - 1];
      assert !Defines(lines[|lines| - 1], e.key);
      forall j | i < j < |earlier|
        ensures !Defines(earlier[j], e.key)
      {
        assert earlier[j] == lines[j];
      }
      ParsedLastOccurrenceWins(earlier, i, e);
    }
  }

  /** A key that no line sets has no entry. */
  lemma {:induction false} ParsedUndefinedKeyAbsent(lines: seq<string>, key: string)
    requires forall j :: 0 <= j < |lines| ==> !Defines(lines[j], key)
    ensures key !in Parsed(lines)
    decreases |lines|
  {
    if lines != [] {
      var earlier := lines[..|lines| - 1];
      assert !Defines(lines[|lines| - 1], key);
      forall j | 0 <= j < |earlier|
        ensures !Defines(earlier[j], key)
      {
        assert earlier[j] == lines[j];
      }
      ParsedUndefinedKeyAbsent(earlier, key);
    }
  }

  /** Removing a line that adds no entry, anywhere in the file, changes nothing. */
  lemma {:induction false} ParsedIgnoresSkippedLine(a: seq<string>, line: string, b: seq<string>)
    requires ParseLine(line).None?
    ensures Parsed(a + [line] + b) == Parsed(a + b)
    decreases |b|
  {
    if b == [] {
      assert a + [line] + b == a + [line];
      assert (a + [line])[..|a|] == a;
      assert a + b == a;
    } else {
      var b' := b[..|b| - 1];
      assert (a + [line] + b)[..|a + [line] + b| - 1] == a + [line] + b';
      assert (a + b)[..|a + b| - 1] == a + b';
      ParsedIgnoresSkippedLine(a, line, b');
    }
  }

  /** A file of one line without a line break sets what that line sets, and nothing else. */
  lemma ParsedSingleLine(line: string)
    requires Avoids(line, Newlines)
    ensures Parsed(Split(line, Newlines)) == Apply(map[], ParseLine(line))
  {
    SplitWithoutSeparator(line, Newlines);
    assert [line][..0] == [];
  }

  /**
   * The text after the last line break of a file is its last line: its entry
   * is recorded on top of the map the text before the break gives.
   */
  lemma ParsedLastLine(text: string, newline: char, line: string)
    requires newline in Newlines && Avoids(line, Newlines)
    ensures Parsed(Split(text + [newline] + line, Newlines)) == Apply(Parsed(Split(text, Newlines)), ParseLine(line))
  {
    SplitConcat(text, newline, line, Newlines);
    SplitWithoutSeparator(line, Newlines);
    var lines := Split(text, Newlines) + [line];
    assert lines[..|lines| - 1] == Split(text, Newlines);
  }

  /** `parseEnvFile(contents:)`: fills a dictionary line by line. */
  method ParseEnvFile(contents: string) returns (config: map<string, string>)
    ensures config == Parsed(Split(contents, Newlines))
  {
    config := map[];
    var lines := Split(contents, Newlines);
    for n := 0 to |lines|
      invariant config == Parsed(lines[..n])
    {
      assert lines[..n + 1][..n] == lines[..n];
      assert Parsed(lines[..n + 1]) == Apply(config, ParseLine(lines[n]));
      var trimmed := Trim(lines[n], Whitespaces);
      if trimmed == [] || trimmed[0] == '#' {
        continue;
      }
      var equalIndex := FirstIndex(trimmed, '=');
      if equalIndex.Some? {
        var i := equalIndex.value;
        var key := Trim(trimmed[..i], Whitespaces);
        var value := Trim(Trim(trimmed[i + 1..], Whitespaces), Quotes);
        config := config[key := value];
      }
    }
    assert lines[..|lines|] == lines;
  }

  // ---------------------------------------------------------------------------
  // Choosing the configuration map
  // ---------------------------------------------------------------------------

  /** The four places probed for the env file, in order. */
  function CandidatePaths(resourcePath: string, cwd: string, t: Tier): (paths: seq<string>) {
    var name := EnvFileName(t);
    [resourcePath + "/../" + name, resourcePath + "/" + name, cwd + "/config/" + name, cwd + "/" + name]
  }

  /** The first of `paths` that can be read, if any. */
  function FirstReadable(paths: seq<string>, files: map<string, string>): (r: Option<nat>)
    ensures r.None? <==> forall j :: 0 <= j < |paths| ==> paths[j] !in files
    ensures r.Some? ==> r.value < |paths| && paths[r.value] in files
    ensures r.Some? ==> forall j :: 0 <= j < r.value ==> paths[j] !in files
  {
    if paths == [] then None
    else if paths[0] in files then Some(0)
    else
      match FirstReadable(paths[1..], files)
      case None => None
      case Some(i) => Some(i + 1)
  }

  /** The map an env file supplies: nothing without a resource path, else the first readable candidate, parsed. */
  function EnvFileConfig(t: Tier, resourcePath: Option<string>, cwd: string, files: map<string, string>): (r: Option<map<string, string>>)
    ensures resourcePath.None? ==> r.None?
    ensures resourcePath.Some? ==>
      (r.None? <==> forall j :: 0 <= j < 4 ==> CandidatePaths(resourcePath.value, cwd, t)[j] !in files)
  {
    if resourcePath.None? then None
    else
      var paths := CandidatePaths(resourcePath.value, cwd, t);
      match FirstReadable(paths, files)
      case None => None
      case Some(i) => Some(Parsed(Split(files[paths[i]], Newlines)))
  }

  /** `loadFromEnvFile(environment:)`: probes the candidate paths in order and parses the first it can read. */
  method LoadFromEnvFile(t: Tier, resourcePath: Option<string>, cwd: string, files: map<string, string>)
    returns (r: Option<map<string, string>>)
    ensures r == EnvFileConfig(t, resourcePath, cwd, files)
  {
    if resourcePath.None? {
      return None;
    }
    var possiblePaths := CandidatePaths(resourcePath.value, cwd, t);
    for i := 0 to |possiblePaths|
      invariant forall j :: 0 <= j < i ==> possiblePaths[j] !in files
    {
      var path := possiblePaths[i];
      if path in files {
        var config := ParseEnvFile(files[path]);
        assert FirstReadable(possiblePaths, files) == Some(i);
        return Some(config);
      }
    }
    return None;
  }

  /** `loadFromInfoPlist()`: copies the (already stringified) Config.plist dictionary entry by entry. */
  method LoadFromInfoPlist(plist: Option<map<string, string>>) returns (r: Option<map<string, string>>)
    ensures r == plist
  {
    if plist.None? {
      return None;
    }
    var configDict := plist.value;
    var result: map<string, string> := map[];
    var remaining := configDict.Keys;
    while remaining != {}
      invariant remaining <= configDict.Keys
      invariant result.Keys == configDict.Keys - remaining
      invariant forall k :: k in result ==> result[k] == configDict[k]
      decreases remaining
    {
      var key :| key in remaining;
      result := result[key := configDict[key]];
      remaining := remaining - {key};
    }
    assert result == configDict;
    return Some(result);
  }

  const DefaultApiBaseURL: string := "https://restcountries.com/v2"
  const DefaultApiTimeout: int := 30
  const DefaultLogLevel: string := "debug"

  /** `defaultConfig(for:)`: the base URL, log level and analytics flag built into each tier. */
  function DefaultConfig(t: Tier): (m: map<string, string>)
    ensures m.Keys == {"API_BASE_URL", "LOG_LEVEL", "ENABLE_ANALYTICS"}
    ensures m["ENABLE_ANALYTICS"] == (if t == Development then "false" else "true")
  {
    match t
    case Development =>
      map["API_BASE_URL" := DefaultApiBaseURL, "LOG_LEVEL" := "debug", "ENABLE_ANALYTICS" := "false"]
    case Staging =>
      map["API_BASE_URL" := "https://api.staging.countries.com", "LOG_LEVEL" := "info", "ENABLE_ANALYTICS" := "true"]
    case Production =>
      map["API_BASE_URL" := DefaultApiBaseURL, "LOG_LEVEL" := "error", "ENABLE_ANALYTICS" := "true"]
  }

  /** The map `loadConfig(for:)` settles on: one whole source, never a key-by-key merge. */
  function ResolvedConfig(t: Tier, resourcePath: Option<string>, cwd: string, files: map<string, string>,
                          plist: Option<map<string, string>>): (m: map<string, string>)
  {
    match EnvFileConfig(t, resourcePath, cwd, files)
    case Some(fromFile) => fromFile
    case None => plist.GetOr(DefaultConfig(t))
  }

  /** `loadConfig(for:)`: the env file if one is found, else the plist, else the tier defaults. */
  method LoadConfig(t: Tier, resourcePath: Option<string>, cwd: string, files: map<string, string>,
                    plist: Option<map<string, string>>) returns (config: map<string, string>)
    ensures config == ResolvedConfig(t, resourcePath, cwd, files, plist)
  {
    var envConfig := LoadFromEnvFile(t, resourcePath, cwd, files);
    if envConfig.Some? {
      return envConfig.value;
    }
    var fromPlist := LoadFromInfoPlist(plist);
    return fromPlist.GetOr(DefaultConfig(t));
  }

  /**
   * Whole-map selection: the first readable candidate decides every key,
   * even when it is empty or lacks a key the plist or the defaults have.
   */
  lemma {:induction false} FirstReadableFileDecides(t: Tier, resourcePath: string, cwd: string, files: map<string, string>,
                                   plist: Option<map<string, string>>, i: nat)
    requires i < 4
    requires CandidatePaths(resourcePath, cwd, t)[i] in files
    requires forall j :: 0 <= j < i ==> CandidatePaths(resourcePath, cwd, t)[j] !in files
    ensures ResolvedConfig(t, Some(resourcePath), cwd, files, plist)
            == Parsed(Split(files[CandidatePaths(resourcePath, cwd, t)[i]], Newlines))
  {
    var paths := CandidatePaths(resourcePath, cwd, t);
    var r := FirstReadable(paths, files);
    assert r.Some?;
  }

  /** With no env file to read, the plist is taken whole, and failing that the tier defaults. */
  lemma NoEnvFileFallsBack(t: Tier, resourcePath: Option<string>, cwd: string, files: map<string, string>,
                           plist: Option<map<string, string>>)
    requires resourcePath.Some? ==> forall j :: 0 <= j < 4 ==> CandidatePaths(resourcePath.value, cwd, t)[j] !in files
    ensures plist.Some? ==> ResolvedConfig(t, resourcePath, cwd, files, plist) == plist.value
    ensures plist.None? ==> ResolvedConfig(t, resourcePath, cwd, files, plist) == DefaultConfig(t)
  {
  }

  // ---------------------------------------------------------------------------
  // Reading values
  // ---------------------------------------------------------------------------

  /** The `EnvironmentConfig` struct: the tier and the map loaded once at start-up. */
  datatype EnvironmentConfig = EnvironmentConfig(env: Tier, config: map<string, string>)

  /** `init()`: loads the configuration of the build tier. */
  method Load(t: Tier, resourcePath: Option<string>, cwd: string, files: map<string, string>,
              plist: Option<map<string, string>>) returns (c: EnvironmentConfig)
    ensures c.env == t
    ensures c.config == ResolvedConfig(t, resourcePath, cwd, files, plist)
  {
    var config := LoadConfig(t, resourcePath, cwd, files, plist);
    c := EnvironmentConfig(t, config);
  }

  /** The process environment sets `key` to a non-empty value. */
  predicate Overrides(processEnv: map<string, string>, key: string) {
    key in processEnv && processEnv[key] != ""
  }

  /** `value(for:)`: a non-empty process-environment value wins; otherwise the loaded map's entry. */
  function Value(c: EnvironmentConfig, processEnv: map<string, string>, key: string): (r: Option<string>)
    ensures key in processEnv && processEnv[key] != "" ==> r == Some(processEnv[key])
    ensures (key !in processEnv || processEnv[key] == "") ==> (r.Some? <==> key in c.config)
    ensures (key !in processEnv || processEnv[key] == "") && key in c.config ==> r == Some(c.config[key])
  {
    if key in processEnv && processEnv[key] != "" then Some(processEnv[key])
    else if key in c.config then Some(c.config[key])
    else None
  }

  /** An overriding environment variable makes the loaded map irrelevant. */
  lemma OverrideIgnoresLoadedMap(c1: EnvironmentConfig, c2: EnvironmentConfig, processEnv: map<string, string>, key: string)
    requires key in processEnv && processEnv[key] != ""
    ensures Value(c1, processEnv, key) == Value(c2, processEnv, key)
  {
  }

  /** An empty environment variable reads as if it were not set. */
  lemma EmptyVariableNeverShadows(c: EnvironmentConfig, processEnv: map<string, string>, key: string)
    requires key in processEnv && processEnv[key] == ""
    ensures Value(c, processEnv, key) == Value(c, processEnv - {key}, key)
  {
  }

  /** `boolValue(for:)`: true for a value that lower-cases to "true" or is "1"; false otherwise and when absent. */
  function BoolValue(c: EnvironmentConfig, processEnv: map<string, string>, key: string): (r: bool)
    ensures Value(c, processEnv, key).None? ==> !r
    ensures Value(c, processEnv, key).Some? ==>
      (r <==> Lower(Value(c, processEnv, key).value) == "true" || Value(c, processEnv, key).value == "1")
  {
    match Value(c, processEnv, key)
    case None => false
    case Some(s) => Lower(s) == "true" || s == "1"
  }

  /** A value lower-cases to "true" exactly when it spells true in any mix of cases. */
  lemma TrueInAnyCase(s: string)
    ensures Lower(s) == "true" <==>
      |s| == 4 && s[0] in {'t', 'T'} && s[1] in {'r', 'R'} && s[2] in {'u', 'U'} && s[3] in {'e', 'E'}
  {
    if Lower(s) == "true" {
      assert LowerChar(s[0]) == 't' && LowerChar(s[1]) == 'r';
      assert LowerChar(s[2]) == 'u' && LowerChar(s[3]) == 'e';
    }
    if |s| == 4 && s[0] in {'t', 'T'} && s[1] in {'r', 'R'} && s[2] in {'u', 'U'} && s[3] in {'e', 'E'} {
      assert Lower(s) == "true";
    }
  }

  /** `intValue(for:)`: the value read as an `Int`, absent when the key is or when the text is no integer. */
  function IntValue(c: EnvironmentConfig, processEnv: map<string, string>, key: string): (r: Option<int>)
    ensures Value(c, processEnv, key).None? ==> r.None?
    ensures Value(c, processEnv, key).Some? ==> r == ParseInt(Value(c, processEnv, key).value)
    ensures r.Some? ==> InIntRange(r.value)
  {
    match Value(c, processEnv, key)
    case None => None
    case Some(s) => ParseInt(s)
  }

  /** A stored integer description reads back as that integer. */
  lemma IntValueReadsDescription(c: EnvironmentConfig, processEnv: map<string, string>, key: string, n: int)
    requires InIntRange(n)
    requires Value(c, processEnv, key) == Some(IntToString(n))
    ensures IntValue(c, processEnv, key) == Some(n)
  {
    ParseIntToString(n);
  }

  /** `apiBaseURL`: `API_BASE_URL`, else the public countries endpoint. */
  function ApiBaseURL(c: EnvironmentConfig, processEnv: map<string, string>): (r: string)
    ensures Value(c, processEnv, "API_BASE_URL").None? ==> r == DefaultApiBaseURL
    ensures Value(c, processEnv, "API_BASE_URL").Some? ==> r == Value(c, processEnv, "API_BASE_URL").value
  {
    Value(c, processEnv, "API_BASE_URL").GetOr(DefaultApiBaseURL)
  }

  /** `apiTimeout`: `API_TIMEOUT` in seconds when it reads as an integer, else 30. */
  function ApiTimeout(c: EnvironmentConfig, processEnv: map<string, string>): (r: int)
    ensures IntValue(c, processEnv, "API_TIMEOUT").None? ==> r == DefaultApiTimeout
    ensures IntValue(c, processEnv, "API_TIMEOUT").Some? ==> r == IntValue(c, processEnv, "API_TIMEOUT").value
  {
    IntValue(c, processEnv, "API_TIMEOUT").GetOr(DefaultApiTimeout)
  }

  /** `logLevel`: `LOG_LEVEL`, else "debug". */
  function LogLevelName(c: EnvironmentConfig, processEnv: map<string, string>): (r: string)
    ensures Value(c, processEnv, "LOG_LEVEL").None? ==> r == DefaultLogLevel
    ensures Value(c, processEnv, "LOG_LEVEL").Some? ==> r == Value(c, processEnv, "LOG_LEVEL").value
  {
    Value(c, processEnv, "LOG_LEVEL").GetOr(DefaultLogLevel)
  }

  /** `enableAnalytics`: `ENABLE_ANALYTICS` read as a flag. */
  function EnableAnalytics(c: EnvironmentConfig, processEnv: map<string, string>): (r: bool)
    ensures r <==> Value(c, processEnv, "ENABLE_ANALYTICS").Some?
                   && (Lower(Value(c, processEnv, "ENABLE_ANALYTICS").value) == "true" || Value(c, processEnv, "ENABLE_ANALYTICS").value == "1")
  {
    BoolValue(c, processEnv, "ENABLE_ANALYTICS")
  }

  /** `enableCrashReporting`: `ENABLE_CRASH_REPORTING` read as a flag. */
  function EnableCrashReporting(c: EnvironmentConfig, processEnv: map<string, string>): (r: bool)
    ensures r <==> Value(c, processEnv, "ENABLE_CRASH_REPORTING").Some?
                   && (Lower(Value(c, processEnv, "ENABLE_CRASH_REPORTING").value) == "true" || Value(c, processEnv, "ENABLE_CRASH_REPORTING").value == "1")
  {
    BoolValue(c, processEnv, "ENABLE_CRASH_REPORTING")
  }

  /** `apiKey`: `API_KEY`, else empty. */
  function ApiKey(c: EnvironmentConfig, processEnv: map<string, string>): (r: string)
    ensures Value(c, processEnv, "API_KEY").None? ==> r == ""
    ensures Value(c, processEnv, "API_KEY").Some? ==> r == Value(c, processEnv, "API_KEY").value
  {
    Value(c, processEnv, "API_KEY").GetOr("")
  }

  /** `apiSecret`: `API_SECRET`, else empty. */
  function ApiSecret(c: EnvironmentConfig, processEnv: map<string, string>): (r: string)
    ensures Value(c, processEnv, "API_SECRET").None? ==> r == ""
    ensures Value(c, processEnv, "API_SECRET").Some? ==> r == Value(c, processEnv, "API_SECRET").value
  {
    Value(c, processEnv, "API_SECRET").GetOr("")
  }

  /** `sentryDSN`: `SENTRY_DSN`, absent when unset. */
  function SentryDSN(c: EnvironmentConfig, processEnv: map<string, string>): (r: Option<string>)
    ensures Overrides(processEnv, "SENTRY_DSN") ==> r == Some(processEnv["SENTRY_DSN"])
    ensures !Overrides(processEnv, "SENTRY_DSN") ==> r == (if "SENTRY_DSN" in c.config then Some(c.config["SENTRY_DSN"]) else None)
  {
    Value(c, processEnv, "SENTRY_DSN")
  }

  /**
   * Read through the accessors, with no environment overrides, each tier's
   * defaults give its base URL, log level and analytics flag, and the keys the
   * defaults lack fall back: a 30-second timeout, empty credentials, no crash
   * reporting and no Sentry DSN.
   */
  lemma TierDefaultsThroughAccessors(t: Tier)
    ensures var c := EnvironmentConfig(t, DefaultConfig(t));
      && ApiBaseURL(c, map[]) == (if t == Staging then "https://api.staging.countries.com" else DefaultApiBaseURL)
      && LogLevelName(c, map[]) == (match t case Development => "debug" case Staging => "info" case Production => "error")
      && EnableAnalytics(c, map[]) == (t != Development)
      && ApiTimeout(c, map[]) == DefaultApiTimeout
      && ApiKey(c, map[]) == "" && ApiSecret(c, map[]) == ""
      && !EnableCrashReporting(c, map[]) && SentryDSN(c, map[]).None?
  {
    var c := EnvironmentConfig(t, DefaultConfig(t));
    TrueInAnyCase("false");
    TrueInAnyCase("true");
    assert "API_TIMEOUT" !in c.config;
  }
}
