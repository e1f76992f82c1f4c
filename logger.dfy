/**
 * AppLogger: the one mutable threshold, the filter applied to every call, and
 * the serial queue that hands accepted entries to the writer in the order they
 * were submitted. The queue is the sequence `pending`; what the writer has
 * already taken from it is `written`.
 */
module Logger {
  import opened Wrappers
  import opened LogLevels
  import Numerals

  /** The file the convenience methods sit in; their calls to the level methods carry it as `#file`. */
  const LoggerFile: string := "SingerApp/Core/Logger/AppLogger.swift"

  /** The threshold a new logger starts with. */
  const InitialMinimumLevel: LogLevel := Debug

  /** The filter of `log`: an entry passes when its level is at or above the threshold in the severity order. */
  predicate Passes(level: LogLevel, minimumLevel: LogLevel) {
    Rank(level) >= Rank(minimumLevel)
  }

  /** The filter is exactly the guard `level >= minimumLevel`, the `>=` that `Comparable` derives from `<`. */
  lemma PassesIsGuard(level: LogLevel, minimumLevel: LogLevel)
    ensures Passes(level, minimumLevel) <==> AtLeast(level, minimumLevel)
  {
  }

  /** What one call adds to the queue: its entry when it passes the filter, nothing otherwise. */
  function Admitted(e: LogEntry, minimumLevel: LogLevel): (r: seq<LogEntry>)
    ensures |r| <= 1
    ensures r != [] <==> Rank(e.level) >= Rank(minimumLevel)
    ensures r != [] ==> r[0] == e
  {
    if Passes(e.level, minimumLevel) then [e] else []
  }

  /** The entries of `es` that pass the filter, in their original order. */
  function AdmittedAll(es: seq<LogEntry>, minimumLevel: LogLevel): seq<LogEntry>
    decreases |es|
  {
    if es == [] then [] else Admitted(es[0], minimumLevel) + AdmittedAll(es[1..], minimumLevel)
  }

  /**
   * What reaches the writer from a run of calls under one threshold: a passing
   * entry as many times as it was submitted, any other entry never.
   */
  lemma {:induction false} AdmittedAllExactlyPassing(es: seq<LogEntry>, minimumLevel: LogLevel, e: LogEntry)
    ensures |AdmittedAll(es, minimumLevel)| <= |es|
    ensures multiset(AdmittedAll(es, minimumLevel))[e] == if Rank(e.level) >= Rank(minimumLevel) then multiset(es)[e] else 0
    decreases |es|
  {
    if es != [] {
      AdmittedAllExactlyPassing(es[1..], minimumLevel, e);
      var head := Admitted(es[0], minimumLevel);
      var tail := AdmittedAll(es[1..], minimumLevel);
      assert multiset(AdmittedAll(es, minimumLevel)) == multiset(head) + multiset(tail);
      assert es == [es[0]] + es[1..];
      assert multiset(es)[e] == multiset([es[0]])[e] + multiset(es[1..])[e];
      if Rank(es[0].level) >= Rank(minimumLevel) {
        assert head == [es[0]];
      } else {
        assert head == [];
      }
    }
  }

  /** One more call adds what that call admits at the back. */
  lemma AdmittedAllSnoc(es: seq<LogEntry>, i: nat, minimumLevel: LogLevel)
    requires i < |es|
    ensures AdmittedAll(es[..i + 1], minimumLevel) == AdmittedAll(es[..i], minimumLevel) + Admitted(es[i], minimumLevel)
  {
    assert es[..i + 1] == es[..i] + [es[i]];
    AdmittedAllAppend(es[..i], [es[i]], minimumLevel);
    assert AdmittedAll([es[i]], minimumLevel) == Admitted(es[i], minimumLevel) + AdmittedAll([], minimumLevel);
  }

  /**
   * Filtering a run of calls split in two is filtering each part: the passing
   * entries of the later calls come after those of the earlier ones.
   */
  lemma {:induction false} AdmittedAllAppend(a: seq<LogEntry>, b: seq<LogEntry>, minimumLevel: LogLevel)
    ensures AdmittedAll(a + b, minimumLevel) == AdmittedAll(a, minimumLevel) + AdmittedAll(b, minimumLevel)
    decreases |a|
  {
    if a == [] {
      assert a + b == b;
    } else {
      calc {
        AdmittedAll(a + b, minimumLevel);
      == { assert (a + b)[0] == a[0]; assert (a + b)[1..] == a[1..] + b; }
        Admitted(a[0], minimumLevel) + AdmittedAll(a[1..] + b, minimumLevel);
      == { AdmittedAllAppend(a[1..], b, minimumLevel); }
        Admitted(a[0], minimumLevel) + (AdmittedAll(a[1..], minimumLevel) + AdmittedAll(b, minimumLevel));
      ==
        (Admitted(a[0], minimumLevel) + AdmittedAll(a[1..], minimumLevel)) + AdmittedAll(b, minimumLevel);
      ==
        AdmittedAll(a, minimumLevel) + AdmittedAll(b, minimumLevel);
      }
    }
  }

  /** `logNetwork`'s metadata: `url` and `method`, each only when given. */
  function NetworkMetadata(url: Option<string>, httpMethod: Option<string>): (m: map<string, MetaValue>)
    ensures "url" in m <==> url.Some?
    ensures "method" in m <==> httpMethod.Some?
    ensures url.Some? ==> m["url"] == Str(url.value)
    ensures httpMethod.Some? ==> m["method"] == Str(httpMethod.value)
    ensures m.Keys <= {"url", "method"}
  {
    var withUrl: map<string, MetaValue> := if url.Some? then map["url" := Str(url.value)] else map[];
    if httpMethod.Some? then withUrl["method" := Str(httpMethod.value)] else withUrl
  }

  /** An error as `logError` sees it: `NSError`'s domain and code and the localized description. */
  datatype ErrorInfo = ErrorInfo(domain: string, code: int, localizedDescription: string)

  /** `logError`'s message: the description, after `"<context>: "` when there is a context. */
  function ErrorMessage(context: string, description: string): (r: string)
    ensures context == [] ==> r == description
    ensures context != [] ==> |r| == |context| + 2 + |description|
    ensures context != [] ==> r[..|context|] == context && r[|context|..|context| + 2] == ": "
    ensures r[|r| - |description|..] == description
  {
    (if context == [] then "" else context + ": ") + description
  }

  /** `logData`'s message: `"<description>: <n> bytes"`. */
  function DataMessage(description: string, count: nat): (r: string)
    ensures |r| >= |description| + 8
    ensures r[..|description|] == description && r[|description|..|description| + 2] == ": "
    ensures r[|r| - 6..] == " bytes"
    ensures count <= Numerals.IntMax ==> Numerals.ParseInt(r[|description| + 2..|r| - 6]) == Some(count)
  {
    var digits := Numerals.IntToString(count);
    var r := description + ": " + digits + " bytes";
    assert r[|description| + 2..|r| - 6] == digits;
    if count <= Numerals.IntMax then Numerals.ParseIntToString(count); r else r
  }

  class AppLogger {
    /** `minimumLevel`: the threshold below which calls are dropped. */
    var minimumLevel: LogLevel
    /** `enableColors`: whether the writer colours its lines; nothing here changes it. */
    var enableColors: bool
    /** The serial queue: accepted entries the writer has not taken yet, oldest first. */
    var pending: seq<LogEntry>
    /** The entries the writer has taken, in the order it took them. */
    var written: seq<LogEntry>

    /** Everything ever accepted, in submission order. */
    function Accepted(): seq<LogEntry>
      reads this
    {
      written + pending
    }

    /** `init()`: threshold `debug`, colours on, nothing queued. */
    constructor ()
      ensures minimumLevel == InitialMinimumLevel && enableColors
      ensures pending == [] && written == []
    {
      minimumLevel := InitialMinimumLevel;
      enableColors := true;
      pending := [];
      written := [];
    }

    /** `configure`: only a given level changes anything; the other settings are accepted and ignored. */
    method Configure(minimumLevel: Option<LogLevel> := None, enableConsole: Option<bool> := None,
                     enableFile: Option<bool> := None, enableRemote: Option<bool> := None,
                     sentryDSN: Option<string> := None)
      modifies this`minimumLevel
      ensures this.minimumLevel == minimumLevel.GetOr(old(this.minimumLevel))
    {
      if minimumLevel.Some? {
        this.minimumLevel := minimumLevel.value;
      }
    }

    /** `log`: drops an entry below the threshold, otherwise puts it at the back of the queue. */
    method Log(level: LogLevel, message: string, category: string, metadata: Option<map<string, MetaValue>>,
               location: SourceLocation)
      modifies this`pending
      ensures pending == old(pending) + Admitted(LogEntry(level, message, category, location, metadata), minimumLevel)
      ensures Accepted() == old(Accepted()) + Admitted(LogEntry(level, message, category, location, metadata), minimumLevel)
    {
      var entry := LogEntry(level, message, category, location, metadata);
      ghost var added := Admitted(entry, minimumLevel);
      PassesIsGuard(level, minimumLevel);
      if AtLeast(level, minimumLevel) {
        assert added == [entry];
        pending := pending + [entry];
      } else {
        assert added == [];
      }
      assert old(Accepted()) == written + old(pending);
      assert Accepted() == written + (old(pending) + added) == written + old(pending) + added;
    }

    /** A run of `log` calls made one after another under the same threshold. */
    method LogEach(es: seq<LogEntry>)
      modifies this`pending
      ensures pending == old(pending) + AdmittedAll(es, minimumLevel)
    {
      for i := 0 to |es|
        invariant pending == old(pending) + AdmittedAll(es[..i], minimumLevel)
      {
        var e := es[i];
        ghost var done := pending;
        AdmittedAllSnoc(es, i, minimumLevel);
        Log(e.level, e.message, e.category, e.metadata, e.location);
        assert LogEntry(e.level, e.message, e.category, e.location, e.metadata) == e;
        assert done + Admitted(e, minimumLevel) == old(pending) + AdmittedAll(es[..i + 1], minimumLevel);
      }
      assert es[..|es|] == es;
    }

    /** The writer's side of the queue: takes the oldest accepted entry, if any. */
    method TakeNext() returns (e: Option<LogEntry>)
      modifies this`pending, this`written
      ensures old(pending) == [] ==> e.None? && pending == [] && written == old(written)
      ensures old(pending) != [] ==> e == Some(old(pending)[0]) && pending == old(pending)[1..]
                                     && written == old(written) + [old(pending)[0]]
      ensures Accepted() == old(Accepted())
    {
      if pending == [] {
        return None;
      }
      e := Some(pending[0]);
      written := written + [pending[0]];
      pending := pending[1..];
    }

    method Verbose(message: string, location: SourceLocation, category: string := "App",
                   metadata: Option<map<string, MetaValue>> := None)
      modifies this`pending
      ensures pending == old(pending) + Admitted(LogEntry(LogLevel.Verbose, message, category, location, metadata), minimumLevel)
    {
      Log(LogLevel.Verbose, message, category, metadata, location);
    }

    method Debug(message: string, location: SourceLocation, category: string := "App",
                 metadata: Option<map<string, MetaValue>> := None)
      modifies this`pending
      ensures pending == old(pending) + Admitted(LogEntry(LogLevel.Debug, message, category, location, metadata), minimumLevel)
    {
      Log(LogLevel.Debug, message, category, metadata, location);
    }

    method Info(message: string, location: SourceLocation, category: string := "App",
                metadata: Option<map<string, MetaValue>> := None)
      modifies this`pending
      ensures pending == old(pending) + Admitted(LogEntry(LogLevel.Info, message, category, location, metadata), minimumLevel)
    {
      Log(LogLevel.Info, message, category, metadata, location);
    }

    method Warning(message: string, location: SourceLocation, category: string := "App",
                   metadata: Option<map<string, MetaValue>> := None)
      modifies this`pending
      ensures pending == old(pending) + Admitted(LogEntry(LogLevel.Warning, message, category, location, metadata), minimumLevel)
    {
      Log(LogLevel.Warning, message, category, metadata, location);
    }

    method Error(message: string, location: SourceLocation, category: string := "App",
                 metadata: Option<map<string, MetaValue>> := None)
      modifies this`pending
      ensures pending == old(pending) + Admitted(LogEntry(LogLevel.Error, message, category, location, metadata), minimumLevel)
    {
      Log(LogLevel.Error, message, category, metadata, location);
    }

    method Critical(message: string, location: SourceLocation, category: string := "App",
                    metadata: Option<map<string, MetaValue>> := None)
      modifies this`pending
      ensures pending == old(pending) + Admitted(LogEntry(LogLevel.Critical, message, category, location, metadata), minimumLevel)
    {
      Log(LogLevel.Critical, message, category, metadata, location);
    }

    /** `logNetwork`: an `info` entry in category "Network" whose metadata names the URL and method given. */
    method LogNetwork(message: string, url: Option<string> := None, httpMethod: Option<string> := None)
      modifies this`pending
      ensures pending == old(pending) + Admitted(LogEntry(LogLevel.Info, message, "Network",
                SourceLocation(LoggerFile, "logNetwork(_:url:method:)", 159), Some(NetworkMetadata(url, httpMethod))), minimumLevel)
    {
      var metadata: map<string, MetaValue> := map[];
      if url.Some? {
        metadata := metadata["url" := Str(url.value)];
      }
      if httpMethod.Some? {
        metadata := metadata["method" := Str(httpMethod.value)];
      }
      Info(message, SourceLocation(LoggerFile, "logNetwork(_:url:method:)", 159), "Network", Some(metadata));
    }

    /** `logError`: an `error` entry in category "Error" with the error's domain, code and description. */
    method LogError(errorInfo: ErrorInfo, context: string := "")
      modifies this`pending
      ensures pending == old(pending) + Admitted(LogEntry(LogLevel.Error,
                ErrorMessage(context, errorInfo.localizedDescription), "Error",
                SourceLocation(LoggerFile, "logError(_:context:)", 163),
                Some(map["domain" := Str(errorInfo.domain), "code" := Num(errorInfo.code),
                         "description" := Str(errorInfo.localizedDescription)])), minimumLevel)
    {
      Error((if context == [] then "" else context + ": ") + errorInfo.localizedDescription,
            SourceLocation(LoggerFile, "logError(_:context:)", 163), "Error",
            Some(map["domain" := Str(errorInfo.domain), "code" := Num(errorInfo.code),
                     "description" := Str(errorInfo.localizedDescription)]));
    }

    /** `logData`: a `debug` entry in category "Data" giving the byte count in the message and as `size`. */
    method LogData(data: seq<bv8>, description: string)
      modifies this`pending
      ensures pending == old(pending) + Admitted(LogEntry(LogLevel.Debug, DataMessage(description, |data|), "Data",
                SourceLocation(LoggerFile, "logData(_:description:)", 174), Some(map["size" := Num(|data|)])), minimumLevel)
    {
      Debug(description + ": " + Numerals.IntToString(|data|) + " bytes",
            SourceLocation(LoggerFile, "logData(_:description:)", 174), "Data", Some(map["size" := Num(|data|)]));
    }
  }

  /** A fresh logger drops a `verbose` call and keeps a `debug` one. */
  method UnconfiguredThreshold(message: string, location: SourceLocation) returns (dropped: bool, kept: bool)
    ensures dropped && kept
  {
    var logger := new AppLogger();
    logger.Verbose(message, location);
    dropped := logger.pending == [];
    logger.Debug(message, location);
    kept := logger.pending == [LogEntry(LogLevel.Debug, message, "App", location, None)];
  }
}
