# SingerApp core logic in Dafny

This project models the three pieces of real logic in the SingerApp iOS
application shell and proves what their code commits to.

- **EnvironmentConfig** (`config.dfy`, with the string helpers in `text.dfy`
  and `numerals.dfy`). The `KEY=VALUE` env-file parser is a loop that fills a
  map. The loader takes one whole map: the first readable of four candidate
  env files, else the stringified `Config.plist`, else the build tier's
  built-in defaults. `value(for:)` lets a non-empty process-environment
  variable win over that map. The typed readers `boolValue` and `intValue`
  and the accessors with their fallbacks sit on top.
- **LogLevel** (`loglevels.dfy`). Six severities in a strict total order,
  their raw values, the case-insensitive `from(_:)` that falls back to
  `info`, the system log type, the glyphs and colour codes of each, and
  `LogEntry`.
- **AppLogger** (`logger.dfy`). A class with one mutable threshold,
  `minimumLevel`. `log` drops entries below the threshold and appends the
  others to the serial writer queue. The six level methods and the
  `logNetwork`/`logError`/`logData` helpers fix level, category and metadata.
- **DeepLinksHandler** (`deeplinks.dfy`). `DeepLink(url:)` always yields
  `home`. `open` is a two-step navigation over a `Store` holding the app
  state. It resets a non-default routing to `ViewRouting()` and defers the
  "route to destination" action on the main queue. When the routing is
  already the default, it runs that action at once.

What the Swift code reads from the system is passed in as a parameter. That
covers the bundle's resource path (absent or present), the current directory,
the readable files (path to contents), the already stringified plist
dictionary, the process environment and the "running tests" flag. Strings are
sequences of Unicode scalars.

Three points of the code shape the model:

- Only the environment override is per key. The env file, the plist and the
  tier defaults are chosen as one whole map, so a key missing from a readable
  env file is simply absent and the defaults are not consulted.
- When the bundle has no resource path, not even the two candidate paths
  under the current directory are probed.
- The destination action of `open` assigns nothing. `bulkUpdate { $0.routing.self }`
  reads the routing and leaves the state as it is, so after `open` settles the
  routing is the default.

## Model

| member | source | states |
|---|---|---|
| `Text.TrimFacts` | SingerApp/Core/Config/EnvironmentConfig.swift:84 | `trimmingCharacters(in:)` keeps one contiguous middle part of the string and drops only characters of the set before and after it; the part neither starts nor ends with a character of the set; it is empty exactly when every character was in the set; a string without such characters is unchanged |
| `Text.SplitPieces` | SingerApp/Core/Config/EnvironmentConfig.swift:82 | `components(separatedBy: .newlines)` gives one more line than there are newline characters, and no line holds a newline |
| `Text.SplitWithoutSeparator` | SingerApp/Core/Config/EnvironmentConfig.swift:82 | a text without a newline is one line, itself |
| `Text.SplitConcat` | SingerApp/Core/Config/EnvironmentConfig.swift:82 | the lines of a text with a newline in it are the lines before that newline followed by the lines after it |
| `Text.SplitAtSeparator` | SingerApp/Core/Config/EnvironmentConfig.swift:82 | the text before the first newline is the first line, and the rest is split on its own |
| `Text.FirstIndex` | SingerApp/Core/Config/EnvironmentConfig.swift:92 | `firstIndex(of: "=")` is absent exactly when there is no `=`; otherwise it points at an `=` with none before it |
| `Numerals.ParseInt` | SingerApp/Core/Config/EnvironmentConfig.swift:160 | `Int(_:)` accepts exactly an optional sign followed by at least one decimal digit whose value fits in 64 bits, and gives that value |
| `Numerals.ParseIntToString` | SingerApp/Core/Config/EnvironmentConfig.swift:160 | reading back the decimal text of any 64-bit integer gives that integer |
| `Config.SkippedLines` | SingerApp/Core/Config/EnvironmentConfig.swift:84-99 | a line that is blank after trimming spaces and tabs, starts with `#`, or has no `=` adds no entry |
| `Config.SplitsAtFirstEquals` | SingerApp/Core/Config/EnvironmentConfig.swift:92-96 | the key is the trimmed text before the first `=`; the value is all the text after it, so it may hold `=`, trimmed of whitespace and then of quotes |
| `Config.QuotedValue` | SingerApp/Core/Config/EnvironmentConfig.swift:94-96 | a value enclosed in `"` or `'` loses its quotes, as `API_KEY="abc123"` gives `abc123` |
| `Config.ParsedLastOccurrenceWins` | SingerApp/Core/Config/EnvironmentConfig.swift:98 | a repeated key keeps the value of the last line that sets it |
| `Config.ParsedUndefinedKeyAbsent` | SingerApp/Core/Config/EnvironmentConfig.swift:82-100 | a key that no line sets has no entry in the parsed map |
| `Config.ParsedIgnoresSkippedLine` | SingerApp/Core/Config/EnvironmentConfig.swift:86-89 | inserting a line that adds no entry anywhere in the file leaves the parsed map unchanged |
| `Config.ParsedSingleLine` | SingerApp/Core/Config/EnvironmentConfig.swift:79-103 | a file of one line sets exactly what that line sets |
| `Config.ParsedLastLine` | SingerApp/Core/Config/EnvironmentConfig.swift:79-103 | the text after a file's last newline is its last line, whose entry is recorded on top of the map that the text before it gives |
| `Config.ParseEnvFile` | SingerApp/Core/Config/EnvironmentConfig.swift:79-103 | the loop over the lines builds exactly the map in which each line's entry overwrites the earlier ones |
| `Config.FirstReadable` | SingerApp/Core/Config/EnvironmentConfig.swift:70-74 | the chosen path is readable and no earlier one is; there is none exactly when no path is readable |
| `Config.EnvFileConfig` | SingerApp/Core/Config/EnvironmentConfig.swift:56-77 | there is no env-file map without a resource path, or when none of the four candidates is readable |
| `Config.LoadFromEnvFile` | SingerApp/Core/Config/EnvironmentConfig.swift:56-77 | the loop probes the four paths in order and parses the first readable one |
| `Config.LoadFromInfoPlist` | SingerApp/Core/Config/EnvironmentConfig.swift:105-116 | the entry-by-entry copy gives back exactly the plist dictionary, or nothing when there is none |
| `Config.DefaultConfig` | SingerApp/Core/Config/EnvironmentConfig.swift:118-139 | every tier's defaults have exactly the keys `API_BASE_URL`, `LOG_LEVEL`, `ENABLE_ANALYTICS`; analytics is off only in development |
| `Config.LoadConfig` | SingerApp/Core/Config/EnvironmentConfig.swift:46-54 | the loaded map is the env-file map if there is one, else the plist, else the tier defaults |
| `Config.FirstReadableFileDecides` | SingerApp/Core/Config/EnvironmentConfig.swift:63-74 | when candidate i is the first readable one, the whole configuration is that file's parsed map, whatever the plist holds |
| `Config.NoEnvFileFallsBack` | SingerApp/Core/Config/EnvironmentConfig.swift:46-54 | with no readable env file the plist is taken whole, and without a plist the tier defaults |
| `Config.Load` | SingerApp/Core/Config/EnvironmentConfig.swift:39-42 | the configuration holds the build tier and the map the loader settles on |
| `Config.Value` | SingerApp/Core/Config/EnvironmentConfig.swift:143-151 | a present, non-empty environment value is returned; otherwise the loaded map's entry, present exactly when the key is in the map |
| `Config.OverrideIgnoresLoadedMap` | SingerApp/Core/Config/EnvironmentConfig.swift:143-147 | with a non-empty environment value the result is the same whatever map was loaded |
| `Config.EmptyVariableNeverShadows` | SingerApp/Core/Config/EnvironmentConfig.swift:145 | an empty environment variable reads as if it were unset |
| `Config.BoolValue` | SingerApp/Core/Config/EnvironmentConfig.swift:153-156 | false for an absent key; otherwise true exactly when the value lower-cases to `true` or is `1` |
| `Config.TrueInAnyCase` | SingerApp/Core/Config/EnvironmentConfig.swift:155 | a value lower-cases to `true` exactly when it is `true` in any mix of letter cases |
| `Config.IntValue` | SingerApp/Core/Config/EnvironmentConfig.swift:158-161 | nothing for an absent key or a value that is no 64-bit integer literal; otherwise its value |
| `Config.IntValueReadsDescription` | SingerApp/Core/Config/EnvironmentConfig.swift:158-161 | a stored integer's decimal text reads back as that integer |
| `Config.ApiBaseURL` | SingerApp/Core/Config/EnvironmentConfig.swift:168-170 | `API_BASE_URL` when it resolves, else `https://restcountries.com/v2` |
| `Config.ApiTimeout` | SingerApp/Core/Config/EnvironmentConfig.swift:172-174 | `API_TIMEOUT` when it reads as an integer, else 30 |
| `Config.LogLevelName` | SingerApp/Core/Config/EnvironmentConfig.swift:176-178 | `LOG_LEVEL` when it resolves, else `debug` |
| `Config.EnableAnalytics` | SingerApp/Core/Config/EnvironmentConfig.swift:180-182 | true exactly when `ENABLE_ANALYTICS` resolves to a value that lower-cases to `true` or is `1` |
| `Config.EnableCrashReporting` | SingerApp/Core/Config/EnvironmentConfig.swift:184-186 | true exactly when `ENABLE_CRASH_REPORTING` resolves to a value that lower-cases to `true` or is `1` |
| `Config.ApiKey` | SingerApp/Core/Config/EnvironmentConfig.swift:188-190 | `API_KEY` when it resolves, else the empty string |
| `Config.ApiSecret` | SingerApp/Core/Config/EnvironmentConfig.swift:192-194 | `API_SECRET` when it resolves, else the empty string |
| `Config.SentryDSN` | SingerApp/Core/Config/EnvironmentConfig.swift:196-198 | the non-empty environment value if any, else the loaded entry, with no default |
| `Config.TierDefaultsThroughAccessors` | SingerApp/Core/Config/EnvironmentConfig.swift:118-139 | read through the accessors, each tier's defaults give its URL, log level and analytics flag; timeout 30, empty credentials, no crash reporting and no DSN |
| `LogLevels.IndexIn` | SingerApp/Core/Logger/LogLevel.swift:66-67 | `firstIndex(of:)` is absent exactly when the level is not in the list; otherwise it is its first position |
| `LogLevels.OrderIndexIsRank` | SingerApp/Core/Logger/LogLevel.swift:65-69 | every level is found in `order`, at its rank, so the `return false` guard of `<` never fires |
| `LogLevels.Less` | SingerApp/Core/Logger/LogLevel.swift:64-71 | `<` holds exactly when the left level comes earlier in verbose, debug, info, warning, error, critical |
| `LogLevels.AtLeast` | SingerApp/Core/Logger/LogLevel.swift:13 | the `>=` that `Comparable` derives holds exactly when the left level is not earlier than the right |
| `LogLevels.LessIrreflexive` | SingerApp/Core/Logger/LogLevel.swift:64-71 | no level is below itself |
| `LogLevels.LessTransitive` | SingerApp/Core/Logger/LogLevel.swift:64-71 | `<` is transitive |
| `LogLevels.LessTotal` | SingerApp/Core/Logger/LogLevel.swift:64-71 | of two distinct levels one is below the other |
| `LogLevels.OrderAscends` | SingerApp/Core/Logger/LogLevel.swift:65 | each entry of `order` is below the next |
| `LogLevels.FromMatchesName` | SingerApp/Core/Logger/LogLevel.swift:74-84 | `from(_:)` gives a level exactly for the strings that lower-case to its name, and `info` also for every string that names no level |
| `LogLevels.FromRawValue` | SingerApp/Core/Logger/LogLevel.swift:14-19 | reading back a level's raw value gives that level |
| `LogLevels.OsLogTypeShared` | SingerApp/Core/Logger/LogLevel.swift:22-35 | two levels share a system log type exactly when they are equal or both are verbose or debug |
| `LogLevels.EmojiInjective` | SingerApp/Core/Logger/LogLevel.swift:38-47 | no two levels share a glyph |
| `LogLevels.ResetCodeShared` | SingerApp/Core/Logger/LogLevel.swift:50-61 | the reset sequence is the same for every level and is no level's colour |
| `Logger.PassesIsGuard` | SingerApp/Core/Logger/AppLogger.swift:108 | the filter, stated as "at or above the threshold in the severity order", is exactly the guard `level >= minimumLevel` |
| `Logger.Admitted` | SingerApp/Core/Logger/AppLogger.swift:108-122 | a call contributes its own entry when it passes and nothing otherwise |
| `Logger.AdmittedAllExactlyPassing` | SingerApp/Core/Logger/AppLogger.swift:108-122 | over a run of calls, a passing entry reaches the queue as many times as it was submitted and any other entry never |
| `Logger.AdmittedAllAppend` | SingerApp/Core/Logger/AppLogger.swift:119-122 | what a run of calls queues is what its first part queues followed by what its second part queues, so later calls' entries come after earlier ones' |
| `Logger.AdmittedAllSnoc` | SingerApp/Core/Logger/AppLogger.swift:108-122 | one more call adds what that call admits at the back |
| `Logger.NetworkMetadata` | SingerApp/Core/Logger/AppLogger.swift:155-158 | the metadata has `url` exactly when a URL is given and `method` exactly when a method is given, holding them, and no other key |
| `Logger.ErrorMessage` | SingerApp/Core/Logger/AppLogger.swift:164 | the message is the description, preceded by `<context>: ` when the context is non-empty |
| `Logger.DataMessage` | SingerApp/Core/Logger/AppLogger.swift:175 | the message is the description, `: `, the byte count in decimal and ` bytes` |
| `Logger.AppLogger.constructor` | SingerApp/Core/Logger/AppLogger.swift:19-25 | a new logger has threshold debug, colours on and an empty queue |
| `Logger.AppLogger.Configure` | SingerApp/Core/Logger/AppLogger.swift:28-38 | the threshold becomes the given level, stays when none is given; nothing else is written |
| `Logger.AppLogger.Log` | SingerApp/Core/Logger/AppLogger.swift:98-122 | the queue gains exactly the call's entry at its back when the level is at or above the threshold, and nothing otherwise; nothing else is written |
| `Logger.AppLogger.LogEach` | SingerApp/Core/Logger/AppLogger.swift:98-122 | a run of `log` calls under one threshold leaves exactly the passing entries, in submission order, at the back of the queue |
| `Logger.AppLogger.TakeNext` | SingerApp/Core/Logger/AppLogger.swift:117-122 | the writer takes the oldest queued entry, so entries are written in submission order; the accepted history is unchanged |
| `Logger.AppLogger.Verbose` | SingerApp/Core/Logger/AppLogger.swift:42-49 | logs at verbose, category `App` unless one is given |
| `Logger.AppLogger.Debug` | SingerApp/Core/Logger/AppLogger.swift:51-58 | logs at debug, category `App` unless one is given |
| `Logger.AppLogger.Info` | SingerApp/Core/Logger/AppLogger.swift:60-67 | logs at info, category `App` unless one is given |
| `Logger.AppLogger.Warning` | SingerApp/Core/Logger/AppLogger.swift:69-76 | logs at warning, category `App` unless one is given |
| `Logger.AppLogger.Error` | SingerApp/Core/Logger/AppLogger.swift:78-85 | logs at error, category `App` unless one is given |
| `Logger.AppLogger.Critical` | SingerApp/Core/Logger/AppLogger.swift:87-94 | logs at critical, category `App` unless one is given |
| `Logger.AppLogger.LogNetwork` | SingerApp/Core/Logger/AppLogger.swift:155-160 | logs at info in category `Network` with the url/method metadata |
| `Logger.AppLogger.LogError` | SingerApp/Core/Logger/AppLogger.swift:162-171 | logs at error in category `Error` with the context-prefixed message and the domain, code and description |
| `Logger.AppLogger.LogData` | SingerApp/Core/Logger/AppLogger.swift:173-176 | logs at debug in category `Data` with the byte-count message and `size` metadata |
| `Logger.UnconfiguredThreshold` | SingerApp/Core/Logger/AppLogger.swift:20 | an unconfigured logger drops a verbose call and queues a debug one |
| `DeepLinks.DeepLinkAlwaysHome` | SingerApp/Core/DeepLinksHandler.swift:17-36 | every URL, whatever its host and query, gives `home`; the initializer never fails |
| `DeepLinks.SettleDelayFor` | SingerApp/Core/DeepLinksHandler.swift:70 | the deferral is zero exactly when tests are running |
| `DeepLinks.Opened` | SingerApp/Core/DeepLinksHandler.swift:54-74 | at the default routing the state is untouched and nothing is scheduled; otherwise the routing becomes the default and exactly one destination action is scheduled; other fields never change |
| `DeepLinks.DrainedUnchanged` | SingerApp/Core/DeepLinksHandler.swift:57-61 | running any number of scheduled destination actions leaves the state as it is |
| `DeepLinks.OpenSettlesOnDefault` | SingerApp/Core/DeepLinksHandler.swift:57-73 | `open` runs first, then the main queue runs what was already waiting and what `open` scheduled; after that the routing is the default in both branches and every other field is as before |
| `DeepLinks.OpenTwiceSchedulesOnce` | SingerApp/Core/DeepLinksHandler.swift:67-73 | after a first `open(.home)` has settled, a second takes the immediate branch and schedules nothing |
| `DeepLinks.Store.SetRouting` | SingerApp/Core/DeepLinksHandler.swift:69 | the subscript write replaces the routing and nothing else |
| `DeepLinks.Store.BulkUpdateRouteToDestination` | SingerApp/Core/DeepLinksHandler.swift:57-61 | the destination's bulk update leaves the state unchanged |
| `DeepLinks.MainQueue.AsyncAfter` | SingerApp/Core/DeepLinksHandler.swift:71 | scheduling appends the action, with its delay, at the back of the queue |
| `DeepLinks.MainQueue.RunNext` | SingerApp/Core/DeepLinksHandler.swift:71 | the main queue runs the oldest scheduled action against the store, and what is left still drains to the same state |
| `DeepLinks.RealDeepLinksHandler.constructor` | SingerApp/Core/DeepLinksHandler.swift:50-52 | the handler keeps the container's store |
| `DeepLinks.RealDeepLinksHandler.Open` | SingerApp/Core/DeepLinksHandler.swift:54-84 | the store and the main queue change exactly as `Opened` says |
| `DeepLinks.OpenThenSettle` | SingerApp/Core/DeepLinksHandler.swift:67-73 | from a non-default routing the default is observable mid-transition, one action with the test-dependent delay is pending, and after it runs the routing is still the default |

## Left out

- File reading, `Bundle.main`, `FileManager`, `ProcessInfo.environment` and
  plist decoding are not modelled. Their results are parameters: a map of
  readable files, an optional resource path, the current directory, an
  optional string map for the plist, and a string map for the environment.
- The `"\(value)"` stringification of plist values is not modelled; the plist
  is given already stringified.
- `AppEnvironment.current` depends on compile-time flags, so the tier is a
  parameter.
- `lowercased()` is modelled on ASCII letters only. For the comparisons made
  here (the level names and `true`) full Unicode lower-casing gives the same
  answers, because no non-ASCII scalar lower-cases to a single letter of those
  words.
- Strings are sequences of Unicode scalars; Swift's grapheme clusters are not
  modelled. `hasPrefix("#")` and `firstIndex(of: "=")` compare whole grapheme
  clusters, so an `=` followed by a combining mark is not found by the code
  but is found by `Text.FirstIndex`.
- Config.ApiTimeout: gives the integer number of seconds rather than the
  `Double` the source converts it to.
- Timestamps, `DateFormatter`, `print`, ANSI colouring, `printEntry` and
  `LogEntry.formattedString` are output formatting and are not modelled. The
  writer is reduced to taking entries off the queue.
- `DispatchQueue` concurrency and the `[weak self]` capture are not modelled.
  The serial logger queue is a sequence that accepted calls append to and the
  writer takes from.
- `#file`, `#function` and `#line` are a `SourceLocation` parameter of the
  level methods. For the convenience methods they are the call site inside
  AppLogger.swift; the exact `#file` text depends on the compiler, and the
  model uses the repository path.
- `logError` takes the error as its domain, code and localized description.
  `NSError` bridging is not modelled.
- `logData` takes the data as a byte sequence; only its length is used.
- Metadata values are strings and integers only; the other values that
  `[String: Any]` can hold are not modelled.
- Wall-clock timing of `asyncAfter` is not modelled; the 1.5 s delay is a tag
  on the scheduled action. `URLComponents` parsing is not modelled: its result
  is a parameter, and it does not matter because every URL gives `home`.
- `Store<AppState>`, `DIContainer` and subscriber notification are not part
  of this model. The store is a mutable cell, and the app state is a routing
  value with equality plus the rest of the fields as one opaque value.
