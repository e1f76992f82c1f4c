/**
 * LogLevel: the six severities, their fixed order, their names and the way a
 * name is read back, the system log type and the console glyphs of each; and
 * LogEntry, the record one log call produces.
 */
module LogLevels {
  import opened Wrappers
  import opened Text

  datatype LogLevel = Verbose | Debug | Info | Warning | Error | Critical

  /** Every level, from the least to the most severe (the `order` array of `<`). */
  const Order: seq<LogLevel> := [Verbose, Debug, Info, Warning, Error, Critical]

  /** The level's raw value: its name in capitals. */
  function RawValue(l: LogLevel): string {
    match l
    case Verbose => "VERBOSE"
    case Debug => "DEBUG"
    case Info => "INFO"
    case Warning => "WARNING"
    case Error => "ERROR"
    case Critical => "CRITICAL"
  }

  /** The position of a level in the severity order, written independently of `Order`. */
  function Rank(l: LogLevel): nat {
    match l
    case Verbose => 0
    case Debug => 1
    case Info => 2
    case Warning => 3
    case Error => 4
    case Critical => 5
  }

  /** `order.firstIndex(of:)`: where a level first appears in a list of levels. */
  function IndexIn(order: seq<LogLevel>, l: LogLevel): (r: Option<nat>)
    ensures r.None? <==> l !in order
    ensures r.Some? ==> r.value < |order| && order[r.value] == l && l !in order[..r.value]
  {
    if order == [] then None
    else if order[0] == l then Some(0)
    else
      match IndexIn(order[1..], l)
      case None => None
      case Some(i) =>
        assert order[..i + 1] == [order[0]] + order[1..][..i];
        Some(i + 1)
  }

  /** Every level has its rank as its index in `Order`, so the lookup in `<` never fails. */
  lemma OrderIndexIsRank(l: LogLevel)
    ensures IndexIn(Order, l) == Some(Rank(l))
  {
    assert Order[Rank(l)] == l;
    assert forall j :: 0 <= j < Rank(l) ==> Order[j] != l;
    assert l !in Order[..Rank(l)];
  }

  /**
   * `static func <`: compares the indices of the two levels in `order`; the
   * `false` answer for a level missing from `order` is kept as written.
   */
  function Less(lhs: LogLevel, rhs: LogLevel): (r: bool)
    ensures r <==> Rank(lhs) < Rank(rhs)
  {
    OrderIndexIsRank(lhs);
    OrderIndexIsRank(rhs);
    match (IndexIn(Order, lhs), IndexIn(Order, rhs))
    case (Some(i), Some(j)) => i < j
    case _ => false
  }

  /** `>=`, which `Comparable` derives from `<` as `!(lhs < rhs)`. */
  function AtLeast(lhs: LogLevel, rhs: LogLevel): (r: bool)
    ensures r <==> Rank(lhs) >= Rank(rhs)
  {
    !Less(lhs, rhs)
  }

  /** `<` is irreflexive. */
  lemma LessIrreflexive(l: LogLevel)
    ensures !Less(l, l)
  {
  }

  /** `<` is transitive. */
  lemma LessTransitive(a: LogLevel, b: LogLevel, c: LogLevel)
    requires Less(a, b) && Less(b, c)
    ensures Less(a, c)
  {
  }

  /** Any two distinct levels are ordered one way or the other. */
  lemma LessTotal(a: LogLevel, b: LogLevel)
    ensures a == b || Less(a, b) || Less(b, a)
  {
  }

  /** Consecutive entries of `Order` are strictly increasing: verbose < debug < ... < critical. */
  lemma OrderAscends(i: nat)
    requires i + 1 < |Order|
    ensures Less(Order[i], Order[i + 1])
  {
  }

  /** `from(_:)`: a level name in any case gives that level; anything else gives `info`. */
  function From(s: string): LogLevel {
    match Lower(s)
    case "verbose" => Verbose
    case "debug" => Debug
    case "info" => Info
    case "warning" => Warning
    case "error" => Error
    case "critical" => Critical
    case _ => Info
  }

  /** The lower-case name of a level, the text `from(_:)` matches. */
  function Name(l: LogLevel): string {
    match l
    case Verbose => "verbose"
    case Debug => "debug"
    case Info => "info"
    case Warning => "warning"
    case Error => "error"
    case Critical => "critical"
  }

  /**
   * `from(_:)` gives `l` exactly for the strings that lower-case to `l`'s
   * name, and gives `info` also for every string that names no level.
   */
  lemma FromMatchesName(s: string, l: LogLevel)
    ensures From(s) == l <==> Lower(s) == Name(l) || (l == Info && forall m :: Lower(s) != Name(m))
  {
    var names := [Name(Verbose), Name(Debug), Name(Info), Name(Warning), Name(Error), Name(Critical)];
    assert forall m :: Name(m) == names[Rank(m)];
  }

  /** The raw value lower-cases to the level's name. */
  lemma LowerRawValue(l: LogLevel)
    ensures Lower(RawValue(l)) == Name(l)
  {
    var raw := RawValue(l);
    assert forall i :: 0 <= i < |raw| ==> LowerChar(raw[i]) == Name(l)[i];
  }

  /** Round trip: reading back a level's raw value gives that level. */
  lemma FromRawValue(l: LogLevel)
    ensures From(RawValue(l)) == l
  {
    LowerRawValue(l);
  }

  /** `OSLogType`, the system log's own five kinds. */
  datatype OSLogType = DebugLog | InfoLog | DefaultLog | ErrorLog | FaultLog

  /** `osLogType`: the kind of system-log message a level is written as. */
  function OsLogType(l: LogLevel): OSLogType {
    match l
    case Verbose | Debug => DebugLog
    case Info => InfoLog
    case Warning => DefaultLog
    case Error => ErrorLog
    case Critical => FaultLog
  }

  /** Two levels share a system log type exactly when both are verbose or debug, or they are equal. */
  lemma OsLogTypeShared(a: LogLevel, b: LogLevel)
    ensures OsLogType(a) == OsLogType(b) <==> a == b || (Rank(a) <= 1 && Rank(b) <= 1)
  {
  }

  /** `emoji`: the glyph shown before a console line. */
  function Emoji(l: LogLevel): string {
    match l
    case Verbose => "\U{1F50D}"
    case Debug => "\U{1F41B}"
    case Info => "\U{2139}\U{FE0F}"
    case Warning => "\U{26A0}\U{FE0F}"
    case Error => "\U{274C}"
    case Critical => "\U{1F6A8}"
  }

  /** No two levels share a glyph. */
  lemma EmojiInjective(a: LogLevel, b: LogLevel)
    requires Emoji(a) == Emoji(b)
    ensures a == b
  {
    assert Emoji(a)[0] == Emoji(b)[0];
  }

  /** The escape sequence that starts a level's ANSI terminal colour. */
  function ColorCode(l: LogLevel): string {
    match l
    case Verbose => "\U{001B}[0;36m"
    case Debug => "\U{001B}[0;34m"
    case Info => "\U{001B}[0;32m"
    case Warning => "\U{001B}[0;33m"
    case Error => "\U{001B}[0;31m"
    case Critical => "\U{001B}[0;35m"
  }

  /** `resetCode`: the escape sequence that ends a coloured line. */
  function ResetCode(l: LogLevel): string {
    "\U{001B}[0m"
  }

  /** Every level ends its colour with the same reset sequence, which is no level's colour. */
  lemma ResetCodeShared(a: LogLevel, b: LogLevel)
    ensures ResetCode(a) == ResetCode(b)
    ensures ResetCode(a) != ColorCode(b)
  {
  }

  /** A metadata value: the source stores strings and integers under `Any`. */
  datatype MetaValue = Str(s: string) | Num(n: int)

  /** Where a log call was made: `#file`, `#function` and `#line`. */
  datatype SourceLocation = SourceLocation(file: string, functionName: string, line: int)

  /** `LogEntry`, without its timestamp. */
  datatype LogEntry = LogEntry(
    level: LogLevel,
    message: string,
    category: string,
    location: SourceLocation,
    metadata: Option<map<string, MetaValue>>)
}
