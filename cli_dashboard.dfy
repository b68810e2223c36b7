/** The dashboard object of lib/services/cli-dashboard.js: its buffer of the
    most recent log lines, its settings, the proxies it displays and the
    rows of its table. The clock, the store and the layout of the terminal
    output are not modelled; the timestamp, the store's log level and its
    colour setting are parameters. */
module CliDashboard {
  import opened JsValues
  import opened DashboardStats

  const DefaultMaxLogLines: nat := 16

  /** `getLogLevelNumber`: the known levels in increasing severity;
      any other level is `undefined`. */
  function LogLevelNumber(logLevel: string): (n: Option<nat>)
    ensures n.Some? <==> logLevel == "debug" || logLevel == "info" || logLevel == "error"
    ensures n.Some? ==> 1 <= n.value <= 3
    ensures logLevel == "debug" ==> n == Some(1)
    ensures logLevel == "info" ==> n == Some(2)
    ensures logLevel == "error" ==> n == Some(3)
  {
    match logLevel
    case "debug" => Some(1)
    case "info" => Some(2)
    case "error" => Some(3)
    case _ => None
  }

  /** Line 50: a comparison with `undefined` is false both ways, so a line
      is dropped only when both levels are known and the store's is higher. */
  function IsSuppressed(storeLevel: string, logLevel: string): (r: bool)
    ensures r ==> LogLevelNumber(storeLevel).Some? && LogLevelNumber(logLevel).Some?
    ensures r ==> logLevel != "error" && storeLevel != "debug"
    ensures storeLevel == logLevel ==> !r
  {
    var store := LogLevelNumber(storeLevel);
    var level := LogLevelNumber(logLevel);
    store.Some? && level.Some? && store.value > level.value
  }

  /** Between known levels, a line gets through iff its level is at least the store's. */
  lemma SuppressionThreshold(storeLevel: string, logLevel: string)
    requires LogLevelNumber(storeLevel).Some? && LogLevelNumber(logLevel).Some?
    ensures !IsSuppressed(storeLevel, logLevel) <==> LogLevelNumber(logLevel).value >= LogLevelNumber(storeLevel).value
  {
  }

  /** At store level "error" only error lines get through; at "debug" every line does. */
  lemma SuppressionByStoreLevel(logLevel: string)
    ensures IsSuppressed("error", logLevel) <==> logLevel == "debug" || logLevel == "info"
    ensures !IsSuppressed("debug", logLevel)
    ensures IsSuppressed("info", logLevel) <==> logLevel == "debug"
  {
  }

  datatype Colour = Plain | Grey | Red

  datatype LogLine = LogLine(text: string, colour: Colour)

  /** Line 49: `<timestamp> [<LEVEL>]  <msg>`. */
  function LogText(timestamp: string, logLevel: string, msg: string): (r: string)
    ensures |r| == |timestamp| + |logLevel| + |msg| + 5
    ensures r[..|timestamp|] == timestamp
    ensures r[|timestamp|..|timestamp| + 2] == " ["
    ensures r[|timestamp| + 2..|timestamp| + 2 + |logLevel|] == Upper(logLevel)
    ensures r[|timestamp| + 2 + |logLevel|..|r| - |msg|] == "]  "
    ensures r[|r| - |msg|..] == msg
  {
    timestamp + " [" + Upper(logLevel) + "]  " + msg
  }

  /** Lines 53-63: what is pushed for a line that is not suppressed; nothing
      for a level the switch does not name. */
  function Pushed(logLevel: string, useColors: bool, text: string): (r: seq<LogLine>)
    ensures |r| <= 1
    ensures |r| == 1 <==> LogLevelNumber(logLevel).Some?
    ensures |r| == 1 ==> r[0].text == text
    ensures |r| == 1 ==> (r[0].colour != Plain <==> useColors && logLevel != "info")
    ensures |r| == 1 && r[0].colour != Plain ==> r[0].colour == (if logLevel == "debug" then Grey else Red)
  {
    match logLevel
    case "debug" => [LogLine(text, if useColors then Grey else Plain)]
    case "info" => [LogLine(text, Plain)]
    case "error" => [LogLine(text, if useColors then Red else Plain)]
    case _ => []
  }

  ghost predicate IsSuffix<T>(suffix: seq<T>, s: seq<T>) {
    |suffix| <= |s| && suffix == s[|s| - |suffix|..]
  }

  /** The buffer after truncation: the most recent `maxLogLines` lines. */
  function KeepMostRecent<T>(lines: seq<T>, maxLogLines: nat): (r: seq<T>)
    ensures |r| == if |lines| > maxLogLines then maxLogLines else |lines|
    ensures IsSuffix(r, lines)
  {
    if |lines| > maxLogLines then lines[|lines| - maxLogLines..] else lines
  }

  /** Lines 64-66 as written: `slice(maxLogLines * -1)`. With `maxLogLines` 0
      this is `slice(-0)`, which is `slice(0)`: the whole buffer. */
  function TruncateAsWritten<T>(lines: seq<T>, maxLogLines: nat): (r: seq<T>)
    ensures IsSuffix(r, lines)
    ensures maxLogLines >= 1 ==> |r| == if |lines| > maxLogLines then maxLogLines else |lines|
  {
    if |lines| > maxLogLines then SliceFrom(lines, maxLogLines * -1) else lines
  }

  /** With a limit of 0 the buffer as written keeps every line: it is never bounded. */
  lemma TruncateAsWrittenKeepsAllAtZero<T>(lines: seq<T>)
    ensures TruncateAsWritten(lines, 0) == lines
  {
  }

  /** For every limit of at least one the code as written and the corrected
      truncation agree. */
  lemma TruncateAsWrittenAgrees<T>(lines: seq<T>, maxLogLines: nat)
    requires maxLogLines >= 1
    ensures TruncateAsWritten(lines, maxLogLines) == KeepMostRecent(lines, maxLogLines)
  {
  }

  lemma SuffixTransitive<T>(a: seq<T>, b: seq<T>, c: seq<T>)
    requires IsSuffix(a, b) && IsSuffix(b, c)
    ensures IsSuffix(a, c)
  {
    assert c[|c| - |b|..][|b| - |a|..] == c[|c| - |a|..];
  }

  lemma SuffixAppend<T>(a: seq<T>, b: seq<T>, extra: seq<T>)
    requires IsSuffix(a, b)
    ensures IsSuffix(a + extra, b + extra)
  {
    assert (b + extra)[|b + extra| - |a + extra|..] == b[|b| - |a|..] + extra;
  }

  /** The newest line is always kept once the limit allows any line. */
  lemma {:induction false} KeepMostRecentKeepsNewest<T>(lines: seq<T>, line: T, maxLogLines: nat)
    requires maxLogLines >= 1
    ensures var r := KeepMostRecent(lines + [line], maxLogLines);
            |r| >= 1 && r[|r| - 1] == line
  {
    var r := KeepMostRecent(lines + [line], maxLogLines);
    assert r == (lines + [line])[|lines + [line]| - |r|..];
    assert r[|r| - 1] == (lines + [line])[|lines|];
  }

  class Dashboard {
    var maxLogLines: nat
    var extendedStats: bool
    var lastLogLines: seq<LogLine>
    /** `_proxies`: absent until the setter runs. */
    var proxies: Option<seq<Proxy>>
    var isSingleMiner: bool
    /** Every line ever pushed, oldest first. */
    ghost var logged: seq<LogLine>

    /** The single-miner flag follows the proxies, and the buffer holds the
        most recent pushed lines. */
    ghost predicate Valid()
      reads this
    {
      (isSingleMiner <==> proxies.Some? && |proxies.value| == 1) &&
      IsSuffix(lastLogLines, logged)
    }

    constructor ()
      ensures Valid()
      ensures maxLogLines == DefaultMaxLogLines && !extendedStats && lastLogLines == []
      ensures proxies == None && !isSingleMiner && logged == []
    {
      maxLogLines := DefaultMaxLogLines;
      extendedStats := false;
      lastLogLines := [];
      proxies := None;
      isSingleMiner := false;
      logged := [];
    }

    /** `onLogs`: a line that is not suppressed is pushed and the buffer is
        cut back to the most recent `maxLogLines` lines. */
    method OnLogs(logLevel: string, msg: string, storeLevel: string, useColors: bool, timestamp: string)
      requires Valid()
      modifies this
      ensures Valid()
      ensures maxLogLines == old(maxLogLines) && extendedStats == old(extendedStats)
      ensures proxies == old(proxies) && isSingleMiner == old(isSingleMiner)
      ensures IsSuppressed(storeLevel, logLevel) ==> lastLogLines == old(lastLogLines) && logged == old(logged)
      ensures !IsSuppressed(storeLevel, logLevel) ==>
                var pushed := Pushed(logLevel, useColors, LogText(timestamp, logLevel, msg));
                logged == old(logged) + pushed &&
                lastLogLines == KeepMostRecent(old(lastLogLines) + pushed, maxLogLines)
      ensures !IsSuppressed(storeLevel, logLevel) ==> |lastLogLines| <= maxLogLines
    {
      var logLine := LogText(timestamp, logLevel, msg);
      if IsSuppressed(storeLevel, logLevel) {
        return;
      }
      var pushed := Pushed(logLevel, useColors, logLine);
      var lines := lastLogLines + pushed;
      ghost var all := logged + pushed;
      SuffixAppend(lastLogLines, logged, pushed);
      if |lines| > maxLogLines {
        SuffixTransitive(KeepMostRecent(lines, maxLogLines), lines, all);
        lines := lines[|lines| - maxLogLines..];
      }
      lastLogLines := lines;
      logged := all;
    }

    /** `set proxies`. */
    method SetProxies(newProxies: seq<Proxy>)
      requires Valid()
      modifies this
      ensures Valid()
      ensures proxies == Some(newProxies) && (isSingleMiner <==> |newProxies| == 1)
      ensures maxLogLines == old(maxLogLines) && extendedStats == old(extendedStats)
      ensures lastLogLines == old(lastLogLines) && logged == old(logged)
    {
      proxies := Some(newProxies);
      isSingleMiner := |newProxies| == 1;
    }

    /** `start`: the configured limit and statistics mode take effect. */
    method Start(dashboardLogLines: nat, dashboardExtendedStats: bool)
      requires Valid()
      modifies this
      ensures Valid()
      ensures maxLogLines == dashboardLogLines && extendedStats == dashboardExtendedStats
      ensures proxies == old(proxies) && isSingleMiner == old(isSingleMiner)
      ensures lastLogLines == old(lastLogLines) && logged == old(logged)
    {
      maxLogLines := dashboardLogLines;
      extendedStats := dashboardExtendedStats;
    }

    /** The rows `buildTable` pushes. */
    method BuildTable() returns (rows: seq<TableRow>)
      ensures rows == TableRows(proxies, isSingleMiner)
    {
      if proxies.None? || !AllHaveUpstreams(proxies.value) {
        return [];
      }
      var upstreams := MergeUpstreams(Flatten(proxies.value));
      upstreams := AttachMiners(upstreams, proxies.value);
      rows := [];
      for j := 0 to |upstreams|
        invariant |rows| == j
        invariant forall k :: 0 <= k < j ==> rows[k] == TableRow(upstreams[k], ProgressCellOf(upstreams[k], isSingleMiner))
      {
        rows := rows + [TableRow(upstreams[j], ProgressCellOf(upstreams[j], isSingleMiner))];
      }
    }
  }
}
