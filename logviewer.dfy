/** The log viewer (src/components/LogViewer.tsx): the level filter, the case-insensitive
    search and the keep-the-newest step that decide which log entries are shown, the level
    toggle buttons, and the compact "recent logs" view.

    `String.prototype.toLowerCase` is Unicode case mapping; it is passed in as `lower`, and
    nothing is assumed about it. */
module LogViewer {
  import opened Types
  import opened Seqs
  import opened Strings

  const AllLevels: seq<LogLevel> := [Debug, Info, Warn, LogError]
  const DefaultMaxLogs: int := 500
  const DefaultMaxLines: int := 5

  /** The search stage's test (src/components/LogViewer.tsx:61-64): an empty query keeps every
      entry; otherwise the lower-cased message or source must contain the lower-cased query. */
  predicate MatchesSearch(log: LogEntry, query: string, lower: string -> string)
  {
    query == "" ||
    Contains(lower(log.message), lower(query)) ||
    (log.source.Some? && Contains(lower(log.source.value), lower(query)))
  }

  /** The level stage (src/components/LogViewer.tsx:59). */
  function ByLevel(logs: seq<LogEntry>, active: seq<LogLevel>): (r: seq<LogEntry>)
    ensures forall i :: 0 <= i < |r| ==> r[i].level in active
    ensures forall i :: 0 <= i < |logs| && logs[i].level in active ==> logs[i] in r
    ensures forall x :: multiset(r)[x] == if x.level in active then multiset(logs)[x] else 0
  {
    Filter(logs, (log: LogEntry) => log.level in active)
  }

  /** The search stage (src/components/LogViewer.tsx:60-65). */
  function BySearch(logs: seq<LogEntry>, query: string, lower: string -> string): (r: seq<LogEntry>)
    ensures forall i :: 0 <= i < |r| ==> MatchesSearch(r[i], query, lower)
    ensures forall i :: 0 <= i < |logs| && MatchesSearch(logs[i], query, lower) ==> logs[i] in r
    ensures forall x :: multiset(r)[x] == if MatchesSearch(x, query, lower) then multiset(logs)[x] else 0
  {
    Filter(logs, (log: LogEntry) => MatchesSearch(log, query, lower))
  }

  /** `filteredLogs` (src/components/LogViewer.tsx:57-67). */
  function FilteredLogs(logs: seq<LogEntry>, active: seq<LogLevel>, query: string, maxLogs: int,
                        lower: string -> string): (r: seq<LogEntry>)
    ensures |r| <= |logs|
    ensures forall i :: 0 <= i < |r| ==> r[i].level in active && MatchesSearch(r[i], query, lower)
  {
    Last(BySearch(ByLevel(logs, active), query, lower), maxLogs)
  }

  /** The shown entries are the logs with some deleted, in their original order. */
  lemma FilteredLogsIsSubsequence(logs: seq<LogEntry>, active: seq<LogLevel>, query: string,
                                  maxLogs: int, lower: string -> string)
    ensures IsSubsequence(FilteredLogs(logs, active, query, maxLogs, lower), logs)
  {
    var a := ByLevel(logs, active);
    var b := BySearch(a, query, lower);
    FilterIsSubsequence(logs, (log: LogEntry) => log.level in active);
    FilterIsSubsequence(a, (log: LogEntry) => MatchesSearch(log, query, lower));
    LastIsSubsequence(b, maxLogs);
    SubsequenceTransitive(b, a, logs);
    SubsequenceTransitive(Last(b, maxLogs), b, logs);
  }

  /** With an empty query the search stage keeps everything the level stage kept. */
  lemma EmptySearchKeepsAll(logs: seq<LogEntry>, active: seq<LogLevel>, maxLogs: int,
                            lower: string -> string)
    ensures FilteredLogs(logs, active, "", maxLogs, lower) == Last(ByLevel(logs, active), maxLogs)
  {
    FilterKeepsAll(ByLevel(logs, active), (log: LogEntry) => MatchesSearch(log, "", lower));
  }

  /** With a non-empty query, every shown entry's lower-cased message or source contains the
      lower-cased query. */
  lemma SearchMatchesShown(logs: seq<LogEntry>, active: seq<LogLevel>, query: string,
                           maxLogs: int, lower: string -> string)
    requires query != ""
    ensures forall i :: 0 <= i < |FilteredLogs(logs, active, query, maxLogs, lower)| ==>
      var log := FilteredLogs(logs, active, query, maxLogs, lower)[i];
      Contains(lower(log.message), lower(query)) ||
      (log.source.Some? && Contains(lower(log.source.value), lower(query)))
  {
  }

  /** For `maxLogs >= 1` at most `maxLogs` entries are shown: the newest of those passing both
      stages, so every passing entry among the last `maxLogs` of them is shown. */
  lemma FilteredLogsKeepsNewest(logs: seq<LogEntry>, active: seq<LogLevel>, query: string,
                                maxLogs: int, lower: string -> string)
    requires maxLogs >= 1
    ensures var passed := BySearch(ByLevel(logs, active), query, lower);
      var r := FilteredLogs(logs, active, query, maxLogs, lower);
      && |r| == Min(maxLogs, |passed|)
      && r == passed[|passed| - |r|..]
  {
  }

  /** `toggleFilter`'s update (src/components/LogViewer.tsx:77-79): remove every occurrence
      of an active level, or append an inactive one. */
  function Toggled(active: seq<LogLevel>, level: LogLevel): (r: seq<LogLevel>)
    ensures level in r <==> level !in active
    ensures forall l :: l != level ==> (l in r <==> l in active)
  {
    if level in active then
      var r := Filter(active, (l: LogLevel) => l != level);
      assert forall l :: l != level && l in active ==> l in r by {
        forall l | l != level && l in active
          ensures l in r
        {
          var i :| 0 <= i < |active| && active[i] == l;
        }
      }
      r
    else active + [level]
  }

  /** Toggling a level twice restores which levels are active. */
  lemma ToggleTwice(active: seq<LogLevel>, level: LogLevel)
    ensures forall l :: l in Toggled(Toggled(active, level), level) <==> l in active
  {
  }

  /** `CompactLog`'s entries (src/components/LogViewer.tsx:209): for `maxLines >= 1`, the last
      `maxLines` logs in order; `slice(-0)` makes 0 show them all. */
  function CompactLog(logs: seq<LogEntry>, maxLines: int): (r: seq<LogEntry>)
    ensures maxLines >= 1 ==> |r| == Min(maxLines, |logs|) && r == logs[|logs| - |r|..]
    ensures maxLines == 0 ==> r == logs
  {
    Last(logs, maxLines)
  }

  /** The viewer's state: the active levels and the search query. */
  class Viewer {
    const maxLogs: int
    var activeFilters: seq<LogLevel>
    var searchQuery: string

    /** The initial state (src/components/LogViewer.tsx:51-54). Any array is truthy in
        JavaScript, so a given filter, even an empty one, is used as is; without one all four
        levels are active. */
    constructor (filter: Option<seq<LogLevel>>, maxLogs: int)
      ensures this.maxLogs == maxLogs && searchQuery == ""
      ensures filter.Some? ==> activeFilters == filter.value
      ensures filter.None? ==> forall l: LogLevel :: l in activeFilters
    {
      this.maxLogs := maxLogs;
      activeFilters := if filter.Some? then filter.value else AllLevels;
      searchQuery := "";
      new;
      assert forall l: LogLevel :: l in AllLevels by {
        forall l: LogLevel
          ensures l in AllLevels
        {
          match l
          case Debug => assert AllLevels[0] == l;
          case Info => assert AllLevels[1] == l;
          case Warn => assert AllLevels[2] == l;
          case LogError => assert AllLevels[3] == l;
        }
      }
    }

    method SetSearchQuery(query: string)
      modifies this`searchQuery
      ensures searchQuery == query
    {
      searchQuery := query;
    }

    /** `toggleFilter` (src/components/LogViewer.tsx:76-80). */
    method ToggleFilter(level: LogLevel)
      modifies this`activeFilters
      ensures activeFilters == Toggled(old(activeFilters), level)
      ensures level in activeFilters <==> level !in old(activeFilters)
      ensures forall l :: l != level ==> (l in activeFilters <==> l in old(activeFilters))
    {
      activeFilters := Toggled(activeFilters, level);
    }

    /** The entries the viewer shows for `logs` in its current state. */
    function Shown(logs: seq<LogEntry>, lower: string -> string): (r: seq<LogEntry>)
      reads this
      ensures forall i :: 0 <= i < |r| ==> r[i].level in activeFilters
    {
      FilteredLogs(logs, activeFilters, searchQuery, maxLogs, lower)
    }
  }
}
