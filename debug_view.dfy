/**
  The debug page's views of the log buffer: the entries matching the search
  box and the level tab, and the number of entries per level.
*/
module DebugView {
  import opened Text
  import opened DebugLogger
  import Seqs

  /** The level tab that shows every level. */
  const AllLevels: string := "all"

  /** The page's test for one entry: the message contains the query, ignoring case, and the level matches the tab. */
  predicate Matches(entry: LogEntry, query: string, level: string)
  {
    Contains(Lower(entry.message), Lower(query)) && (level == AllLevels || entry.level.Name() == level)
  }

  /** `Matches` as a function value. */
  function MatchesTest(query: string, level: string): LogEntry -> bool
  {
    (e: LogEntry) => Matches(e, query, level)
  }

  /** `filteredLogs`. */
  function FilteredLogs(logs: seq<LogEntry>, query: string, level: string): (shown: seq<LogEntry>)
    ensures Seqs.IsSubsequence(shown, logs)
    ensures forall e :: multiset(shown)[e] == if Matches(e, query, level) then multiset(logs)[e] else 0
  {
    Seqs.FilterIsSubsequence(logs, MatchesTest(query, level));
    Seqs.FilterMultiset(logs, MatchesTest(query, level));
    Seqs.Filter(logs, MatchesTest(query, level))
  }

  /** An entry is shown exactly when it is in the buffer and matches both the query and the tab. */
  lemma FilteredLogsExact(logs: seq<LogEntry>, query: string, level: string)
    ensures forall e :: e in FilteredLogs(logs, query, level) <==>
      e in logs && Contains(Lower(e.message), Lower(query)) && (level == AllLevels || e.level.Name() == level)
  {
    Seqs.FilterMembers(logs, MatchesTest(query, level));
  }

  /** Every string contains the empty string. */
  lemma ContainsEmpty(s: string)
    ensures Contains(s, "")
  {
    assert OccursAt(s, "", 0);
  }

  /** An empty search on the "all" tab shows the whole buffer. */
  lemma EmptySearchShowsAll(logs: seq<LogEntry>)
    ensures FilteredLogs(logs, "", AllLevels) == logs
  {
    forall k | 0 <= k < |logs| ensures MatchesTest("", AllLevels)(logs[k]) {
      ContainsEmpty(Lower(logs[k].message));
    }
    Seqs.FilterKeepsAll(logs, MatchesTest("", AllLevels));
  }

  /** The counts shown on the level tabs. */
  datatype LogCounts = LogCounts(all: nat, log: nat, info: nat, warn: nat, error: nat)

  /** The test `l.level === level`, as a function value. */
  function AtLevel(level: Level): LogEntry -> bool
  {
    (e: LogEntry) => e.level == level
  }

  /** `logCounts`. */
  function Counts(logs: seq<LogEntry>): LogCounts
  {
    LogCounts(
      |logs|,
      |Seqs.Filter(logs, AtLevel(Log))|,
      |Seqs.Filter(logs, AtLevel(Info))|,
      |Seqs.Filter(logs, AtLevel(Warn))|,
      |Seqs.Filter(logs, AtLevel(Error))|)
  }

  /** Each entry has exactly one of the four levels, so the per-level counts add up to the total. */
  lemma {:induction false} CountsAddUp(logs: seq<LogEntry>)
    ensures var c := Counts(logs); c.log + c.info + c.warn + c.error == c.all
  {
    if logs != [] {
      CountsAddUp(logs[1..]);
    }
  }

  /** Two tests that agree on every element filter alike. */
  lemma {:induction false} FilterAgree(s: seq<LogEntry>, p: LogEntry -> bool, q: LogEntry -> bool)
    requires forall k :: 0 <= k < |s| ==> p(s[k]) == q(s[k])
    ensures Seqs.Filter(s, p) == Seqs.Filter(s, q)
  {
    if s != [] {
      FilterAgree(s[1..], p, q);
    }
  }

  /** Each level's count is the number of entries its tab shows with an empty search. */
  lemma CountIsTabLength(logs: seq<LogEntry>, level: Level)
    ensures var c := Counts(logs);
      |FilteredLogs(logs, "", level.Name())| ==
        match level
        case Log => c.log
        case Info => c.info
        case Warn => c.warn
        case Error => c.error
  {
    forall k | 0 <= k < |logs|
      ensures MatchesTest("", level.Name())(logs[k]) == AtLevel(level)(logs[k])
    {
      ContainsEmpty(Lower(logs[k].message));
      assert logs[k].level.Name() == level.Name() <==> logs[k].level == level;
    }
    FilterAgree(logs, MatchesTest("", level.Name()), AtLevel(level));
  }
}
