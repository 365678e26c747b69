/**
  The session administration view of src/components/UserSessions.tsx: all
  access-code sessions, newest first, each with the number of its saved ROI
  projects and strategy portfolios; a case-insensitive search on the access
  code; and totals over all sessions, where a missing count counts as 0.
 */
module UserSessionsView {
  import opened Common
  import opened Backend
  import opened Ordering
  import StrategyStorage

  /** A session as listed: its row and the two counts (`|| 0` applied). */
  datatype SessionSummary = SessionSummary(row: UserSessionRow, roiProjectsCount: int, strategySessionsCount: int)

  /** `{ ...session, roi_projects_count: roiCount || 0, strategy_sessions_count: strategyCount || 0 }`. */
  function Summarize(row: UserSessionRow, roiCount: Option<int>, strategyCount: Option<int>): (r: SessionSummary)
    ensures r.row == row
    ensures roiCount.None? ==> r.roiProjectsCount == 0
    ensures strategyCount.None? ==> r.strategySessionsCount == 0
    ensures roiCount.Some? ==> r.roiProjectsCount == roiCount.value
    ensures strategyCount.Some? ==> r.strategySessionsCount == strategyCount.value
  {
    SessionSummary(row, roiCount.GetOr(0), strategyCount.GetOr(0))
  }

  function SessionCreatedAt(row: UserSessionRow): int { row.createdAt }

  /** The summary of one row with the exact counts of the two count queries. */
  function Counted(row: UserSessionRow, tables: Tables): SessionSummary {
    Summarize(row, Some(|RoiRowsOf(tables.roiProjects, row.id)|),
              Some(|StrategyStorage.SessionsOf(tables.strategySessions, row.id)|))
  }

  function CountedAll(rows: seq<UserSessionRow>, tables: Tables): (r: seq<SessionSummary>)
    ensures |r| == |rows|
    ensures forall i :: 0 <= i < |rows| ==> r[i] == Counted(rows[i], tables)
  {
    if rows == [] then [] else [Counted(rows[0], tables)] + CountedAll(rows[1..], tables)
  }

  /**
    `loadSessions`: the `sessions` list after a load. On an error the list
    shown before (`previous`) stays; otherwise it becomes every session,
    newest first, with its counts.
   */
  function LoadSessions(previous: seq<SessionSummary>, tables: Tables, loadFails: bool): (r: seq<SessionSummary>)
    ensures loadFails ==> r == previous
    ensures !loadFails ==> |r| == |tables.userSessions|
  {
    if loadFails then previous
    else CountedAll(SortDesc(tables.userSessions, SessionCreatedAt), tables)
  }

  /** `filteredSessions`: the sessions whose lower-cased code contains the lower-cased search text. */
  function FilterByCode(sessions: seq<SessionSummary>, search: string): (r: seq<SessionSummary>)
    ensures |r| <= |sessions|
    ensures forall x :: x in r <==> x in sessions && Contains(Lower(x.row.accessCode), Lower(search))
  {
    if sessions == [] then []
    else if Contains(Lower(sessions[0].row.accessCode), Lower(search)) then
      [sessions[0]] + FilterByCode(sessions[1..], search)
    else FilterByCode(sessions[1..], search)
  }

  /** The four summed columns of the statistics cards. */
  datatype Measure = BenchmarkClicksTotal | SuggestionClicksTotal | RoiProjectsTotal | StrategySessionsTotal

  /** One session's contribution to a total; a null click counter counts as 0. */
  function Amount(s: SessionSummary, m: Measure): (r: int)
    ensures m == BenchmarkClicksTotal && s.row.benchmarkClicks.None? ==> r == 0
    ensures m == SuggestionClicksTotal && s.row.projectSuggestionsClicks.None? ==> r == 0
    ensures m == RoiProjectsTotal ==> r == s.roiProjectsCount
    ensures m == StrategySessionsTotal ==> r == s.strategySessionsCount
  {
    match m
    case BenchmarkClicksTotal => s.row.benchmarkClicks.GetOr(0)
    case SuggestionClicksTotal => s.row.projectSuggestionsClicks.GetOr(0)
    case RoiProjectsTotal => s.roiProjectsCount
    case StrategySessionsTotal => s.strategySessionsCount
  }

  /** `sessions.reduce((sum, session) => sum + (value || 0), 0)`. */
  function Total(sessions: seq<SessionSummary>, m: Measure): (r: int)
    ensures sessions == [] ==> r == 0
    ensures |sessions| == 1 ==> r == Amount(sessions[0], m)
  {
    if sessions == [] then 0 else Amount(sessions[0], m) + Total(sessions[1..], m)
  }

  datatype Statistics = Statistics(
    totalUsers: int,
    totalBenchmarkClicks: int,
    totalProjectSuggestionClicks: int,
    totalRoiProjects: int,
    totalStrategyProjects: int)

  /** The statistics cards: computed over all sessions, whatever the search text. */
  function Stats(sessions: seq<SessionSummary>): (r: Statistics)
    ensures r.totalUsers == |sessions|
  {
    Statistics(|sessions|, Total(sessions, BenchmarkClicksTotal), Total(sessions, SuggestionClicksTotal),
               Total(sessions, RoiProjectsTotal), Total(sessions, StrategySessionsTotal))
  }

  // ---------------------------------------------------------------------------
  // Properties

  /** The filter keeps order: filtering two lists joined is joining their filtered lists. */
  lemma {:induction false} FilterAppend(a: seq<SessionSummary>, b: seq<SessionSummary>, search: string)
    ensures FilterByCode(a + b, search) == FilterByCode(a, search) + FilterByCode(b, search)
  {
    if a == [] {
      assert a + b == b;
    } else {
      assert (a + b)[0] == a[0] && (a + b)[1..] == a[1..] + b;
      FilterAppend(a[1..], b, search);
    }
  }

  /** An empty search keeps every session, in order. */
  lemma {:induction false} EmptySearchKeepsAll(sessions: seq<SessionSummary>)
    ensures FilterByCode(sessions, "") == sessions
  {
    if sessions != [] {
      EmptySearchKeepsAll(sessions[1..]);
    }
  }

  /** The search ignores letter case, in the search text as in the codes. */
  lemma {:induction false} SearchIgnoresCase(sessions: seq<SessionSummary>, a: string, b: string)
    requires Lower(a) == Lower(b)
    ensures FilterByCode(sessions, a) == FilterByCode(sessions, b)
  {
    if sessions != [] {
      SearchIgnoresCase(sessions[1..], a, b);
    }
  }

  /** Filtering twice with the same text is filtering once. */
  lemma {:induction false} FilterIdempotent(sessions: seq<SessionSummary>, search: string)
    ensures FilterByCode(FilterByCode(sessions, search), search) == FilterByCode(sessions, search)
  {
    if sessions != [] {
      FilterIdempotent(sessions[1..], search);
    }
  }

  /** Totals add up over joined lists. */
  lemma {:induction false} TotalAppend(a: seq<SessionSummary>, b: seq<SessionSummary>, m: Measure)
    ensures Total(a + b, m) == Total(a, m) + Total(b, m)
  {
    if a == [] {
      assert a + b == b;
    } else {
      assert (a + b)[1..] == a[1..] + b;
      TotalAppend(a[1..], b, m);
    }
  }

  /** With no negative count, every total is non-negative and at least each session's share. */
  lemma {:induction false} TotalNonNegative(sessions: seq<SessionSummary>, m: Measure)
    requires forall i :: 0 <= i < |sessions| ==> Amount(sessions[i], m) >= 0
    ensures Total(sessions, m) >= 0
    ensures forall i :: 0 <= i < |sessions| ==> Amount(sessions[i], m) <= Total(sessions, m)
  {
    if sessions != [] {
      TotalNonNegative(sessions[1..], m);
      forall i | 1 <= i < |sessions| ensures Amount(sessions[i], m) <= Total(sessions, m) {
        assert sessions[1..][i - 1] == sessions[i];
      }
    }
  }

  /** With no negative count, the sessions a search shows never add up to more than all sessions. */
  lemma {:induction false} FilteredTotalAtMost(sessions: seq<SessionSummary>, search: string, m: Measure)
    requires forall i :: 0 <= i < |sessions| ==> Amount(sessions[i], m) >= 0
    ensures Total(FilterByCode(sessions, search), m) <= Total(sessions, m)
  {
    if sessions != [] {
      FilteredTotalAtMost(sessions[1..], search, m);
    }
  }

  /** A session whose counters were never set adds 0 to the click totals. */
  lemma NullCountersAddNothing(sessions: seq<SessionSummary>, s: SessionSummary)
    requires s.row.benchmarkClicks.None? && s.row.projectSuggestionsClicks.None?
    ensures Total(sessions + [s], BenchmarkClicksTotal) == Total(sessions, BenchmarkClicksTotal)
    ensures Total(sessions + [s], SuggestionClicksTotal) == Total(sessions, SuggestionClicksTotal)
  {
    TotalAppend(sessions, [s], BenchmarkClicksTotal);
    TotalAppend(sessions, [s], SuggestionClicksTotal);
  }

  /** The loaded list holds every session once, newest first, each with its exact counts. */
  lemma LoadedSessions(previous: seq<SessionSummary>, tables: Tables)
    ensures var r := LoadSessions(previous, tables, false);
            && |r| == |tables.userSessions|
            && (forall x :: x in tables.userSessions <==> exists i :: 0 <= i < |r| && r[i].row == x)
            && (forall i, j :: 0 <= i < j < |r| ==> r[i].row.createdAt >= r[j].row.createdAt)
            && (forall i :: 0 <= i < |r| ==>
                  && r[i].roiProjectsCount == |RoiRowsOf(tables.roiProjects, r[i].row.id)|
                  && r[i].strategySessionsCount == |StrategyStorage.SessionsOf(tables.strategySessions, r[i].row.id)|)
  {
    var sorted := SortDesc(tables.userSessions, SessionCreatedAt);
    var r := LoadSessions(previous, tables, false);
    assert r == CountedAll(sorted, tables);
    assert forall i :: 0 <= i < |r| ==> r[i] == Counted(sorted[i], tables) && r[i].row == sorted[i];
    forall x | x in tables.userSessions ensures exists i :: 0 <= i < |r| && r[i].row == x {
      assert x in multiset(sorted);
      var i :| 0 <= i < |sorted| && sorted[i] == x;
      assert r[i].row == x;
    }
    forall x | (exists i :: 0 <= i < |r| && r[i].row == x) ensures x in tables.userSessions {
      var i :| 0 <= i < |r| && r[i].row == x;
      assert sorted[i] in multiset(sorted);
    }
    forall i, j | 0 <= i < j < |r| ensures r[i].row.createdAt >= r[j].row.createdAt {
      assert SessionCreatedAt(sorted[i]) >= SessionCreatedAt(sorted[j]);
    }
  }

  /** The statistics do not depend on the search; only the list does. */
  lemma StatsIgnoreSearch(sessions: seq<SessionSummary>, search: string)
    ensures Stats(sessions).totalUsers == |sessions| >= |FilterByCode(sessions, search)|
  {
  }
}
