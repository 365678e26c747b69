/**
  The strategy portfolio of src/hooks/useStrategyStorage.ts. A portfolio is
  a `strategy_sessions` row of the current session with its
  `strategy_projects` rows. Saving updates the portfolio row the hook holds,
  or inserts a new one, and then replaces (never merges) its project rows
  when a non-empty project list is given: delete all, insert all. Loading
  picks the session's newest portfolio and its projects, newest first.
 */
module StrategyStorage {
  import opened Common
  import opened Backend
  import opened Ordering

  /** The hook's `StrategyProject`; `category` is the stored text, cast without a check. */
  datatype StrategyProject = StrategyProject(
    id: Option<Id>,
    name: string,
    impact: int,
    complexity: int,
    category: string,
    selected: bool,
    description: Option<string>,
    expectedReturn: Option<string>)

  datatype StrategySession = StrategySession(
    id: Option<Id>,
    portfolioName: string,
    contextHistory: Option<string>,
    contextInitiatives: Option<string>,
    projects: seq<StrategyProject>)

  /** `Partial<StrategySession>` as `saveStrategySession` reads it (its `id` is not read). */
  datatype SessionData = SessionData(
    portfolioName: Option<string>,
    contextHistory: Option<string>,
    contextInitiatives: Option<string>,
    projects: Option<seq<StrategyProject>>)

  /** Which of the backend calls of a save (and of the reload after it) fail. */
  datatype StrategyFaults = StrategyFaults(
    updateFails: bool,
    createFails: bool,
    deleteFails: bool,
    insertFails: bool,
    sessionsLoadFails: bool,
    projectsLoadFails: bool)

  const DefaultPortfolioName: string := "Novo Portfólio"

  function SessionCreatedAt(row: StrategySessionRow): int { row.createdAt }
  function ProjectCreatedAt(row: StrategyProjectRow): int { row.createdAt }

  /** `.eq('session_id', sessionId)` on `strategy_sessions`. */
  function SessionsOf(rows: seq<StrategySessionRow>, sessionId: Id): (r: seq<StrategySessionRow>)
    ensures forall x :: x in r <==> x in rows && x.sessionId == sessionId
  {
    if rows == [] then []
    else if rows[0].sessionId == sessionId then [rows[0]] + SessionsOf(rows[1..], sessionId)
    else SessionsOf(rows[1..], sessionId)
  }

  /** `.eq('strategy_session_id', id)` on `strategy_projects`. */
  function ProjectsOf(rows: seq<StrategyProjectRow>, strategySessionId: Id): (r: seq<StrategyProjectRow>)
    ensures forall x :: x in r <==> x in rows && x.strategySessionId == strategySessionId
  {
    if rows == [] then []
    else if rows[0].strategySessionId == strategySessionId then [rows[0]] + ProjectsOf(rows[1..], strategySessionId)
    else ProjectsOf(rows[1..], strategySessionId)
  }

  /** `.delete().eq('strategy_session_id', id)`. */
  function RemoveProjectsOf(rows: seq<StrategyProjectRow>, strategySessionId: Id): (r: seq<StrategyProjectRow>)
    ensures forall x :: x in r <==> x in rows && x.strategySessionId != strategySessionId
  {
    if rows == [] then []
    else if rows[0].strategySessionId == strategySessionId then RemoveProjectsOf(rows[1..], strategySessionId)
    else [rows[0]] + RemoveProjectsOf(rows[1..], strategySessionId)
  }

  /** A project row read back: empty or null texts become absent. */
  function FromRow(row: StrategyProjectRow): (r: StrategyProject)
    ensures r.id == Some(row.id) && r.name == row.name && r.category == row.category
    ensures r.impact == row.impact && r.complexity == row.complexity && r.selected == row.selected
    ensures r.description == OrUndefined(row.description) && r.expectedReturn == OrUndefined(row.expectedReturn)
    ensures r.description.Some? ==> r.description.value != ""
    ensures r.expectedReturn.Some? ==> r.expectedReturn.value != ""
  {
    StrategyProject(Some(row.id), row.name, row.impact, row.complexity, row.category, row.selected,
                    OrUndefined(row.description), OrUndefined(row.expectedReturn))
  }

  function FromRows(rows: seq<StrategyProjectRow>): (r: seq<StrategyProject>)
    ensures |r| == |rows|
    ensures forall i :: 0 <= i < |rows| ==> r[i] == FromRow(rows[i])
  {
    if rows == [] then [] else [FromRow(rows[0])] + FromRows(rows[1..])
  }

  /**
    `currentSession` after `loadStrategyData`: unchanged without a session, on a
    failed portfolio query, or when the session has no portfolio; otherwise
    the newest portfolio, with its projects newest first (none when the
    project query fails).
   */
  function Loaded(current: Option<StrategySession>, tables: Tables, sessionId: Option<Id>,
                  sessionsLoadFails: bool, projectsLoadFails: bool): (r: Option<StrategySession>)
    ensures !Truthy(sessionId) || sessionsLoadFails ==> r == current
    ensures r == current || (r.Some? && r.value.id.Some? &&
              exists row :: row in tables.strategySessions && row.sessionId == sessionId.value && Some(row.id) == r.value.id)
    ensures r != current && projectsLoadFails ==> r.value.projects == []
  {
    if !Truthy(sessionId) || sessionsLoadFails then current
    else
      var mine := SessionsOf(tables.strategySessions, sessionId.value);
      if mine == [] then current
      else
        var newest := SortDesc(mine, SessionCreatedAt)[0];
        assert newest in multiset(SortDesc(mine, SessionCreatedAt));
        var projectRows := if projectsLoadFails then []
                           else SortDesc(ProjectsOf(tables.strategyProjects, newest.id), ProjectCreatedAt);
        Some(StrategySession(Some(newest.id), newest.portfolioName, OrUndefined(newest.contextHistory),
                             OrUndefined(newest.contextInitiatives), FromRows(projectRows)))
  }

  /** `sessionData.portfolio_name || 'Novo Portfólio'`. */
  function PortfolioName(data: SessionData): (r: string)
    ensures r != ""
    ensures data.portfolioName.Some? && data.portfolioName.value != "" ==> r == data.portfolioName.value
  {
    if Truthy(data.portfolioName) then data.portfolioName.value else DefaultPortfolioName
  }

  /**
    A portfolio row after `.update({...})`: the name is always written;
    absent context fields are dropped from the request body and keep their
    stored values.
   */
  function UpdatedRow(row: StrategySessionRow, data: SessionData): (r: StrategySessionRow)
    ensures r.id == row.id && r.sessionId == row.sessionId && r.createdAt == row.createdAt
    ensures r.portfolioName != ""
    ensures data.contextHistory.None? ==> r.contextHistory == row.contextHistory
    ensures data.contextInitiatives.None? ==> r.contextInitiatives == row.contextInitiatives
  {
    row.(portfolioName := PortfolioName(data),
         contextHistory := if data.contextHistory.Some? then data.contextHistory else row.contextHistory,
         contextInitiatives := if data.contextInitiatives.Some? then data.contextInitiatives else row.contextInitiatives)
  }

  /** `.update({...}).eq('id', id)`: every row with that id is updated, no other. */
  function UpdateSessionRows(rows: seq<StrategySessionRow>, id: Id, data: SessionData): (r: seq<StrategySessionRow>)
    ensures |r| == |rows|
    ensures forall i :: 0 <= i < |rows| ==> r[i] == (if rows[i].id == id then UpdatedRow(rows[i], data) else rows[i])
  {
    if rows == [] then []
    else [if rows[0].id == id then UpdatedRow(rows[0], data) else rows[0]] + UpdateSessionRows(rows[1..], id, data)
  }

  function NewSessionRow(id: Id, sessionId: Id, data: SessionData, now: int): StrategySessionRow {
    StrategySessionRow(id, sessionId, PortfolioName(data), data.contextHistory, data.contextInitiatives, now)
  }

  /** The rows `projectsToInsert` describes: the supplied projects' own ids are not sent. */
  function NewProjectRows(strategySessionId: Id, projects: seq<StrategyProject>, idFor: nat -> Id, now: int)
    : (r: seq<StrategyProjectRow>)
    ensures |r| == |projects|
    ensures forall i :: 0 <= i < |projects| ==>
              r[i] == StrategyProjectRow(idFor(i), strategySessionId, projects[i].name, projects[i].impact,
                                         projects[i].complexity, projects[i].category, projects[i].selected,
                                         projects[i].description, projects[i].expectedReturn, now)
  {
    seq(|projects|, i requires 0 <= i < |projects| =>
      StrategyProjectRow(idFor(i), strategySessionId, projects[i].name, projects[i].impact, projects[i].complexity,
                         projects[i].category, projects[i].selected, projects[i].description,
                         projects[i].expectedReturn, now))
  }

  /**
    `strategy_projects` after the project step of a save. Without a non-empty
    list nothing happens. The delete's outcome is not checked, so a failed
    delete is followed by the insert all the same; a failed insert is only logged.
   */
  function ProjectsAfterSave(rows: seq<StrategyProjectRow>, strategySessionId: Id, projects: Option<seq<StrategyProject>>,
                             deleteFails: bool, insertFails: bool, idFor: nat -> Id, now: int): (r: seq<StrategyProjectRow>)
    ensures forall x :: x in rows && x.strategySessionId != strategySessionId ==> x in r
    ensures forall x :: x in r && x.strategySessionId != strategySessionId ==> x in rows
  {
    if projects.None? || projects.value == [] then rows
    else
      var afterDelete := if deleteFails then rows else RemoveProjectsOf(rows, strategySessionId);
      if insertFails then afterDelete else afterDelete + NewProjectRows(strategySessionId, projects.value, idFor, now)
  }

  /** The id of the portfolio a save updates: `currentSession?.id` when truthy. */
  function TargetOf(current: Option<StrategySession>): (r: Option<Id>)
    ensures r.Some? ==> current.Some? && current.value.id == r && r.value != ""
    ensures current.None? ==> r.None?
    ensures current.Some? && Truthy(current.value.id) ==> r == current.value.id
  {
    if current.Some? && Truthy(current.value.id) then current.value.id else None
  }

  datatype SaveResult = SaveResult(returned: Option<Id>, tables: Tables)

  /** What `saveStrategySession` returns and leaves in the tables (before its reload). */
  function SaveEffect(tables: Tables, current: Option<StrategySession>, sessionId: Option<Id>, data: SessionData,
                      newId: Id, now: int, idFor: nat -> Id, faults: StrategyFaults): (r: SaveResult)
    ensures !Truthy(sessionId) ==> r.returned.None?
    ensures r.returned.None? ==> r.tables == tables
    ensures r.tables.userSessions == tables.userSessions && r.tables.roiProjects == tables.roiProjects
    ensures r.returned.Some? && TargetOf(current).Some? ==> r.returned == TargetOf(current)
    ensures r.returned.Some? && TargetOf(current).None? ==> r.returned == Some(newId)
    ensures r.returned.Some? <==>
              Truthy(sessionId) && (if TargetOf(current).Some? then !faults.updateFails else !faults.createFails)
    ensures r.returned.Some? ==>
              && r.tables.strategySessions
                 == (if TargetOf(current).Some? then UpdateSessionRows(tables.strategySessions, r.returned.value, data)
                     else tables.strategySessions + [NewSessionRow(newId, sessionId.value, data, now)])
              && r.tables.strategyProjects
                 == ProjectsAfterSave(tables.strategyProjects, r.returned.value, data.projects, faults.deleteFails,
                                      faults.insertFails, idFor, now)
  {
    if !Truthy(sessionId) then SaveResult(None, tables)
    else
      var target := TargetOf(current);
      if target.Some? && faults.updateFails then SaveResult(None, tables)
      else if target.None? && faults.createFails then SaveResult(None, tables)
      else
        var id := if target.Some? then target.value else newId;
        var sessions := if target.Some? then UpdateSessionRows(tables.strategySessions, id, data)
                        else tables.strategySessions + [NewSessionRow(newId, sessionId.value, data, now)];
        var projects := ProjectsAfterSave(tables.strategyProjects, id, data.projects, faults.deleteFails,
                                          faults.insertFails, idFor, now);
        SaveResult(Some(id), tables.(strategySessions := sessions, strategyProjects := projects))
  }

  class StrategyStore {
    const sessionId: Option<Id>
    var currentSession: Option<StrategySession>

    constructor (sessionId: Option<Id>)
      ensures this.sessionId == sessionId && currentSession == None
    {
      this.sessionId := sessionId;
      currentSession := None;
    }

    /** `loadStrategyData`. */
    method LoadStrategyData(db: Database, sessionsLoadFails: bool, projectsLoadFails: bool)
      modifies this
      ensures currentSession == Loaded(old(currentSession), db.tables, sessionId, sessionsLoadFails, projectsLoadFails)
    {
      if !Truthy(sessionId) || sessionsLoadFails {
        return;
      }
      var sessions := SessionsOf(db.tables.strategySessions, sessionId.value);
      if sessions == [] {
        return;
      }
      var session := SortDesc(sessions, SessionCreatedAt)[0];
      var projectsData: seq<StrategyProjectRow> := [];
      if !projectsLoadFails {
        projectsData := SortDesc(ProjectsOf(db.tables.strategyProjects, session.id), ProjectCreatedAt);
      }
      var mappedProjects := FromRows(projectsData);
      currentSession := Some(StrategySession(Some(session.id), session.portfolioName, OrUndefined(session.contextHistory),
                                             OrUndefined(session.contextInitiatives), mappedProjects));
    }

    /** `saveStrategySession`: update or insert the portfolio, replace its projects, reload. */
    method SaveStrategySession(db: Database, data: SessionData, newId: Id, now: int, idFor: nat -> Id,
                               faults: StrategyFaults) returns (r: Option<Id>)
      modifies this, db
      ensures var effect := SaveEffect(old(db.tables), old(currentSession), sessionId, data, newId, now, idFor, faults);
              && r == effect.returned
              && db.tables == effect.tables
              && currentSession == if r.None? then old(currentSession)
                                   else Loaded(old(currentSession), db.tables, sessionId,
                                               faults.sessionsLoadFails, faults.projectsLoadFails)
    {
      if !Truthy(sessionId) {
        return None;
      }
      var strategySessionId := TargetOf(currentSession);
      var id: Id;
      if strategySessionId.Some? {
        if faults.updateFails {
          return None;
        }
        id := strategySessionId.value;
        db.tables := db.tables.(strategySessions := UpdateSessionRows(db.tables.strategySessions, id, data));
      } else {
        if faults.createFails {
          return None;
        }
        db.tables := db.tables.(strategySessions :=
                                  db.tables.strategySessions + [NewSessionRow(newId, sessionId.value, data, now)]);
        id := newId;
      }
      if data.projects.Some? && data.projects.value != [] {
        if !faults.deleteFails {
          db.tables := db.tables.(strategyProjects := RemoveProjectsOf(db.tables.strategyProjects, id));
        }
        if !faults.insertFails {
          db.tables := db.tables.(strategyProjects :=
                                    db.tables.strategyProjects + NewProjectRows(id, data.projects.value, idFor, now));
        }
      }
      LoadStrategyData(db, faults.sessionsLoadFails, faults.projectsLoadFails);
      r := Some(id);
    }
  }

  // ---------------------------------------------------------------------------
  // Properties of the project replacement

  lemma {:induction false} ProjectsOfAppend(a: seq<StrategyProjectRow>, b: seq<StrategyProjectRow>, id: Id)
    ensures ProjectsOf(a + b, id) == ProjectsOf(a, id) + ProjectsOf(b, id)
  {
    if a == [] {
      assert a + b == b;
    } else {
      assert (a + b)[1..] == a[1..] + b;
      ProjectsOfAppend(a[1..], b, id);
    }
  }

  lemma {:induction false} ProjectsOfRemoved(rows: seq<StrategyProjectRow>, removed: Id, id: Id)
    ensures ProjectsOf(RemoveProjectsOf(rows, removed), id) == if id == removed then [] else ProjectsOf(rows, id)
  {
    if rows != [] {
      ProjectsOfRemoved(rows[1..], removed, id);
      if rows[0].strategySessionId != removed {
        assert RemoveProjectsOf(rows, removed)[1..] == RemoveProjectsOf(rows[1..], removed);
      }
    }
  }

  lemma ProjectsOfNew(strategySessionId: Id, projects: seq<StrategyProject>, idFor: nat -> Id, now: int, id: Id)
    ensures ProjectsOf(NewProjectRows(strategySessionId, projects, idFor, now), id)
            == if id == strategySessionId then NewProjectRows(strategySessionId, projects, idFor, now) else []
  {
    AllOfOneSession(NewProjectRows(strategySessionId, projects, idFor, now), strategySessionId, id);
  }

  lemma {:induction false} AllOfOneSession(rows: seq<StrategyProjectRow>, owner: Id, id: Id)
    requires forall i :: 0 <= i < |rows| ==> rows[i].strategySessionId == owner
    ensures ProjectsOf(rows, id) == if id == owner then rows else []
  {
    if rows != [] {
      AllOfOneSession(rows[1..], owner, id);
    }
  }

  /**
    With a non-empty list and no failure, the portfolio's project rows are
    afterwards exactly the supplied projects, in order: delete-all then
    insert-all, never a merge. Every other portfolio keeps its rows.
   */
  lemma SaveReplacesProjects(rows: seq<StrategyProjectRow>, id: Id, projects: seq<StrategyProject>,
                             idFor: nat -> Id, now: int, other: Id)
    requires projects != [] && other != id
    ensures ProjectsOf(ProjectsAfterSave(rows, id, Some(projects), false, false, idFor, now), id)
            == NewProjectRows(id, projects, idFor, now)
    ensures ProjectsOf(ProjectsAfterSave(rows, id, Some(projects), false, false, idFor, now), other)
            == ProjectsOf(rows, other)
  {
    var inserted := NewProjectRows(id, projects, idFor, now);
    ProjectsOfAppend(RemoveProjectsOf(rows, id), inserted, id);
    ProjectsOfAppend(RemoveProjectsOf(rows, id), inserted, other);
    ProjectsOfRemoved(rows, id, id);
    ProjectsOfRemoved(rows, id, other);
    ProjectsOfNew(id, projects, idFor, now, id);
    ProjectsOfNew(id, projects, idFor, now, other);
  }

  /** With an absent or empty list, the project rows are not touched, whatever fails. */
  lemma EmptyListKeepsProjects(rows: seq<StrategyProjectRow>, id: Id, projects: Option<seq<StrategyProject>>,
                               deleteFails: bool, insertFails: bool, idFor: nat -> Id, now: int)
    requires projects.None? || projects.value == []
    ensures ProjectsAfterSave(rows, id, projects, deleteFails, insertFails, idFor, now) == rows
  {
  }

  /**
    The delete's error is ignored: when it fails and the insert succeeds, the
    portfolio ends up with its old project rows followed by the new ones.
   */
  lemma FailedDeleteMerges(rows: seq<StrategyProjectRow>, id: Id, projects: seq<StrategyProject>, idFor: nat -> Id, now: int)
    requires projects != []
    ensures ProjectsOf(ProjectsAfterSave(rows, id, Some(projects), true, false, idFor, now), id)
            == ProjectsOf(rows, id) + NewProjectRows(id, projects, idFor, now)
  {
    ProjectsOfAppend(rows, NewProjectRows(id, projects, idFor, now), id);
    ProjectsOfNew(id, projects, idFor, now, id);
  }

  /** A missing or empty portfolio name is stored as 'Novo Portfólio'; any other is kept. */
  lemma DefaultNameApplied(data: SessionData)
    ensures PortfolioName(data) == (if data.portfolioName.None? || data.portfolioName.value == "" then DefaultPortfolioName
                                    else data.portfolioName.value)
    ensures PortfolioName(data) != ""
  {
  }

  /** Without a session, or when the update or the insert of the portfolio fails, a save returns null and changes nothing. */
  lemma SaveFailsCleanly(tables: Tables, current: Option<StrategySession>, sessionId: Option<Id>, data: SessionData,
                         newId: Id, now: int, idFor: nat -> Id, faults: StrategyFaults)
    requires !Truthy(sessionId) || (TargetOf(current).Some? && faults.updateFails)
             || (TargetOf(current).None? && faults.createFails)
    ensures SaveEffect(tables, current, sessionId, data, newId, now, idFor, faults) == SaveResult(None, tables)
  {
  }

  /** A failed project insert is only logged: the save still returns the portfolio id. */
  lemma ProjectInsertErrorStillReturnsId(tables: Tables, current: Option<StrategySession>, sessionId: Option<Id>,
                                         data: SessionData, newId: Id, now: int, idFor: nat -> Id, faults: StrategyFaults)
    requires Truthy(sessionId) && !faults.updateFails && !faults.createFails && faults.insertFails
    ensures SaveEffect(tables, current, sessionId, data, newId, now, idFor, faults).returned
            == Some(if TargetOf(current).Some? then TargetOf(current).value else newId)
  {
  }

  /**
    An update of the portfolio the hook holds, with a non-empty list and no
    failure: the save returns the held id, updates that row in place, and
    replaces its project rows with the new list; every other portfolio keeps
    its projects.
   */
  lemma SaveUpdatesExisting(tables: Tables, current: Option<StrategySession>, sessionId: Id, data: SessionData,
                            newId: Id, now: int, idFor: nat -> Id, target: Id, other: Id)
    requires current.Some? && current.value.id == Some(target) && target != ""
    requires sessionId != ""
    requires data.projects.Some? && data.projects.value != []
    requires other != target
    ensures var faults := StrategyFaults(false, false, false, false, false, false);
            var effect := SaveEffect(tables, current, Some(sessionId), data, newId, now, idFor, faults);
            && effect.returned == Some(target)
            && effect.tables.strategySessions == UpdateSessionRows(tables.strategySessions, target, data)
            && ProjectsOf(effect.tables.strategyProjects, target) == NewProjectRows(target, data.projects.value, idFor, now)
            && ProjectsOf(effect.tables.strategyProjects, other) == ProjectsOf(tables.strategyProjects, other)
  {
    SaveReplacesProjects(tables.strategyProjects, target, data.projects.value, idFor, now, other);
  }

  // ---------------------------------------------------------------------------
  // Load

  /**
    What `loadStrategyData` picks, for every table: with no portfolio of the
    session the held one stays; otherwise the result is a portfolio of the
    session that no other of its portfolios is newer than, with its name,
    its contexts (empty read as absent) and its project rows newest first
    (none when the project query fails).
   */
  lemma LoadPicksNewest(current: Option<StrategySession>, tables: Tables, sessionId: Id, projectsLoadFails: bool)
    requires sessionId != ""
    ensures var r := Loaded(current, tables, Some(sessionId), false, projectsLoadFails);
            var mine := SessionsOf(tables.strategySessions, sessionId);
            && (mine == [] ==> r == current)
            && (mine != [] ==>
                  && r.Some?
                  && exists row :: row in mine && r.value.id == Some(row.id)
                       && (forall y :: y in mine ==> y.createdAt <= row.createdAt)
                       && r.value.portfolioName == row.portfolioName
                       && r.value.contextHistory == OrUndefined(row.contextHistory)
                       && r.value.contextInitiatives == OrUndefined(row.contextInitiatives)
                       && r.value.projects
                          == FromRows(if projectsLoadFails then []
                                      else SortDesc(ProjectsOf(tables.strategyProjects, row.id), ProjectCreatedAt)))
  {
    var mine := SessionsOf(tables.strategySessions, sessionId);
    if mine != [] {
      NewestFirst(mine, SessionCreatedAt);
      var row := SortDesc(mine, SessionCreatedAt)[0];
      assert row in mine;
    }
  }

  // ---------------------------------------------------------------------------
  // Save, then load

  lemma {:induction false} SortDescOfEqualKeys<T>(s: seq<T>, key: T -> int, k: int)
    requires forall i :: 0 <= i < |s| ==> key(s[i]) == k
    ensures SortDesc(s, key) == s
  {
    if s != [] {
      SortDescOfEqualKeys(s[1..], key, k);
      assert s == [s[0]] + s[1..];
    }
  }

  lemma NewestIsUniqueMax<T>(s: seq<T>, key: T -> int, x: T)
    requires x in s
    requires forall y :: y in s && y != x ==> key(y) < key(x)
    ensures SortDesc(s, key)[0] == x
  {
    NewestFirst(s, key);
  }

  lemma {:induction false} SessionsOfAppend(rows: seq<StrategySessionRow>, row: StrategySessionRow, sessionId: Id)
    requires row.sessionId == sessionId
    ensures SessionsOf(rows + [row], sessionId) == SessionsOf(rows, sessionId) + [row]
  {
    if rows == [] {
      assert rows + [row] == [row];
    } else {
      assert (rows + [row])[1..] == rows[1..] + [row];
      SessionsOfAppend(rows[1..], row, sessionId);
    }
  }

  /** A project as the load after a save returns it: with the id it was given, empty texts read as absent. */
  function Reloaded(p: StrategyProject, id: Id): StrategyProject {
    p.(id := Some(id), description := OrUndefined(p.description), expectedReturn := OrUndefined(p.expectedReturn))
  }

  /** A batch of saved projects read back: each one under the id it was given, empty texts read as absent. */
  lemma ReloadedBatch(strategySessionId: Id, projects: seq<StrategyProject>, idFor: nat -> Id, now: int)
    ensures var back := FromRows(NewProjectRows(strategySessionId, projects, idFor, now));
            && |back| == |projects|
            && forall i :: 0 <= i < |projects| ==> back[i] == Reloaded(projects[i], idFor(i))
  {
    var rows := NewProjectRows(strategySessionId, projects, idFor, now);
    forall i | 0 <= i < |projects| ensures FromRows(rows)[i] == Reloaded(projects[i], idFor(i)) {
      assert FromRows(rows)[i] == FromRow(rows[i]);
    }
  }

  /**
    Round trip: a first save of a portfolio (no portfolio held yet), with a
    non-empty project list, no failure, and a clock past every earlier
    portfolio of the session, is followed by a load that returns that
    portfolio: its new id, its name (or the default), its context texts and
    its projects in the order given.
   */
  lemma SaveThenLoad(tables: Tables, current: Option<StrategySession>, sessionId: Id, data: SessionData,
                     newId: Id, now: int, idFor: nat -> Id)
    requires TargetOf(current).None?
    requires sessionId != ""
    requires data.projects.Some? && data.projects.value != []
    requires forall x :: x in tables.strategySessions && x.sessionId == sessionId ==> x.createdAt < now
    ensures var faults := StrategyFaults(false, false, false, false, false, false);
            var effect := SaveEffect(tables, current, Some(sessionId), data, newId, now, idFor, faults);
            var loaded := Loaded(current, effect.tables, Some(sessionId), false, false);
            && effect.returned == Some(newId)
            && loaded.Some?
            && loaded.value.id == Some(newId)
            && loaded.value.portfolioName == PortfolioName(data)
            && loaded.value.contextHistory == OrUndefined(data.contextHistory)
            && loaded.value.contextInitiatives == OrUndefined(data.contextInitiatives)
            && |loaded.value.projects| == |data.projects.value|
            && forall i :: 0 <= i < |data.projects.value| ==>
                 loaded.value.projects[i] == Reloaded(data.projects.value[i], idFor(i))
  {
    var faults := StrategyFaults(false, false, false, false, false, false);
    var effect := SaveEffect(tables, current, Some(sessionId), data, newId, now, idFor, faults);
    var row := NewSessionRow(newId, sessionId, data, now);
    var projects := data.projects.value;
    assert effect.tables.strategySessions == tables.strategySessions + [row];
    SessionsOfAppend(tables.strategySessions, row, sessionId);
    var mine := SessionsOf(effect.tables.strategySessions, sessionId);
    assert mine == SessionsOf(tables.strategySessions, sessionId) + [row];
    forall y | y in mine && y != row ensures SessionCreatedAt(y) < SessionCreatedAt(row) {
      assert y in SessionsOf(tables.strategySessions, sessionId);
    }
    NewestIsUniqueMax(mine, SessionCreatedAt, row);
    SaveReplacesProjects(tables.strategyProjects, newId, projects, idFor, now, newId + "'");
    var inserted := NewProjectRows(newId, projects, idFor, now);
    SortDescOfEqualKeys(inserted, ProjectCreatedAt, now);
    ReloadedBatch(newId, projects, idFor, now);
  }

  /** Updating the newest portfolio of a session, stored once under its id, keeps it the session's newest. */
  lemma UpdatedStaysNewest(rows: seq<StrategySessionRow>, held: StrategySessionRow, data: SessionData)
    requires held in rows
    requires forall y :: y in rows && y.id == held.id ==> y == held
    requires forall y :: y in rows && y.sessionId == held.sessionId && y.id != held.id ==> y.createdAt < held.createdAt
    ensures UpdatedRow(held, data) in SessionsOf(UpdateSessionRows(rows, held.id, data), held.sessionId)
    ensures forall y :: y in SessionsOf(UpdateSessionRows(rows, held.id, data), held.sessionId) && y != UpdatedRow(held, data)
              ==> y.createdAt < held.createdAt
  {
    var updated := UpdateSessionRows(rows, held.id, data);
    var k :| 0 <= k < |rows| && rows[k] == held;
    assert updated[k] == UpdatedRow(held, data);
    forall y | y in updated && y != UpdatedRow(held, data) && y.sessionId == held.sessionId
      ensures y.createdAt < held.createdAt
    {
      var j :| 0 <= j < |updated| && updated[j] == y;
      var x := rows[j];
      assert x in rows;
      assert y == if x.id == held.id then UpdatedRow(x, data) else x;
    }
  }

  /** A load when one portfolio of the session is strictly newer than all its others: that portfolio, with its projects newest first. */
  lemma LoadOfNewest(current: Option<StrategySession>, tables: Tables, sessionId: Id, x: StrategySessionRow)
    requires sessionId != ""
    requires x in SessionsOf(tables.strategySessions, sessionId)
    requires forall y :: y in SessionsOf(tables.strategySessions, sessionId) && y != x ==> y.createdAt < x.createdAt
    ensures Loaded(current, tables, Some(sessionId), false, false)
            == Some(StrategySession(Some(x.id), x.portfolioName, OrUndefined(x.contextHistory),
                                    OrUndefined(x.contextInitiatives),
                                    FromRows(SortDesc(ProjectsOf(tables.strategyProjects, x.id), ProjectCreatedAt))))
  {
    NewestIsUniqueMax(SessionsOf(tables.strategySessions, sessionId), SessionCreatedAt, x);
  }

  /**
    Round trip of a later save: the held portfolio, stored once under its id
    and newer than every other portfolio of the session, is updated with a
    non-empty project list and no failure. The load that follows returns the
    same portfolio with the new name, the contexts given (the stored ones
    where none is given) and the new projects in the order given.
   */
  lemma UpdateThenLoad(tables: Tables, current: Option<StrategySession>, sessionId: Id, data: SessionData,
                       newId: Id, now: int, idFor: nat -> Id, held: StrategySessionRow)
    requires current.Some? && current.value.id == Some(held.id) && held.id != ""
    requires sessionId != "" && held.sessionId == sessionId
    requires held in tables.strategySessions
    requires forall y :: y in tables.strategySessions && y.id == held.id ==> y == held
    requires forall y :: y in tables.strategySessions && y.sessionId == sessionId && y.id != held.id ==>
               y.createdAt < held.createdAt
    requires data.projects.Some? && data.projects.value != []
    ensures var faults := StrategyFaults(false, false, false, false, false, false);
            var effect := SaveEffect(tables, current, Some(sessionId), data, newId, now, idFor, faults);
            var loaded := Loaded(current, effect.tables, Some(sessionId), false, false);
            && effect.returned == Some(held.id)
            && loaded.Some?
            && loaded.value.id == Some(held.id)
            && loaded.value.portfolioName == PortfolioName(data)
            && loaded.value.contextHistory
               == OrUndefined(if data.contextHistory.Some? then data.contextHistory else held.contextHistory)
            && loaded.value.contextInitiatives
               == OrUndefined(if data.contextInitiatives.Some? then data.contextInitiatives else held.contextInitiatives)
            && |loaded.value.projects| == |data.projects.value|
            && forall i :: 0 <= i < |data.projects.value| ==>
                 loaded.value.projects[i] == Reloaded(data.projects.value[i], idFor(i))
  {
    var faults := StrategyFaults(false, false, false, false, false, false);
    var effect := SaveEffect(tables, current, Some(sessionId), data, newId, now, idFor, faults);
    var updated := UpdateSessionRows(tables.strategySessions, held.id, data);
    assert effect.tables.strategySessions == updated;
    var kept := UpdatedRow(held, data);
    UpdatedStaysNewest(tables.strategySessions, held, data);
    LoadOfNewest(current, effect.tables, sessionId, kept);
    var inserted := NewProjectRows(held.id, data.projects.value, idFor, now);
    SaveReplacesProjects(tables.strategyProjects, held.id, data.projects.value, idFor, now, held.id + "'");
    SortDescOfEqualKeys(inserted, ProjectCreatedAt, now);
    assert SortDesc(ProjectsOf(effect.tables.strategyProjects, held.id), ProjectCreatedAt) == inserted;
    ReloadedBatch(held.id, data.projects.value, idFor, now);
  }
}
