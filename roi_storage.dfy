/**
  The saved ROI projects of src/hooks/useROIStorage.ts. Every read and
  write is scoped to the current session id; without one, every operation
  does nothing. A successful save or delete reloads the list from the table.
 */
module RoiStorage {
  import opened Common
  import opened Backend
  import opened Ordering

  /** The hook's `ROIProject`: the columns, and an optional id that the insert passes through. */
  datatype RoiProjectInput = RoiProjectInput(id: Option<Id>, fields: RoiProject)

  /** What `loadProjects` shows: the session's rows, newest first. */
  function SessionProjects(rows: seq<RoiRow>, sessionId: Id): (r: seq<RoiRow>)
    ensures forall x :: x in r <==> x in rows && x.sessionId == sessionId
    ensures SortedDesc(r, RoiCreatedAt)
  {
    var mine := RoiRowsOf(rows, sessionId);
    var sorted := SortDesc(mine, RoiCreatedAt);
    assert forall x :: x in sorted <==> x in multiset(mine);
    sorted
  }

  /** `{ session_id: sessionId, ...project }` as stored: the project's own id wins over the generated one. */
  function InsertedRow(project: RoiProjectInput, sessionId: Id, newId: Id, now: int): (r: RoiRow)
    ensures r.sessionId == sessionId && r.createdAt == now && r.project == project.fields
    ensures r.id == if project.id.Some? then project.id.value else newId
  {
    RoiRow(project.id.GetOr(newId), sessionId, now, project.fields)
  }

  /** `.delete().eq('id', projectId).eq('session_id', sessionId)`. */
  function DeleteRows(rows: seq<RoiRow>, projectId: Id, sessionId: Id): (r: seq<RoiRow>)
    ensures forall x :: x in r <==> x in rows && !(x.id == projectId && x.sessionId == sessionId)
  {
    if rows == [] then []
    else if rows[0].id == projectId && rows[0].sessionId == sessionId then DeleteRows(rows[1..], projectId, sessionId)
    else [rows[0]] + DeleteRows(rows[1..], projectId, sessionId)
  }

  class RoiStore {
    const sessionId: Option<Id>
    var projects: seq<RoiRow>

    constructor (sessionId: Option<Id>)
      ensures this.sessionId == sessionId && projects == []
    {
      this.sessionId := sessionId;
      projects := [];
    }

    /** `loadProjects`: replace the list by the session's rows; on an error keep it. */
    method LoadProjects(db: Database, loadFails: bool)
      modifies this
      ensures projects == if !Truthy(sessionId) || loadFails then old(projects)
                          else SessionProjects(db.tables.roiProjects, sessionId.value)
    {
      if !Truthy(sessionId) {
        return;
      }
      if loadFails {
        return;
      }
      var data := SessionProjects(db.tables.roiProjects, sessionId.value);
      projects := data;
    }

    /** `saveProject`: insert one row for the session, then reload. */
    method SaveProject(db: Database, project: RoiProjectInput, newId: Id, now: int, insertFails: bool, reloadFails: bool)
      returns (saved: Option<RoiRow>)
      modifies this, db
      ensures !Truthy(sessionId) || insertFails ==>
                saved == None && db.tables == old(db.tables) && projects == old(projects)
      ensures Truthy(sessionId) && !insertFails ==>
                var row := InsertedRow(project, sessionId.value, newId, now);
                && saved == Some(row)
                && db.tables == old(db.tables).(roiProjects := old(db.tables.roiProjects) + [row])
                && projects == if reloadFails then old(projects) else SessionProjects(db.tables.roiProjects, sessionId.value)
    {
      if !Truthy(sessionId) {
        return None;
      }
      if insertFails {
        return None;
      }
      var row := InsertedRow(project, sessionId.value, newId, now);
      db.tables := db.tables.(roiProjects := db.tables.roiProjects + [row]);
      LoadProjects(db, reloadFails);
      saved := Some(row);
    }

    /** `deleteProject`: remove the rows with that id in this session, then reload. */
    method DeleteProject(db: Database, projectId: Id, deleteFails: bool, reloadFails: bool)
      modifies this, db
      ensures !Truthy(sessionId) || deleteFails ==> db.tables == old(db.tables) && projects == old(projects)
      ensures Truthy(sessionId) && !deleteFails ==>
                && db.tables == old(db.tables).(roiProjects := DeleteRows(old(db.tables.roiProjects), projectId, sessionId.value))
                && projects == if reloadFails then old(projects) else SessionProjects(db.tables.roiProjects, sessionId.value)
    {
      if !Truthy(sessionId) {
        return;
      }
      if deleteFails {
        return;
      }
      db.tables := db.tables.(roiProjects := DeleteRows(db.tables.roiProjects, projectId, sessionId.value));
      LoadProjects(db, reloadFails);
    }
  }

  lemma {:induction false} RoiRowsOfAppend(rows: seq<RoiRow>, row: RoiRow, sessionId: Id)
    ensures RoiRowsOf(rows + [row], sessionId) == RoiRowsOf(rows, sessionId) + (if row.sessionId == sessionId then [row] else [])
  {
    if rows == [] {
      assert rows + [row] == [row];
    } else {
      assert (rows + [row])[1..] == rows[1..] + [row];
      RoiRowsOfAppend(rows[1..], row, sessionId);
    }
  }

  /**
    After a save, the reloaded list is the session's earlier rows plus the new
    row, newest first; no other session sees the row.
   */
  lemma SaveThenLoad(rows: seq<RoiRow>, project: RoiProjectInput, sessionId: Id, newId: Id, now: int, other: Id)
    requires other != sessionId
    ensures var row := InsertedRow(project, sessionId, newId, now);
            && multiset(SessionProjects(rows + [row], sessionId)) == multiset(SessionProjects(rows, sessionId)) + multiset{row}
            && SessionProjects(rows + [row], other) == SessionProjects(rows, other)
  {
    var row := InsertedRow(project, sessionId, newId, now);
    RoiRowsOfAppend(rows, row, sessionId);
    RoiRowsOfAppend(rows, row, other);
    assert RoiRowsOf(rows + [row], other) == RoiRowsOf(rows, other);
  }

  lemma {:induction false} DeleteKeepsOtherSessions(rows: seq<RoiRow>, projectId: Id, sessionId: Id, other: Id)
    requires other != sessionId
    ensures RoiRowsOf(DeleteRows(rows, projectId, sessionId), other) == RoiRowsOf(rows, other)
  {
    if rows != [] {
      DeleteKeepsOtherSessions(rows[1..], projectId, sessionId, other);
      if !(rows[0].id == projectId && rows[0].sessionId == sessionId) {
        assert DeleteRows(rows, projectId, sessionId)[1..] == DeleteRows(rows[1..], projectId, sessionId);
      }
    }
  }

  /**
    A delete removes exactly the rows with that id in the current session:
    another session's list is the same afterwards, even for a row with that id.
   */
  lemma DeleteOnlyOwnRows(rows: seq<RoiRow>, projectId: Id, sessionId: Id, other: Id)
    requires other != sessionId
    ensures SessionProjects(DeleteRows(rows, projectId, sessionId), other) == SessionProjects(rows, other)
    ensures forall x :: x in SessionProjects(DeleteRows(rows, projectId, sessionId), sessionId) <==>
                          x in SessionProjects(rows, sessionId) && x.id != projectId
  {
    DeleteKeepsOtherSessions(rows, projectId, sessionId, other);
  }
}
