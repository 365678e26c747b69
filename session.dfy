/**
  The access-code session of src/hooks/useSession.ts. A trimmed access code
  is looked up in `user_sessions`; the matching row's id is used, or a new
  row is inserted for the code. The id and code are kept in the hook's state
  and in the browser's local storage, from which they are restored at start.
  Lookup and insert are two separate backend calls (no atomic find-or-create).
 */
module Sessions {
  import opened Common
  import opened Backend

  const SessionIdKey: string := "cubo_session_id"
  const AccessCodeKey: string := "cubo_access_code"

  /** The browser's `localStorage`. */
  class LocalStorage {
    var items: map<string, string>

    constructor (items: map<string, string>)
      ensures this.items == items
    {
      this.items := items;
    }
  }

  /** The number of rows whose access code is exactly `code`. */
  function CountCode(rows: seq<UserSessionRow>, code: string): nat {
    if rows == [] then 0
    else (if rows[0].accessCode == code then 1 else 0) + CountCode(rows[1..], code)
  }

  function FirstWithCode(rows: seq<UserSessionRow>, code: string): UserSessionRow
    requires CountCode(rows, code) >= 1
  {
    if rows[0].accessCode == code then rows[0] else FirstWithCode(rows[1..], code)
  }

  datatype Lookup = LookupFailed | Found(id: Id) | NotFound

  /**
    `.select('id').eq('access_code', code).maybeSingle()`: the one matching row,
    none, or an error, which `maybeSingle` also reports when several rows match.
   */
  function FindByCode(rows: seq<UserSessionRow>, code: string, findFails: bool): (r: Lookup)
    ensures r.Found? <==> !findFails && CountCode(rows, code) == 1
    ensures r.NotFound? <==> !findFails && CountCode(rows, code) == 0
    ensures r.Found? ==> exists row :: row in rows && row.accessCode == code && row.id == r.id
  {
    if findFails || CountCode(rows, code) > 1 then LookupFailed
    else if CountCode(rows, code) == 1 then
      FirstWithCodeIn(rows, code);
      Found(FirstWithCode(rows, code).id)
    else NotFound
  }

  /** The row `.insert({ access_code: code })` adds; the counters are left null. */
  function NewSessionRow(id: Id, code: string, now: int): UserSessionRow {
    UserSessionRow(id, code, now, None, None)
  }

  datatype SessionOutcome = Rejected | Failed | Opened(id: Id, rows: seq<UserSessionRow>)

  /**
    What `createOrLoadSession(code)` does to `user_sessions`: rejected when the
    code is blank, failed when the lookup or the insert fails, otherwise opened
    with the session id and the table afterwards.
   */
  function CreateOrLoad(rows: seq<UserSessionRow>, code: string, findFails: bool, createFails: bool,
                        newId: Id, now: int): (r: SessionOutcome)
    ensures r.Rejected? <==> IsBlank(code)
    ensures r.Opened? ==> |rows| <= |r.rows| <= |rows| + 1 && r.rows[..|rows|] == rows
    ensures r.Opened? && |r.rows| == |rows| + 1 ==> r.id == newId && r.rows[|rows|] == NewSessionRow(newId, Trim(code), now)
    ensures r.Opened? && |r.rows| == |rows| ==> exists row :: row in rows && row.accessCode == Trim(code) && row.id == r.id
  {
    if IsBlank(code) then Rejected
    else
      var trimmed := Trim(code);
      match FindByCode(rows, trimmed, findFails)
      case LookupFailed => Failed
      case Found(id) => Opened(id, rows)
      case NotFound => if createFails then Failed else Opened(newId, rows + [NewSessionRow(newId, trimmed, now)])
  }

  /** Local storage after a successful `createOrLoadSession`. */
  function Saved(items: map<string, string>, id: Id, code: string): (r: map<string, string>)
    ensures SessionIdKey in r && r[SessionIdKey] == id && AccessCodeKey in r && r[AccessCodeKey] == code
    ensures forall k :: k != SessionIdKey && k != AccessCodeKey ==> (k in r <==> k in items)
    ensures forall k :: k != SessionIdKey && k != AccessCodeKey && k in items ==> r[k] == items[k]
  {
    items[SessionIdKey := id][AccessCodeKey := code]
  }

  /** Local storage after `clearSession`. */
  function Cleared(items: map<string, string>): (r: map<string, string>)
    ensures SessionIdKey !in r && AccessCodeKey !in r
    ensures forall k :: k != SessionIdKey && k != AccessCodeKey ==> (k in r <==> k in items)
    ensures forall k :: k in r ==> r[k] == items[k]
  {
    items - {SessionIdKey, AccessCodeKey}
  }

  /** The state the hook starts with: the saved pair when both keys hold non-empty values, else none. */
  function Restored(items: map<string, string>): (r: (Option<Id>, string))
    ensures r.0.Some? ==> SessionIdKey in items && r.0.value == items[SessionIdKey] && r.0.value != ""
    ensures r.0.Some? ==> AccessCodeKey in items && r.1 == items[AccessCodeKey] && r.1 != ""
    ensures r.0.None? ==> r.1 == ""
  {
    if SessionIdKey in items && items[SessionIdKey] != "" && AccessCodeKey in items && items[AccessCodeKey] != "" then
      (Some(items[SessionIdKey]), items[AccessCodeKey])
    else
      (None, "")
  }

  class SessionStore {
    var sessionId: Option<Id>
    var accessCode: string

    /** The mount effect: restore the saved session, if any. */
    constructor (storage: LocalStorage)
      ensures (sessionId, accessCode) == Restored(storage.items)
    {
      var items := storage.items;
      if SessionIdKey in items && items[SessionIdKey] != "" && AccessCodeKey in items && items[AccessCodeKey] != "" {
        sessionId := Some(items[SessionIdKey]);
        accessCode := items[AccessCodeKey];
      } else {
        sessionId := None;
        accessCode := "";
      }
    }

    /** `hasSession: !!sessionId`. */
    function HasSession(): bool
      reads this
    {
      Truthy(sessionId)
    }

    /** `createOrLoadSession`. */
    method CreateOrLoadSession(code: string, db: Database, storage: LocalStorage,
                               findFails: bool, createFails: bool, newId: Id, now: int) returns (ok: bool)
      modifies this, db, storage
      ensures var outcome := CreateOrLoad(old(db.tables.userSessions), code, findFails, createFails, newId, now);
              && ok == outcome.Opened?
              && (outcome.Opened? ==>
                    && db.tables == old(db.tables).(userSessions := outcome.rows)
                    && sessionId == Some(outcome.id) && accessCode == Trim(code)
                    && storage.items == Saved(old(storage.items), outcome.id, Trim(code)))
              && (!outcome.Opened? ==>
                    && db.tables == old(db.tables)
                    && sessionId == old(sessionId) && accessCode == old(accessCode)
                    && storage.items == old(storage.items))
    {
      if IsBlank(code) {
        return false;
      }
      var trimmed := Trim(code);
      var currentSessionId: Id;
      var found := FindByCode(db.tables.userSessions, trimmed, findFails);
      match found {
        case LookupFailed =>
          return false;
        case Found(id) =>
          currentSessionId := id;
        case NotFound =>
          if createFails {
            return false;
          }
          db.tables := db.tables.(userSessions := db.tables.userSessions + [NewSessionRow(newId, trimmed, now)]);
          currentSessionId := newId;
      }
      sessionId := Some(currentSessionId);
      accessCode := trimmed;
      storage.items := storage.items[SessionIdKey := currentSessionId];
      storage.items := storage.items[AccessCodeKey := trimmed];
      ok := true;
    }

    /** `clearSession`: forget the session locally; the table is not touched. */
    method ClearSession(storage: LocalStorage)
      modifies this, storage
      ensures sessionId == None && accessCode == ""
      ensures storage.items == Cleared(old(storage.items))
    {
      sessionId := None;
      accessCode := "";
      storage.items := storage.items - {SessionIdKey};
      storage.items := storage.items - {AccessCodeKey};
    }
  }

  lemma {:induction false} CountCodeAppend(rows: seq<UserSessionRow>, row: UserSessionRow, code: string)
    ensures CountCode(rows + [row], code) == CountCode(rows, code) + (if row.accessCode == code then 1 else 0)
  {
    if rows != [] {
      assert (rows + [row])[1..] == rows[1..] + [row];
      CountCodeAppend(rows[1..], row, code);
    }
  }

  lemma {:induction false} FirstWithCodeOfNew(rows: seq<UserSessionRow>, row: UserSessionRow, code: string)
    requires CountCode(rows, code) == 0 && row.accessCode == code
    ensures CountCode(rows + [row], code) == 1
    ensures FirstWithCode(rows + [row], code) == row
  {
    CountCodeAppend(rows, row, code);
    if rows != [] {
      assert (rows + [row])[1..] == rows[1..] + [row];
      FirstWithCodeOfNew(rows[1..], row, code);
    }
  }

  /** A blank code is rejected before any lookup: no row is read or written. */
  lemma BlankCodeRejected(rows: seq<UserSessionRow>, code: string, findFails: bool, createFails: bool, newId: Id, now: int)
    requires AllWhitespace(code)
    ensures CreateOrLoad(rows, code, findFails, createFails, newId, now) == Rejected
  {
    BlankIffAllWhitespace(code);
  }

  /** When exactly one row carries the trimmed code, its id is used and the table is unchanged. */
  lemma ExistingSessionReused(rows: seq<UserSessionRow>, code: string, createFails: bool, newId: Id, now: int)
    requires !IsBlank(code) && CountCode(rows, Trim(code)) == 1
    ensures CreateOrLoad(rows, code, false, createFails, newId, now)
            == Opened(FirstWithCode(rows, Trim(code)).id, rows)
    ensures FirstWithCode(rows, Trim(code)) in rows && FirstWithCode(rows, Trim(code)).accessCode == Trim(code)
  {
    FirstWithCodeIn(rows, Trim(code));
  }

  lemma {:induction false} FirstWithCodeIn(rows: seq<UserSessionRow>, code: string)
    requires CountCode(rows, code) >= 1
    ensures FirstWithCode(rows, code) in rows && FirstWithCode(rows, code).accessCode == code
  {
    if rows[0].accessCode != code {
      FirstWithCodeIn(rows[1..], code);
    }
  }

  /** When no row carries the trimmed code, exactly one row holding it is appended and its id is used. */
  lemma NewSessionCreated(rows: seq<UserSessionRow>, code: string, newId: Id, now: int)
    requires !IsBlank(code) && CountCode(rows, Trim(code)) == 0
    ensures CreateOrLoad(rows, code, false, false, newId, now) == Opened(newId, rows + [NewSessionRow(newId, Trim(code), now)])
    ensures CountCode(rows + [NewSessionRow(newId, Trim(code), now)], Trim(code)) == 1
  {
    CountCodeAppend(rows, NewSessionRow(newId, Trim(code), now), Trim(code));
  }

  /** A failed lookup, or a failed insert of a new code, opens nothing. */
  lemma BackendErrorFails(rows: seq<UserSessionRow>, code: string, findFails: bool, createFails: bool, newId: Id, now: int)
    requires !IsBlank(code)
    requires findFails || (CountCode(rows, Trim(code)) == 0 && createFails)
    ensures CreateOrLoad(rows, code, findFails, createFails, newId, now) == Failed
  {
  }

  /**
    Find-or-create is idempotent when calls are sequential: a second successful
    call with the same code returns the same id and adds no row.
   */
  lemma SecondCallSameSession(rows: seq<UserSessionRow>, code: string, createFails: bool, newId: Id, now: int,
                              createFails2: bool, newId2: Id, now2: int)
    requires CreateOrLoad(rows, code, false, createFails, newId, now).Opened?
    ensures var first := CreateOrLoad(rows, code, false, createFails, newId, now);
            CreateOrLoad(first.rows, code, false, createFails2, newId2, now2) == first
  {
    var trimmed := Trim(code);
    if CountCode(rows, trimmed) == 0 {
      FirstWithCodeOfNew(rows, NewSessionRow(newId, trimmed, now), trimmed);
    }
  }

  /** What a successful call saves, the next start of the application restores. */
  lemma RestoreAfterSave(items: map<string, string>, id: Id, code: string)
    requires id != "" && code != ""
    ensures Restored(Saved(items, id, code)) == (Some(id), code)
  {
  }

  /** After `clearSession` the next start restores no session, whatever storage held. */
  lemma RestoreAfterClear(items: map<string, string>)
    ensures Restored(Cleared(items)) == (None, "")
  {
  }

  /** A restored session always counts as present for `hasSession`, and no session as absent. */
  lemma RestoredHasSession(items: map<string, string>)
    ensures Truthy(Restored(items).0) <==> Restored(items).0.Some?
    ensures Restored(items).0.None? ==> Restored(items).1 == ""
  {
  }
}
