/**
  The usage counters of src/hooks/useClickCounter.ts. Each increment reads
  the counter of the session's row (`.single()`, which fails unless exactly
  one row has that id), then writes the value read plus one back to the rows
  with that id. A missing (null) counter is read as 0. The read and the write
  are separate backend calls; each may fail, given here as a parameter.
 */
module ClickCounting {
  import opened Common
  import opened Backend

  datatype Counter = BenchmarkClicks | ProjectSuggestionsClicks

  function CounterOf(row: UserSessionRow, counter: Counter): Option<int> {
    match counter
    case BenchmarkClicks => row.benchmarkClicks
    case ProjectSuggestionsClicks => row.projectSuggestionsClicks
  }

  function WithCounter(row: UserSessionRow, counter: Counter, value: int): (r: UserSessionRow)
    ensures CounterOf(r, counter) == Some(value)
  {
    match counter
    case BenchmarkClicks => row.(benchmarkClicks := Some(value))
    case ProjectSuggestionsClicks => row.(projectSuggestionsClicks := Some(value))
  }

  /** The number of rows whose id is `id`. */
  function CountId(rows: seq<UserSessionRow>, id: Id): nat {
    if rows == [] then 0
    else (if rows[0].id == id then 1 else 0) + CountId(rows[1..], id)
  }

  /** The row `.eq('id', id).single()` returns when there is one. */
  function FirstWithId(rows: seq<UserSessionRow>, id: Id): UserSessionRow
    requires CountId(rows, id) >= 1
  {
    if rows[0].id == id then rows[0] else FirstWithId(rows[1..], id)
  }

  /** `.update({counter: value}).eq('id', id)`. */
  function SetCounter(rows: seq<UserSessionRow>, id: Id, counter: Counter, value: int): (r: seq<UserSessionRow>)
    ensures |r| == |rows|
    ensures forall i :: 0 <= i < |rows| ==> r[i] == if rows[i].id == id then WithCounter(rows[i], counter, value) else rows[i]
  {
    if rows == [] then []
    else [if rows[0].id == id then WithCounter(rows[0], counter, value) else rows[0]] + SetCounter(rows[1..], id, counter, value)
  }

  /** The `user_sessions` table after one increment of `counter` for `sessionId`. */
  function AfterIncrement(rows: seq<UserSessionRow>, sessionId: Option<Id>, counter: Counter,
                          fetchFails: bool, updateFails: bool): (r: seq<UserSessionRow>)
    ensures |r| == |rows|
    ensures forall i :: 0 <= i < |rows| && (sessionId.None? || rows[i].id != sessionId.value) ==> r[i] == rows[i]
    ensures forall i :: 0 <= i < |rows| ==> r[i].id == rows[i].id && r[i].accessCode == rows[i].accessCode
  {
    if !Truthy(sessionId) || fetchFails || CountId(rows, sessionId.value) != 1 || updateFails then rows
    else SetCounter(rows, sessionId.value, counter, CounterOf(FirstWithId(rows, sessionId.value), counter).GetOr(0) + 1)
  }

  class ClickCounter {
    const sessionId: Option<Id>

    constructor (sessionId: Option<Id>)
      ensures this.sessionId == sessionId
    {
      this.sessionId := sessionId;
    }

    /** `incrementBenchmarkClicks`. */
    method IncrementBenchmarkClicks(db: Database, fetchFails: bool, updateFails: bool)
      modifies db
      ensures db.tables == old(db.tables).(userSessions :=
                AfterIncrement(old(db.tables.userSessions), sessionId, BenchmarkClicks, fetchFails, updateFails))
    {
      Increment(db, BenchmarkClicks, fetchFails, updateFails);
    }

    /** `incrementProjectSuggestionsClicks`. */
    method IncrementProjectSuggestionsClicks(db: Database, fetchFails: bool, updateFails: bool)
      modifies db
      ensures db.tables == old(db.tables).(userSessions :=
                AfterIncrement(old(db.tables.userSessions), sessionId, ProjectSuggestionsClicks, fetchFails, updateFails))
    {
      Increment(db, ProjectSuggestionsClicks, fetchFails, updateFails);
    }

    /** The read-then-write both increments share. */
    method Increment(db: Database, counter: Counter, fetchFails: bool, updateFails: bool)
      modifies db
      ensures db.tables == old(db.tables).(userSessions :=
                AfterIncrement(old(db.tables.userSessions), sessionId, counter, fetchFails, updateFails))
    {
      if !Truthy(sessionId) {
        return;
      }
      var id := sessionId.value;
      var rows := db.tables.userSessions;
      if fetchFails || CountId(rows, id) != 1 {
        return;
      }
      var currentClicks := CounterOf(FirstWithId(rows, id), counter).GetOr(0);
      if updateFails {
        return;
      }
      db.tables := db.tables.(userSessions := SetCounter(rows, id, counter, currentClicks + 1));
    }
  }

  lemma {:induction false} FirstWithIdIsTheRow(rows: seq<UserSessionRow>, id: Id, i: nat)
    requires CountId(rows, id) == 1
    requires i < |rows| && rows[i].id == id
    ensures FirstWithId(rows, id) == rows[i]
  {
    if rows[0].id != id {
      assert rows[1..][i - 1] == rows[i];
      FirstWithIdIsTheRow(rows[1..], id, i - 1);
    } else if i > 0 {
      CountIdPositive(rows[1..], id, i - 1);
    }
  }

  lemma {:induction false} CountIdPositive(rows: seq<UserSessionRow>, id: Id, i: nat)
    requires i < |rows| && rows[i].id == id
    ensures CountId(rows, id) >= 1
  {
    if i > 0 {
      assert rows[1..][i - 1] == rows[i];
      CountIdPositive(rows[1..], id, i - 1);
    }
  }

  /**
    A successful increment (a session, a row with that id, neither call
    failing) sets the counter of exactly that row to its old value plus one,
    null counting as 0, and changes no other field and no other row.
   */
  lemma IncrementEffect(rows: seq<UserSessionRow>, sessionId: Option<Id>, counter: Counter, i: nat)
    requires Truthy(sessionId) && CountId(rows, sessionId.value) == 1
    requires i < |rows|
    ensures |AfterIncrement(rows, sessionId, counter, false, false)| == |rows|
    ensures rows[i].id != sessionId.value ==> AfterIncrement(rows, sessionId, counter, false, false)[i] == rows[i]
    ensures rows[i].id == sessionId.value ==>
              AfterIncrement(rows, sessionId, counter, false, false)[i]
              == WithCounter(rows[i], counter, CounterOf(rows[i], counter).GetOr(0) + 1)
  {
    if rows[i].id == sessionId.value {
      FirstWithIdIsTheRow(rows, sessionId.value, i);
    }
  }

  /** Without a session, or when the read or the write fails, the table is unchanged. */
  lemma IncrementNoop(rows: seq<UserSessionRow>, sessionId: Option<Id>, counter: Counter, fetchFails: bool, updateFails: bool)
    requires !Truthy(sessionId) || fetchFails || updateFails
    ensures AfterIncrement(rows, sessionId, counter, fetchFails, updateFails) == rows
  {
  }

  /** Each increment leaves the other counter of every row alone. */
  lemma IncrementKeepsOtherCounter(rows: seq<UserSessionRow>, sessionId: Option<Id>, counter: Counter, other: Counter,
                                   fetchFails: bool, updateFails: bool, i: nat)
    requires other != counter && i < |rows|
    ensures |AfterIncrement(rows, sessionId, counter, fetchFails, updateFails)| == |rows|
    ensures CounterOf(AfterIncrement(rows, sessionId, counter, fetchFails, updateFails)[i], other) == CounterOf(rows[i], other)
  {
  }

  lemma {:induction false} SetCounterKeepsIds(rows: seq<UserSessionRow>, id: Id, counter: Counter, value: int, x: Id)
    ensures CountId(SetCounter(rows, id, counter, value), x) == CountId(rows, x)
  {
    if rows != [] {
      SetCounterKeepsIds(rows[1..], id, counter, value, x);
      assert SetCounter(rows, id, counter, value)[1..] == SetCounter(rows[1..], id, counter, value);
    }
  }

  /** Two successful increments in a row raise the counter shown for the session by two. */
  lemma TwoIncrementsAddTwo(rows: seq<UserSessionRow>, sessionId: Option<Id>, counter: Counter, i: nat)
    requires Truthy(sessionId) && CountId(rows, sessionId.value) == 1
    requires i < |rows| && rows[i].id == sessionId.value
    ensures var once := AfterIncrement(rows, sessionId, counter, false, false);
            var twice := AfterIncrement(once, sessionId, counter, false, false);
            |twice| == |rows| && CounterOf(twice[i], counter) == Some(CounterOf(rows[i], counter).GetOr(0) + 2)
  {
    var once := AfterIncrement(rows, sessionId, counter, false, false);
    IncrementEffect(rows, sessionId, counter, i);
    SetCounterKeepsIds(rows, sessionId.value, counter, CounterOf(FirstWithId(rows, sessionId.value), counter).GetOr(0) + 1, sessionId.value);
    IncrementEffect(once, sessionId, counter, i);
  }
}
