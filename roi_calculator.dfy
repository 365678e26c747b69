/**
  The two ROI forms of src/components/ROICalculator.tsx (simple and
  strategic). Each form can fetch a benchmark text for its description,
  cache first, from a remote generator whose reply is a parameter here; the
  text is shown after a small markup conversion. Each form can save its raw
  values as one `roi_projects` row: no ROI figure is computed.
 */
module RoiCalculator {
  import opened Common
  import opened Backend
  import opened BenchmarkCaching
  import opened ClickCounting
  import RoiStorage

  // ---------------------------------------------------------------------------
  // The benchmark text formatter

  predicate NoNewline(s: string) {
    '\n' !in s
  }

  /** No two consecutive asterisks. */
  predicate NoDoubleStar(s: string) {
    forall i :: 0 <= i < |s| - 1 ==> !(s[i] == '*' && s[i + 1] == '*')
  }

  /** The characters the regular-expression `.` does not match. */
  predicate IsLineTerminator(c: char) {
    c == '\n' || c == '\r' || c == '\U{2028}' || c == '\U{2029}'
  }

  predicate NoLineTerminator(s: string) {
    forall i :: 0 <= i < |s| ==> !IsLineTerminator(s[i])
  }

  /** The global replacement of every newline by `<br/>`. */
  function ReplaceNewlines(s: string): (r: string)
    ensures NoNewline(r)
    ensures NoNewline(s) ==> r == s
  {
    if s == [] then []
    else (if s[0] == '\n' then "<br/>" else [s[0]]) + ReplaceNewlines(s[1..])
  }

  /**
    Where the lazy group of the bold pattern that starts at `i` ends: the
    first `q` from `i` on with "**" at `q`, provided no line terminator lies
    in between (the group is `.*?`, and `.` matches no line terminator).
   */
  function CloseAt(s: string, i: nat): (r: Option<nat>)
    requires i <= |s|
    ensures r.Some? ==> i <= r.value && r.value + 2 <= |s| && s[r.value] == '*' && s[r.value + 1] == '*'
    ensures r.Some? ==> NoLineTerminator(s[i..r.value])
    decreases |s| - i
  {
    if i + 2 <= |s| && s[i] == '*' && s[i + 1] == '*' then Some(i)
    else if i < |s| && !IsLineTerminator(s[i]) then CloseAt(s, i + 1)
    else None
  }

  /**
    The global replacement of the pattern "two asterisks, a lazy group, two
    asterisks" by `<strong>$1</strong>`, from position `i`: scanning left to
    right, each "**" that has a closing "**" later on the same line becomes
    a `<strong>` element around the text between; the scan resumes after
    the closing pair.
   */
  function BoldFrom(s: string, i: nat): (r: string)
    requires i <= |s|
    ensures NoDoubleStar(s) ==> r == s[i..]
    decreases |s| - i
  {
    assert i < |s| ==> s[i..] == [s[i]] + s[i + 1..];
    if i == |s| then []
    else if i + 2 <= |s| && s[i] == '*' && s[i + 1] == '*' && CloseAt(s, i + 2).Some? then
      var q := CloseAt(s, i + 2).value;
      "<strong>" + s[i + 2..q] + "</strong>" + BoldFrom(s, q + 2)
    else [s[i]] + BoldFrom(s, i + 1)
  }

  /** The HTML the benchmark panel shows; nothing is escaped. */
  function FormatBenchmark(text: string): (r: string)
    ensures NoNewline(r)
  {
    BoldKeepsNoNewline(ReplaceNewlines(text), 0);
    BoldFrom(ReplaceNewlines(text), 0)
  }

  lemma {:induction false} BoldKeepsNoNewline(s: string, i: nat)
    requires i <= |s| && NoNewline(s)
    ensures NoNewline(BoldFrom(s, i))
    decreases |s| - i
  {
    if i < |s| {
      if i + 2 <= |s| && s[i] == '*' && s[i + 1] == '*' && CloseAt(s, i + 2).Some? {
        var q := CloseAt(s, i + 2).value;
        BoldKeepsNoNewline(s, q + 2);
        assert forall c :: c in s[i + 2..q] ==> c in s;
      } else {
        BoldKeepsNoNewline(s, i + 1);
      }
    }
  }

  /** Text without newlines and without "**" is shown exactly as it is, markup included. */
  lemma PlainTextUnchanged(text: string)
    requires NoNewline(text) && NoDoubleStar(text)
    ensures FormatBenchmark(text) == text
  {
    assert text[0..] == text;
  }

  lemma {:induction false} CloseAtFindsEnd(s: string, i: nat, q: nat)
    requires i <= q && q + 2 <= |s| && s[q] == '*' && s[q + 1] == '*'
    requires forall k :: i <= k < q ==> s[k] != '*' && !IsLineTerminator(s[k])
    ensures CloseAt(s, i) == Some(q)
    decreases q - i
  {
    if i < q {
      CloseAtFindsEnd(s, i + 1, q);
    }
  }

  /**
    A phrase on one line without asterisks, wrapped in "**", becomes exactly
    that phrase in a `<strong>` element.
   */
  lemma BoldPhrase(w: string)
    requires NoLineTerminator(w)
    requires forall k :: 0 <= k < |w| ==> w[k] != '*'
    ensures FormatBenchmark("**" + w + "**") == "<strong>" + w + "</strong>"
  {
    var s := "**" + w + "**";
    var q := |w| + 2;
    assert NoNewline(s) by {
      forall k | 0 <= k < |s| ensures s[k] != '\n' {
        if 2 <= k < q { assert s[k] == w[k - 2]; }
      }
    }
    assert forall k :: 2 <= k < q ==> s[k] == w[k - 2];
    CloseAtFindsEnd(s, 2, q);
    assert s[2..q] == w;
    assert BoldFrom(s, q + 2) == [];
  }

  lemma {:induction false} ReplaceNewlinesAppend(a: string, b: string)
    ensures ReplaceNewlines(a + b) == ReplaceNewlines(a) + ReplaceNewlines(b)
  {
    if a == [] {
      assert a + b == b;
    } else {
      assert (a + b)[1..] == a[1..] + b;
      ReplaceNewlinesAppend(a[1..], b);
    }
  }

  /** Every newline, wherever it stands, becomes one `<br/>` and nothing else moves. */
  lemma NewlineBecomesBreak(a: string, b: string)
    ensures ReplaceNewlines(a + "\n" + b) == ReplaceNewlines(a) + "<br/>" + ReplaceNewlines(b)
  {
    ReplaceNewlinesAppend(a + "\n", b);
    ReplaceNewlinesAppend(a, "\n");
    assert ReplaceNewlines("\n") == "<br/>";
  }

  lemma {:induction false} CloseAtWithoutStars(s: string, i: nat)
    requires i <= |s|
    requires forall k :: i <= k < |s| ==> s[k] != '*'
    ensures CloseAt(s, i) == None
    decreases |s| - i
  {
    if i < |s| && !IsLineTerminator(s[i]) {
      CloseAtWithoutStars(s, i + 1);
    }
  }

  lemma {:induction false} BoldWithoutStars(s: string, i: nat)
    requires i <= |s|
    requires forall k :: i <= k < |s| ==> s[k] != '*'
    ensures BoldFrom(s, i) == s[i..]
    decreases |s| - i
  {
    if i < |s| {
      BoldWithoutStars(s, i + 1);
      assert s[i..] == [s[i]] + s[i + 1..];
    }
  }

  /** A "**" that no "**" closes later on is shown as written, with what follows it. */
  lemma UnclosedStarsStay(w: string)
    requires NoNewline(w)
    requires forall k :: 0 <= k < |w| ==> w[k] != '*'
    ensures FormatBenchmark("**" + w) == "**" + w
  {
    var s := "**" + w;
    assert forall k :: 2 <= k < |s| ==> s[k] == w[k - 2];
    assert NoNewline(s) by {
      forall k | 0 <= k < |s| ensures s[k] != '\n' {
        if 2 <= k { assert s[k] == w[k - 2]; }
      }
    }
    CloseAtWithoutStars(s, 2);
    BoldWithoutStars(s, 2);
    assert s[2..] == w;
    assert BoldFrom(s, 1) == [s[1]] + BoldFrom(s, 2);
  }

  // ---------------------------------------------------------------------------
  // Fetching benchmarks

  datatype Kind = Simple | Strategic

  /** The generator's reply: an error, or a body whose `text` may be missing. */
  datatype BenchmarkReply = RemoteError | RemoteData(text: Option<string>)

  datatype FetchOutcome = DescriptionRequired | FromCache(text: string) | RemoteFailed | NoText | Fetched(text: string)

  /** Whether the click was counted and the generator called. */
  predicate WentRemote(outcome: FetchOutcome) {
    outcome.RemoteFailed? || outcome.NoText? || outcome.Fetched?
  }

  /** The text an outcome shows, if any. */
  function Shown(outcome: FetchOutcome): Option<string> {
    if outcome.FromCache? || outcome.Fetched? then Some(outcome.text) else None
  }

  /** The decision flow of `fetchBenchmarkData`: validation, then the cache, then the generator. */
  function FetchDecision(entries: map<string, CacheEntry>, description: string, now: int, reply: BenchmarkReply)
    : (r: FetchOutcome)
    ensures r.DescriptionRequired? <==> IsBlank(description)
    ensures r.FromCache? ==> Lookup(entries, Key(description), now) == Some(r.text) && r.text != ""
    ensures r.Fetched? ==> reply == RemoteData(Some(r.text)) && r.text != ""
  {
    if IsBlank(description) then DescriptionRequired
    else
      var cached := Lookup(entries, Key(description), now);
      if Truthy(cached) then FromCache(cached.value) else RemoteOutcome(reply)
  }

  /** What the generator's reply leads to: an error, no text, or the text to show. */
  function RemoteOutcome(reply: BenchmarkReply): (r: FetchOutcome)
    ensures WentRemote(r)
    ensures r.Fetched? <==> reply.RemoteData? && Truthy(reply.text)
  {
    match reply
    case RemoteError => RemoteFailed
    case RemoteData(text) => if Truthy(text) then Fetched(text.value) else NoText
  }

  // ---------------------------------------------------------------------------
  // Saving

  datatype SaveOutcome = NoSession | NameRequired | InsertFailed | Saved(row: RoiRow)

  /** The columns a save writes; every other column is left null. */
  function FormProject(name: string, description: string, investment: real, revenue: real,
                       riskLevel: string, calculationModel: string): (r: RoiProject)
    ensures r.projectName == name && r.projectDescription == Some(description)
    ensures r.investmentAmount == investment && r.expectedRevenue == Some(revenue)
    ensures r.riskLevel == riskLevel && r.calculationModel == calculationModel
    ensures r.estimatedRoi.None? && r.timeframe.None? && r.expectedCosts.None?
  {
    RoiProject(name, Some(description), investment, None, Some(revenue), None, None, riskLevel, calculationModel,
               None, None, None, None, None)
  }

  /** The session check comes first, then the name check, then the insert. */
  function SaveDecision(sessionId: Option<Id>, project: RoiProject, newId: Id, now: int, insertFails: bool): SaveOutcome {
    if !Truthy(sessionId) then NoSession
    else if IsBlank(project.projectName) then NameRequired
    else if insertFails then InsertFailed
    else Saved(RoiRow(newId, sessionId.value, now, project))
  }

  class Calculator {
    var simpleProjectName: string
    var simpleContractValue: real
    var simpleProjectDescription: string
    var simpleExpectedRoi: real
    var simpleBenchmarkData: Option<string>
    var strategicName: string
    var strategicDescription: string
    var strategicExpectedInvestment: real
    var strategicExpectedReturn: real
    var strategicBenchmarkData: Option<string>
    const cache: BenchmarkCache
    const counter: ClickCounter

    constructor (cache: BenchmarkCache, counter: ClickCounter)
      ensures this.cache == cache && this.counter == counter
      ensures simpleProjectName == "" && simpleContractValue == 0.0 && simpleProjectDescription == ""
      ensures simpleExpectedRoi == 0.0 && simpleBenchmarkData == None
      ensures strategicName == "" && strategicDescription == "" && strategicExpectedInvestment == 0.0
      ensures strategicExpectedReturn == 0.0 && strategicBenchmarkData == None
    {
      this.cache := cache;
      this.counter := counter;
      simpleProjectName := "";
      simpleContractValue := 0.0;
      simpleProjectDescription := "";
      simpleExpectedRoi := 0.0;
      simpleBenchmarkData := None;
      strategicName := "";
      strategicDescription := "";
      strategicExpectedInvestment := 0.0;
      strategicExpectedReturn := 0.0;
      strategicBenchmarkData := None;
    }

    function BenchmarkData(kind: Kind): Option<string>
      reads this
    {
      if kind == Simple then simpleBenchmarkData else strategicBenchmarkData
    }

    /** What the user has typed into the two forms, benchmark panels aside. */
    function FormFields(): (string, real, string, real, string, string, real, real)
      reads this
    {
      (simpleProjectName, simpleContractValue, simpleProjectDescription, simpleExpectedRoi,
       strategicName, strategicDescription, strategicExpectedInvestment, strategicExpectedReturn)
    }

    /** The row the simple form saves: risk 'Baixo', model 'Simples'. */
    function SimpleProject(): RoiProject
      reads this
    {
      FormProject(simpleProjectName, simpleProjectDescription, simpleContractValue, simpleExpectedRoi, "Baixo", "Simples")
    }

    /** The row the strategic form saves: risk 'Alto', model 'Estratégico'. */
    function StrategicProject(): RoiProject
      reads this
    {
      FormProject(strategicName, strategicDescription, strategicExpectedInvestment, strategicExpectedReturn,
                  "Alto", "Estratégico")
    }

    /**
      `fetchBenchmarkData(description, kind)`. The cache is read at `now` and
      written at `storedAt`, the time the reply arrived.
     */
    method FetchBenchmarkData(db: Database, description: string, kind: Kind, now: int, storedAt: int,
                              fetchFails: bool, updateFails: bool, reply: BenchmarkReply) returns (outcome: FetchOutcome)
      modifies this, cache, db
      ensures outcome == FetchDecision(old(cache.entries), description, now, reply)
      ensures outcome.Fetched? ==> cache.entries == Store(old(cache.entries), description, outcome.text, storedAt)
      ensures !outcome.Fetched? ==> cache.entries == old(cache.entries)
      ensures db.tables == if WentRemote(outcome)
                           then old(db.tables).(userSessions := AfterIncrement(old(db.tables.userSessions), counter.sessionId,
                                                                               BenchmarkClicks, fetchFails, updateFails))
                           else old(db.tables)
      ensures BenchmarkData(kind) == if Shown(outcome).Some? then Shown(outcome) else old(BenchmarkData(kind))
      ensures kind == Simple ==> strategicBenchmarkData == old(strategicBenchmarkData)
      ensures kind == Strategic ==> simpleBenchmarkData == old(simpleBenchmarkData)
      ensures FormFields() == old(FormFields())
    {
      if IsBlank(description) {
        return DescriptionRequired;
      }
      outcome := FetchValidated(db, description, kind, now, storedAt, fetchFails, updateFails, reply);
    }

    /** `fetchBenchmarkData` once the description passed validation: the cache first, then the generator. */
    method FetchValidated(db: Database, description: string, kind: Kind, now: int, storedAt: int,
                          fetchFails: bool, updateFails: bool, reply: BenchmarkReply) returns (outcome: FetchOutcome)
      requires !IsBlank(description)
      modifies this, cache, db
      ensures outcome == FetchDecision(old(cache.entries), description, now, reply)
      ensures outcome.Fetched? ==> cache.entries == Store(old(cache.entries), description, outcome.text, storedAt)
      ensures !outcome.Fetched? ==> cache.entries == old(cache.entries)
      ensures db.tables == if WentRemote(outcome)
                           then old(db.tables).(userSessions := AfterIncrement(old(db.tables.userSessions), counter.sessionId,
                                                                               BenchmarkClicks, fetchFails, updateFails))
                           else old(db.tables)
      ensures BenchmarkData(kind) == if Shown(outcome).Some? then Shown(outcome) else old(BenchmarkData(kind))
      ensures kind == Simple ==> strategicBenchmarkData == old(strategicBenchmarkData)
      ensures kind == Strategic ==> simpleBenchmarkData == old(simpleBenchmarkData)
      ensures FormFields() == old(FormFields())
    {
      var cachedData := cache.GetCachedData(description, now);
      assert cachedData == Lookup(cache.entries, Key(description), now);
      if Truthy(cachedData) {
        assert FetchDecision(cache.entries, description, now, reply) == FromCache(cachedData.value);
        SetBenchmarkData(kind, cachedData.value);
        outcome := FromCache(cachedData.value);
      } else {
        assert FetchDecision(cache.entries, description, now, reply) == RemoteOutcome(reply);
        outcome := FetchRemote(db, description, kind, storedAt, fetchFails, updateFails, reply);
      }
    }

    /** The part of `fetchBenchmarkData` after a cache miss: count the click, call the generator, keep its text. */
    method FetchRemote(db: Database, description: string, kind: Kind, storedAt: int,
                       fetchFails: bool, updateFails: bool, reply: BenchmarkReply) returns (outcome: FetchOutcome)
      modifies this, cache, db
      ensures WentRemote(outcome)
      ensures outcome == RemoteOutcome(reply)
      ensures cache.entries == if outcome.Fetched? then Store(old(cache.entries), description, outcome.text, storedAt)
                               else old(cache.entries)
      ensures db.tables == old(db.tables).(userSessions := AfterIncrement(old(db.tables.userSessions), counter.sessionId,
                                                                         BenchmarkClicks, fetchFails, updateFails))
      ensures BenchmarkData(kind) == if Shown(outcome).Some? then Shown(outcome) else old(BenchmarkData(kind))
      ensures kind == Simple ==> strategicBenchmarkData == old(strategicBenchmarkData)
      ensures kind == Strategic ==> simpleBenchmarkData == old(simpleBenchmarkData)
      ensures FormFields() == old(FormFields())
    {
      counter.IncrementBenchmarkClicks(db, fetchFails, updateFails);
      if reply.RemoteError? {
        return RemoteFailed;
      }
      if !Truthy(reply.text) {
        return NoText;
      }
      var text := reply.text.value;
      SetBenchmarkData(kind, text);
      cache.SetCachedData(description, text, storedAt);
      outcome := Fetched(text);
    }

    method SetBenchmarkData(kind: Kind, text: string)
      modifies this
      ensures BenchmarkData(kind) == Some(text)
      ensures kind == Simple ==> strategicBenchmarkData == old(strategicBenchmarkData)
      ensures kind == Strategic ==> simpleBenchmarkData == old(simpleBenchmarkData)
      ensures FormFields() == old(FormFields())
    {
      if kind == Simple {
        simpleBenchmarkData := Some(text);
      } else {
        strategicBenchmarkData := Some(text);
      }
    }

    /** `saveSimpleProject`. */
    method SaveSimpleProject(db: Database, newId: Id, now: int, insertFails: bool) returns (outcome: SaveOutcome)
      modifies db
      ensures outcome == SaveDecision(counter.sessionId, SimpleProject(), newId, now, insertFails)
      ensures db.tables == if outcome.Saved? then old(db.tables).(roiProjects := old(db.tables.roiProjects) + [outcome.row])
                           else old(db.tables)
    {
      outcome := Insert(db, SimpleProject(), newId, now, insertFails);
    }

    /** `saveStrategicProject`. */
    method SaveStrategicProject(db: Database, newId: Id, now: int, insertFails: bool) returns (outcome: SaveOutcome)
      modifies db
      ensures outcome == SaveDecision(counter.sessionId, StrategicProject(), newId, now, insertFails)
      ensures db.tables == if outcome.Saved? then old(db.tables).(roiProjects := old(db.tables.roiProjects) + [outcome.row])
                           else old(db.tables)
    {
      outcome := Insert(db, StrategicProject(), newId, now, insertFails);
    }

    /** The checks and the insert both saves share. */
    method Insert(db: Database, project: RoiProject, newId: Id, now: int, insertFails: bool) returns (outcome: SaveOutcome)
      modifies db
      ensures outcome == SaveDecision(counter.sessionId, project, newId, now, insertFails)
      ensures db.tables == if outcome.Saved? then old(db.tables).(roiProjects := old(db.tables.roiProjects) + [outcome.row])
                           else old(db.tables)
    {
      var sessionId := counter.sessionId;
      if !Truthy(sessionId) {
        return NoSession;
      }
      if IsBlank(project.projectName) {
        return NameRequired;
      }
      if insertFails {
        return InsertFailed;
      }
      var row := RoiRow(newId, sessionId.value, now, project);
      db.tables := db.tables.(roiProjects := db.tables.roiProjects + [row]);
      outcome := Saved(row);
    }
  }

  // ---------------------------------------------------------------------------
  // Properties of the decision flows

  /** A blank description stops the flow before the cache, the counter and the generator. */
  lemma BlankDescriptionStops(entries: map<string, CacheEntry>, description: string, now: int, reply: BenchmarkReply)
    requires AllWhitespace(description)
    ensures FetchDecision(entries, description, now, reply) == DescriptionRequired
    ensures !WentRemote(FetchDecision(entries, description, now, reply))
  {
    BlankIffAllWhitespace(description);
  }

  /** A fresh non-empty cache entry is shown without counting a click or calling the generator. */
  lemma CacheHitStaysLocal(entries: map<string, CacheEntry>, description: string, now: int, reply: BenchmarkReply)
    requires !IsBlank(description)
    requires Key(description) in entries && now - entries[Key(description)].timestamp < CacheDuration
    requires entries[Key(description)].data != ""
    ensures FetchDecision(entries, description, now, reply) == FromCache(entries[Key(description)].data)
    ensures !WentRemote(FetchDecision(entries, description, now, reply))
  {
  }

  /**
    The cache is written only with a non-empty reply text: an error, or a
    reply without text, leaves nothing to store; what is stored is what is shown.
   */
  lemma CacheWrittenOnlyWithText(entries: map<string, CacheEntry>, description: string, now: int, reply: BenchmarkReply)
    ensures FetchDecision(entries, description, now, reply).Fetched? ==>
              && reply.RemoteData? && reply.text == Some(FetchDecision(entries, description, now, reply).text)
              && FetchDecision(entries, description, now, reply).text != ""
              && Shown(FetchDecision(entries, description, now, reply)) == reply.text
    ensures reply.RemoteError? || !Truthy(reply.text) ==> !FetchDecision(entries, description, now, reply).Fetched?
  {
  }

  /** A text fetched and cached is served from the cache by the next fetch within thirty minutes. */
  lemma FetchedThenCached(entries: map<string, CacheEntry>, description: string, now: int, reply: BenchmarkReply,
                          storedAt: int, later: int, reply2: BenchmarkReply)
    requires FetchDecision(entries, description, now, reply).Fetched?
    requires later - storedAt < CacheDuration
    ensures var text := FetchDecision(entries, description, now, reply).text;
            FetchDecision(Store(entries, description, text, storedAt), description, later, reply2) == FromCache(text)
  {
  }

  /** Without a session nothing is saved, whatever the name; a session with a blank name saves nothing either. */
  lemma SaveValidationOrder(sessionId: Option<Id>, project: RoiProject, newId: Id, now: int, insertFails: bool)
    ensures !Truthy(sessionId) ==> SaveDecision(sessionId, project, newId, now, insertFails) == NoSession
    ensures Truthy(sessionId) && AllWhitespace(project.projectName) ==>
              SaveDecision(sessionId, project, newId, now, insertFails) == NameRequired
    ensures !SaveDecision(sessionId, project, newId, now, insertFails).Saved? <==>
              !Truthy(sessionId) || IsBlank(project.projectName) || insertFails
  {
    BlankIffAllWhitespace(project.projectName);
  }

  /**
    The two forms save the same shape: the strategic row is the simple row of
    the same values with risk 'Alto' and model 'Estratégico' instead of
    'Baixo' and 'Simples'; the contract value goes to `investment_amount`,
    the expected ROI to `expected_revenue`, and no computed column is set.
   */
  lemma FormsDifferOnlyInLabels(name: string, description: string, investment: real, revenue: real)
    ensures var simple := FormProject(name, description, investment, revenue, "Baixo", "Simples");
            && simple.investmentAmount == investment && simple.expectedRevenue == Some(revenue)
            && simple.projectDescription == Some(description)
            && simple.roiResult.None? && simple.estimatedRoi.None? && simple.netProfit.None?
            && simple.(riskLevel := "Alto", calculationModel := "Estratégico")
               == FormProject(name, description, investment, revenue, "Alto", "Estratégico")
  {
  }

  /** A saved project is listed by the next load of the same session, and by no other session's. */
  lemma SavedProjectIsListed(rows: seq<RoiRow>, sessionId: Option<Id>, project: RoiProject, newId: Id, now: int, other: Id)
    requires SaveDecision(sessionId, project, newId, now, false).Saved?
    requires other != sessionId.value
    ensures var row := SaveDecision(sessionId, project, newId, now, false).row;
            && row in RoiStorage.SessionProjects(rows + [row], sessionId.value)
            && row !in RoiStorage.SessionProjects(rows + [row], other)
  {
  }
}
