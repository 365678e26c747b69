/**
  The portfolio builder of src/components/StrategyPlatform.tsx: the
  portfolio's context texts, the list of suggested projects with their
  check boxes, the current portfolio list, and the form for adding a project
  by hand. Suggestions come from a remote generator, given here as a reply
  parameter; the ids the component draws at random are parameters too.
 */
module StrategyPlatform {
  import opened Common
  import opened Backend
  import opened ClickCounting
  import opened PortfolioCharting

  datatype Project = Project(
    id: Id,
    name: string,
    impact: int,
    complexity: int,
    category: Category,
    selected: bool,
    description: Option<string>,
    expectedReturn: Option<string>)

  /** `newProject`: the manual-entry form. */
  datatype ProjectForm = ProjectForm(name: string, expectedReturn: string, impact: int, complexity: int, category: Category)

  /** The form as it starts and as it is reset after an add. */
  const EmptyForm: ProjectForm := ProjectForm("", "", 1, 1, Core)

  // ---------------------------------------------------------------------------
  // Number inputs

  predicate IsDigit(c: char) {
    '0' <= c <= '9'
  }

  predicate AllDigits(s: string) {
    forall i :: 0 <= i < |s| ==> IsDigit(s[i])
  }

  /** The longest prefix of decimal digits. */
  function DigitRun(s: string): (r: string)
    ensures r <= s && AllDigits(r)
    ensures |r| < |s| ==> !IsDigit(s[|r|])
  {
    if s != [] && IsDigit(s[0]) then [s[0]] + DigitRun(s[1..]) else []
  }

  function DigitValue(c: char): nat
    requires IsDigit(c)
  {
    c as int - '0' as int
  }

  /** The number a run of decimal digits denotes. */
  function DigitsValue(ds: string): nat
    requires AllDigits(ds)
  {
    if ds == [] then 0 else DigitsValue(ds[..|ds| - 1]) * 10 + DigitValue(ds[|ds| - 1])
  }

  /**
    `parseInt(s)` for decimal text: leading whitespace skipped, an optional
    sign, then the longest run of digits; anything after it is ignored.
    No digit at all gives NaN, here `None`.
   */
  function ParseInt(s: string): (r: Option<int>)
    ensures r.None? <==> DigitRun(SignedBody(TrimStart(s))) == []
  {
    var t := TrimStart(s);
    var ds := DigitRun(SignedBody(t));
    if ds == [] then None
    else
      var v: int := DigitsValue(ds);
      if t[0] == '-' then Some(-v) else Some(v)
  }

  /** The text after a leading sign, if there is one. */
  function SignedBody(t: string): string {
    if t != [] && (t[0] == '-' || t[0] == '+') then t[1..] else t
  }

  /** `parseInt(value) || 1`: NaN and 0 are both replaced by 1; nothing bounds the result. */
  function ParseScore(s: string): (r: int)
    ensures r != 0
    ensures ParseInt(s).None? ==> r == 1
    ensures ParseInt(s) == Some(0) ==> r == 1
    ensures ParseInt(s).Some? && ParseInt(s).value != 0 ==> r == ParseInt(s).value
  {
    match ParseInt(s)
    case None => 1
    case Some(n) => if n == 0 then 1 else n
  }

  function DigitChar(d: nat): (c: char)
    requires d < 10
    ensures IsDigit(c) && DigitValue(c) == d
  {
    ('0' as int + d) as char
  }

  /** The decimal digits of a natural number, most significant first. */
  function Digits(n: nat): (r: string)
    ensures r != [] && AllDigits(r)
  {
    if n < 10 then [DigitChar(n)] else Digits(n / 10) + [DigitChar(n % 10)]
  }

  /** The decimal text of an integer, as a number input holds it. */
  function Decimal(n: int): string {
    if n < 0 then "-" + Digits(-n) else Digits(n)
  }

  lemma {:induction false} DigitsValueOfDigits(n: nat)
    ensures DigitsValue(Digits(n)) == n
  {
    if n >= 10 {
      var ds := Digits(n);
      assert ds[..|ds| - 1] == Digits(n / 10);
      DigitsValueOfDigits(n / 10);
    }
  }

  lemma {:induction false} DigitRunOfDigits(s: string)
    requires AllDigits(s)
    ensures DigitRun(s) == s
  {
    if s != [] {
      DigitRunOfDigits(s[1..]);
    }
  }

  lemma ParseDigits(n: nat)
    ensures ParseInt(Digits(n)) == Some(n)
  {
    var s := Digits(n);
    assert !IsWhitespace(s[0]);
    assert TrimStart(s) == s;
    assert SignedBody(s) == s;
    DigitRunOfDigits(s);
    DigitsValueOfDigits(n);
  }

  lemma ParseNegative(n: nat)
    requires n > 0
    ensures ParseInt("-" + Digits(n)) == Some(0 - n)
  {
    var s := "-" + Digits(n);
    assert s[0] == '-' && !IsWhitespace(s[0]);
    assert TrimStart(s) == s;
    assert SignedBody(s) == Digits(n);
    DigitRunOfDigits(Digits(n));
    DigitsValueOfDigits(n);
  }

  /** The decimal text of any integer parses back to it. */
  lemma ParseDecimal(n: int)
    ensures ParseInt(Decimal(n)) == Some(n)
  {
    if n < 0 {
      ParseNegative(-n);
    } else {
      ParseDigits(n);
    }
  }

  /**
    A score entered in the impact or complexity input is kept as typed, with
    no clamp to 1..10, except 0, which becomes 1.
   */
  lemma ScoreKeptUnclamped(n: int)
    ensures ParseScore(Decimal(n)) == if n == 0 then 1 else n
  {
    ParseDecimal(n);
  }

  /** A text with no digit where the number should start becomes 1. */
  lemma NonNumericScoreIsOne(s: string)
    requires forall i :: 0 <= i < |s| ==> !IsDigit(s[i])
    ensures ParseScore(s) == 1
  {
    var t := TrimStart(s);
    var b := SignedBody(t);
    assert b == s[|s| - |b|..];
    if b != [] {
      assert b[0] == s[|s| - |b|];
    }
  }

  // ---------------------------------------------------------------------------
  // List operations

  /** `handleProjectSelection(id)` on a list: the projects with that id have `selected` flipped. */
  function Toggled(projects: seq<Project>, id: Id): (r: seq<Project>)
    ensures |r| == |projects|
    ensures forall i :: 0 <= i < |projects| ==>
              && r[i].(selected := projects[i].selected) == projects[i]
              && (r[i].selected <==> (if projects[i].id == id then !projects[i].selected else projects[i].selected))
  {
    if projects == [] then []
    else
      var p := projects[0];
      [if p.id == id then p.(selected := !p.selected) else p] + Toggled(projects[1..], id)
  }

  /** `suggestedProjects.filter(p => p.selected)`. */
  function Selected(projects: seq<Project>): (r: seq<Project>)
    ensures |r| <= |projects|
    ensures forall x :: x in r <==> x in projects && x.selected
  {
    if projects == [] then []
    else if projects[0].selected then [projects[0]] + Selected(projects[1..])
    else Selected(projects[1..])
  }

  /** The project `addManualProject` appends: the form's fields, name untrimmed, selected, empty description. */
  function ManualProject(form: ProjectForm, id: Id): (r: Project)
    ensures r.id == id && r.selected
    ensures r.name == form.name && r.impact == form.impact && r.complexity == form.complexity && r.category == form.category
    ensures r.description == Some("") && r.expectedReturn == Some(form.expectedReturn)
  {
    Project(id, form.name, form.impact, form.complexity, form.category, true, Some(""), Some(form.expectedReturn))
  }

  /** The current list and the form after `addManualProject`. */
  function AddManual(current: seq<Project>, form: ProjectForm, id: Id): (r: (seq<Project>, ProjectForm))
    ensures IsBlank(form.name) ==> r == (current, form)
    ensures !IsBlank(form.name) ==>
              && |r.0| == |current| + 1 && r.0[..|current|] == current
              && r.0[|current|] == ManualProject(form, id)
              && r.1 == EmptyForm
  {
    if IsBlank(form.name) then (current, form)
    else (current + [ManualProject(form, id)], EmptyForm)
  }

  /** The current and suggested lists after `saveSuggestedProjects`. */
  function MoveSelected(current: seq<Project>, suggested: seq<Project>): (r: (seq<Project>, seq<Project>))
    ensures r == (current, suggested) || r.1 == []
    ensures |current| <= |r.0| && r.0[..|current|] == current
    ensures forall x :: x in r.0[|current|..] <==> x in suggested && x.selected
  {
    var chosen := Selected(suggested);
    if chosen == [] then (current, suggested) else (current + chosen, [])
  }

  /** The generator's reply: a failed call, or a body whose `projects` field may be missing. */
  datatype SuggestionsReply = SuggestionsFailed | SuggestionsReply(projects: Option<seq<Project>>)

  /** The reply's projects, each given a fresh id and checked. */
  function Suggested(reply: seq<Project>, idFor: nat -> Id): (r: seq<Project>)
    ensures |r| == |reply|
    ensures forall i :: 0 <= i < |reply| ==> r[i] == reply[i].(id := idFor(i), selected := true)
  {
    seq(|reply|, i requires 0 <= i < |reply| => reply[i].(id := idFor(i), selected := true))
  }

  /** The suggestion list after `generateSuggestions` got a reply. */
  function AfterSuggestions(suggested: seq<Project>, reply: SuggestionsReply, idFor: nat -> Id): (r: seq<Project>)
    ensures reply.SuggestionsFailed? || reply.projects.None? ==> r == suggested
    ensures reply.SuggestionsReply? && reply.projects.Some? ==>
              |r| == |reply.projects.value| && forall x :: x in r ==> x.selected
  {
    if reply.SuggestionsReply? && reply.projects.Some? then Suggested(reply.projects.value, idFor) else suggested
  }

  /** `contextHistory.trim() && contextInitiatives.trim()`: the guard of `generateSuggestions`. */
  predicate ContextGiven(contextHistory: string, contextInitiatives: string): (r: bool)
    ensures r <==> !AllWhitespace(contextHistory) && !AllWhitespace(contextInitiatives)
  {
    BlankIffAllWhitespace(contextHistory);
    BlankIffAllWhitespace(contextInitiatives);
    !IsBlank(contextHistory) && !IsBlank(contextInitiatives)
  }

  class Platform {
    var portfolioName: string
    var contextHistory: string
    var contextInitiatives: string
    var newProject: ProjectForm
    var suggestedProjects: seq<Project>
    var currentProjects: seq<Project>
    const counter: ClickCounter

    constructor (counter: ClickCounter)
      ensures portfolioName == "" && contextHistory == "" && contextInitiatives == ""
      ensures newProject == EmptyForm && suggestedProjects == [] && currentProjects == []
      ensures this.counter == counter
    {
      portfolioName := "";
      contextHistory := "";
      contextInitiatives := "";
      newProject := EmptyForm;
      suggestedProjects := [];
      currentProjects := [];
      this.counter := counter;
    }

    /** `handleProjectSelection`. */
    method HandleProjectSelection(id: Id)
      modifies this
      ensures suggestedProjects == Toggled(old(suggestedProjects), id)
      ensures currentProjects == old(currentProjects) && newProject == old(newProject)
      ensures contextHistory == old(contextHistory) && contextInitiatives == old(contextInitiatives)
      ensures portfolioName == old(portfolioName)
    {
      suggestedProjects := Toggled(suggestedProjects, id);
    }

    /** `addManualProject`; `freshId` stands for the random id. */
    method AddManualProject(freshId: Id)
      modifies this
      ensures (currentProjects, newProject) == AddManual(old(currentProjects), old(newProject), freshId)
      ensures suggestedProjects == old(suggestedProjects)
      ensures contextHistory == old(contextHistory) && contextInitiatives == old(contextInitiatives)
      ensures portfolioName == old(portfolioName)
    {
      if IsBlank(newProject.name) {
        return;
      }
      var project := ManualProject(newProject, freshId);
      currentProjects := currentProjects + [project];
      newProject := EmptyForm;
    }

    /** `saveSuggestedProjects`. */
    method SaveSuggestedProjects()
      modifies this
      ensures (currentProjects, suggestedProjects) == MoveSelected(old(currentProjects), old(suggestedProjects))
      ensures newProject == old(newProject)
      ensures contextHistory == old(contextHistory) && contextInitiatives == old(contextInitiatives)
      ensures portfolioName == old(portfolioName)
    {
      var selectedProjects := Selected(suggestedProjects);
      if |selectedProjects| == 0 {
        return;
      }
      currentProjects := currentProjects + selectedProjects;
      suggestedProjects := [];
    }

    /**
      `generateSuggestions`: refused without both contexts; otherwise the
      suggestion counter is incremented, then the reply replaces the list.
     */
    method GenerateSuggestions(db: Database, fetchFails: bool, updateFails: bool, reply: SuggestionsReply, idFor: nat -> Id)
      returns (asked: bool)
      modifies this, db
      ensures asked == ContextGiven(old(contextHistory), old(contextInitiatives))
      ensures !asked ==> db.tables == old(db.tables) && suggestedProjects == old(suggestedProjects)
      ensures asked ==>
                && db.tables == old(db.tables).(userSessions := AfterIncrement(old(db.tables.userSessions), counter.sessionId,
                                                                               ProjectSuggestionsClicks, fetchFails, updateFails))
                && suggestedProjects == AfterSuggestions(old(suggestedProjects), reply, idFor)
      ensures currentProjects == old(currentProjects) && newProject == old(newProject)
      ensures contextHistory == old(contextHistory) && contextInitiatives == old(contextInitiatives)
      ensures portfolioName == old(portfolioName)
    {
      if IsBlank(contextHistory) || IsBlank(contextInitiatives) {
        return false;
      }
      counter.IncrementProjectSuggestionsClicks(db, fetchFails, updateFails);
      asked := true;
      match reply {
        case SuggestionsFailed =>
        case SuggestionsReply(projects) =>
          if projects.Some? {
            suggestedProjects := Suggested(projects.value, idFor);
          }
      }
    }

    /** The impact input's `onChange`. */
    method SetImpact(text: string)
      modifies this
      ensures newProject == old(newProject).(impact := ParseScore(text))
      ensures currentProjects == old(currentProjects) && suggestedProjects == old(suggestedProjects)
      ensures contextHistory == old(contextHistory) && contextInitiatives == old(contextInitiatives)
      ensures portfolioName == old(portfolioName)
    {
      newProject := newProject.(impact := ParseScore(text));
    }

    /** The complexity input's `onChange`. */
    method SetComplexity(text: string)
      modifies this
      ensures newProject == old(newProject).(complexity := ParseScore(text))
      ensures currentProjects == old(currentProjects) && suggestedProjects == old(suggestedProjects)
      ensures contextHistory == old(contextHistory) && contextInitiatives == old(contextInitiatives)
      ensures portfolioName == old(portfolioName)
    {
      newProject := newProject.(complexity := ParseScore(text));
    }
  }

  // ---------------------------------------------------------------------------
  // Properties

  /** Toggling the same id twice restores the list. */
  lemma {:induction false} ToggleTwice(projects: seq<Project>, id: Id)
    ensures Toggled(Toggled(projects, id), id) == projects
  {
    if projects != [] {
      ToggleTwice(projects[1..], id);
      assert Toggled(projects, id)[1..] == Toggled(projects[1..], id);
    }
  }

  /** Toggling an id no project has changes nothing. */
  lemma ToggleAbsentId(projects: seq<Project>, id: Id)
    requires forall i :: 0 <= i < |projects| ==> projects[i].id != id
    ensures Toggled(projects, id) == projects
  {
  }

  /** Filtering keeps order: the selection of two lists joined is the two selections joined. */
  lemma {:induction false} SelectedAppend(a: seq<Project>, b: seq<Project>)
    ensures Selected(a + b) == Selected(a) + Selected(b)
  {
    if a == [] {
      assert a + b == b;
    } else {
      assert (a + b)[1..] == a[1..] + b;
      SelectedAppend(a[1..], b);
    }
  }

  /** A list whose projects are all checked is selected whole. */
  lemma {:induction false} AllCheckedSelected(projects: seq<Project>)
    requires forall i :: 0 <= i < |projects| ==> projects[i].selected
    ensures Selected(projects) == projects
  {
    if projects != [] {
      AllCheckedSelected(projects[1..]);
    }
  }

  /** Nothing is selected exactly when no project is checked. */
  lemma NothingSelected(projects: seq<Project>)
    ensures Selected(projects) == [] <==> forall i :: 0 <= i < |projects| ==> !projects[i].selected
  {
    if Selected(projects) != [] {
      var x := Selected(projects)[0];
      assert x in Selected(projects);
    }
  }

  /**
    `saveSuggestedProjects`: with nothing checked both lists stay; otherwise
    the checked suggestions, in order, follow the current list and the
    suggestion list is emptied, dropping the unchecked ones.
   */
  lemma MoveSelectedEffect(current: seq<Project>, suggested: seq<Project>)
    ensures (forall i :: 0 <= i < |suggested| ==> !suggested[i].selected) ==>
              MoveSelected(current, suggested) == (current, suggested)
    ensures (exists i :: 0 <= i < |suggested| && suggested[i].selected) ==>
              MoveSelected(current, suggested) == (current + Selected(suggested), [])
  {
    NothingSelected(suggested);
  }

  /** Every generated suggestion starts checked, so saving right away moves them all. */
  lemma SuggestionsStartChecked(current: seq<Project>, reply: seq<Project>, idFor: nat -> Id)
    requires reply != []
    ensures forall i :: 0 <= i < |reply| ==> Suggested(reply, idFor)[i].selected
    ensures MoveSelected(current, Suggested(reply, idFor)) == (current + Suggested(reply, idFor), [])
  {
    AllCheckedSelected(Suggested(reply, idFor));
  }

  /** A whitespace-only name is refused: the list and the form stay as they are. */
  lemma BlankNameRefused(current: seq<Project>, form: ProjectForm, id: Id)
    requires AllWhitespace(form.name)
    ensures AddManual(current, form, id) == (current, form)
  {
    BlankIffAllWhitespace(form.name);
  }

  /** A refused generation leaves the list alone; a reply without `projects`, or a failed call, does too. */
  lemma SuggestionsKeptWithoutProjects(suggested: seq<Project>, reply: SuggestionsReply, idFor: nat -> Id)
    requires reply.SuggestionsFailed? || reply.projects.None?
    ensures AfterSuggestions(suggested, reply, idFor) == suggested
  {
  }
}
