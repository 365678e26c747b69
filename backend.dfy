/**
  The four tables of the hosted database, with the row shapes of
  src/integrations/supabase/types.ts. Nullable columns are `Option`s,
  timestamps are integers (milliseconds), numeric columns are reals.
  The whole database is one mutable object whose `tables` field the hooks
  reassign, one backend call at a time.
 */
module Backend {
  import opened Common

  datatype UserSessionRow = UserSessionRow(
    id: Id,
    accessCode: string,
    createdAt: int,
    benchmarkClicks: Option<int>,
    projectSuggestionsClicks: Option<int>)

  /** The columns of `roi_projects` other than `id`, `session_id` and the timestamps. */
  datatype RoiProject = RoiProject(
    projectName: string,
    projectDescription: Option<string>,
    investmentAmount: real,
    timeframe: Option<real>,
    expectedRevenue: Option<real>,
    expectedCosts: Option<real>,
    estimatedRoi: Option<real>,
    riskLevel: string,
    calculationModel: string,
    roiResult: Option<real>,
    netProfit: Option<real>,
    breakEvenMonths: Option<real>,
    monthlyReturn: Option<real>,
    riskAdjustedRoi: Option<real>)

  datatype RoiRow = RoiRow(id: Id, sessionId: Id, createdAt: int, project: RoiProject)

  datatype StrategySessionRow = StrategySessionRow(
    id: Id,
    sessionId: Id,
    portfolioName: string,
    contextHistory: Option<string>,
    contextInitiatives: Option<string>,
    createdAt: int)

  datatype StrategyProjectRow = StrategyProjectRow(
    id: Id,
    strategySessionId: Id,
    name: string,
    impact: int,
    complexity: int,
    category: string,
    selected: bool,
    description: Option<string>,
    expectedReturn: Option<string>,
    createdAt: int)

  datatype Tables = Tables(
    userSessions: seq<UserSessionRow>,
    roiProjects: seq<RoiRow>,
    strategySessions: seq<StrategySessionRow>,
    strategyProjects: seq<StrategyProjectRow>)

  class Database {
    var tables: Tables

    constructor (initial: Tables)
      ensures tables == initial
    {
      tables := initial;
    }
  }

  /** `.eq('session_id', sessionId)` on `roi_projects`: the rows of that session, in table order. */
  function RoiRowsOf(rows: seq<RoiRow>, sessionId: Id): (r: seq<RoiRow>)
    ensures |r| <= |rows|
    ensures forall x :: x in r <==> x in rows && x.sessionId == sessionId
  {
    if rows == [] then []
    else if rows[0].sessionId == sessionId then [rows[0]] + RoiRowsOf(rows[1..], sessionId)
    else RoiRowsOf(rows[1..], sessionId)
  }

  function RoiCreatedAt(row: RoiRow): int { row.createdAt }
}
