/**
  The impact/complexity matrix of src/components/PortfolioChart.tsx. All
  positions are percentages of the drawing area: complexity 1..10 runs left
  to right over x in [10, 90], impact 1..10 bottom to top over y in [90, 10].
  Each project is drawn as a dot coloured by its category, over two axes, a
  grid of nine plus nine dashed lines and ten ticks on each axis.
 */
module PortfolioCharting {
  datatype Category = Core | Adjacente | Transformacional

  /** `categoryColors`. */
  function Colour(category: Category): (r: string)
    ensures |r| == 7 && r[0] == '#'
  {
    match category
    case Core => "#3b82f6"
    case Adjacente => "#8b5cf6"
    case Transformacional => "#ec4899"
  }

  /** The fields of a project the chart reads. */
  datatype ChartProject = ChartProject(name: string, impact: int, complexity: int, category: Category)

  datatype Line = Line(x1: real, y1: real, x2: real, y2: real)

  datatype Dot = Dot(cx: real, cy: real, fill: string, name: string)

  /** A tick mark with the position of its label and the number shown. */
  datatype Tick = Tick(mark: Line, labelX: real, labelY: real, number: int)

  datatype Chart = Chart(axes: seq<Line>, grid: seq<Line>, ticks: seq<Tick>, dots: seq<Dot>)

  /** The x of a complexity; no clamping. */
  function Cx(complexity: real): (r: real)
    ensures 1.0 <= complexity <= 10.0 <==> 10.0 <= r <= 90.0
  {
    ((complexity - 1.0) / 9.0) * 80.0 + 10.0
  }

  /** The y of an impact; no clamping. */
  function Cy(impact: real): (r: real)
    ensures 1.0 <= impact <= 10.0 <==> 10.0 <= r <= 90.0
  {
    90.0 - ((impact - 1.0) / 9.0) * 80.0
  }

  /** The dot of one project; it lies in the plot area exactly when both scores are in 1..10. */
  function DotOf(p: ChartProject): (r: Dot)
    ensures r.fill == Colour(p.category) && r.name == p.name
    ensures 1 <= p.complexity <= 10 <==> 10.0 <= r.cx <= 90.0
    ensures 1 <= p.impact <= 10 <==> 10.0 <= r.cy <= 90.0
  {
    Dot(Cx(p.complexity as real), Cy(p.impact as real), Colour(p.category), p.name)
  }

  /** `chartDots`: one dot per project, in the order of the list. */
  function ChartDots(projects: seq<ChartProject>): (r: seq<Dot>)
    ensures |r| == |projects|
    ensures forall i :: 0 <= i < |projects| ==> r[i] == DotOf(projects[i])
  {
    if projects == [] then [] else [DotOf(projects[0])] + ChartDots(projects[1..])
  }

  /** The two main axes: the complexity axis at the bottom, the impact axis at the left. */
  const Axes: seq<Line> := [Line(10.0, 90.0, 90.0, 90.0), Line(10.0, 90.0, 10.0, 10.0)]

  /** The position of grid line `i`. */
  function GridPos(i: int): real {
    (10 + i * 8) as real
  }

  function XTickPos(i: int): real {
    (2 + i * 8) as real
  }

  function YTickPos(i: int): real {
    (98 - i * 8) as real
  }

  function XTick(i: int): Tick {
    var x := XTickPos(i);
    Tick(Line(x, 90.0, x, 92.0), x, 96.0, i)
  }

  function YTick(i: int): Tick {
    var y := YTickPos(i);
    Tick(Line(8.0, y, 10.0, y), 6.0, (99 - i * 8) as real, i)
  }

  /** A dashed line across the plot area, vertical or horizontal, strictly between the axes' ends. */
  predicate InsideGrid(l: Line) {
    || (l.y1 == 10.0 && l.y2 == 90.0 && l.x1 == l.x2 && 10.0 < l.x1 < 90.0)
    || (l.x1 == 10.0 && l.x2 == 90.0 && l.y1 == l.y2 && 10.0 < l.y1 < 90.0)
  }

  /** `gridLines`: for i = 1..9, a vertical line then a horizontal line at 10 + 8i. */
  method GridLines() returns (lines: seq<Line>)
    ensures |lines| == 18
    ensures forall i :: 1 <= i <= 9 ==>
              && lines[2 * (i - 1)] == Line(GridPos(i), 10.0, GridPos(i), 90.0)
              && lines[2 * (i - 1) + 1] == Line(10.0, GridPos(i), 90.0, GridPos(i))
    ensures forall k :: 0 <= k < |lines| ==> InsideGrid(lines[k])
  {
    lines := [];
    for i := 1 to 10
      invariant |lines| == 2 * (i - 1)
      invariant forall j :: 1 <= j < i ==>
                  && lines[2 * (j - 1)] == Line(GridPos(j), 10.0, GridPos(j), 90.0)
                  && lines[2 * (j - 1) + 1] == Line(10.0, GridPos(j), 90.0, GridPos(j))
      invariant forall k :: 0 <= k < |lines| ==> InsideGrid(lines[k])
    {
      lines := lines + [Line(GridPos(i), 10.0, GridPos(i), 90.0)];
      lines := lines + [Line(10.0, GridPos(i), 90.0, GridPos(i))];
    }
  }

  /** `tickMarks`: for i = 1..10, the x-tick then the y-tick labelled i. */
  method TickMarks() returns (ticks: seq<Tick>)
    ensures |ticks| == 20
    ensures forall i :: 1 <= i <= 10 ==> ticks[2 * (i - 1)] == XTick(i) && ticks[2 * (i - 1) + 1] == YTick(i)
    ensures forall k :: 0 <= k < |ticks| ==> 1 <= ticks[k].number <= 10
  {
    ticks := [];
    for i := 1 to 11
      invariant |ticks| == 2 * (i - 1)
      invariant forall j :: 1 <= j < i ==> ticks[2 * (j - 1)] == XTick(j) && ticks[2 * (j - 1) + 1] == YTick(j)
      invariant forall k :: 0 <= k < |ticks| ==> 1 <= ticks[k].number < i
    {
      ticks := ticks + [XTick(i)];
      ticks := ticks + [YTick(i)];
    }
  }

  /** The whole drawing: the axes are there whatever the list, and the dots follow it. */
  method Render(projects: seq<ChartProject>) returns (chart: Chart)
    ensures chart.axes == Axes && |chart.axes| == 2
    ensures |chart.grid| == 18 && |chart.ticks| == 20
    ensures forall i :: 1 <= i <= 9 ==>
              && chart.grid[2 * (i - 1)] == Line(GridPos(i), 10.0, GridPos(i), 90.0)
              && chart.grid[2 * (i - 1) + 1] == Line(10.0, GridPos(i), 90.0, GridPos(i))
    ensures forall k :: 0 <= k < |chart.grid| ==> InsideGrid(chart.grid[k])
    ensures forall i :: 1 <= i <= 10 ==> chart.ticks[2 * (i - 1)] == XTick(i) && chart.ticks[2 * (i - 1) + 1] == YTick(i)
    ensures |chart.dots| == |projects|
    ensures forall i :: 0 <= i < |projects| ==>
              && chart.dots[i].cx == Cx(projects[i].complexity as real) && chart.dots[i].cy == Cy(projects[i].impact as real)
              && chart.dots[i].fill == Colour(projects[i].category) && chart.dots[i].name == projects[i].name
  {
    var grid := GridLines();
    var ticks := TickMarks();
    chart := Chart(Axes, grid, ticks, ChartDots(projects));
  }

  // ---------------------------------------------------------------------------
  // Geometry

  /** Complexity 1 is at the left end (x = 10), 10 at the right end (x = 90); impact 1 at the bottom, 10 at the top. */
  lemma Endpoints()
    ensures Cx(1.0) == 10.0 && Cx(10.0) == 90.0
    ensures Cy(1.0) == 90.0 && Cy(10.0) == 10.0
  {
  }

  /** Scores in [1, 10] land inside [10, 90]; nothing clamps the others, which land outside. */
  lemma CoordinatesInRange(c: real)
    ensures 1.0 <= c <= 10.0 <==> 10.0 <= Cx(c) <= 90.0
    ensures 1.0 <= c <= 10.0 <==> 10.0 <= Cy(c) <= 90.0
    ensures c < 1.0 ==> Cx(c) < 10.0 && Cy(c) > 90.0
    ensures c > 10.0 ==> Cx(c) > 90.0 && Cy(c) < 10.0
  {
  }

  /** More complexity is further right; more impact is higher up (smaller y). */
  lemma Monotone(a: real, b: real)
    ensures a < b <==> Cx(a) < Cx(b)
    ensures a < b <==> Cy(a) > Cy(b)
  {
  }

  /** The three categories have three different colours. */
  lemma ColoursDistinct(a: Category, b: Category)
    ensures a != b <==> Colour(a) != Colour(b)
  {
  }

  /**
    The tick labelled i on either axis is drawn at 2 + 8i (resp. 98 - 8i), but
    a dot of score i at 10 + 80(i-1)/9 (resp. 90 - 80(i-1)/9): they line up
    for the score 1 only.
   */
  lemma TicksMatchDotsOnlyAtOne(i: int)
    ensures XTickPos(i) == Cx(i as real) <==> i == 1
    ensures YTickPos(i) == Cy(i as real) <==> i == 1
  {
  }

}
