/** The chart page: loading a sheet into page state, the chart
    configuration built from the selected X and Y columns, and the export
    decision. */
module Chart {
  import opened Outcomes
  import opened Sheet

  datatype Kind = Bar | Line | Pie | ThreeD

  datatype SchemeName = Blue | Purple | Green | Orange

  /** A colour scheme: the fill for non-pie charts, the border colour, and
      the per-slice colours of a pie (also the bar colours of the 3D view). */
  datatype Scheme = Scheme(primary: string, secondary: string, gradient: seq<string>)

  function SchemeOf(name: SchemeName): (s: Scheme)
    ensures |s.gradient| > 0
  {
    match name
    case Blue => Scheme("#3B82F6", "#1E40AF",
      ["#3B82F6", "#1E40AF", "#1D4ED8", "#2563EB", "#1E3A8A",
       "#1E40AB", "#2B3A8F", "#2C4ED8", "#1E2A8A", "#1E3D8B"])
    case Purple => Scheme("#8B5CF6", "#7C3AED",
      ["#8B5CF6", "#7C3AED", "#6D28D9", "#5B21B6", "#4C1D95",
       "#3B0764", "#2C0A4B", "#1E0D32", "#1E0F19"])
    case Green => Scheme("#10B981", "#059669",
      ["#10B981", "#059669", "#047857", "#065F46", "#064E3B",
       "#065F46", "#047857", "#059669", "#10B981"])
    case Orange => Scheme("#F59E0B", "#D97706",
      ["#F59E0B", "#D97706", "#B45309", "#92400E", "#78350F",
       "#6A2C0D", "#5B210A", "#4C1D08", "#3B1606"])
  }

  /** The dataset fill: one colour for every bar or point, or one colour
      per pie slice. */
  datatype Fill = Solid(color: string) | PerSlice(colors: seq<string>)

  /** The chart data handed to the 2D renderer. */
  datatype ChartConfig = ChartConfig(
    labels: seq<RawCell>,
    seriesName: string,
    data: seq<real>,
    background: Fill,
    border: string)

  /** The value plotted for a Y cell. `numeric(s)` stands for JavaScript's
      `!isNaN(s) ? parseFloat(s) : <not numeric>`; the empty-string guard is
      the page's own. */
  function SeriesValue(v: RawCell, numeric: string -> Option<real>): (x: real)
    ensures v == Val(Str("")) ==> x == 0.0
    ensures v.Undefined? ==> x == 0.0
    ensures v.Val? && v.cell.Num? ==> x == v.cell.value
    ensures v.Val? && v.cell.Str? && v.cell.s != "" && numeric(v.cell.s).Some? ==>
              x == numeric(v.cell.s).value
    ensures v.Val? && v.cell.Str? && numeric(v.cell.s).None? ==> x == 0.0
  {
    match v
    case Val(Str(s)) => if s != "" && numeric(s).Some? then numeric(s).value else 0.0
    case Val(Num(n, _)) => n
    case Undefined => 0.0
  }

  /** `generateChart`'s configuration: one label and one value per row, in
      row order, nothing dropped. */
  function BuildConfig(rows: seq<Row>, x: string, y: string, kind: Kind, scheme: SchemeName,
                       numeric: string -> Option<real>): (c: ChartConfig)
    ensures |c.labels| == |rows| && |c.data| == |rows|
    ensures forall i :: 0 <= i < |rows| ==> c.labels[i] == Lookup(rows[i], x)
    ensures forall i :: 0 <= i < |rows| ==> c.data[i] == SeriesValue(Lookup(rows[i], y), numeric)
    ensures c.seriesName == y
    ensures kind == Pie ==> c.background == PerSlice(SchemeOf(scheme).gradient)
    ensures kind != Pie ==> c.background == Solid(SchemeOf(scheme).primary)
    ensures c.border == SchemeOf(scheme).secondary
  {
    var colors := SchemeOf(scheme);
    ChartConfig(
      seq(|rows|, i requires 0 <= i < |rows| => Lookup(rows[i], x)),
      y,
      seq(|rows|, i requires 0 <= i < |rows| => SeriesValue(Lookup(rows[i], y), numeric)),
      if kind == Pie then PerSlice(colors.gradient) else Solid(colors.primary),
      colors.secondary)
  }

  /** Charting two batches of rows is charting each batch: the builder
      works row by row, so it neither reorders nor drops nor merges rows. */
  lemma BuildConfigSplits(a: seq<Row>, b: seq<Row>, x: string, y: string, kind: Kind,
                          scheme: SchemeName, numeric: string -> Option<real>)
    ensures var ca := BuildConfig(a, x, y, kind, scheme, numeric);
            var cb := BuildConfig(b, x, y, kind, scheme, numeric);
            var c := BuildConfig(a + b, x, y, kind, scheme, numeric);
            c.labels == ca.labels + cb.labels && c.data == ca.data + cb.data
  {
    var ca := BuildConfig(a, x, y, kind, scheme, numeric);
    var cb := BuildConfig(b, x, y, kind, scheme, numeric);
    var c := BuildConfig(a + b, x, y, kind, scheme, numeric);
    assert forall i :: 0 <= i < |a| ==> (a + b)[i] == a[i];
    assert forall i :: |a| <= i < |a| + |b| ==> (a + b)[i] == b[i - |a|];
    assert c.labels == ca.labels + cb.labels;
    assert c.data == ca.data + cb.data;
  }

  /** The chart page's state. */
  datatype Page = Page(
    headers: seq<string>,
    rows: seq<Row>,
    x: string,
    y: string,
    kind: Kind,
    scheme: SchemeName,
    chart: Option<ChartConfig>,
    loading: bool,
    error: string)

  const InitialPage := Page([], [], "", "", Bar, Blue, None, false, "")

  /** `processExcelFile`: start loading and clear the error, then handle the
      reader's outcome. */
  function ProcessFile(st: Page, outcome: ReadOutcome): (st': Page)
    ensures !st'.loading
    ensures st'.kind == st.kind && st'.scheme == st.scheme && st'.chart == st.chart
    ensures outcome.Unreadable? ==>
              st' == st.(loading := false, error := ParseFailureMessage)
    ensures outcome.Read? && |outcome.json| == 0 ==>
              st' == st.(loading := false, error := EmptyFileMessage)
    ensures outcome.Read? && |outcome.json| > 0 ==>
              && st'.error == ""
              && Ok(Table(st'.headers, st'.rows)) == BuildTable(outcome.json)
              && (st'.x, st'.y) == DefaultAxes(outcome.json[0])
  {
    var started := st.(loading := true, error := "");
    match outcome
    case Unreadable => started.(loading := false, error := ParseFailureMessage)
    case Read(json) =>
      match BuildTable(json)
      case Err(msg) => started.(loading := false, error := msg)
      case Ok(t) =>
        var axes := DefaultAxes(json[0]);
        started.(headers := t.headers, rows := t.rows, x := axes.0, y := axes.1, loading := false)
  }

  /** `generateChart`: nothing happens without rows or without both axes. */
  function GenerateChart(st: Page, numeric: string -> Option<real>): (st': Page)
    ensures |st.rows| == 0 || st.x == "" || st.y == "" ==> st' == st
    ensures |st.rows| > 0 && st.x != "" && st.y != "" ==>
              st' == st.(chart := Some(BuildConfig(st.rows, st.x, st.y, st.kind, st.scheme, numeric)))
  {
    if |st.rows| == 0 || st.x == "" || st.y == "" then st
    else st.(chart := Some(BuildConfig(st.rows, st.x, st.y, st.kind, st.scheme, numeric)))
  }

  /** Loading a sheet whose first two header cells are non-empty strings and
      then charting it plots column 1 against column 0 of every data row,
      in sheet order. */
  lemma LoadThenChart(st: Page, json: seq<seq<RawCell>>, numeric: string -> Option<real>, i: nat)
    requires |json| >= 2 && |json[0]| >= 2
    requires json[0][0].Val? && json[0][0].cell.Str? && json[0][0].cell.s != ""
    requires json[0][1].Val? && json[0][1].cell.Str? && json[0][1].cell.s != ""
    requires i < |json| - 1
    ensures var loaded := GenerateChart(ProcessFile(st, Read(json)), numeric);
            var hs := HeaderKeys(json[0]);
            && loaded.chart.Some?
            && |loaded.chart.value.labels| == |json| - 1
            && loaded.chart.value.labels[i] == Val(CellAt(json[i + 1], LastIndex(hs, hs[0])))
            && loaded.chart.value.data[i] ==
                 SeriesValue(Val(CellAt(json[i + 1], LastIndex(hs, hs[1]))), numeric)
  {
    var p := ProcessFile(st, Read(json));
    var hs := HeaderKeys(json[0]);
    assert p.x == hs[0] && p.y == hs[1];
    assert hs[0] in p.rows[i] && hs[1] in p.rows[i];
  }

  /** What the download button does. */
  datatype ExportAction = SavePng | Announce3DUnsupported | DoNothing

  /** `downloadChart`: a PNG of the mounted 2D chart, an announcement for
      the 3D view, nothing otherwise. */
  function Export(kind: Kind, chartMounted: bool): (a: ExportAction)
    ensures a == SavePng <==> chartMounted && kind != ThreeD
    ensures a == Announce3DUnsupported <==> kind == ThreeD
  {
    if chartMounted && kind != ThreeD then SavePng
    else if kind == ThreeD then Announce3DUnsupported
    else DoNothing
  }
}

/** The arithmetic of the 3D bar scene: bar heights scaled so the tallest
    reaches 5, bars 0.8 apart and centred on the origin, colours taken
    cyclically from the scheme's gradient. */
module Bar3D {
  import opened Sheet
  import Chart

  /** One labelled value as the 3D view receives it. */
  datatype Item = Item(caption: RawCell, value: real)

  /** A laid-out bar: its centre on the horizontal axis, its height and its
      colour, with the label and value it prints. */
  datatype Bar = Bar(x: real, height: real, color: string, caption: RawCell, value: real)

  const Spacing: real := 0.8
  const MaxHeight: real := 5.0

  /** `chartData.labels.map((label, index) => ({label, value: data[index]}))`. */
  function Items(c: Chart.ChartConfig): (items: seq<Item>)
    requires |c.labels| == |c.data|
    ensures |items| == |c.labels|
    ensures forall i :: 0 <= i < |items| ==> items[i] == Item(c.labels[i], c.data[i])
  {
    seq(|c.labels|, i requires 0 <= i < |c.labels| => Item(c.labels[i], c.data[i]))
  }

  function Values(items: seq<Item>): (vs: seq<real>)
    ensures |vs| == |items|
    ensures forall i :: 0 <= i < |items| ==> vs[i] == items[i].value
  {
    seq(|items|, i requires 0 <= i < |items| => items[i].value)
  }

  /** `Math.max(...values)`. */
  function MaxOf(vs: seq<real>): (m: real)
    requires |vs| > 0
    ensures forall i :: 0 <= i < |vs| ==> vs[i] <= m
    ensures exists i :: 0 <= i < |vs| && vs[i] == m
  {
    if |vs| == 1 then vs[0]
    else
      var rest := MaxOf(vs[1..]);
      assert forall i :: 1 <= i < |vs| ==> vs[i] == vs[1..][i - 1];
      if vs[0] >= rest then vs[0] else rest
  }

  /** The horizontal centre of bar `i` of `n`. */
  function Position(i: nat, n: nat): real {
    i as real * Spacing - (n as real * Spacing) / 2.0 + 0.4
  }

  /** The height of a bar of value `v` when the largest value is `m`:
      `v * (5 / m)`, so that height and value keep the ratio 5 : m. */
  function Height(v: real, m: real): (h: real)
    requires m != 0.0
    ensures h * m == v * MaxHeight
  {
    v * (MaxHeight / m)
  }

  /** The series the scene can lay out: the source divides by the largest
      value without a guard, so that value must not be zero. An empty
      series draws no bar and divides by nothing that is used. */
  predicate Drawable(items: seq<Item>) {
    |items| == 0 || MaxOf(Values(items)) != 0.0
  }

  /** The scene's bars. */
  function Layout(items: seq<Item>, scheme: Chart.SchemeName): (bars: seq<Bar>)
    requires Drawable(items)
    ensures |bars| == |items|
    ensures forall i :: 0 <= i < |bars| ==>
              && bars[i].x == Position(i, |items|)
              && bars[i].height == Height(items[i].value, MaxOf(Values(items)))
              && bars[i].caption == items[i].caption
              && bars[i].value == items[i].value
    ensures var g := Chart.SchemeOf(scheme).gradient;
            forall i :: 0 <= i < |bars| ==> bars[i].color == g[i % |g|]
  {
    if |items| == 0 then []
    else
      var colors := Chart.SchemeOf(scheme).gradient;
      var m := MaxOf(Values(items));
      seq(|items|, i requires 0 <= i < |items| =>
        Bar(Position(i, |items|), Height(items[i].value, m), colors[i % |colors|],
            items[i].caption, items[i].value))
  }

  /** Neighbouring bars are 0.8 apart, and the row is symmetric about the
      origin. */
  lemma LayoutIsCentred(items: seq<Item>, scheme: Chart.SchemeName, i: nat)
    requires Drawable(items)
    requires i < |items|
    ensures var bars := Layout(items, scheme);
            bars[i].x + bars[|items| - 1 - i].x == 0.0
    ensures var bars := Layout(items, scheme);
            i + 1 < |items| ==> bars[i + 1].x - bars[i].x == Spacing
  {
  }

  /** Every bar is at most 5 high, and the bar of the largest value is
      exactly 5 high. */
  lemma TallestBarReachesMax(items: seq<Item>, scheme: Chart.SchemeName)
    requires |items| > 0 && MaxOf(Values(items)) > 0.0
    ensures var bars := Layout(items, scheme);
            && (forall i :: 0 <= i < |bars| ==> bars[i].height <= MaxHeight)
            && (exists i :: 0 <= i < |bars| && bars[i].height == MaxHeight)
  {
    var bars := Layout(items, scheme);
    var m := MaxOf(Values(items));
    forall i | 0 <= i < |bars| ensures bars[i].height <= MaxHeight {
      assert Values(items)[i] <= m;
      HeightBound(items[i].value, m);
    }
    var k :| 0 <= k < |items| && Values(items)[k] == m;
    HeightOfMax(m);
    assert bars[k].height == Height(m, m);
  }

  /** A series of negative values only is drawn upside down in scale:
      every bar is at least 5 high, and the bar of the largest (least
      negative) value is exactly 5 high. */
  lemma NegativeSeriesStandsTall(items: seq<Item>, scheme: Chart.SchemeName)
    requires |items| > 0 && MaxOf(Values(items)) < 0.0
    ensures var bars := Layout(items, scheme);
            && (forall i :: 0 <= i < |bars| ==> bars[i].height >= MaxHeight)
            && (exists i :: 0 <= i < |bars| && bars[i].height == MaxHeight)
  {
    var bars := Layout(items, scheme);
    var m := MaxOf(Values(items));
    forall i | 0 <= i < |bars| ensures bars[i].height >= MaxHeight {
      assert Values(items)[i] <= m;
      HeightBelowNegative(items[i].value, m);
    }
    var k :| 0 <= k < |items| && Values(items)[k] == m;
    HeightOfMax(m);
    assert bars[k].height == Height(m, m);
  }

  lemma HeightBelowNegative(v: real, m: real)
    requires m < 0.0 && v <= m
    ensures Height(v, m) >= MaxHeight
  {
    var h := Height(v, m);
    assert (h - MaxHeight) * m == (v - m) * MaxHeight;
  }

  lemma HeightBound(v: real, m: real)
    requires m > 0.0 && v <= m
    ensures Height(v, m) <= MaxHeight
  {
    var h := Height(v, m);
    assert (MaxHeight - h) * m == (m - v) * MaxHeight;
  }

  lemma HeightOfMax(m: real)
    requires m != 0.0
    ensures Height(m, m) == MaxHeight
  {
    var h := Height(m, m);
    assert (h - MaxHeight) * m == 0.0;
  }

  /** Bars whose positions differ by a whole gradient share a colour. */
  lemma ColorsRepeat(items: seq<Item>, scheme: Chart.SchemeName, i: nat)
    requires Drawable(items)
    requires i + |Chart.SchemeOf(scheme).gradient| < |items|
    ensures var bars := Layout(items, scheme);
            bars[i].color == bars[i + |Chart.SchemeOf(scheme).gradient|].color
  {
    var g := Chart.SchemeOf(scheme).gradient;
    var bars := Layout(items, scheme);
    GradientIndexRepeats(scheme, i);
    assert bars[i].color == g[i % |g|];
    assert bars[i + |g|].color == g[(i + |g|) % |g|];
  }

  /** Shifting an index by the gradient's length picks the same colour. */
  lemma GradientIndexRepeats(scheme: Chart.SchemeName, i: nat)
    ensures var n := |Chart.SchemeOf(scheme).gradient|;
            (i + n) % n == i % n
  {
    if scheme == Chart.Blue {
      assert |Chart.SchemeOf(scheme).gradient| == 10;
    } else {
      assert |Chart.SchemeOf(scheme).gradient| == 9;
    }
  }
}
