/** Order-preserving de-duplication, as `[...new Set(values)]` performs it. */
module Dedupe {

  /** The position of the first occurrence of `x` in `s`. */
  function FirstIndex<T(==)>(s: seq<T>, x: T): (i: nat)
    requires x in s
    ensures i < |s| && s[i] == x
    ensures forall j :: 0 <= j < i ==> s[j] != x
  {
    if s[0] == x then 0 else 1 + FirstIndex(s[1..], x)
  }

  /** Extending a sequence does not move the first occurrence of an element
      already present. */
  lemma FirstIndexOfPrefix<T>(s: seq<T>, n: nat, x: T)
    requires n <= |s| && x in s[..n]
    ensures FirstIndex(s, x) == FirstIndex(s[..n], x)
  {
    var a := FirstIndex(s, x);
    var b := FirstIndex(s[..n], x);
    assert s[b] == x by { assert s[..n][b] == s[b]; }
    assert a <= b;
    assert s[..n][a] == s[a];
  }

  /** The distinct elements of `s` in order of first appearance. */
  function Dedup<T(==,!new)>(s: seq<T>): (d: seq<T>)
    ensures forall x :: x in d <==> x in s
    ensures forall i, j :: 0 <= i < j < |d| ==> d[i] != d[j]
  {
    if |s| == 0 then []
    else
      var d := Dedup(s[..|s| - 1]);
      assert forall x :: x in s[..|s| - 1] ==> x in s;
      assert s == s[..|s| - 1] + [s[|s| - 1]];
      if s[|s| - 1] in d then d else d + [s[|s| - 1]]
  }

  /** The elements of `d` are ordered by their first appearance in `s`. */
  predicate FirstSeenOrder<T(==)>(s: seq<T>, d: seq<T>)
    requires forall x :: x in d ==> x in s
  {
    forall i, j :: 0 <= i < j < |d| ==> FirstIndex(s, d[i]) < FirstIndex(s, d[j])
  }

  /** `Dedup` lists the elements in the order in which they first appear. */
  lemma {:induction false} DedupKeepsFirstSeenOrder<T(!new)>(s: seq<T>)
    ensures FirstSeenOrder(s, Dedup(s))
  {
    if |s| > 0 {
      var n := |s| - 1;
      var p := s[..n];
      var d := Dedup(p);
      DedupKeepsFirstSeenOrder(p);
      assert FirstSeenOrder(p, d);
      var e := Dedup(s);
      assert e == if s[n] in d then d else d + [s[n]];
      forall i, j | 0 <= i < j < |e| ensures FirstIndex(s, e[i]) < FirstIndex(s, e[j]) {
        assert e[i] == d[i] && d[i] in p;
        FirstIndexOfPrefix(s, n, d[i]);
        if j < |d| {
          assert e[j] == d[j] && d[j] in p;
          FirstIndexOfPrefix(s, n, d[j]);
        } else {
          assert e[j] == s[n] && s[n] !in p;
          assert FirstIndex(s, s[n]) == n;
        }
      }
    }
  }
}

/** The AI insights page: the dataset preview fed to the model, the
    fallback response used when the model cannot be reached, the
    newest-first insight log, the on-page preview table and the text
    export. */
module Insights {
  import opened Outcomes
  import opened Text
  import opened Sheet
  import opened Dedupe

  const SampleRowCount := 5
  const ProfiledRowCount := 10
  const ShownValueCount := 3
  const PreviewCellWidth := 30

  /** An element as `Array.prototype.join` prints it: `undefined` as "". */
  function Joined(v: RawCell): string {
    if v.Undefined? then "" else KeyOf(v)
  }

  /** The column's values in the given rows. */
  function ColumnValues(rows: seq<Row>, h: string): (vs: seq<RawCell>)
    ensures |vs| == |rows|
    ensures forall i :: 0 <= i < |rows| ==> vs[i] == Lookup(rows[i], h)
  {
    seq(|rows|, i requires 0 <= i < |rows| => Lookup(rows[i], h))
  }

  /** `.filter(val => val !== "")`, keeping order. */
  function NonEmpty(vs: seq<RawCell>): (r: seq<RawCell>)
    ensures forall v :: v in r <==> v in vs && v != Val(EmptyCell)
    ensures |r| <= |vs|
  {
    if |vs| == 0 then []
    else (if vs[0] == Val(EmptyCell) then [] else [vs[0]]) + NonEmpty(vs[1..])
  }

  /** The distinct non-empty values of a column among the first ten rows,
      in order of first appearance. */
  function ColumnSample(rows: seq<Row>, h: string): (u: seq<RawCell>)
    ensures var f := NonEmpty(ColumnValues(Take(rows, ProfiledRowCount), h));
            forall v :: v in u <==> v in f
    ensures forall v :: v in u <==>
              v != Val(EmptyCell) &&
              exists i :: 0 <= i < |rows| && i < ProfiledRowCount && Lookup(rows[i], h) == v
    ensures forall a, b :: 0 <= a < b < |u| ==> u[a] != u[b]
    ensures FirstSeenOrder(NonEmpty(ColumnValues(Take(rows, ProfiledRowCount), h)), u)
  {
    var vs := ColumnValues(Take(rows, ProfiledRowCount), h);
    assert forall v :: v in vs <==> exists i :: 0 <= i < |rows| && i < ProfiledRowCount && Lookup(rows[i], h) == v by {
      forall v | v in vs ensures exists i :: 0 <= i < |rows| && i < ProfiledRowCount && Lookup(rows[i], h) == v {
        var i :| 0 <= i < |vs| && vs[i] == v;
        assert Take(rows, ProfiledRowCount)[i] == rows[i];
      }
      forall v | exists i :: 0 <= i < |rows| && i < ProfiledRowCount && Lookup(rows[i], h) == v ensures v in vs {
        var i :| 0 <= i < |rows| && i < ProfiledRowCount && Lookup(rows[i], h) == v;
        assert vs[i] == v;
      }
    }
    DedupKeepsFirstSeenOrder(NonEmpty(vs));
    Dedup(NonEmpty(vs))
  }

  /** One line of the preview's column profile: the header, at most three
      sample values, and whether more exist. */
  datatype Profile = Profile(header: string, shown: seq<RawCell>, more: bool)

  /** The whole preview document before it is printed. */
  datatype Digest = Digest(
    dataset: string,
    columnCount: nat,
    rowCount: nat,
    headers: seq<string>,
    samples: seq<Row>,
    profiles: seq<Profile>)

  function ProfileOf(rows: seq<Row>, h: string): Profile {
    var u := ColumnSample(rows, h);
    Profile(h, Take(u, ShownValueCount), |u| > ShownValueCount)
  }

  /** `createDataPreview` before printing: counts, headers, the first five
      rows, and one profile per header computed from the first ten rows. */
  function MakeDigest(dataset: string, headers: seq<string>, rows: seq<Row>): (d: Digest)
    ensures d.dataset == dataset && d.headers == headers
    ensures d.columnCount == |headers| && d.rowCount == |rows|
    ensures |d.samples| == if |rows| < SampleRowCount then |rows| else SampleRowCount
    ensures d.samples == rows[..|d.samples|]
    ensures |d.profiles| == |headers|
    ensures forall i :: 0 <= i < |headers| ==>
              && d.profiles[i].header == headers[i]
              && |d.profiles[i].shown| <= ShownValueCount
              && d.profiles[i].shown <= ColumnSample(rows, headers[i])
              && |d.profiles[i].shown| == (if |ColumnSample(rows, headers[i])| < ShownValueCount
                                          then |ColumnSample(rows, headers[i])| else ShownValueCount)
              && (d.profiles[i].more <==> |ColumnSample(rows, headers[i])| > ShownValueCount)
              && (!d.profiles[i].more ==> d.profiles[i].shown == ColumnSample(rows, headers[i]))
  {
    Digest(dataset, |headers|, |rows|, headers, Take(rows, SampleRowCount),
           seq(|headers|, i requires 0 <= i < |headers| => ProfileOf(rows, headers[i])))
  }

  /** `${header}: ${row[header]}, ` for every header. */
  function Fields(headers: seq<string>, row: Row): string {
    if |headers| == 0 then ""
    else headers[0] + ": " + KeyOf(Lookup(row, headers[0])) + ", " + Fields(headers[1..], row)
  }

  /** `Row n: ...` lines, numbered from `first`. */
  function SampleLines(headers: seq<string>, rows: seq<Row>, first: nat): string {
    if |rows| == 0 then ""
    else "Row " + NatText(first) + ": " + Fields(headers, rows[0]) + "\n"
         + SampleLines(headers, rows[1..], first + 1)
  }

  function JoinedValues(vs: seq<RawCell>): seq<string> {
    seq(|vs|, i requires 0 <= i < |vs| => Joined(vs[i]))
  }

  function ProfileLine(p: Profile): string {
    p.header + ": " + Join(JoinedValues(p.shown), ", ") + (if p.more then "..." else "") + "\n"
  }

  function ProfileLines(ps: seq<Profile>): string {
    if |ps| == 0 then "" else ProfileLine(ps[0]) + ProfileLines(ps[1..])
  }

  function Render(d: Digest): string {
    ("Dataset: " + d.dataset) + RenderCounts(d)
  }

  function RenderCounts(d: Digest): string {
    "\nColumns: " + NatText(d.columnCount)
    + "\nRows: " + NatText(d.rowCount) + "\n\nHeaders: " + Join(d.headers, ", ")
    + "\n\nSample Data:\n" + SampleLines(d.headers, d.samples, 1)
    + "\nData Types:\n" + ProfileLines(d.profiles)
  }

  /** The text handed to the AI model. */
  function Preview(dataset: string, headers: seq<string>, rows: seq<Row>): string {
    Render(MakeDigest(dataset, headers, rows))
  }

  /** The preview opens by naming the dataset. */
  lemma PreviewNamesDataset(dataset: string, headers: seq<string>, rows: seq<Row>)
    ensures var p := Preview(dataset, headers, rows);
            |p| >= 9 + |dataset| && p[..9 + |dataset|] == "Dataset: " + dataset
  {
  }

  /** The preview is bounded: beyond the row count it reads only the first
      ten rows. */
  lemma PreviewReadsTenRows(dataset: string, headers: seq<string>, rows: seq<Row>, rows': seq<Row>)
    requires |rows| == |rows'|
    requires Take(rows, ProfiledRowCount) == Take(rows', ProfiledRowCount)
    ensures Preview(dataset, headers, rows) == Preview(dataset, headers, rows')
  {
    assert Take(rows, SampleRowCount) == Take(rows', SampleRowCount) by {
      assert Take(rows, SampleRowCount) == Take(rows, ProfiledRowCount)[..|Take(rows, SampleRowCount)|];
    }
    var d := MakeDigest(dataset, headers, rows);
    var d' := MakeDigest(dataset, headers, rows');
    forall i | 0 <= i < |headers| ensures d.profiles[i] == d'.profiles[i] {
      assert ColumnSample(rows, headers[i]) == ColumnSample(rows', headers[i]);
    }
    assert d == d';
  }

  /** A preview is never blank, so once a sheet has loaded the analysis
      buttons never meet the "upload a file first" error. */
  lemma PreviewIsNeverBlank(dataset: string, headers: seq<string>, rows: seq<Row>)
    ensures !Blank(Preview(dataset, headers, rows))
  {
    var p := Preview(dataset, headers, rows);
    assert p[0] == 'D';
  }

  // ---------------------------------------------------------------------
  // The fallback response

  datatype Category = Summary | Trends | Recommendations | KeyInsights

  /** The substring test, in priority order, on the lower-cased prompt. */
  function CategoryOf(prompt: string): (c: Category)
    ensures var p := Lower(prompt);
            && (c == Summary <==> Contains(p, "summary"))
            && (c == Trends <==> !Contains(p, "summary") && Contains(p, "trend"))
            && (c == Recommendations <==>
                  !Contains(p, "summary") && !Contains(p, "trend") && Contains(p, "recommend"))
            && (c == KeyInsights <==>
                  !Contains(p, "summary") && !Contains(p, "trend") && !Contains(p, "recommend"))
  {
    var p := Lower(prompt);
    if Contains(p, "summary") then Summary
    else if Contains(p, "trend") then Trends
    else if Contains(p, "recommend") then Recommendations
    else KeyInsights
  }

  lemma {:induction false} LowerIdempotent(s: string)
    ensures Lower(Lower(s)) == Lower(s)
  {
    assert forall i :: 0 <= i < |s| ==> LowerChar(LowerChar(s[i])) == LowerChar(s[i]);
  }

  /** The classification ignores the case of ASCII letters. */
  lemma CategoryIgnoresCase(prompt: string)
    ensures CategoryOf(Lower(prompt)) == CategoryOf(prompt)
  {
    LowerIdempotent(prompt);
  }

  const SummaryPrompt :=
    "Provide a comprehensive summary of this dataset including key statistics, data types, and overall structure."
  const TrendsPrompt :=
    "Identify trends, patterns, and correlations in this data. What insights can you derive?"
  const RecommendationsPrompt :=
    "Based on this data, what actionable recommendations would you provide?"
  const InsightsPrompt :=
    "What are the most interesting and valuable insights from this dataset?"

  /** `headers[i]` inside a template string. */
  function HeaderAt(headers: seq<string>, i: nat): string {
    if i < |headers| then headers[i] else "undefined"
  }

  function Title(c: Category): (t: string)
    ensures |t| > 8
  {
    match c
    case Summary => "**Mock Data Summary**"
    case Trends => "**Mock Trend Analysis**"
    case Recommendations => "**Mock Recommendations**"
    case KeyInsights => "**Mock Key Insights**"
  }

  /** The body of `generateMockResponse`'s text for a category,
      interpolating the row count, the column count and header names. */
  function MockBody(c: Category, rowCount: nat, headers: seq<string>): string {
    match c
    case Summary =>
      "Dataset contains " + NatText(rowCount) + " rows with " + NatText(|headers|)
      + " columns.\nKey columns: " + Join(Take(headers, 3), ", ") + "..."
    case Trends =>
      "Potential trends in your data would be identified here.\nExample: Column \""
      + HeaderAt(headers, 0) + "\" shows possible seasonal patterns."
    case Recommendations =>
      "1. Clean missing values\n2. Explore correlation between " + HeaderAt(headers, 1)
      + " and " + HeaderAt(headers, 2) + "\n3. Segment analysis by key variables"
    case KeyInsights =>
      "1. 80% of values in " + HeaderAt(headers, 0)
      + " are within expected range\n2. Interesting outlier in row 42\n3. Potential data quality issues in "
      + HeaderAt(headers, 3)
  }

  function MockText(c: Category, rowCount: nat, headers: seq<string>): string {
    Title(c) + ("\n\n" + MockBody(c, rowCount, headers))
  }

  lemma TitlesDiffer(c: Category, c': Category, r: string, r': string)
    requires c != c'
    ensures Title(c) + r != Title(c') + r'
  {
    CharOfPrefix(Title(c), r, 7);
    CharOfPrefix(Title(c'), r', 7);
  }

  /** Different categories never give the same fallback text, whatever the
      data: each text opens with its own title. */
  lemma MockTextsDiffer(c: Category, c': Category, n: nat, n': nat, hs: seq<string>, hs': seq<string>)
    requires c != c'
    ensures MockText(c, n, hs) != MockText(c', n', hs')
  {
    TitlesDiffer(c, c', "\n\n" + MockBody(c, n, hs), "\n\n" + MockBody(c', n', hs'));
  }

  function MockResponse(prompt: string, rowCount: nat, headers: seq<string>): string {
    MockText(CategoryOf(prompt), rowCount, headers)
  }

  // ---------------------------------------------------------------------
  // The insight log

  datatype Source = Ai | Mock

  datatype Insight = Insight(id: int, query: string, response: string, timestamp: string, source: Source)

  /** What the call to the AI model produced: a generated text (possibly
      missing or empty), or an error with its message. */
  datatype Reply = Generated(text: Option<string>) | Failed(reason: string)

  const NoFileMessage := "Upload a file first."
  const NoResponseText := "No response generated."
  const NoFileName := "No file selected"

  datatype Page = Page(
    fileName: string,
    headers: seq<string>,
    rows: seq<Row>,
    preview: string,
    insights: seq<Insight>,
    query: string,
    analyzing: bool,
    loading: bool,
    error: string)

  const InitialPage := Page(NoFileName, [], [], "", [], "", false, false, "")

  /** The synchronous start of `analyzeWithMistral`: with a blank preview
      it only reports that no file is loaded; otherwise the request is in
      flight and the error is cleared. */
  function StartAnalyze(st: Page): (st': Page)
    ensures Blank(st.preview) ==> st' == st.(error := NoFileMessage)
    ensures !Blank(st.preview) ==> st' == st.(analyzing := true, error := "")
  {
    if Blank(st.preview) then st.(error := NoFileMessage) else st.(analyzing := true, error := "")
  }

  /** The end of `analyzeWithMistral` once `reply` has come back; `id` and
      `timestamp` stand for `Date.now()` and the local time. */
  function FinishAnalyze(st: Page, prompt: string, reply: Reply, id: int, timestamp: string): (st': Page)
    ensures |st'.insights| == |st.insights| + 1 && st'.insights[1..] == st.insights
    ensures st'.insights[0].query == prompt && st'.insights[0].id == id && st'.insights[0].timestamp == timestamp
    ensures st'.insights[0].source == Ai <==> reply.Generated?
    ensures st' == st.(insights := st'.insights, analyzing := false, error := st'.error)
    ensures reply.Generated? ==>
              && st'.error == st.error
              && st'.insights[0].response ==
                   (if reply.text.Some? && reply.text.value != "" then reply.text.value else NoResponseText)
    ensures reply.Failed? ==>
              && st'.error == "API Error: " + reply.reason
              && st'.insights[0].response == MockResponse(prompt, |st.rows|, st.headers)
  {
    match reply
    case Generated(text) =>
      var response := if text.Some? && text.value != "" then text.value else NoResponseText;
      st.(insights := [Insight(id, prompt, response, timestamp, Ai)] + st.insights, analyzing := false)
    case Failed(reason) =>
      var response := MockResponse(prompt, |st.rows|, st.headers);
      st.(insights := [Insight(id, prompt, response, timestamp, Mock)] + st.insights,
          analyzing := false, error := "API Error: " + reason)
  }

  /** `analyzeWithMistral` run to completion with the given reply, with no
      other event between its start and its end. */
  function Analyze(st: Page, prompt: string, reply: Reply, id: int, timestamp: string): (st': Page)
    ensures Blank(st.preview) ==> st' == st.(error := NoFileMessage)
    ensures !Blank(st.preview) ==>
              && |st'.insights| == |st.insights| + 1
              && st'.insights[1..] == st.insights
              && st'.insights[0].query == prompt
              && st'.insights[0].id == id && st'.insights[0].timestamp == timestamp
              && (st'.insights[0].source == Ai <==> reply.Generated?)
              && !st'.analyzing
              && st' == st.(insights := st'.insights, analyzing := false, error := st'.error)
    ensures !Blank(st.preview) && reply.Generated? ==>
              && st'.error == ""
              && st'.insights[0].response ==
                   (if reply.text.Some? && reply.text.value != "" then reply.text.value else NoResponseText)
    ensures !Blank(st.preview) && reply.Failed? ==>
              && st'.error == "API Error: " + reply.reason
              && st'.insights[0].response == MockResponse(prompt, |st.rows|, st.headers)
  {
    if Blank(st.preview) then StartAnalyze(st)
    else FinishAnalyze(StartAnalyze(st), prompt, reply, id, timestamp)
  }

  /** The send button is disabled while a request is in flight or the
      query is blank. */
  predicate QueryButtonEnabled(st: Page) {
    !st.analyzing && !Blank(st.query)
  }

  /** `handleCustomQuery` up to the request: a blank query does nothing;
      any other starts the analysis and clears the input. */
  function StartQuery(st: Page): (st': Page)
    ensures Blank(st.query) ==> st' == st
    ensures !Blank(st.query) ==> st' == StartAnalyze(st).(query := "")
  {
    if Blank(st.query) then st else StartAnalyze(st).(query := "")
  }

  /** The Enter key calls `handleCustomQuery` without the button's guard:
      while one request is in flight, typing a query and pressing Enter
      starts a second, which the disabled button would have refused. */
  lemma EnterKeyBypassesBusyButton(st: Page)
    requires st.analyzing && !Blank(st.query) && !Blank(st.preview)
    ensures !QueryButtonEnabled(st)
    ensures var st' := StartQuery(st); st'.analyzing && st'.query == "" && st'.error == ""
  {
  }

  /** `handleCustomQuery`: a blank query does nothing; any other is
      analysed and the input is cleared. */
  function SubmitQuery(st: Page, reply: Reply, id: int, timestamp: string): (st': Page)
    ensures Blank(st.query) ==> st' == st
    ensures !Blank(st.query) ==> st' == Analyze(st, st.query, reply, id, timestamp).(query := "")
  {
    if Blank(st.query) then st else Analyze(st, st.query, reply, id, timestamp).(query := "")
  }

  /** `processExcelFile` after `setFileName(name)`, as the page does it: the
      preview is built inside a callback created before the new name was
      stored, so it reads the previous file name. */
  function ProcessFileAsWritten(st: Page, name: string, outcome: ReadOutcome): (st': Page)
    ensures st'.fileName == name && !st'.loading
    ensures outcome.Read? && |outcome.json| > 0 ==>
              st'.preview == Preview(st.fileName, st'.headers, st'.rows)
  {
    Load(st.(fileName := name), st.fileName, outcome)
  }

  /** `processExcelFile` with the preview naming the file just chosen. */
  function ProcessFile(st: Page, name: string, outcome: ReadOutcome): (st': Page)
    ensures st'.fileName == name && !st'.loading
    ensures outcome.Unreadable? ==> st' == st.(fileName := name, loading := false, error := ParseFailureMessage)
    ensures outcome.Read? && |outcome.json| == 0 ==>
              st' == st.(fileName := name, loading := false, error := EmptyFileMessage)
    ensures outcome.Read? && |outcome.json| > 0 ==>
              && st'.error == ""
              && Ok(Table(st'.headers, st'.rows)) == BuildTable(outcome.json)
              && st'.preview == Preview(name, st'.headers, st'.rows)
              && !Blank(st'.preview)
  {
    var st' := Load(st.(fileName := name), name, outcome);
    PreviewIsNeverBlank(name, st'.headers, st'.rows);
    st'
  }

  function Load(st: Page, dataset: string, outcome: ReadOutcome): Page {
    var started := st.(loading := true, error := "");
    match outcome
    case Unreadable => started.(loading := false, error := ParseFailureMessage)
    case Read(json) =>
      match BuildTable(json)
      case Err(msg) => started.(loading := false, error := msg)
      case Ok(t) =>
        started.(headers := t.headers, rows := t.rows,
                 preview := Preview(dataset, t.headers, t.rows), loading := false)
  }

  /** The first upload of a page names no file in its preview: on a fresh
      page the as-written handler sends "Dataset: No file selected" to the
      model, where the corrected one names the chosen file. */
  lemma StaleDatasetName(name: string, json: seq<seq<RawCell>>)
    requires |json| > 0 && |name| > 0 && name[0] != NoFileName[0]
    ensures var written := ProcessFileAsWritten(InitialPage, name, Read(json));
            var intended := ProcessFile(InitialPage, name, Read(json));
            && written.preview[..9 + |NoFileName|] == "Dataset: " + NoFileName
            && intended.preview[..9 + |name|] == "Dataset: " + name
            && written.preview != intended.preview
  {
    var written := ProcessFileAsWritten(InitialPage, name, Read(json));
    var intended := ProcessFile(InitialPage, name, Read(json));
    var t := BuildTable(json).value;
    assert written.preview == Preview(NoFileName, t.headers, t.rows);
    assert intended.preview == Preview(name, t.headers, t.rows);
    PreviewNamesDataset(NoFileName, t.headers, t.rows);
    PreviewNamesDataset(name, t.headers, t.rows);
    DatasetLinesDiffer(NoFileName, name, RenderCounts(MakeDigest(NoFileName, t.headers, t.rows)),
                       RenderCounts(MakeDigest(name, t.headers, t.rows)));
  }

  lemma DatasetLinesDiffer(a: string, b: string, r: string, r': string)
    requires |a| > 0 && |b| > 0 && a[0] != b[0]
    ensures ("Dataset: " + a) + r != ("Dataset: " + b) + r'
  {
    CharOfPrefix("Dataset: " + a, r, 9);
    CharOfPrefix("Dataset: " + b, r', 9);
  }

  // ---------------------------------------------------------------------
  // The on-page preview table and the export

  /** A preview cell: `String(v || "")` cut to 30 UTF-16 code units, with
      "..." when the text is longer than 30 units. */
  function PreviewCell(v: RawCell): (shown: string)
    ensures var t := if Truthy(v) then KeyOf(v) else "";
            && Utf16Length(shown) <= PreviewCellWidth + 3
            && (Utf16Length(t) <= PreviewCellWidth ==> shown == t)
            && (Utf16Length(t) > PreviewCellWidth ==> shown == CutUnits(t, PreviewCellWidth) + "...")
  {
    var t := if Truthy(v) then KeyOf(v) else "";
    var shown := CutUnits(t, PreviewCellWidth) + (if Utf16Length(t) > PreviewCellWidth then "..." else "");
    Utf16Append(CutUnits(t, PreviewCellWidth), if Utf16Length(t) > PreviewCellWidth then "..." else "");
    assert "..."[1..] == ".." && ".."[1..] == "." && "."[1..] == "";
    shown
  }

  /** On text without characters above U+FFFF the cut is the plain
      30-character prefix. */
  lemma PreviewCellOfBmp(v: RawCell)
    requires var t := if Truthy(v) then KeyOf(v) else ""; Utf16Length(t) == |t|
    ensures var t := if Truthy(v) then KeyOf(v) else "";
            PreviewCell(v) == if |t| <= PreviewCellWidth then t else t[..PreviewCellWidth] + "..."
  {
    var t := if Truthy(v) then KeyOf(v) else "";
    CutUnitsOfBmp(t, PreviewCellWidth);
  }

  /** The preview table: the first five headers of the first five rows. */
  function PreviewGrid(headers: seq<string>, rows: seq<Row>): (g: seq<seq<string>>)
    ensures |g| == if |rows| < 5 then |rows| else 5
    ensures forall i :: 0 <= i < |g| ==> |g[i]| == if |headers| < 5 then |headers| else 5
    ensures forall i, j :: 0 <= i < |g| && 0 <= j < |g[i]| ==>
              g[i][j] == PreviewCell(Lookup(rows[i], headers[j]))
  {
    var hs := Take(headers, 5);
    var rs := Take(rows, 5);
    seq(|rs|, i requires 0 <= i < |rs| =>
      seq(|hs|, j requires 0 <= j < |hs| => PreviewCell(Lookup(rs[i], hs[j]))))
  }

  function ExportEntry(x: Insight): string {
    "Query: " + x.query + "\nResponse: " + x.response + "\n\n"
  }

  /** `downloadInsights`'s file content, in list order (newest first). */
  function ExportText(xs: seq<Insight>): string {
    Flatten(xs, ExportEntry)
  }

  /** Exporting a list exports its parts one after the other. */
  lemma ExportConcat(a: seq<Insight>, b: seq<Insight>)
    ensures ExportText(a + b) == ExportText(a) + ExportText(b)
  {
    FlattenAppend(a, b, ExportEntry);
  }

  /** Each analysis puts its entry in front of the earlier export. */
  lemma AnalyzeExtendsExport(st: Page, prompt: string, reply: Reply, id: int, timestamp: string)
    requires !Blank(st.preview)
    ensures var st' := Analyze(st, prompt, reply, id, timestamp);
            ExportText(st'.insights) == ExportEntry(st'.insights[0]) + ExportText(st.insights)
  {
    var st' := Analyze(st, prompt, reply, id, timestamp);
    ExportConcat([st'.insights[0]], st.insights);
  }
}
