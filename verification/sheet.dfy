/** The tabular model every page builds from a parsed worksheet: the first
    row of the array-of-arrays becomes the header list, every later row a
    map from header to cell, with missing cells defaulting to the empty
    string. The same construction appears in the chart page, the insights
    page and the preview modal; it is defined once here. */
module Sheet {
  import opened Outcomes

  /** A value the spreadsheet parser puts in a cell: a string, or a number
      together with the text JavaScript's `String()` gives for it. */
  datatype Cell = Str(s: string) | Num(value: real, text: string)

  /** An element of a row array as the pages index it: a cell, or
      `undefined` for an index past the end of a short row. */
  datatype RawCell = Undefined | Val(cell: Cell)

  /** A row object: header name to cell. */
  type Row = map<string, Cell>

  datatype Table = Table(headers: seq<string>, rows: seq<Row>)

  const EmptyFileMessage := "Empty or invalid Excel file."
  const ParseFailureMessage := "Failed to parse Excel file."

  const EmptyCell := Str("")

  /** What the file reader and the spreadsheet library hand the page: the
      rows of the first worksheet, or a thrown parse error. */
  datatype ReadOutcome = Read(json: seq<seq<RawCell>>) | Unreadable

  /** The text of a value used as an object key or printed by `String()`. */
  function KeyOf(v: RawCell): string {
    match v
    case Undefined => "undefined"
    case Val(Str(s)) => s
    case Val(Num(_, t)) => t
  }

  /** JavaScript truthiness of a cell (NaN is not a value of this model). */
  predicate Truthy(v: RawCell) {
    match v
    case Undefined => false
    case Val(Str(s)) => s != ""
    case Val(Num(x, _)) => x != 0.0
  }

  /** `row[i] ?? ""`. */
  function CellAt(raw: seq<RawCell>, i: nat): (c: Cell)
    ensures i < |raw| && raw[i].Val? ==> c == raw[i].cell
    ensures i >= |raw| || raw[i].Undefined? ==> c == EmptyCell
  {
    if i < |raw| && raw[i].Val? then raw[i].cell else EmptyCell
  }

  /** `row[key]` on a row object: `undefined` when the key is absent. */
  function Lookup(row: Row, key: string): (v: RawCell)
    ensures v.Val? <==> key in row
    ensures key in row ==> v.cell == row[key]
  {
    if key in row then Val(row[key]) else Undefined
  }

  /** The header names of a header row. */
  function HeaderKeys(headerRow: seq<RawCell>): (hs: seq<string>)
    ensures |hs| == |headerRow|
    ensures forall i :: 0 <= i < |hs| ==> hs[i] == KeyOf(headerRow[i])
  {
    seq(|headerRow|, i requires 0 <= i < |headerRow| => KeyOf(headerRow[i]))
  }

  /** The last position of `k` in `s`: the column whose value a row object
      keeps when several columns share a header name. */
  function LastIndex(s: seq<string>, k: string): (i: nat)
    requires k in s
    ensures i < |s| && s[i] == k
    ensures forall j :: i < j < |s| ==> s[j] != k
  {
    if s[|s| - 1] == k then |s| - 1 else LastIndex(s[..|s| - 1], k)
  }

  /** The row object `headers.forEach((key, i) => rowObj[key] = row[i] ?? "")`
      builds: assignments run left to right, so a later column overwrites an
      earlier one of the same name. */
  function RowFrom(headers: seq<string>, raw: seq<RawCell>): (m: Row)
    ensures m.Keys == set k | k in headers
    ensures forall k :: k in m ==> m[k] == CellAt(raw, LastIndex(headers, k))
    decreases |headers|
  {
    if |headers| == 0 then map[]
    else
      var n := |headers| - 1;
      RowFrom(headers[..n], raw)[headers[n] := CellAt(raw, n)]
  }

  /** Builds the table from the rows of the first worksheet. An empty sheet
      (not even a header row) is an error; a header row alone gives a table
      with no rows. */
  function BuildTable(json: seq<seq<RawCell>>): (r: Result<Table>)
    ensures r.Err? <==> |json| == 0
    ensures r.Err? ==> r.message == EmptyFileMessage
    ensures r.Ok? ==> r.value.headers == HeaderKeys(json[0])
    ensures r.Ok? ==> |r.value.rows| == |json| - 1
    ensures r.Ok? ==> forall i :: 0 <= i < |r.value.rows| ==>
              r.value.rows[i].Keys == set k | k in r.value.headers
    ensures r.Ok? ==> forall i, k :: 0 <= i < |r.value.rows| && k in r.value.rows[i] ==>
              r.value.rows[i][k] == CellAt(json[i + 1], LastIndex(r.value.headers, k))
  {
    if |json| == 0 then Err(EmptyFileMessage)
    else
      var hs := HeaderKeys(json[0]);
      Ok(Table(hs, seq(|json| - 1, i requires 0 <= i < |json| - 1 => RowFrom(hs, json[i + 1]))))
  }

  /** A row keeps each column's cell under that column's header when the
      header names are distinct; a short row is padded with empty strings. */
  lemma DistinctHeadersKeepEveryColumn(json: seq<seq<RawCell>>, i: nat, j: nat)
    requires |json| > 0 && i < |json| - 1 && j < |json[0]|
    requires forall a, b :: 0 <= a < b < |json[0]| ==> KeyOf(json[0][a]) != KeyOf(json[0][b])
    ensures var t := BuildTable(json).value;
            t.rows[i][t.headers[j]] == CellAt(json[i + 1], j)
  {
    var t := BuildTable(json).value;
    var k := t.headers[j];
    assert k in t.rows[i];
    assert LastIndex(t.headers, k) == j;
  }

  /** The number of distinct elements of a sequence. */
  function Distinct(s: seq<string>): set<string> {
    set k | k in s
  }

  lemma {:induction false} DistinctCard(s: seq<string>)
    ensures |Distinct(s)| <= |s|
    ensures |Distinct(s)| == |s| <==> forall a, b :: 0 <= a < b < |s| ==> s[a] != s[b]
  {
    if |s| > 0 {
      var n := |s| - 1;
      var p := s[..n];
      DistinctCard(p);
      assert Distinct(s) == Distinct(p) + {s[n]};
      if s[n] in p {
        assert Distinct(s) == Distinct(p);
        var a :| 0 <= a < n && p[a] == s[n];
        assert s[a] == s[n];
      } else {
        assert |Distinct(s)| == |Distinct(p)| + 1;
        if |Distinct(s)| == |s| {
          forall a, b | 0 <= a < b < |s| ensures s[a] != s[b] {
            if b < n {
              assert p[a] == s[a] && p[b] == s[b];
            } else {
              assert s[a] == p[a] && p[a] in p;
            }
          }
        }
      }
    }
  }

  /** Every row object has exactly one key per header when the header names
      are distinct, and fewer keys than headers when some name repeats. */
  lemma RowKeyCount(json: seq<seq<RawCell>>, i: nat)
    requires |json| > 0 && i < |json| - 1
    ensures var t := BuildTable(json).value;
            |t.rows[i]| <= |t.headers| &&
            (|t.rows[i]| == |t.headers| <==>
               forall a, b :: 0 <= a < b < |t.headers| ==> t.headers[a] != t.headers[b])
  {
    var t := BuildTable(json).value;
    DistinctCard(t.headers);
    assert t.rows[i].Keys == Distinct(t.headers);
  }

  /** The default axis selections `parsedHeaders[0] || ""` and
      `parsedHeaders[1] || ""`. */
  function DefaultAxes(headerRow: seq<RawCell>): (axes: (string, string))
    ensures axes.0 != "" ==> |headerRow| > 0 && axes.0 == KeyOf(headerRow[0])
    ensures axes.1 != "" ==> |headerRow| > 1 && axes.1 == KeyOf(headerRow[1])
    ensures |headerRow| > 0 && Truthy(headerRow[0]) ==> axes.0 == KeyOf(headerRow[0])
    ensures |headerRow| > 1 && Truthy(headerRow[1]) ==> axes.1 == KeyOf(headerRow[1])
    ensures |headerRow| == 0 || !Truthy(headerRow[0]) ==> axes.0 == ""
    ensures |headerRow| <= 1 || !Truthy(headerRow[1]) ==> axes.1 == ""
  {
    var x := if |headerRow| > 0 && Truthy(headerRow[0]) then KeyOf(headerRow[0]) else "";
    var y := if |headerRow| > 1 && Truthy(headerRow[1]) then KeyOf(headerRow[1]) else "";
    (x, y)
  }
}
