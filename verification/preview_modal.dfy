/** The spreadsheet preview dialog: it parses the chosen file once, then
    shows a spinner, an error box or the full table, with row and column
    counts underneath. */
module PreviewModal {
  import opened Outcomes
  import opened Sheet

  /** The dialog's state: the raw header row, the row objects, the loading
      flag and the error message. */
  datatype Modal = Modal(headers: seq<RawCell>, data: seq<Row>, loading: bool, error: string)

  /** The state the dialog mounts with. */
  const Mounted := Modal([], [], true, "")

  /** The effect that reads `file`, run to completion from the dialog's
      current state `m`: it runs at mount and again whenever `file`
      changes. The reader's result is `outcome`; without a file the effect
      returns at once. It never sets the spinner back on and never clears
      an earlier error. */
  function Load(m: Modal, file: Option<ReadOutcome>): (m': Modal)
    ensures file.None? ==> m' == m
    ensures file == Some(Unreadable) ==> m' == m.(loading := false, error := ParseFailureMessage)
    ensures file == Some(Read([])) ==> m' == m.(loading := false, error := EmptyFileMessage)
    ensures file.Some? && file.value.Read? && |file.value.json| > 0 ==>
              var json := file.value.json;
              && m' == m.(headers := json[0], data := m'.data, loading := false)
              && BuildTable(json) == Ok(Table(HeaderKeys(json[0]), m'.data))
  {
    match file
    case None => m
    case Some(Unreadable) => m.(error := ParseFailureMessage, loading := false)
    case Some(Read(json)) =>
      match BuildTable(json)
      case Err(msg) => m.(error := msg, loading := false)
      case Ok(t) => m.(headers := json[0], data := t.rows, loading := false)
  }

  /** The effect's first run, on the state the dialog mounts with. */
  function Open(file: Option<ReadOutcome>): (m: Modal)
    ensures file.None? ==> m == Mounted
    ensures file.Some? ==> !m.loading
    ensures file == Some(Unreadable) ==> m == Modal([], [], false, ParseFailureMessage)
    ensures file == Some(Read([])) ==> m == Modal([], [], false, EmptyFileMessage)
    ensures file.Some? && file.value.Read? && |file.value.json| > 0 ==>
              var json := file.value.json;
              && m.error == ""
              && m.headers == json[0]
              && BuildTable(json) == Ok(Table(HeaderKeys(json[0]), m.data))
  {
    Load(Mounted, file)
  }

  /** The background of a table row. */
  datatype Shade = Darker | Lighter

  function Stripe(rowIndex: nat): Shade {
    if rowIndex % 2 == 0 then Darker else Lighter
  }

  /** Neighbouring rows never share a shade, and the pattern repeats every
      two rows. */
  lemma StripesAlternate(i: nat)
    ensures Stripe(i) != Stripe(i + 1)
    ensures Stripe(i) == Stripe(i + 2)
    ensures Stripe(i) == Darker <==> i % 2 == 0
  {
  }

  /** `String(v ?? "")`. */
  function CellText(v: RawCell): (t: string)
    ensures v.Undefined? ==> t == ""
    ensures v.Val? ==> t == KeyOf(v)
  {
    if v.Undefined? then "" else KeyOf(v)
  }

  /** What the body of the dialog shows. */
  datatype View =
    | Spinner
    | ErrorBox(message: string)
    | Grid(columns: seq<string>, cells: seq<seq<string>>, shades: seq<Shade>)

  function ViewOf(m: Modal): (v: View)
    ensures m.loading <==> v.Spinner?
    ensures v.ErrorBox? <==> !m.loading && m.error != ""
    ensures v.ErrorBox? ==> v.message == m.error
    ensures v.Grid? ==>
              && |v.columns| == |m.headers|
              && (forall j :: 0 <= j < |m.headers| ==> v.columns[j] == CellText(m.headers[j]))
              && |v.cells| == |v.shades| == |m.data|
              && (forall i :: 0 <= i < |m.data| ==> |v.cells[i]| == |m.headers| && v.shades[i] == Stripe(i))
              && (forall i, j :: 0 <= i < |m.data| && 0 <= j < |m.headers| ==>
                    v.cells[i][j] == CellText(Lookup(m.data[i], KeyOf(m.headers[j]))))
  {
    if m.loading then Spinner
    else if m.error != "" then ErrorBox(m.error)
    else
      Grid(seq(|m.headers|, j requires 0 <= j < |m.headers| => CellText(m.headers[j])),
           seq(|m.data|, i requires 0 <= i < |m.data| =>
             seq(|m.headers|, j requires 0 <= j < |m.headers| =>
               CellText(Lookup(m.data[i], KeyOf(m.headers[j]))))),
           seq(|m.data|, i requires 0 <= i < |m.data| => Stripe(i)))
  }

  /** The footer: the number of rows and the number of columns. */
  function Footer(m: Modal): (nat, nat) {
    (|m.data|, |m.headers|)
  }

  /** A readable sheet opens as a table with one row per data row and one
      column per header cell; every cell shows the sheet's own value under
      its header, padded with "" where the row is short. */
  lemma OpenedSheetShowsTable(json: seq<seq<RawCell>>)
    requires |json| > 0
    ensures var m := Open(Some(Read(json)));
            var v := ViewOf(m);
            && v.Grid?
            && Footer(m) == (|json| - 1, |json[0]|)
            && (forall i, j :: 0 <= i < |json| - 1 && 0 <= j < |json[0]| ==>
                  v.cells[i][j] == KeyOf(Val(CellAt(json[i + 1], LastIndex(HeaderKeys(json[0]), KeyOf(json[0][j]))))))
  {
    var m := Open(Some(Read(json)));
    var v := ViewOf(m);
    var hs := HeaderKeys(json[0]);
    forall i, j | 0 <= i < |json| - 1 && 0 <= j < |json[0]|
      ensures v.cells[i][j] == KeyOf(Val(CellAt(json[i + 1], LastIndex(hs, KeyOf(json[0][j])))))
    {
      var k := KeyOf(json[0][j]);
      assert hs[j] == k;
      assert k in m.data[i];
    }
  }

  /** Once the dialog shows an error, no later file clears it: whatever
      the next read gives, the error box stays, even over a readable
      sheet whose rows are loaded underneath. */
  lemma ErrorOutlivesNextFile(m: Modal, outcome: ReadOutcome)
    requires !m.loading && m.error != ""
    ensures var m' := Load(m, Some(outcome));
            && ViewOf(m').ErrorBox?
            && (outcome.Read? && |outcome.json| > 0 ==> ViewOf(m') == ErrorBox(m.error))
  {
  }

  /** A dialog whose first file failed to parse still shows that failure
      after it is handed a readable sheet. */
  lemma FailedThenReadable(json: seq<seq<RawCell>>)
    requires |json| > 0
    ensures ViewOf(Load(Open(Some(Unreadable)), Some(Read(json)))) == ErrorBox(ParseFailureMessage)
  {
    ErrorOutlivesNextFile(Open(Some(Unreadable)), Read(json));
  }

  /** Every outcome of a read clears the spinner; only a readable, non-empty
      sheet gives a table and every failure gives its own message. */
  lemma OpenSettles(outcome: ReadOutcome)
    ensures var v := ViewOf(Open(Some(outcome)));
            && !v.Spinner?
            && (v.Grid? <==> outcome.Read? && |outcome.json| > 0)
            && (v.ErrorBox? && v.message == ParseFailureMessage <==> outcome.Unreadable?)
            && (v.ErrorBox? && v.message == EmptyFileMessage <==> outcome == Read([]))
  {
  }
}
