/** The upload page: the file type and size gate, the simulated progress
    counter driven by interval ticks, file removal and drag-and-drop. */
module Upload {
  import opened Outcomes

  /** The properties of a browser `File` the page reads. */
  datatype FileInfo = FileInfo(name: string, mime: string, size: nat)

  /** The page state. `timers` counts the progress intervals still running:
      each accepted file starts one, and an interval stops itself on the
      tick that finds the progress at 100. */
  datatype Page = Page(
    dragActive: bool,
    file: Option<FileInfo>,
    uploading: bool,
    progress: nat,
    error: string,
    success: string,
    timers: nat)

  const InitialPage := Page(false, None, false, 0, "", "", 0)

  const XlsxMime := "application/vnd.openxmlformats-officedocument.spreadsheetml.sheet"
  const XlsMime := "application/vnd.ms-excel"
  const MaxBytes := 10 * 1024 * 1024
  const ProgressStep := 10
  const Complete := 100

  const WrongTypeMessage := "Please upload only Excel files (.xlsx, .xls)"
  const TooLargeMessage := "File size must be less than 10MB"
  const UploadedMessage := "File uploaded successfully! Ready for analysis."

  predicate Accepted(f: FileInfo) {
    (f.mime == XlsxMime || f.mime == XlsMime) && f.size <= MaxBytes
  }

  /** `handleFileUpload`: the type is checked before the size; an accepted
      file is stored, the counter restarts at 0 and a new interval starts. */
  function HandleFileUpload(st: Page, f: FileInfo): (st': Page)
    ensures st'.success == "" && st'.dragActive == st.dragActive
    ensures f.mime != XlsxMime && f.mime != XlsMime ==>
              st' == st.(error := WrongTypeMessage, success := "")
    ensures (f.mime == XlsxMime || f.mime == XlsMime) && f.size > MaxBytes ==>
              st' == st.(error := TooLargeMessage, success := "")
    ensures Accepted(f) <==> st'.error == ""
    ensures Accepted(f) ==>
              && st'.file == Some(f) && st'.uploading && st'.progress == 0
              && st'.timers == st.timers + 1
    ensures !Accepted(f) ==> st'.file == st.file && st'.timers == st.timers
  {
    var cleared := st.(error := "", success := "");
    if f.mime != XlsxMime && f.mime != XlsMime then cleared.(error := WrongTypeMessage)
    else if f.size > MaxBytes then cleared.(error := TooLargeMessage)
    else cleared.(file := Some(f), uploading := true, progress := 0, timers := st.timers + 1)
  }

  /** Exactly ten mebibytes is still accepted; one byte more is not. */
  lemma SizeLimitIsInclusive(name: string)
    ensures Accepted(FileInfo(name, XlsxMime, 10485760))
    ensures !Accepted(FileInfo(name, XlsxMime, 10485761))
  {
  }

  /** One firing of a running progress interval. */
  function Tick(st: Page): (st': Page)
    requires st.timers > 0
    ensures st.progress >= Complete ==>
              st' == st.(progress := Complete, uploading := false, success := UploadedMessage,
                         timers := st.timers - 1)
    ensures st.progress < Complete ==> st' == st.(progress := st.progress + ProgressStep)
  {
    if st.progress >= Complete then
      st.(progress := Complete, uploading := false, success := UploadedMessage, timers := st.timers - 1)
    else st.(progress := st.progress + ProgressStep)
  }

  /** `removeFile` as the page has it: the file, counter, error and
      success message are reset, but the running interval is not stopped
      and the uploading flag is left as it was. */
  function RemoveFileAsWritten(st: Page): (st': Page)
    ensures st'.file.None? && st'.progress == 0 && st'.error == "" && st'.success == ""
    ensures st'.timers == st.timers && st'.uploading == st.uploading
    ensures st'.dragActive == st.dragActive
  {
    st.(file := None, progress := 0, error := "", success := "")
  }

  /** `removeFile` with the interval stopped along with the file. */
  function RemoveFile(st: Page): (st': Page)
    ensures st'.file.None? && st'.progress == 0 && st'.error == "" && st'.success == ""
    ensures st'.timers == 0 && !st'.uploading
    ensures st'.dragActive == st.dragActive
  {
    st.(file := None, progress := 0, error := "", success := "", uploading := false, timers := 0)
  }

  datatype DragEvent = DragEnter | DragOver | DragLeave | OtherDrag

  /** `handleDrag`. */
  function HandleDrag(st: Page, e: DragEvent): (st': Page)
    ensures e == DragEnter || e == DragOver ==> st' == st.(dragActive := true)
    ensures e == DragLeave ==> st' == st.(dragActive := false)
    ensures e == OtherDrag ==> st' == st
  {
    match e
    case DragEnter => st.(dragActive := true)
    case DragOver => st.(dragActive := true)
    case DragLeave => st.(dragActive := false)
    case OtherDrag => st
  }

  /** `handleDrop`: the highlight goes off and only the first dropped file,
      if any, is uploaded. */
  function HandleDrop(st: Page, files: seq<FileInfo>): (st': Page)
    ensures !st'.dragActive
    ensures |files| == 0 ==> st' == st.(dragActive := false)
    ensures |files| > 0 ==> st' == HandleFileUpload(st.(dragActive := false), files[0])
  {
    var st0 := st.(dragActive := false);
    if |files| == 0 then st0 else HandleFileUpload(st0, files[0])
  }

  /** The counter moves in steps of ten up to a hundred. */
  predicate Counting(st: Page) {
    st.progress % ProgressStep == 0 && st.progress <= Complete
  }

  /** What the page keeps true: the counter moves in steps of ten up to a
      hundred, nothing is uploading without a running interval, and an
      interval or a success message only exists alongside a file. */
  predicate Valid(st: Page) {
    && Counting(st)
    && (st.uploading ==> st.timers > 0)
    && (st.timers > 0 ==> st.file.Some?)
    && (st.success != "" ==> st.file.Some?)
  }

  lemma InitialPageValid()
    ensures Valid(InitialPage)
  {
  }

  /** Every operation of the corrected page keeps `Valid`. */
  lemma OperationsPreserveValid(st: Page, f: FileInfo, files: seq<FileInfo>, e: DragEvent)
    requires Valid(st)
    ensures Valid(HandleFileUpload(st, f))
    ensures Valid(HandleDrop(st, files))
    ensures Valid(HandleDrag(st, e))
    ensures Valid(RemoveFile(st))
    ensures st.timers > 0 ==> Valid(Tick(st))
  {
    UploadKeepsValid(st, f);
    if |files| > 0 {
      UploadKeepsValid(st.(dragActive := false), files[0]);
    }
    if st.timers > 0 {
      TickKeepsValid(st);
    }
  }

  /** A firing keeps `Valid`: the counter stays on a multiple of ten up to
      a hundred, and the last firing stops uploading with its interval. */
  lemma TickKeepsValid(st: Page)
    requires Valid(st) && st.timers > 0
    ensures Valid(Tick(st))
  {
  }

  /** Choosing a file keeps `Valid`, whether it is accepted or refused. */
  lemma UploadKeepsValid(st: Page, f: FileInfo)
    requires Valid(st)
    ensures Valid(HandleFileUpload(st, f))
  {
  }

  /** `n` interval firings, stopping early once no interval is left. */
  function Ticks(st: Page, n: nat): (st': Page)
    ensures st'.file == st.file && st'.dragActive == st.dragActive && st'.error == st.error
    decreases n
  {
    if n == 0 || st.timers == 0 then st else Ticks(Tick(st), n - 1)
  }

  /** With a single interval running, the counter reaches 100 after at most
      ten firings and the next one reports success and stops the interval. */
  lemma {:induction false} TicksFinish(st: Page)
    requires Counting(st) && st.timers == 1
    ensures var done := Ticks(st, (Complete - st.progress) / ProgressStep + 1);
            && done.progress == Complete && !done.uploading && done.timers == 0
            && done.success == UploadedMessage && done.file == st.file
    decreases Complete - st.progress
  {
    var n := (Complete - st.progress) / ProgressStep + 1;
    var next := Tick(st);
    if st.progress < Complete {
      assert (Complete - next.progress) / ProgressStep + 1 == n - 1;
      TicksFinish(next);
    } else {
      assert Ticks(next, n - 1) == next;
    }
  }

  /** A fresh page that accepts a file reports success after eleven
      firings. */
  lemma UploadCompletes(f: FileInfo)
    requires Accepted(f)
    ensures var done := Ticks(HandleFileUpload(InitialPage, f), 11);
            done.file == Some(f) && done.progress == Complete && done.success == UploadedMessage
            && !done.uploading && done.timers == 0
  {
    TicksFinish(HandleFileUpload(InitialPage, f));
  }

  /** Removing a file while it uploads, as the page does it, leaves the
      interval running: its later firings announce a successful upload with
      no file on the page. */
  lemma RemoveDuringUploadAnnouncesSuccess(f: FileInfo)
    requires Accepted(f)
    ensures var removed := RemoveFileAsWritten(Tick(HandleFileUpload(InitialPage, f)));
            var done := Ticks(removed, 11);
            && removed.file.None? && removed.timers == 1
            && done.file.None? && done.success == UploadedMessage
            && !Valid(done)
  {
    var removed := RemoveFileAsWritten(Tick(HandleFileUpload(InitialPage, f)));
    TicksFinish(removed);
  }

  /** After the corrected removal no interval is left to fire. */
  lemma RemoveStopsTicks(st: Page, n: nat)
    ensures Ticks(RemoveFile(st), n) == RemoveFile(st)
  {
  }
}
