# insightXL in Dafny

insightXL is a web application for spreadsheets. A React client reads an Excel file, previews it, and draws 2D or 3D charts from two chosen columns. The same client asks an AI model for insights about the data and manages sign-up and login. An Express/MongoDB server stores user accounts and saved analyses, behind a JWT check.

This project models the pure logic of that system as immutable datatypes and total functions, and proves properties about them. It covers:

- the tabular model every page builds from a worksheet (header row plus one header-to-cell map per data row);
- the chart configuration and the 3D bar layout;
- the AI page's dataset preview, fallback-response classifier, newest-first insight log, preview table and text export;
- the spreadsheet preview dialog;
- the sign-in/sign-up form;
- the upload page's type/size gate and progress counter;
- the landing carousel and the FAQ accordion;
- on the server: the account handlers, the token check, and the owner-scoped analysis store with its schema.

Browser events, timers, the spreadsheet parser, the AI service, bcrypt, JWT and MongoDB are outside the model. They appear as parameters or as symbolic values:

- the parser's output is a `seq<seq<RawCell>>`, or `Unreadable` when it throws;
- `isNaN`/`parseFloat` are a `numeric` parameter;
- `jwt.verify` is a `verify` parameter;
- bcrypt is a `Digest` term that can only be compared;
- every database call either completes or throws, as chosen by a `Db` parameter;
- ids, timestamps and the current time are arguments.

Files:

| file | modules |
|---|---|
| `text.dfy` | `Outcomes` (Option/Result), `Text` (JavaScript string helpers: `trim`, `includes`, `toLowerCase`, `join`, number printing) |
| `sheet.dfy` | `Sheet`: the tabular model shared by three pages |
| `chart.dfy` | `Chart` (chart page), `Bar3D` (3D layout arithmetic) |
| `insights.dfy` | `Dedupe` (`[...new Set(xs)]`), `Insights` (AI insights page) |
| `preview_modal.dfy` | `PreviewModal` |
| `auth_form.dfy` | `AuthForm` (sign-in / sign-up page) |
| `upload.dfy` | `Upload` |
| `carousel.dfy` | `Carousel` (landing-page slides) |
| `faq.dfy` | `Faq` |
| `gate.dfy` | `Http` (JSON replies), `Gate` (`ensureAuthenticated`) |
| `accounts.dfy` | `Accounts` (sign-up, login, profile update) |
| `analyses.dfy` | `Analyses` (schema, save, history, delete, router) |

A save the schema rejects (missing filename, unknown chart type) answers 500, because `saveAnalysis`'s `catch` turns every thrown error into 500 (server/Controllers/AnalysisController.js:20-23).

JavaScript measures strings in UTF-16 code units, so `Text.Utf16Length` counts a character above U+FFFF twice. The sign-up length checks and the preview table's 30-unit cut use it.

## Model

| member | source | states |
|---|---|---|
| Sheet.BuildTable | client/src/pages/ChartGeneration.jsx:232-245 | An empty sheet is an error with "Empty or invalid Excel file.", and only an empty sheet is. Otherwise the headers are the header row's cells as keys, and there is one row object per data row, in sheet order. Every row object has exactly the header names as keys. Each cell is the row's cell in the last column bearing that header, or "" past the row's end. |
| Sheet.RowFrom | client/src/pages/ChartGeneration.jsx:239-244 | The row object has exactly the header names as keys. When names repeat, the later column overwrites the earlier one. |
| Sheet.CellAt | client/src/pages/ChartGeneration.jsx:242 | `row[i] ?? ""`: the cell when present, "" for an index past the row's end. |
| Sheet.DistinctHeadersKeepEveryColumn | client/src/pages/ChartGeneration.jsx:238-245 | With distinct header names, every column's cell sits under its own header in every row. |
| Sheet.RowKeyCount | client/src/pages/ChartGeneration.jsx:238-245 | A row object never has more keys than there are headers. It has exactly one per header if and only if the header names are distinct. |
| Sheet.DefaultAxes | client/src/pages/ChartGeneration.jsx:250-251 | The default X and Y axes are the first and second header when those are truthy, and "" otherwise. |
| Chart.SchemeOf | client/src/pages/ChartGeneration.jsx:135-197 | Every colour scheme has a non-empty gradient, so the cyclic colour index is always defined. |
| Chart.SeriesValue | client/src/pages/ChartGeneration.jsx:266-273 | A non-empty numeric string is parsed, a number is kept, and an empty or non-numeric string or a missing cell becomes 0. |
| Chart.BuildConfig | client/src/pages/ChartGeneration.jsx:262-293 | One label and one value per row, in row order, with nothing dropped. The series is named after the Y column. A pie gets the gradient list and every other kind the primary colour. The border is always the secondary colour. |
| Chart.BuildConfigSplits | client/src/pages/ChartGeneration.jsx:265-273 | Building over two batches of rows concatenates the batches' labels and values, so the builder works row by row. |
| Chart.ProcessFile | client/src/pages/ChartGeneration.jsx:215-260 | Loading always ends. An unreadable file and an empty sheet each set their own error. A readable sheet installs the table and the default axes with no error. The chart kind, scheme and current chart are untouched. |
| Chart.GenerateChart | client/src/pages/ChartGeneration.jsx:262-293 | Without rows or with either axis empty nothing changes. Otherwise the chart is the configuration for the chosen columns. |
| Chart.LoadThenChart | client/src/pages/ChartGeneration.jsx:238-273 | Loading a sheet whose first two headers are non-empty strings and then charting plots, for every data row in order, the second column's value against the first column's cell. |
| Chart.Export | client/src/pages/ChartGeneration.jsx:303-313 | A PNG is saved exactly when a 2D chart is mounted. The 3D view always gets the "coming soon" alert. |
| Bar3D.Items | client/src/pages/ChartGeneration.jsx:365-368 | The 3D items pair each label with the value at the same index. |
| Bar3D.MaxOf | client/src/pages/ChartGeneration.jsx:55 | `Math.max` of a non-empty list bounds every element and is one of them. |
| Bar3D.Height | client/src/pages/ChartGeneration.jsx:56-61 | For any non-zero maximum, height and value keep the ratio 5 : max. |
| Bar3D.Layout | client/src/pages/ChartGeneration.jsx:55-71 | Defined for every series whose largest value is not zero, and for the empty series, which gets no bars. One bar per item. Bar i sits at `0.8*i - 0.8*n/2 + 0.4` with height `value*5/max`, its item's label and value, and colour `gradient[i % len]`. |
| Bar3D.LayoutIsCentred | client/src/pages/ChartGeneration.jsx:64 | Neighbouring bars are 0.8 apart, and bars i and n-1-i are mirror images about the origin. |
| Bar3D.TallestBarReachesMax | client/src/pages/ChartGeneration.jsx:55-61 | With a positive maximum, no bar is taller than 5, and the bar of the largest value is exactly 5 tall. |
| Bar3D.NegativeSeriesStandsTall | client/src/pages/ChartGeneration.jsx:55-61 | With an all-negative series the scale factor is negative. Every bar is then at least 5 tall, and the bar of the largest value is exactly 5 tall. |
| Bar3D.ColorsRepeat | client/src/pages/ChartGeneration.jsx:71 | Bars one gradient-length apart have the same colour. |
| Dedupe.Dedup | client/src/pages/AiInsights.jsx:151 | `[...new Set(xs)]` keeps exactly the elements of the input, each once. |
| Dedupe.DedupKeepsFirstSeenOrder | client/src/pages/AiInsights.jsx:151 | Distinct elements are listed in the order of their first appearance. |
| Insights.NonEmpty | client/src/pages/AiInsights.jsx:150 | The filter keeps exactly the values other than "". |
| Insights.ColumnSample | client/src/pages/AiInsights.jsx:146-151 | A column's profile values are exactly its non-empty values among the first ten rows. Each appears once, in order of first appearance. |
| Insights.MakeDigest | client/src/pages/AiInsights.jsx:133-157 | The preview carries the dataset name, the column and row counts, the headers, and the first five rows. It has one profile per header, showing exactly the first three of the column's sample values (all of them when there are fewer) and marked "..." exactly when there are more than three. |
| Insights.PreviewNamesDataset | client/src/pages/AiInsights.jsx:134 | The preview opens with "Dataset: " and the dataset name. |
| Insights.PreviewReadsTenRows | client/src/pages/AiInsights.jsx:137-150 | Two sheets with the same headers, the same number of rows and the same first ten rows give identical previews. |
| Insights.PreviewIsNeverBlank | client/src/pages/AiInsights.jsx:161-164 | A built preview is never blank, so the "Upload a file first." guard only fires before a sheet has loaded. |
| Text.TrimEmptyIffBlank | client/src/pages/AiInsights.jsx:161 | `s.trim()` is empty exactly when every character of `s` is white space. |
| Text.ContainsIffOccurs | client/src/pages/AiInsights.jsx:247-251 | `includes` holds exactly when the needle occurs at some position. |
| Text.NatTextRoundTrip | client/src/pages/AiInsights.jsx:134-136 | The decimal text printed for a count reads back as that count. |
| Insights.CategoryOf | client/src/pages/AiInsights.jsx:246-254 | The fallback category follows the priority summary, trend, recommend, then insights, checked against the lower-cased prompt. Each category holds exactly under its condition. |
| Insights.CategoryIgnoresCase | client/src/pages/AiInsights.jsx:247-251 | Lower-casing the prompt first does not change the category. |
| Insights.MockTextsDiffer | client/src/pages/AiInsights.jsx:235-254 | Different categories never give the same fallback text, whatever the data. |
| Insights.StartAnalyze | client/src/pages/AiInsights.jsx:160-167 | With a blank preview only the error "Upload a file first." is set. Otherwise the request is in flight (`analyzing`) and the error is cleared, with nothing else changed. |
| Insights.FinishAnalyze | client/src/pages/AiInsights.jsx:194-232 | Exactly one insight is prepended, with the earlier ones kept in order, and the in-flight flag drops. The insight is from the AI exactly when the model answered. Its text is the generated text, or "No response generated." when that is missing or empty. On failure the text is the category's fallback and the error is "API Error: " plus the reason. |
| Insights.Analyze | client/src/pages/AiInsights.jsx:160-232 | With a blank preview, only the error "Upload a file first." is set. Otherwise exactly one insight is prepended and the earlier ones are kept in order. The new insight is from the AI exactly when the model answered; its text is the generated text or "No response generated.". On failure the insight is the category's fallback text and the error is "API Error: " plus the reason. Analysing ends either way. |
| Insights.SubmitQuery | client/src/pages/AiInsights.jsx:257-261 | A blank query changes nothing. Any other query is analysed and the input cleared. |
| Insights.StartQuery | client/src/pages/AiInsights.jsx:257-261 | A blank query changes nothing. Any other query starts the analysis and clears the input, whatever the in-flight flag says. |
| Insights.EnterKeyBypassesBusyButton | client/src/pages/AiInsights.jsx:404-414 | While a request is in flight, the send button is disabled. Pressing Enter on a non-blank query still starts another request and clears the input. |
| Insights.ProcessFileAsWritten | client/src/pages/AiInsights.jsx:84-134 | The stored name is the new one, but the preview is built with the page's previous file name. |
| Insights.StaleDatasetName | client/src/pages/AiInsights.jsx:84-134 | On a fresh page the as-written handler's preview opens "Dataset: No file selected". The corrected one names the chosen file, and the two previews differ. |
| Insights.ProcessFile | client/src/pages/AiInsights.jsx:89-131 | Loading ends. Errors are as on the chart page. A readable sheet installs the table and a non-blank preview naming the file just chosen. |
| Insights.PreviewCell | client/src/pages/AiInsights.jsx:529-530 | A cell shows its text when it is at most 30 UTF-16 code units long. Otherwise it shows the text cut to 30 units (`CutUnits`) followed by "...". A falsy value shows as "". The shown text is never longer than 33 units. |
| Insights.PreviewCellOfBmp | client/src/pages/AiInsights.jsx:529-530 | On text with no character above U+FFFF, the cut is the plain 30-character prefix. |
| Insights.PreviewGrid | client/src/pages/AiInsights.jsx:514-530 | The table shows the first five rows by the first five headers, each cell rendered by `PreviewCell`. |
| Insights.ExportConcat | client/src/pages/AiInsights.jsx:268-270 | The export of a concatenated list is the concatenation of the exports. |
| Insights.AnalyzeExtendsExport | client/src/pages/AiInsights.jsx:206-228 | Each analysis puts its own "Query/Response" entry in front of the previous export. |
| PreviewModal.Load | client/src/components/PreviewModal.jsx:11-54 | The effect runs from the dialog's current state, at mount and on every change of `file`. Without a file nothing changes. Otherwise loading ends. A parse failure and an empty sheet set their own messages and keep the loaded rows. A readable sheet installs its raw header row and the table's rows, and keeps any earlier error. |
| PreviewModal.ErrorOutlivesNextFile | client/src/components/PreviewModal.jsx:11-54 | Once an error is shown, every later file still shows an error box. A readable sheet keeps the earlier message. |
| PreviewModal.FailedThenReadable | client/src/components/PreviewModal.jsx:11-54 | A dialog whose first file failed to parse still shows "Failed to parse Excel file." after it receives a readable sheet. |
| PreviewModal.Open | client/src/components/PreviewModal.jsx:11-54 | The first run, on the mounted state. Without a file the dialog keeps its spinner. Otherwise loading ends. A parse failure and an empty sheet set their own messages. A readable sheet installs its raw header row and the table's rows with no error. |
| PreviewModal.ViewOf | client/src/components/PreviewModal.jsx:82-134 | The spinner shows exactly while loading, and the error box exactly when an error is set. Otherwise the grid has one column per header and one row per row object. Each cell is `String(row[header] ?? "")`, and the row shades follow the row index. |
| PreviewModal.StripesAlternate | client/src/components/PreviewModal.jsx:113-115 | Neighbouring rows never share a shade. The pattern repeats every two rows, with the darker shade on even rows. |
| PreviewModal.OpenedSheetShowsTable | client/src/components/PreviewModal.jsx:95-147 | A readable sheet shows a grid. The footer counts are the data rows and the header cells. Every cell shows the sheet's own value under its header, "" where the row is short. |
| PreviewModal.OpenSettles | client/src/components/PreviewModal.jsx:28-50 | Every read outcome clears the spinner. The grid appears exactly for a non-empty sheet, and each failure shows its own message exactly in its own case. |
| AuthForm.Validate | client/src/pages/AuthPages.jsx:39-73 | The first failing check decides the message, each message holds exactly under its condition, and the form passes exactly when no check fails. Sign-up checks come first: blank name, name under 3 UTF-16 code units (untrimmed), password under 4 units, mismatch, terms. Both modes then check blank email and blank password. |
| Text.Utf16Length | client/src/pages/AuthPages.jsx:45-52 | `s.length` counts one unit per character up to U+FFFF and two above it. It equals the character count exactly when no character is above U+FFFF. |
| Text.CutUnits | client/src/pages/AiInsights.jsx:529 | `s.slice(0, n)` keeps a prefix of at most n units, and the whole text when it fits. Otherwise the cut is exactly n units, or n-1 when unit n would split a surrogate pair. |
| Text.CutUnitsOfBmp | client/src/pages/AiInsights.jsx:529 | On text with no character above U+FFFF, the cut is the first n characters. |
| AuthForm.LengthChecksCountCodeUnits | client/src/pages/AuthPages.jsx:45-52 | The name "😀a" (3 units) and the password "😀😀" (4 units) pass the length checks. |
| AuthForm.LoginIgnoresSignupFields | client/src/pages/AuthPages.jsx:40-70 | Login validation depends on the email and the password only. |
| AuthForm.SignupValidImpliesLoginValid | client/src/pages/AuthPages.jsx:39-73 | A form accepted for sign-up is accepted for login. |
| AuthForm.BlankPasswordPassesLengthCheck | client/src/pages/AuthPages.jsx:49-70 | A four-space password passes the length check and then fails as "Password is required". |
| AuthForm.RequestFor | client/src/pages/AuthPages.jsx:80-94 | A request is sent exactly when validation passes: `/auth/login` with email and password, or `/auth/signup` with name, email and password. |
| AuthForm.RequestOmitsConfirmAndTerms | client/src/pages/AuthPages.jsx:87-94 | Forms differing only in the confirmation and the terms box send the same request. |
| AuthForm.InputChange | client/src/pages/AuthPages.jsx:30-37 | Only the named field changes: the terms box takes `checked`, any other field takes `value`. The error is cleared and nothing else changes. |
| AuthForm.ToggleMode | client/src/pages/AuthPages.jsx:141-152 | The mode flips, and all fields, the error and the success message are reset. Both show-password toggles and the loading flag are kept. |
| AuthForm.ToggleTwice | client/src/pages/AuthPages.jsx:141-152 | Toggling twice returns to the starting mode with a clean form. |
| AuthForm.Submit | client/src/pages/AuthPages.jsx:75-139 | A form that fails validation sends nothing and shows the validation message. After a send, loading is off. A failed reply shows the server's error or the generic message, and an unreachable server shows the network message. Only a successful login stores the token, email and name. |
| AuthForm.AfterSignup | client/src/pages/AuthPages.jsx:119-127 | After sign-up the page is in login mode, only the submitted email is kept, and every other field is cleared. |
| AuthForm.SignupThenLogin | client/src/pages/AuthPages.jsx:117-128 | A successful sign-up reports success and stores nothing. After the reset, the login form holds the email and still needs a password. |
| Upload.HandleFileUpload | client/src/pages/Upload.jsx:51-75 | A wrong MIME type and an oversized file are refused with their messages, in that order, and no file is stored. A file is accepted exactly when the error stays empty; it is then stored, uploading starts at 0 and one more interval runs. |
| Upload.SizeLimitIsInclusive | client/src/pages/Upload.jsx:67-70 | Exactly 10 MiB is accepted and one byte more is refused. |
| Upload.Tick | client/src/pages/Upload.jsx:77-87 | Below 100 a firing adds 10. At 100 or more it pins the counter at 100, stops uploading, sets the success message and stops its interval. |
| Upload.RemoveFileAsWritten | client/src/pages/Upload.jsx:90-95 | The file, counter, error and success are reset, but running intervals, the uploading flag and the drag highlight are left alone. |
| Upload.RemoveFile | client/src/pages/Upload.jsx:90-95 | The corrected removal also stops every interval and the upload. |
| Upload.HandleDrag | client/src/pages/Upload.jsx:23-31 | dragenter and dragover highlight, dragleave clears the highlight, and any other event changes nothing. |
| Upload.HandleDrop | client/src/pages/Upload.jsx:33-42 | A drop always clears the highlight and uploads only the first file, if there is one. |
| Upload.InitialPageValid | client/src/pages/Upload.jsx:16-21 | The initial page satisfies the page invariant. |
| Upload.OperationsPreserveValid | client/src/pages/Upload.jsx:23-95 | Every operation of the corrected page keeps the invariant: the counter is a multiple of 10 in [0,100], uploading implies a running interval, and an interval or a success message implies a file. |
| Upload.UploadKeepsValid | client/src/pages/Upload.jsx:51-88 | Choosing a file, accepted or refused, keeps the invariant. |
| Upload.TickKeepsValid | client/src/pages/Upload.jsx:77-87 | A firing keeps the invariant. |
| Upload.TicksFinish | client/src/pages/Upload.jsx:77-87 | With one interval running, the counter reaches 100 and success is reported after `(100 - progress)/10 + 1` firings. The interval then stops and the file is kept. |
| Upload.UploadCompletes | client/src/pages/Upload.jsx:72-87 | An accepted file on a fresh page is reported uploaded after eleven firings. |
| Upload.RemoveDuringUploadAnnouncesSuccess | client/src/pages/Upload.jsx:77-95 | Removing a file mid-upload as written leaves the interval running. Its later firings announce success with no file, breaking the invariant. |
| Upload.RemoveStopsTicks | client/src/pages/Upload.jsx:90-95 | After the corrected removal no firing changes anything. |
| Carousel.JsRem | client/src/components/Hero.jsx:32-36 | JavaScript's `%` agrees with the mathematical remainder for non-negative operands. |
| Carousel.Next | client/src/components/Hero.jsx:31-33 | The next slide stays in range and wraps from the last slide to the first. |
| Carousel.Prev | client/src/components/Hero.jsx:35-37 | The previous slide stays in range and wraps from the first slide to the last. |
| Carousel.NextPrevInverse | client/src/components/Hero.jsx:31-37 | Next and previous undo each other. |
| Carousel.AdvanceIsShift | client/src/components/Hero.jsx:39-44 | k forward steps move k slides on, modulo the slide count. |
| Carousel.FullRoundReturns | client/src/components/Hero.jsx:32 | Four steps return to the starting slide, and no shorter positive number does. |
| Faq.Toggle | client/src/components/FAQ.jsx:46-48 | Clicking the open question closes it, and clicking any other opens that one. |
| Faq.ToggleShowsOnlyClicked | client/src/components/FAQ.jsx:46-74 | After a click the clicked answer is visible exactly when it was hidden, and no other answer is visible. |
| Faq.AtMostOneVisible | client/src/components/FAQ.jsx:44-74 | From the closed start, after any clicks, at most one answer is visible, which holds by the single open index. |
| Faq.ToggleTwice | client/src/components/FAQ.jsx:46-48 | Two clicks on the same question restore that question's visibility. They leave everything closed unless it started open. |
| Faq.OpenAnswerIsOnPage | client/src/components/FAQ.jsx:44-60 | Clicks on the page's seven questions only ever open one of those seven. |
| Faq.LastClickDecides | client/src/components/FAQ.jsx:46-48 | After any clicks, the open answer is the last clicked one, or none if that click closed it. |
| Gate.Authenticate | server/Middlewares/Auth.js:3-22 | A missing or empty header gets 403 "token is required", and a header the verifier rejects gets 403 "wrong or expired". Otherwise the request passes exactly when verification succeeds, with the verifier's claims as the user. |
| Gate.RefusalNamesItsCause | server/Middlewares/Auth.js:3-22 | For every header and verifier, the refusal is "token is required" exactly when the header is missing or empty. It is "wrong or expired" exactly when a non-empty header fails to verify. |
| Gate.BearerPrefixNotStripped | server/Middlewares/Auth.js:4-13 | A corollary of `Authenticate`: the header is verified verbatim, so a `Bearer `-prefixed token is refused unless the verifier accepts the prefixed text. |
| Accounts.FindByEmail | server/Controllers/AuthController.js:8 | `findOne({ email })` finds the first user with that email, and finds none exactly when no user has it. |
| Accounts.Signup | server/Controllers/AuthController.js:5-20 | A known email is refused with 400 and the store unchanged. Otherwise a user with the password's digest is appended and 201 returns no user data. A throwing database gives 500 and changes nothing. |
| Accounts.Login | server/Controllers/AuthController.js:22-49 | Login succeeds exactly when a user with that email exists and the password matches. Every refusal is the same 403. Success returns a token over the user's email and id, valid for 24 hours, plus the email and name and no password. |
| Accounts.UpdateProfile | server/Controllers/AuthController.js:51-97 | An email held by another user gives 400, and a missing user gives 404, both with the store unchanged. Otherwise only the caller's name and email change, and the reply carries just those. |
| Accounts.HandlersKeepEmailsUnique | server/Controllers/AuthController.js:8-73 | Sign-up and profile update keep emails unique across users. |
| Accounts.SignupThenLogin | server/Controllers/AuthController.js:5-44 | A new account can log in at once with its password, and the token carries its id. |
| Accounts.OwnEmailAllowed | server/Controllers/AuthController.js:57-66 | Keeping one's own email is not a conflict. |
| Accounts.LoginRefusalsAgree | server/Controllers/AuthController.js:26-33 | A wrong password for a known email and any password for an unknown email get identical replies. |
| Accounts.ServeUpdateProfile | server/Routes/AuthRouter.js:9 | The token check runs first, and a refusal leaves the users unchanged. A pass updates the user named by the token's id. |
| Analyses.ParseChartType | server/Models/Analysis.js:17-21 | A chart type is admitted only when it is one of the six names spelled as the enum spells them. |
| Analyses.ChartTypeRoundTrip | server/Models/Analysis.js:17-21 | Every enum value's name is admitted and reads back as itself. |
| Analyses.Validate | server/Models/Analysis.js:4-21 | A document is valid exactly when it has a non-empty filename and an admitted chart type. |
| Analyses.Save | server/Controllers/AnalysisController.js:3-24 | An invalid document or a throwing database gives 500 with the store unchanged. Otherwise a record for the caller is appended, even if an identical one exists, and 201 is returned. |
| Analyses.SaveDropsExcelData | server/Controllers/AnalysisController.js:5-15 | The spreadsheet data sent with a save never reaches the store. The new record has no preview URL, is stamped with the save time, and belongs to the caller. |
| Analyses.SaveKeepsWellFormed | server/Controllers/AnalysisController.js:3-24 | Saving keeps ids distinct and below the next id. |
| Analyses.OwnedBy | server/Controllers/AnalysisController.js:29 | `find({ userId })` returns exactly the caller's records: each of them as often as it is stored, and no other record. |
| Analyses.SortNewestFirst | server/Controllers/AnalysisController.js:29 | Sorting by `createdAt` descending gives a newest-first permutation of its input. |
| Analyses.History | server/Controllers/AnalysisController.js:26-35 | The history is exactly the caller's records, as a multiset, ordered newest first. |
| Analyses.SaveThenHistory | server/Controllers/AnalysisController.js:3-35 | A save later than everything stored before heads the caller's history. |
| Analyses.Delete | server/Controllers/AnalysisController.js:37-55 | A malformed id or a throwing database gives 500. An absent record and another user's record get the same 404, with the store unchanged. An owned record is removed at its position and 200 is returned. |
| Analyses.DeleteRemovesExactlyOne | server/Controllers/AnalysisController.js:42-50 | A successful delete removes exactly the record with that id, keeps every other record, shortens the store by one, and keeps it well formed. |
| Analyses.Serve | server/Routes/AnalysisRouter.js:5-7 | Every route passes the token check first. A refusal answers 403 and changes nothing, and a pass runs the route's handler for the token's user. |
| Analyses.UnauthenticatedChangesNothing | server/Routes/AnalysisRouter.js:5-7 | A request without a token gets 403 "token is required" and leaves the store alone, whatever it asks. |

## Left out

- Rendering: JSX, styling, Chart.js and three.js drawing, the rotating 3D group, chart options (title text, axis colours), icons and animations.
- File reading and spreadsheet parsing (`FileReader`, `XLSX.read`, `sheet_to_json`). The parser's output is the model's input, and a thrown parse error is the `Unreadable` outcome.
- Sheet.Cell: cells are strings or numbers. Boolean and date cells that the parser can also produce are not modelled. Neither is the `JSON.stringify` branch the preview dialog uses for object-valued cells.
- Chart.SeriesValue: `isNaN`/`parseFloat` and IEEE arithmetic are a `numeric` parameter and `real`s. NaN and its falsiness are not modelled.
- Bar3D.Layout: requires the largest value to be non-zero, unless the series is empty. The source divides by it without a guard, so a zero maximum gives NaN or infinite heights, which `real` cannot express. An all-negative series is modelled, and its sign-flipped heights are stated by `NegativeSeriesStandsTall`.
- Insights.PreviewCell: when unit 30 is the first half of a surrogate pair, JavaScript keeps that lone half. A Dafny string cannot hold a lone surrogate, so the model's cut stops one unit short there (29 units).
- Text.Lower: lowers only the ASCII letters, where `toLowerCase` covers all of Unicode. `CategoryOf` does not depend on the difference: its keywords are ASCII, and no non-ASCII letter lowers to a letter of "summary", "trend" or "recommend".
- Text.Utf16Length: JavaScript strings may hold lone surrogates, and Dafny strings cannot. Inputs with lone surrogates are outside the model.
- Insights.Title: states only that each title is longer than eight characters. The full fallback texts are given by `MockBody` and distinguished by `MockTextsDiffer`.
- The AI request itself: the endpoint, the API key, the prompt template and the response parsing beyond "generated text or missing". These are I/O, so a `Reply` parameter stands for the outcome.
- `copyInsight` (clipboard), the Blob/URL download around `downloadInsights` (only its text is modelled), `localStorage` writes (modelled as the stored `Session`), redirects, and every `setTimeout`.
- Upload's `setInterval` scheduling: the model counts running intervals and applies one firing at a time. The ordering of firings between several intervals is not modelled.
- `handleFileSelect`, which passes the first chosen file to `handleFileUpload` (modelled), and `processAnalysis`, which only logs.
- Show-password toggles and other purely visual state.
- Carousel timing: the four-second interval is modelled as repeated `Next` steps (`Advance`).
- Faq.ToggleTwice: clicking the same question twice does not always leave every answer closed. If the question started open, it is open again afterwards. The lemma states that exact law.
- Sheet.RowKeyCount: a row has one key per header only when the header names are distinct. Repeated names collapse into one key.
- bcrypt and JWT: hashing is a symbolic `Digest` that only `Matches` inspects, token signing is a `Token` term, and verification is a parameter.
- MongoDB: users live in a sequence whose positions are their ids. Records live in a sequence with a `nextId` counter in place of ObjectIds. A `userId` is kept as a number rather than its string form. A malformed id in a token is not modelled, since ids come from the store.
- The request validators in server/Middlewares/AuthValidation.js and the user schema in server/Models/User.js are not part of this model.
- Marketing, legal and about pages, the navigation bar, routing layout and stub pages carry no stateable logic.

## Findings

| source | as written | input that shows it | evidently intended | confidence | as-written member | corrected member |
|---|---|---|---|---|---|---|
| client/src/pages/AiInsights.jsx:84-134 | `createDataPreview` reads `fileName` through the closure of the render that started `processExcelFile`, before `setFileName` took effect. | A fresh page that receives `sales.xlsx` sends a preview that opens "Dataset: No file selected". | The preview names the file just loaded. | high; not executed | Insights.ProcessFileAsWritten, Insights.StaleDatasetName | Insights.ProcessFile |
| client/src/pages/Upload.jsx:77-95 | `removeFile` neither clears the progress interval nor resets `isUploading`. | Accept a file, let one firing pass, and remove the file. Eleven more firings show "File uploaded successfully!" with no file on the page. | Removing the file stops the simulated upload. | high; not executed | Upload.RemoveFileAsWritten, Upload.RemoveDuringUploadAnnouncesSuccess | Upload.RemoveFile, Upload.OperationsPreserveValid, Upload.RemoveStopsTicks |
