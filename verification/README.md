# FileGuard scan pipeline, modelled and verified in Dafny

FileGuard takes file uploads and runs each one through a pipeline. First the
upload route checks the file's extension and size. It then stores the bytes,
creates a `pending` file record and enqueues a scan job. An in-memory queue runs
one job at a time, in arrival order. The scanner searches the file's text for a
fixed table of suspicious substrings, ignoring case. It marks the record
`scanned` with a `clean`, `infected` or `error` result and a scan time. For an
infected file it sends an alert to the configured webhooks. The upload form in
the browser runs the same extension check and a 5 MiB size check before
sending anything.

This project keeps those decisions and removes the I/O around them:

- `text.dfy` (`Text`): the JavaScript string operations the code relies on.
  These are ASCII `toLowerCase`/`toUpperCase`, `includes`, `lastIndexOf`,
  one-argument `slice` and `substring`, and `join(", ")` with its inverse.
- `iso_time.dfy` (`IsoTime`): `Date` values and `toISOString()`.
- `records.dfy` (`Records`): the file record, its lifecycle invariant, the scan
  job, and the record store. The store is a class over a map from id to record,
  with `create` and `findByIdAndUpdate`.
- `scanner.dfy` (`Scanner`): the pattern table, the threat filter, the verdict,
  the severity rule and `scanFile`, with its success path and its error path.
- `notifications.dfy` (`Notifications`): the alert message and its dispatch to
  the two optional webhook URLs.
- `scan_queue.dfy` (`ScanQueue`): the `InMemoryQueue` class. Its waiting jobs
  are a sequence and `processing` is a flag. `Enqueue`, `StartNext` (the start
  of `processNext`) and `FinishCurrent` (the awaited job settling) stand in for
  the event loop.
- `upload.dfy` (`Upload`): the multipart filter, the size limit and the POST
  handler.
- `file_upload_form.dfy` (`FileUploadForm`): the browser's `validateFile`.
- `pipeline.dfy` (`Pipeline`): `processJob`, which connects the queue to the
  scanner.

Outside effects are parameters. These are the fetched file text (or a failed
fetch), the clock readings, the storage upload's URL or error, database
failures, failures of the dynamic `import()` calls, the webhook URLs and
whether each POST rejects.

Three behaviours of the code are worth knowing, and the model keeps them:

- A rejected extension or an oversize file never reaches the route's handler,
  so it never gets the handler's own 400 response. The multipart middleware
  passes the error to the framework. The application defines no error handler,
  so the framework's default handler answers with status 500.
  `Upload.PostUpload` returns 500 with a `MiddlewareError` body in both cases.
- A scan can update its record twice. An infected file whose notifier
  `import()` rejects is first written `infected`, then `error` from the catch
  block (`Scanner.CatchPathWritesError`).
- The record schema lists only `clean` and `infected` as results. The scanner
  still writes `error`, and the update does not run the schema's validators.
  `Records.ScanResult` therefore includes `Error`.

## Model

| member | source | states |
|---|---|---|
| `Text.LowerMapsCapitals` | backend/src/worker/scanner.ts:33 | `toLowerCase()` leaves no capital letter. Each capital A-Z becomes its small letter, and every other character is kept, at the same position. |
| `Text.UpperMapsSmallLetters` | backend/src/services/notifications.ts:37 | `toUpperCase()` leaves no small letter. Each small letter a-z becomes its capital, and every other character is kept, at the same position. |
| `Text.LowerIgnoresUpper` | backend/src/worker/scanner.ts:40 | Lower-casing an upper-cased text gives the same result as lower-casing the text itself. |
| `Text.ContainsBounds` | backend/src/worker/scanner.ts:40 | `includes` finds a pattern only in a text at least as long. It always finds the empty pattern. |
| `Text.LowerKeepsOccurrence` | backend/src/worker/scanner.ts:33-41 | If a pattern occurs in a text, its lower-cased form occurs in the lower-cased text at the same offset. This is why lower-casing both sides makes matching case-insensitive. |
| `Upload.AllowedShape` | backend/src/routes/upload.ts:15 | Every allowed extension starts with a dot and has at least four characters. |
| `Text.LastIndexOf` | backend/src/routes/upload.ts:16 | The result is -1 or an index holding the character, and no later index holds it. So it is the last occurrence, or -1 when there is none. |
| `Text.SliceFrom` | backend/src/routes/upload.ts:16 | `slice(start)` gives a suffix of the text. A negative start keeps the last `-start` characters, or the whole text when that is more. A start past the end gives the empty text. |
| `Text.SubstringFrom` | frontend/src/components/FileUpload.tsx:19 | `substring(start)` gives a suffix of the text. A start of 0 or less, -1 included, gives the whole text. A start past the end gives the empty text. |
| `Text.JoinList` | backend/src/services/notifications.ts:32 | When no element holds a comma, the joined text holds a comma iff there are at least two elements. |
| `Text.SplitUndoesJoin` | backend/src/services/notifications.ts:32 | Joining a non-empty list with ", " and splitting on ", " gives the list back when no element holds a comma. |
| `IsoTime.ToIsoString` | backend/src/worker/scanner.ts:61 | `toISOString()` is 24 characters (27 for extended years). The `T` sits at index 10 in the 24-character form and at index 13 in the 27-character form. The last character is `Z`. |
| `IsoTime.EpochRendering` | backend/src/worker/scanner.ts:61 | Instant 0 renders as `1970-01-01T00:00:00.000Z`. |
| `Records.UpdateAllEffect` | backend/src/worker/scanner.ts:46-73 | Successive updates of one id keep every record under its own id and in the lifecycle (pending iff no result iff no scan time). They keep the id set and leave other records unchanged. The updated record ends `scanned` with the last update's result and time. |
| `Records.FileStore.constructor` | backend/src/models/FileMeta.ts:12-21 | A new store is empty and well formed. |
| `Records.FileStore.Create` | backend/src/routes/upload.ts:45-52 | The new record has a fresh id, status pending, no result, no scan time, and the given name, path and upload time. It is added to the store and nothing else changes. |
| `Records.FileStore.FindByIdAndUpdate` | backend/src/worker/scanner.ts:46-50 | The record with that id becomes `scanned` with the given result and time. An unknown id changes nothing. The store stays well formed. |
| `Notifications.BuildAlert` | backend/src/services/notifications.ts:14-49 | The colour is `#ff0000` iff severity is high, else `#ffa500`. File Name, File ID and Timestamp hold the payload's values unchanged. Detected Threats holds the threats joined with ", ". Severity holds the upper-cased severity. |
| `Notifications.SeverityFieldReadsBack` | backend/src/services/notifications.ts:37 | Lower-casing the Severity field gives back the payload's severity name. |
| `Notifications.ThreatsFieldReadsBack` | backend/src/services/notifications.ts:32 | For a non-empty, comma-free threat list, splitting the Detected Threats field gives back exactly that list. |
| `Notifications.SendInfectedFileAlert` | backend/src/services/notifications.ts:9-80 | The dispatch meets `Delivered`. Every POST carries the same message. The generic webhook is posted first, then Slack, each only if set and non-empty. A rejected webhook POST skips Slack. With neither URL set, nothing is posted and the alert is only logged. Every error is caught and logged, never propagated. |
| `Notifications.ConfiguredIsTruthy` | backend/src/services/notifications.ts:52-72 | A webhook URL counts as set exactly when it is present and non-empty: a missing URL or an empty one is skipped. |
| `Notifications.DeliveredIsDetermined` | backend/src/services/notifications.ts:51-79 | `Delivered` fixes the dispatch completely: two dispatches that meet it for the same payload and settings are equal. |
| `Scanner.TableShape` | backend/src/worker/scanner.ts:5-18 | No pattern in the table is empty, none holds a comma, and no entry appears twice. |
| `Scanner.ContentOf` | backend/src/worker/scanner.ts:29-36 | The searched text is lower-case. After a failed fetch it is empty. Otherwise it is as long as the fetched text and lower-cases to the same text, so it is the fetched text lower-cased. |
| `Scanner.MatchIgnoresPatternCase` | backend/src/worker/scanner.ts:39-41 | Whether an entry matches does not depend on how its pattern is capitalised. A match needs content at least as long as the pattern. |
| `Text.DecimalText` | backend/src/worker/scanner.ts:59 | The alert's file id is at least one character long, and every character is a decimal digit. |
| `Text.DecimalRoundTrip` | backend/src/worker/scanner.ts:59 | Reading the decimal text of an id back gives the id. |
| `Text.DecimalTextInjective` | backend/src/worker/scanner.ts:59 | Two ids with the same decimal text are equal, so the alert identifies the scanned record. |
| `Scanner.FilterMatches` | backend/src/worker/scanner.ts:39-41 | The result keeps exactly the entries whose lower-cased pattern occurs in the content, in their original order (a subsequence). It is empty iff no entry matches. |
| `Scanner.DetectThreats` | backend/src/worker/scanner.ts:39-41 | The detected threats are exactly the table entries whose pattern occurs anywhere in the content, in table order. |
| `Scanner.Verdict` | backend/src/worker/scanner.ts:43 | The verdict is `infected` iff something was detected, else `clean`. It is never `error`. |
| `Scanner.SeverityOf` | backend/src/worker/scanner.ts:62-64 | The severity is high iff some detected entry is tagged high. It is never low. |
| `Scanner.AlertPayload` | backend/src/worker/scanner.ts:57-65 | The payload carries the job's file name. It lists the detected patterns' texts in table order. The file id is the decimal text of the scanned job's id. The timestamp is the ISO rendering of the scan time. The severity is high iff a high-tagged entry was detected, and never low. |
| `Scanner.InfectedIffSomePatternOccurs` | backend/src/worker/scanner.ts:43 | The verdict is `infected` iff some table pattern occurs in the content, otherwise `clean`. |
| `Scanner.SeverityHighIffHighPatternOccurs` | backend/src/worker/scanner.ts:62-64 | Severity is high iff some matched entry is tagged high, otherwise medium. |
| `Scanner.CaseInsensitiveDetection` | backend/src/worker/scanner.ts:33-41 | If the raw text holds any spelling of a table pattern that differs from it only in case, that entry is detected. |
| `Scanner.UpperCaseEvalIsHighRisk` | backend/src/worker/scanner.ts:39-64 | Text holding "EVAL(" is infected, with severity high. |
| `Scanner.NothingDetectedInEmptyText` | backend/src/worker/scanner.ts:39-41 | No pattern is empty, so nothing is detected in empty text. |
| `Scanner.FetchFailureIsClean` | backend/src/worker/scanner.ts:29-43 | A failed fetch leaves the content "", nothing is detected, and the verdict is clean. |
| `Scanner.AlertListsDetectedPatterns` | backend/src/worker/scanner.ts:55-65 | For infected content, the alert's Detected Threats field splits back into the matched patterns. Its colour is high exactly when a high-tagged pattern matched. Its Timestamp is the ISO form of the scan time. |
| `Scanner.ScanFile` | backend/src/worker/scanner.ts:20-75 | The store ends as the scan's writes leave it. On success, `scanned` + verdict + first clock reading. If the first update rejects, the only write is `error` + second clock reading. If the notifier import rejects after the verdict was written, a second write of `error` + second clock reading follows. The report meets `ScanReportFor`. An alert is sent iff the content is infected and nothing rejected first. Its payload is `AlertPayload` of the matched entries and the first clock reading. The alert is dispatched as `Delivered` says. The scan itself rejects only when the error-path update rejects. |
| `Scanner.RaiseAlert` | backend/src/worker/scanner.ts:55-65 | For infected content with nothing rejected, the report meets `ScanReportFor`. The payload of the matched entries at the first clock reading goes to the notifier, and the scan does not reject. |
| `Scanner.ScanReachesTerminalState` | backend/src/worker/scanner.ts:44-73 | For a scan that does not reject (the error-path update is not the one that fails), the record ends `scanned` with a result and a scan time. The store stays well formed and no other record changes. |
| `Scanner.SuccessPathWritesVerdict` | backend/src/worker/scanner.ts:43-50 | Without faults, the record's only changes are status `scanned`, the computed verdict and the first clock reading. |
| `Scanner.CatchPathWritesError` | backend/src/worker/scanner.ts:67-73 | When control reaches the catch block and its update succeeds, the record ends `scanned` with result `error` and the second clock reading. This holds even after `infected` was written. |
| `Scanner.AlertIffInfected` | backend/src/worker/scanner.ts:43-61 | Without faults, the record ends `infected` iff some table pattern occurs in the content, and an alert is sent exactly then. The record's scan time is the first clock reading, and the alert's timestamp is that reading's ISO form. |
| `ScanQueue.InMemoryQueue.constructor` | backend/src/queue/index.ts:8-9 | A new queue is empty and not processing. |
| `ScanQueue.InMemoryQueue.Enqueue` | backend/src/queue/index.ts:11-15 | The job is appended at the tail. Earlier jobs and their order are unchanged. Afterwards a job is processing: the running one is undisturbed, or, if the queue was idle, the new job starts. |
| `ScanQueue.InMemoryQueue.StartNext` | backend/src/queue/index.ts:17-24 | This is a no-op while a job is processing or the queue is empty. Otherwise the flag is set and the head is shifted off and becomes the single running job. |
| `ScanQueue.InMemoryQueue.FinishCurrent` | backend/src/queue/index.ts:25-38 | The running job is recorded in `completed` exactly once, with its outcome, whether it threw or not. The flag is cleared. The next job starts iff the queue is non-empty, else the queue is idle. Jobs finish in enqueue order and none is lost or repeated. |
| `ScanQueue.InMemoryQueue.Drain` | backend/src/queue/index.ts:33-38 | Repeated completions finish every outstanding job in enqueue order, whatever its outcome, and leave the queue idle and empty. |
| `Upload.Extension` | backend/src/routes/upload.ts:16 | The extension is a suffix of the lower-cased name. With a dot in the name it starts with a dot and holds no other dot, so it starts at the last dot. Without a dot it is the last character (empty for an empty name). |
| `Upload.FileFilter` | backend/src/routes/upload.ts:14-19 | Only a name with a dot can be accepted, and then its extension has at least four characters. |
| `Upload.FileFilterFromLastDot` | backend/src/routes/upload.ts:14-19 | A name is accepted iff it has a dot and the lower-cased suffix from its last dot is one of .pdf, .docx, .jpg, .jpeg, .png. |
| `Upload.NoDotIsRejected` | backend/src/routes/upload.ts:16-18 | A name without a dot is rejected: `slice(-1)` keeps at most one character. |
| `Upload.OnlyTheLastDotCounts` | backend/src/routes/upload.ts:16 | `a.pdf.exe` is rejected and `a.exe.PDF` is accepted. |
| `Upload.ServerError` | backend/src/routes/upload.ts:66-68 | The catch block answers 500 with a JSON error body. The body carries the error's message when that is non-empty, else "Upload failed"; it is never empty. |
| `Upload.PostUpload` | backend/src/routes/upload.ts:11-70 | With no file: 400 "No file uploaded", and nothing is stored or written. A rejected extension or oversize file: middleware error, and nothing is stored or written. The storage upload is attempted iff the middleware passed a file. When it succeeds, the object stays stored even if a later step fails, and the response is then 500. A failed storage upload, create or queue import: 500 with the error's message (or "Upload failed"). A failed upload or create leaves no record, and no job is enqueued. On success: 201 with the new pending record (path = storage URL), and exactly one job enqueued with the record's id, path and name. The queue's finished log never changes. |
| `FileUploadForm.Extension` | frontend/src/components/FileUpload.tsx:19 | With a dot in the name, the form's extension equals the server's. Without one, it is the whole lower-cased name. |
| `FileUploadForm.TypeAllowed` | frontend/src/components/FileUpload.tsx:19-20 | Only a name with a dot passes the type check. |
| `FileUploadForm.ValidateFile` | frontend/src/components/FileUpload.tsx:18-27 | No error iff the extension is allowed and the size is at most 5 MiB. A disallowed extension gets the file-type message. An allowed extension with a size over 5 MiB gets the size message. |
| `FileUploadForm.OversizeGetsSizeMessage` | frontend/src/components/FileUpload.tsx:20-24 | A file the server's filter accepts but whose size is over the server's limit gets the size message from the form. |
| `FileUploadForm.ExtensionChecksAgree` | frontend/src/components/FileUpload.tsx:15-20 | For every name, the form's `substring` extension check accepts exactly when the server's `slice` filter does. |
| `FileUploadForm.FormAgreesWithServer` | frontend/src/components/FileUpload.tsx:15-27 | The form lets a file through iff the server's filter accepts its name and its size is within the server's limit. |
| `FileUploadForm.TypeCheckedBeforeSize` | frontend/src/components/FileUpload.tsx:20-25 | A disallowed file gets the file-type message, whatever its size. |
| `FileUploadForm.SizeBoundary` | frontend/src/components/FileUpload.tsx:16-24 | For an allowed name, exactly 5 MiB passes and 5 MiB + 1 byte gets the size message. |
| `Pipeline.ProcessCurrent` | backend/src/queue/index.ts:25-47 | The running job is scanned and then finishes. When importing the scanner rejects, it is not scanned, the store is unchanged and it is recorded in `completed` as failed. Otherwise the report meets `ScanReportFor` and the store takes the scan's writes. The job is recorded in `completed` as failed exactly when the scan rejects. The queue moves on to the next job. |

## Left out

- Network and storage I/O are parameters: the file fetch, the storage upload
  stream and the webhook POSTs. A fetched body is already-decoded text; UTF-8
  decoding, and an HTTP error status whose body would be scanned, are not
  modelled.
- Environment variables are parameters.
- The database is a map from id to record. Generated document ids are serial
  numbers handed out by the store, and the id in the alert is their decimal
  text. Listing all records newest first (`GET /files`) is done by the database
  and is not modelled.
- The scanner's random delay (`Math.random`, `setTimeout`) changes no outcome
  and is not modelled.
- Asynchrony is replaced by explicit steps. Other requests may still interleave
  between `StartNext` and `FinishCurrent`, since `Enqueue` may be called while
  a job runs. Promise scheduling itself is not modelled.
- Case mapping is ASCII only. Unicode case folding, including changes of
  length, is not modelled.
- The queue's job type declares `filePath` while the route and the scanner use
  `fileUrl`. One job type with `fileUrl` is modelled.
- The queue's `if (job)` guard is not modelled, because shifting a non-empty
  array always yields a job.
- The framework's default error handler answers with an HTML page. The model
  keeps only its status 500 and the error's message.
- Console logging is not modelled, except that the notifier reports whether
  it only logged the alert or caught and logged an error.
- Presentation is not modelled: the dashboard, its polling and status labels,
  the rest of the upload component, the HTTP client, and the CORS and server
  wiring.
- IsoTime.ToIsoString: the contract states only the shape of the rendering
  (length, `T`, final `Z`), and `IsoTime.EpochRendering` fixes the rendering of
  instant 0. The calendar arithmetic is written out but not proved correct for
  every instant.
