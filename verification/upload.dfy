/** The upload route: the extension filter the multipart middleware applies,
    its size limit, and the POST handler that stores the bytes, creates a
    pending record and enqueues the scan job. The storage upload, the database
    and the dynamic import of the queue are parameters that may fail. */
module Upload {
  import opened Wrappers
  import opened Text
  import opened IsoTime
  import opened Records
  import opened ScanQueue

  const AllowedExtensions: seq<string> := [".pdf", ".docx", ".jpg", ".jpeg", ".png"]

  /** The middleware's size limit: 5 MiB. */
  const MaxFileSize: nat := 5 * 1024 * 1024

  const FilterMessage: string := "Only PDF, DOCX, JPG, and PNG files are allowed"
  const TooLargeMessage: string := "File too large"
  const NoFileMessage: string := "No file uploaded"
  const UploadedMessage: string := "✅ File uploaded successfully"

  /** `originalname.toLowerCase().slice(originalname.lastIndexOf("."))`. */
  function Extension(name: string): (ext: string)
    ensures |ext| <= |name| && ext == Lower(name)[|name| - |ext|..]
    ensures '.' in name ==> |ext| >= 1 && ext[0] == '.' && '.' !in ext[1..]
    ensures '.' !in name ==> |ext| == (if name == [] then 0 else 1)
  {
    SliceFrom(Lower(name), LastIndexOf(name, '.'))
  }

  /** The `fileFilter` decision; only a name with a dot can pass. */
  predicate FileFilter(name: string): (accepted: bool)
    ensures accepted ==> '.' in name && |Extension(name)| >= 4
  {
    Extension(name) in AllowedExtensions
  }

  /** Every allowed extension starts with a dot and has at least four characters. */
  lemma AllowedShape()
    ensures forall i :: 0 <= i < |AllowedExtensions| ==>
      |AllowedExtensions[i]| >= 4 && AllowedExtensions[i][0] == '.'
  {
  }

  /** A name is accepted exactly when it has a dot and the lower-cased suffix
      from its last dot is an allowed extension. */
  lemma {:induction false} FileFilterFromLastDot(name: string)
    ensures FileFilter(name) <==>
      exists i :: 0 <= i < |name| && name[i] == '.' && '.' !in name[i + 1..]
                  && Lower(name)[i..] in AllowedExtensions
  {
    var k := LastIndexOf(name, '.');
    if k >= 0 {
      assert '.' !in name[k + 1..];
      forall i | 0 <= i < |name| && name[i] == '.' && '.' !in name[i + 1..]
        ensures i == k
      {
        if i < k {
          LaterCharInSuffix(name, i, k);
        }
      }
    } else {
      NoDotIsRejected(name);
    }
  }

  lemma LaterCharInSuffix(s: string, i: int, k: int)
    requires 0 <= i < k < |s|
    ensures s[k] in s[i + 1..]
  {
    assert s[i + 1..][k - i - 1] == s[k];
  }

  /** A name without a dot is always rejected: `slice(-1)` keeps at most one
      character, and every allowed extension is longer. */
  lemma NoDotIsRejected(name: string)
    requires '.' !in name
    ensures !FileFilter(name)
  {
    AllowedShape();
    assert |Extension(name)| <= 1;
  }

  /** Only the last dot counts. */
  lemma OnlyTheLastDotCounts()
    ensures !FileFilter("a.pdf.exe")
    ensures FileFilter("a.exe.PDF")
  {
    HiddenExeIsRejected();
    UpperCasePdfIsAccepted();
  }

  lemma HiddenExeIsRejected()
    ensures !FileFilter("a.pdf.exe")
  {
    assert LastIndexOf("a.pdf.exe", '.') == 5 by {
      assert "a.pdf.exe"[..8] == "a.pdf.ex";
      assert "a.pdf.ex"[..7] == "a.pdf.e";
      assert "a.pdf.e"[..6] == "a.pdf.";
    }
    assert Extension("a.pdf.exe") == ".exe" by {
      assert Lower("a.pdf.exe")[5..] == ".exe";
    }
  }

  lemma UpperCasePdfIsAccepted()
    ensures FileFilter("a.exe.PDF")
  {
    assert LastIndexOf("a.exe.PDF", '.') == 5 by {
      assert "a.exe.PDF"[..8] == "a.exe.PD";
      assert "a.exe.PD"[..7] == "a.exe.P";
      assert "a.exe.P"[..6] == "a.exe.";
    }
    assert Extension("a.exe.PDF") == ".pdf" by {
      assert Lower("a.exe.PDF")[5..] == ".pdf";
    }
  }

  /** The uploaded file as the middleware hands it to the handler. */
  datatype IncomingFile = IncomingFile(originalName: string, size: nat)

  /** The outside world during one request: the storage upload's secure URL or
      its error message, the database's error on create if any, whether
      importing the queue module rejects, and the clock. */
  datatype UploadEnv = UploadEnv(
    storage: StorageOutcome,
    createError: Option<string>,
    queueImportError: Option<string>,
    now: Instant)

  datatype StorageOutcome = Stored(secureUrl: string) | StorageFailed(message: string)

  datatype Body =
    | Uploaded(message: string, file: FileRecord)
    | JsonError(error: string)
      /** An error passed on by the middleware; with no error handler of the
          application, the framework's default handler answers it. */
    | MiddlewareError(message: string)

  datatype Response = Response(status: nat, body: Body)

  /** `err.message || "Upload failed"`. */
  function ServerError(message: string): (r: Response)
    ensures r.status == 500 && r.body.JsonError? && r.body.error != ""
    ensures message != "" ==> r.body.error == message
    ensures message == "" ==> r.body.error == "Upload failed"
  {
    Response(500, JsonError(if message == "" then "Upload failed" else message))
  }

  /** The middleware lets the file through to the handler. */
  predicate PassesMiddleware(file: Option<IncomingFile>)
  {
    file.None? || (FileFilter(file.value.originalName) && file.value.size <= MaxFileSize)
  }

  /** The handler gets as far as creating the record. */
  predicate CreatesRecord(file: Option<IncomingFile>, env: UploadEnv)
  {
    file.Some? && PassesMiddleware(file) && env.storage.Stored? && env.createError.None?
  }

  /** The request succeeds: the record is created and the job enqueued. */
  predicate Succeeds(file: Option<IncomingFile>, env: UploadEnv)
  {
    CreatesRecord(file, env) && env.queueImportError.None?
  }

  /** POST /upload: the middleware's filter and size limit, then the handler.
      `stored` is the storage object the request leaves behind: the upload is
      attempted only for a file the middleware passed, and an object it stored
      stays stored when a later step fails. */
  method PostUpload(store: FileStore, queue: InMemoryQueue, file: Option<IncomingFile>, env: UploadEnv)
    returns (response: Response, stored: Option<string>)
    requires store.Valid() && queue.Valid()
    modifies store, queue
    ensures store.Valid() && queue.Valid()
    ensures response.status == 201 <==> Succeeds(file, env)
    ensures file.None? ==> response == Response(400, JsonError(NoFileMessage))
    ensures file.Some? && !FileFilter(file.value.originalName) ==>
      response == Response(500, MiddlewareError(FilterMessage))
    ensures file.Some? && FileFilter(file.value.originalName) && file.value.size > MaxFileSize ==>
      response == Response(500, MiddlewareError(TooLargeMessage))
    ensures !CreatesRecord(file, env) ==> store.records == old(store.records)
    ensures CreatesRecord(file, env) ==>
      exists rec: FileRecord ::
        && rec.id !in old(store.records)
        && store.records == old(store.records)[rec.id := rec]
        && rec == FileRecord(rec.id, file.value.originalName, env.storage.secureUrl,
                             Pending, env.now, None, None)
        && (Succeeds(file, env) ==>
              && response == Response(201, Uploaded(UploadedMessage, rec))
              && queue.Outstanding() == old(queue.Outstanding()) + [ScanJob(rec.id, rec.path, rec.filename)])
    ensures !Succeeds(file, env) ==>
      queue.Outstanding() == old(queue.Outstanding()) && queue.enqueued == old(queue.enqueued)
    ensures queue.completed == old(queue.completed)
    ensures stored.Some? <==> file.Some? && PassesMiddleware(file) && env.storage.Stored?
    ensures stored.Some? ==> stored.value == env.storage.secureUrl
    ensures stored.Some? && !Succeeds(file, env) ==> response.status == 500
    ensures file.Some? && PassesMiddleware(file) && env.storage.StorageFailed? ==>
      response == ServerError(env.storage.message)
    ensures file.Some? && PassesMiddleware(file) && env.storage.Stored? && env.createError.Some? ==>
      response == ServerError(env.createError.value)
    ensures CreatesRecord(file, env) && env.queueImportError.Some? ==>
      response == ServerError(env.queueImportError.value)
  {
    stored := None;
    match file {
      case None =>
        response := Response(400, JsonError(NoFileMessage));
      case Some(f) =>
        if !FileFilter(f.originalName) {
          return Response(500, MiddlewareError(FilterMessage)), None;
        }
        if f.size > MaxFileSize {
          return Response(500, MiddlewareError(TooLargeMessage)), None;
        }
        match env.storage {
          case StorageFailed(message) =>
            return ServerError(message), None;
          case Stored(url) =>
            stored := Some(url);
            if env.createError.Some? {
              return ServerError(env.createError.value), stored;
            }
            var rec := store.Create(f.originalName, url, env.now);
            if env.queueImportError.Some? {
              return ServerError(env.queueImportError.value), stored;
            }
            queue.Enqueue(ScanJob(rec.id, url, f.originalName));
            response := Response(201, Uploaded(UploadedMessage, rec));
        }
    }
  }
}
