/** The scan worker: a fixed table of suspicious substrings, the case-insensitive
    filter over the file's text, the clean/infected verdict, the severity rule,
    and `scanFile`, which writes the outcome to the record and sends the alert.
    The fetch of the content, the clock, the store's failures and the notifier's
    dynamic import are parameters. */
module Scanner {
  import opened Wrappers
  import opened Text
  import opened IsoTime
  import opened Records
  import opened Notifications

  datatype Pattern = Pattern(text: string, severity: Severity)

  const DangerousPatterns: seq<Pattern> := [
    Pattern("rm -rf", High),
    Pattern("eval(", High),
    Pattern("exec(", High),
    Pattern("bitcoin", Medium),
    Pattern("malware", Medium),
    Pattern("virus", Medium),
    Pattern("hack", Medium),
    Pattern("exploit", High),
    Pattern("shell_exec", High),
    Pattern("system(", High),
    Pattern("passwd", Medium),
    Pattern("ssh-key", Medium)
  ]

  /** The table has no empty pattern, no comma in a pattern, and no entry twice. */
  lemma TableShape()
    ensures forall i :: 0 <= i < |DangerousPatterns| ==> |DangerousPatterns[i].text| > 0
    ensures forall i :: 0 <= i < |DangerousPatterns| ==> ',' !in DangerousPatterns[i].text
    ensures forall i, j :: 0 <= i < j < |DangerousPatterns| ==> DangerousPatterns[i] != DangerousPatterns[j]
  {
  }

  /** The text that is searched: the fetched content lower-cased, or the empty
      string when the fetch failed. */
  function ContentOf(fetched: Option<string>): (content: string)
    ensures IsLowerCase(content)
    ensures fetched.None? ==> content == ""
    ensures fetched.Some? ==> |content| == |fetched.value| && Lower(content) == Lower(fetched.value)
  {
    match fetched
    case None => ""
    case Some(raw) => Lower(raw)
  }

  /** `content.includes(p.pattern.toLowerCase())`. */
  predicate Matches(content: string, p: Pattern)
  {
    Contains(content, Lower(p.text))
  }

  /** A match does not depend on how the pattern is capitalised, and needs a
      content at least as long as the pattern. */
  lemma MatchIgnoresPatternCase(content: string, p: Pattern)
    ensures Matches(content, p) <==> Contains(content, Lower(Upper(p.text)))
    ensures Matches(content, p) ==> |p.text| <= |content|
  {
    LowerIgnoresUpper(p.text);
    ContainsBounds(content, Lower(p.text));
  }

  /** `xs` is `ys` with some elements left out, the rest in their order. */
  predicate IsSubsequence<T(==)>(xs: seq<T>, ys: seq<T>)
    decreases |ys|
  {
    || xs == []
    || (ys != [] && ((xs[0] == ys[0] && IsSubsequence(xs[1..], ys[1..])) || IsSubsequence(xs, ys[1..])))
  }

  /** `ps.filter(p => Matches(content, p))`. */
  function FilterMatches(ps: seq<Pattern>, content: string): (r: seq<Pattern>)
    ensures IsSubsequence(r, ps)
    ensures forall p :: p in r <==> p in ps && Matches(content, p)
    ensures r == [] <==> forall p :: p in ps ==> !Matches(content, p)
  {
    if ps == [] then []
    else if Matches(content, ps[0]) then [ps[0]] + FilterMatches(ps[1..], content)
    else FilterMatches(ps[1..], content)
  }

  /** The detected threats: exactly the table entries whose pattern occurs in
      the content, in table order. */
  function DetectThreats(content: string): (threats: seq<Pattern>)
    ensures IsSubsequence(threats, DangerousPatterns)
    ensures forall p :: p in threats <==> p in DangerousPatterns && Matches(content, p)
    ensures threats == [] <==> forall p :: p in DangerousPatterns ==> !Matches(content, p)
  {
    FilterMatches(DangerousPatterns, content)
  }

  /** `infected` when anything was detected, `clean` otherwise; the verdict is
      never `error`, which only the failure path writes. */
  function Verdict(threats: seq<Pattern>): (r: ScanResult)
    ensures r != Error
    ensures r == Infected <==> threats != []
  {
    if |threats| > 0 then Infected else Clean
  }

  /** `high` when some detected entry is tagged high, `medium` otherwise. */
  function SeverityOf(threats: seq<Pattern>): (s: Severity)
    ensures s != Low
    ensures s == High <==> exists t :: t in threats && t.severity == High
  {
    if exists t :: t in threats && t.severity == High then High else Medium
  }

  /** The content is infected exactly when some table pattern occurs in it. */
  lemma InfectedIffSomePatternOccurs(content: string)
    ensures Verdict(DetectThreats(content)) == Infected
        <==> exists p :: p in DangerousPatterns && Matches(content, p)
  {
    var threats := DetectThreats(content);
    if |threats| > 0 {
      assert threats[0] in threats;
    }
  }

  /** The severity is high exactly when some high-tagged table pattern occurs. */
  lemma SeverityHighIffHighPatternOccurs(content: string)
    ensures SeverityOf(DetectThreats(content)) == High
        <==> exists p :: p in DangerousPatterns && p.severity == High && Matches(content, p)
  {
  }

  /** Matching ignores case: when the raw text holds any spelling of a table
      pattern that differs only in case, that entry is detected. */
  lemma CaseInsensitiveDetection(raw: string, spelling: string, p: Pattern)
    requires p in DangerousPatterns
    requires Lower(spelling) == Lower(p.text)
    requires Contains(raw, spelling)
    ensures p in DetectThreats(ContentOf(Some(raw)))
  {
    LowerKeepsOccurrence(raw, spelling);
  }

  /** Content holding "EVAL(" is infected with high severity. */
  lemma UpperCaseEvalIsHighRisk(raw: string)
    requires Contains(raw, "EVAL(")
    ensures Verdict(DetectThreats(ContentOf(Some(raw)))) == Infected
    ensures SeverityOf(DetectThreats(ContentOf(Some(raw)))) == High
  {
    var eval := DangerousPatterns[1];
    assert Lower("EVAL(") == "eval(" == Lower(eval.text);
    CaseInsensitiveDetection(raw, "EVAL(", eval);
    var threats := DetectThreats(ContentOf(Some(raw)));
    assert eval in threats && eval.severity == High;
  }

  /** No pattern is empty, so nothing is detected in an empty text. */
  lemma NothingDetectedInEmptyText(content: string)
    requires |content| == 0
    ensures DetectThreats(content) == []
  {
    forall p | p in DangerousPatterns
      ensures !Matches(content, p)
    {
      TableShape();
      var i :| 0 <= i < |DangerousPatterns| && DangerousPatterns[i] == p;
      EmptyContainsNothing(Lower(p.text));
    }
  }

  /** A failed fetch leaves the content empty, so the verdict is clean. */
  lemma FetchFailureIsClean()
    ensures DetectThreats(ContentOf(None)) == []
    ensures Verdict(DetectThreats(ContentOf(None))) == Clean
  {
    NothingDetectedInEmptyText(ContentOf(None));
  }

  /** `detectedThreats.map(t => t.pattern)`. */
  function ThreatNames(threats: seq<Pattern>): seq<string>
  {
    seq(|threats|, i requires 0 <= i < |threats| => threats[i].text)
  }

  /** The alert payload for a job whose threats were detected at time `at`. */
  function AlertPayload(job: ScanJob, threats: seq<Pattern>, at: Instant): (p: Payload)
    ensures p.filename == job.filename
    ensures |p.detectedThreats| == |threats|
    ensures forall i :: 0 <= i < |threats| ==> p.detectedThreats[i] == threats[i].text
    ensures p.fileId == DecimalText(job.fileId)
    ensures p.timestamp == ToIsoString(at)
    ensures p.severity != Low
    ensures p.severity == High <==> exists t :: t in threats && t.severity == High
  {
    Payload(job.filename, DecimalText(job.fileId), ThreatNames(threats), ToIsoString(at), SeverityOf(threats))
  }

  /** The alert a reader gets lists the detected patterns in its Detected Threats
      field and reads back the severity rule in its Severity field. */
  lemma AlertListsDetectedPatterns(job: ScanJob, content: string, at: Instant)
    requires Verdict(DetectThreats(content)) == Infected
    ensures var m := BuildAlert(AlertPayload(job, DetectThreats(content), at));
      && SplitList(FieldValue(m, "Detected Threats").value) == ThreatNames(DetectThreats(content))
      && (m.attachments[0].color == HighColor
          <==> exists p :: p in DangerousPatterns && p.severity == High && Matches(content, p))
      && FieldValue(m, "Timestamp") == Some(ToIsoString(at))
  {
    var threats := DetectThreats(content);
    var payload := AlertPayload(job, threats, at);
    TableShape();
    forall i | 0 <= i < |threats|
      ensures ',' !in payload.detectedThreats[i]
    {
      assert threats[i] in DangerousPatterns;
    }
    ThreatsFieldReadsBack(payload);
    SeverityHighIffHighPatternOccurs(content);
  }

  /** The failures `scanFile` can meet inside its try block and in its catch
      block: the first record update rejects, the dynamic import of the
      notifier rejects, the error-path update rejects. */
  datatype ScanFaults = ScanFaults(update: bool, notifierImport: bool, errorUpdate: bool)

  /** Everything outside the scanner's own logic: the fetched text (None when
      the fetch fails), the two clock readings, the failures, and the alert's
      delivery settings. */
  datatype ScanEnv = ScanEnv(
    fetched: Option<string>,
    scannedAt: Instant,
    errorAt: Instant,
    faults: ScanFaults,
    delivery: Delivery)

  /** What a scan did besides writing the store: the alert it sent (if any), the
      dispatch of that alert, and whether the scan itself rejected. */
  datatype ScanReport = ScanReport(alert: Option<Payload>, dispatch: Option<Dispatch>, threw: bool)

  function EnvVerdict(env: ScanEnv): ScanResult
  {
    Verdict(DetectThreats(ContentOf(env.fetched)))
  }

  /** Control reaches the catch block: the first update rejected, or the
      content is infected and importing the notifier rejected. */
  predicate ReachesCatch(env: ScanEnv)
  {
    CatchReachedWith(EnvVerdict(env), env.faults)
  }

  /** `ReachesCatch` for a given verdict. */
  predicate CatchReachedWith(verdict: ScanResult, faults: ScanFaults)
  {
    faults.update || (verdict == Infected && faults.notifierImport)
  }

  /** The alert a scan sends: for infected content, unless the first update or
      the notifier's import rejected first, with the first clock reading. */
  function AlertOf(job: ScanJob, env: ScanEnv): Option<Payload>
  {
    if EnvVerdict(env) == Infected && !ReachesCatch(env)
    then Some(AlertPayload(job, DetectThreats(ContentOf(env.fetched)), env.scannedAt))
    else None
  }

  /** The scan itself rejects only when the catch block's own update rejects. */
  predicate ScanRejects(env: ScanEnv)
  {
    ReachesCatch(env) && env.faults.errorUpdate
  }

  /** What a scan of `job` under `env` reports: the alert it sends, a dispatch
      exactly when an alert is sent, that dispatch as the notifier performs it,
      and whether the scan rejected. */
  predicate ScanReportFor(report: ScanReport, job: ScanJob, env: ScanEnv)
  {
    && report.alert == AlertOf(job, env)
    && (report.dispatch.Some? <==> report.alert.Some?)
    && (report.dispatch.Some? ==> Delivered(report.dispatch.value, report.alert.value, env.delivery))
    && (report.threw <==> ScanRejects(env))
  }

  /** The record updates a scan performs, in order. */
  function ScanWrites(env: ScanEnv): seq<ScanPatch>
  {
    WritesWith(EnvVerdict(env), env)
  }

  /** `ScanWrites` for a given verdict. */
  function WritesWith(verdict: ScanResult, env: ScanEnv): seq<ScanPatch>
  {
    (if env.faults.update then [] else [ScanPatch(verdict, env.scannedAt)])
    + (if CatchReachedWith(verdict, env.faults) && !env.faults.errorUpdate then [ScanPatch(Error, env.errorAt)] else [])
  }

  /** The alert step of `scanFile` for infected content once the verdict is
      written: the payload is built and handed to the notifier, which catches
      its own errors, so the scan does not reject. */
  method RaiseAlert(job: ScanJob, env: ScanEnv) returns (report: ScanReport)
    requires EnvVerdict(env) == Infected && !ReachesCatch(env)
    ensures ScanReportFor(report, job, env)
  {
    var payload := AlertPayload(job, DetectThreats(ContentOf(env.fetched)), env.scannedAt);
    var dispatch := SendInfectedFileAlert(payload, env.delivery);
    report := ScanReport(Some(payload), Some(dispatch), false);
  }

  /** `scanFile`. The simulated delay is left out: it changes no outcome. */
  method ScanFile(store: FileStore, job: ScanJob, env: ScanEnv) returns (report: ScanReport)
    requires store.Valid()
    modifies store
    ensures store.Valid()
    ensures store.records == UpdateAll(old(store.records), job.fileId, ScanWrites(env))
    ensures ScanReportFor(report, job, env)
  {
    report := ScanReport(None, None, false);
    ghost var writes: seq<ScanPatch> := [];
    var failed := false;
    var result := EnvVerdict(env);
    if env.faults.update {
      failed := true;
    } else {
      store.FindByIdAndUpdate(job.fileId, ScanPatch(result, env.scannedAt));
      writes := [ScanPatch(result, env.scannedAt)];
      UpdateAllThenOne(old(store.records), job.fileId, [], writes[0]);
      if result == Infected {
        if env.faults.notifierImport {
          failed := true;
        } else {
          report := RaiseAlert(job, env);
        }
      }
    }
    if failed {
      if env.faults.errorUpdate {
        report := report.(threw := true);
      } else {
        store.FindByIdAndUpdate(job.fileId, ScanPatch(Error, env.errorAt));
        UpdateAllThenOne(old(store.records), job.fileId, writes, ScanPatch(Error, env.errorAt));
        writes := writes + [ScanPatch(Error, env.errorAt)];
      }
    }
    assert writes == WritesWith(result, env);
  }

  /** Unless the error-path update itself rejects, the record ends scanned,
      with a result and a scan time, and no other record changes. */
  lemma ScanReachesTerminalState(records: map<FileId, FileRecord>, job: ScanJob, env: ScanEnv)
    requires WellFormedStore(records)
    requires job.fileId in records
    requires !ScanRejects(env)
    ensures var after := UpdateAll(records, job.fileId, ScanWrites(env));
      && WellFormedStore(after)
      && after.Keys == records.Keys
      && after[job.fileId].status == Scanned
      && after[job.fileId].result.Some? && after[job.fileId].scannedAt.Some?
      && (forall other :: other in records && other != job.fileId ==> after[other] == records[other])
  {
    assert ScanWrites(env) != [];
    UpdateAllEffect(records, job.fileId, ScanWrites(env));
  }

  /** Without faults the record gets the verdict and the first clock reading,
      which is also the time the alert carries. */
  lemma SuccessPathWritesVerdict(records: map<FileId, FileRecord>, job: ScanJob, env: ScanEnv)
    requires WellFormedStore(records)
    requires job.fileId in records
    requires !env.faults.update && !env.faults.notifierImport
    ensures var after := UpdateAll(records, job.fileId, ScanWrites(env));
      && job.fileId in after
      && after[job.fileId] == records[job.fileId].(
           status := Scanned, result := Some(EnvVerdict(env)), scannedAt := Some(env.scannedAt))
  {
    UpdateAllEffect(records, job.fileId, ScanWrites(env));
  }

  /** When control reaches the catch block and the error update succeeds, the
      record ends with result error and the second clock reading, even when the
      first update had already written `infected`. */
  lemma CatchPathWritesError(records: map<FileId, FileRecord>, job: ScanJob, env: ScanEnv)
    requires WellFormedStore(records)
    requires job.fileId in records
    requires ReachesCatch(env) && !env.faults.errorUpdate
    ensures var after := UpdateAll(records, job.fileId, ScanWrites(env));
      && job.fileId in after
      && after[job.fileId].status == Scanned
      && after[job.fileId].result == Some(Error)
      && after[job.fileId].scannedAt == Some(env.errorAt)
  {
    UpdateAllEffect(records, job.fileId, ScanWrites(env));
  }

  /** Without faults the record ends infected exactly when some table pattern
      occurs in the content, exactly then an alert is sent, and the alert
      carries the ISO form of the scan time the record holds. */
  lemma AlertIffInfected(records: map<FileId, FileRecord>, job: ScanJob, env: ScanEnv)
    requires WellFormedStore(records)
    requires job.fileId in records
    requires !env.faults.update && !env.faults.notifierImport
    ensures var after := UpdateAll(records, job.fileId, ScanWrites(env));
      && job.fileId in after
      && (after[job.fileId].result == Some(Infected)
          <==> exists p :: p in DangerousPatterns && Matches(ContentOf(env.fetched), p))
      && after[job.fileId].scannedAt == Some(env.scannedAt)
      && (AlertOf(job, env).Some? <==> after[job.fileId].result == Some(Infected))
      && (AlertOf(job, env).Some? ==> AlertOf(job, env).value.timestamp == ToIsoString(env.scannedAt))
  {
    SuccessPathWritesVerdict(records, job, env);
    InfectedIffSomePatternOccurs(ContentOf(env.fetched));
  }
}
