/** app/main.py: the in-memory task map, the endpoint that starts an
    email-sending job, the background job itself with its chain of checks,
    and the endpoints that read the scraping provider's task record. */
module App {
  import opened Wrappers
  import opened PyStr
  import opened Config
  import opened CsvReader
  import opened EmailSenderUtil
  import opened EmailSender
  import opened Scraper

  // ---------------------------------------------------------------------
  // The task map

  datatype Phase = Processing | Completed | Failed {
    function Text(): string {
      match this
      case Processing => "processing"
      case Completed => "completed"
      case Failed => "failed"
    }
  }

  /** What a completed job stores as its result: the download report and
      the dispatch report. */
  datatype Combined = Combined(download: DownloadResult, emailSending: DispatchResult)

  /** One entry of `tasks`. Timestamps are opaque strings handed in by the
      caller. */
  datatype Task = Task(status: Phase, createdAt: string, result: Option<Combined>, error: Option<string>,
                       completedAt: Option<string>)

  type Tasks = map<string, Task>

  datatype HttpError = HttpError(code: int, detail: string)

  datatype TaskResponse = TaskResponse(taskId: string, status: string, message: string)

  const TaskIdRequiredText: string := "outscraperTaskId is required in campaign"

  /** POST /api/send, on the task map: a missing or empty id is refused
      with 400; otherwise a fresh "processing" entry replaces whatever was
      stored under the id. */
  function SubmitTask(tasks: Tasks, taskId: Option<string>, now: string): (r: (Result<TaskResponse, HttpError>, Tasks))
    ensures taskId.None? || taskId.value == "" ==> r.0 == Err(HttpError(400, TaskIdRequiredText)) && r.1 == tasks
    ensures taskId.Some? && taskId.value != "" ==>
              r.0.Ok? && r.0.value.taskId == taskId.value && r.0.value.status == Processing.Text()
              && r.1.Keys == tasks.Keys + {taskId.value}
              && r.1[taskId.value] == Task(Processing, now, None, None, None)
              && forall k | k in tasks && k != taskId.value :: r.1[k] == tasks[k]
  {
    if taskId.None? || taskId.value == "" then (Err(HttpError(400, TaskIdRequiredText)), tasks)
    else
      var id := taskId.value;
      (Ok(TaskResponse(id, "processing", "Email sending task started for Outscraper task ID: " + id)),
       tasks[id := Task(Processing, now, None, None, None)])
  }

  /** What GET /api/tasks/{id} answers with. */
  datatype TaskView = TaskView(taskId: string, status: string, result: Option<Combined>, error: Option<string>,
                               createdAt: string, completedAt: Option<string>)

  /** GET /api/tasks/{id}: 404 for an unknown id, else the stored entry. */
  function GetTaskStatus(tasks: Tasks, taskId: string): (r: Result<TaskView, HttpError>)
    ensures r.Err? <==> taskId !in tasks
    ensures r.Err? ==> r.error == HttpError(404, "Task not found")
    ensures r.Ok? ==> var t := tasks[taskId];
                      r.value.taskId == taskId && r.value.status == t.status.Text() && r.value.result == t.result
                      && r.value.error == t.error && r.value.createdAt == t.createdAt
                      && r.value.completedAt == t.completedAt
  {
    if taskId !in tasks then Err(HttpError(404, "Task not found"))
    else
      var t := tasks[taskId];
      Ok(TaskView(taskId, t.status.Text(), t.result, t.error, t.createdAt, t.completedAt))
  }

  /** A job that was just submitted reads back as processing, with nothing
      but its creation time. */
  lemma SubmittedTaskIsProcessing(tasks: Tasks, taskId: string, now: string)
    requires taskId != ""
    ensures GetTaskStatus(SubmitTask(tasks, Some(taskId), now).1, taskId)
            == Ok(TaskView(taskId, "processing", None, None, now, None))
  {
  }

  /** Re-submitting an id whose job has finished wipes its result, its
      error and its completion time. */
  lemma ResubmitResetsTerminalTask(tasks: Tasks, taskId: string, now: string)
    requires taskId != "" && taskId in tasks && tasks[taskId].status != Processing
    ensures var after := SubmitTask(tasks, Some(taskId), now).1;
            after[taskId].status == Processing && after[taskId].result.None?
            && after[taskId].error.None? && after[taskId].completedAt.None?
  {
  }

  /** How a job ends: a result makes it "completed", an error "failed";
      either way the completion time is set. */
  function Finish(t: Task, outcome: Result<Combined, string>, now: string): (r: Task)
    ensures r.status != Processing && r.completedAt == Some(now) && r.createdAt == t.createdAt
    ensures r.status == Completed <==> outcome.Ok?
    ensures outcome.Ok? ==> r.result == Some(outcome.value) && r.error == t.error
    ensures outcome.Err? ==> r.error == Some(outcome.error) && r.result == t.result
  {
    match outcome
    case Ok(c) => t.(status := Completed, result := Some(c), completedAt := Some(now))
    case Err(e) => t.(status := Phase.Failed, error := Some(e), completedAt := Some(now))
  }

  /** Once the job has run, the status endpoint reports "completed" or
      "failed", the completion time, and the error of a failed job. */
  lemma FinishedTaskReadsTerminal(tasks: Tasks, taskId: string, outcome: Result<Combined, string>, now: string)
    requires taskId in tasks
    ensures var v := GetTaskStatus(tasks[taskId := Finish(tasks[taskId], outcome, now)], taskId);
            v.Ok? && (v.value.status == "completed" || v.value.status == "failed")
            && v.value.completedAt == Some(now) && v.value.createdAt == tasks[taskId].createdAt
            && (outcome.Err? ==> v.value.status == "failed" && v.value.error == Some(outcome.error))
            && (outcome.Ok? ==> v.value.status == "completed" && v.value.result == Some(outcome.value))
  {
  }

  // ---------------------------------------------------------------------
  // The provider's task record

  /** The `status` of a raw task record: absent, null or a string. */
  datatype RawStatus = Absent | Null | Given(text: string)

  /** One element of `results`; `fileUrl` is None when missing or null. */
  datatype ResultEntry = ResultEntry(fileUrl: Option<string>)

  /** A raw task record. An absent or null `results` is falsy exactly like
      an empty list, so all three are the empty sequence here. `faults`
      names the fields other than `status` that the record lacks or holds
      with the wrong type for `OutscraperTaskInfo` ("results" among them
      when it is absent or null). */
  datatype RawInfo = RawInfo(status: RawStatus, results: seq<ResultEntry>, faults: set<string>)

  /** The fields of `OutscraperTaskInfo`, in declaration order. */
  const TaskInfoFields: seq<string> := ["metadata", "updated", "user_id", "status", "created", "queue_task_id",
                                        "results", "id"]

  /** Field `f` of a record fails validation: a null `status`, or a field
      named in `faults`. */
  predicate FieldFails(raw: RawInfo, f: string) {
    if f == "status" then raw.status.Null? else f in raw.faults
  }

  /** The fields among `fields` that fail validation, in the given order. */
  function FailingFields(raw: RawInfo, fields: seq<string>): (r: seq<string>)
    ensures |r| <= |fields|
    ensures forall f :: f in r <==> f in fields && FieldFails(raw, f)
  {
    if |fields| == 0 then []
    else (if FieldFails(raw, fields[0]) then [fields[0]] else []) + FailingFields(raw, fields[1..])
  }

  function FieldLines(fields: seq<string>): string {
    if |fields| == 0 then "" else "\n" + fields[0] + FieldLines(fields[1..])
  }

  /** The text of pydantic's `ValidationError`: the count of errors, then
      each failing field on a line of its own. */
  function ValidationErrorText(fields: seq<string>): string {
    NatToString(|fields|) + " validation error" + (if |fields| == 1 then "" else "s") + " for OutscraperTaskInfo"
    + FieldLines(fields)
  }

  /** How `raw_data.get('status')` prints inside an f-string. */
  function StatusText(s: RawStatus): string {
    if s.Given? then s.text else "None"
  }

  /** What `get_task_info_raw` raises when the request fails. */
  function RawFetchError(fetched: Fetched<RawInfo>): (e: string)
    requires !fetched.Body?
    ensures fetched.RequestFailed? ==> e == "API request failed: " + fetched.reason
    ensures fetched.OtherFailure? ==> e == "Unexpected error: " + fetched.reason
  {
    if fetched.RequestFailed? then "API request failed: " + fetched.reason
    else "Unexpected error: " + fetched.reason
  }

  /** The record with a missing `status` filled in as "IN_PROGRESS". */
  function WithStatus(raw: RawInfo): RawInfo {
    if raw.status.Absent? then raw.(status := Given("IN_PROGRESS")) else raw
  }

  /** GET /api/task/{id}/raw: a record without `status` is reported as
      "IN_PROGRESS"; a failed request is a 500, and so is a record that
      `OutscraperTaskInfo` refuses: a null status or a faulty field. */
  function GetTaskInfoRaw(fetched: Fetched<RawInfo>): (r: Result<RawInfo, HttpError>)
    ensures r.Ok? <==> fetched.Body? && !fetched.body.status.Null?
                       && forall f | f in TaskInfoFields && f != "status" :: f !in fetched.body.faults
    ensures r.Ok? ==> r.value.results == fetched.body.results && r.value.faults == fetched.body.faults
                      && r.value.status.Given?
    ensures r.Ok? && !fetched.body.status.Absent? ==> r.value == fetched.body
    ensures r.Ok? && fetched.body.status.Absent? ==> r.value.status == Given("IN_PROGRESS")
    ensures !fetched.Body? ==> r == Err(HttpError(500, RawFetchError(fetched)))
    ensures fetched.Body? && r.Err? ==>
              r.error == HttpError(500, ValidationErrorText(FailingFields(WithStatus(fetched.body), TaskInfoFields)))
  {
    match fetched
    case Body(raw) =>
      var filled := WithStatus(raw);
      var failing := FailingFields(filled, TaskInfoFields);
      assert "status" in TaskInfoFields;
      if failing == [] then Ok(filled)
      else
        assert failing[0] in failing && FieldFails(filled, failing[0]);
        Err(HttpError(500, ValidationErrorText(failing)))
    case _ => Err(HttpError(500, RawFetchError(fetched)))
  }

  /** The checks both the background job and the download endpoint run on
      a task record before downloading: the request must succeed, the
      status must be "SUCCESS", there must be a result and the first
      result must have a non-empty file URL. A failure carries the HTTP code
      the download endpoint answers with and the text both report. */
  function FileUrlFor(taskId: string, fetched: Fetched<RawInfo>): (r: Result<string, HttpError>)
    ensures r.Ok? <==> fetched.Body? && fetched.body.status == Given("SUCCESS") && |fetched.body.results| > 0
                       && fetched.body.results[0].fileUrl.Some? && fetched.body.results[0].fileUrl.value != ""
    ensures r.Ok? ==> r.value == fetched.body.results[0].fileUrl.value
    ensures !fetched.Body? ==> r == Err(HttpError(500, RawFetchError(fetched)))
    ensures fetched.Body? && fetched.body.status != Given("SUCCESS") ==>
              r == Err(HttpError(400, "Task " + taskId + " is not completed. Current status: "
                                      + StatusText(fetched.body.status)))
    ensures fetched.Body? && fetched.body.status == Given("SUCCESS") && |fetched.body.results| == 0 ==>
              r == Err(HttpError(404, "No results found for task " + taskId))
    ensures fetched.Body? && fetched.body.status == Given("SUCCESS") && |fetched.body.results| > 0
            && (fetched.body.results[0].fileUrl.None? || fetched.body.results[0].fileUrl.value == "") ==>
              r == Err(HttpError(404, "No file URL found in results for task " + taskId))
  {
    if !fetched.Body? then Err(HttpError(500, RawFetchError(fetched)))
    else
      var raw := fetched.body;
      if raw.status != Given("SUCCESS") then
        Err(HttpError(400, "Task " + taskId + " is not completed. Current status: " + StatusText(raw.status)))
      else if |raw.results| == 0 then Err(HttpError(404, "No results found for task " + taskId))
      else
        var url := raw.results[0].fileUrl;
        if url.None? || url.value == "" then
          Err(HttpError(404, "No file URL found in results for task " + taskId))
        else Ok(url.value)
  }

  /** A record with no status at all never passes the checks, and its
      status prints as "None". */
  lemma StatuslessTaskRefused(taskId: string, results: seq<ResultEntry>, faults: set<string>)
    ensures FileUrlFor(taskId, Body(RawInfo(Absent, results, faults)))
            == Err(HttpError(400, "Task " + taskId + " is not completed. Current status: None"))
  {
    var prefix := "Task " + taskId + " is not completed. Current status: ";
    assert prefix + StatusText(Absent) == "Task " + taskId + " is not completed. Current status: None";
  }

  // ---------------------------------------------------------------------
  // The background job, on values

  /** The relay settings of a send request, typed as the request model
      types them. */
  datatype SmtpSettings = SmtpSettings(smtpServer: string, smtpPort: int, emailAddress: string, emailPassword: string)

  /** The dictionary the job builds from the request's settings. */
  function SettingsDict(s: SmtpSettings): (d: ConfigDict)
    ensures FromDict(d) == Ok(EmailConfig(Text(s.smtpServer), Number(s.smtpPort), Text(s.emailAddress),
                                          Text(s.emailPassword)))
    ensures |d| != 0
  {
    var c := EmailConfig(Text(s.smtpServer), Number(s.smtpPort), Text(s.emailAddress), Text(s.emailPassword));
    FromDictToDict(c);
    assert "smtpServer" in ToDict(c);
    ToDict(c)
  }

  /** The campaign fields of a send request that the job uses. */
  datatype SendRequest = SendRequest(template: Option<Template>, settings: SmtpSettings,
                                     currentPosition: Option<int>, emailsPerDay: Option<int>)

  /** What the outside world answers during one job: the task record, the
      file download and the relay. */
  datatype Oracles = Oracles(info: Fetched<RawInfo>, file: Transfer, relay: Relay)

  /** The text of the KeyError raised when the job reads `csv_file` from an
      error report, which has no such key. */
  const CsvFileKeyErrorText: string := "'csv_file'"

  /** The job once the file is on disk: the dispatch, and the outcome the
      task records. An error report from the dispatch fails the job with
      the KeyError text, not with the report's message. */
  function AfterDownload(fs: Folders, taskId: string, req: SendRequest, relay: Relay, download: DownloadResult)
    : (r: (Result<Combined, string>, seq<Message>))
  {
    var (dispatch, sent) := Dispatch(fs, relay, taskId, req.template, Some(SettingsDict(req.settings)),
                                     req.currentPosition, req.emailsPerDay);
    if dispatch.DispatchFailed? then (Err(CsvFileKeyErrorText), sent)
    else (Ok(Combined(download, dispatch)), sent)
  }

  /** `background_send_emails` on the folders as they were: the outcome it
      records and the messages handed to the relay. */
  function BackgroundOutcome(fs: Folders, taskId: string, req: SendRequest, o: Oracles)
    : (r: (Result<Combined, string>, seq<Message>))
  {
    match FileUrlFor(taskId, o.info)
    case Err(e) => (Err(e.detail), [])
    case Ok(url) =>
      var download := DownloadReport(taskId, url, o.file);
      if !download.Success() then (Err("Download failed: " + download.message), [])
      else AfterDownload(FoldersAfterDownload(fs, taskId, url, o.file), taskId, req, o.relay, download)
  }

  /** An error report from the dispatch fails the job with the KeyError
      text whatever the report said, even when some messages were already
      handed to the relay before the fault. */
  lemma DispatchErrorFailsJob(fs: Folders, taskId: string, req: SendRequest, relay: Relay, download: DownloadResult)
    ensures var (dispatch, sent) := Dispatch(fs, relay, taskId, req.template, Some(SettingsDict(req.settings)),
                                             req.currentPosition, req.emailsPerDay);
            var (outcome, messages) := AfterDownload(fs, taskId, req, relay, download);
            messages == sent
            && (outcome.Err? <==> dispatch.DispatchFailed?)
            && (outcome.Err? ==> outcome.error == CsvFileKeyErrorText)
            && (outcome.Ok? ==> outcome.value == Combined(download, dispatch))
  {
  }

  /** The folders after `background_send_emails`. */
  function FoldersAfterBackground(fs: Folders, taskId: string, req: SendRequest, o: Oracles): Folders {
    match FileUrlFor(taskId, o.info)
    case Err(_) => fs
    case Ok(url) =>
      var downloaded := FoldersAfterDownload(fs, taskId, url, o.file);
      if !DownloadReport(taskId, url, o.file).Success() then downloaded
      else
        var (dispatch, _) := Dispatch(downloaded, o.relay, taskId, req.template, Some(SettingsDict(req.settings)),
                                      req.currentPosition, req.emailsPerDay);
        FoldersAfter(downloaded, dispatch, taskId)
  }

  /** Every check that fails before the download fails the job with that
      check's text, and nothing is sent or written. */
  lemma FailedCheckSendsNothing(fs: Folders, taskId: string, req: SendRequest, o: Oracles)
    requires FileUrlFor(taskId, o.info).Err?
    ensures BackgroundOutcome(fs, taskId, req, o) == (Err(FileUrlFor(taskId, o.info).error.detail), [])
    ensures FoldersAfterBackground(fs, taskId, req, o) == fs
  {
  }

  /** A failed download fails the job with the downloader's message behind
      a second "Download failed: " and sends nothing; the task folder is
      left as the download left it. A refused request thus reads
      "Download failed: Download failed: <reason>". */
  lemma FailedDownloadSendsNothing(fs: Folders, taskId: string, req: SendRequest, o: Oracles)
    requires FileUrlFor(taskId, o.info).Ok?
    requires !DownloadReport(taskId, FileUrlFor(taskId, o.info).value, o.file).Success()
    ensures var url := FileUrlFor(taskId, o.info).value;
            BackgroundOutcome(fs, taskId, req, o)
            == (Err("Download failed: " + DownloadReport(taskId, url, o.file).message), [])
            && FoldersAfterBackground(fs, taskId, req, o) == FoldersAfterDownload(fs, taskId, url, o.file)
    ensures var url := FileUrlFor(taskId, o.info).value;
            UrlPath(url).Ok? && o.file.Refused? && o.file.failure.RequestError? ==>
              BackgroundOutcome(fs, taskId, req, o).0
              == Err("Download failed: " + ("Download failed: " + o.file.failure.reason))
  {
    var url := FileUrlFor(taskId, o.info).value;
    var download := DownloadReport(taskId, url, o.file);
    assert BackgroundOutcome(fs, taskId, req, o) == (Err("Download failed: " + download.message), []);
  }

  /** After a successful download, a task folder that lists no csv file
      leaves the dispatcher without a lead file: the job fails with the
      KeyError text and nothing is sent. A csv file left in the folder by
      an earlier run is what the dispatcher would read instead. */
  lemma NoCsvAfterDownloadFailsJob(fs: Folders, taskId: string, req: SendRequest, o: Oracles)
    requires FileUrlFor(taskId, o.info).Ok?
    requires DownloadReport(taskId, FileUrlFor(taskId, o.info).value, o.file).Success()
    requires forall n | n in FoldersAfterDownload(fs, taskId, FileUrlFor(taskId, o.info).value, o.file)[TaskFolder(taskId)].listing
               :: !IsCsvName(n)
    ensures BackgroundOutcome(fs, taskId, req, o).0 == Err(CsvFileKeyErrorText)
    ensures BackgroundOutcome(fs, taskId, req, o).1 == []
  {
    var url := FileUrlFor(taskId, o.info).value;
    var after := FoldersAfterDownload(fs, taskId, url, o.file);
    var d := SettingsDict(req.settings);
    NoCsvFileFails(after, o.relay, taskId, req.template, d, req.currentPosition, req.emailsPerDay);
  }

  /** A downloaded file whose name does not end in ".csv" (the fallback
      name, say) into a folder that did not exist is the folder's only
      entry, so the job fails with the KeyError text. */
  lemma NonCsvDownloadFailsJob(fs: Folders, taskId: string, req: SendRequest, o: Oracles)
    requires FileUrlFor(taskId, o.info).Ok?
    requires DownloadReport(taskId, FileUrlFor(taskId, o.info).value, o.file).Success()
    requires TaskFolder(taskId) !in fs
    requires !IsCsvName(DownloadReport(taskId, FileUrlFor(taskId, o.info).value, o.file).filename)
    ensures BackgroundOutcome(fs, taskId, req, o).0 == Err(CsvFileKeyErrorText)
    ensures BackgroundOutcome(fs, taskId, req, o).1 == []
  {
    FreshDownloadListsNoCsv(fs, taskId, FileUrlFor(taskId, o.info).value, o.file);
    NoCsvAfterDownloadFailsJob(fs, taskId, req, o);
  }

  /** A fresh task folder lists only the downloaded file, so a non-csv name
      leaves it without a csv file. */
  lemma FreshDownloadListsNoCsv(fs: Folders, taskId: string, url: string, file: Transfer)
    requires DownloadReport(taskId, url, file).Success() && TaskFolder(taskId) !in fs
    requires !IsCsvName(DownloadReport(taskId, url, file).filename)
    ensures forall n | n in FoldersAfterDownload(fs, taskId, url, file)[TaskFolder(taskId)].listing :: !IsCsvName(n)
  {
    DownloadIntoFreshFolder(fs, taskId, url, file);
  }

  // ---------------------------------------------------------------------
  // The download endpoint

  /** GET /api/task/{id}/download: the same checks as the job, answered
      with 400, 404, 404 or 500, then the download, whose failure is a 500
      carrying the downloader's message. */
  function DownloadResponse(taskId: string, info: Fetched<RawInfo>, file: Transfer)
    : (r: Result<DownloadResult, HttpError>)
    ensures r.Ok? <==> FileUrlFor(taskId, info).Ok? && DownloadReport(taskId, FileUrlFor(taskId, info).value, file).Success()
    ensures r.Err? ==> r.error.code == 400 || r.error.code == 404 || r.error.code == 500
    ensures FileUrlFor(taskId, info).Err? ==> r == Err(FileUrlFor(taskId, info).error)
    ensures FileUrlFor(taskId, info).Ok? ==>
              var report := DownloadReport(taskId, FileUrlFor(taskId, info).value, file);
              if report.Success() then r == Ok(report) else r == Err(HttpError(500, report.message))
  {
    match FileUrlFor(taskId, info)
    case Err(e) => Err(e)
    case Ok(url) =>
      var report := DownloadReport(taskId, url, file);
      if report.Success() then Ok(report) else Err(HttpError(500, report.message))
  }

  /** The endpoint and the job refuse the same records, with the same text;
      the endpoint serves a file exactly when the job goes on to dispatch. */
  lemma EndpointAgreesWithJob(fs: Folders, taskId: string, req: SendRequest, o: Oracles)
    ensures DownloadResponse(taskId, o.info, o.file).Err? && FileUrlFor(taskId, o.info).Err? ==>
              BackgroundOutcome(fs, taskId, req, o).0
              == Err(DownloadResponse(taskId, o.info, o.file).error.detail)
    ensures DownloadResponse(taskId, o.info, o.file).Err? ==> BackgroundOutcome(fs, taskId, req, o).1 == []
    ensures DownloadResponse(taskId, o.info, o.file).Ok? ==>
              BackgroundOutcome(fs, taskId, req, o)
              == AfterDownload(FoldersAfterDownload(fs, taskId, FileUrlFor(taskId, o.info).value, o.file),
                               taskId, req, o.relay, DownloadResponse(taskId, o.info, o.file).value)
  {
  }

  // ---------------------------------------------------------------------
  // The service state

  /** The module-level task map and the data directory the job works in. */
  class Api {
    var tasks: Tasks
    const data: DataDir

    ghost predicate Valid()
      reads this, data
    {
      data.Valid()
    }

    constructor (dir: DataDir)
      requires dir.Valid()
      ensures Valid() && tasks == map[] && data == dir
    {
      tasks := map[];
      data := dir;
    }

    /** POST /api/send: records the job; the caller then runs
        `BackgroundSendEmails` for the id. */
    method SendEmails(taskId: Option<string>, now: string) returns (r: Result<TaskResponse, HttpError>)
      modifies this
      ensures (r, tasks) == SubmitTask(old(tasks), taskId, now)
    {
      if taskId.None? || taskId.value == "" {
        return Err(HttpError(400, TaskIdRequiredText));
      }
      var id := taskId.value;
      tasks := tasks[id := Task(Processing, now, None, None, None)];
      r := Ok(TaskResponse(id, "processing", "Email sending task started for Outscraper task ID: " + id));
    }

    /** GET /api/task/{id}/download: the folder is touched only once the
        checks pass. */
    method DownloadTaskFile(taskId: string, info: Fetched<RawInfo>, file: Transfer)
      returns (r: Result<DownloadResult, HttpError>)
      requires Valid()
      modifies data
      ensures Valid()
      ensures r == DownloadResponse(taskId, info, file)
      ensures FileUrlFor(taskId, info).Err? ==> data.folders == old(data.folders)
      ensures FileUrlFor(taskId, info).Ok? ==>
                data.folders == FoldersAfterDownload(old(data.folders), taskId, FileUrlFor(taskId, info).value, file)
    {
      var guard := FileUrlFor(taskId, info);
      if guard.Err? {
        return Err(guard.error);
      }
      var report := Scraper.DownloadTaskFile(data, taskId, guard.value, file);
      if !report.Success() {
        return Err(HttpError(500, report.message));
      }
      r := Ok(report);
    }

    /** `background_send_emails`: the checks, the download, the dispatch,
        and the final update of the job's entry. */
    method BackgroundSendEmails(taskId: string, req: SendRequest, o: Oracles, now: string)
      returns (sent: seq<Message>)
      requires Valid() && taskId in tasks
      modifies this, data
      ensures Valid()
      ensures var (outcome, messages) := BackgroundOutcome(old(data.folders), taskId, req, o);
              sent == messages && tasks == old(tasks)[taskId := Finish(old(tasks)[taskId], outcome, now)]
      ensures data.folders == FoldersAfterBackground(old(data.folders), taskId, req, o)
    {
      var guard := FileUrlFor(taskId, o.info);
      if guard.Err? {
        tasks := tasks[taskId := Finish(tasks[taskId], Err(guard.error.detail), now)];
        return [];
      }
      var fileUrl := guard.value;
      var download := Scraper.DownloadTaskFile(data, taskId, fileUrl, o.file);
      if !download.Success() {
        tasks := tasks[taskId := Finish(tasks[taskId], Err("Download failed: " + download.message), now)];
        return [];
      }
      var outcome;
      outcome, sent := Deliver(taskId, req, o.relay, download, now);
    }

    /** The step after the download: send, then record the outcome. */
    method Deliver(taskId: string, req: SendRequest, relay: Relay, download: DownloadResult, now: string)
      returns (outcome: Result<Combined, string>, sent: seq<Message>)
      requires Valid() && taskId in tasks
      modifies this, data
      ensures Valid()
      ensures (outcome, sent) == AfterDownload(old(data.folders), taskId, req, relay, download)
      ensures tasks == old(tasks)[taskId := Finish(old(tasks)[taskId], outcome, now)]
      ensures var dispatch := EmailSender.Dispatch(old(data.folders), relay, taskId, req.template,
                                                  Some(SettingsDict(req.settings)), req.currentPosition,
                                                  req.emailsPerDay).0;
              data.folders == FoldersAfter(old(data.folders), dispatch, taskId)
    {
      var result;
      result, sent := EmailSender.SendEmails(data, relay, taskId, req.template, Some(SettingsDict(req.settings)),
                                             req.currentPosition, req.emailsPerDay);
      if result.DispatchFailed? {
        outcome := Err(CsvFileKeyErrorText);
      } else {
        outcome := Ok(Combined(download, result));
      }
      tasks := tasks[taskId := Finish(tasks[taskId], outcome, now)];
    }
  }
}
