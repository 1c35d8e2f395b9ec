/** app/services/email_sender.py: one paginated dispatch of a campaign's
    leads (read the first lead file of the campaign's task folder, take one
    page of rows, drop the rows without an address, send the rest, remove
    the task folder) and the folder cleanup on its own. */
module EmailSender {
  import opened Wrappers
  import opened PyStr
  import opened Config
  import opened CsvReader
  import opened EmailSenderUtil

  /** The folder a task's download lands in and the dispatcher reads from. */
  function TaskFolder(campaignId: string): string {
    "task_" + campaignId
  }

  // ---------------------------------------------------------------------
  // Pagination

  /** The `pagination` block of a dispatch report. */
  datatype Pagination = Pagination(totalRows: nat, currentPosition: int, nextPosition: int,
                                   emailsPerDay: int, hasMore: bool)

  /** `min(cursor + quota, total)` and `has_more`, with the cursor and the
      quota echoed as given. */
  function Paginate(total: nat, cursor: int, quota: int): (p: Pagination)
    ensures p.totalRows == total && p.currentPosition == cursor && p.emailsPerDay == quota
    ensures p.nextPosition <= total && p.nextPosition <= cursor + quota
    ensures p.nextPosition == total || p.nextPosition == cursor + quota
    ensures p.hasMore <==> p.nextPosition < total
  {
    var next := if cursor + quota < total then cursor + quota else total;
    Pagination(total, cursor, next, quota, next < total)
  }

  /** Where a Python slice bound lands in a sequence of length `n`: negative
      bounds count from the end, and every bound is clamped into [0, n]. */
  function SliceBound(i: int, n: nat): (k: nat)
    ensures k <= n
    ensures 0 <= i <= n ==> k == i
    ensures i > n ==> k == n
    ensures i < 0 && i + n >= 0 ==> k == i + n
    ensures i + n < 0 ==> k == 0
  {
    if i < 0 then (if i + n < 0 then 0 else i + n) else if i > n then n else i
  }

  /** `rows[start:end]` with Python's slice semantics (what `iloc` does with
      integer bounds). */
  function PySlice<T>(rows: seq<T>, start: int, end: int): (r: seq<T>)
    ensures var s, e := SliceBound(start, |rows|), SliceBound(end, |rows|);
            && |r| == (if s < e then e - s else 0)
            && forall j | 0 <= j < |r| :: r[j] == rows[s + j]
  {
    var s, e := SliceBound(start, |rows|), SliceBound(end, |rows|);
    if s < e then rows[s..e] else []
  }

  /** A negative start counts from the end: `rows[-k:]` is the last `k`
      rows. */
  lemma NegativeStartTakesTail<T>(rows: seq<T>, k: nat, end: int)
    requires 0 < k <= |rows| && end >= |rows|
    ensures PySlice(rows, -(k as int), end) == rows[|rows| - k..]
  {
  }

  /** The rows of one page: `df.iloc[cursor:next_position]`. */
  function Page(rows: seq<Row>, cursor: int, quota: int): seq<Row> {
    PySlice(rows, cursor, Paginate(|rows|, cursor, quota).nextPosition)
  }

  /** With the cursor inside the file and a non-negative quota, the page is
      the rows from the cursor up to the next position, and the cursor
      never moves backwards. */
  lemma PageWithinFile(rows: seq<Row>, cursor: int, quota: int)
    requires 0 <= cursor <= |rows| && quota >= 0
    ensures var p := Paginate(|rows|, cursor, quota);
            && cursor <= p.nextPosition <= |rows|
            && Page(rows, cursor, quota) == rows[cursor..p.nextPosition]
            && |Page(rows, cursor, quota)| == p.nextPosition - cursor
            && |Page(rows, cursor, quota)| <= quota
  {
  }

  /** A cursor past the end of the file gives an empty page, and the next
      position is the row count: smaller than the cursor, so the cursor
      moves backwards. */
  lemma CursorPastEnd(rows: seq<Row>, cursor: int, quota: int)
    requires cursor > |rows| && quota >= 0
    ensures Page(rows, cursor, quota) == []
    ensures Paginate(|rows|, cursor, quota).nextPosition == |rows| < cursor
    ensures !Paginate(|rows|, cursor, quota).hasMore
  {
  }

  /** The pages obtained by resubmitting each report's next position,
      `k` times, starting at `cursor`. */
  function Pages(rows: seq<Row>, cursor: int, quota: int, k: nat): seq<seq<Row>>
    decreases k
  {
    if k == 0 then []
    else [Page(rows, cursor, quota)] + Pages(rows, Paginate(|rows|, cursor, quota).nextPosition, quota, k - 1)
  }

  function Flatten(pages: seq<seq<Row>>): seq<Row> {
    if |pages| == 0 then [] else pages[0] + Flatten(pages[1..])
  }

  /** Following the next positions from the start of a file with a positive
      quota walks the file in order: `k` pages hold exactly the first
      `min(k * quota, total)` rows, with nothing skipped or repeated. */
  lemma {:induction false} PagesTileTheFile(rows: seq<Row>, cursor: nat, quota: nat, k: nat)
    requires cursor <= |rows| && quota > 0
    ensures Flatten(Pages(rows, cursor, quota, k)) == rows[cursor..Cap(cursor + k * quota, |rows|)]
    decreases k
  {
    if k > 0 {
      var m: nat := (k - 1) * quota;
      assert k * quota == m + quota;
      var next := Paginate(|rows|, cursor, quota).nextPosition;
      PageWithinFile(rows, cursor, quota);
      PagesTileTheFile(rows, next, quota, k - 1);
      var end := Cap(cursor + k * quota, |rows|);
      assert Cap(next + m, |rows|) == end;
      var ps := Pages(rows, cursor, quota, k);
      assert ps[1..] == Pages(rows, next, quota, k - 1);
      assert cursor <= next <= end <= |rows|;
      assert Flatten(ps) == rows[cursor..next] + rows[next..end];
      assert rows[cursor..next] + rows[next..end] == rows[cursor..end];
    }
  }

  /** `min(x, n)` for a bound `n`. */
  function Cap(x: int, n: nat): (r: int)
    ensures r <= n && r <= x && (r == n || r == x)
  {
    if x < n then x else n
  }

  /** The example of a 120-row file sent 50 a day: the reports carry next
      positions 50, 100 and 120, and only the last says nothing is left. */
  lemma HundredTwentyRowsFiftyADay()
    ensures Paginate(120, 0, 50) == Pagination(120, 0, 50, 50, true)
    ensures Paginate(120, 50, 50) == Pagination(120, 50, 100, 50, true)
    ensures Paginate(120, 100, 50) == Pagination(120, 100, 120, 50, false)
  {
  }

  // ---------------------------------------------------------------------
  // Lead filtering

  /** A row is sent to iff its `email_1` cell is present (not NaN) and not
      empty or whitespace only. */
  predicate Dispatchable(r: Row) {
    r.email1.Some? && !Blank(r.email1.value)
  }

  /** The dispatchable rows of a page, in page order. */
  function ValidLeads(page: seq<Row>): (v: seq<Row>)
    ensures |v| <= |page|
    ensures forall i | 0 <= i < |v| :: Dispatchable(v[i])
    ensures forall r | r in page && Dispatchable(r) :: r in v
    ensures forall r | r in v :: r in page
  {
    if |page| == 0 then []
    else ValidLeads(page[..|page| - 1]) + (if Dispatchable(page[|page| - 1]) then [page[|page| - 1]] else [])
  }

  /** Filtering a page in two parts is filtering each part and putting
      the results in the same order: the valid leads keep the page's
      order. */
  lemma {:induction false} ValidLeadsAppend(a: seq<Row>, b: seq<Row>)
    ensures ValidLeads(a + b) == ValidLeads(a) + ValidLeads(b)
    decreases |b|
  {
    if |b| == 0 {
      assert a + b == a;
    } else {
      var init, last := b[..|b| - 1], b[|b| - 1];
      assert (a + b)[..|a + b| - 1] == a + init;
      assert (a + b)[|a + b| - 1] == last;
      ValidLeadsAppend(a, init);
      AppendAssoc(ValidLeads(a), ValidLeads(init), if Dispatchable(last) then [last] else []);
    }
  }

  /** Each dispatchable row is kept as often as it occurs in the page, and
      no other row is kept. */
  lemma {:induction false} ValidLeadsMultiset(page: seq<Row>)
    ensures forall r :: multiset(ValidLeads(page))[r] == if Dispatchable(r) then multiset(page)[r] else 0
    decreases |page|
  {
    if |page| > 0 {
      var init, last := page[..|page| - 1], page[|page| - 1];
      assert page == init + [last];
      ValidLeadsMultiset(init);
      var kept := if Dispatchable(last) then [last] else [];
      assert multiset(ValidLeads(page)) == multiset(ValidLeads(init)) + multiset(kept);
      assert multiset(page) == multiset(init) + multiset{last};
    }
  }

  /** The number of rows of a page that are not sent to. */
  function SkippedCount(page: seq<Row>): nat {
    if |page| == 0 then 0
    else SkippedCount(page[..|page| - 1]) + (if Dispatchable(page[|page| - 1]) then 0 else 1)
  }

  /** Every row of a page is either sent to or counted as skipped. */
  lemma {:induction false} SkippedAndValidCoverPage(page: seq<Row>)
    ensures SkippedCount(page) + |ValidLeads(page)| == |page|
    decreases |page|
  {
    if |page| > 0 {
      SkippedAndValidCoverPage(page[..|page| - 1]);
    }
  }

  /** The filtering loop of `send_emails`. */
  method FilterLeads(page: seq<Row>) returns (valid: seq<Row>, skipped: nat)
    ensures valid == ValidLeads(page) && skipped == SkippedCount(page)
  {
    valid, skipped := [], 0;
    var i := 0;
    while i < |page|
      invariant 0 <= i <= |page|
      invariant valid == ValidLeads(page[..i]) && skipped == SkippedCount(page[..i])
    {
      var lead := page[i];
      assert page[..i + 1][..i] == page[..i];
      if lead.email1.None? || Blank(lead.email1.value) {
        skipped := skipped + 1;
      } else {
        valid := valid + [lead];
      }
      i := i + 1;
    }
    assert page[..i] == page;
  }

  // ---------------------------------------------------------------------
  // Cleanup

  /** What `cleanup_campaign_files` reports (a failing `rmtree` is not
      modelled). */
  datatype CleanupReport =
    | Skipped(campaignId: string, folderPath: string)
    | Cleaned(campaignId: string, folderPath: string, filesRemoved: nat)
  {
    function Status(): string {
      if Skipped? then "skipped" else "success"
    }

    function Message(): string {
      match this
      case Skipped(_, path) => "Task folder " + path + " does not exist"
      case Cleaned(_, _, n) => "Successfully cleaned up " + NatToString(n) + " files from task folder"
    }

    function FilesRemoved(): nat {
      if Skipped? then 0 else filesRemoved
    }
  }

  /** The report and the folders after a cleanup: a present task folder is
      removed with every entry counted, a missing one is reported skipped. */
  function Cleanup(fs: Folders, campaignId: string): (r: (CleanupReport, Folders))
    ensures r.0.campaignId == campaignId && r.0.folderPath == FolderPath(TaskFolder(campaignId))
    ensures TaskFolder(campaignId) !in fs ==> r.0.Skipped? && r.0.FilesRemoved() == 0 && r.1 == fs
    ensures TaskFolder(campaignId) in fs ==>
              r.0.Cleaned? && r.0.FilesRemoved() == |fs[TaskFolder(campaignId)].listing|
    ensures TaskFolder(campaignId) !in r.1
    ensures forall k | k in fs && k != TaskFolder(campaignId) :: k in r.1 && r.1[k] == fs[k]
    ensures r.1.Keys <= fs.Keys
  {
    var folder := TaskFolder(campaignId);
    if folder !in fs then (Skipped(campaignId, FolderPath(folder)), fs)
    else (Cleaned(campaignId, FolderPath(folder), |fs[folder].listing|), fs - {folder})
  }

  /** In a real directory the entry count is the number of stored files:
      the cleanup reports exactly how many files it removes. */
  lemma CleanupCountsFiles(fs: Folders, campaignId: string)
    requires AllConsistent(fs) && TaskFolder(campaignId) in fs
    ensures Cleanup(fs, campaignId).0.FilesRemoved() == |fs[TaskFolder(campaignId)].files|
  {
    ListingCountsFiles(fs[TaskFolder(campaignId)]);
  }

  /** A second cleanup finds nothing to remove: cleanup is idempotent. */
  lemma CleanupIdempotent(fs: Folders, campaignId: string)
    ensures var once := Cleanup(fs, campaignId).1;
            Cleanup(once, campaignId).0 == Skipped(campaignId, FolderPath(TaskFolder(campaignId)))
            && Cleanup(once, campaignId).1 == once
  {
  }

  /** `cleanup_campaign_files`: counts the entries of the task folder, then
      removes the folder. */
  method CleanupCampaignFiles(dir: DataDir, campaignId: string) returns (report: CleanupReport)
    requires dir.Valid()
    modifies dir
    ensures dir.Valid()
    ensures (report, dir.folders) == Cleanup(old(dir.folders), campaignId)
    ensures TaskFolder(campaignId) in old(dir.folders) ==>
              report.FilesRemoved() == |old(dir.folders)[TaskFolder(campaignId)].files|
  {
    var folder := TaskFolder(campaignId);
    var path := FolderPath(folder);
    if folder !in dir.folders {
      return Skipped(campaignId, path);
    }
    var filesCount := |dir.folders[folder].listing|;
    ListingCountsFiles(dir.folders[folder]);
    dir.RemoveFolder(folder);
    report := Cleaned(campaignId, path, filesCount);
  }

  // ---------------------------------------------------------------------
  // Dispatch

  /** What `send_emails` returns: the "success" report or the "error" one. */
  datatype DispatchResult =
    | Dispatched(campaignId: string, csvFile: string, totalLeads: nat, emailsSent: nat, emailsFailed: nat,
                 emailsSkipped: nat, successfulEmails: seq<string>, failedEmails: seq<string>,
                 details: seq<Delivery>, pagination: Pagination, cleanup: CleanupReport)
    | DispatchFailed(campaignId: string, error: string)
  {
    function Status(): string {
      if Dispatched? then "success" else "error"
    }

    function Message(): string {
      match this
      case Dispatched(_, _, _, sent, failed, _, _, _, _, _, _) =>
        "Successfully sent " + NatToString(sent) + " emails, " + NatToString(failed) + " failed"
      case DispatchFailed(_, e) => "Failed to send emails: " + e
    }
  }

  const ConfigRequiredText: string := "Email configuration is required"

  function NoCsvText(campaignId: string): string {
    "No CSV files found for campaign " + campaignId
  }

  /** `str` of the TypeError `a + b` raises when either operand is None. */
  function AddNoneText(cursor: Option<int>, quota: Option<int>): string {
    "unsupported operand type(s) for +: "
    + (if cursor.None? then "'NoneType'" else "'int'") + " and "
    + (if quota.None? then "'NoneType'" else "'int'")
  }

  /** One call of `send_emails`, on the folders as they are before it: the
      report and the messages handed to the relay. The relay settings are
      checked first, then the lead file is found and read. */
  function Dispatch(fs: Folders, relay: Relay, campaignId: string, template: Option<Template>,
                    emailConfig: Option<ConfigDict>, cursor: Option<int>, quota: Option<int>): (DispatchResult, seq<Message>)
  {
    if emailConfig.None? || |emailConfig.value| == 0 then (DispatchFailed(campaignId, ConfigRequiredText), [])
    else
      match FromDict(emailConfig.value)
      case Err(e) => (DispatchFailed(campaignId, e), [])
      case Ok(config) =>
        var folder := TaskFolder(campaignId);
        var csvFiles := GetCsvFilesForCampaign(fs, folder);
        if csvFiles == [] then (DispatchFailed(campaignId, NoCsvText(campaignId)), [])
        else
          match ReadLeadsFromCampaignCsv(fs, folder, csvFiles[0])
          case Err(e) => (DispatchFailed(campaignId, e), [])
          case Ok(table) =>
            if cursor.None? || quota.None? then (DispatchFailed(campaignId, AddNoneText(cursor, quota)), [])
            else DispatchPage(Batch(config, relay, template, Some(campaignId)), campaignId, csvFiles[0],
                              table.rows, cursor.value, quota.value, Cleanup(fs, campaignId).0)
  }

  /** The dispatch once the rows are read: send one page. */
  function DispatchPage(b: Batch, campaignId: string, csvFile: string, rows: seq<Row>, cursor: int, quota: int,
                        cleanup: CleanupReport): (DispatchResult, seq<Message>)
  {
    var page := Page(rows, cursor, quota);
    var run := Run(b, ValidLeads(page));
    if run.fault.Some? then (DispatchFailed(campaignId, run.fault.value), run.messages)
    else
      var report := Report(run.details);
      (Dispatched(campaignId, csvFile, |page|, report.totalSent, report.totalFailed,
                  SkippedCount(page), report.successfulEmails, report.failedEmails, report.details,
                  Paginate(|rows|, cursor, quota), cleanup),
       run.messages)
  }

  /** The folders after a dispatch: the task folder is removed exactly when
      the dispatch succeeds. */
  function FoldersAfter(fs: Folders, result: DispatchResult, campaignId: string): Folders {
    if result.Dispatched? then Cleanup(fs, campaignId).1 else fs
  }

  /** `send_emails`: the settings check, the lookup of the lead file and
      the read, each failing into an error report. */
  method SendEmails(dir: DataDir, relay: Relay, campaignId: string, template: Option<Template>,
                    emailConfig: Option<ConfigDict>, cursor: Option<int>, quota: Option<int>)
    returns (result: DispatchResult, sent: seq<Message>)
    requires dir.Valid()
    modifies dir
    ensures dir.Valid()
    ensures (result, sent) == Dispatch(old(dir.folders), relay, campaignId, template, emailConfig, cursor, quota)
    ensures dir.folders == FoldersAfter(old(dir.folders), result, campaignId)
  {
    sent := [];
    if emailConfig.None? || |emailConfig.value| == 0 {
      return DispatchFailed(campaignId, ConfigRequiredText), sent;
    }
    var parsed := FromDict(emailConfig.value);
    if parsed.Err? {
      return DispatchFailed(campaignId, parsed.error), sent;
    }
    var folder := TaskFolder(campaignId);
    var csvFiles := GetCsvFilesForCampaign(dir.folders, folder);
    if csvFiles == [] {
      return DispatchFailed(campaignId, NoCsvText(campaignId)), sent;
    }
    var csvFilename := csvFiles[0];
    var df := ReadLeadsFromCampaignCsv(dir.folders, folder, csvFilename);
    if df.Err? {
      return DispatchFailed(campaignId, df.error), sent;
    }
    if cursor.None? || quota.None? {
      return DispatchFailed(campaignId, AddNoneText(cursor, quota)), sent;
    }
    result, sent := SendPage(dir, Batch(parsed.value, relay, template, Some(campaignId)), campaignId,
                             csvFilename, df.value.rows, cursor.value, quota.value);
  }

  /** The rest of `send_emails` once the rows are read: take the page,
      filter it, send to the valid leads, clean up and report. */
  method SendPage(dir: DataDir, b: Batch, campaignId: string, csvFilename: string, rows: seq<Row>,
                  cursor: int, quota: int)
    returns (result: DispatchResult, sent: seq<Message>)
    requires dir.Valid()
    modifies dir
    ensures dir.Valid()
    ensures (result, sent) == DispatchPage(b, campaignId, csvFilename, rows, cursor, quota,
                                           Cleanup(old(dir.folders), campaignId).0)
    ensures dir.folders == FoldersAfter(old(dir.folders), result, campaignId)
  {
    var totalRows := |rows|;
    var pagination := Paginate(totalRows, cursor, quota);
    var leadsData := PySlice(rows, cursor, pagination.nextPosition);
    var validLeads, emailsSkipped := FilterLeads(leadsData);
    var outcome, pauses;
    outcome, sent, pauses := SendBulkEmails(b, validLeads);
    if outcome.Err? {
      return DispatchFailed(campaignId, outcome.error), sent;
    }
    var cleanup := CleanupCampaignFiles(dir, campaignId);
    var results := outcome.value;
    result := Dispatched(campaignId, csvFilename, |leadsData|, results.totalSent, results.totalFailed,
                         emailsSkipped, results.successfulEmails, results.failedEmails, results.details,
                         pagination, cleanup);
  }

  // ---------------------------------------------------------------------
  // Properties of a dispatch

  /** Without relay settings nothing is sent and the report is an error;
      the folders are left alone (see `FoldersAfter`). */
  lemma ConfigRequired(fs: Folders, relay: Relay, campaignId: string, template: Option<Template>,
                       emailConfig: Option<ConfigDict>, cursor: Option<int>, quota: Option<int>)
    requires emailConfig.None? || emailConfig.value == map[]
    ensures var (result, sent) := Dispatch(fs, relay, campaignId, template, emailConfig, cursor, quota);
            && result == DispatchFailed(campaignId, ConfigRequiredText)
            && result.Status() == "error"
            && sent == []
            && FoldersAfter(fs, result, campaignId) == fs
  {
  }

  /** A task folder with no csv file fails the dispatch before anything is
      read or sent; the fallback download name never helps (see
      `Scraper.FallbackNameIsNotCsv`). */
  lemma NoCsvFileFails(fs: Folders, relay: Relay, campaignId: string, template: Option<Template>,
                       d: ConfigDict, cursor: Option<int>, quota: Option<int>)
    requires |d| > 0 && FromDict(d).Ok?
    requires TaskFolder(campaignId) !in fs || forall n | n in fs[TaskFolder(campaignId)].listing :: !IsCsvName(n)
    ensures var (result, sent) := Dispatch(fs, relay, campaignId, template, Some(d), cursor, quota);
            result == DispatchFailed(campaignId, NoCsvText(campaignId)) && sent == []
  {
  }

  /** A successful dispatch accounts for every row of its page: each one is
      sent, failed or skipped; the page is the rows between the cursor and
      the next position; the lead file is the first csv file listed; the
      task folder is cleaned, every entry counted. */
  lemma DispatchAccounts(fs: Folders, relay: Relay, campaignId: string, template: Option<Template>,
                         emailConfig: Option<ConfigDict>, cursor: Option<int>, quota: Option<int>)
    requires Dispatch(fs, relay, campaignId, template, emailConfig, cursor, quota).0.Dispatched?
    ensures var r := Dispatch(fs, relay, campaignId, template, emailConfig, cursor, quota).0;
            var folder := TaskFolder(campaignId);
            && folder in fs
            && r.csvFile == GetCsvFilesForCampaign(fs, folder)[0] && IsCsvName(r.csvFile)
            && r.emailsSent + r.emailsFailed + r.emailsSkipped == r.totalLeads
            && r.emailsSent == |r.successfulEmails| && r.emailsFailed == |r.failedEmails|
            && |r.details| == r.emailsSent + r.emailsFailed
            && r.pagination.hasMore == (r.pagination.nextPosition < r.pagination.totalRows)
            && r.cleanup == Cleaned(campaignId, FolderPath(folder), |fs[folder].listing|)
            && r.Status() == "success"
  ensures var r := Dispatch(fs, relay, campaignId, template, emailConfig, cursor, quota).0;
          var read := ReadLeadsFromCampaignCsv(fs, TaskFolder(campaignId), r.csvFile);
          && cursor.Some? && quota.Some? && read.Ok?
          && var page := Page(read.value.rows, cursor.value, quota.value);
             && r.pagination == Paginate(|read.value.rows|, cursor.value, quota.value)
             && r.totalLeads == |page|
             && r.emailsSent + r.emailsFailed == |ValidLeads(page)|
             && r.emailsSkipped == |page| - |ValidLeads(page)|
  {
    var d := emailConfig.value;
    var config := FromDict(d).value;
    var folder := TaskFolder(campaignId);
    var csvFiles := GetCsvFilesForCampaign(fs, folder);
    var table := ReadLeadsFromCampaignCsv(fs, folder, csvFiles[0]).value;
    var page := Page(table.rows, cursor.value, quota.value);
    var valid := ValidLeads(page);
    var b := Batch(config, relay, template, Some(campaignId));
    assert csvFiles[0] in csvFiles;
    BulkReportAccounts(b, valid);
    SkippedAndValidCoverPage(page);
  }

  /** Skipped rows never reach the relay: every address reported as sent
      or failed is present and not blank, and each belongs to a row of the
      page. */
  lemma SkippedNeverReported(b: Batch, campaignId: string, csvFile: string, rows: seq<Row>, cursor: int, quota: int,
                             cleanup: CleanupReport)
    requires DispatchPage(b, campaignId, csvFile, rows, cursor, quota, cleanup).0.Dispatched?
    ensures var r := DispatchPage(b, campaignId, csvFile, rows, cursor, quota, cleanup).0;
            forall e | e in r.successfulEmails || e in r.failedEmails ::
              !Blank(e) && exists i | 0 <= i < |Page(rows, cursor, quota)| :: Page(rows, cursor, quota)[i].email1 == Some(e)
  {
    var page := Page(rows, cursor, quota);
    var valid := ValidLeads(page);
    var ds := Run(b, valid).details;
    ReportedAddressesAreLeads(b, valid);
    forall e | e in SuccessfulEmails(ds) || e in FailedEmails(ds)
      ensures !Blank(e) && exists i | 0 <= i < |page| :: page[i].email1 == Some(e)
    {
      var j :| 0 <= j < |valid| && valid[j].email1 == Some(e);
      assert Dispatchable(valid[j]);
      assert valid[j] in page;
    }
  }

  /** Every reported address, sent or failed, is the address of one of the
      leads the loop was given. */
  lemma ReportedAddressesAreLeads(b: Batch, leads: seq<Row>)
    requires AllAddressed(leads)
    ensures var ds := Run(b, leads).details;
            forall e | e in SuccessfulEmails(ds) || e in FailedEmails(ds) ::
              exists j | 0 <= j < |leads| :: leads[j].email1 == Some(e)
  {
    var ds := Run(b, leads).details;
    RunIsPassByPass(b, leads);
    RunAddresses(b, leads);
    TalliedAddressesAreRecorded(ds);
    forall e | e in SuccessfulEmails(ds) || e in FailedEmails(ds)
      ensures exists j | 0 <= j < |leads| :: leads[j].email1 == Some(e)
    {
      var j :| 0 <= j < |ds| && ds[j].email == e;
      assert leads[j].email1 == Some(e);
    }
  }
}
