# LoonaFlow lead-mailing service, modelled in Dafny

This project models the decision logic of the LoonaFlow AI microservice. The
service takes a finished scraping task from the Outscraper API, downloads the
task's lead file into `app/data/task_<id>/`, and emails one page of those
leads with a template. It then reports what happened and removes the task
folder.

Everything the real service gets from outside is a parameter here:
- the scraping provider's answers (`Scraper.Fetched`);
- the SMTP relay (`EmailSenderUtil.Relay`, a function from settings and message to an optional error text);
- timestamps (opaque strings);
- the lead files. A file is a header plus rows whose `email_1` is `None` when missing or NaN.

The data directory is a map from folder name to a folder (`CsvReader.Folders`). It is held by the `CsvReader.DataDir` class, whose methods change it in place. The in-memory task table of `app/main.py` is the `tasks` field of `App.Api`.

Modules, one per source file:

| module | source file | form |
|---|---|---|
| `Config` | `app/config/email_config.py` | pure functions |
| `CsvReader` | `app/utils/csv_reader.py` | functions, plus a loop and the `DataDir` class |
| `EmailSenderUtil` | `app/utils/email_sender_util.py` | the bulk loop as a method, proved against `Run` |
| `EmailSender` | `app/services/email_sender.py` | the filter loop and the staged dispatch as methods, proved against `Dispatch` |
| `Scraper` | `app/services/scraper.py` | the location loop as a method, the rest as functions |
| `App` | `app/main.py` | the task table and the background job as methods of `Api` |

`PyStr` holds the Python string operations the source relies on:
- `str.replace` as split-then-join;
- `str.isspace`;
- the header check of the `email` package;
- `os.path.basename`;
- the `path` part of `urllib.parse.urlparse`;
- `str` of a natural number.

`Wrappers` holds `Option` and `Result`.

A Python exception is a `Result.Err` carrying the text `str(e)` would give. Where the source catches an exception and turns it into a report, the model returns that report.

### Where the description and the code disagree (the model follows the code)

- **Pauses.** `send_bulk_emails` pauses after every lead, the last included, whenever there is more than one lead (`app/utils/email_sender_util.py:79-82`). The comment says there is no pause after the last. `SendBulkEmails` counts `n` pauses for `n > 1` leads and none otherwise.
- **Header check.** `send_single_email` sets the message headers before its `try` (`app/utils/email_sender_util.py:16-20`). An address or subject with an inner line break therefore raises out of it. The call does not always return a "success"/"failed" record, and the whole batch aborts into an error report (`SendSingleEmailRaisesOnFoldedAddress`).
- **Failed dispatch.** When `send_emails` returns its "error" report, the background job reads `result["data"]["csv_file"]`, which that report lacks. The job therefore ends "failed" with the error `'csv_file'`, not with the report's message (`app/main.py:187-205`). Emails already handed to the relay before a fault stay sent.
- **Cleanup.** Cleanup runs only after a successful send, so a failed dispatch leaves the task folder in place.
- **Double prefix.** The job reports a failed download as `Download failed: ` followed by the downloader's message. For a request error that message already starts with `Download failed: `, so the job reports `Download failed: Download failed: <reason>`. Other failures read `Download failed: Unexpected error during download: <reason>`.
- **Fallback name.** A download without a dotted file name in its URL is stored as `task_<id>.xlsx`. The dispatcher looks only for `*.csv`, so such a task is mailed only when its folder already holds a csv file from an earlier run: a job whose dispatch failed leaves the folder in place, and `/api/download/file` can fill the same folder. Otherwise the job fails (`App.NoCsvAfterDownloadFailsJob`, and `App.NonCsvDownloadFailsJob` for a fresh folder).

## Model

| member | source | states |
|---|---|---|
| Config.FromDict | app/config/email_config.py:12-18 | succeeds iff all four keys are present; copies each key's value into its field; otherwise fails with the KeyError text of the first missing key in evaluation order |
| Config.FromDictToDict | app/config/email_config.py:12-18 | the dictionary built from settings reads back as the same settings |
| Config.GetCustomTemplate | app/config/email_config.py:22-35 | subject and body are the template's `subject`/`content` (empty when absent) split on `{name}` and joined with the business name; the body gains "\n\n" exactly when the campaign id is truthy |
| Config.TemplateWithoutPlaceholder | app/config/email_config.py:26-33 | a template without `{name}` comes back unchanged, apart from the tracking suffix |
| Config.RenderAcme | app/config/email_config.py:26-27 | "Hi {name}" / "Dear {name}" render as "Hi Acme" / "Dear Acme" |
| Config.ReplacePlaceholderAtEnd | app/config/email_config.py:26-27 | a placeholder at the end of a brace-free prefix is replaced by the name |
| Config.NameIsNotReexpanded | app/config/email_config.py:26 | a business name that is itself "{name}" is inserted once and not expanded again |
| PyStr.ReplaceIsSplitJoin | app/config/email_config.py:26-27 | `str.replace` of every occurrence equals split-on-pattern then join-with-replacement |
| PyStr.SplitJoinRoundTrip | app/config/email_config.py:26-27 | joining the split pieces with the pattern gives the original text back |
| PyStr.ReplaceWithoutOccurrence | app/config/email_config.py:26-27 | replacing a pattern that does not occur changes nothing |
| PyStr.ReplaceLength | app/config/email_config.py:26-27 | the length of the replaced text in terms of the number of occurrences |
| PyStr.MultiLineIffInnerBreak | app/utils/email_sender_util.py:16-20 | the header check rejects exactly the values with a line break before the last character, a final CRLF aside |
| PyStr.Basename | app/services/scraper.py:361 | the result is the suffix of the path after its last '/', and contains no '/' |
| PyStr.UrlPath | app/services/scraper.py:360 | fails with "Invalid IPv6 URL" exactly when the network location has one square bracket without the other; otherwise the path holds no '?' or '#', and for the schemes with parameters its last segment holds no ';' |
| PyStr.DropParams | app/services/scraper.py:360 | the last segment of the path is cut at its first ';' and nothing else changes; a path without ';' in its last segment is unchanged |
| PyStr.LastSegmentWithoutParams | app/services/scraper.py:360-361 | a path ending in `/name;params` has `name` as its last segment once the parameters are dropped |
| PyStr.UrlPathOfHttpsUrl | app/services/scraper.py:360 | for every "https://host/path" URL with nothing to clean, the path is `path` without the parameters of its last segment, whatever query or fragment follows |
| CsvReader.CsvNames | app/utils/csv_reader.py:24-25 | exactly the listed names matching "*.csv", none added; empty iff no name matches |
| CsvReader.GetCampaignFolders | app/utils/csv_reader.py:13-16 | exactly the folders of the data directory |
| CsvReader.GetCsvFilesForCampaign | app/utils/csv_reader.py:18-25 | `[]` for a missing folder, else exactly the folder's "*.csv" names |
| CsvReader.GetAllCsvFiles | app/utils/csv_reader.py:27-35 | the result has exactly the campaign folders as keys, each mapped to that folder's csv list |
| CsvReader.MissingColumns | app/utils/csv_reader.py:51-52 | exactly the required columns absent from the header, in the order name, email_1 |
| CsvReader.ReadLeadsFromCampaignCsv | app/utils/csv_reader.py:37-67 | a missing file is a not-found error; the read succeeds iff the file parses and has both columns; all rows are returned unfiltered; a missing column gives the wrapped "Missing required columns" text |
| CsvReader.GetLeadCountForCampaign | app/utils/csv_reader.py:69-75 | the row count of a readable file, 0 on any error |
| CsvReader.AtEmailCount | app/utils/csv_reader.py:87 | at most the number of rows, and equal to it iff every row's email contains '@' |
| CsvReader.ValidateCampaignCsvStructure | app/utils/csv_reader.py:77-97 | valid iff the file reads; then row count, '@' count no larger than it; otherwise the read error |
| CsvReader.EnsureFolder | app/utils/csv_reader.py:99-103 | the folder exists afterwards; an existing folder and every other folder are untouched |
| CsvReader.EnsureFolderIdempotent | app/utils/csv_reader.py:102 | creating a folder twice is creating it once |
| CsvReader.WriteFile | app/services/scraper.py:368-377 | the file is stored under its name; a new name is listed last, an existing one is overwritten in place |
| CsvReader.WriteFileConsistent | app/services/scraper.py:368-377 | writing a file keeps a folder's listing free of duplicates and in step with its files |
| CsvReader.DataDir.CreateCampaignFolder | app/utils/csv_reader.py:99-103 | the data directory becomes `EnsureFolder` of the old one; returns the folder's path |
| CsvReader.DataDir.Store | app/services/scraper.py:357-377 | the data directory becomes the old one with the folder ensured and the file written into it |
| CsvReader.DataDir.RemoveFolder | app/services/email_sender.py:135 | exactly that folder is removed |
| EmailSenderUtil.SendSingleEmail | app/utils/email_sender_util.py:12-38 | raises iff a header holds an inner line break; otherwise the record's email is `to_email`, the status is success iff the relay reports no error, and a failure carries the relay's error |
| EmailSenderUtil.SendSingleEmailRaisesOnFoldedAddress | app/utils/email_sender_util.py:16-20 | an address with an embedded "\nBcc:" line raises instead of returning a record |
| EmailSenderUtil.SendLead | app/utils/email_sender_util.py:62-70 | a missing template or a non-text name raises; a sent lead's record carries that lead's address |
| EmailSenderUtil.RunIsPassByPass | app/utils/email_sender_util.py:61-77 | the trace holds one message and one record per lead, in input order, each the lead's own send; it stops exactly at the first lead whose send raises |
| EmailSenderUtil.RunAddresses | app/utils/email_sender_util.py:61-70 | the j-th record is addressed to the j-th lead |
| EmailSenderUtil.RunStopsAtFault | app/utils/email_sender_util.py:61-70 | once a send has raised, later leads change nothing |
| EmailSenderUtil.RunExtends | app/utils/email_sender_util.py:61-77 | one more lead adds its message and record, or records the fault |
| EmailSenderUtil.SuccessAndFailureCount | app/utils/email_sender_util.py:72-77 | every record is counted once, as a success or a failure |
| EmailSenderUtil.SuccessAndFailurePartition | app/utils/email_sender_util.py:72-77 | the successful and failed email lists together are a permutation of the records' addresses |
| EmailSenderUtil.TalliedAddressesAreRecorded | app/utils/email_sender_util.py:72-77 | every listed email is the address of some record |
| EmailSenderUtil.SendBulkEmails | app/utils/email_sender_util.py:40-84 | the loop hands the relay exactly the trace's messages; a fault is re-raised; otherwise the report is built from the records; pauses are one per lead when there is more than one lead, else none |
| EmailSenderUtil.BulkReportAccounts | app/utils/email_sender_util.py:61-77 | total_sent + total_failed = number of leads, each total equals its list's length, one record per lead in input order, and the two lists partition the leads' emails |
| EmailSender.Paginate | app/services/email_sender.py:41-91 | next = min(cursor + quota, total); has_more iff next < total; cursor and quota echoed |
| EmailSender.SliceBound | app/services/email_sender.py:46 | a bound inside the rows is kept; a bound past the end is the row count; a negative bound counts from the end and stops at 0 |
| EmailSender.PySlice | app/services/email_sender.py:46 | the slice is the run of rows from the start bound up to the end bound, both resolved as Python does; it is empty when they cross |
| EmailSender.NegativeStartTakesTail | app/services/email_sender.py:46 | a start of `-k` with an end at or past the last row gives the last `k` rows |
| EmailSender.PageWithinFile | app/services/email_sender.py:41-47 | with the cursor inside the file and a non-negative quota, the page is rows[cursor..next], cursor ≤ next ≤ total, and the page holds at most `quota` rows |
| EmailSender.CursorPastEnd | app/services/email_sender.py:42-46 | a cursor past the end gives an empty page and a next position of total < cursor, so the cursor moves backwards |
| EmailSender.PagesTileTheFile | app/services/email_sender.py:41-47 | following next positions from a cursor with a positive quota, k pages are exactly the rows up to min(cursor + k·quota, total), none skipped or repeated |
| EmailSender.Cap | app/services/email_sender.py:43 | the minimum of the two bounds |
| EmailSender.HundredTwentyRowsFiftyADay | app/services/email_sender.py:41-91 | 120 rows at 50 a day paginate as 0→50→100→120, with has_more false on the last page |
| EmailSender.ValidLeads | app/services/email_sender.py:49-56 | every kept lead is a page row with a non-blank email, and every such row is kept |
| EmailSender.ValidLeadsAppend | app/services/email_sender.py:49-56 | filtering two parts of a page one after the other gives the filtered parts in the same order, so the kept leads keep the page's order |
| EmailSender.ValidLeadsMultiset | app/services/email_sender.py:49-56 | every row with a non-blank email is kept exactly as often as it occurs in the page, and no other row is kept |
| EmailSender.SkippedAndValidCoverPage | app/services/email_sender.py:49-56 | skipped + valid = page size |
| EmailSender.FilterLeads | app/services/email_sender.py:49-56 | the loop yields the valid leads and the skipped count |
| EmailSender.Cleanup | app/services/email_sender.py:106-145 | a missing task folder is "skipped" with 0 files and nothing changes; a present one is removed, `files_removed` is its entry count, and every other folder is untouched |
| EmailSender.CleanupIdempotent | app/services/email_sender.py:118-129 | a second cleanup reports "skipped" and changes nothing |
| EmailSender.CleanupCountsFiles | app/services/email_sender.py:131-143 | in a real directory, `files_removed` is the number of files in the task folder |
| EmailSender.CleanupCampaignFiles | app/services/email_sender.py:106-145 | report and new data directory are those of `Cleanup`; the count reported is the number of files the folder held |
| CsvReader.ListingCountsFiles | app/services/email_sender.py:132 | a folder without repeated or stray entries lists exactly as many entries as it has files |
| EmailSender.SendEmails | app/services/email_sender.py:14-104 | report and sent messages are those of `Dispatch`; the task folder is removed exactly when the dispatch succeeds |
| EmailSender.SendPage | app/services/email_sender.py:40-94 | the page step gives `DispatchPage`'s report and messages, and cleans up only on success |
| EmailSender.ConfigRequired | app/services/email_sender.py:18-21 | a missing or empty config gives an "error" report; nothing is sent and the folders are untouched |
| EmailSender.NoCsvFileFails | app/services/email_sender.py:31-34 | no "*.csv" file in `task_<id>` gives the "No CSV files found" error and sends nothing |
| EmailSender.DispatchAccounts | app/services/email_sender.py:32-94 | a success report uses the first listed csv file; total_leads is the size of the page between the cursor and the next position; sent + failed is the number of valid leads of that page, and skipped the rest; each total equals its list's length; the pagination is `Paginate` of the row count, cursor and quota, so next = min(cursor + quota, total) and has_more iff next < total; the cleanup removed every entry of the folder |
| EmailSender.SkippedNeverReported | app/services/email_sender.py:49-83 | every reported address is a non-blank email of a row of the page |
| EmailSender.ReportedAddressesAreLeads | app/utils/email_sender_util.py:61-77 | every address in the success and failure lists is the email of one of the leads sent to |
| Scraper.RegionStringsShape | app/services/scraper.py:89-96 | at most one string per item, each `country>v` for an item with a non-empty `v` |
| Scraper.RegionStringsAllNamed | app/services/scraper.py:91-96 | items that all have a name give exactly one `country>v` each, in item order |
| Scraper.ExtractLocations | app/services/scraper.py:75-101 | the loop returns `Locations`: the region strings, `[]` without `items`, and `[]` when an item is not an object (the exception path) |
| Scraper.GetLocations | app/services/scraper.py:18-73 | succeeds iff the request does; the locations are the extracted ones and total_count is their number; the two exception kinds give "API request failed: " and "Unexpected error: " |
| Scraper.Categories | app/services/scraper.py:167 | `[business_type]` when it is a non-empty string, else `[]` |
| Scraper.Scrape | app/services/scraper.py:103-124 | a failed location lookup is returned unchanged without a task request; otherwise the request carries the found locations, the country, the limit and the categories |
| Scraper.FileNameFor | app/services/scraper.py:361-365 | the URL path's last segment when it is non-empty and has a dot, else `task_<id>.xlsx`; either way a non-empty name with a dot |
| Scraper.NamedPathKept | app/services/scraper.py:360-365 | a path ending in a dotted `name`, with or without `;params`, gives the file name `name` |
| Scraper.NamedFileKept | app/services/scraper.py:359-365 | every plain "https://host/.../name" URL with a dotted name is stored as `name`, whatever parameters, query or fragment follow |
| Scraper.DirectoryPathFallsBack | app/services/scraper.py:363-365 | a path ending in '/' gives the fallback name |
| Scraper.OpenError | app/services/scraper.py:368-375 | opening fails exactly for a name with a NUL character, for "." and for ".." |
| Scraper.DotSegmentFails | app/services/scraper.py:360-404 | a URL whose path ends in "/." or "/.." is fetched, then fails with an "Unexpected error during download" message, and nothing is written |
| Scraper.Written | app/services/scraper.py:359-377 | something is written exactly when the URL parses, the request is answered and the name can be opened; it is the whole body, or the part received before the stream broke |
| Scraper.FallbackNameIsNotCsv | app/services/scraper.py:365 | the fallback name never matches "*.csv" |
| Scraper.DownloadReport | app/services/scraper.py:350-410 | success iff the whole body was received into an opened file, with local path `app/data/task_<id>/<filename>` and the file's size; a URL error, a refused request, an unopenable name and a broken stream each fail it, in that order, request errors with "Download failed: " and the rest with "Unexpected error during download: " |
| Scraper.FoldersAfterDownload | app/services/scraper.py:351-377 | `task_<id>` exists afterwards whatever happens; whatever was written (the whole file, or the part received before a broken stream) is stored under the derived name; every other folder is untouched |
| Scraper.InterruptedDownloadLeavesPart | app/services/scraper.py:375-400 | a stream that breaks after the file was opened leaves the part written, listed under the file's name, and the download is reported failed |
| Scraper.DownloadIntoFreshFolder | app/services/scraper.py:351-389 | a successful download into a new task folder leaves the file as the folder's only entry |
| Scraper.DownloadTaskFile | app/services/scraper.py:339-410 | report and new data directory are those of `DownloadReport` and `FoldersAfterDownload` |
| Scraper.DownloadThenCleanup | app/services/scraper.py:356-368 | a download lands in the folder the cleanup removes: cleaning the same id afterwards reports "success" and leaves no `task_<id>` |
| App.SubmitTask | app/main.py:257-277 | an empty or missing id is a 400 and `tasks` is unchanged; otherwise the id's entry becomes a fresh "processing" one, overwriting any earlier entry, and no other entry changes |
| App.SubmittedTaskIsProcessing | app/main.py:279-292 | a job just submitted reads back as "processing" with only its creation time |
| App.ResubmitResetsTerminalTask | app/main.py:266-269 | re-submitting a finished job wipes its result, error and completion time |
| App.GetTaskStatus | app/main.py:279-292 | 404 "Task not found" iff the id is unknown; otherwise the stored status, result, error and timestamps |
| App.Finish | app/main.py:217-225 | the job ends "completed" (with its result) or "failed" (with its error), and the completion time is always set |
| App.FinishedTaskReadsTerminal | app/main.py:279-292 | after the job, the status endpoint reports "completed" or "failed", the completion time and a failed job's error |
| App.RawFetchError | app/services/scraper.py:334-337 | a failed task-record request raises "API request failed: " or "Unexpected error: " |
| App.GetTaskInfoRaw | app/main.py:406-416 | a failed request is a 500; otherwise the record is served iff its status is not null and every other field of `OutscraperTaskInfo` is present with the right type, with a missing status reported as "IN_PROGRESS" and anything else unchanged; a refused record is a 500 naming the failing fields in declaration order |
| App.FailingFields | app/main.py:120-129 | the listed fields are exactly those that fail validation |
| App.FileUrlFor | app/main.py:156-169 | passes iff the status is "SUCCESS", there is a result and the first result has a non-empty file URL; otherwise 400, 404 or 404 with the source's texts, or 500 when the request fails |
| App.StatuslessTaskRefused | app/main.py:159-160 | a record with no status is refused, and the status prints as "None" |
| App.SettingsDict | app/main.py:177-183 | the dictionary built from the request's settings is non-empty and `from_dict` reads it back without error |
| App.DispatchErrorFailsJob | app/main.py:186-225 | the job fails with `'csv_file'` exactly when the dispatch reports an error, keeping the messages already sent; otherwise it stores the download and dispatch reports |
| App.FailedCheckSendsNothing | app/main.py:156-169 | a failed check fails the job with the check's text; nothing is sent or written |
| App.FailedDownloadSendsNothing | app/main.py:171-175 | any failed download fails the job with the downloader's message behind "Download failed: ", nothing is sent, and the data directory is left as the download left it; for a refused request the text carries the prefix twice |
| App.NoCsvAfterDownloadFailsJob | app/main.py:171-205 | after a successful download, a task folder that lists no csv file fails the job with `'csv_file'`, and nothing is sent |
| App.NonCsvDownloadFailsJob | app/main.py:171-205 | a file stored under a non-csv name in a fresh folder fails the job with `'csv_file'` before any send |
| App.DownloadResponse | app/main.py:418-461 | the endpoint answers the checks with 400/404/404/500 and a failed download with 500 and the downloader's message; it succeeds iff the checks pass and the whole file is received into an opened file |
| App.EndpointAgreesWithJob | app/main.py:422-454 | the endpoint and the job refuse the same records with the same text; the endpoint serves a file exactly when the job goes on to dispatch |
| App.Api.SendEmails | app/main.py:257-277 | the response and the new task table are those of `SubmitTask` |
| App.Api.DownloadTaskFile | app/main.py:418-461 | the response is `DownloadResponse`; the data directory changes only after the checks pass, as the download changes it |
| App.Api.BackgroundSendEmails | app/main.py:153-225 | the sent messages and the job's final entry are those of `BackgroundOutcome`; only that entry of `tasks` changes; the data directory ends as `FoldersAfterBackground` |
| App.Api.Deliver | app/main.py:186-225 | the dispatch step gives `AfterDownload`'s outcome and messages and records it with `Finish` |

## Left out

- SMTP itself (connection, STARTTLS, login, `send_message`). The relay is a parameter that either accepts a message or returns an error text.
- The `requests` calls. Their results are parameters: `Scraper.Fetched` for the task record and `Scraper.Transfer` for a file (received whole, refused before anything is written, or broken off after part of it was written). A written file, whole or partial, is a size plus its parsed table.
- pandas parsing. A stored file is either a parse error or a header with rows. NaN and missing cells are `None`. Column values other than `name` and `email_1` are not modelled.
- The real filesystem's own failures: permissions, `rmtree` errors, and a path that exists but is not a directory. Because of this the `"error"` status of `cleanup_campaign_files` (app/services/email_sender.py:147-150) is not modelled.
- The order of `glob` and `iterdir` results is unspecified. The model takes a folder's listing order as given: creation order, with new files listed last.
- `random.uniform` and `asyncio.sleep`. Only the number of pauses is modelled.
- FastAPI routing, CORS, pydantic validation of request and response models, and the responses of the other endpoints. Also `background_scrape`, the location endpoints, `download_file_by_url`, the campaign endpoints and `/api/scrape` (which only wraps `Scraper.Scrape`).
- `_scrape_business_data`: the constant request payload and its HTTP call. Only the fields that depend on the caller are modelled (`TaskRequest`). The outer `"Scraping failed"` handler of `scrape` (app/services/scraper.py:126-135) can never run, because `get_locations` and `_scrape_business_data` each catch every exception themselves, so it is not modelled.
- The API-key check in the `ScraperService` constructor, and `run.py`.
- Timestamps: `created_at`/`completed_at` are opaque strings supplied by the caller.
- Concurrency. Two background jobs, or a job and a re-submission, can race on `tasks` and on `task_<id>`. The model runs each job to completion on its own.
- The `EmailConfig`-object branch of `send_emails` (app/services/email_sender.py:26-29). Its only caller always passes a dictionary. The "Invalid email_config type" branch is not modelled.
- Configuration values of other types. A `Number` in the sender address is never rejected by the header check, as a string with a line break would be.
- `user_id` and `subscription` are passed around but never read by the core. They are not modelled.
- A task record that is not a JSON object. The job's `raw_data.get` (app/main.py:159) then raises `AttributeError`, so the job ends "failed"; the raw endpoint's `raw_data["status"] = …` (app/main.py:412-413) raises instead and answers 500. `App.RawInfo` is always a record, so neither case arises in the model.
- A task id that contains '/'. `data_dir / f"task_{task_id}"` (app/services/scraper.py:356-357) is then a nested path: `mkdir` without `parents` fails on it, and `iterdir` and `rmtree` see the outer folder. The model's `TaskFolder` makes "task_a/b" one flat key of `Folders`, so it does not capture the nesting or those failures.
- Non-string `v` values in a locations response, and entries of `results` that are not objects.
- PyStr.UrlPath: of `urlsplit`'s checks on the network location, only the unbalanced-bracket "Invalid IPv6 URL" error is modelled. The validation of a bracketed IPv6 or IPvFuture host and the NFKC check of non-ASCII network locations are left out. `urlparse` does no percent-decoding, so none is modelled.
- Scraper.OpenError: of the operating system's refusals to open a file, only a NUL character and the names "." and ".." (which name a directory) are modelled. A name that is too long, or permissions, are not.
- Template values that are not strings (app/config/email_config.py:26-27). A `None` or numeric subject or content raises `AttributeError` in `get_custom_template` (app/utils/email_sender_util.py:66), outside the `try` of `send_single_email`. The exception leaves the loop at the first valid lead, so nothing is sent; `send_emails` turns it into a "Failed to send emails: …" error report and keeps the folder, and the background job then fails with `'csv_file'`. The model handles a missing template, which fails the same way, but its templates (`Config.Template`) map keys to strings only, so this case cannot arise in it.
- A task record whose `status` is neither a string nor null. Such a record fails validation in the model only through the other fields' faults; `status` itself is always a string or missing.
- App.GetTaskInfoRaw: the refused record's 500 text gives pydantic's header and the failing fields' names, one per line; pydantic's per-field explanation lines (the error kind, the input value and the documentation link) are not modelled.
- EmailSender.ConfigRequired: does not state the report's message text `Failed to send emails: Email configuration is required`. It states only the error value it is built from.
