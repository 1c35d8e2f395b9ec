/** app/services/scraper.py: the parts of the scraping client that decide
    something. Each HTTP call is an oracle: a parameter holding what the
    call returned or what `requests` raised. */
module Scraper {
  import opened Wrappers
  import opened PyStr
  import opened CsvReader
  import opened EmailSender

  // ---------------------------------------------------------------------
  // Locations

  /** One element of the `items` list of a locations response: a JSON
      object (whose `v` is a string, absent or null) or anything else. */
  datatype Item = Record(v: Option<string>) | NotRecord

  /** The decoded locations response: an object, with or without `items`,
      or some other JSON value. */
  datatype LocationsPayload = Object(items: Option<seq<Item>>) | NotObject

  /** The region names `_extract_locations_from_response` keeps, each
      prefixed with the country, in item order. */
  function RegionStrings(country: string, items: seq<Item>): seq<string>
    requires forall i | 0 <= i < |items| :: items[i].Record?
  {
    if |items| == 0 then []
    else
      var last := items[|items| - 1];
      RegionStrings(country, items[..|items| - 1])
      + (if last.v.Some? && last.v.value != "" then [country + ">" + last.v.value] else [])
  }

  /** The value `_extract_locations_from_response` returns: a non-object
      response or a non-object item raises inside the `try`, which yields
      the empty list. */
  function Locations(country: string, data: LocationsPayload): seq<string> {
    match data
    case NotObject => []
    case Object(items) =>
      var list := items.GetOr([]);
      if forall i | 0 <= i < |list| :: list[i].Record? then RegionStrings(country, list) else []
  }

  /** Each location string is the country, '>' and a non-empty region name,
      and there are at most as many as there are items. */
  lemma {:induction false} RegionStringsShape(country: string, items: seq<Item>)
    requires forall i | 0 <= i < |items| :: items[i].Record?
    ensures |RegionStrings(country, items)| <= |items|
    ensures forall s | s in RegionStrings(country, items) ::
              exists i | 0 <= i < |items| :: items[i].v.Some? && items[i].v.value != ""
                                              && s == country + ">" + items[i].v.value
    decreases |items|
  {
    if |items| > 0 {
      var init := items[..|items| - 1];
      RegionStringsShape(country, init);
      forall s | s in RegionStrings(country, items)
        ensures exists i | 0 <= i < |items| :: items[i].v.Some? && items[i].v.value != ""
                                                && s == country + ">" + items[i].v.value
      {
        if s in RegionStrings(country, init) {
          var i :| 0 <= i < |init| && init[i].v.Some? && init[i].v.value != "" && s == country + ">" + init[i].v.value;
          assert items[i] == init[i];
        }
      }
    }
  }

  /** Items whose region name is all present and non-empty give exactly one
      string each, in item order. */
  lemma {:induction false} RegionStringsAllNamed(country: string, items: seq<Item>)
    requires forall i | 0 <= i < |items| :: items[i].Record? && items[i].v.Some? && items[i].v.value != ""
    ensures var r := RegionStrings(country, items);
            |r| == |items| && forall i | 0 <= i < |items| :: r[i] == country + ">" + items[i].v.value
    decreases |items|
  {
    if |items| > 0 {
      RegionStringsAllNamed(country, items[..|items| - 1]);
    }
  }

  /** `_extract_locations_from_response`: the loop over the items. */
  method ExtractLocations(country: string, data: LocationsPayload) returns (locations: seq<string>)
    ensures locations == Locations(country, data)
  {
    locations := [];
    if data.NotObject? {
      return [];
    }
    var items := data.items.GetOr([]);
    var i := 0;
    while i < |items|
      invariant 0 <= i <= |items|
      invariant forall j | 0 <= j < i :: items[j].Record?
      invariant locations == RegionStrings(country, items[..i])
    {
      var item := items[i];
      if item.NotRecord? {
        return [];
      }
      assert items[..i + 1][..i] == items[..i];
      var regionName := item.v.GetOr("");
      if regionName != "" {
        locations := locations + [country + ">" + regionName];
      }
      i := i + 1;
    }
    assert items[..i] == items;
  }

  /** What a `requests` call produced: a decoded body, a `RequestException`
      or another exception, each with its text. */
  datatype Fetched<T> = Body(body: T) | RequestFailed(reason: string) | OtherFailure(reason: string)

  /** What `get_locations` returns. */
  datatype LocationsResult =
    | LocationsFound(country: string, locations: seq<string>, totalCount: nat, raw: LocationsPayload)
    | LocationsFailed(country: string, message: string, error: string)
  {
    predicate Success() { LocationsFound? }

    function Message(): string {
      match this
      case LocationsFound(country, locations, _, _) =>
        "Successfully retrieved " + NatToString(|locations|) + " locations for " + country
      case LocationsFailed(_, message, _) => message
    }
  }

  /** `get_locations`, given what the HTTP call produced. */
  function GetLocations(country: string, fetched: Fetched<LocationsPayload>): (r: LocationsResult)
    ensures r.country == country
    ensures r.LocationsFound? <==> fetched.Body?
    ensures r.LocationsFound? ==> r.locations == Locations(country, fetched.body) && r.totalCount == |r.locations|
    ensures fetched.RequestFailed? ==> r.Message() == "API request failed: " + fetched.reason
    ensures fetched.OtherFailure? ==> r.Message() == "Unexpected error: " + fetched.reason
  {
    match fetched
    case Body(data) =>
      var locations := Locations(country, data);
      LocationsFound(country, locations, |locations|, data)
    case RequestFailed(e) => LocationsFailed(country, "API request failed: " + e, e)
    case OtherFailure(e) => LocationsFailed(country, "Unexpected error: " + e, e)
  }

  // ---------------------------------------------------------------------
  // Scrape

  /** The parts of the task request that depend on the caller (the rest of
      the payload is constant). */
  datatype TaskRequest = TaskRequest(categories: seq<string>, locations: seq<string>, region: string,
                                     limit: Option<int>)

  /** `[business_type] if business_type else []`. */
  function Categories(businessType: Option<string>): (c: seq<string>)
    ensures c == [] <==> businessType.None? || businessType.value == ""
    ensures c != [] ==> c == [businessType.value]
  {
    if businessType.Some? && businessType.value != "" then [businessType.value] else []
  }

  /** What `scrape` does: hand back a failed location lookup unchanged, or
      issue the task request built from the locations found. */
  datatype ScrapeStep = LookupFailed(lookup: LocationsResult) | Submit(request: TaskRequest)

  function Scrape(businessType: Option<string>, location: string, maxResults: Option<int>,
                  lookup: Fetched<LocationsPayload>): (s: ScrapeStep)
    ensures !GetLocations(location, lookup).Success() ==> s == LookupFailed(GetLocations(location, lookup))
    ensures GetLocations(location, lookup).Success() ==>
              s.Submit? && s.request.locations == GetLocations(location, lookup).locations
              && s.request.region == location && s.request.limit == maxResults
              && s.request.categories == Categories(businessType)
  {
    var result := GetLocations(location, lookup);
    if !result.Success() then LookupFailed(result)
    else Submit(TaskRequest(Categories(businessType), result.locations, location, maxResults))
  }

  // ---------------------------------------------------------------------
  // Download

  /** What `requests` raised: a `RequestException` or another exception,
      each with its text. */
  datatype Failure = RequestError(reason: string) | OtherError(reason: string)

  /** What the HTTP side of a download produced: the whole body; an error
      from `get` or `raise_for_status`, before anything is written; or an
      error from the body stream after `partial` was written. */
  datatype Transfer =
    | Received(file: StoredFile)
    | Refused(failure: Failure)
    | Interrupted(partial: StoredFile, failure: Failure)

  const UnexpectedDownloadText: string := "Unexpected error during download: "

  /** The message `download_task_file` reports for an exception. */
  function FailureMessage(f: Failure): string {
    match f
    case RequestError(e) => "Download failed: " + e
    case OtherError(e) => UnexpectedDownloadText + e
  }

  /** `task_<id>.xlsx`. */
  function FallbackName(taskId: string): string {
    "task_" + taskId + ".xlsx"
  }

  /** The name a download is stored under, given the URL's path: its last
      segment when that is non-empty and has a dot, the fallback otherwise. */
  function FileNameFor(taskId: string, path: string): (name: string)
    ensures var base := Basename(path);
            name == (if base != "" && '.' in base then base else FallbackName(taskId))
    ensures '.' in name && name != ""
  {
    var base := Basename(path);
    if base == "" || '.' !in base then
      assert FallbackName(taskId)[|FallbackName(taskId)| - 5] == '.';
      FallbackName(taskId)
    else base
  }

  /** `str` of the `IsADirectoryError` raised when a directory is opened
      for writing. */
  function IsADirectoryText(path: string): string {
    "[Errno 21] Is a directory: '" + path + "'"
  }

  /** What `open(task_dir / name, 'wb')` raises: a NUL character is
      refused, "." names the task folder itself (pathlib drops the
      component) and ".." the data directory, both directories. */
  function OpenError(taskId: string, name: string): (e: Option<string>)
    ensures e.None? <==> '\0' !in name && name != "." && name != ".."
  {
    if '\0' in name then Some("embedded null byte")
    else if name == "." then Some(IsADirectoryText(FolderPath(TaskFolder(taskId))))
    else if name == ".." then Some(IsADirectoryText(FilePath(TaskFolder(taskId), "..")))
    else None
  }

  /** The name and the contents `download_task_file` leaves on disk, if it
      gets as far as opening the file: the URL parses, the request is
      answered and the name can be opened. An interrupted stream leaves
      the part written before the error. */
  function Written(taskId: string, fileUrl: string, t: Transfer): (w: Option<(string, StoredFile)>)
    ensures w.Some? <==> UrlPath(fileUrl).Ok? && !t.Refused?
                         && OpenError(taskId, FileNameFor(taskId, UrlPath(fileUrl).value)).None?
    ensures w.Some? ==> w.value.0 == FileNameFor(taskId, UrlPath(fileUrl).value)
                        && w.value.1 == (if t.Received? then t.file else t.partial)
  {
    match UrlPath(fileUrl)
    case Err(_) => None
    case Ok(path) =>
      var name := FileNameFor(taskId, path);
      if t.Refused? || OpenError(taskId, name).Some? then None
      else Some((name, if t.Received? then t.file else t.partial))
  }

  /** What `download_task_file` returns. */
  datatype DownloadResult =
    | Downloaded(taskId: string, fileUrl: string, localPath: string, filename: string, fileSize: nat)
    | DownloadFailed(taskId: string, fileUrl: string, message: string, error: string)
  {
    predicate Success() { Downloaded? }
  }

  /** The report `download_task_file` gives: a `ValueError` from
      `urlparse`, then a refused request, then a name that cannot be
      opened, then an interrupted stream each fail it, in that order. */
  function DownloadReport(taskId: string, fileUrl: string, t: Transfer): (r: DownloadResult)
    ensures r.taskId == taskId && r.fileUrl == fileUrl
    ensures r.Downloaded? <==> t.Received? && Written(taskId, fileUrl, t).Some?
    ensures r.Downloaded? ==> r.filename == Written(taskId, fileUrl, t).value.0
                              && r.localPath == FilePath(TaskFolder(taskId), r.filename)
                              && r.fileSize == t.file.size
    ensures UrlPath(fileUrl).Err? ==> r == DownloadFailed(taskId, fileUrl, UnexpectedDownloadText + InvalidIPv6Text,
                                                          InvalidIPv6Text)
    ensures UrlPath(fileUrl).Ok? && t.Refused? ==>
              r == DownloadFailed(taskId, fileUrl, FailureMessage(t.failure), t.failure.reason)
    ensures UrlPath(fileUrl).Ok? && !t.Refused? && OpenError(taskId, FileNameFor(taskId, UrlPath(fileUrl).value)).Some? ==>
              var e := OpenError(taskId, FileNameFor(taskId, UrlPath(fileUrl).value)).value;
              r == DownloadFailed(taskId, fileUrl, UnexpectedDownloadText + e, e)
    ensures t.Interrupted? && Written(taskId, fileUrl, t).Some? ==>
              r == DownloadFailed(taskId, fileUrl, FailureMessage(t.failure), t.failure.reason)
  {
    match UrlPath(fileUrl)
    case Err(e) => DownloadFailed(taskId, fileUrl, UnexpectedDownloadText + e, e)
    case Ok(path) =>
      var filename := FileNameFor(taskId, path);
      if t.Refused? then DownloadFailed(taskId, fileUrl, FailureMessage(t.failure), t.failure.reason)
      else
        match OpenError(taskId, filename)
        case Some(e) => DownloadFailed(taskId, fileUrl, UnexpectedDownloadText + e, e)
        case None =>
          if t.Received? then Downloaded(taskId, fileUrl, FilePath(TaskFolder(taskId), filename), filename, t.file.size)
          else DownloadFailed(taskId, fileUrl, FailureMessage(t.failure), t.failure.reason)
  }

  /** The folders after a download: the task folder is created before
      anything else, so it exists whatever happens next; what was written
      is stored under its name, overwriting a file of that name. */
  function FoldersAfterDownload(fs: Folders, taskId: string, fileUrl: string, t: Transfer): (r: Folders)
    ensures TaskFolder(taskId) in r
    ensures forall k | k in fs && k != TaskFolder(taskId) :: k in r && r[k] == fs[k]
    ensures r.Keys == fs.Keys + {TaskFolder(taskId)}
    ensures Written(taskId, fileUrl, t).Some? ==>
              var w := Written(taskId, fileUrl, t).value;
              w.0 in r[TaskFolder(taskId)].files && r[TaskFolder(taskId)].files[w.0] == w.1
    ensures Written(taskId, fileUrl, t).None? ==> r == EnsureFolder(fs, TaskFolder(taskId))
  {
    StoreWritten(fs, TaskFolder(taskId), Written(taskId, fileUrl, t))
  }

  /** Creates `folder` and stores what was written, if anything, in it. */
  function StoreWritten(fs: Folders, folder: string, w: Option<(string, StoredFile)>): (r: Folders)
    ensures folder in r && r.Keys == fs.Keys + {folder}
    ensures forall k | k in fs && k != folder :: r[k] == fs[k]
    ensures w.Some? ==> w.value.0 in r[folder].files && r[folder].files[w.value.0] == w.value.1
    ensures w.Some? ==> r[folder] == WriteFile(EnsureFolder(fs, folder)[folder], w.value.0, w.value.1)
    ensures w.None? ==> r == EnsureFolder(fs, folder)
  {
    var created := EnsureFolder(fs, folder);
    if w.None? then created
    else created[folder := WriteFile(created[folder], w.value.0, w.value.1)]
  }

  /** `download_task_file`. */
  method DownloadTaskFile(dir: DataDir, taskId: string, fileUrl: string, t: Transfer)
    returns (result: DownloadResult)
    requires dir.Valid()
    modifies dir
    ensures dir.Valid()
    ensures result == DownloadReport(taskId, fileUrl, t)
    ensures dir.folders == FoldersAfterDownload(old(dir.folders), taskId, fileUrl, t)
  {
    var taskDir := TaskFolder(taskId);
    var _ := dir.CreateCampaignFolder(taskDir);
    var parsedUrl := UrlPath(fileUrl);
    if parsedUrl.Err? {
      return DownloadFailed(taskId, fileUrl, UnexpectedDownloadText + parsedUrl.error, parsedUrl.error);
    }
    var filename := FileNameFor(taskId, parsedUrl.value);
    if t.Refused? {
      return DownloadFailed(taskId, fileUrl, FailureMessage(t.failure), t.failure.reason);
    }
    var openError := OpenError(taskId, filename);
    if openError.Some? {
      return DownloadFailed(taskId, fileUrl, UnexpectedDownloadText + openError.value, openError.value);
    }
    if t.Received? {
      dir.Store(taskDir, filename, t.file);
      result := Downloaded(taskId, fileUrl, FilePath(taskDir, filename), filename, t.file.size);
    } else {
      dir.Store(taskDir, filename, t.partial);
      result := DownloadFailed(taskId, fileUrl, FailureMessage(t.failure), t.failure.reason);
    }
  }

  // ---------------------------------------------------------------------
  // Properties of a download

  /** A path whose last segment is a dotted name, with or without
      `;params`, is stored under that name. */
  lemma NamedPathKept(taskId: string, dir: string, name: string, params: string)
    requires '.' in name && NoneIn(name, {'/', ';'})
    requires params == [] || params[0] == ';'
    requires NoneIn(params, {'/'})
    ensures FileNameFor(taskId, DropParams(dir + "/" + name + params)) == name
  {
    LastSegmentWithoutParams(dir + "/", name, params);
  }

  /** A plain https URL whose last segment is a dotted name, with or
      without `;params`, a query or a fragment after it, is stored under
      that name. */
  lemma NamedFileKept(taskId: string, host: string, dir: string, name: string, params: string, tail: string)
    requires NoneIn(host, {'/', '?', '#', '[', ']', '\t', '\r', '\n'})
    requires dir == [] || dir[0] == '/'
    requires NoneIn(dir + "/" + name + params, {'?', '#', '\t', '\r', '\n'})
    requires '.' in name && NoneIn(name, {'/', ';'})
    requires params == [] || params[0] == ';'
    requires NoneIn(params, {'/'})
    requires tail == [] || tail[0] == '?' || tail[0] == '#'
    requires NoneIn(tail, {'\t', '\r', '\n'})
    ensures var url := "https://" + host + (dir + "/" + name + params) + tail;
            UrlPath(url).Ok? && FileNameFor(taskId, UrlPath(url).value) == name
  {
    var path := dir + "/" + name + params;
    assert path[0] == '/';
    UrlPathOfHttpsUrl(host, path, tail);
    NamedPathKept(taskId, dir, name, params);
  }

  /** A URL whose path ends in '/' has an empty last segment, so the name
      falls back to the task's. */
  lemma DirectoryPathFallsBack(taskId: string, path: string)
    requires path != [] && path[|path| - 1] == '/'
    ensures FileNameFor(taskId, path) == FallbackName(taskId)
  {
  }

  /** A URL whose path ends in "/." or "/.." names a directory: the request
      is still made, then opening the name fails with an
      "Unexpected error during download", and nothing is written. */
  lemma DotSegmentFails(taskId: string, host: string, dir: string, dots: string, t: Transfer)
    requires NoneIn(host, {'/', '?', '#', '[', ']', '\t', '\r', '\n'})
    requires dir == [] || dir[0] == '/'
    requires NoneIn(dir, {'?', '#', '\t', '\r', '\n'})
    requires dots == "." || dots == ".."
    requires !t.Refused?
    ensures var url := "https://" + host + (dir + "/" + dots);
            var r := DownloadReport(taskId, url, t);
            && r.DownloadFailed? && UnexpectedDownloadText <= r.message
            && Written(taskId, url, t).None?
  {
    var path := dir + "/" + dots;
    assert path[0] == '/';
    assert NoneIn(path, {'?', '#', '\t', '\r', '\n'});
    UrlPathOfHttpsUrl(host, path, "");
    assert "https://" + host + path + "" == "https://" + host + path;
    DotPathNamesDirectory(taskId, dir, dots);
    var e := OpenError(taskId, dots).value;
    assert (UnexpectedDownloadText + e)[..|UnexpectedDownloadText|] == UnexpectedDownloadText;
  }

  /** "." and ".." as the last segment are kept as the name. */
  lemma DotPathNamesDirectory(taskId: string, dir: string, dots: string)
    requires dots == "." || dots == ".."
    ensures FileNameFor(taskId, DropParams(dir + "/" + dots)) == dots
  {
    assert NoneIn(dots, {'/', ';'});
    LastSegmentWithoutParams(dir + "/", dots, "");
    assert dir + "/" + dots + "" == dir + "/" + dots;
  }

  /** The fallback name never matches "*.csv", so a task stored under it
      has no lead file the dispatcher can find. */
  lemma FallbackNameIsNotCsv(taskId: string)
    ensures !IsCsvName(FallbackName(taskId))
  {
    var name := FallbackName(taskId);
    assert name[|name| - 1] == 'x';
  }

  /** A download that fails after the file was opened leaves what was
      written before the error, listed under the file's name, and reports
      the failure. */
  lemma InterruptedDownloadLeavesPart(fs: Folders, taskId: string, fileUrl: string, partial: StoredFile, f: Failure)
    requires AllConsistent(fs)
    requires Written(taskId, fileUrl, Interrupted(partial, f)).Some?
    ensures var name := Written(taskId, fileUrl, Interrupted(partial, f)).value.0;
            var after := FoldersAfterDownload(fs, taskId, fileUrl, Interrupted(partial, f));
            && !DownloadReport(taskId, fileUrl, Interrupted(partial, f)).Success()
            && after[TaskFolder(taskId)].files[name] == partial
            && name in after[TaskFolder(taskId)].listing
  {
    var t := Interrupted(partial, f);
    var folder := TaskFolder(taskId);
    var created := EnsureFolder(fs, folder);
    var w := Written(taskId, fileUrl, t);
    assert w.value.1 == partial;
    var after := StoreWritten(fs, folder, w);
    assert created[folder].Consistent() by {
      if folder in fs { assert fs[folder].Consistent(); }
    }
    WriteFileConsistent(created[folder], w.value.0, partial);
    assert after[folder] == WriteFile(created[folder], w.value.0, partial);
  }

  /** A successful download into a folder that did not exist leaves the
      downloaded file as the folder's only entry. */
  lemma DownloadIntoFreshFolder(fs: Folders, taskId: string, fileUrl: string, t: Transfer)
    requires DownloadReport(taskId, fileUrl, t).Success() && TaskFolder(taskId) !in fs
    ensures var r := DownloadReport(taskId, fileUrl, t);
            var after := FoldersAfterDownload(fs, taskId, fileUrl, t)[TaskFolder(taskId)];
            after.listing == [r.filename] && after.files == map[r.filename := t.file]
  {
    var folder := TaskFolder(taskId);
    var w := Written(taskId, fileUrl, t);
    assert EnsureFolder(fs, folder)[folder] == EmptyFolder;
    assert StoreWritten(fs, folder, w)[folder] == WriteFile(EmptyFolder, w.value.0, w.value.1);
  }

  /** A download lands in the folder the cleanup removes: after a cleanup of
      the same id, neither the folder nor the file is left. */
  lemma DownloadThenCleanup(fs: Folders, taskId: string, fileUrl: string, t: Transfer)
    ensures var after := FoldersAfterDownload(fs, taskId, fileUrl, t);
            Cleanup(after, taskId).0.Cleaned?
            && TaskFolder(taskId) !in Cleanup(after, taskId).1
  {
  }
}
