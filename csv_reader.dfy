/** app/utils/csv_reader.py: campaign folders under app/data and the lead
    files inside them. The file system is a map from folder name to folder;
    pandas' parsing of a file is what the file holds (`StoredFile.csv`). */
module CsvReader {
  import opened Wrappers
  import opened PyStr

  /** One row of a lead file, reduced to the two columns the service reads;
      `None` is a cell pandas reads as NaN. */
  datatype Row = Row(name: Option<string>, email1: Option<string>)

  /** A parsed file: its header and its rows in file order. */
  datatype Table = Table(columns: seq<string>, rows: seq<Row>)

  /** A file on disk: its size in bytes and what `pandas.read_csv` makes of
      it (`Err` carries the text of what it raises). */
  datatype StoredFile = StoredFile(size: nat, csv: Result<Table, string>)

  /** A folder: its entries in listing order and their contents. */
  datatype Folder = Folder(listing: seq<string>, files: map<string, StoredFile>) {
    /** What a real directory guarantees: names are listed once, and exactly
        the stored files are listed. */
    predicate Consistent() {
      && (forall i, j | 0 <= i < j < |listing| :: listing[i] != listing[j])
      && (forall n | n in listing :: n in files)
      && (forall n | n in files :: n in listing)
    }
  }

  const EmptyFolder: Folder := Folder([], map[])

  /** The sub-directories of app/data, by name. */
  type Folders = map<string, Folder>

  const DataRoot: string := "app/data"

  function FolderPath(folder: string): string {
    DataRoot + "/" + folder
  }

  function FilePath(folder: string, filename: string): string {
    FolderPath(folder) + "/" + filename
  }

  /** Matches the glob pattern "*.csv". */
  predicate IsCsvName(name: string) {
    EndsWith(name, ".csv")
  }

  /** The names in a listing that match "*.csv", in listing order. */
  function CsvNames(listing: seq<string>): (r: seq<string>)
    ensures |r| <= |listing|
    ensures forall n :: n in r <==> n in listing && IsCsvName(n)
    ensures r == [] <==> forall n | n in listing :: !IsCsvName(n)
  {
    if |listing| == 0 then []
    else if IsCsvName(listing[0]) then [listing[0]] + CsvNames(listing[1..])
    else CsvNames(listing[1..])
  }

  /** `get_campaign_folders`: the folder names (the listing order of
      `iterdir` is not modelled). */
  function GetCampaignFolders(fs: Folders): (r: set<string>)
    ensures forall k :: k in r <==> k in fs
  {
    fs.Keys
  }

  /** `get_csv_files_for_campaign`: no folder means no files, not an error. */
  function GetCsvFilesForCampaign(fs: Folders, campaignId: string): (r: seq<string>)
    ensures campaignId !in fs ==> r == []
    ensures campaignId in fs ==> forall n :: n in r <==> n in fs[campaignId].listing && IsCsvName(n)
  {
    if campaignId in fs then CsvNames(fs[campaignId].listing) else []
  }

  /** `get_all_csv_files`: one entry per campaign folder, built in a loop. */
  method GetAllCsvFiles(fs: Folders) returns (r: map<string, seq<string>>)
    ensures r.Keys == fs.Keys
    ensures forall k | k in r :: r[k] == CsvNames(fs[k].listing)
  {
    r := map[];
    var todo := GetCampaignFolders(fs);
    while todo != {}
      invariant todo <= fs.Keys
      invariant r.Keys == fs.Keys - todo
      invariant forall k | k in r :: r[k] == CsvNames(fs[k].listing)
      decreases todo
    {
      var campaignId :| campaignId in todo;
      r := r[campaignId := GetCsvFilesForCampaign(fs, campaignId)];
      todo := todo - {campaignId};
    }
  }

  const RequiredColumns: seq<string> := ["name", "email_1"]

  /** The required columns absent from a header, in the order
      ['name', 'email_1']. */
  function MissingColumns(columns: seq<string>): (m: seq<string>)
    ensures forall c :: c in m <==> c in RequiredColumns && c !in columns
    ensures m == [] || m == ["name"] || m == ["email_1"] || m == RequiredColumns
  {
    (if "name" in columns then [] else ["name"]) + (if "email_1" in columns then [] else ["email_1"])
  }

  /** Python's `repr` of a list of plain strings: ['a', 'b']. */
  function ListRepr(items: seq<string>): string {
    "[" + Join(seq(|items|, i requires 0 <= i < |items| => "'" + items[i] + "'"), ", ") + "]"
  }

  function NotFoundText(folder: string, filename: string): string {
    "CSV file not found: " + FilePath(folder, filename)
  }

  /** The wrapper `read_leads_from_campaign_csv` puts around what pandas or
      the column check raise. */
  function ReadErrorText(folder: string, filename: string, inner: string): string {
    "Error reading CSV file " + filename + " in campaign " + folder + ": " + inner
  }

  /** Whether the stored file parses and has both required columns. */
  predicate HasLeadColumns(f: StoredFile) {
    f.csv.Ok? && "name" in f.csv.value.columns && "email_1" in f.csv.value.columns
  }

  /** `read_leads_from_campaign_csv`: a missing file fails before parsing;
      a parse failure or a missing required column fails wrapped; otherwise
      every row comes back, unfiltered. */
  function ReadLeadsFromCampaignCsv(fs: Folders, folder: string, filename: string): (r: Result<Table, string>)
    ensures (folder !in fs || filename !in fs[folder].files) ==> r == Err(NotFoundText(folder, filename))
    ensures r.Ok? <==> folder in fs && filename in fs[folder].files && HasLeadColumns(fs[folder].files[filename])
    ensures r.Ok? ==> r.value == fs[folder].files[filename].csv.value
    ensures folder in fs && filename in fs[folder].files && fs[folder].files[filename].csv.Ok? && r.Err? ==>
              r.error == ReadErrorText(folder, filename, "Missing required columns: "
                                       + ListRepr(MissingColumns(fs[folder].files[filename].csv.value.columns)))
  {
    if folder !in fs || filename !in fs[folder].files then Err(NotFoundText(folder, filename))
    else
      match fs[folder].files[filename].csv
      case Err(e) => Err(ReadErrorText(folder, filename, e))
      case Ok(t) =>
        var missing := MissingColumns(t.columns);
        if missing != [] then Err(ReadErrorText(folder, filename, "Missing required columns: " + ListRepr(missing)))
        else Ok(t)
  }

  /** `get_lead_count_for_campaign`: the row count, or 0 on any failure. */
  function GetLeadCountForCampaign(fs: Folders, folder: string, filename: string): (n: nat)
    ensures ReadLeadsFromCampaignCsv(fs, folder, filename).Ok? ==> n == |ReadLeadsFromCampaignCsv(fs, folder, filename).value.rows|
    ensures ReadLeadsFromCampaignCsv(fs, folder, filename).Err? ==> n == 0
  {
    match ReadLeadsFromCampaignCsv(fs, folder, filename)
    case Ok(t) => |t.rows|
    case Err(_) => 0
  }

  /** `str(cell).contains('@')`: a NaN cell reads as "nan". */
  predicate HasAt(r: Row) {
    r.email1.Some? && '@' in r.email1.value
  }

  /** The number of rows whose email text contains '@'. */
  function AtEmailCount(rows: seq<Row>): (n: nat)
    ensures n <= |rows|
    ensures n == |rows| <==> forall i | 0 <= i < |rows| :: HasAt(rows[i])
  {
    if |rows| == 0 then 0
    else (if HasAt(rows[0]) then 1 else 0) + AtEmailCount(rows[1..])
  }

  /** What `validate_campaign_csv_structure` reports. */
  datatype Validation =
    | Valid(campaignId: string, filename: string, totalRows: nat, validEmails: nat,
            columns: seq<string>, sample: seq<Row>)
    | Invalid(campaignId: string, filename: string, error: string)

  function Head3(rows: seq<Row>): seq<Row> {
    if |rows| <= 3 then rows else rows[..3]
  }

  /** `validate_campaign_csv_structure`: never raises; a readable file
      reports its row count, how many emails contain '@', its header and
      its first three rows. */
  function ValidateCampaignCsvStructure(fs: Folders, folder: string, filename: string): (v: Validation)
    ensures v.campaignId == folder && v.filename == filename
    ensures v.Valid? <==> ReadLeadsFromCampaignCsv(fs, folder, filename).Ok?
    ensures v.Valid? ==> v.validEmails <= v.totalRows
                         && v.totalRows == |ReadLeadsFromCampaignCsv(fs, folder, filename).value.rows|
                         && v.validEmails == AtEmailCount(ReadLeadsFromCampaignCsv(fs, folder, filename).value.rows)
    ensures v.Invalid? ==> v.error == ReadLeadsFromCampaignCsv(fs, folder, filename).error
  {
    match ReadLeadsFromCampaignCsv(fs, folder, filename)
    case Ok(t) => Valid(folder, filename, |t.rows|, AtEmailCount(t.rows), t.columns, Head3(t.rows))
    case Err(e) => Invalid(folder, filename, e)
  }

  /** The folder map after `mkdir(exist_ok=True)`. */
  function EnsureFolder(fs: Folders, folder: string): (r: Folders)
    ensures folder in r && r.Keys == fs.Keys + {folder}
    ensures forall k | k in fs :: r[k] == fs[k]
    ensures folder !in fs ==> r[folder] == EmptyFolder
  {
    if folder in fs then fs else fs[folder := EmptyFolder]
  }

  /** Creating a folder twice is the same as creating it once. */
  lemma EnsureFolderIdempotent(fs: Folders, folder: string)
    ensures EnsureFolder(EnsureFolder(fs, folder), folder) == EnsureFolder(fs, folder)
  {
  }

  /** A folder after a file of that name has been written into it: an
      existing file is overwritten in place, a new one is listed last. */
  function WriteFile(f: Folder, filename: string, file: StoredFile): (r: Folder)
    ensures r.files == f.files[filename := file]
    ensures filename in f.files ==> r.listing == f.listing
    ensures filename !in f.files ==> r.listing == f.listing + [filename]
  {
    if filename in f.files then Folder(f.listing, f.files[filename := file])
    else Folder(f.listing + [filename], f.files[filename := file])
  }

  lemma WriteFileConsistent(f: Folder, filename: string, file: StoredFile)
    requires f.Consistent()
    ensures WriteFile(f, filename, file).Consistent()
  {
    var r := WriteFile(f, filename, file);
    if filename !in f.files {
      forall i, j | 0 <= i < j < |r.listing| ensures r.listing[i] != r.listing[j] {
        if j == |f.listing| {
          assert r.listing[i] == f.listing[i];
        }
      }
    }
  }

  /** A listing without repeats has as many names as it has distinct ones. */
  lemma {:induction false} DistinctNamesCount(listing: seq<string>)
    requires forall i, j | 0 <= i < j < |listing| :: listing[i] != listing[j]
    ensures |set n | n in listing| == |listing|
    decreases |listing|
  {
    if |listing| > 0 {
      var init, last := listing[..|listing| - 1], listing[|listing| - 1];
      DistinctNamesCount(init);
      assert listing == init + [last];
      assert (set n | n in listing) == (set n | n in init) + {last};
      assert last !in init;
    }
  }

  /** A consistent folder lists as many entries as it stores files. */
  lemma ListingCountsFiles(f: Folder)
    requires f.Consistent()
    ensures |f.listing| == |f.files|
  {
    DistinctNamesCount(f.listing);
    assert (set n | n in f.listing) == f.files.Keys;
  }

  predicate AllConsistent(fs: Folders) {
    forall k | k in fs :: fs[k].Consistent()
  }

  /** The app/data directory: the one piece of state the lead store, the
      cleanup step and the downloader share. */
  class DataDir {
    var folders: Folders

    ghost predicate Valid()
      reads this
    {
      AllConsistent(folders)
    }

    constructor (initial: Folders)
      requires AllConsistent(initial)
      ensures Valid() && folders == initial
    {
      folders := initial;
    }

    /** `create_campaign_folder`: idempotent; returns the folder's path. */
    method CreateCampaignFolder(campaignId: string) returns (path: string)
      requires Valid()
      modifies this
      ensures Valid()
      ensures path == FolderPath(campaignId)
      ensures folders == EnsureFolder(old(folders), campaignId)
    {
      folders := EnsureFolder(folders, campaignId);
      path := FolderPath(campaignId);
    }

    /** Writes one file into a folder, creating the folder first. */
    method Store(folder: string, filename: string, file: StoredFile)
      requires Valid()
      modifies this
      ensures Valid()
      ensures folders == EnsureFolder(old(folders), folder)[folder := WriteFile(EnsureFolder(old(folders), folder)[folder], filename, file)]
    {
      folders := EnsureFolder(folders, folder);
      WriteFileConsistent(folders[folder], filename, file);
      folders := folders[folder := WriteFile(folders[folder], filename, file)];
    }

    /** `shutil.rmtree` of one folder. */
    method RemoveFolder(folder: string)
      requires Valid() && folder in folders
      modifies this
      ensures Valid()
      ensures folders == old(folders) - {folder}
    {
      folders := folders - {folder};
    }
  }
}
