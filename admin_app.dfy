/** The validators of the admin API in admin/server/app.py: the CSV path resolver, the
    upload file name check and size limit, the log tail clamp and the dataset listing.
    HTTP errors are `Err(HttpError(status))`. */
module AdminApp {
  import opened Wrappers
  import opened Seqs
  import opened Strings
  import opened Sorting
  import opened Config
  import opened LogBuffer

  const DefaultCsvName := "polymarket_markets.csv"

  /** The name `_resolve_csv_path` works with: the stripped argument, or the default file
      name when the argument is None or blank. */
  function CsvName(csvPath: Option<string>): (n: string)
    ensures n != ""
    ensures csvPath.None? || IsBlank(csvPath.value) ==> n == DefaultCsvName
    ensures csvPath.Some? && !IsBlank(csvPath.value) ==> n == Strip(csvPath.value)
  {
    var name := Strip(csvPath.GetOr(DefaultCsvName));
    if name == "" then DefaultCsvName
    else if csvPath.None? then DefaultStripped(); name
    else name
  }

  /** The default name has no surrounding white space. */
  lemma DefaultStripped()
    ensures Strip(DefaultCsvName) == DefaultCsvName
  {
    var d := DefaultCsvName;
    assert d[0] == 'p' && d[|d| - 1] == 'v';
    StripWithUnchanged(d, IsSpace);
  }

  /** `_resolve_csv_path(csv_path, raw_dir)`: 400 for a name that contains ".." anywhere
      or starts with "/", otherwise the name under `raw_dir`. */
  function ResolveCsvPath(csvPath: Option<string>, rawDir: Path): (r: Result<Path>)
    ensures r.Err? <==> Contains(CsvName(csvPath), "..") || StartsWith(CsvName(csvPath), "/")
    ensures r.Err? ==> r.error == HttpError(400)
    ensures r.Ok? ==> r.value == JoinPath(rawDir, CsvName(csvPath))
  {
    var name := CsvName(csvPath);
    if Contains(name, "..") || StartsWith(name, "/") then Err(HttpError(400))
    else Ok(JoinPath(rawDir, name))
  }

  /** A resolved path is the raw directory followed by the components of the name, and
      none of those components is "", "." or "..": the path cannot leave the raw
      directory. A plain file name adds exactly one component. */
  lemma ResolvedStaysUnderRawDir(csvPath: Option<string>, rawDir: Path)
    requires ResolveCsvPath(csvPath, rawDir).Ok?
    ensures var p := ResolveCsvPath(csvPath, rawDir).value;
            var added := p.parts[|rawDir.parts|..];
            && p.absolute == rawDir.absolute
            && rawDir.parts <= p.parts
            && added == Components(CsvName(csvPath))
            && (forall k :: 0 <= k < |added| ==> IsPart(added[k]) && added[k] != ".." && '/' !in added[k])
    ensures '/' !in CsvName(csvPath) && IsPart(CsvName(csvPath)) ==>
              ResolveCsvPath(csvPath, rawDir).value.parts == rawDir.parts + [CsvName(csvPath)]
  {
    var name := CsvName(csvPath);
    assert !Contains(name, "..") && !StartsWith(name, "/");
    var p := JoinPath(rawDir, name);
    assert ResolveCsvPath(csvPath, rawDir).value == p;
    var pieces := SplitSlash(name);
    NoDotDotPiece(name);
    var cs := Components(name);
    assert cs == Filter(pieces, IsPart);
    forall k | 0 <= k < |cs| ensures cs[k] != ".." {
      assert cs[k] in pieces;
    }
  }

  /** `Path.cwd() / p` for a relative `p`; an absolute `p` is kept. */
  function Absolute(cwd: Path, p: Path): (r: Path)
    requires cwd.absolute
    ensures r.absolute
    ensures !p.absolute ==> r.parts == cwd.parts + p.parts
    ensures p.absolute ==> r == p
  {
    if p.absolute then p else Path(true, cwd.parts + p.parts)
  }

  /** `_raw_data_dir_absolute()`: the last component of `raw_data_dir` under the absolute
      `data_dir`, whether `raw_data_dir` itself is absolute or not. */
  function RawDataDirAbsolute(s: Settings, cwd: Path): (r: Path)
    requires cwd.absolute
    ensures r.absolute
    ensures Name(s.rawDataDir) != "" ==> Name(r) == Name(s.rawDataDir)
  {
    JoinName(Absolute(cwd, s.dataDir), Name(s.rawDataDir))
  }

  /** For a relative `raw_data_dir` the admin API and `Settings.raw_data_path` name the
      same directory. */
  lemma RawDirAgreesWithSettings(s: Settings, cwd: Path)
    requires cwd.absolute && !s.rawDataDir.absolute
    ensures RawDataDirAbsolute(s, cwd) == Absolute(cwd, RawDataPath(s))
  {
  }

  /** The characters of the class `[a-zA-Z0-9_.-]`. */
  predicate SafeChar(c: char) {
    ('a' <= c <= 'z') || ('A' <= c <= 'Z') || ('0' <= c <= '9') || c == '_' || c == '.' || c == '-'
  }

  /** The strings `[a-zA-Z0-9_.-]+\.csv` matches in full. */
  predicate SafeCsvName(s: string) {
    |s| >= 5 && EndsWith(s, ".csv") && forall k :: 0 <= k < |s| ==> SafeChar(s[k])
  }

  /** `not file.filename or not ALLOWED_CSV_NAME.match(file.filename)` negated. `match`
      anchors at the start, and `$` matches at the end or before one final newline, so a
      safe name followed by "\n" also passes. */
  predicate AllowedCsvName(filename: Option<string>) {
    filename.Some? &&
    var f := filename.value;
    f != "" && (SafeCsvName(f) || (f[|f| - 1] == '\n' && SafeCsvName(f[..|f| - 1])))
  }

  /** An accepted name is one path component: it never contains "/". */
  lemma AllowedNameHasNoSlash(filename: Option<string>)
    requires AllowedCsvName(filename)
    ensures '/' !in filename.value
    ensures EndsWith(filename.value, ".csv") || EndsWith(filename.value, ".csv\n")
  {
    var f := filename.value;
    if !SafeCsvName(f) {
      var g := f[..|f| - 1];
      assert f == g + ['\n'];
      assert f[|f| - 5..] == g[|g| - 4..] + ['\n'];
      assert forall k :: 0 <= k < |g| ==> f[k] == g[k];
    }
  }

  lemma AllowedNameExamples()
    ensures AllowedCsvName(Some("my_data.csv"))
    ensures !AllowedCsvName(Some(".csv"))
    ensures !AllowedCsvName(Some("a/b.csv"))
    ensures !AllowedCsvName(Some("data.CSV"))
    ensures !AllowedCsvName(None) && !AllowedCsvName(Some(""))
    ensures AllowedCsvName(Some("my_data.csv\n"))
  {
    assert !SafeChar('/');
    assert "a/b.csv"[1] == '/';
    var f := "my_data.csv\n";
    assert f[..|f| - 1] == "my_data.csv";
  }

  /** `MAX_UPLOAD_MB * 1024 * 1024`. */
  const MaxUploadBytes := 500 * 1024 * 1024

  /** The position of the first empty read, where `file.read` signalled end of file, or
      the number of chunks when none is empty. */
  function EndOfFile(chunks: seq<seq<bv8>>): (e: nat)
    ensures e <= |chunks|
    ensures forall j :: 0 <= j < e ==> chunks[j] != []
    ensures e < |chunks| ==> chunks[e] == []
    decreases |chunks|
  {
    if chunks == [] || chunks[0] == [] then 0 else 1 + EndOfFile(chunks[1..])
  }

  /** The bytes of the uploaded file: every chunk up to end of file. */
  function UploadedBytes(chunks: seq<seq<bv8>>): seq<bv8> {
    Flatten(chunks[..EndOfFile(chunks)])
  }

  datatype UploadReply = UploadReply(filename: string, path: Path, sizeBytes: nat)

  /** `upload_dataset`: `chunks` are the successive results of `file.read(64 * 1024)`.
      Returns the reply, the file left at the target path (None once it was removed, or
      when none was created) and the bytes that were written to it. */
  method UploadDataset(filename: Option<string>, rawDir: Path, chunks: seq<seq<bv8>>)
    returns (r: Result<UploadReply>, stored: Option<seq<bv8>>, written: seq<bv8>)
    ensures !AllowedCsvName(filename) ==> r == Err(HttpError(400)) && stored.None? && written == []
    ensures AllowedCsvName(filename) && |UploadedBytes(chunks)| > MaxUploadBytes ==>
              r == Err(HttpError(413)) && stored.None?
    ensures AllowedCsvName(filename) && |UploadedBytes(chunks)| <= MaxUploadBytes ==>
              r == Ok(UploadReply(filename.value, JoinName(rawDir, filename.value),
                                  |UploadedBytes(chunks)|)) &&
              stored == Some(UploadedBytes(chunks)) && written == UploadedBytes(chunks)
    ensures |written| <= MaxUploadBytes && written <= UploadedBytes(chunks)
  {
    written := [];
    if !AllowedCsvName(filename) {
      return Err(HttpError(400)), None, written;
    }
    var size := 0;
    var i := 0;
    while i < |chunks| && chunks[i] != []
      invariant 0 <= i <= EndOfFile(chunks)
      invariant written == Flatten(chunks[..i])
      invariant size == |written| <= MaxUploadBytes
    {
      size := size + |chunks[i]|;
      assert chunks[..i + 1] == chunks[..i] + [chunks[i]];
      FlattenSnoc(chunks[..i], chunks[i]);
      if size > MaxUploadBytes {
        FlattenPrefixGrows(chunks, i, EndOfFile(chunks));
        FlattenPrefixGrows(chunks, i + 1, EndOfFile(chunks));
        return Err(HttpError(413)), None, written;
      }
      written := written + chunks[i];
      i := i + 1;
    }
    assert i == EndOfFile(chunks);
    r := Ok(UploadReply(filename.value, JoinName(rawDir, filename.value), size));
    stored := Some(written);
  }

  /** The `tail` that `api_get_logs` passes on: values outside [1, 5000] become 500. */
  function ClampTail(tail: int): (t: int)
    ensures 1 <= t <= MaxLines
    ensures 1 <= tail <= 5000 ==> t == tail
    ensures !(1 <= tail <= 5000) ==> t == 500
  {
    if tail < 1 || tail > 5000 then 500 else tail
  }

  /** `GET /api/logs`: the newest lines, at most 5000 and never the whole-buffer result
      that `get_logs(0)` gives. */
  method ApiGetLogs(buffer: LineBuffer, tail: int) returns (lines: seq<string>)
    ensures lines == Last(buffer.lines, ClampTail(tail))
    ensures |lines| <= MaxLines
  {
    lines := buffer.GetLogs(ClampTail(tail));
  }

  /** `DELETE /api/logs`. */
  method ApiClearLogs(buffer: LineBuffer)
    modifies buffer
    ensures buffer.lines == []
  {
    buffer.ClearLogs();
  }

  /** `Path.suffix`: from the last "." of the name, when that dot is neither the first
      nor the last character; otherwise "". */
  function Suffix(name: string): (r: string)
    ensures r != "" ==> |r| >= 2 && r[0] == '.' && EndsWith(name, r) && |r| < |name|
    ensures r != "" ==> forall k :: 1 <= k < |r| ==> r[k] != '.'
  {
    var i := RFind(name, '.');
    if 0 < i < |name| - 1 then name[i..] else ""
  }

  /** The entries `list_datasets` keeps: `p.suffix.lower() == ".csv"`. */
  predicate IsCsvEntry(name: string) {
    Lower(Suffix(name)) == ".csv"
  }

  /** The listing filter, without `Path.suffix`: a name longer than ".csv" whose last four
      characters are ".csv" in any letter case. */
  lemma CsvEntryIff(name: string)
    ensures IsCsvEntry(name) <==> |name| >= 5 && Lower(name[|name| - 4..]) == ".csv"
  {
    if |name| >= 5 && Lower(name[|name| - 4..]) == ".csv" {
      var t := name[|name| - 4..];
      assert LowerChar(t[0]) == '.';
      assert t[0] == '.';
      assert LowerChar(t[1]) == 'c' && LowerChar(t[2]) == 's' && LowerChar(t[3]) == 'v';
      assert forall j :: |name| - 4 < j < |name| ==> name[j] != '.';
      assert RFind(name, '.') == |name| - 4;
    }
    if IsCsvEntry(name) {
      var sfx := Suffix(name);
      assert |sfx| == 4;
    }
  }

  /** `list_datasets()`: no files when the raw directory does not exist, otherwise the
      names of its CSV entries in ascending order. */
  function ListDatasets(dirExists: bool, entries: seq<string>): (files: seq<string>)
    ensures !dirExists ==> files == []
    ensures dirExists ==> multiset(files) == multiset(Filter(entries, IsCsvEntry))
    ensures SortedBy(files, LexLe)
    ensures forall k :: 0 <= k < |files| ==> IsCsvEntry(files[k])
  {
    if !dirExists then []
    else
      LexTotalOrder();
      var files := Sort(Filter(entries, IsCsvEntry), LexLe);
      assert forall k :: 0 <= k < |files| ==> files[k] in multiset(Filter(entries, IsCsvEntry));
      files
  }

  /** The listing depends only on which entries exist, not on the directory's order. */
  lemma ListDatasetsOrderIndependent(entries: seq<string>, other: seq<string>)
    requires multiset(entries) == multiset(other)
    ensures ListDatasets(true, entries) == ListDatasets(true, other)
  {
    LexTotalOrder();
    FilterMultiset(entries, other, IsCsvEntry);
    SortedUnique(ListDatasets(true, entries), ListDatasets(true, other), LexLe);
  }
}
