/** Application settings of semantic_agent/config.py: field defaults, field bounds and the
    two derived data paths. */
module Config {
  import opened Wrappers
  import opened Seqs
  import opened Strings

  /** A `pathlib.Path`: absolute or not, and its components. */
  datatype Path = Path(absolute: bool, parts: seq<string>)

  /** `Path.name`: the last component, or "" for a path without components. */
  function Name(p: Path): string {
    if p.parts == [] then "" else p.parts[|p.parts| - 1]
  }

  /** `p / name` for a name that is one component (no "/", not "."); joining "" leaves
      the path unchanged. */
  function JoinName(p: Path, name: string): (r: Path)
    ensures r.absolute == p.absolute
    ensures name != "" ==> r.parts == p.parts + [name] && Name(r) == name
    ensures name == "" ==> r == p
  {
    if name == "" then p else Path(p.absolute, p.parts + [name])
  }

  /** The pieces of `s` between its "/" characters, empty pieces included. */
  function SplitSlash(s: string): (ps: seq<string>)
    ensures |ps| >= 1 && ps[0] <= s
    ensures forall i :: 0 <= i < |ps| ==> '/' !in ps[i]
    ensures '/' !in s ==> ps == [s]
    decreases |s|
  {
    if s == [] then [""]
    else
      var rest := SplitSlash(s[1..]);
      assert s == [s[0]] + s[1..];
      if s[0] == '/' then [""] + rest else [[s[0]] + rest[0]] + rest[1..]
  }

  /** A piece that names a component: `pathlib` drops empty and "." pieces. */
  predicate IsPart(piece: string) {
    piece != "" && piece != "."
  }

  /** The components `pathlib` reads from a string. */
  function Components(name: string): (cs: seq<string>)
    ensures forall i :: 0 <= i < |cs| ==> IsPart(cs[i]) && '/' !in cs[i]
    ensures '/' !in name && IsPart(name) ==> cs == [name]
  {
    var pieces := SplitSlash(name);
    assert forall i :: 0 <= i < |pieces| ==> '/' !in pieces[i];
    Filter(pieces, IsPart)
  }

  /** `p / name` for any string: an absolute name replaces `p`; otherwise each of its
      components is appended. */
  function JoinPath(p: Path, name: string): (r: Path)
    ensures StartsWith(name, "/") ==> r.absolute && r.parts == Components(name)
    ensures !StartsWith(name, "/") ==>
              r.absolute == p.absolute && p.parts <= r.parts && r.parts[|p.parts|..] == Components(name)
    ensures '/' !in name && IsPart(name) ==> r == JoinName(p, name)
  {
    if StartsWith(name, "/") then Path(true, Components(name))
    else
      var r := Path(p.absolute, p.parts + Components(name));
      assert r.parts[|p.parts|..] == Components(name);
      r
  }

  /** A string without ".." has no ".." piece. */
  lemma {:induction false} NoDotDotPiece(s: string)
    requires !Contains(s, "..")
    ensures forall i :: 0 <= i < |SplitSlash(s)| ==> SplitSlash(s)[i] != ".."
    decreases |s|
  {
    if s != [] {
      assert !Contains(s[1..], "..");
      NoDotDotPiece(s[1..]);
    }
  }

  /** A piece without "/" followed by "/" splits off as the first piece. */
  lemma {:induction false} SplitSlashAppend(a: string, t: string)
    requires '/' !in a
    ensures SplitSlash(a + "/" + t) == [a] + SplitSlash(t)
    decreases |a|
  {
    if a == [] {
      assert (a + "/" + t)[1..] == t;
    } else {
      assert (a + "/" + t)[1..] == a[1..] + "/" + t;
      SplitSlashAppend(a[1..], t);
      assert [a[0]] + a[1..] == a;
    }
  }

  /** A name read one piece at a time: the piece before the first "/" is a component
      unless it is "" or ".", and the rest is read the same way. */
  lemma ComponentsSlash(a: string, t: string)
    requires '/' !in a
    ensures Components(a + "/" + t) == (if IsPart(a) then [a] else []) + Components(t)
  {
    SplitSlashAppend(a, t);
    FilterAppend([a], SplitSlash(t), IsPart);
    assert [a][1..] == [];
  }

  /** A relative name such as "sub/x.csv" is two components, not one. */
  lemma ComponentsOfTwo(a: string, b: string)
    requires '/' !in a && '/' !in b && IsPart(a) && IsPart(b)
    ensures Components(a + "/" + b) == [a, b]
  {
    ComponentsSlash(a, b);
  }

  /** The only URL scheme the store accepts. */
  const SqlitePrefix := "sqlite:///"

  const DefaultDatabaseUrl := SqlitePrefix + "data/processed/veribond_semantic.db"

  /** The fields `Settings` defines. Settings the pipeline reads without defining them
      here (`relations_*`, `eval_*`, `chroma_*`, `label_*`, `max_clusters`) are
      parameters of the stages that read them. */
  datatype Settings = Settings(
    dataDir: Path,
    rawDataDir: Path,
    processedDataDir: Path,
    databaseUrl: string,
    embeddingModel: string,
    embeddingDim: int,
    clusterRatio: real,
    openaiApiKey: Option<string>,
    openaiModel: string,
    polymarketApiBase: string,
    polymarketApiKey: Option<string>,
    minDurationDays: real)

  /** The bounds the `Field(...)` declarations impose. */
  predicate ValidSettings(s: Settings) {
    && 1 <= s.embeddingDim <= 4096
    && 0.01 <= s.clusterRatio <= 1.0
    && s.minDurationDays >= 0.0
  }

  /** `Settings()` with no environment overrides. */
  function DefaultSettings(): (s: Settings)
    ensures ValidSettings(s)
    ensures StartsWith(s.databaseUrl, SqlitePrefix)
    ensures s.dataDir == Path(false, ["data"]) && s.rawDataDir == Path(false, ["data", "raw"])
    ensures s.openaiApiKey.None? && s.clusterRatio == 0.1 && s.minDurationDays == 7.0
  {
    Settings(
      Path(false, ["data"]), Path(false, ["data", "raw"]), Path(false, ["data", "processed"]),
      DefaultDatabaseUrl, "all-MiniLM-L6-v2", 384, 0.1, None, "gpt-4o-mini",
      "https://gamma-api.polymarket.com", None, 7.0)
  }

  /** The rule both derived paths follow: an absolute directory is used as it is; a
      relative one is replaced by its last component under `data_dir`. */
  function UnderDataDir(dataDir: Path, dir: Path): (r: Path)
    ensures dir.absolute ==> r == dir
    ensures !dir.absolute && Name(dir) != "" ==>
              r.absolute == dataDir.absolute && r.parts == dataDir.parts + [Name(dir)]
    ensures !dir.absolute && Name(dir) == "" ==> r == dataDir
  {
    if dir.absolute then dir else JoinName(dataDir, Name(dir))
  }

  /** `Settings.raw_data_path`. */
  function RawDataPath(s: Settings): Path {
    UnderDataDir(s.dataDir, s.rawDataDir)
  }

  /** `Settings.processed_data_path`. */
  function ProcessedDataPath(s: Settings): Path {
    UnderDataDir(s.dataDir, s.processedDataDir)
  }

  /** Only the final component of a relative raw directory survives: "data/raw" and
      "elsewhere/raw" give the same path. */
  lemma RelativeKeepsOnlyLastComponent(s: Settings, t: Settings)
    requires s.dataDir == t.dataDir
    requires !s.rawDataDir.absolute && !t.rawDataDir.absolute
    requires Name(s.rawDataDir) == Name(t.rawDataDir)
    ensures RawDataPath(s) == RawDataPath(t)
  {
  }

  lemma DefaultPaths()
    ensures RawDataPath(DefaultSettings()) == Path(false, ["data", "raw"])
    ensures ProcessedDataPath(DefaultSettings()) == Path(false, ["data", "processed"])
  {
  }
}
