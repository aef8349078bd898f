/** The SQLite persistence of semantic_agent/store.py as in-memory tables: `markets` is
    a map keyed by the primary key `id`; `clusters` and `market_clusters` are sequences
    in row order, where `INSERT OR REPLACE` removes the row holding the same key and
    appends the new one. The JSON codec and the timestamp parser are parameters. */
module Store {
  import opened Wrappers
  import opened Seqs
  import opened Strings
  import opened Json
  import opened Models
  import Config

  /** `_sqlite_path(database_url)`: the file path after the `sqlite:///` prefix. */
  function SqlitePath(url: string): (r: Result<string>)
    ensures r.Ok? <==> StartsWith(url, Config.SqlitePrefix)
    ensures r.Ok? ==> url == Config.SqlitePrefix + r.value
    ensures r.Err? ==> r.error == ValueError
  {
    if StartsWith(url, Config.SqlitePrefix) then Ok(url[|Config.SqlitePrefix|..]) else Err(ValueError)
  }

  lemma SqlitePathRoundTrip(path: string)
    ensures SqlitePath(Config.SqlitePrefix + path) == Ok(path)
  {
    assert (Config.SqlitePrefix + path)[..|Config.SqlitePrefix|] == Config.SqlitePrefix;
  }

  /** The default database URL is one `_sqlite_path` accepts. */
  lemma DefaultUrlAccepted()
    ensures SqlitePath(Config.DefaultSettings().databaseUrl).Ok?
  {
  }

  datatype Table = MarketsTable | ClustersTable | MarketClustersTable

  const AllTables: set<Table> := {MarketsTable, ClustersTable, MarketClustersTable}

  /** A row of `markets`; `None` is SQL NULL. */
  datatype MarketRow = MarketRow(
    id: string,
    question: string,
    description: Option<string>,
    startTime: Option<string>,
    endTime: Option<string>,
    durationDays: Option<real>,
    tags: Option<string>,
    resolvedOutcome: Option<string>,
    isBinary: int,
    slug: Option<string>,
    source: string)

  /** A row of `clusters`. */
  datatype ClusterRow = ClusterRow(clusterId: string, category: string, labelRationale: Option<string>)

  /** A row of `market_clusters`: (market_id, cluster_id). */
  type Assignment = (string, string)

  /** `json.dumps` on a tag list, and `json.loads` on a cell (None when it raises
      `JSONDecodeError`). */
  type Dumps = seq<string> -> string
  type Loads = string -> Option<Json>

  /** `datetime.fromisoformat(text.replace("Z", "+00:00"))`, None when it raises. */
  type ParseTime = string -> Option<Timestamp>

  /** What `json.loads` does with what `json.dumps` wrote: the list comes back. */
  predicate CodecRoundTrips(dumps: Dumps, loads: Loads, tags: seq<string>) {
    dumps(tags) != "" && loads(dumps(tags)) == Some(FromStrings(tags))
  }

  /** The parameters `write_markets` binds for one market. */
  function EncodeMarket(m: Market, dumps: Dumps): (row: MarketRow)
    ensures row.id == m.id
  {
    MarketRow(
      m.id, m.question,
      Some(m.description.GetOr("")),
      if m.startTime.Some? then Some(m.startTime.value.iso) else None,
      if m.endTime.Some? then Some(m.endTime.value.iso) else None,
      m.durationDays,
      Some(dumps(m.tags)),
      if m.resolvedOutcome.Some? then Some(OutcomeText(m.resolvedOutcome.value)) else None,
      if m.isBinary then 1 else 0,
      Some(m.slug.GetOr("")),
      m.source)
  }

  /** The `tags` of a row: [] for NULL, "" or text that is not JSON; the loaded value
      must then be a list of strings, or the `Market` constructor raises (None here). */
  function DecodeTags(cell: Option<string>, loads: Loads): (r: Option<seq<string>>)
    ensures cell.None? || cell.value == "" ==> r == Some([])
    ensures cell.Some? && cell.value != "" && loads(cell.value).None? ==> r == Some([])
    ensures cell.Some? && cell.value != "" && loads(cell.value).Some? ==>
              r == StringList(loads(cell.value).value)
  {
    if cell.None? || cell.value == "" then Some([])
    else match loads(cell.value)
      case None => Some([])
      case Some(v) => StringList(v)
  }

  /** A nullable text column where "" also reads as None. */
  function NonEmpty(cell: Option<string>): (r: Option<string>)
    ensures r.Some? <==> cell.Some? && cell.value != ""
    ensures r.Some? ==> r == cell
  {
    if cell.Some? && cell.value != "" then cell else None
  }

  function DecodeTime(cell: Option<string>, parse: ParseTime): Option<Timestamp> {
    if cell.Some? && cell.value != "" then parse(cell.value) else None
  }

  /** One loop iteration of `read_markets`: the `Market` built from a row, or the
      `ValidationError` its constructor raises. */
  function DecodeMarket(row: MarketRow, loads: Loads, parse: ParseTime): (r: Result<Market>)
    ensures r.Err? <==> row.question == "" || DecodeTags(row.tags, loads).None?
    ensures r.Err? ==> r.error == ValidationError
    ensures r.Ok? ==> ValidMarket(r.value) && r.value.id == row.id
    ensures r.Ok? ==> r.value.description != Some("") && r.value.slug != Some("")
    ensures r.Ok? ==> r.value.source != "" && r.value.isBinary == (row.isBinary != 0)
    ensures r.Ok? ==> r.value.resolvedOutcome == ParseOutcome(row.resolvedOutcome.GetOr(""))
  {
    var tags := DecodeTags(row.tags, loads);
    if row.question == "" || tags.None? then Err(ValidationError)
    else Ok(Market(
      row.id, row.question, NonEmpty(row.description),
      DecodeTime(row.startTime, parse), DecodeTime(row.endTime, parse),
      row.durationDays, tags.value, ParseOutcome(row.resolvedOutcome.GetOr("")),
      row.isBinary != 0, NonEmpty(row.slug), if row.source == "" then "csv" else row.source))
  }

  /** Writing a valid market and reading it back keeps id, question, tags, duration,
      outcome and the binary flag; an empty description or slug reads as None, an empty
      source as "csv", and a timestamp comes back when the parser accepts its text. */
  lemma MarketRoundTrip(m: Market, dumps: Dumps, loads: Loads, parse: ParseTime)
    requires ValidMarket(m)
    requires CodecRoundTrips(dumps, loads, m.tags)
    ensures var r := DecodeMarket(EncodeMarket(m, dumps), loads, parse);
            && r.Ok?
            && r.value.id == m.id && r.value.question == m.question
            && r.value.tags == m.tags && r.value.durationDays == m.durationDays
            && r.value.resolvedOutcome == m.resolvedOutcome && r.value.isBinary == m.isBinary
            && r.value.description == (if m.description == Some("") then None else m.description)
            && r.value.slug == (if m.slug == Some("") then None else m.slug)
            && r.value.source == (if m.source == "" then "csv" else m.source)
            && ((m.startTime.Some? && m.startTime.value.iso != "" &&
                 parse(m.startTime.value.iso) == m.startTime) ==> r.value.startTime == m.startTime)
            && ((m.endTime.Some? && m.endTime.value.iso != "" &&
                 parse(m.endTime.value.iso) == m.endTime) ==> r.value.endTime == m.endTime)
  {
    StringListRoundTrip(m.tags);
    if m.resolvedOutcome.Some? {
      OutcomeTextRoundTrip(m.resolvedOutcome.value);
    }
  }

  /** Malformed cells read leniently: an unknown outcome as None, tags that are not JSON
      as []. */
  lemma LenientDecoding(row: MarketRow, loads: Loads, parse: ParseTime)
    requires row.question != "" && row.tags.Some? && row.tags.value != ""
    requires loads(row.tags.value).None?
    requires row.resolvedOutcome == Some("yes")
    ensures var r := DecodeMarket(row, loads, parse);
            r.Ok? && r.value.tags == [] && r.value.resolvedOutcome.None?
  {
  }

  /** The position of the last market with id `id`, or -1. */
  function LastWithId(ms: seq<Market>, id: string): (i: int)
    ensures -1 <= i < |ms|
    ensures i >= 0 ==> ms[i].id == id
    ensures forall j :: i < j < |ms| ==> ms[j].id != id
    decreases |ms|
  {
    if ms == [] then -1 else if ms[|ms| - 1].id == id then |ms| - 1 else LastWithId(ms[..|ms| - 1], id)
  }

  /** The `markets` table after `INSERT OR REPLACE` of each market in turn. */
  function UpsertMarkets(table: map<string, MarketRow>, ms: seq<Market>, dumps: Dumps): map<string, MarketRow>
    decreases |ms|
  {
    if ms == [] then table
    else UpsertMarkets(table, ms[..|ms| - 1], dumps)[ms[|ms| - 1].id := EncodeMarket(ms[|ms| - 1], dumps)]
  }

  /** Upsert by id: an id in the input holds the row of its last occurrence; every other
      row is untouched. */
  lemma {:induction false} UpsertMarketsById(table: map<string, MarketRow>, ms: seq<Market>,
                                              dumps: Dumps, id: string)
    ensures var t := UpsertMarkets(table, ms, dumps);
            && (LastWithId(ms, id) >= 0 ==> id in t && t[id] == EncodeMarket(ms[LastWithId(ms, id)], dumps))
            && (LastWithId(ms, id) < 0 ==> (id in t <==> id in table) && (id in table ==> t[id] == table[id]))
    decreases |ms|
  {
    if ms != [] {
      UpsertMarketsById(table, ms[..|ms| - 1], dumps, id);
    }
  }

  /** Every row of the table is stored under its own id. */
  predicate KeyedById(table: map<string, MarketRow>) {
    forall id :: id in table ==> table[id].id == id
  }

  lemma {:induction false} UpsertKeepsKeys(table: map<string, MarketRow>, ms: seq<Market>, dumps: Dumps)
    requires KeyedById(table)
    ensures KeyedById(UpsertMarkets(table, ms, dumps))
    decreases |ms|
  {
    if ms != [] {
      UpsertKeepsKeys(table, ms[..|ms| - 1], dumps);
    }
  }

  /** The `clusters` row that `write_clusters` inserts for a cluster. */
  function ClusterRowOf(c: Cluster): ClusterRow {
    ClusterRow(c.clusterId, c.category, Some(c.labelRationale.GetOr("")))
  }

  predicate HasRow(rows: seq<ClusterRow>, cid: string) {
    exists k :: 0 <= k < |rows| && rows[k].clusterId == cid
  }

  predicate UniqueClusterIds(rows: seq<ClusterRow>) {
    forall i, j :: 0 <= i < j < |rows| ==> rows[i].clusterId != rows[j].clusterId
  }

  function RowKey(x: ClusterRow): string { x.clusterId }

  /** The rows `INSERT OR REPLACE` keeps when it writes cluster `id`. */
  function OtherCluster(id: string): ClusterRow -> bool {
    (x: ClusterRow) => x.clusterId != id
  }

  lemma KeptRowsUnique(rows: seq<ClusterRow>, id: string)
    requires UniqueClusterIds(rows)
    ensures var kept := Filter(rows, OtherCluster(id));
            UniqueClusterIds(kept) && forall i :: 0 <= i < |kept| ==> kept[i].clusterId != id
  {
    var kept := Filter(rows, OtherCluster(id));
    assert UniqueBy(rows, RowKey) by {
      forall i, j | 0 <= i < j < |rows| ensures RowKey(rows[i]) != RowKey(rows[j]) {
      }
    }
    FilterUniqueBy(rows, OtherCluster(id), RowKey);
    forall i, j | 0 <= i < j < |kept| ensures kept[i].clusterId != kept[j].clusterId {
      assert RowKey(kept[i]) != RowKey(kept[j]);
    }
    forall i | 0 <= i < |kept| ensures kept[i].clusterId != id {
      assert OtherCluster(id)(kept[i]);
    }
  }

  /** `INSERT OR REPLACE INTO clusters`. */
  function UpsertRow(rows: seq<ClusterRow>, row: ClusterRow): (r: seq<ClusterRow>)
    ensures UniqueClusterIds(rows) ==> UniqueClusterIds(r)
    ensures forall x :: x in r <==> x == row || (x in rows && x.clusterId != row.clusterId)
    ensures !HasRow(rows, row.clusterId) ==> r == rows + [row]
  {
    if !HasRow(rows, row.clusterId) then
      FilterAll(rows, OtherCluster(row.clusterId));
      Filter(rows, OtherCluster(row.clusterId)) + [row]
    else if UniqueClusterIds(rows) then
      KeptRowsUnique(rows, row.clusterId);
      Filter(rows, OtherCluster(row.clusterId)) + [row]
    else Filter(rows, OtherCluster(row.clusterId)) + [row]
  }

  /** Assigned(asg, m, c): the row (m, c) is in `market_clusters`. */
  predicate Assigned(asg: seq<Assignment>, m: string, c: string) {
    (m, c) in asg
  }

  /** The primary key on `market_id`: each market occurs in at most one row. */
  predicate OneClusterEach(asg: seq<Assignment>) {
    forall i, j :: 0 <= i < j < |asg| ==> asg[i].0 != asg[j].0
  }

  function MarketKey(a: Assignment): string { a.0 }

  /** The rows `INSERT OR REPLACE` keeps when it writes market `m`. */
  function OtherMarket(m: string): Assignment -> bool {
    (a: Assignment) => a.0 != m
  }

  lemma KeptAssignmentsUnique(asg: seq<Assignment>, m: string)
    requires OneClusterEach(asg)
    ensures var kept := Filter(asg, OtherMarket(m));
            OneClusterEach(kept) && forall i :: 0 <= i < |kept| ==> kept[i].0 != m
  {
    var kept := Filter(asg, OtherMarket(m));
    assert UniqueBy(asg, MarketKey) by {
      forall i, j | 0 <= i < j < |asg| ensures MarketKey(asg[i]) != MarketKey(asg[j]) {
      }
    }
    FilterUniqueBy(asg, OtherMarket(m), MarketKey);
    forall i, j | 0 <= i < j < |kept| ensures kept[i].0 != kept[j].0 {
      assert MarketKey(kept[i]) != MarketKey(kept[j]);
    }
    forall i | 0 <= i < |kept| ensures kept[i].0 != m {
      assert OtherMarket(m)(kept[i]);
    }
  }

  /** `INSERT OR REPLACE INTO market_clusters`. */
  function Assign(asg: seq<Assignment>, m: string, c: string): (r: seq<Assignment>)
    ensures OneClusterEach(asg) ==> OneClusterEach(r)
    ensures forall m', c' :: Assigned(r, m', c') <==> (m' == m && c' == c) || (m' != m && Assigned(asg, m', c'))
  {
    if OneClusterEach(asg) then
      KeptAssignmentsUnique(asg, m);
      Filter(asg, OtherMarket(m)) + [(m, c)]
    else Filter(asg, OtherMarket(m)) + [(m, c)]
  }

  /** The inner loop of `write_clusters`: assign every market of one cluster. */
  function AssignAll(asg: seq<Assignment>, mids: seq<string>, c: string): seq<Assignment>
    decreases |mids|
  {
    if mids == [] then asg else Assign(AssignAll(asg, mids[..|mids| - 1], c), mids[|mids| - 1], c)
  }

  lemma {:induction false} AssignAllSpec(asg: seq<Assignment>, mids: seq<string>, c: string)
    requires OneClusterEach(asg)
    ensures OneClusterEach(AssignAll(asg, mids, c))
    ensures forall m', c' :: Assigned(AssignAll(asg, mids, c), m', c') <==>
              (m' in mids && c' == c) || (m' !in mids && Assigned(asg, m', c'))
    decreases |mids|
  {
    if mids != [] {
      AssignAllSpec(asg, mids[..|mids| - 1], c);
      assert mids == mids[..|mids| - 1] + [mids[|mids| - 1]];
    }
  }

  /** The `clusters` rows after `write_clusters(cs)` (which first deletes all rows). */
  function WrittenRows(cs: seq<Cluster>): seq<ClusterRow>
    decreases |cs|
  {
    if cs == [] then [] else UpsertRow(WrittenRows(cs[..|cs| - 1]), ClusterRowOf(cs[|cs| - 1]))
  }

  /** The `market_clusters` rows after `write_clusters(cs)`. */
  function WrittenAssignments(cs: seq<Cluster>): seq<Assignment>
    decreases |cs|
  {
    if cs == [] then []
    else AssignAll(WrittenAssignments(cs[..|cs| - 1]), cs[|cs| - 1].marketIds, cs[|cs| - 1].clusterId)
  }

  /** The cluster a market ends up in: the last input cluster listing it. */
  function Owner(cs: seq<Cluster>, m: string): (r: Option<string>)
    ensures r.None? <==> forall i :: 0 <= i < |cs| ==> m !in cs[i].marketIds
    decreases |cs|
  {
    if cs == [] then None
    else if m in cs[|cs| - 1].marketIds then Some(cs[|cs| - 1].clusterId)
    else Owner(cs[..|cs| - 1], m)
  }

  /** Each market is assigned to at most one cluster, and a market listed in several
      input clusters is assigned to the last of them. */
  lemma {:induction false} WrittenAssignmentsOwner(cs: seq<Cluster>)
    ensures OneClusterEach(WrittenAssignments(cs))
    ensures forall m, c :: Assigned(WrittenAssignments(cs), m, c) <==> Owner(cs, m) == Some(c)
    decreases |cs|
  {
    if cs != [] {
      var init := cs[..|cs| - 1];
      WrittenAssignmentsOwner(init);
      AssignAllSpec(WrittenAssignments(init), cs[|cs| - 1].marketIds, cs[|cs| - 1].clusterId);
    }
  }

  /** After an `INSERT OR REPLACE`, an id has a row iff it is the new row's or had one. */
  lemma UpsertRowHas(rows: seq<ClusterRow>, row: ClusterRow, cid: string)
    ensures HasRow(UpsertRow(rows, row), cid) <==> cid == row.clusterId || HasRow(rows, cid)
  {
    var r := UpsertRow(rows, row);
    if HasRow(r, cid) && cid != row.clusterId {
      var k :| 0 <= k < |r| && r[k].clusterId == cid;
      assert r[k] in r;
      var k' :| 0 <= k' < |rows| && rows[k'] == r[k];
    }
    if cid == row.clusterId {
      assert row in r;
      var k :| 0 <= k < |r| && r[k] == row;
    } else if HasRow(rows, cid) {
      var k :| 0 <= k < |rows| && rows[k].clusterId == cid;
      assert rows[k] in r;
      var k' :| 0 <= k' < |r| && r[k'] == rows[k];
    }
  }

  /** A cluster id has a row after `write_clusters(cs)` iff some input cluster has it. */
  lemma {:induction false} WrittenRowsHas(cs: seq<Cluster>, cid: string)
    ensures HasRow(WrittenRows(cs), cid) <==> exists i :: 0 <= i < |cs| && cs[i].clusterId == cid
    decreases |cs|
  {
    if cs != [] {
      var init := cs[..|cs| - 1];
      WrittenRowsHas(init, cid);
      assert WrittenRows(cs) == UpsertRow(WrittenRows(init), ClusterRowOf(cs[|cs| - 1]));
      UpsertRowHas(WrittenRows(init), ClusterRowOf(cs[|cs| - 1]), cid);
      InputHasSnoc(cs, cid);
    }
  }

  ghost predicate InputHas(cs: seq<Cluster>, cid: string) {
    exists i :: 0 <= i < |cs| && cs[i].clusterId == cid
  }

  lemma InputHasSnoc(cs: seq<Cluster>, cid: string)
    requires cs != []
    ensures InputHas(cs, cid) <==> cs[|cs| - 1].clusterId == cid || InputHas(cs[..|cs| - 1], cid)
  {
    var init := cs[..|cs| - 1];
    if exists i :: 0 <= i < |cs| && cs[i].clusterId == cid {
      var i :| 0 <= i < |cs| && cs[i].clusterId == cid;
      if i < |init| {
        assert init[i] == cs[i];
      }
    }
    if exists i :: 0 <= i < |init| && init[i].clusterId == cid {
      var i :| 0 <= i < |init| && init[i].clusterId == cid;
      assert cs[i] == init[i];
    }
  }

  lemma {:induction false} WrittenRowsUnique(cs: seq<Cluster>)
    ensures UniqueClusterIds(WrittenRows(cs))
    decreases |cs|
  {
    if cs != [] {
      WrittenRowsUnique(cs[..|cs| - 1]);
    }
  }

  /** One row per distinct cluster id of the input. */
  lemma WrittenRowsSpec(cs: seq<Cluster>)
    ensures UniqueClusterIds(WrittenRows(cs))
    ensures forall cid :: HasRow(WrittenRows(cs), cid) <==> exists i :: 0 <= i < |cs| && cs[i].clusterId == cid
  {
    WrittenRowsUnique(cs);
    forall cid ensures HasRow(WrittenRows(cs), cid) <==> exists i :: 0 <= i < |cs| && cs[i].clusterId == cid {
      WrittenRowsHas(cs, cid);
    }
  }

  /** With distinct input ids nothing is replaced: one row per cluster, in input order. */
  lemma {:induction false} WrittenRowsDistinct(cs: seq<Cluster>)
    requires forall i, j :: 0 <= i < j < |cs| ==> cs[i].clusterId != cs[j].clusterId
    ensures WrittenRows(cs) == Map(cs, ClusterRowOf)
    decreases |cs|
  {
    if cs != [] {
      var n := |cs| - 1;
      var init := cs[..n];
      DistinctPrefix(cs);
      WrittenRowsDistinct(init);
      NewIdNoRow(cs);
      MapSnocRow(cs);
    }
  }

  /** Distinct ids stay distinct in a prefix. */
  lemma DistinctPrefix(cs: seq<Cluster>)
    requires cs != []
    requires forall i, j :: 0 <= i < j < |cs| ==> cs[i].clusterId != cs[j].clusterId
    ensures var init := cs[..|cs| - 1];
            forall i, j :: 0 <= i < j < |init| ==> init[i].clusterId != init[j].clusterId
  {
  }

  /** With distinct ids, the rows of the earlier clusters do not have the last one's id. */
  lemma NewIdNoRow(cs: seq<Cluster>)
    requires cs != []
    requires forall i, j :: 0 <= i < j < |cs| ==> cs[i].clusterId != cs[j].clusterId
    ensures !HasRow(Map(cs[..|cs| - 1], ClusterRowOf), cs[|cs| - 1].clusterId)
  {
    var rows := Map(cs[..|cs| - 1], ClusterRowOf);
    forall k | 0 <= k < |rows| ensures rows[k].clusterId != cs[|cs| - 1].clusterId {
      assert rows[k] == ClusterRowOf(cs[k]);
    }
  }

  /** The rows of the clusters, the last one split off. */
  lemma MapSnocRow(cs: seq<Cluster>)
    requires cs != []
    ensures Map(cs, ClusterRowOf) == Map(cs[..|cs| - 1], ClusterRowOf) + [ClusterRowOf(cs[|cs| - 1])]
  {
  }

  /** The market ids `read_clusters` collects for `cid`, in `market_clusters` row order. */
  function Members(asg: seq<Assignment>, cid: string): (r: seq<string>)
    ensures forall m :: m in r <==> Assigned(asg, m, cid)
    decreases |asg|
  {
    if asg == [] then []
    else
      var init := asg[..|asg| - 1];
      assert asg == init + [asg[|asg| - 1]];
      Members(init, cid) + (if asg[|asg| - 1].1 == cid then [asg[|asg| - 1].0] else [])
  }

  /** The `Cluster` that `read_clusters` builds from a row and its members. */
  function DecodeCluster(row: ClusterRow, members: seq<string>): (c: Cluster)
    ensures c.clusterId == row.clusterId && c.marketIds == members
    ensures c.category != "" && c.labelRationale != Some("")
    ensures row.category != "" ==> c.category == row.category
    ensures c.labelRationale.Some? <==> row.labelRationale.Some? && row.labelRationale.value != ""
  {
    Cluster(row.clusterId, members, if row.category == "" then "other" else row.category,
            NonEmpty(row.labelRationale))
  }

  /** Reading back what `write_clusters(cs)` wrote: each cluster lists exactly the markets
      whose last listing in the input was that cluster. */
  lemma ReadAfterWrite(cs: seq<Cluster>, i: nat, m: string)
    requires i < |WrittenRows(cs)|
    ensures var cid := WrittenRows(cs)[i].clusterId;
            m in Members(WrittenAssignments(cs), cid) <==> Owner(cs, m) == Some(cid)
  {
    WrittenAssignmentsOwner(cs);
  }

  /** Writes to store functions that the pipeline imports from `semantic_agent.store` but
      whose code is not part of this model. A stage returns the calls it makes, with their
      arguments, as its `writes`; they have no effect on the tables. */
  datatype StoreCall =
    | WriteRelationsForCluster(clusterId: string, relations: seq<MarketRelation>)
    | UpdateClusterLabels(labels: map<string, (string, Option<string>)>)

  /** Every row of the table decodes. */
  ghost predicate AllRowsDecode(table: map<string, MarketRow>, loads: Loads, parse: ParseTime) {
    forall id :: id in table ==> DecodeMarket(table[id], loads, parse).Ok?
  }

  /** `out` holds the decoded rows of `table`, each exactly once, in some order. */
  ghost predicate DecodesTable(out: seq<Market>, table: map<string, MarketRow>, loads: Loads, parse: ParseTime) {
    && |out| == |table|
    && (forall k :: 0 <= k < |out| ==>
          out[k].id in table && DecodeMarket(table[out[k].id], loads, parse) == Ok(out[k]))
    && (forall id :: id in table ==> exists k :: 0 <= k < |out| && out[k].id == id)
    && (forall i, j :: 0 <= i < j < |out| ==> out[i].id != out[j].id)
  }

  /** The end of the decoding loop: every key was visited once, so `out` decodes the
      whole table. */
  lemma CollectedAll(table: map<string, MarketRow>, ids: seq<string>, out: seq<Market>,
                     loads: Loads, parse: ParseTime)
    requires KeyedById(table)
    requires |ids| == |out| == |table| && Distinct(ids)
    requires forall k :: 0 <= k < |ids| ==> ids[k] in table
    requires forall k :: 0 <= k < |ids| ==> DecodeMarket(table[ids[k]], loads, parse) == Ok(out[k])
    requires forall id :: id in table ==> id in ids
    ensures AllRowsDecode(table, loads, parse)
    ensures DecodesTable(out, table, loads, parse)
  {
    forall k | 0 <= k < |out| ensures out[k].id == ids[k] {
      assert DecodeMarket(table[ids[k]], loads, parse) == Ok(out[k]);
    }
    forall id | id in table ensures DecodeMarket(table[id], loads, parse).Ok? {
      var k :| 0 <= k < |ids| && ids[k] == id;
    }
    forall id | id in table ensures exists k :: 0 <= k < |out| && out[k].id == id {
      var k :| 0 <= k < |ids| && ids[k] == id;
      assert out[k].id == id;
    }
  }

  /** The decoding loop of `read_markets` over the fetched rows, taken in an arbitrary
      order; the first row that fails validation raises. */
  method DecodeRows(table: map<string, MarketRow>, loads: Loads, parse: ParseTime)
    returns (r: Result<seq<Market>>)
    requires KeyedById(table)
    ensures r.Ok? <==> AllRowsDecode(table, loads, parse)
    ensures r.Err? ==> r.error == ValidationError
    ensures r.Ok? ==> DecodesTable(r.value, table, loads, parse)
  {
    var remaining := table.Keys;
    ghost var ids: seq<string> := [];
    var out: seq<Market> := [];
    while remaining != {}
      invariant Visited(table, remaining, ids, out, loads, parse)
      decreases |remaining|
    {
      var id :| id in remaining;
      var d := DecodeMarket(table[id], loads, parse);
      if d.Err? {
        return Err(d.error);
      }
      VisitStep(table, remaining, ids, out, loads, parse, id, d.value);
      out := out + [d.value];
      ids := ids + [id];
      remaining := remaining - {id};
    }
    CollectedAll(table, ids, out, loads, parse);
    r := Ok(out);
  }

  /** The invariant of the decoding loop: `ids` are the keys visited so far, each once,
      `out` their decoded rows, and `remaining` the keys still to visit. */
  ghost predicate Visited(table: map<string, MarketRow>, remaining: set<string>, ids: seq<string>,
                          out: seq<Market>, loads: Loads, parse: ParseTime) {
    && remaining <= table.Keys
    && |ids| == |out| && |ids| + |remaining| == |table|
    && (forall k :: 0 <= k < |ids| ==> ids[k] in table && ids[k] !in remaining)
    && (forall k :: 0 <= k < |ids| ==> DecodeMarket(table[ids[k]], loads, parse) == Ok(out[k]))
    && (forall id :: id in table ==> id in remaining || id in ids)
    && Distinct(ids)
  }

  /** Visiting one more key that decodes keeps the invariant. */
  lemma VisitStep(table: map<string, MarketRow>, remaining: set<string>, ids: seq<string>,
                  out: seq<Market>, loads: Loads, parse: ParseTime, id: string, m: Market)
    requires Visited(table, remaining, ids, out, loads, parse)
    requires id in remaining && DecodeMarket(table[id], loads, parse) == Ok(m)
    ensures Visited(table, remaining - {id}, ids + [id], out + [m], loads, parse)
  {
    var ids', out' := ids + [id], out + [m];
    assert |remaining - {id}| == |remaining| - 1;
    forall k | 0 <= k < |ids'| ensures ids'[k] in table && ids'[k] !in remaining - {id} {
      if k < |ids| { assert ids'[k] == ids[k]; }
    }
    forall k | 0 <= k < |ids'| ensures DecodeMarket(table[ids'[k]], loads, parse) == Ok(out'[k]) {
      if k < |ids| { assert ids'[k] == ids[k] && out'[k] == out[k]; }
    }
    assert Distinct(ids') by {
      forall a, b | 0 <= a < b < |ids'| ensures ids'[a] != ids'[b] {
        if b < |ids| { assert ids'[a] == ids[a] && ids'[b] == ids[b]; }
        else { assert ids'[a] == ids[a]; }
      }
    }
  }

  /** The inner loop of `write_clusters`: `INSERT OR REPLACE` of (market_id, cluster_id)
      for every market of one cluster, in order. */
  method AssignMarkets(asg: seq<Assignment>, mids: seq<string>, cid: string) returns (r: seq<Assignment>)
    requires OneClusterEach(asg)
    ensures r == AssignAll(asg, mids, cid)
    ensures OneClusterEach(r)
    ensures forall m, c :: Assigned(r, m, c) <==> (m in mids && c == cid) || (m !in mids && Assigned(asg, m, c))
  {
    r := asg;
    var j := 0;
    while j < |mids|
      invariant 0 <= j <= |mids|
      invariant r == AssignAll(asg, mids[..j], cid)
      invariant OneClusterEach(r)
    {
      assert mids[..j + 1][..j] == mids[..j];
      r := Assign(r, mids[j], cid);
      j := j + 1;
    }
    assert mids[..j] == mids;
    AssignAllSpec(asg, mids, cid);
  }

  /** `by_cluster = {cid: [] for each clusters row}`. */
  method EmptyGroups(rows: seq<ClusterRow>) returns (byCluster: map<string, seq<string>>)
    ensures forall cid :: cid in byCluster <==> HasRow(rows, cid)
    ensures forall cid :: cid in byCluster ==> byCluster[cid] == []
  {
    byCluster := map[];
    var k := 0;
    while k < |rows|
      invariant 0 <= k <= |rows|
      invariant forall cid :: cid in byCluster <==> exists j :: 0 <= j < k && rows[j].clusterId == cid
      invariant forall cid :: cid in byCluster ==> byCluster[cid] == []
    {
      byCluster := byCluster[rows[k].clusterId := []];
      k := k + 1;
    }
  }

  /** The grouping loops of `read_clusters`: every assignment whose cluster has a row is
      appended to that cluster's list, in `market_clusters` row order. */
  method GroupMembers(rows: seq<ClusterRow>, asg: seq<Assignment>) returns (byCluster: map<string, seq<string>>)
    ensures forall cid :: cid in byCluster <==> HasRow(rows, cid)
    ensures forall cid :: cid in byCluster ==> byCluster[cid] == Members(asg, cid)
  {
    byCluster := EmptyGroups(rows);
    var i := 0;
    while i < |asg|
      invariant 0 <= i <= |asg|
      invariant forall cid :: cid in byCluster <==> HasRow(rows, cid)
      invariant forall cid :: cid in byCluster ==> byCluster[cid] == Members(asg[..i], cid)
    {
      var a := asg[i];
      assert asg[..i + 1][..i] == asg[..i];
      if a.1 in byCluster {
        byCluster := byCluster[a.1 := byCluster[a.1] + [a.0]];
      }
      i := i + 1;
    }
    assert asg[..i] == asg;
  }

  /** The result list of `read_clusters`, one cluster per row. */
  method DecodeClusters(rows: seq<ClusterRow>, asg: seq<Assignment>, byCluster: map<string, seq<string>>)
    returns (out: seq<Cluster>)
    requires forall cid :: cid in byCluster <==> HasRow(rows, cid)
    requires forall cid :: cid in byCluster ==> byCluster[cid] == Members(asg, cid)
    ensures |out| == |rows|
    ensures forall j :: 0 <= j < |rows| ==> out[j] == DecodeCluster(rows[j], Members(asg, rows[j].clusterId))
  {
    out := [];
    var k := 0;
    while k < |rows|
      invariant 0 <= k <= |rows|
      invariant |out| == k
      invariant forall j :: 0 <= j < k ==> out[j] == DecodeCluster(rows[j], Members(asg, rows[j].clusterId))
    {
      var row := rows[k];
      assert HasRow(rows, row.clusterId);
      out := out + [DecodeCluster(row, byCluster[row.clusterId])];
      k := k + 1;
    }
  }

  class Database {
    var fileExists: bool
    var tables: set<Table>
    var markets: map<string, MarketRow>
    var clusterRows: seq<ClusterRow>
    var assignments: seq<Assignment>

    /** The primary keys hold, and a table that does not exist has no rows. */
    ghost predicate Valid()
      reads this
    {
      && KeyedById(markets)
      && UniqueClusterIds(clusterRows)
      && OneClusterEach(assignments)
      && (!fileExists ==> tables == {})
      && (MarketsTable !in tables ==> markets == map[])
      && (ClustersTable !in tables ==> clusterRows == [])
      && (MarketClustersTable !in tables ==> assignments == [])
    }

    /** No database file yet. */
    constructor ()
      ensures Valid() && !fileExists && tables == {}
    {
      fileExists := false;
      tables := {};
      markets := map[];
      clusterRows := [];
      assignments := [];
    }

    /** `init_schema(database_url)`: creates the file and whichever tables are absent;
        existing rows are kept, so a second call changes nothing. */
    method InitSchema(url: string) returns (r: Result<()>)
      requires Valid()
      modifies this
      ensures Valid()
      ensures SqlitePath(url).Err? ==> r == Err(ValueError) && unchanged(this)
      ensures SqlitePath(url).Ok? ==> r == Ok(()) && fileExists && tables == old(tables) + AllTables
      ensures markets == old(markets) && clusterRows == old(clusterRows)
      ensures assignments == old(assignments)
    {
      var p := SqlitePath(url);
      if p.Err? {
        return Err(ValueError);
      }
      fileExists := true;
      tables := tables + AllTables;
      r := Ok(());
    }

    /** `write_markets(markets, database_url)`: an empty list returns before the URL is
        looked at; otherwise each market is upserted by id. */
    method WriteMarkets(ms: seq<Market>, url: string, dumps: Dumps) returns (r: Result<()>)
      requires Valid()
      modifies this
      ensures Valid()
      ensures ms == [] ==> r == Ok(()) && unchanged(this)
      ensures ms != [] && SqlitePath(url).Err? ==> r == Err(ValueError) && unchanged(this)
      ensures ms != [] && SqlitePath(url).Ok? ==>
                r == Ok(()) && fileExists && tables == old(tables) + AllTables &&
                markets == UpsertMarkets(old(markets), ms, dumps)
      ensures clusterRows == old(clusterRows) && assignments == old(assignments)
    {
      if ms == [] {
        return Ok(());
      }
      var p := SqlitePath(url);
      if p.Err? {
        return Err(ValueError);
      }
      r := InitSchema(url);
      var i := 0;
      while i < |ms|
        invariant 0 <= i <= |ms|
        invariant markets == UpsertMarkets(old(markets), ms[..i], dumps)
        invariant KeyedById(markets)
        invariant fileExists && tables == old(tables) + AllTables
        invariant clusterRows == old(clusterRows) && assignments == old(assignments)
        invariant r == Ok(())
      {
        assert ms[..i + 1][..i] == ms[..i];
        markets := markets[ms[i].id := EncodeMarket(ms[i], dumps)];
        i := i + 1;
      }
      assert ms[..i] == ms;
    }

    /** `read_markets(database_url)`: a missing file gives []; otherwise every row is
        decoded, in no particular order (the query has no ORDER BY), and the first row
        that fails validation makes the whole call fail. */
    method ReadMarkets(url: string, loads: Loads, parse: ParseTime) returns (r: Result<seq<Market>>)
      requires Valid()
      ensures SqlitePath(url).Err? ==> r == Err(ValueError)
      ensures SqlitePath(url).Ok? && !fileExists ==> r == Ok([])
      ensures SqlitePath(url).Ok? && fileExists && MarketsTable !in tables ==> r == Err(DatabaseError)
      ensures SqlitePath(url).Ok? && fileExists && MarketsTable in tables ==>
                (r.Ok? <==> AllRowsDecode(markets, loads, parse))
      ensures r.Err? ==> r.error in {ValueError, DatabaseError, ValidationError}
      ensures r.Ok? ==> DecodesTable(r.value, markets, loads, parse)
    {
      var p := SqlitePath(url);
      if p.Err? {
        return Err(ValueError);
      }
      if !fileExists {
        return Ok([]);
      }
      if MarketsTable !in tables {
        return Err(DatabaseError);
      }
      r := DecodeRows(markets, loads, parse);
    }

    /** `write_clusters(clusters, database_url)`: an empty list changes nothing; otherwise
        both cluster tables are emptied and then refilled from the input alone. */
    method WriteClusters(cs: seq<Cluster>, url: string) returns (r: Result<()>)
      requires Valid()
      modifies this
      ensures Valid()
      ensures cs == [] ==> r == Ok(()) && unchanged(this)
      ensures cs != [] && SqlitePath(url).Err? ==> r == Err(ValueError) && unchanged(this)
      ensures cs != [] && SqlitePath(url).Ok? ==>
                r == Ok(()) && fileExists && tables == old(tables) + AllTables &&
                clusterRows == WrittenRows(cs) && assignments == WrittenAssignments(cs)
      ensures markets == old(markets)
    {
      if cs == [] {
        return Ok(());
      }
      var p := SqlitePath(url);
      if p.Err? {
        return Err(ValueError);
      }
      r := InitSchema(url);
      assignments := [];
      clusterRows := [];
      var i := 0;
      while i < |cs|
        invariant 0 <= i <= |cs|
        invariant clusterRows == WrittenRows(cs[..i])
        invariant assignments == WrittenAssignments(cs[..i])
        invariant UniqueClusterIds(clusterRows) && OneClusterEach(assignments)
        invariant fileExists && tables == old(tables) + AllTables && markets == old(markets)
        invariant r == Ok(())
      {
        var c := cs[i];
        assert cs[..i + 1][..i] == cs[..i];
        clusterRows := UpsertRow(clusterRows, ClusterRowOf(c));
        assignments := AssignMarkets(assignments, c.marketIds, c.clusterId);
        i := i + 1;
      }
      assert cs[..i] == cs;
    }

    /** `read_clusters(database_url)`: one cluster per `clusters` row, in row order, each
        with the market ids of the assignments that point at it; assignments to a cluster
        without a row are dropped. */
    method ReadClusters(url: string) returns (r: Result<seq<Cluster>>)
      requires Valid()
      ensures SqlitePath(url).Err? ==> r == Err(ValueError)
      ensures SqlitePath(url).Ok? && !fileExists ==> r == Ok([])
      ensures (SqlitePath(url).Ok? && fileExists &&
               (ClustersTable !in tables || MarketClustersTable !in tables)) ==> r == Err(DatabaseError)
      ensures SqlitePath(url).Ok? && fileExists && ClustersTable in tables && MarketClustersTable in tables ==>
                r.Ok?
      ensures r.Ok? ==> |r.value| == |clusterRows|
      ensures r.Ok? ==> forall k :: 0 <= k < |r.value| ==>
                r.value[k] == DecodeCluster(clusterRows[k], Members(assignments, clusterRows[k].clusterId))
      ensures r.Ok? ==> forall i, j :: 0 <= i < j < |r.value| ==> r.value[i].clusterId != r.value[j].clusterId
    {
      var p := SqlitePath(url);
      if p.Err? {
        return Err(ValueError);
      }
      if !fileExists {
        return Ok([]);
      }
      if ClustersTable !in tables || MarketClustersTable !in tables {
        return Err(DatabaseError);
      }
      var byCluster := GroupMembers(clusterRows, assignments);
      var out := DecodeClusters(clusterRows, assignments, byCluster);
      r := Ok(out);
    }
  }
}
