/** The deterministic part of semantic_agent/pipeline/relations.py: the prompt for one
    cluster, the post-processing of the model's reply, the choice of clusters and of the
    markets sent for each, and the bookkeeping that files every finished task under the
    results or the failures. The chat model, the thread pool's completion order and the
    store calls that are not part of `Store.Database` are inputs. */
module Relations {
  import opened Wrappers
  import opened Seqs
  import opened Strings
  import opened Models
  import Store

  /** The default of `max_relations`. */
  const DefaultMaxRelations := 60

  /** The bounds `parallel_workers` is clamped into, and its default. */
  const MinWorkers := 1
  const MaxWorkers := 20
  const DefaultWorkers := 5

  // ---------------------------------------------------------------------------------
  // The prompt

  /** `m.resolved_outcome or "UNKNOWN"`. */
  function OutcomeLabel(o: Option<Outcome>): (s: string)
    ensures s == "UNKNOWN" <==> o.None?
    ensures o.Some? ==> ParseOutcome(s) == o
  {
    if o.Some? then OutcomeTextRoundTrip(o.value); OutcomeText(o.value) else "UNKNOWN"
  }

  /** `f"- [{m.id}] ({outcome}) {m.question}"`: the id, the outcome and the question
      can be read back at fixed places. */
  function MarketLine(m: Market): (line: string)
    ensures |line| == |m.id| + |OutcomeLabel(m.resolvedOutcome)| + 8 + |m.question|
    ensures line[..3] == "- ["
    ensures line[3..|m.id| + 3] == m.id
    ensures line[|m.id| + 3..|m.id| + 6] == "] ("
    ensures line[|m.id| + 6..|m.id| + 6 + |OutcomeLabel(m.resolvedOutcome)|] == OutcomeLabel(m.resolvedOutcome)
    ensures line[|m.id| + 6 + |OutcomeLabel(m.resolvedOutcome)|..|m.id| + 8 + |OutcomeLabel(m.resolvedOutcome)|] == ") "
    ensures line[|line| - |m.question|..] == m.question
  {
    var o := OutcomeLabel(m.resolvedOutcome);
    var a := "- [" + m.id;
    var b := a + "] (";
    var c := b + o;
    var d := c + ") ";
    var line := d + m.question;
    assert line[..|d|] == d && line[|d|..] == m.question;
    assert d[..|c|] == c && c[..|b|] == b && b[..|a|] == a;
    assert line[..3] == a[..3];
    assert line[3..|a|] == a[3..];
    assert line[|a|..|b|] == b[|a|..];
    assert line[|b|..|c|] == c[|b|..];
    assert line[|c|..|d|] == d[|c|..];
    line
  }

  /** The `for m in markets: lines.append(...)` loop: one line per market, in order. */
  method MarketLines(markets: seq<Market>) returns (lines: seq<string>)
    ensures |lines| == |markets|
    ensures forall i :: 0 <= i < |markets| ==> lines[i] == MarketLine(markets[i])
  {
    lines := [];
    for i := 0 to |markets|
      invariant |lines| == i
      invariant forall j :: 0 <= j < i ==> lines[j] == MarketLine(markets[j])
    {
      lines := lines + [MarketLine(markets[i])];
    }
  }

  /** The hint `_process_one_cluster` passes: the category, unless it is "other". */
  function HintFor(c: Cluster): (h: Option<string>)
    ensures h.None? <==> c.category == "other"
    ensures h.Some? ==> h.value == c.category
  {
    if c.category != "other" then Some(c.category) else None
  }

  /** `f"Cluster category hint: {taxonomy_hint}.\n" if taxonomy_hint else ""`. */
  function TaxonomyLine(hint: Option<string>): (line: string)
    ensures line != "" <==> hint.Some? && hint.value != ""
    ensures line != "" ==> line == "Cluster category hint: " + hint.value + ".\n"
  {
    if hint.Some? && hint.value != "" then "Cluster category hint: " + hint.value + ".\n" else ""
  }

  /** A cluster's prompt carries a hint line exactly when its category is neither
      "other" nor empty. */
  lemma HintLineIffLabeled(c: Cluster)
    ensures TaxonomyLine(HintFor(c)) != "" <==> c.category != "other" && c.category != ""
  {
  }

  const ClusterIntro := "Each line below is a market in the same topical cluster:\n"

  /** The user message of `discover_relations_for_cluster`: the hint line, the
      introduction, the market lines and the instructions. */
  function UserPrompt(hint: Option<string>, lines: seq<string>, instructions: string): (p: string)
    ensures |TaxonomyLine(hint)| + |ClusterIntro| <= |p|
    ensures p[..|TaxonomyLine(hint)|] == TaxonomyLine(hint)
    ensures p[|TaxonomyLine(hint)|..|TaxonomyLine(hint)| + |ClusterIntro|] == ClusterIntro
  {
    var t := TaxonomyLine(hint);
    var rest := Join("\n", lines) + "\n\n" + instructions;
    var p := t + ClusterIntro + rest;
    assert p[..|t| + |ClusterIntro|] == t + ClusterIntro;
    p
  }

  /** The instructions and the JSON schema of the user message. */
  function Instructions(maxRelations: int): string {
    "Your task:\n"
    + "- Propose up to " + IntToString(maxRelations) + " pairs of markets whose outcomes are related.\n"
    + "- For each pair, decide if they tend to resolve to the SAME outcome (both YES/YES or NO/NO)\n"
    + "  or to OPPOSITE outcomes (one YES, one NO).\n"
    + "- Use a confidence score in [0,1].\n\n"
    + "Return a JSON object with key 'relations' that matches this schema:\n"
    + "{\n"
    + "  \"relations\": [\n"
    + "    {\n"
    + "      \"market_id_i\": \"...\",\n"
    + "      \"market_id_j\": \"...\",\n"
    + "      \"question_i\": \"...\",   // verbatim question text for i\n"
    + "      \"question_j\": \"...\",   // verbatim question text for j\n"
    + "      \"is_same_outcome\": true, // true = SAME (YES/YES or NO/NO), false = OPPOSITE\n"
    + "      \"confidence_score\": 0.0, // float in [0,1]\n"
    + "      \"rationale\": \"...\"     // short reason\n"
    + "    }\n"
    + "  ]\n"
    + "}\n"
  }

  /** The prompt sent for these markets. */
  function PromptFor(markets: seq<Market>, hint: Option<string>, maxRelations: int): string {
    UserPrompt(hint, Map(markets, MarketLine), Instructions(maxRelations))
  }

  /** The prompt begins with the hint line when there is one, and with the cluster
      introduction otherwise. */
  lemma PromptStartsWithHint(hint: Option<string>, lines: seq<string>, instructions: string)
    ensures var p := UserPrompt(hint, lines, instructions);
            hint.Some? && hint.value != "" ==>
              |p| >= 25 + |hint.value| && p[..25 + |hint.value|] == "Cluster category hint: " + hint.value + ".\n"
    ensures var p := UserPrompt(hint, lines, instructions);
            hint.None? || hint.value == "" ==> |p| >= |ClusterIntro| && p[..|ClusterIntro|] == ClusterIntro
  {
  }

  // ---------------------------------------------------------------------------------
  // One cluster

  /** What the chat request, the JSON parse and the schema check leave: an exception;
      a reply that is not a JSON object; an object that does not fit the relation
      schema; or relations with the right field types, whose confidence scores are then
      checked by `MarketRelationList` validation. */
  datatype ChatReply = ChatRaises | Unparseable | Malformed | Items(relations: seq<MarketRelation>)

  /** What the reply leaves: no relations when it does not parse or validate, rather
      than an error; otherwise the validated relations cut to `max_relations`. */
  function PostProcess(reply: ChatReply, maxRelations: int): (r: Result<seq<MarketRelation>>)
    ensures r.Err? <==> reply.ChatRaises?
    ensures r.Err? ==> r.error == ExternalError
    ensures reply.Unparseable? || reply.Malformed? ==> r == Ok([])
    ensures r.Ok? ==> forall i :: 0 <= i < |r.value| ==> ValidRelation(r.value[i])
    ensures r.Ok? && 0 <= maxRelations ==> |r.value| <= maxRelations
    ensures r.Ok? && r.value != [] ==> reply.Items? && r.value <= reply.relations
    ensures reply.Items? && ValidateRelations(reply.relations).None? ==> r == Ok([])
    ensures reply.Items? && ValidateRelations(reply.relations).Some? && |reply.relations| <= maxRelations ==>
              r == Ok(reply.relations)
    ensures reply.Items? && ValidateRelations(reply.relations).Some? ==>
              r == Ok(PyTake(reply.relations, maxRelations))
  {
    match reply
    case ChatRaises => Err(ExternalError)
    case Unparseable => Ok([])
    case Malformed => Ok([])
    case Items(rs) =>
      match ValidateRelations(rs)
      case None => Ok([])
      case Some(list) =>
        // `if len(relations) > max_relations: relations = relations[:max_relations]`
        var kept := if |list.relations| > maxRelations then PyTake(list.relations, maxRelations) else list.relations;
        assert forall i :: 0 <= i < |kept| ==> kept[i] == list.relations[i];
        Ok(kept)
  }

  /** `discover_relations_for_cluster(cluster, markets, ...)`: with fewer than two
      markets no request is made. */
  function Discovered(markets: seq<Market>, hint: Option<string>, maxRelations: int,
                      chat: string -> ChatReply): (r: Result<seq<MarketRelation>>)
    ensures |markets| < 2 ==> r == Ok([])
    ensures |markets| >= 2 ==> r == PostProcess(chat(PromptFor(markets, hint, maxRelations)), maxRelations)
  {
    if |markets| < 2 then Ok([])
    else PostProcess(chat(PromptFor(markets, hint, maxRelations)), maxRelations)
  }

  /** The prompt-building and reply-handling steps of `discover_relations_for_cluster`. */
  method DiscoverRelationsForCluster(markets: seq<Market>, hint: Option<string>, maxRelations: int,
                                     chat: string -> ChatReply)
    returns (r: Result<seq<MarketRelation>>)
    ensures r == Discovered(markets, hint, maxRelations, chat)
  {
    if |markets| < 2 {
      return Ok([]);
    }
    var lines := MarketLines(markets);
    assert lines == Map(markets, MarketLine);
    var reply := chat(UserPrompt(hint, lines, Instructions(maxRelations)));
    r := PostProcess(reply, maxRelations);
  }

  /** A cluster and the markets sent for it. */
  datatype Task = Task(cluster: Cluster, markets: seq<Market>)

  /** What `_process_one_cluster` returns: the cluster id, and None when discovery raised. */
  type TaskOutcome = (string, Option<seq<MarketRelation>>)

  function OutcomeOf(t: Task, maxRelations: int, chat: string -> ChatReply): (o: TaskOutcome)
    ensures o.0 == t.cluster.clusterId
    ensures o.1.None? <==> Discovered(t.markets, HintFor(t.cluster), maxRelations, chat).Err?
  {
    var r := Discovered(t.markets, HintFor(t.cluster), maxRelations, chat);
    (t.cluster.clusterId, if r.Ok? then Some(r.value) else None)
  }

  /** `_process_one_cluster(c, m_list, ...)`. */
  method ProcessOneCluster(t: Task, maxRelations: int, chat: string -> ChatReply)
    returns (o: TaskOutcome)
    ensures o == OutcomeOf(t, maxRelations, chat)
  {
    var r := DiscoverRelationsForCluster(t.markets, HintFor(t.cluster), maxRelations, chat);
    if r.Err? {
      return (t.cluster.clusterId, None);
    }
    return (t.cluster.clusterId, Some(r.value));
  }

  // ---------------------------------------------------------------------------------
  // Which clusters, with which markets

  /** `max(1, min(parallel_workers, 20))`, the given count or the settings' (5 when the
      settings have none). */
  function ClampWorkers(parallelWorkers: Option<int>, settingsWorkers: Option<int>): (n: int)
    ensures MinWorkers <= n <= MaxWorkers
    ensures var w := if parallelWorkers.Some? then parallelWorkers.value else settingsWorkers.GetOr(DefaultWorkers);
            (MinWorkers <= w <= MaxWorkers ==> n == w) && (w < MinWorkers ==> n == MinWorkers) &&
            (w > MaxWorkers ==> n == MaxWorkers)
  {
    var w := if parallelWorkers.Some? then parallelWorkers.value else settingsWorkers.GetOr(DefaultWorkers);
    var capped := if w < MaxWorkers then w else MaxWorkers;
    if capped < MinWorkers then MinWorkers else capped
  }

  /** `c.category and c.category != "other"`. */
  predicate Labeled(c: Cluster) {
    c.category != "" && c.category != "other"
  }

  function NotDone(done: set<string>): Cluster -> bool {
    (c: Cluster) => c.clusterId !in done
  }

  /** A cluster both active filters let through. */
  function Passes(onlyLabeled: bool, skipDone: bool, done: set<string>): Cluster -> bool {
    (c: Cluster) => (onlyLabeled ==> Labeled(c)) && (skipDone ==> c.clusterId !in done)
  }

  /** The two list comprehensions in a row are one filter by both tests. */
  lemma PendingIsOneFilter(clusters: seq<Cluster>, onlyLabeled: bool, skipDone: bool, done: set<string>)
    ensures var labeled := if onlyLabeled then Filter(clusters, Labeled) else clusters;
            (if skipDone then Filter(labeled, NotDone(done)) else labeled) ==
              Filter(clusters, Passes(onlyLabeled, skipDone, done))
  {
    var both := Passes(onlyLabeled, skipDone, done);
    if onlyLabeled && skipDone {
      FilterFuse(clusters, Labeled, NotDone(done), both);
    } else if onlyLabeled {
      FilterSame(clusters, Labeled, both);
    } else if skipDone {
      FilterSame(clusters, NotDone(done), both);
    } else {
      FilterAll(clusters, both);
    }
  }

  /** A prefix of the passing clusters holds clusters of the input that pass each active
      test. */
  lemma PassingPrefix(clusters: seq<Cluster>, onlyLabeled: bool, skipDone: bool, done: set<string>,
                      r: seq<Cluster>)
    requires r <= Filter(clusters, Passes(onlyLabeled, skipDone, done))
    ensures forall i :: 0 <= i < |r| ==> r[i] in clusters
    ensures onlyLabeled ==> forall i :: 0 <= i < |r| ==> Labeled(r[i])
    ensures skipDone ==> forall i :: 0 <= i < |r| ==> r[i].clusterId !in done
  {
    var passing := Filter(clusters, Passes(onlyLabeled, skipDone, done));
    assert forall i :: 0 <= i < |r| ==> r[i] == passing[i] && Passes(onlyLabeled, skipDone, done)(passing[i]);
  }

  /** The clusters relation discovery runs on: the labelled ones when asked, then the
      ones without relations when resuming, then the first `max_clusters` of those, in
      the order read. */
  function Eligible(clusters: seq<Cluster>, onlyLabeled: bool, skipDone: bool, done: set<string>,
                    maxClusters: int): (r: seq<Cluster>)
    ensures r == PyTake(Filter(clusters, Passes(onlyLabeled, skipDone, done)), maxClusters)
    ensures forall i :: 0 <= i < |r| ==> r[i] in clusters
    ensures onlyLabeled ==> forall i :: 0 <= i < |r| ==> Labeled(r[i])
    ensures skipDone ==> forall i :: 0 <= i < |r| ==> r[i].clusterId !in done
    ensures 0 <= maxClusters ==> |r| <= maxClusters
  {
    var labeled := if onlyLabeled then Filter(clusters, Labeled) else clusters;
    var pending := if skipDone then Filter(labeled, NotDone(done)) else labeled;
    PendingIsOneFilter(clusters, onlyLabeled, skipDone, done);
    var r := PyTake(pending, maxClusters);
    PassingPrefix(clusters, onlyLabeled, skipDone, done, r);
    r
  }

  /** With room for all of them, a cluster is eligible exactly when it passes both
      filters. */
  lemma EligibleIff(clusters: seq<Cluster>, onlyLabeled: bool, skipDone: bool, done: set<string>,
                    maxClusters: int, c: Cluster)
    requires maxClusters >= |clusters|
    ensures c in Eligible(clusters, onlyLabeled, skipDone, done, maxClusters) <==>
              c in clusters && (onlyLabeled ==> Labeled(c)) && (skipDone ==> c.clusterId !in done)
  {
    var labeled := if onlyLabeled then Filter(clusters, Labeled) else clusters;
    var pending := if skipDone then Filter(labeled, NotDone(done)) else labeled;
    assert PyTake(pending, maxClusters) == pending;
  }

  /** Distinct cluster ids stay distinct among the eligible clusters. */
  lemma EligibleDistinct(clusters: seq<Cluster>, onlyLabeled: bool, skipDone: bool, done: set<string>,
                         maxClusters: int)
    requires UniqueBy(clusters, ClusterIdOf)
    ensures UniqueBy(Eligible(clusters, onlyLabeled, skipDone, done, maxClusters), ClusterIdOf)
  {
    var labeled := if onlyLabeled then Filter(clusters, Labeled) else clusters;
    if onlyLabeled {
      FilterUniqueBy(clusters, Labeled, ClusterIdOf);
    }
    var pending := if skipDone then Filter(labeled, NotDone(done)) else labeled;
    if skipDone {
      FilterUniqueBy(labeled, NotDone(done), ClusterIdOf);
    }
    var r := PyTake(pending, maxClusters);
    assert forall i :: 0 <= i < |r| ==> r[i] == pending[i];
  }

  function ClusterIdOf(c: Cluster): string { c.clusterId }

  /** `{m.id: m for m in all_markets}`: a later market with the same id replaces an
      earlier one. */
  function ById(ms: seq<Market>): (r: map<string, Market>)
    ensures forall id :: id in r <==> exists i :: 0 <= i < |ms| && ms[i].id == id
    ensures forall id :: id in r ==> r[id].id == id && r[id] in ms
    decreases |ms|
  {
    if ms == [] then map[]
    else
      var n := |ms| - 1;
      var init := ById(ms[..n]);
      assert forall i :: 0 <= i < n ==> ms[..n][i] == ms[i];
      init[ms[n].id := ms[n]]
  }

  /** The market kept for an id is the last one with that id. */
  lemma {:induction false} ByIdLast(ms: seq<Market>, i: nat)
    requires i < |ms|
    requires forall j :: i < j < |ms| ==> ms[j].id != ms[i].id
    ensures ById(ms)[ms[i].id] == ms[i]
    decreases |ms|
  {
    var n := |ms| - 1;
    var front := ms[..n];
    ByIdSnoc(front, ms[n]);
    assert ms == front + [ms[n]];
    if i < n {
      assert forall j :: i < j < n ==> front[j] == ms[j];
      assert front[i] == ms[i];
      ByIdLast(front, i);
    }
  }

  lemma ByIdSnoc(front: seq<Market>, m: Market)
    ensures ById(front + [m]) == ById(front)[m.id := m]
  {
    assert (front + [m])[..|front|] == front;
  }

  /** A market `only_resolved` lets through. */
  predicate Usable(m: Market, onlyResolved: bool) {
    !onlyResolved || m.resolvedOutcome.Some?
  }

  /** An id whose market the inner loop appends. */
  function Collectable(byId: map<string, Market>, onlyResolved: bool): string -> bool {
    (mid: string) => mid in byId && Usable(byId[mid], onlyResolved)
  }

  /** The markets the inner loop collects for a cluster's ids: the known ones, resolved
      ones only when asked, one per collectable id, in the cluster's order. */
  function KnownMarkets(ids: seq<string>, byId: map<string, Market>, onlyResolved: bool): (r: seq<Market>)
    ensures |r| <= |ids|
    ensures forall k :: 0 <= k < |r| ==> r[k] in byId.Values && Usable(r[k], onlyResolved)
    ensures forall mid :: mid in ids && mid in byId && Usable(byId[mid], onlyResolved) ==> byId[mid] in r
    decreases |ids|
  {
    if ids == [] then []
    else
      var n := |ids| - 1;
      var init := KnownMarkets(ids[..n], byId, onlyResolved);
      assert forall mid :: mid in ids ==> mid in ids[..n] || mid == ids[n];
      var mid := ids[n];
      if mid in byId && Usable(byId[mid], onlyResolved) then init + [byId[mid]] else init
  }

  /** The collected markets are those of the collectable ids, one each, in the order of
      the ids. */
  lemma {:induction false} KnownMarketsInOrder(ids: seq<string>, byId: map<string, Market>, onlyResolved: bool)
    ensures var keep := Filter(ids, Collectable(byId, onlyResolved));
            var r := KnownMarkets(ids, byId, onlyResolved);
            |r| == |keep| && forall k :: 0 <= k < |r| ==> keep[k] in byId && r[k] == byId[keep[k]]
    decreases |ids|
  {
    if ids != [] {
      var n := |ids| - 1;
      var front := ids[..n];
      assert ids == front + [ids[n]];
      KnownMarketsInOrder(front, byId, onlyResolved);
      KnownMarketsSnoc(front, ids[n], byId, onlyResolved);
      FilterSnoc(front, ids[n], Collectable(byId, onlyResolved));
    }
  }

  /** One more id appends its market exactly when it is collectable. */
  lemma KnownMarketsSnoc(front: seq<string>, mid: string, byId: map<string, Market>, onlyResolved: bool)
    ensures KnownMarkets(front + [mid], byId, onlyResolved) ==
              KnownMarkets(front, byId, onlyResolved) +
              (if mid in byId && Usable(byId[mid], onlyResolved) then [byId[mid]] else [])
  {
    var ids := front + [mid];
    assert ids[..|ids| - 1] == front;
    assert ids[|ids| - 1] == mid;
  }

  /** The inner `for mid in c.market_ids` loop. */
  method CollectMarkets(ids: seq<string>, byId: map<string, Market>, onlyResolved: bool)
    returns (ms: seq<Market>)
    ensures ms == KnownMarkets(ids, byId, onlyResolved)
  {
    ms := [];
    for i := 0 to |ids|
      invariant ms == KnownMarkets(ids[..i], byId, onlyResolved)
    {
      assert ids[..i + 1][..i] == ids[..i];
      var mid := ids[i];
      if mid !in byId {
        continue;
      }
      var m := byId[mid];
      if onlyResolved && m.resolvedOutcome.None? {
        continue;
      }
      ms := ms + [m];
    }
    assert ids[..|ids|] == ids;
  }

  /** A cluster gets a task when at least two of its markets are collected. */
  function Dispatchable(byId: map<string, Market>, onlyResolved: bool): Cluster -> bool {
    (c: Cluster) => |KnownMarkets(c.marketIds, byId, onlyResolved)| >= 2
  }

  /** Its task sends the collected markets, cut to `max_markets_per_cluster`. */
  function MakeTask(byId: map<string, Market>, onlyResolved: bool, maxMarkets: int): Cluster -> Task {
    (c: Cluster) => Task(c, PyTake(KnownMarkets(c.marketIds, byId, onlyResolved), maxMarkets))
  }

  /** The `tasks` list. */
  function Tasks(clusters: seq<Cluster>, byId: map<string, Market>, onlyResolved: bool, maxMarkets: int)
    : seq<Task>
  {
    Map(Filter(clusters, Dispatchable(byId, onlyResolved)), MakeTask(byId, onlyResolved, maxMarkets))
  }

  function TaskCluster(t: Task): Cluster { t.cluster }

  /** A cluster is dispatched exactly when two or more of its markets are usable, and the
      tasks follow the order of the clusters; every task sends the first
      `max_markets_per_cluster` of those markets. */
  lemma TasksShape(clusters: seq<Cluster>, byId: map<string, Market>, onlyResolved: bool, maxMarkets: int)
    ensures var ts := Tasks(clusters, byId, onlyResolved, maxMarkets);
            Map(ts, TaskCluster) == Filter(clusters, Dispatchable(byId, onlyResolved))
    ensures var ts := Tasks(clusters, byId, onlyResolved, maxMarkets);
            forall c :: c in Map(ts, TaskCluster) <==>
              c in clusters && |KnownMarkets(c.marketIds, byId, onlyResolved)| >= 2
    ensures var ts := Tasks(clusters, byId, onlyResolved, maxMarkets);
            forall k :: 0 <= k < |ts| ==>
              && ts[k].markets == PyTake(KnownMarkets(ts[k].cluster.marketIds, byId, onlyResolved), maxMarkets)
              && (0 <= maxMarkets ==> |ts[k].markets| <= maxMarkets)
              && (2 <= maxMarkets ==> 2 <= |ts[k].markets|)
  {
    var ts := Tasks(clusters, byId, onlyResolved, maxMarkets);
    var f := Filter(clusters, Dispatchable(byId, onlyResolved));
    assert forall k :: 0 <= k < |ts| ==> ts[k].cluster == f[k];
    assert Map(ts, TaskCluster) == f;
  }

  /** The outer loop that builds `tasks`. */
  method BuildTasks(clusters: seq<Cluster>, byId: map<string, Market>, onlyResolved: bool, maxMarkets: int)
    returns (tasks: seq<Task>)
    ensures tasks == Tasks(clusters, byId, onlyResolved, maxMarkets)
  {
    tasks := [];
    for i := 0 to |clusters|
      invariant tasks == Tasks(clusters[..i], byId, onlyResolved, maxMarkets)
    {
      var c := clusters[i];
      assert clusters[..i + 1] == clusters[..i] + [c];
      TasksSnoc(clusters[..i], c, byId, onlyResolved, maxMarkets);
      var mList := CollectMarkets(c.marketIds, byId, onlyResolved);
      if |mList| < 2 {
        continue;
      }
      if |mList| > maxMarkets {
        mList := PyTake(mList, maxMarkets);
      }
      tasks := tasks + [Task(c, mList)];
    }
    assert clusters[..|clusters|] == clusters;
  }

  /** One more cluster adds its task, when it has one, at the end. */
  lemma TasksSnoc(cs: seq<Cluster>, c: Cluster, byId: map<string, Market>, onlyResolved: bool, maxMarkets: int)
    ensures Tasks(cs + [c], byId, onlyResolved, maxMarkets) ==
              Tasks(cs, byId, onlyResolved, maxMarkets) +
              (if |KnownMarkets(c.marketIds, byId, onlyResolved)| >= 2
               then [Task(c, PyTake(KnownMarkets(c.marketIds, byId, onlyResolved), maxMarkets))] else [])
  {
    var p := Dispatchable(byId, onlyResolved);
    var f := MakeTask(byId, onlyResolved, maxMarkets);
    FilterAppend(cs, [c], p);
    MapAppend(Filter(cs, p), Filter([c], p), f);
    assert Filter([c], p) == if p(c) then [c] else [];
  }

  // ---------------------------------------------------------------------------------
  // Collecting the finished tasks

  /** A task whose relations are written and counted. */
  predicate Written(o: TaskOutcome, writeFails: (string, seq<MarketRelation>) -> bool) {
    o.1.Some? && !writeFails(o.0, o.1.value)
  }

  /** `results` after the outcomes, in completion order: `len(relations)` for each
      cluster whose write went through. */
  function Results(outs: seq<TaskOutcome>, writeFails: (string, seq<MarketRelation>) -> bool)
    : (r: map<string, nat>)
    ensures |r| <= |outs|
    decreases |outs|
  {
    if outs == [] then map[]
    else
      var n := |outs| - 1;
      var init := Results(outs[..n], writeFails);
      if Written(outs[n], writeFails) then init[outs[n].0 := |outs[n].1.value|] else init
  }

  /** `failed_clusters`: the clusters whose discovery raised or whose write raised. */
  function Failed(outs: seq<TaskOutcome>, writeFails: (string, seq<MarketRelation>) -> bool)
    : (r: seq<string>)
    ensures |r| <= |outs|
    decreases |outs|
  {
    if outs == [] then []
    else
      var n := |outs| - 1;
      var init := Failed(outs[..n], writeFails);
      if Written(outs[n], writeFails) then init else init + [outs[n].0]
  }

  /** The `write_relations_for_cluster` calls made, including the ones that raise. */
  function Writes(outs: seq<TaskOutcome>): (r: seq<Store.StoreCall>)
    ensures |r| <= |outs|
    decreases |outs|
  {
    if outs == [] then []
    else
      var n := |outs| - 1;
      var init := Writes(outs[..n]);
      if outs[n].1.Some? then init + [Store.WriteRelationsForCluster(outs[n].0, outs[n].1.value)] else init
  }

  /** A cluster has a result exactly when one of its outcomes was written. */
  lemma {:induction false} ResultsKeys(outs: seq<TaskOutcome>, writeFails: (string, seq<MarketRelation>) -> bool,
                                       cid: string)
    ensures cid in Results(outs, writeFails) <==>
              exists i :: 0 <= i < |outs| && outs[i].0 == cid && Written(outs[i], writeFails)
    decreases |outs|
  {
    if outs != [] {
      var n := |outs| - 1;
      ResultsKeys(outs[..n], writeFails, cid);
      assert forall i :: 0 <= i < n ==> outs[..n][i] == outs[i];
      if cid in Results(outs, writeFails) && !(cid in Results(outs[..n], writeFails)) {
        assert outs[n].0 == cid && Written(outs[n], writeFails);
      }
      if exists i :: 0 <= i < |outs| && outs[i].0 == cid && Written(outs[i], writeFails) {
        var i :| 0 <= i < |outs| && outs[i].0 == cid && Written(outs[i], writeFails);
        if i < n {
          assert outs[..n][i] == outs[i];
        }
      }
    }
  }

  /** A cluster is failed exactly when one of its outcomes was not written. */
  lemma {:induction false} FailedMembers(outs: seq<TaskOutcome>, writeFails: (string, seq<MarketRelation>) -> bool,
                                         cid: string)
    ensures cid in Failed(outs, writeFails) <==>
              exists i :: 0 <= i < |outs| && outs[i].0 == cid && !Written(outs[i], writeFails)
    decreases |outs|
  {
    if outs != [] {
      var n := |outs| - 1;
      var init := outs[..n];
      FailedMembers(init, writeFails, cid);
      var here := outs[n].0 == cid && !Written(outs[n], writeFails);
      assert cid in Failed(outs, writeFails) <==> cid in Failed(init, writeFails) || here;
      if cid in Failed(init, writeFails) {
        var i :| 0 <= i < |init| && init[i].0 == cid && !Written(init[i], writeFails);
        assert outs[i] == init[i];
      }
      if exists i :: 0 <= i < |outs| && outs[i].0 == cid && !Written(outs[i], writeFails) {
        var i :| 0 <= i < |outs| && outs[i].0 == cid && !Written(outs[i], writeFails);
        if i < n {
          assert init[i] == outs[i];
        }
      }
    }
  }

  predicate DistinctIds(outs: seq<TaskOutcome>) {
    forall i, j :: 0 <= i < j < |outs| ==> outs[i].0 != outs[j].0
  }

  /** With distinct cluster ids, a written cluster's result is its number of relations. */
  lemma {:induction false} ResultsValue(outs: seq<TaskOutcome>, writeFails: (string, seq<MarketRelation>) -> bool,
                                        i: nat)
    requires DistinctIds(outs) && i < |outs| && Written(outs[i], writeFails)
    ensures outs[i].0 in Results(outs, writeFails)
    ensures Results(outs, writeFails)[outs[i].0] == |outs[i].1.value|
    decreases |outs|
  {
    var n := |outs| - 1;
    if i < n {
      assert forall a, b :: 0 <= a < b < n ==> outs[..n][a] == outs[a] && outs[..n][b] == outs[b];
      ResultsValue(outs[..n], writeFails, i);
      assert outs[i].0 != outs[n].0;
    }
  }

  /** Every dispatched cluster ends up in exactly one of `results` and `failed_clusters`. */
  lemma ExactlyOnePlace(outs: seq<TaskOutcome>, writeFails: (string, seq<MarketRelation>) -> bool, i: nat)
    requires DistinctIds(outs) && i < |outs|
    ensures (outs[i].0 in Results(outs, writeFails)) <==> !(outs[i].0 in Failed(outs, writeFails))
  {
    ResultsKeys(outs, writeFails, outs[i].0);
    FailedMembers(outs, writeFails, outs[i].0);
    if outs[i].0 in Failed(outs, writeFails) {
      var j :| 0 <= j < |outs| && outs[j].0 == outs[i].0 && !Written(outs[j], writeFails);
      assert j == i;
    }
    if outs[i].0 in Results(outs, writeFails) {
      var j :| 0 <= j < |outs| && outs[j].0 == outs[i].0 && Written(outs[j], writeFails);
      assert j == i;
    }
  }

  /** `as_completed` yields every submitted future once: `order` lists their indices in
      completion order. */
  predicate IsPermutation(order: seq<nat>, n: nat) {
    && |order| == n
    && (forall k :: 0 <= k < |order| ==> order[k] < n)
    && (forall a, b :: 0 <= a < b < |order| ==> order[a] != order[b])
    && (forall i :: 0 <= i < n ==> i in order)
  }

  function Permute(outs: seq<TaskOutcome>, order: seq<nat>): (r: seq<TaskOutcome>)
    requires IsPermutation(order, |outs|)
    ensures |r| == |outs| && forall k :: 0 <= k < |r| ==> r[k] == outs[order[k]]
  {
    seq(|order|, k requires 0 <= k < |order| => outs[order[k]])
  }

  /** A written outcome's result survives the reordering. */
  lemma ResultsAtPermuted(outs: seq<TaskOutcome>, order: seq<nat>,
                          writeFails: (string, seq<MarketRelation>) -> bool, i: nat)
    requires IsPermutation(order, |outs|) && DistinctIds(Permute(outs, order))
    requires i < |outs| && Written(outs[i], writeFails)
    ensures outs[i].0 in Results(Permute(outs, order), writeFails)
    ensures Results(Permute(outs, order), writeFails)[outs[i].0] == |outs[i].1.value|
  {
    var p := Permute(outs, order);
    assert i in order;
    var k :| 0 <= k < |order| && order[k] == i;
    assert p[k] == outs[i];
    ResultsValue(p, writeFails, k);
  }

  /** At one cluster id, the results agree whatever the completion order. */
  lemma ResultsSameAt(outs: seq<TaskOutcome>, order: seq<nat>,
                      writeFails: (string, seq<MarketRelation>) -> bool, cid: string)
    requires DistinctIds(outs) && IsPermutation(order, |outs|)
    requires DistinctIds(Permute(outs, order))
    ensures cid in Results(Permute(outs, order), writeFails) <==> cid in Results(outs, writeFails)
    ensures cid in Results(outs, writeFails) ==>
              Results(Permute(outs, order), writeFails)[cid] == Results(outs, writeFails)[cid]
  {
    var p := Permute(outs, order);
    if cid in Results(p, writeFails) {
      ResultsKeys(p, writeFails, cid);
      var k :| 0 <= k < |p| && p[k].0 == cid && Written(p[k], writeFails);
      assert outs[order[k]] == p[k];
      ResultsValue(outs, writeFails, order[k]);
    }
    if cid in Results(outs, writeFails) {
      ResultsKeys(outs, writeFails, cid);
      var i :| 0 <= i < |outs| && outs[i].0 == cid && Written(outs[i], writeFails);
      ResultsValue(outs, writeFails, i);
      ResultsAtPermuted(outs, order, writeFails, i);
    }
  }

  /** Completing in another order permutes outcomes with distinct ids. */
  lemma PermuteDistinct(outs: seq<TaskOutcome>, order: seq<nat>)
    requires DistinctIds(outs) && IsPermutation(order, |outs|)
    ensures DistinctIds(Permute(outs, order))
  {
    var p := Permute(outs, order);
    forall x, y | 0 <= x < y < |p| ensures p[x].0 != p[y].0 {
      assert order[x] != order[y];
    }
  }

  /** The returned map does not depend on the order in which the futures complete. */
  lemma ResultsOrderIndependent(outs: seq<TaskOutcome>, order: seq<nat>,
                                writeFails: (string, seq<MarketRelation>) -> bool)
    requires DistinctIds(outs) && IsPermutation(order, |outs|)
    ensures Results(Permute(outs, order), writeFails) == Results(outs, writeFails)
  {
    PermuteDistinct(outs, order);
    var a := Results(Permute(outs, order), writeFails);
    var b := Results(outs, writeFails);
    forall cid ensures (cid in a <==> cid in b) && (cid in b ==> a[cid] == b[cid]) {
      ResultsSameAt(outs, order, writeFails, cid);
    }
    MapsAgree(a, b);
  }

  lemma MapsAgree<K, V>(a: map<K, V>, b: map<K, V>)
    requires forall k :: (k in a <==> k in b) && (k in b ==> a[k] == b[k])
    ensures a == b
  {
    assert a.Keys == b.Keys;
  }

  /** The same clusters fail whatever the completion order. */
  lemma FailedOrderIndependent(outs: seq<TaskOutcome>, order: seq<nat>,
                               writeFails: (string, seq<MarketRelation>) -> bool, cid: string)
    requires IsPermutation(order, |outs|)
    ensures cid in Failed(Permute(outs, order), writeFails) <==> cid in Failed(outs, writeFails)
  {
    var p := Permute(outs, order);
    FailedMembers(outs, writeFails, cid);
    FailedMembers(p, writeFails, cid);
    if cid in Failed(outs, writeFails) {
      var i :| 0 <= i < |outs| && outs[i].0 == cid && !Written(outs[i], writeFails);
      assert i in order;
      var k :| 0 <= k < |order| && order[k] == i;
      assert p[k] == outs[i];
    }
    if cid in Failed(p, writeFails) {
      var k :| 0 <= k < |p| && p[k].0 == cid && !Written(p[k], writeFails);
      assert outs[order[k]] == p[k];
    }
  }

  /** The executor running every submitted task once: `_run_task(item)` for each
      item of `tasks`. */
  method RunAll(tasks: seq<Task>, maxRelations: int, chat: string -> ChatReply)
    returns (outs: seq<TaskOutcome>)
    ensures outs == Map(tasks, OutcomeFn(maxRelations, chat))
  {
    outs := [];
    for i := 0 to |tasks|
      invariant |outs| == i
      invariant forall j :: 0 <= j < i ==> outs[j] == OutcomeOf(tasks[j], maxRelations, chat)
    {
      var o := ProcessOneCluster(tasks[i], maxRelations, chat);
      outs := outs + [o];
    }
  }

  /** The `as_completed` loop: the outcomes are filed in completion order. */
  method CollectResults(outs: seq<TaskOutcome>, order: seq<nat>,
                        writeFails: (string, seq<MarketRelation>) -> bool)
    returns (results: map<string, nat>, failed: seq<string>, writes: seq<Store.StoreCall>)
    requires IsPermutation(order, |outs|)
    ensures var done := Permute(outs, order);
            results == Results(done, writeFails) && failed == Failed(done, writeFails) && writes == Writes(done)
  {
    ghost var done := Permute(outs, order);
    results, failed, writes := map[], [], [];
    for k := 0 to |order|
      invariant results == Results(done[..k], writeFails)
      invariant failed == Failed(done[..k], writeFails)
      invariant writes == Writes(done[..k])
    {
      assert done[..k + 1][..k] == done[..k];
      var o := outs[order[k]];
      if o.1.None? {
        failed := failed + [o.0];
        continue;
      }
      writes := writes + [Store.WriteRelationsForCluster(o.0, o.1.value)];
      if writeFails(o.0, o.1.value) {
        failed := failed + [o.0];
        continue;
      }
      results := results[o.0 := |o.1.value|];
    }
    assert done[..|order|] == done;
  }

  function OutcomeFn(maxRelations: int, chat: string -> ChatReply): Task -> TaskOutcome {
    (t: Task) => OutcomeOf(t, maxRelations, chat)
  }

  /** Distinct clusters give tasks, and so outcomes, with distinct ids. */
  lemma OutcomesDistinct(clusters: seq<Cluster>, byId: map<string, Market>, onlyResolved: bool,
                         maxMarkets: int, maxRelations: int, chat: string -> ChatReply)
    requires UniqueBy(clusters, ClusterIdOf)
    ensures DistinctIds(Map(Tasks(clusters, byId, onlyResolved, maxMarkets), OutcomeFn(maxRelations, chat)))
  {
    var f := Filter(clusters, Dispatchable(byId, onlyResolved));
    FilterUniqueBy(clusters, Dispatchable(byId, onlyResolved), ClusterIdOf);
    var ts := Map(f, MakeTask(byId, onlyResolved, maxMarkets));
    TaskClusters(f, byId, onlyResolved, maxMarkets);
    OutcomeIds(ts, maxRelations, chat);
    var outs := Map(ts, OutcomeFn(maxRelations, chat));
    forall a, b | 0 <= a < b < |outs| ensures outs[a].0 != outs[b].0 {
      assert ClusterIdOf(f[a]) != ClusterIdOf(f[b]);
    }
  }

  /** Each task is built from the cluster at its position. */
  lemma TaskClusters(f: seq<Cluster>, byId: map<string, Market>, onlyResolved: bool, maxMarkets: int)
    ensures forall i :: 0 <= i < |f| ==> Map(f, MakeTask(byId, onlyResolved, maxMarkets))[i].cluster == f[i]
  {
  }

  /** Each outcome carries the id of its task's cluster. */
  lemma OutcomeIds(ts: seq<Task>, maxRelations: int, chat: string -> ChatReply)
    ensures forall i :: 0 <= i < |ts| ==> Map(ts, OutcomeFn(maxRelations, chat))[i].0 == ts[i].cluster.clusterId
  {
  }

  /** The settings `run_discover_relations` falls back on. */
  datatype RelationSettings = RelationSettings(
    apiKey: string,
    maxClusters: int,
    maxMarketsPerCluster: int,
    maxRelationsPerCluster: int,
    parallelWorkers: Option<int>)

  /** The keyword arguments of `run_discover_relations`. */
  datatype RelationOptions = RelationOptions(
    maxClusters: Option<int>,
    maxMarketsPerCluster: Option<int>,
    maxRelationsPerCluster: Option<int>,
    onlyLabeled: bool,
    onlyResolved: bool,
    skipClustersWithRelations: bool,
    parallelWorkers: Option<int>)

  /** What a run dispatches: the `tasks` list. */
  function RunTasks(clusters: seq<Cluster>, markets: seq<Market>, done: set<string>,
                    opts: RelationOptions, settings: RelationSettings): seq<Task>
  {
    var eligible := Eligible(clusters, opts.onlyLabeled, opts.skipClustersWithRelations, done,
                             opts.maxClusters.GetOr(settings.maxClusters));
    Tasks(eligible, ById(markets), opts.onlyResolved, opts.maxMarketsPerCluster.GetOr(settings.maxMarketsPerCluster))
  }

  /** `run_discover_relations(database_url, ...)` given the settings, what `read_clusters`
      and `read_markets` return, the ids `get_cluster_ids_with_relations` returns, the
      model, whether each relations write raises, and `completion`, which gives the order
      in which `n` submitted tasks complete. `failed` is what is logged as
      `failed_clusters`; `writes` are the store calls made, in completion order. The
      returned map is the same for every completion order. */
  method RunDiscoverRelations(settings: RelationSettings, opts: RelationOptions,
                              readClusters: Result<seq<Cluster>>, readMarkets: Result<seq<Market>>,
                              done: set<string>, chat: string -> ChatReply,
                              writeFails: (string, seq<MarketRelation>) -> bool,
                              completion: nat -> seq<nat>)
    returns (r: Result<map<string, nat>>, failed: seq<string>, writes: seq<Store.StoreCall>)
    requires forall n: nat :: IsPermutation(completion(n), n)
    ensures settings.apiKey == "" ==> r == Err(ValueError) && writes == []
    ensures settings.apiKey != "" && readClusters.Err? ==> r == Err(readClusters.error) && writes == []
    ensures settings.apiKey != "" && readClusters == Ok([]) ==> r == Ok(map[]) && writes == []
    ensures settings.apiKey != "" && readClusters.Ok? && readClusters.value != [] && readMarkets.Err? ==>
              r == Err(readMarkets.error) && writes == []
    ensures settings.apiKey != "" && readClusters.Ok? && readClusters.value != [] && readMarkets.Ok? ==>
              var tasks := RunTasks(readClusters.value, readMarkets.value, done, opts, settings);
              var maxRelations := opts.maxRelationsPerCluster.GetOr(settings.maxRelationsPerCluster);
              var outs := Map(tasks, OutcomeFn(maxRelations, chat));
              && (UniqueBy(readClusters.value, ClusterIdOf) ==> r == Ok(Results(outs, writeFails)))
              && (forall cid :: cid in failed <==> cid in Failed(outs, writeFails))
              && failed == Failed(Permute(outs, completion(|outs|)), writeFails)
              && writes == Writes(Permute(outs, completion(|outs|)))
  {
    failed, writes := [], [];
    if settings.apiKey == "" {
      return Err(ValueError), [], [];
    }
    var maxClusters := opts.maxClusters.GetOr(settings.maxClusters);
    var maxMarkets := opts.maxMarketsPerCluster.GetOr(settings.maxMarketsPerCluster);
    var maxRelations := opts.maxRelationsPerCluster.GetOr(settings.maxRelationsPerCluster);
    var workers := ClampWorkers(opts.parallelWorkers, settings.parallelWorkers);
    if readClusters.Err? {
      return Err(readClusters.error), [], [];
    }
    var clusters := readClusters.value;
    if clusters == [] {
      return Ok(map[]), [], [];
    }
    var eligible := Eligible(clusters, opts.onlyLabeled, opts.skipClustersWithRelations, done, maxClusters);
    if readMarkets.Err? {
      return Err(readMarkets.error), [], [];
    }
    var byId := ById(readMarkets.value);
    var tasks := BuildTasks(eligible, byId, opts.onlyResolved, maxMarkets);
    var outs := RunAll(tasks, maxRelations, chat);
    var order := completion(|outs|);
    var results;
    results, failed, writes := CollectResults(outs, order, writeFails);
    if UniqueBy(clusters, ClusterIdOf) {
      EligibleDistinct(clusters, opts.onlyLabeled, opts.skipClustersWithRelations, done, maxClusters);
      OutcomesDistinct(eligible, byId, opts.onlyResolved, maxMarkets, maxRelations, chat);
      ResultsOrderIndependent(outs, order, writeFails);
    }
    forall cid ensures cid in failed <==> cid in Failed(outs, writeFails) {
      FailedOrderIndependent(outs, order, writeFails, cid);
    }
    r := Ok(results);
  }
}
