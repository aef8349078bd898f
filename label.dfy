/** The deterministic part of semantic_agent/pipeline/label.py: the prompt's question
    block, the normalisation of the model's reply into (category, rationale), the choice
    of clusters to label, and the loop that collects the labels before one store write.
    The chat model, `json.loads`, `str()` of a non-string JSON value and the store reads
    are inputs. */
module Label {
  import opened Wrappers
  import opened Seqs
  import opened Strings
  import opened Json
  import opened Models
  import Store

  /** `DEFAULT_TAXONOMY`. */
  const DefaultTaxonomy: seq<string> :=
    ["politics", "macro", "finance", "crypto", "tech", "sports", "culture", "other"]

  /** The label given to a cluster whose sample has no question. */
  const NoQuestionsRationale := "No questions available for this cluster sample."

  /** The most questions one prompt lists. */
  const MaxPromptQuestions := 200

  type ClusterLabel = (string, Option<string>)

  predicate NotBlank(q: string) { !IsBlank(q) }

  function Bullet(q: string): string { "- " + q }

  /** `[f"- {q}" for q in questions if q.strip()][:200]`: the lines of the question block. */
  function QuestionLines(questions: seq<string>): (lines: seq<string>)
    ensures |lines| <= MaxPromptQuestions
    ensures |lines| == Min(|Filter(questions, NotBlank)|, MaxPromptQuestions)
    ensures forall i :: 0 <= i < |lines| ==> lines[i] == "- " + Filter(questions, NotBlank)[i]
  {
    var kept := Filter(questions, NotBlank);
    var bullets := Map(kept, Bullet);
    var lines := PyTake(bullets, MaxPromptQuestions);
    lines
  }

  function Min(a: int, b: int): int { if a <= b then a else b }

  /** Blank questions are dropped before the cut at 200, so they never take a place. */
  lemma BlankQuestionsTakeNoPlace(questions: seq<string>, blanks: seq<string>)
    requires forall i :: 0 <= i < |blanks| ==> IsBlank(blanks[i])
    ensures QuestionLines(blanks + questions) == QuestionLines(questions)
  {
    FilterAppend(blanks, questions, NotBlank);
    FilterNone(blanks, NotBlank);
    assert Filter(blanks, NotBlank) + Filter(questions, NotBlank) == Filter(questions, NotBlank);
  }

  /** The user message of `label_single_cluster`. */
  function UserPrompt(taxonomy: seq<string>, questions: seq<string>): string {
    "Taxonomy: [" + Join(", ", taxonomy) + "]\n\n"
    + "Given the cluster questions below, return JSON with keys:\n"
    + "- \"category\": one of the taxonomy values\n"
    + "- \"label_rationale\": short reason (optional)\n\n"
    + "Cluster questions:\n" + Join("\n", QuestionLines(questions)) + "\n"
  }

  /** What a chat completion request gives back: an exception, or the message content,
      which may be None. */
  datatype ChatOutcome = ChatRaises | Content(text: Option<string>)

  /** The inputs that stand for the model, the JSON parser and `str()`. */
  datatype LabelOracles = LabelOracles(
    chat: string -> ChatOutcome,
    loads: string -> Option<Json>,
    pyStr: Json -> string)

  /** `str(v)` for a loaded JSON value: a string is itself. */
  function StrJson(v: Json, pyStr: Json -> string): string {
    if v.JString? then v.s else pyStr(v)
  }

  /** `_safe_json_loads(content) or {}`: a failed parse and every falsy value become an
      empty dict. */
  function ReplyData(content: Option<string>, loads: string -> Option<Json>): (d: Json)
    ensures var parsed := loads(Strip(content.GetOr("")));
            Truthy(d) <==> parsed.Some? && Truthy(parsed.value)
    ensures var parsed := loads(Strip(content.GetOr("")));
            Truthy(d) ==> d == parsed.value
    ensures !Truthy(d) ==> d == JObject([])
  {
    var parsed := loads(Strip(content.GetOr("")));
    if parsed.None? || !Truthy(parsed.value) then JObject([]) else parsed.value
  }

  /** `label_rationale`: None when missing or null, else the stripped `str()` of the
      value, None when that is empty. */
  function RationaleOf(v: Option<Json>, pyStr: Json -> string): (r: Option<string>)
    ensures v.None? || v == Some(JNull) ==> r.None?
    ensures r.Some? ==> r.value != "" && r.value == Strip(r.value)
    ensures v.Some? && !v.value.JNull? ==> (r.None? <==> Strip(StrJson(v.value, pyStr)) == "")
    ensures r.Some? ==> v.Some? && r.value == Strip(StrJson(v.value, pyStr))
    ensures v.Some? && v.value.JString? && !IsBlank(v.value.s) ==> r == Some(Strip(v.value.s))
  {
    if v.None? || v.value.JNull? then None
    else
      var t := Strip(StrJson(v.value, pyStr));
      StripWithIdempotent(StrJson(v.value, pyStr), IsSpace);
      if t == "" then None else Some(t)
  }

  /** `str(data.get("category", "other")).strip().lower()`, replaced by "other" when it
      is not a taxonomy value. */
  function CategoryOf(v: Option<Json>, pyStr: Json -> string, taxonomy: seq<string>): (c: string)
    ensures c in taxonomy || c == "other"
    ensures forall k :: 0 <= k < |c| ==> !IsUpper(c[k])
    ensures v.None? ==> c == "other"
    ensures c != "other" ==> v.Some? && c in taxonomy && c == Lower(Strip(StrJson(v.value, pyStr)))
    ensures v.Some? && Lower(Strip(StrJson(v.value, pyStr))) in taxonomy ==>
              c == Lower(Strip(StrJson(v.value, pyStr)))
  {
    if v.None? then "other"
    else
      var category := Lower(Strip(StrJson(v.value, pyStr)));
      if category in taxonomy then category else "other"
  }

  /** A category is read back whatever its case and surrounding spaces. */
  lemma CategoryOfExample(pyStr: Json -> string, taxonomy: seq<string>)
    requires "crypto" in taxonomy
    ensures CategoryOf(Some(JString(" Crypto ")), pyStr, taxonomy) == "crypto"
  {
    assert " Crypto "[1..] == "Crypto ";
    assert StripLeftWith(" Crypto ", IsSpace) == "Crypto ";
    assert "Crypto "[..6] == "Crypto";
    assert StripRightWith("Crypto ", IsSpace) == "Crypto";
    assert Strip(" Crypto ") == "Crypto";
    var l := Lower("Crypto");
    assert l[0] == 'c' && l[1] == 'r' && l[2] == 'y' && l[3] == 'p' && l[4] == 't' && l[5] == 'o';
    assert l == "crypto";
  }

  /** The category and rationale read from a reply. A truthy reply that is not a dict
      has no `.get`: AttributeError. */
  function ParseLabel(content: Option<string>, taxonomy: seq<string>, oracles: LabelOracles)
    : (r: Result<ClusterLabel>)
    ensures r.Err? <==> !ReplyData(content, oracles.loads).JObject?
    ensures r.Err? ==> r.error == AttributeError
    ensures r.Ok? ==>
              var entries := ReplyData(content, oracles.loads).entries;
              r.value == (CategoryOf(Get(entries, "category"), oracles.pyStr, taxonomy),
                          RationaleOf(Get(entries, "label_rationale"), oracles.pyStr))
  {
    var data := ReplyData(content, oracles.loads);
    if !data.JObject? then Err(AttributeError)
    else
      Ok((CategoryOf(Get(data.entries, "category"), oracles.pyStr, taxonomy),
          RationaleOf(Get(data.entries, "label_rationale"), oracles.pyStr)))
  }

  /** An unparseable or empty reply labels the cluster "other" with no rationale. */
  lemma ParseLabelFallback(content: Option<string>, taxonomy: seq<string>, oracles: LabelOracles)
    requires oracles.loads(Strip(content.GetOr(""))).None?
    ensures ParseLabel(content, taxonomy, oracles) == Ok(("other", None))
  {
  }

  /** `label_single_cluster(questions, ...)`: one chat request; its exception propagates. */
  function LabelSingleCluster(questions: seq<string>, taxonomy: seq<string>, oracles: LabelOracles)
    : (r: Result<ClusterLabel>)
    ensures oracles.chat(UserPrompt(taxonomy, questions)).ChatRaises? ==> r == Err(ExternalError)
    ensures oracles.chat(UserPrompt(taxonomy, questions)).Content? ==>
              r == ParseLabel(oracles.chat(UserPrompt(taxonomy, questions)).text, taxonomy, oracles)
  {
    match oracles.chat(UserPrompt(taxonomy, questions))
    case ChatRaises => Err(ExternalError)
    case Content(text) => ParseLabel(text, taxonomy, oracles)
  }

  /** `(c.category or "other") == "other"`. */
  predicate Unlabeled(c: Cluster) {
    c.category == "" || c.category == "other"
  }

  /** The clusters `run_label_clusters` labels: the unlabelled ones when asked, then the
      first `max_clusters` (a negative count drops that many from the end). */
  function SelectClusters(clusters: seq<Cluster>, onlyUnlabeled: bool, maxClusters: int): (r: seq<Cluster>)
    ensures onlyUnlabeled ==> forall i :: 0 <= i < |r| ==> Unlabeled(r[i])
    ensures r == PyTake(if onlyUnlabeled then Filter(clusters, Unlabeled) else clusters, maxClusters)
    ensures r <= (if onlyUnlabeled then Filter(clusters, Unlabeled) else clusters)
    ensures 0 <= maxClusters ==> |r| <= maxClusters
    ensures forall i :: 0 <= i < |r| ==> r[i] in clusters
  {
    var pool := if onlyUnlabeled then Filter(clusters, Unlabeled) else clusters;
    var r := PyTake(pool, maxClusters);
    assert forall i :: 0 <= i < |r| ==> r[i] == pool[i];
    r
  }

  /** The questions of a sample: `[m.question for m in markets if m.question]`. */
  predicate HasQuestion(m: Market) { m.question != "" }

  function MarketQuestion(m: Market): string { m.question }

  /** The label one selected cluster gets: its first `sample_size` market ids are looked
      up, and without any question it gets the fixed label and no request is made. */
  function LabelFor(c: Cluster, sampleSize: int, taxonomy: seq<string>,
                    byIds: seq<string> -> seq<Market>, oracles: LabelOracles): (r: Result<ClusterLabel>)
    ensures Filter(byIds(PyTake(c.marketIds, sampleSize)), HasQuestion) == [] ==>
              r == Ok(("other", Some(NoQuestionsRationale)))
    ensures r.Ok? ==> r.value.0 in taxonomy || r.value.0 == "other"
  {
    var questions := Map(Filter(byIds(PyTake(c.marketIds, sampleSize)), HasQuestion), MarketQuestion);
    if questions == [] then Ok(("other", Some(NoQuestionsRationale)))
    else LabelSingleCluster(questions, taxonomy, oracles)
  }

  /** One selected cluster's id and its label, or the exception its labelling raised. */
  type LabelOutcome = (string, Result<ClusterLabel>)

  function LabelStep(sampleSize: int, taxonomy: seq<string>, byIds: seq<string> -> seq<Market>,
                     oracles: LabelOracles): Cluster -> LabelOutcome
  {
    (c: Cluster) => (c.clusterId, LabelFor(c, sampleSize, taxonomy, byIds, oracles))
  }

  /** The outcomes of labelling each selected cluster in turn. */
  function LabelOutcomes(cs: seq<Cluster>, sampleSize: int, taxonomy: seq<string>,
                         byIds: seq<string> -> seq<Market>, oracles: LabelOracles): seq<LabelOutcome>
  {
    Map(cs, LabelStep(sampleSize, taxonomy, byIds, oracles))
  }

  /** The `labels` dict the loop builds from the outcomes, or the first exception: a
      later cluster with the same id overwrites the earlier entry. */
  function Collect(outs: seq<LabelOutcome>): Result<map<string, ClusterLabel>>
    decreases |outs|
  {
    if outs == [] then Ok(map[])
    else
      var n := |outs| - 1;
      var init := Collect(outs[..n]);
      if init.Err? then init
      else if outs[n].1.Err? then Err(outs[n].1.error)
      else Ok(init.value[outs[n].0 := outs[n].1.value])
  }

  /** The dict has exactly the ids of the outcomes, and the loop fails iff some cluster's
      labelling raised. */
  lemma {:induction false} CollectShape(outs: seq<LabelOutcome>)
    ensures Collect(outs).Ok? ==> Collect(outs).value.Keys == set i | 0 <= i < |outs| :: outs[i].0
    ensures Collect(outs).Err? <==> exists i :: 0 <= i < |outs| && outs[i].1.Err?
    decreases |outs|
  {
    if outs != [] {
      var n := |outs| - 1;
      CollectShape(outs[..n]);
      assert forall i :: 0 <= i < n ==> outs[..n][i] == outs[i];
      if Collect(outs).Ok? {
        assert (set i | 0 <= i < |outs| :: outs[i].0) ==
               (set i | 0 <= i < n :: outs[..n][i].0) + {outs[n].0};
      }
    }
  }

  /** One more outcome: an earlier exception stands, a new one aborts, a label is added. */
  lemma CollectSnoc(outs: seq<LabelOutcome>, o: LabelOutcome)
    ensures Collect(outs + [o]) ==
              if Collect(outs).Err? then Collect(outs)
              else if o.1.Err? then Err(o.1.error)
              else Ok(Collect(outs).value[o.0 := o.1.value])
  {
    assert (outs + [o])[..|outs|] == outs;
  }

  /** Every entry of the dict is the label of some cluster with that id. */
  lemma {:induction false} CollectEntries(outs: seq<LabelOutcome>, cid: string)
    requires Collect(outs).Ok? && cid in Collect(outs).value
    ensures exists i :: 0 <= i < |outs| && outs[i].0 == cid && outs[i].1 == Ok(Collect(outs).value[cid])
    decreases |outs|
  {
    var n := |outs| - 1;
    assert forall i :: 0 <= i < n ==> outs[..n][i] == outs[i];
    if outs[n].0 != cid {
      CollectEntries(outs[..n], cid);
    }
  }

  /** An id that appears once gets exactly the label computed for it. */
  lemma {:induction false} CollectUnique(outs: seq<LabelOutcome>, i: nat)
    requires i < |outs| && Collect(outs).Ok?
    requires forall j :: 0 <= j < |outs| && j != i ==> outs[j].0 != outs[i].0
    ensures outs[i].1.Ok? && outs[i].0 in Collect(outs).value && Collect(outs).value[outs[i].0] == outs[i].1.value
    decreases |outs|
  {
    var n := |outs| - 1;
    assert forall j :: 0 <= j < n ==> outs[..n][j] == outs[j];
    if i < n {
      CollectUnique(outs[..n], i);
    }
  }

  /** Whatever the model replies, every label is a taxonomy value or "other". */
  lemma LabelsInTaxonomy(cs: seq<Cluster>, sampleSize: int, taxonomy: seq<string>,
                         byIds: seq<string> -> seq<Market>, oracles: LabelOracles, cid: string)
    requires var r := Collect(LabelOutcomes(cs, sampleSize, taxonomy, byIds, oracles));
             r.Ok? && cid in r.value
    ensures var l := Collect(LabelOutcomes(cs, sampleSize, taxonomy, byIds, oracles)).value[cid];
            l.0 in taxonomy || l.0 == "other"
  {
    var outs := LabelOutcomes(cs, sampleSize, taxonomy, byIds, oracles);
    CollectEntries(outs, cid);
    var i :| 0 <= i < |outs| && outs[i].0 == cid && outs[i].1 == Ok(Collect(outs).value[cid]);
    assert outs[i].1 == LabelFor(cs[i], sampleSize, taxonomy, byIds, oracles);
  }

  /** `run_label_clusters(database_url, ...)` given the settings' API key and defaults,
      what `read_clusters` returned and the store's `read_markets_by_ids`. The returned
      `writes` are the store calls made: one `update_cluster_labels` with the whole
      dict at the end, or none. */
  method RunLabelClusters(apiKey: string, read: Result<seq<Cluster>>, taxonomy: seq<string>,
                          maxClusters: Option<int>, settingsMaxClusters: int,
                          sampleSize: Option<int>, settingsSampleSize: int, onlyUnlabeled: bool,
                          byIds: seq<string> -> seq<Market>, oracles: LabelOracles)
    returns (r: Result<map<string, ClusterLabel>>, writes: seq<Store.StoreCall>)
    ensures apiKey == "" ==> r == Err(ValueError) && writes == []
    ensures apiKey != "" && read.Err? ==> r == Err(read.error) && writes == []
    ensures apiKey != "" && read == Ok([]) ==> r == Ok(map[]) && writes == []
    ensures apiKey != "" && read.Ok? && read.value != [] ==>
              var selected := SelectClusters(read.value, onlyUnlabeled, maxClusters.GetOr(settingsMaxClusters));
              var expected := Collect(LabelOutcomes(selected, sampleSize.GetOr(settingsSampleSize),
                                                    taxonomy, byIds, oracles));
              && r == expected
              && (expected.Ok? ==> writes == [Store.UpdateClusterLabels(expected.value)])
              && (expected.Err? ==> writes == [])
  {
    if apiKey == "" {
      return Err(ValueError), [];
    }
    var mc := maxClusters.GetOr(settingsMaxClusters);
    var ss := sampleSize.GetOr(settingsSampleSize);
    if read.Err? {
      return Err(read.error), [];
    }
    var clusters := read.value;
    if clusters == [] {
      return Ok(map[]), [];
    }
    var selected := SelectClusters(clusters, onlyUnlabeled, mc);
    r := LabelEach(selected, LabelStep(ss, taxonomy, byIds, oracles));
    writes := if r.Ok? then [Store.UpdateClusterLabels(r.value)] else [];
  }

  /** The loop `for c in clusters: labels[c.cluster_id] = label_single_cluster(...)`; an
      exception ends it. */
  method LabelEach(selected: seq<Cluster>, step: Cluster -> LabelOutcome)
    returns (r: Result<map<string, ClusterLabel>>)
    ensures r == Collect(Map(selected, step))
  {
    ghost var outs := Map(selected, step);
    var labels: map<string, ClusterLabel> := map[];
    var i := 0;
    while i < |selected|
      invariant 0 <= i <= |selected|
      invariant Collect(outs[..i]) == Ok(labels)
    {
      var (cid, res) := step(selected[i]);
      assert outs[i] == (cid, res);
      assert outs[..i + 1] == outs[..i] + [outs[i]];
      CollectSnoc(outs[..i], outs[i]);
      if res.Err? {
        CollectPrefixErr(outs, i + 1);
        return Err(res.error);
      }
      labels := labels[cid := res.value];
      i := i + 1;
    }
    assert outs[..i] == outs;
    return Ok(labels);
  }

  /** An exception in a prefix of the outcomes is the result of the whole loop. */
  lemma {:induction false} CollectPrefixErr(outs: seq<LabelOutcome>, i: nat)
    requires i <= |outs| && Collect(outs[..i]).Err?
    ensures Collect(outs) == Collect(outs[..i])
    decreases |outs| - i
  {
    if i < |outs| {
      assert outs[..i + 1] == outs[..i] + [outs[i]];
      CollectSnoc(outs[..i], outs[i]);
      CollectPrefixErr(outs, i + 1);
    } else {
      assert outs[..i] == outs;
    }
  }
}
