/** The deterministic part of semantic_agent/pipeline/cluster.py: the choice of k, the
    choice of algorithm, and the clusters built from the labels K-means assigns. The
    vector collection and the K-means fit are inputs, and the `write_clusters` call is
    returned as the list it is given (its effect is `Store.Database.WriteClusters`). */
module Clustering {
  import opened Wrappers
  import opened Seqs
  import opened Strings
  import opened Models
  import opened Embed

  /** `_MINIBATCH_THRESHOLD`. */
  const MinibatchThreshold := 5000

  /** `use_minibatch = n >= _MINIBATCH_THRESHOLD`. */
  predicate UseMinibatch(n: nat) {
    n >= MinibatchThreshold
  }

  /** `k = max(1, min(int(n * cluster_ratio), max_clusters))`, then at most `n`; `scaled`
      is `int(n * cluster_ratio)`. */
  function ClusterCount(n: nat, scaled: int, maxClusters: int): (k: int)
    ensures n >= 1 ==> 1 <= k <= n
    ensures n == 0 ==> k == 0
    ensures k <= n
    ensures 1 <= scaled && 1 <= maxClusters ==> k == Min(n, Min(scaled, maxClusters))
    ensures scaled < 1 || maxClusters < 1 ==> k == Min(n, 1)
  {
    var k := if scaled < maxClusters then scaled else maxClusters;
    var k := if k < 1 then 1 else k;
    if k > n then n else k
  }

  function Min(a: int, b: int): int { if a <= b then a else b }

  /** The cluster id `f"c_{i}"`. */
  function ClusterId(i: nat): string {
    "c_" + NatToString(i)
  }

  /** Different positions give different cluster ids. */
  lemma ClusterIdInjective(i: nat, j: nat)
    requires ClusterId(i) == ClusterId(j)
    ensures i == j
  {
    assert NatToString(i) == ClusterId(i)[2..];
    assert NatToString(j) == ClusterId(j)[2..];
    NatToStringInjective(i, j);
  }

  /** `[ids_returned[j] for j in range(n) if labels[j] == c]`, with `n = |ids|`. */
  function Members(ids: seq<string>, labels: seq<int>, c: int): (r: seq<string>)
    requires |labels| >= |ids|
    ensures |r| <= |ids|
    ensures forall x :: x in r <==> exists j :: 0 <= j < |ids| && ids[j] == x && labels[j] == c
    decreases |ids|
  {
    if ids == [] then []
    else
      var n := |ids| - 1;
      var init := Members(ids[..n], labels, c);
      assert forall j :: 0 <= j < n ==> ids[..n][j] == ids[j];
      if labels[n] == c then init + [ids[n]] else init
  }

  /** With distinct ids, an id is a member of exactly the cluster its label names. */
  lemma MemberIffLabel(ids: seq<string>, labels: seq<int>, j: nat, c: int)
    requires |labels| >= |ids| && j < |ids|
    requires forall a, b :: 0 <= a < b < |ids| ==> ids[a] != ids[b]
    ensures ids[j] in Members(ids, labels, c) <==> labels[j] == c
  {
    if ids[j] in Members(ids, labels, c) {
      var j' :| 0 <= j' < |ids| && ids[j'] == ids[j] && labels[j'] == c;
      assert j' == j;
    }
  }

  /** The sizes of clusters `0 .. m-1`, added up. */
  function Total(ids: seq<string>, labels: seq<int>, m: nat): nat
    requires |labels| >= |ids|
  {
    if m == 0 then 0 else Total(ids, labels, m - 1) + |Members(ids, labels, m - 1)|
  }

  /** One more id adds one member to the cluster its label names and to no other. */
  lemma {:induction false} TotalSnoc(ids: seq<string>, labels: seq<int>, m: nat)
    requires |labels| > |ids|
    ensures Total(ids + [""], labels, m) ==
              Total(ids, labels, m) + (if 0 <= labels[|ids|] < m then 1 else 0)
  {
    var ids' := ids + [""];
    assert ids'[..|ids|] == ids;
    if m > 0 {
      TotalSnoc(ids, labels, m - 1);
    }
  }

  /** Sizes do not depend on the ids themselves, only on the labels. */
  lemma {:induction false} MembersSizeOnlyLabels(ids: seq<string>, ids2: seq<string>, labels: seq<int>, c: int)
    requires |ids| == |ids2| && |labels| >= |ids|
    ensures |Members(ids, labels, c)| == |Members(ids2, labels, c)|
    decreases |ids|
  {
    if ids != [] {
      MembersSizeOnlyLabels(ids[..|ids| - 1], ids2[..|ids2| - 1], labels, c);
    }
  }

  lemma {:induction false} TotalOnlyLabels(ids: seq<string>, ids2: seq<string>, labels: seq<int>, m: nat)
    requires |ids| == |ids2| && |labels| >= |ids|
    ensures Total(ids, labels, m) == Total(ids2, labels, m)
  {
    if m > 0 {
      TotalOnlyLabels(ids, ids2, labels, m - 1);
      MembersSizeOnlyLabels(ids, ids2, labels, m - 1);
    }
  }

  /** With every label in `[0, k)`, the k clusters together hold every returned id once:
      their sizes add up to `n`. */
  lemma {:induction false} ClustersPartition(ids: seq<string>, labels: seq<int>, k: nat)
    requires |labels| >= |ids|
    requires forall j :: 0 <= j < |ids| ==> 0 <= labels[j] < k
    ensures Total(ids, labels, k) == |ids|
    decreases |ids|
  {
    if ids == [] {
      TotalEmpty(labels, k);
    } else {
      var n := |ids| - 1;
      ClustersPartition(ids[..n], labels, k);
      TotalSnoc(ids[..n], labels, k);
      TotalOnlyLabels(ids, ids[..n] + [""], labels, k);
    }
  }

  lemma {:induction false} TotalEmpty(labels: seq<int>, m: nat)
    ensures Total([], labels, m) == 0
  {
    if m > 0 {
      TotalEmpty(labels, m - 1);
    }
  }

  /** The `for i in range(k)` loop: cluster `i` is `c_i`, holds the ids labelled `i` in
      returned order, and has category "other"; a cluster no id is labelled with is kept. */
  method BuildClusters(ids: seq<string>, labels: seq<int>, k: nat) returns (cs: seq<Cluster>)
    requires |labels| >= |ids|
    ensures |cs| == k
    ensures forall i :: 0 <= i < k ==>
              cs[i] == Cluster(ClusterId(i), Members(ids, labels, i), "other", None)
  {
    cs := [];
    var i := 0;
    while i < k
      invariant 0 <= i <= k && |cs| == i
      invariant forall c :: 0 <= c < i ==>
                  cs[c] == Cluster(ClusterId(c), Members(ids, labels, c), "other", None)
    {
      var clusterMarketIds := Members(ids, labels, i);
      cs := cs + [Cluster(ClusterId(i), clusterMarketIds, "other", None)];
      i := i + 1;
    }
  }

  /** The clusters have pairwise distinct ids. */
  lemma BuiltIdsDistinct(cs: seq<Cluster>, ids: seq<string>, labels: seq<int>, k: nat)
    requires |labels| >= |ids| && |cs| == k
    requires forall i :: 0 <= i < k ==>
               cs[i] == Cluster(ClusterId(i), Members(ids, labels, i), "other", None)
    ensures forall a, b :: 0 <= a < b < |cs| ==> cs[a].clusterId != cs[b].clusterId
  {
    forall a, b | 0 <= a < b < |cs|
      ensures cs[a].clusterId != cs[b].clusterId
    {
      if cs[a].clusterId == cs[b].clusterId {
        ClusterIdInjective(a, b);
      }
    }
  }

  /** What `collection.get(ids=market_ids, include=["embeddings"])` returns. */
  datatype ChromaReply = ChromaReply(ids: seq<string>, embeddings: seq<Vector>)

  /** `run_cluster_and_store(database_url, ...)` given what `read_markets` returned,
      whether the vector store's directory and collection exist, the collection's reply,
      `int(n * cluster_ratio)` as a function of `n`, and the K-means fit (None when it
      raises). `written` is the argument of the one `write_clusters` call, or None when
      the function returns before it. */
  method RunClusterAndStore(read: Result<seq<Market>>, chromaPathExists: bool, collectionExists: bool,
                            get: seq<string> -> ChromaReply, scale: nat -> int, maxClusters: int,
                            fitPredict: (seq<Vector>, nat, bool) -> Option<seq<int>>)
    returns (r: Result<seq<Cluster>>, written: Option<seq<Cluster>>)
    ensures read.Err? ==> r == Err(read.error) && written.None?
    ensures read == Ok([]) || (read.Ok? && (!chromaPathExists || !collectionExists)) ==>
              r == Ok([]) && written.None?
    ensures r.Ok? && r.value == [] ==> written.None?
    ensures written.Some? ==> r == Ok(written.value)
    ensures read.Ok? && read.value != [] && chromaPathExists && collectionExists ==>
              var reply := get(Map(read.value, MarketId));
              var n := |reply.ids|;
              var k := ClusterCount(n, scale(n), maxClusters);
              && (reply.ids == [] || reply.embeddings == [] ==> r == Ok([]) && written.None?)
              && (reply.ids != [] && reply.embeddings != [] ==>
                    var labels := fitPredict(reply.embeddings, k, UseMinibatch(n));
                    && (labels.None? ==> r == Err(ExternalError) && written.None?)
                    && (labels.Some? && |labels.value| < n ==> r == Err(IndexError) && written.None?)
                    && (labels.Some? && |labels.value| >= n ==>
                          && 1 <= k <= n && written.Some? && |written.value| == k
                          && forall i :: 0 <= i < k ==>
                               written.value[i] ==
                                 Cluster(ClusterId(i), Members(reply.ids, labels.value, i), "other", None)))
  {
    if read.Err? {
      return Err(read.error), None;
    }
    var markets := read.value;
    if markets == [] {
      return Ok([]), None;
    }
    var marketIds := Map(markets, MarketId);
    if !chromaPathExists || !collectionExists {
      return Ok([]), None;
    }
    var reply := get(marketIds);
    if reply.ids == [] || reply.embeddings == [] {
      return Ok([]), None;
    }
    var n := |reply.ids|;
    var k := ClusterCount(n, scale(n), maxClusters);
    var labels := fitPredict(reply.embeddings, k, UseMinibatch(n));
    if labels.None? {
      return Err(ExternalError), None;
    }
    if |labels.value| < n {
      // `labels[j]` for `j` in `range(n)` runs off the end
      return Err(IndexError), None;
    }
    var clusters := BuildClusters(reply.ids, labels.value, k);
    return Ok(clusters), Some(clusters);
  }
}
