/** semantic_agent/pipeline/evaluate.py: predicted relations scored against resolved
    outcomes, overall, per cluster and per confidence bucket. The store reads are inputs;
    bucket labels are a datatype rather than formatted floats. */
module Evaluate {
  import opened Wrappers
  import opened Seqs
  import opened Sorting
  import opened Models

  // ---------------------------------------------------------------------------------
  // Buckets and accuracies

  /** An `EvalBucket`'s counts. */
  datatype Bucket = Bucket(n: nat, correct: nat)

  /** `correct / n if n else 0.0`. */
  function Ratio(correct: nat, n: nat): (a: real)
    ensures n == 0 ==> a == 0.0
    ensures n > 0 ==> a * (n as real) == correct as real
    ensures correct <= n ==> 0.0 <= a <= 1.0
  {
    if n == 0 then 0.0 else correct as real / n as real
  }

  /** `EvalBucket.accuracy`. */
  function BucketAccuracy(b: Bucket): (a: real)
    ensures b.n == 0 ==> a == 0.0
    ensures b.n > 0 ==> a * (b.n as real) == b.correct as real
    ensures b.correct <= b.n ==> 0.0 <= a <= 1.0
  {
    Ratio(b.correct, b.n)
  }

  /** One more evaluated relation in a bucket. */
  function Inc(b: Bucket, correct: bool): (r: Bucket)
    ensures r.n == b.n + 1
    ensures r.correct == b.correct + (if correct then 1 else 0)
  {
    Bucket(b.n + 1, b.correct + (if correct then 1 else 0))
  }

  /** A Python dict, which remembers the order its keys were first inserted in. */
  datatype Dict<K, V> = Dict(keys: seq<K>, entries: map<K, V>)

  ghost predicate DictValid<K(!new), V>(d: Dict<K, V>) {
    && (forall i, j :: 0 <= i < j < |d.keys| ==> d.keys[i] != d.keys[j])
    && (forall k :: k in d.entries <==> k in d.keys)
  }

  /** Every bucket present has counted at least one relation, and no more correct ones
      than it counted. */
  ghost predicate BucketsSound<K(!new)>(d: Dict<K, Bucket>) {
    forall k :: k in d.entries ==> 1 <= d.entries[k].n && d.entries[k].correct <= d.entries[k].n
  }

  /** `if key not in d: d[key] = EvalBucket()`, then `n += 1` and `correct += 1` when
      correct. */
  function Bump<K(!new)>(d: Dict<K, Bucket>, k: K, correct: bool): (r: Dict<K, Bucket>)
    ensures k in r.entries && r.entries[k] == Inc(if k in d.entries then d.entries[k] else Bucket(0, 0), correct)
    ensures forall k' :: k' != k ==> (k' in r.entries <==> k' in d.entries)
    ensures forall k' :: k' != k && k' in d.entries ==> r.entries[k'] == d.entries[k']
  {
    if k in d.entries then Dict(d.keys, d.entries[k := Inc(d.entries[k], correct)])
    else Dict(d.keys + [k], d.entries[k := Inc(Bucket(0, 0), correct)])
  }

  function BucketN(b: Bucket): nat { b.n }
  function BucketCorrect(b: Bucket): nat { b.correct }

  /** A field of the buckets, added up over the keys. */
  function SumBy<K>(keys: seq<K>, m: map<K, Bucket>, f: Bucket -> nat): nat
    requires forall i :: 0 <= i < |keys| ==> keys[i] in m
    decreases |keys|
  {
    if keys == [] then 0 else f(m[keys[0]]) + SumBy(keys[1..], m, f)
  }

  function Delta(correct: bool): nat { if correct then 1 else 0 }

  /** Changing the entry of a key that occurs once among the keys changes the sum by the
      change in that entry. */
  lemma {:induction false} SumByUpdate<K>(keys: seq<K>, m: map<K, Bucket>, k: K, b: Bucket, f: Bucket -> nat)
    requires forall i :: 0 <= i < |keys| ==> keys[i] in m
    requires forall i, j :: 0 <= i < j < |keys| ==> keys[i] != keys[j]
    requires k in m
    ensures SumBy(keys, m[k := b], f) + (if k in keys then f(m[k]) else 0) ==
            SumBy(keys, m, f) + (if k in keys then f(b) else 0)
    decreases |keys|
  {
    if keys != [] {
      SumByUpdate(keys[1..], m, k, b, f);
      assert keys[0] == k ==> k !in keys[1..];
      assert k in keys ==> keys[0] == k || k in keys[1..];
    }
  }

  /** A new key at the end adds its entry to the sum. */
  lemma {:induction false} SumBySnoc<K>(keys: seq<K>, m: map<K, Bucket>, k: K, b: Bucket, f: Bucket -> nat)
    requires forall i :: 0 <= i < |keys| ==> keys[i] in m
    requires k !in keys
    ensures SumBy(keys + [k], m[k := b], f) == SumBy(keys, m, f) + f(b)
    decreases |keys|
  {
    if keys == [] {
      assert [k][1..] == [];
    } else {
      assert (keys + [k])[1..] == keys[1..] + [k];
      SumBySnoc(keys[1..], m, k, b, f);
    }
  }

  /** A bump keeps the dict well formed and its buckets sound, and adds one to the
      counted total and one more to the correct total when the relation is correct. */
  lemma BumpSums<K(!new)>(d: Dict<K, Bucket>, k: K, correct: bool)
    requires DictValid(d) && BucketsSound(d)
    ensures DictValid(Bump(d, k, correct)) && BucketsSound(Bump(d, k, correct))
    ensures SumBy(Bump(d, k, correct).keys, Bump(d, k, correct).entries, BucketN) ==
            SumBy(d.keys, d.entries, BucketN) + 1
    ensures SumBy(Bump(d, k, correct).keys, Bump(d, k, correct).entries, BucketCorrect) ==
            SumBy(d.keys, d.entries, BucketCorrect) + Delta(correct)
  {
    BumpValid(d, k, correct);
    BumpTotal(d, k, correct, BucketN);
    BumpTotal(d, k, correct, BucketCorrect);
  }

  /** A bump keeps the dict well formed and its buckets sound. */
  lemma BumpValid<K(!new)>(d: Dict<K, Bucket>, k: K, correct: bool)
    requires DictValid(d) && BucketsSound(d)
    ensures DictValid(Bump(d, k, correct)) && BucketsSound(Bump(d, k, correct))
  {
    var r := Bump(d, k, correct);
    if k !in d.entries {
      assert forall i :: 0 <= i < |d.keys| ==> r.keys[i] == d.keys[i];
    }
  }

  /** The change a bump makes to one field's total. */
  lemma BumpTotal<K(!new)>(d: Dict<K, Bucket>, k: K, correct: bool, f: Bucket -> nat)
    requires DictValid(d)
    ensures DictValid(Bump(d, k, correct))
    ensures SumBy(Bump(d, k, correct).keys, Bump(d, k, correct).entries, f) ==
            SumBy(d.keys, d.entries, f) + f(Bump(d, k, correct).entries[k]) -
              (if k in d.entries then f(d.entries[k]) else 0)
  {
    var r := Bump(d, k, correct);
    if k in d.entries {
      SumByUpdate(d.keys, d.entries, k, r.entries[k], f);
    } else {
      SumBySnoc(d.keys, d.entries, k, r.entries[k], f);
      assert forall i :: 0 <= i < |d.keys| ==> r.keys[i] == d.keys[i];
    }
  }

  // ---------------------------------------------------------------------------------
  // Confidence buckets

  /** The label of a confidence bucket: "all", "lo-hi" or ">=b". */
  datatype BucketLabel = All | Range(lo: real, hi: real) | AtLeast(b: real)

  predicate RealLe(a: real, b: real) { a <= b }

  lemma RealLeTotal()
    ensures TotalOrder(RealLe)
  {
  }

  /** `settings.eval_confidence_buckets or [0.5, 0.7, 0.9]`. */
  function EffectiveBuckets(configured: Option<seq<real>>): (b: seq<real>)
    ensures b != []
    ensures configured.Some? && configured.value != [] ==> b == configured.value
    ensures configured.None? || configured.value == [] ==> b == [0.5, 0.7, 0.9]
  {
    if configured.Some? && configured.value != [] then configured.value else [0.5, 0.7, 0.9]
  }

  /** The loop of `_confidence_bucket_label` from position `i` of the sorted boundaries. */
  function LabelFrom(score: real, sorted: seq<real>, i: nat): BucketLabel
    requires sorted != [] && i <= |sorted|
    decreases |sorted| - i
  {
    if i == |sorted| then AtLeast(sorted[|sorted| - 1])
    else if score < sorted[i] then Range(if i > 0 then sorted[i - 1] else 0.0, sorted[i])
    else LabelFrom(score, sorted, i + 1)
  }

  /** `_confidence_bucket_label(score, boundaries)`. */
  function BucketLabelOf(score: real, boundaries: seq<real>): BucketLabel {
    if boundaries == [] then All
    else
      RealLeTotal();
      LabelFrom(score, Sort(boundaries, RealLe), 0)
  }

  /** What the loop finds in sorted boundaries when every boundary before `i` is at most
      the score: the first boundary above the score and the one before it (or 0), or,
      when no boundary is above the score, the largest. */
  lemma {:induction false} LabelFromSpec(score: real, s: seq<real>, i: nat)
    requires s != [] && i <= |s| && SortedBy(s, RealLe)
    requires forall j :: 0 <= j < i ==> s[j] <= score
    ensures var l := LabelFrom(score, s, i);
            && !l.All?
            && (l.Range? ==> exists k :: 0 <= k < |s| && l.hi == s[k] && score < s[k] &&
                                 (forall j :: 0 <= j < k ==> s[j] <= score) &&
                                 l.lo == (if k > 0 then s[k - 1] else 0.0))
            && (l.AtLeast? ==> l.b == s[|s| - 1] && forall j :: 0 <= j < |s| ==> s[j] <= score)
    decreases |s| - i
  {
    if i < |s| && score >= s[i] {
      LabelFromSpec(score, s, i + 1);
    }
  }

  /** The start of a range: the largest boundary the score reaches, or 0 when the score
      is below every boundary. */
  ghost predicate RangeStart(lo: real, score: real, boundaries: seq<real>) {
    || (lo == 0.0 && forall b :: b in boundaries ==> score < b)
    || (lo in boundaries && lo <= score && forall b :: b in boundaries && b <= score ==> b <= lo)
  }

  /** At most one value is the start of a range: `RangeStart` fixes it. */
  lemma RangeStartUnique(lo1: real, lo2: real, score: real, boundaries: seq<real>)
    requires RangeStart(lo1, score, boundaries) && RangeStart(lo2, score, boundaries)
    ensures lo1 == lo2
  {
    if lo1 in boundaries && lo1 <= score {
      assert lo2 in boundaries && lo2 <= score;
      assert lo1 <= lo2 && lo2 <= lo1;
    }
  }

  /** `LabelFromSpec` from the start of the sorted boundaries, stated by membership. */
  lemma SortedLabelMeaning(score: real, s: seq<real>)
    requires s != [] && SortedBy(s, RealLe)
    ensures var l := LabelFrom(score, s, 0);
            && !l.All?
            && (l.Range? ==> l.hi in s && score < l.hi && forall b :: b in s && b < l.hi ==> b <= score)
            && (l.Range? ==> RangeStart(l.lo, score, s))
            && (l.AtLeast? ==> l.b in s && forall b :: b in s ==> b <= score)
  {
    LabelFromSpec(score, s, 0);
    var l := LabelFrom(score, s, 0);
    if l.Range? {
      var k :| 0 <= k < |s| && l.hi == s[k] && score < s[k] &&
               (forall j :: 0 <= j < k ==> s[j] <= score) &&
               l.lo == (if k > 0 then s[k - 1] else 0.0);
      forall b | b in s && b < l.hi ensures b <= score {
        var j :| 0 <= j < |s| && s[j] == b;
        assert j < k;
      }
      // A boundary the score reaches sits before position `k`.
      forall b | b in s && b <= score ensures k > 0 && b <= s[k - 1] {
        var j :| 0 <= j < |s| && s[j] == b;
        assert j < k;
        if j < k - 1 {
          assert RealLe(s[j], s[k - 1]);
        }
      }
      if k > 0 {
        assert l.lo == s[k - 1] && s[k - 1] in s;
      }
    }
  }

  /** Sorting keeps the members. */
  lemma SortSameMembers(boundaries: seq<real>)
    requires TotalOrder(RealLe)
    ensures forall x :: x in Sort(boundaries, RealLe) <==> x in boundaries
  {
    var s := Sort(boundaries, RealLe);
    forall x ensures x in s <==> x in boundaries {
      assert x in s <==> x in multiset(s);
      assert x in boundaries <==> x in multiset(boundaries);
    }
  }

  /** A label names the first boundary above the score, with every boundary below it at
      most the score, starting at the largest boundary the score reaches (or 0); `>=b`
      names the largest boundary, which the score reaches. */
  lemma BucketLabelMeaning(score: real, boundaries: seq<real>)
    ensures var l := BucketLabelOf(score, boundaries);
            && (l.All? <==> boundaries == [])
            && (l.Range? ==> l.hi in boundaries && score < l.hi &&
                              forall b :: b in boundaries && b < l.hi ==> b <= score)
            && (l.Range? ==> RangeStart(l.lo, score, boundaries))
            && (l.AtLeast? ==> l.b in boundaries && forall b :: b in boundaries ==> b <= score)
  {
    if boundaries != [] {
      RealLeTotal();
      var s := Sort(boundaries, RealLe);
      assert |s| == |boundaries|;
      SortedLabelMeaning(score, s);
      SortSameMembers(boundaries);
    }
  }

  /** The label does not depend on the order the boundaries are given in. */
  lemma BucketLabelOrderIndependent(score: real, b1: seq<real>, b2: seq<real>)
    requires multiset(b1) == multiset(b2)
    ensures BucketLabelOf(score, b1) == BucketLabelOf(score, b2)
  {
    RealLeTotal();
    SortOrderIndependent(b1, b2, RealLe);
    assert |b1| == |multiset(b1)| && |b2| == |multiset(b2)|;
  }

  /** With the default boundaries, a score of 0.6 falls in the bucket from 0.5 to 0.7. */
  lemma BucketLabelExample()
    ensures BucketLabelOf(0.6, [0.5, 0.7, 0.9]) == Range(0.5, 0.7)
  {
    var s := [0.5, 0.7, 0.9];
    RealLeTotal();
    assert SortedBy(s, RealLe);
    SortedUnique(Sort(s, RealLe), s, RealLe);
    assert LabelFrom(0.6, s, 1) == Range(0.5, 0.7);
  }

  /** The "all" bucket never occurs in a run, which always has boundaries. */
  lemma RunNeverLabelsAll(score: real, configured: Option<seq<real>>)
    ensures BucketLabelOf(score, EffectiveBuckets(configured)) != All
  {
    BucketLabelMeaning(score, EffectiveBuckets(configured));
  }

  /** The loop of `_confidence_bucket_label` over the sorted boundaries. */
  method ConfidenceBucketLabel(score: real, boundaries: seq<real>) returns (l: BucketLabel)
    ensures l == BucketLabelOf(score, boundaries)
  {
    if boundaries == [] {
      return All;
    }
    RealLeTotal();
    var sorted := Sort(boundaries, RealLe);
    assert |sorted| == |boundaries|;
    var i := 0;
    while i < |sorted|
      invariant 0 <= i <= |sorted|
      invariant LabelFrom(score, sorted, i) == LabelFrom(score, sorted, 0)
    {
      if score < sorted[i] {
        var low := if i > 0 then sorted[i - 1] else 0.0;
        return Range(low, sorted[i]);
      }
      i := i + 1;
    }
    return AtLeast(sorted[|sorted| - 1]);
  }

  // ---------------------------------------------------------------------------------
  // Scoring relations

  /** `{m.id: m.resolved_outcome for m in markets if m.resolved_outcome is not None}`. */
  function OutcomesById(markets: seq<Market>): (r: map<string, Outcome>)
    ensures forall id :: id in r <==> exists i :: 0 <= i < |markets| && markets[i].id == id && markets[i].resolvedOutcome.Some?
    ensures forall id :: id in r ==>
              exists i :: 0 <= i < |markets| && markets[i].id == id && markets[i].resolvedOutcome == Some(r[id])
    decreases |markets|
  {
    if markets == [] then map[]
    else
      var n := |markets| - 1;
      var init := OutcomesById(markets[..n]);
      assert forall i :: 0 <= i < n ==> markets[..n][i] == markets[i];
      var m := markets[n];
      if m.resolvedOutcome.Some? then init[m.id := m.resolvedOutcome.value] else init
  }

  /** The outcome kept for an id is that of the last resolved market with the id. */
  lemma {:induction false} OutcomesByIdLast(markets: seq<Market>, i: nat)
    requires i < |markets| && markets[i].resolvedOutcome.Some?
    requires forall j :: i < j < |markets| && markets[j].id == markets[i].id ==> markets[j].resolvedOutcome.None?
    ensures markets[i].id in OutcomesById(markets)
    ensures OutcomesById(markets)[markets[i].id] == markets[i].resolvedOutcome.value
    decreases |markets|
  {
    var n := |markets| - 1;
    var front, m := markets[..n], markets[n];
    assert markets == front + [m];
    OutcomesBySnoc(front, m);
    if i < n {
      assert front[i] == markets[i];
      forall j | i < j < n && front[j].id == front[i].id ensures front[j].resolvedOutcome.None? {
        assert front[j] == markets[j];
      }
      OutcomesByIdLast(front, i);
      assert m.id != markets[i].id || m.resolvedOutcome.None?;
    }
  }

  /** One more market overrides the outcome of its id when it is resolved. */
  lemma OutcomesBySnoc(front: seq<Market>, m: Market)
    ensures OutcomesById(front + [m]) ==
              if m.resolvedOutcome.Some? then OutcomesById(front)[m.id := m.resolvedOutcome.value]
              else OutcomesById(front)
  {
    assert (front + [m])[..|front|] == front;
  }

  /** None when the relation cannot be evaluated (confidence below `min_conf`, or a
      market without a YES/NO outcome); otherwise whether the prediction is correct:
      `is_same_outcome` agrees with whether the two outcomes are equal. */
  function Judge(rel: MarketRelation, outcomes: map<string, Outcome>, minConf: real): (r: Option<bool>)
    ensures r.Some? <==> minConf <= rel.confidence && rel.marketIdI in outcomes && rel.marketIdJ in outcomes
    ensures r.Some? ==> (r.value <==> (rel.isSameOutcome <==> outcomes[rel.marketIdI] == outcomes[rel.marketIdJ]))
  {
    if rel.confidence < minConf then None
    else if rel.marketIdI !in outcomes || rel.marketIdJ !in outcomes then None
    else Some(rel.isSameOutcome == (outcomes[rel.marketIdI] == outcomes[rel.marketIdJ]))
  }

  /** The counters the loop of `run_evaluate_relations` keeps. */
  datatype Counts = Counts(
    totalEvaluable: nat,
    totalCorrect: nat,
    byCluster: Dict<string, Bucket>,
    byConfidenceBucket: Dict<BucketLabel, Bucket>)

  const NoCounts := Counts(0, 0, Dict([], map[]), Dict([], map[]))

  /** The counters after filing one relation of cluster `cid` that was judged `correct`. */
  function Record(c: Counts, cid: string, correct: bool, lbl: BucketLabel): Counts {
    Counts(c.totalEvaluable + 1, c.totalCorrect + Delta(correct),
           Bump(c.byCluster, cid, correct), Bump(c.byConfidenceBucket, lbl, correct))
  }

  /** The counters after the loop over `(cluster_id, rel)` pairs. */
  function Tally(rels: seq<(string, MarketRelation)>, outcomes: map<string, Outcome>, minConf: real,
                 buckets: seq<real>): Counts
    decreases |rels|
  {
    if rels == [] then NoCounts
    else
      var n := |rels| - 1;
      var init := Tally(rels[..n], outcomes, minConf, buckets);
      var (cid, rel) := rels[n];
      match Judge(rel, outcomes, minConf)
      case None => init
      case Some(correct) => Record(init, cid, correct, BucketLabelOf(rel.confidence, buckets))
  }

  /** What holds of the counters after any number of relations. */
  ghost predicate CountsSound(c: Counts) {
    && c.totalCorrect <= c.totalEvaluable
    && DictValid(c.byCluster) && BucketsSound(c.byCluster)
    && DictValid(c.byConfidenceBucket) && BucketsSound(c.byConfidenceBucket)
    && SumBy(c.byCluster.keys, c.byCluster.entries, BucketN) == c.totalEvaluable
    && SumBy(c.byCluster.keys, c.byCluster.entries, BucketCorrect) == c.totalCorrect
    && SumBy(c.byConfidenceBucket.keys, c.byConfidenceBucket.entries, BucketN) == c.totalEvaluable
    && SumBy(c.byConfidenceBucket.keys, c.byConfidenceBucket.entries, BucketCorrect) == c.totalCorrect
  }

  lemma RecordSound(c: Counts, cid: string, correct: bool, lbl: BucketLabel)
    requires CountsSound(c)
    ensures CountsSound(Record(c, cid, correct, lbl))
  {
    BumpSums(c.byCluster, cid, correct);
    BumpSums(c.byConfidenceBucket, lbl, correct);
  }

  /** `total_correct <= total_evaluable <= total_relations`; the per-cluster and the
      per-bucket counts each add up to the totals; every bucket present has counted at
      least one relation and no more correct ones than it counted. */
  lemma {:induction false} TallySound(rels: seq<(string, MarketRelation)>, outcomes: map<string, Outcome>,
                                      minConf: real, buckets: seq<real>)
    ensures CountsSound(Tally(rels, outcomes, minConf, buckets))
    ensures Tally(rels, outcomes, minConf, buckets).totalEvaluable <= |rels|
    decreases |rels|
  {
    if rels != [] {
      var n := |rels| - 1;
      TallySound(rels[..n], outcomes, minConf, buckets);
      var init := Tally(rels[..n], outcomes, minConf, buckets);
      var (cid, rel) := rels[n];
      if Judge(rel, outcomes, minConf).Some? {
        RecordSound(init, cid, Judge(rel, outcomes, minConf).value, BucketLabelOf(rel.confidence, buckets));
      }
    }
  }

  /** Outcomes (Y,Y), (Y,N), (N,N), (Y,N) predicted same, same, same, opposite: three of
      the four are correct. */
  lemma TallyExample(r1: MarketRelation, r2: MarketRelation, r3: MarketRelation, r4: MarketRelation,
                     buckets: seq<real>)
    requires r1.confidence == r2.confidence == r3.confidence == r4.confidence == 0.8
    requires r1.marketIdI == "a" && r1.marketIdJ == "b" && r1.isSameOutcome
    requires r2.marketIdI == "a" && r2.marketIdJ == "c" && r2.isSameOutcome
    requires r3.marketIdI == "c" && r3.marketIdJ == "d" && r3.isSameOutcome
    requires r4.marketIdI == "a" && r4.marketIdJ == "d" && !r4.isSameOutcome
    ensures var t := Tally([("c_0", r1), ("c_0", r2), ("c_0", r3), ("c_0", r4)],
                           map["a" := YES, "b" := YES, "c" := NO, "d" := NO], 0.5, buckets);
            t.totalEvaluable == 4 && t.totalCorrect == 3 && Ratio(t.totalCorrect, t.totalEvaluable) == 0.75
  {
    var s1 := [("c_0", r1)];
    var s2 := s1 + [("c_0", r2)];
    var s3 := s2 + [("c_0", r3)];
    var s4 := s3 + [("c_0", r4)];
    var o := map["a" := YES, "b" := YES, "c" := NO, "d" := NO];
    assert s1[..0] == [] && s2[..1] == s1 && s3[..2] == s2 && s4[..3] == s3;
    assert Tally(s1[..0], o, 0.5, buckets) == NoCounts;
    assert Judge(r1, o, 0.5) == Some(true);
    var t1 := Tally(s1, o, 0.5, buckets);
    assert t1.totalEvaluable == 1 && t1.totalCorrect == 1;
    var t2 := Tally(s2, o, 0.5, buckets);
    assert t2.totalEvaluable == 2 && t2.totalCorrect == 1;
    var t3 := Tally(s3, o, 0.5, buckets);
    assert t3.totalEvaluable == 3 && t3.totalCorrect == 2;
    assert s4 == [("c_0", r1), ("c_0", r2), ("c_0", r3), ("c_0", r4)];
  }

  /** The `EvalResult` the run fills in place. */
  class EvalResult {
    var totalRelations: nat
    var totalEvaluable: nat
    var totalCorrect: nat
    var byCluster: Dict<string, Bucket>
    var byConfidenceBucket: Dict<BucketLabel, Bucket>

    /** `EvalResult(total_relations=...)`. */
    constructor(totalRelations: nat)
      ensures this.totalRelations == totalRelations
      ensures Snapshot() == NoCounts
    {
      this.totalRelations := totalRelations;
      totalEvaluable := 0;
      totalCorrect := 0;
      byCluster := Dict([], map[]);
      byConfidenceBucket := Dict([], map[]);
    }

    function Snapshot(): Counts
      reads this
    {
      Counts(totalEvaluable, totalCorrect, byCluster, byConfidenceBucket)
    }

    /** `EvalResult.accuracy`. */
    function Accuracy(): (a: real)
      reads this
      ensures totalEvaluable == 0 ==> a == 0.0
      ensures totalEvaluable > 0 ==> a * (totalEvaluable as real) == totalCorrect as real
      ensures totalCorrect <= totalEvaluable ==> 0.0 <= a <= 1.0
    {
      Ratio(totalCorrect, totalEvaluable)
    }

    /** The body of the loop for an evaluable relation. */
    method Add(cid: string, correct: bool, lbl: BucketLabel)
      modifies this
      ensures Snapshot() == Record(old(Snapshot()), cid, correct, lbl)
      ensures totalRelations == old(totalRelations)
    {
      totalEvaluable := totalEvaluable + 1;
      if correct {
        totalCorrect := totalCorrect + 1;
      }
      byCluster := Bump(byCluster, cid, correct);
      byConfidenceBucket := Bump(byConfidenceBucket, lbl, correct);
    }
  }

  /** `run_evaluate_relations(database_url)` given what `read_relations` and then
      `read_markets` return (either may raise, and the exception propagates) and the
      settings' `eval_min_confidence` and `eval_confidence_buckets`. */
  method RunEvaluateRelations(readRelations: Result<seq<(string, MarketRelation)>>,
                              readMarkets: Result<seq<Market>>,
                              minConf: real, configuredBuckets: Option<seq<real>>)
    returns (r: Result<EvalResult>)
    ensures readRelations.Err? ==> r == Err(readRelations.error)
    ensures readRelations.Ok? && readMarkets.Err? ==> r == Err(readMarkets.error)
    ensures readRelations.Ok? && readMarkets.Ok? ==>
              && r.Ok?
              && fresh(r.value)
              && r.value.totalRelations == |readRelations.value|
              && r.value.Snapshot() ==
                   Tally(readRelations.value, OutcomesById(readMarkets.value), minConf,
                         EffectiveBuckets(configuredBuckets))
  {
    if readRelations.Err? {
      return Err(readRelations.error);
    }
    if readMarkets.Err? {
      return Err(readMarkets.error);
    }
    var result := TallyRelations(readRelations.value, readMarkets.value, minConf, configuredBuckets);
    r := Ok(result);
  }

  /** The loop of `run_evaluate_relations` over the relations read. */
  method TallyRelations(relations: seq<(string, MarketRelation)>, markets: seq<Market>,
                        minConf: real, configuredBuckets: Option<seq<real>>)
    returns (result: EvalResult)
    ensures fresh(result)
    ensures result.totalRelations == |relations|
    ensures result.Snapshot() ==
              Tally(relations, OutcomesById(markets), minConf, EffectiveBuckets(configuredBuckets))
  {
    var buckets := EffectiveBuckets(configuredBuckets);
    var outcomes := OutcomesById(markets);
    result := new EvalResult(|relations|);
    for i := 0 to |relations|
      invariant result.totalRelations == |relations|
      invariant result.Snapshot() == Tally(relations[..i], outcomes, minConf, buckets)
    {
      assert relations[..i + 1][..i] == relations[..i];
      var (cid, rel) := relations[i];
      var judged := Judge(rel, outcomes, minConf);
      if judged.None? {
        continue;
      }
      var lbl := ConfidenceBucketLabel(rel.confidence, buckets);
      result.Add(cid, judged.value, lbl);
    }
    assert relations[..|relations|] == relations;
  }
}
