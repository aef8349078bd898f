/** The deterministic part of semantic_agent/pipeline/embed.py: the text each market is
    embedded from, and the chunked upsert of ids, documents and vectors into the vector
    collection. The sentence-transformers encoder and ChromaDB are inputs: the encoder's
    reply is a parameter, and each `collection.upsert` call is recorded as one batch. */
module Embed {
  import opened Wrappers
  import opened Seqs
  import opened Strings
  import opened Models

  /** `build_market_text(market)`: the stripped question, followed by a space and the
      stripped description when the description has any non-blank text. */
  function BuildMarketText(m: Market): (t: string)
    ensures m.description.None? || IsBlank(m.description.value) ==> t == Strip(m.question)
    ensures m.description.Some? && !IsBlank(m.description.value) ==>
              t == Strip(m.question) + " " + Strip(m.description.value)
  {
    if m.description.Some? && !IsBlank(m.description.value)
    then Strip(m.question) + " " + Strip(m.description.value)
    else Strip(m.question)
  }

  /** The question and the description can be read back off the text: the first part is
      the stripped question, and what follows the separating space is the stripped
      description. */
  lemma MarketTextParts(m: Market)
    ensures var t := BuildMarketText(m);
            var q := Strip(m.question);
            && |q| <= |t| && t[..|q|] == q
            && (m.description.Some? && !IsBlank(m.description.value) ==>
                  t[|q|] == ' ' && t[|q| + 1..] == Strip(m.description.value))
            && (m.description.None? || IsBlank(m.description.value) ==> |t| == |q|)
  {
    var q := Strip(m.question);
    if m.description.Some? && !IsBlank(m.description.value) {
      var d := Strip(m.description.value);
      var t := q + " " + d;
      assert BuildMarketText(m) == t;
      assert t[..|q|] == q;
      assert t[|q| + 1..] == d;
    } else {
      assert BuildMarketText(m) == q;
      assert q[..|q|] == q;
    }
  }

  /** An embedding vector. */
  type Vector = seq<real>

  /** The arguments of one `collection.upsert(ids=..., documents=..., embeddings=...)`. */
  datatype UpsertBatch = UpsertBatch(ids: seq<string>, documents: seq<string>, embeddings: seq<Vector>)

  function BatchIds(b: UpsertBatch): seq<string> { b.ids }
  function BatchDocuments(b: UpsertBatch): seq<string> { b.documents }
  function BatchEmbeddings(b: UpsertBatch): seq<Vector> { b.embeddings }

  function MarketId(m: Market): string { m.id }

  /** Python's `s[i : i + n]` for a non-negative offset and length. */
  function Window<T>(s: seq<T>, i: nat, n: nat): (r: seq<T>)
    ensures |r| == (if i + n <= |s| then n else if i <= |s| then |s| - i else 0)
  {
    var lo := if i <= |s| then i else |s|;
    var hi := if i + n <= |s| then i + n else |s|;
    s[lo..hi]
  }

  /** The covered prefix grows by exactly the window. */
  lemma WindowExtends<T>(s: seq<T>, i: nat, n: nat)
    ensures s[..Min(i, |s|)] + Window(s, i, n) == s[..Min(i + n, |s|)]
  {
  }

  function Min(a: nat, b: nat): nat { if a <= b then a else b }

  /** `add_batch_size = min(500, batch_size * 4)`. */
  function AddBatchSize(batchSize: int): (n: int)
    ensures n <= 500 && (n == 500 || n == batchSize * 4)
    ensures batchSize >= 1 ==> 4 <= n
  {
    if 500 < batchSize * 4 then 500 else batchSize * 4
  }

  /** `batch_size or settings.embed_batch_size`. */
  function EffectiveBatchSize(batchSize: Option<int>, settingsBatchSize: int): (n: int)
    ensures batchSize.Some? && batchSize.value != 0 ==> n == batchSize.value
    ensures batchSize.None? || batchSize.value == 0 ==> n == settingsBatchSize
  {
    if batchSize.Some? && batchSize.value != 0 then batchSize.value else settingsBatchSize
  }

  /** The upsert loop `for i in range(0, len(ids), step)` for a positive step. Every call
      gets at most `step` ids and at least one, all but the last exactly `step`; the ids and
      the documents of the calls, concatenated, are `ids` and `docs` again; and each call
      takes its vectors at the same offsets, so with one vector per id they line up. */
  method UpsertInChunks(ids: seq<string>, docs: seq<string>, embs: seq<Vector>, step: nat)
    returns (upserts: seq<UpsertBatch>)
    requires step >= 1 && |docs| == |ids|
    ensures forall j :: 0 <= j < |upserts| ==> 1 <= |upserts[j].ids| <= step
    ensures forall j :: 0 <= j < |upserts| - 1 ==> |upserts[j].ids| == step
    ensures forall j :: 0 <= j < |upserts| ==> |upserts[j].documents| == |upserts[j].ids|
    ensures Flatten(Map(upserts, BatchIds)) == ids
    ensures Flatten(Map(upserts, BatchDocuments)) == docs
    ensures |embs| == |ids| ==>
              Flatten(Map(upserts, BatchEmbeddings)) == embs &&
              forall j :: 0 <= j < |upserts| ==> |upserts[j].embeddings| == |upserts[j].ids|
    ensures ids == [] <==> upserts == []
  {
    upserts := [];
    var i := 0;
    ChunkStart(ids, docs, embs, step);
    while i < |ids|
      invariant Chunked(upserts, ids, docs, embs, i, step)
      invariant i == 0 <==> upserts == []
    {
      var batch := UpsertBatch(Window(ids, i, step), Window(docs, i, step), Window(embs, i, step));
      ChunkStep(upserts, ids, docs, embs, i, step);
      upserts := upserts + [batch];
      i := i + step;
    }
    ChunkDone(upserts, ids, docs, embs, i, step);
  }

  lemma ChunkStart(ids: seq<string>, docs: seq<string>, embs: seq<Vector>, step: nat)
    ensures Chunked([], ids, docs, embs, 0, step)
  {
  }

  /** Once the offset reaches the end, the calls cover everything. */
  lemma ChunkDone(upserts: seq<UpsertBatch>, ids: seq<string>, docs: seq<string>, embs: seq<Vector>,
                  i: nat, step: nat)
    requires |docs| == |ids| && i >= |ids|
    requires Chunked(upserts, ids, docs, embs, i, step)
    ensures forall j :: 0 <= j < |upserts| ==> 1 <= |upserts[j].ids| <= step
    ensures forall j :: 0 <= j < |upserts| - 1 ==> |upserts[j].ids| == step
    ensures forall j :: 0 <= j < |upserts| ==> |upserts[j].documents| == |upserts[j].ids|
    ensures |embs| == |ids| ==> forall j :: 0 <= j < |upserts| ==> |upserts[j].embeddings| == |upserts[j].ids|
    ensures Flatten(Map(upserts, BatchIds)) == ids
    ensures Flatten(Map(upserts, BatchDocuments)) == docs
    ensures |embs| == |ids| ==> Flatten(Map(upserts, BatchEmbeddings)) == embs
  {
    assert ids[..Min(i, |ids|)] == ids;
    assert docs[..Min(i, |docs|)] == docs;
    assert |embs| == |ids| ==> embs[..Min(i, |embs|)] == embs;
  }

  /** What the calls made before offset `i` have covered. */
  ghost predicate Chunked(upserts: seq<UpsertBatch>, ids: seq<string>, docs: seq<string>, embs: seq<Vector>,
                          i: nat, step: nat)
  {
    ChunkSizes(upserts, ids, embs, i, step) && ChunkCover(upserts, ids, docs, embs, i)
  }

  ghost predicate ChunkSizes(upserts: seq<UpsertBatch>, ids: seq<string>, embs: seq<Vector>, i: nat, step: nat) {
    && (forall j :: 0 <= j < |upserts| ==> 1 <= |upserts[j].ids| <= step)
    && (forall j :: 0 <= j < |upserts| ==> |upserts[j].documents| == |upserts[j].ids|)
    && (forall j :: 0 <= j < |upserts| - 1 ==> |upserts[j].ids| == step)
    && (i <= |ids| ==> forall j :: 0 <= j < |upserts| ==> |upserts[j].ids| == step)
    && (|embs| == |ids| ==>
          forall j :: 0 <= j < |upserts| ==> |upserts[j].embeddings| == |upserts[j].ids|)
  }

  ghost predicate ChunkCover(upserts: seq<UpsertBatch>, ids: seq<string>, docs: seq<string>, embs: seq<Vector>,
                             i: nat)
  {
    && Flatten(Map(upserts, BatchIds)) == ids[..Min(i, |ids|)]
    && Flatten(Map(upserts, BatchDocuments)) == docs[..Min(i, |docs|)]
    && Flatten(Map(upserts, BatchEmbeddings)) == embs[..Min(i, |embs|)]
  }

  /** One more call at offset `i < |ids|` covers the next window. */
  lemma ChunkStep(upserts: seq<UpsertBatch>, ids: seq<string>, docs: seq<string>, embs: seq<Vector>,
                  i: nat, step: nat)
    requires step >= 1 && |docs| == |ids| && i < |ids|
    requires Chunked(upserts, ids, docs, embs, i, step)
    ensures Chunked(upserts + [UpsertBatch(Window(ids, i, step), Window(docs, i, step), Window(embs, i, step))],
                    ids, docs, embs, i + step, step)
  {
    var batch := UpsertBatch(Window(ids, i, step), Window(docs, i, step), Window(embs, i, step));
    ChunkSizesStep(upserts, batch, ids, docs, embs, i, step);
    ChunkCoverStep(upserts, batch, ids, docs, embs, i, step);
  }

  lemma ChunkSizesStep(upserts: seq<UpsertBatch>, batch: UpsertBatch, ids: seq<string>, docs: seq<string>,
                       embs: seq<Vector>, i: nat, step: nat)
    requires step >= 1 && |docs| == |ids| && i < |ids|
    requires batch == UpsertBatch(Window(ids, i, step), Window(docs, i, step), Window(embs, i, step))
    requires ChunkSizes(upserts, ids, embs, i, step)
    ensures ChunkSizes(upserts + [batch], ids, embs, i + step, step)
  {
    var u := upserts + [batch];
    assert forall j :: 0 <= j < |upserts| ==> u[j] == upserts[j];
    assert u[|upserts|] == batch;
  }

  lemma ChunkCoverStep(upserts: seq<UpsertBatch>, batch: UpsertBatch, ids: seq<string>, docs: seq<string>,
                       embs: seq<Vector>, i: nat, step: nat)
    requires batch == UpsertBatch(Window(ids, i, step), Window(docs, i, step), Window(embs, i, step))
    requires ChunkCover(upserts, ids, docs, embs, i)
    ensures ChunkCover(upserts + [batch], ids, docs, embs, i + step)
  {
    Snoc(upserts, batch);
    WindowExtends(ids, i, step);
    WindowExtends(docs, i, step);
    WindowExtends(embs, i, step);
  }

  /** How the three concatenations grow when one more call is made. */
  lemma Snoc(upserts: seq<UpsertBatch>, b: UpsertBatch)
    ensures Flatten(Map(upserts + [b], BatchIds)) == Flatten(Map(upserts, BatchIds)) + b.ids
    ensures Flatten(Map(upserts + [b], BatchDocuments)) == Flatten(Map(upserts, BatchDocuments)) + b.documents
    ensures Flatten(Map(upserts + [b], BatchEmbeddings)) == Flatten(Map(upserts, BatchEmbeddings)) + b.embeddings
  {
    assert Map(upserts + [b], BatchIds) == Map(upserts, BatchIds) + [b.ids];
    assert Map(upserts + [b], BatchDocuments) == Map(upserts, BatchDocuments) + [b.documents];
    assert Map(upserts + [b], BatchEmbeddings) == Map(upserts, BatchEmbeddings) + [b.embeddings];
    FlattenSnoc(Map(upserts, BatchIds), b.ids);
    FlattenSnoc(Map(upserts, BatchDocuments), b.documents);
    FlattenSnoc(Map(upserts, BatchEmbeddings), b.embeddings);
  }

  /** `run_embed_and_store(database_url, ...)` given what `read_markets` returned and what
      the encoder replies for the market texts (None when it raises). It returns the number
      of markets read; with no markets it returns 0 before the encoder or the collection is
      used. */
  method RunEmbedAndStore(read: Result<seq<Market>>, batchSize: Option<int>, settingsBatchSize: int,
                          encode: seq<string> -> Option<seq<Vector>>)
    returns (r: Result<nat>, upserts: seq<UpsertBatch>)
    ensures read.Err? ==> r == Err(read.error) && upserts == []
    ensures read == Ok([]) ==> r == Ok(0) && upserts == []
    ensures read.Ok? && read.value != [] ==>
              var ms := read.value;
              var texts := Map(ms, BuildMarketText);
              var step := AddBatchSize(EffectiveBatchSize(batchSize, settingsBatchSize));
              && (encode(texts).None? ==> r == Err(ExternalError) && upserts == [])
              && (encode(texts).Some? && step == 0 ==> r == Err(ValueError) && upserts == [])
              && (encode(texts).Some? && step < 0 ==> r == Ok(|ms|) && upserts == [])
              && (encode(texts).Some? && step > 0 ==>
                    && r == Ok(|ms|)
                    && Flatten(Map(upserts, BatchIds)) == Map(ms, MarketId)
                    && Flatten(Map(upserts, BatchDocuments)) == texts
                    && (forall j :: 0 <= j < |upserts| ==> 1 <= |upserts[j].ids| <= step)
                    && (forall j :: 0 <= j < |upserts| - 1 ==> |upserts[j].ids| == step)
                    && (forall j :: 0 <= j < |upserts| ==> |upserts[j].documents| == |upserts[j].ids|)
                    && (|encode(texts).value| == |ms| ==>
                          Flatten(Map(upserts, BatchEmbeddings)) == encode(texts).value))
    ensures r.Ok? && read.Ok? ==> r.value == |read.value|
  {
    upserts := [];
    if read.Err? {
      return Err(read.error), [];
    }
    var markets := read.value;
    if markets == [] {
      return Ok(0), [];
    }
    var docs := Map(markets, BuildMarketText);
    var embeddings := encode(docs);
    if embeddings.None? {
      return Err(ExternalError), [];
    }
    var ids := Map(markets, MarketId);
    var step := AddBatchSize(EffectiveBatchSize(batchSize, settingsBatchSize));
    if step == 0 {
      // `range()` rejects a zero step
      return Err(ValueError), [];
    }
    if step > 0 {
      upserts := UpsertInChunks(ids, docs, embeddings.value, step);
    }
    r := Ok(|markets|);
  }
}
