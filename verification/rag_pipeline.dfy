/** The basic retrieval pipeline (backend/app/rag/rag_pipeline.py): a document is cut into
    chunks, the chunks are embedded through a cache keyed by their text and stored in the
    vector store; a query is answered from a one-hour query cache or by a nearest-neighbour
    search over the stored chunks.

    MD5 keys are modelled by the texts they digest. The embedding service is a pair of
    functions (`embed_query` and `embed_documents`), the clock an integer number of seconds
    (or an ISO string where it only becomes a timestamp), the PDF reader a function from the
    document to its pages. */
module RagPipeline {
  import opened Wrappers
  import opened Values
  import opened Text
  import opened Dicts
  import DocumentProcessor
  import VectorStore
  import DualRetrieval

  type Embedding = seq<real>

  /** RAGResult: one retrieved chunk. */
  datatype RagResult = RagResult(content: string, source: string, confidence: real, metadata: Metadata, chunkId: string)

  // ---------------------------------------------------------------------------
  // Documents

  /** The document type guessed from the file name when the caller gives none. */
  function InferDocType(filename: string): (t: string)
    ensures t == "markdown" <==> EndsWith(filename, ".md")
    ensures t == "pdf" <==> !EndsWith(filename, ".md") && EndsWith(filename, ".pdf")
    ensures t == "text" <==> !EndsWith(filename, ".md") && !EndsWith(filename, ".pdf")
  {
    if EndsWith(filename, ".md") then "markdown"
    else if EndsWith(filename, ".pdf") then "pdf"
    else "text"
  }

  /** The chunks of a document of type `docType`: "markdown" and "pdf" have their own
      processing, every other type is processed as plain text. */
  function DocumentChunks(p: DocumentProcessor.Processor, pdfReader: string -> Option<seq<string>>,
                          content: string, filename: string, docType: string, now: string)
    : Result<seq<DocumentProcessor.DocumentChunk>>
  {
    if docType == "markdown" then DocumentProcessor.MarkdownChunks(p, content, filename, now)
    else if docType == "pdf" then Success(DocumentProcessor.PdfChunks(p, pdfReader(content), filename, now))
    else DocumentProcessor.TextChunks(p, content, filename, now)
  }

  function DocTypeName(t: DocumentProcessor.DocType): string {
    match t
    case MarkdownDoc => "markdown"
    case PdfDoc => "pdf"
    case TextDoc => "text"
  }

  function ChunkTypeName(t: DocumentProcessor.ChunkType): string {
    match t
    case CodeChunk => "code"
    case TextChunk => "text"
    case MixedChunk => "mixed"
  }

  function DocTypeNamed(s: string): Option<DocumentProcessor.DocType> {
    if s == "markdown" then Some(DocumentProcessor.MarkdownDoc)
    else if s == "pdf" then Some(DocumentProcessor.PdfDoc)
    else if s == "text" then Some(DocumentProcessor.TextDoc)
    else None
  }

  function ChunkTypeNamed(s: string): Option<DocumentProcessor.ChunkType> {
    if s == "code" then Some(DocumentProcessor.CodeChunk)
    else if s == "text" then Some(DocumentProcessor.TextChunk)
    else if s == "mixed" then Some(DocumentProcessor.MixedChunk)
    else None
  }

  /** The metadata read back from a stored dictionary, when it has the chunk shape. */
  function ChunkMetadataOf(d: Metadata): Option<DocumentProcessor.ChunkMetadata> {
    if && "content" in d && d["content"].Str?
       && "source_file" in d && d["source_file"].Str?
       && "doc_type" in d && d["doc_type"].Str? && DocTypeNamed(d["doc_type"].s).Some?
       && "section" in d && d["section"].Str?
       && "chunk_index" in d && d["chunk_index"].Int? && d["chunk_index"].i >= 0
       && "chunk_type" in d && d["chunk_type"].Str? && ChunkTypeNamed(d["chunk_type"].s).Some?
       && "has_code" in d && d["has_code"].Bool?
       && "timestamp" in d && d["timestamp"].Str?
       && "char_count" in d && d["char_count"].Int? && d["char_count"].i >= 0
       && "token_count" in d && d["token_count"].Int? && d["token_count"].i >= 0
       && "section_level" in d && d["section_level"].Int? && d["section_level"].i >= 0
    then
      Some(DocumentProcessor.ChunkMetadata(
        d["content"].s, d["source_file"].s, DocTypeNamed(d["doc_type"].s).value, d["section"].s,
        d["chunk_index"].i, ChunkTypeNamed(d["chunk_type"].s).value, d["has_code"].b,
        d["timestamp"].s, d["char_count"].i, d["token_count"].i, d["section_level"].i))
    else None
  }

  /** The metadata part of `asdict(chunk)`: one key per field, losing nothing. */
  function MetadataDict(m: DocumentProcessor.ChunkMetadata): (d: Metadata)
    ensures d.Keys == {"content", "source_file", "doc_type", "section", "chunk_index", "chunk_type",
                       "has_code", "timestamp", "char_count", "token_count", "section_level"}
  {
    map[
      "content" := Str(m.content),
      "source_file" := Str(m.sourceFile),
      "doc_type" := Str(DocTypeName(m.docType)),
      "section" := Str(m.section),
      "chunk_index" := Int(m.chunkIndex),
      "chunk_type" := Str(ChunkTypeName(m.chunkType)),
      "has_code" := Bool(m.hasCode),
      "timestamp" := Str(m.timestamp),
      "char_count" := Int(m.charCount),
      "token_count" := Int(m.tokenCount),
      "section_level" := Int(m.sectionLevel)]
  }

  /** The stored dictionary holds every field of the chunk metadata: reading it back
      gives the metadata itself. */
  lemma MetadataRoundTrip(m: DocumentProcessor.ChunkMetadata)
    ensures ChunkMetadataOf(MetadataDict(m)) == Some(m)
  {
    var d := MetadataDict(m);
    assert DocTypeNamed(d["doc_type"].s) == Some(m.docType) by {
      match m.docType
      case MarkdownDoc =>
      case PdfDoc =>
      case TextDoc =>
    }
    assert ChunkTypeNamed(d["chunk_type"].s) == Some(m.chunkType) by {
      match m.chunkType
      case CodeChunk =>
      case TextChunk =>
      case MixedChunk =>
    }
  }

  /** `chunk.to_dict()` as the vector store reads it. */
  function ChunkDataOf(c: DocumentProcessor.DocumentChunk): VectorStore.ChunkData {
    VectorStore.ChunkData(c.id, c.content, MetadataDict(c.metadata))
  }

  function ChunkDatas(cs: seq<DocumentProcessor.DocumentChunk>): (ds: seq<VectorStore.ChunkData>)
    ensures |ds| == |cs| && forall k :: 0 <= k < |cs| ==> ds[k] == ChunkDataOf(cs[k])
  {
    seq(|cs|, k requires 0 <= k < |cs| => ChunkDataOf(cs[k]))
  }

  function Contents(cs: seq<DocumentProcessor.DocumentChunk>): (ts: seq<string>)
    ensures |ts| == |cs| && forall k :: 0 <= k < |cs| ==> ts[k] == cs[k].content
  {
    seq(|cs|, k requires 0 <= k < |cs| => cs[k].content)
  }

  // ---------------------------------------------------------------------------
  // The embedding cache

  type EmbeddingCache = Dict<string, Embedding>

  /** The error `add_document` reports when the embedding service raises. */
  const EmbeddingFailed: string := "embedding service error"

  /** How many of the first-inserted embeddings go when the cache is over its limit. */
  const EvictBatch: nat := 100

  /** The embedding `_get_embedding` hands back: the cached one, or a fresh one; `None` when
      the embedding service raises, which `_get_embedding` does not catch. */
  function QueryEmbedding(cache: EmbeddingCache, embedQuery: string -> Option<Embedding>, text: string): Option<Embedding> {
    match Lookup(cache, text)
    case Some(e) => Some(e)
    case None => embedQuery(text)
  }

  /** The positions of the texts the cache does not hold, in order. */
  function Uncached(cache: EmbeddingCache, texts: seq<string>): (idx: seq<nat>)
    ensures |idx| <= |texts|
    ensures forall k :: 0 <= k < |idx| ==> idx[k] < |texts| && !HasKey(cache, texts[idx[k]])
    ensures forall k, l :: 0 <= k < l < |idx| ==> idx[k] < idx[l]
    decreases |texts|
  {
    if |texts| == 0 then []
    else
      var n := |texts| - 1;
      var before := Uncached(cache, texts[..n]);
      assert forall k :: 0 <= k < |before| ==> texts[..n][before[k]] == texts[before[k]];
      before + (if HasKey(cache, texts[n]) then [] else [n])
  }

  /** How many uncached texts come before position `i`. */
  function Rank(cache: EmbeddingCache, texts: seq<string>, i: nat): nat
    requires i <= |texts|
  {
    |Uncached(cache, texts[..i])|
  }

  function TextsAt(texts: seq<string>, idx: seq<nat>): (r: seq<string>)
    requires forall k :: 0 <= k < |idx| ==> idx[k] < |texts|
    ensures |r| == |idx| && forall k :: 0 <= k < |idx| ==> r[k] == texts[idx[k]]
  {
    seq(|idx|, k requires 0 <= k < |idx| => texts[idx[k]])
  }

  /** `uncached_texts`: the texts handed to the embedding service. */
  function UncachedTexts(cache: EmbeddingCache, texts: seq<string>): (r: seq<string>)
    ensures |r| == |Uncached(cache, texts)|
  {
    TextsAt(texts, Uncached(cache, texts))
  }

  /** What `embed_documents` returns for a batch: nothing is asked when every text is cached,
      and `None` when the service raises. */
  function FreshEmbeddings(cache: EmbeddingCache, texts: seq<string>, embedDocuments: seq<string> -> Option<seq<Embedding>>)
    : Option<seq<Embedding>>
  {
    if |Uncached(cache, texts)| == 0 then Some([]) else embedDocuments(UncachedTexts(cache, texts))
  }

  /** Position `i` of the result once the first `n` fresh embeddings are placed. */
  function FilledAt(cache: EmbeddingCache, texts: seq<string>, newEmbeddings: seq<Embedding>, n: nat, i: nat): Option<Embedding>
    requires n <= |newEmbeddings| && i < |texts|
  {
    if HasKey(cache, texts[i]) then Lookup(cache, texts[i])
    else if Rank(cache, texts, i) < n then Some(newEmbeddings[Rank(cache, texts, i)])
    else None
  }

  /** The list _generate_embeddings_batch returns: `zip` pairs the uncached positions
      with the newEmbeddings embeddings and stops at the shorter of the two. */
  function BatchEmbeddings(cache: EmbeddingCache, texts: seq<string>, newEmbeddings: seq<Embedding>): (r: seq<Option<Embedding>>)
    ensures |r| == |texts|
  {
    var n := Min(|Uncached(cache, texts)|, |newEmbeddings|);
    seq(|texts|, i requires 0 <= i < |texts| => FilledAt(cache, texts, newEmbeddings, n, i))
  }

  /** `d[keys[i]] = vals[i]` for each `i` in turn. */
  function PutAll(c: EmbeddingCache, keys: seq<string>, vals: seq<Embedding>): EmbeddingCache
    requires |keys| == |vals|
  {
    if |keys| == 0 then c
    else
      var n := |keys| - 1;
      Put(PutAll(c, keys[..n], vals[..n]), keys[n], vals[n])
  }

  lemma PutHasKey(d: EmbeddingCache, k: string, v: Embedding, k': string)
    ensures HasKey(Put(d, k, v), k') <==> k' == k || HasKey(d, k')
  {
    if k' != k {
      assert Lookup(Put(d, k, v), k') == Lookup(d, k');
    }
  }

  /** After the puts every key put is present and every key already present stays. */
  lemma {:induction false} PutAllHasKeys(c: EmbeddingCache, keys: seq<string>, vals: seq<Embedding>)
    requires |keys| == |vals|
    ensures forall i :: 0 <= i < |keys| ==> HasKey(PutAll(c, keys, vals), keys[i])
    ensures forall k :: HasKey(c, k) ==> HasKey(PutAll(c, keys, vals), k)
  {
    if |keys| > 0 {
      var n := |keys| - 1;
      PutAllHasKeys(c, keys[..n], vals[..n]);
      var before := PutAll(c, keys[..n], vals[..n]);
      assert PutAll(c, keys, vals) == Put(before, keys[n], vals[n]);
      forall k | HasKey(before, k) ensures HasKey(Put(before, keys[n], vals[n]), k) {
        PutHasKey(before, keys[n], vals[n], k);
      }
      forall i | 0 <= i < |keys| ensures HasKey(Put(before, keys[n], vals[n]), keys[i]) {
        if i < n {
          assert keys[..n][i] == keys[i];
        }
        PutHasKey(before, keys[n], vals[n], keys[i]);
      }
    }
  }

  /** The puts keep the keys distinct. */
  lemma {:induction false} PutAllDistinct(c: EmbeddingCache, keys: seq<string>, vals: seq<Embedding>)
    requires |keys| == |vals| && DistinctKeys(c)
    ensures DistinctKeys(PutAll(c, keys, vals))
  {
    if |keys| > 0 {
      var n := |keys| - 1;
      PutAllDistinct(c, keys[..n], vals[..n]);
    }
  }

  /** Over the limit, the first 100 keys in insertion order are deleted. */
  function Trimmed(c: EmbeddingCache, max: nat): EmbeddingCache {
    if |c| > max then c[Min(EvictBatch, |c|)..] else c
  }

  /** The cache _generate_embeddings_batch leaves behind. */
  function BatchCache(cache: EmbeddingCache, texts: seq<string>, newEmbeddings: seq<Embedding>, max: nat): EmbeddingCache {
    var n := Min(|Uncached(cache, texts)|, |newEmbeddings|);
    Trimmed(PutAll(cache, UncachedTexts(cache, texts)[..n], newEmbeddings[..n]), max)
  }

  /** The uncached positions before `m` are the first uncached positions overall. */
  lemma {:induction false} UncachedPrefix(cache: EmbeddingCache, texts: seq<string>, m: nat)
    requires m <= |texts|
    ensures Uncached(cache, texts[..m]) <= Uncached(cache, texts)
    ensures forall k :: |Uncached(cache, texts[..m])| <= k < |Uncached(cache, texts)| ==> Uncached(cache, texts)[k] >= m
    decreases |texts| - m
  {
    if m < |texts| {
      var n := |texts| - 1;
      assert texts[..n][..m] == texts[..m];
      UncachedPrefix(cache, texts[..n], m);
    } else {
      assert texts[..m] == texts;
    }
  }

  /** An uncached position is found in the list of uncached positions at its rank. */
  lemma UncachedRank(cache: EmbeddingCache, texts: seq<string>, i: nat)
    requires i < |texts| && !HasKey(cache, texts[i])
    ensures Rank(cache, texts, i) < |Uncached(cache, texts)|
    ensures Uncached(cache, texts)[Rank(cache, texts, i)] == i
  {
    assert texts[..i + 1][..i] == texts[..i];
    assert Uncached(cache, texts[..i + 1]) == Uncached(cache, texts[..i]) + [i];
    UncachedPrefix(cache, texts, i + 1);
  }

  /** The `k`-th uncached position has rank `k`. */
  lemma RankOfUncached(cache: EmbeddingCache, texts: seq<string>, k: nat)
    requires k < |Uncached(cache, texts)|
    ensures Rank(cache, texts, Uncached(cache, texts)[k]) == k
  {
    var idx := Uncached(cache, texts);
    var i := idx[k];
    UncachedPrefix(cache, texts, i);
    var before := Uncached(cache, texts[..i]);
    forall j | 0 <= j < |before| ensures idx[j] < i {
      assert idx[j] == before[j];
    }
    assert |before| <= k;
    assert idx[|before|] >= i;
  }

  /** With one fresh embedding per uncached text, every position of the batch is filled:
      a cached text with its cached embedding, any other text with the embedding computed
      for that very text. */
  lemma BatchEmbeddingsComplete(cache: EmbeddingCache, texts: seq<string>, newEmbeddings: seq<Embedding>)
    requires |newEmbeddings| == |Uncached(cache, texts)|
    ensures forall i :: 0 <= i < |texts| ==> BatchEmbeddings(cache, texts, newEmbeddings)[i].Some?
    ensures forall i :: 0 <= i < |texts| && HasKey(cache, texts[i]) ==>
      BatchEmbeddings(cache, texts, newEmbeddings)[i] == Lookup(cache, texts[i])
    ensures forall i :: 0 <= i < |texts| && !HasKey(cache, texts[i]) ==>
      && Rank(cache, texts, i) < |newEmbeddings|
      && UncachedTexts(cache, texts)[Rank(cache, texts, i)] == texts[i]
      && BatchEmbeddings(cache, texts, newEmbeddings)[i] == Some(newEmbeddings[Rank(cache, texts, i)])
  {
    forall i | 0 <= i < |texts| && !HasKey(cache, texts[i])
      ensures Rank(cache, texts, i) < |newEmbeddings| && UncachedTexts(cache, texts)[Rank(cache, texts, i)] == texts[i]
    {
      UncachedRank(cache, texts, i);
    }
  }

  /** Trimming keeps the most recently inserted keys, distinct: over the limit the cache
      loses its first 100 entries (or all of them when it holds fewer). */
  lemma TrimmedSpec(c: EmbeddingCache, max: nat)
    requires DistinctKeys(c)
    ensures DistinctKeys(Trimmed(c, max))
    ensures |Trimmed(c, max)| == if |c| > max then |c| - Min(EvictBatch, |c|) else |c|
    ensures Trimmed(c, max) == c[|c| - |Trimmed(c, max)|..]
  {
    if |c| > max {
      var n := Min(EvictBatch, |c|);
      forall a, b | 0 <= a < b < |c[n..]| ensures c[n..][a].key != c[n..][b].key {
        assert c[n..][a] == c[n + a] && c[n..][b] == c[n + b];
      }
    }
  }

  /** With one fresh embedding per uncached text, every text of the batch is cached before
      the trim, and the cache is what the trim leaves of that. */
  lemma BatchCacheSpec(cache: EmbeddingCache, texts: seq<string>, newEmbeddings: seq<Embedding>, max: nat)
    requires DistinctKeys(cache)
    requires |newEmbeddings| == |Uncached(cache, texts)|
    ensures var c := PutAll(cache, UncachedTexts(cache, texts), newEmbeddings);
      && DistinctKeys(c)
      && (forall i :: 0 <= i < |texts| ==> HasKey(c, texts[i]))
      && BatchCache(cache, texts, newEmbeddings, max) == Trimmed(c, max)
  {
    var u := UncachedTexts(cache, texts);
    assert u[..|newEmbeddings|] == u && newEmbeddings[..|newEmbeddings|] == newEmbeddings;
    PutAllDistinct(cache, u, newEmbeddings);
    var c := PutAll(cache, u, newEmbeddings);
    PutAllHasKeys(cache, u, newEmbeddings);
    forall i | 0 <= i < |texts| ensures HasKey(c, texts[i]) {
      if !HasKey(cache, texts[i]) {
        UncachedRank(cache, texts, i);
        assert u[Rank(cache, texts, i)] == texts[i];
      }
    }
  }

  /** The embedding service answers each batch with one vector per text, as the code
      relies on when it stores the batch. */
  ghost predicate OneVectorPerText(embedDocuments: seq<string> -> Option<seq<Embedding>>) {
    forall ts :: embedDocuments(ts).Some? ==> |embedDocuments(ts).value| == |ts|
  }

  /** The embeddings as the vector store receives them. */
  function Vectors(es: seq<Option<Embedding>>): (vs: seq<Embedding>)
    ensures |vs| == |es| && forall k :: 0 <= k < |es| && es[k].Some? ==> vs[k] == es[k].value
  {
    seq(|es|, k requires 0 <= k < |es| => es[k].GetOr([]))
  }

  // ---------------------------------------------------------------------------
  // Retrieval and the query cache

  /** A search hit as a result: the cosine distance becomes the confidence `1 - distance`. */
  function ToRagResult(h: VectorStore.Hit): RagResult {
    RagResult(h.document, "rag", 1.0 - h.distance, h.metadata, h.id)
  }

  function ToRagResults(hits: seq<VectorStore.Hit>): (rs: seq<RagResult>)
    ensures |rs| == |hits| && forall i :: 0 <= i < |hits| ==> rs[i] == ToRagResult(hits[i])
  {
    seq(|hits|, i requires 0 <= i < |hits| => ToRagResult(hits[i]))
  }

  /** The results keep the hits' order and identities, and a nearer hit is a more
      confident result: the order by distance is the reverse order by confidence. */
  lemma RagResultsFollowHits(hits: seq<VectorStore.Hit>)
    ensures forall i :: 0 <= i < |hits| ==>
      && ToRagResults(hits)[i].chunkId == hits[i].id && ToRagResults(hits)[i].source == "rag"
      && ToRagResults(hits)[i].content == hits[i].document && ToRagResults(hits)[i].metadata == hits[i].metadata
    ensures forall i, j :: 0 <= i < |hits| && 0 <= j < |hits| ==>
      (ToRagResults(hits)[i].confidence >= ToRagResults(hits)[j].confidence <==> hits[i].distance <= hits[j].distance)
  {
  }

  datatype CachedResults = CachedResults(results: seq<RagResult>, time: int)

  type QueryCache = Dict<string, CachedResults>

  const MaxQueryCache: nat := 50

  /** A cached answer is used while it is less than an hour old. */
  predicate FreshHit(c: QueryCache, key: string, now: int) {
    HasKey(c, key) && DualRetrieval.AgeHours(Lookup(c, key).value.time, now) < 1.0
  }

  /** `min(keys, key=timestamp)`: the position of the first entry stored earliest. */
  function OldestIndex(c: QueryCache): (i: nat)
    requires |c| > 0
    ensures i < |c|
    ensures forall j :: 0 <= j < |c| ==> c[i].value.time <= c[j].value.time
    ensures forall j :: 0 <= j < i ==> c[j].value.time > c[i].value.time
    decreases |c|
  {
    if |c| == 1 then 0
    else
      var n := |c| - 1;
      var k := OldestIndex(c[..n]);
      assert forall j :: 0 <= j < n ==> c[..n][j] == c[j];
      if c[n].value.time < c[k].value.time then n else k
  }

  /** Lines 115-121: the results are stored under the key, then the oldest entry goes
      when the cache holds more than 50. */
  function CacheResults(c: QueryCache, key: string, results: seq<RagResult>, now: int): QueryCache {
    var d := Put(c, key, CachedResults(results, now));
    if |d| > MaxQueryCache then Delete(d, d[OldestIndex(d)].key) else d
  }

  /** Storing keeps the cache within 50 entries with distinct keys. */
  lemma CacheResultsBounded(c: QueryCache, key: string, results: seq<RagResult>, now: int)
    requires DistinctKeys(c) && |c| <= MaxQueryCache
    ensures DistinctKeys(CacheResults(c, key, results, now))
    ensures |CacheResults(c, key, results, now)| <= MaxQueryCache
  {
    var d := Put(c, key, CachedResults(results, now));
    if |d| > MaxQueryCache {
      DeleteKeeps(d, d[OldestIndex(d)].key);
      assert HasKey(d, d[OldestIndex(d)].key);
    }
  }

  /** An eviction happens only when the key is new, and it removes one entry stored no
      later than any other; every other key stays. */
  lemma CacheResultsEvictsOldest(c: QueryCache, key: string, results: seq<RagResult>, now: int)
    requires DistinctKeys(c) && |c| <= MaxQueryCache
    ensures var d := Put(c, key, CachedResults(results, now));
      |d| > MaxQueryCache ==>
        && !HasKey(c, key)
        && CacheResults(c, key, results, now) == Delete(d, d[OldestIndex(d)].key)
        && forall j :: 0 <= j < |d| ==> d[OldestIndex(d)].value.time <= d[j].value.time
    ensures var d := Put(c, key, CachedResults(results, now));
      |d| <= MaxQueryCache ==> CacheResults(c, key, results, now) == d
  {
  }

  /** While no stored entry is newer than `now`, the entry just stored is not the one
      evicted: the first earliest entry of a cache that grew past 50 is an older one. */
  lemma CacheResultsKeepsNew(c: QueryCache, key: string, results: seq<RagResult>, now: int)
    requires DistinctKeys(c) && |c| <= MaxQueryCache
    requires forall j :: 0 <= j < |c| ==> c[j].value.time <= now
    ensures Lookup(CacheResults(c, key, results, now), key) == Some(CachedResults(results, now))
  {
    var d := Put(c, key, CachedResults(results, now));
    if |d| > MaxQueryCache {
      assert d == c + [Entry(key, CachedResults(results, now))];
      var i := OldestIndex(d);
      assert d[0] == c[0];
      assert i < |c|;
      assert d[i].key != key;
      DeleteKeeps(d, d[i].key);
    }
  }

  /** Every stored record of an added document is its chunk: the chunk's id and text, its
      metadata in full, and the embedding of its own text, taken from the cache when the
      cache held the text and computed for that text otherwise. */
  lemma StoredRecords(cache: EmbeddingCache, cs: seq<DocumentProcessor.DocumentChunk>,
                      embedDocuments: seq<string> -> Option<seq<Embedding>>)
    requires OneVectorPerText(embedDocuments)
    ensures var texts := Contents(cs);
      var answer := FreshEmbeddings(cache, texts, embedDocuments);
      answer.Some? ==>
      var made := answer.value;
      var rs := VectorStore.ChunkRecords(ChunkDatas(cs), Vectors(BatchEmbeddings(cache, texts, made)));
      forall k :: 0 <= k < |cs| ==>
        && rs[k].id == cs[k].id && rs[k].document == cs[k].content
        && ChunkMetadataOf(rs[k].metadata) == Some(cs[k].metadata)
        && (HasKey(cache, cs[k].content) ==> rs[k].embedding == Lookup(cache, cs[k].content).value)
        && (!HasKey(cache, cs[k].content) ==>
              && Rank(cache, texts, k) < |made|
              && UncachedTexts(cache, texts)[Rank(cache, texts, k)] == cs[k].content
              && rs[k].embedding == made[Rank(cache, texts, k)])
  {
    var texts := Contents(cs);
    var answer := FreshEmbeddings(cache, texts, embedDocuments);
    if answer.Some? {
      var made := answer.value;
      assert |made| == |Uncached(cache, texts)|;
      BatchEmbeddingsComplete(cache, texts, made);
    }
    forall k | 0 <= k < |cs| ensures ChunkMetadataOf(MetadataDict(cs[k].metadata)) == Some(cs[k].metadata) {
      MetadataRoundTrip(cs[k].metadata);
    }
  }

  /** The result list once the first `n` fresh embeddings are placed. */
  ghost predicate Filled(r: seq<Option<Embedding>>, cache: EmbeddingCache, texts: seq<string>, newEmbeddings: seq<Embedding>, n: nat)
    requires n <= |newEmbeddings|
  {
    |r| == |texts| && forall j :: 0 <= j < |texts| ==> r[j] == FilledAt(cache, texts, newEmbeddings, n, j)
  }

  /** Placing the `k`-th fresh embedding fills exactly the `k`-th uncached position. */
  lemma FillStep(r: seq<Option<Embedding>>, cache: EmbeddingCache, texts: seq<string>, newEmbeddings: seq<Embedding>, k: nat)
    requires k < |Uncached(cache, texts)| && k < |newEmbeddings|
    requires Filled(r, cache, texts, newEmbeddings, k)
    ensures Filled(r[Uncached(cache, texts)[k] := Some(newEmbeddings[k])], cache, texts, newEmbeddings, k + 1)
  {
    RankOfUncached(cache, texts, k);
    forall j | 0 <= j < |texts| && j != Uncached(cache, texts)[k] && !HasKey(cache, texts[j])
      ensures Rank(cache, texts, j) != k
    {
      UncachedRank(cache, texts, j);
    }
  }

  /** One more put. */
  lemma PutAllSnoc(c: EmbeddingCache, keys: seq<string>, vals: seq<Embedding>, k: nat)
    requires k < |keys| && k < |vals|
    ensures PutAll(c, keys[..k + 1], vals[..k + 1]) == Put(PutAll(c, keys[..k], vals[..k]), keys[k], vals[k])
  {
    assert keys[..k + 1][..k] == keys[..k] && vals[..k + 1][..k] == vals[..k];
  }

  /** Lines 94-112 of retrieve: the search hits become results, one by one. */
  method ConvertHits(hits: seq<VectorStore.Hit>) returns (results: seq<RagResult>)
    ensures results == ToRagResults(hits)
  {
    results := [];
    for i := 0 to |hits|
      invariant results == ToRagResults(hits[..i])
    {
      assert ToRagResults(hits[..i + 1]) == ToRagResults(hits[..i]) + [ToRagResult(hits[i])];
      results := results + [ToRagResult(hits[i])];
    }
    assert hits[..|hits|] == hits;
  }

  // ---------------------------------------------------------------------------
  // The pipeline

  /** get_stats: the store's two counts and the sizes of both caches. */
  datatype Stats = Stats(documentChunks: nat, validatedAnswers: nat, embeddingCacheSize: nat, queryCacheSize: nat)

  class Pipeline {
    const processor: DocumentProcessor.Processor
    const pdfReader: string -> Option<seq<string>>
    const embedQuery: string -> Option<Embedding>
    const embedDocuments: seq<string> -> Option<seq<Embedding>>
    /** `config.max_embedding_cache`. */
    const maxEmbeddingCache: nat
    const store: VectorStore.Store
    var embeddingCache: EmbeddingCache
    var queryCache: QueryCache
    /** The batches sent to `embed_documents` and the texts sent to `embed_query`, in order. */
    ghost var documentCalls: seq<seq<string>>
    ghost var queryCalls: seq<string>

    ghost predicate Valid()
      reads this, store
    {
      && DistinctKeys(embeddingCache) && DistinctKeys(queryCache) && |queryCache| <= MaxQueryCache
      && store.Valid()
      && OneVectorPerText(embedDocuments)
    }

    /** RAGPipeline(): both caches start empty. */
    constructor (processor: DocumentProcessor.Processor, pdfReader: string -> Option<seq<string>>,
                 embedQuery: string -> Option<Embedding>, embedDocuments: seq<string> -> Option<seq<Embedding>>,
                 maxEmbeddingCache: nat, store: VectorStore.Store)
      requires store.Valid() && OneVectorPerText(embedDocuments)
      ensures Valid()
      ensures this.processor == processor && this.pdfReader == pdfReader && this.embedQuery == embedQuery
      ensures this.embedDocuments == embedDocuments && this.maxEmbeddingCache == maxEmbeddingCache && this.store == store
      ensures embeddingCache == [] && queryCache == [] && documentCalls == [] && queryCalls == []
    {
      this.processor := processor;
      this.pdfReader := pdfReader;
      this.embedQuery := embedQuery;
      this.embedDocuments := embedDocuments;
      this.maxEmbeddingCache := maxEmbeddingCache;
      this.store := store;
      embeddingCache := [];
      queryCache := [];
      documentCalls := [];
      queryCalls := [];
    }

    /** _get_embedding: the cached embedding, or a fresh one that is then cached (with no
        size limit). Asking again for the same text finds it in the cache. When the service
        raises, the exception propagates and the cache is left as it was. */
    method GetEmbedding(text: string) returns (e: Option<Embedding>)
      requires Valid()
      modifies this
      ensures Valid()
      ensures e == QueryEmbedding(old(embeddingCache), embedQuery, text)
      ensures e.None? <==> !HasKey(old(embeddingCache), text) && embedQuery(text).None?
      ensures e.None? ==> embeddingCache == old(embeddingCache)
      ensures e.Some? ==> Lookup(embeddingCache, text) == e
      ensures e.Some? ==>
        embeddingCache == if HasKey(old(embeddingCache), text) then old(embeddingCache) else Put(old(embeddingCache), text, e.value)
      ensures queryCalls == old(queryCalls) + (if HasKey(old(embeddingCache), text) then [] else [text])
      ensures queryCache == old(queryCache) && documentCalls == old(documentCalls)
    {
      var cached := Lookup(embeddingCache, text);
      if cached.Some? {
        return cached;
      }
      e := embedQuery(text);
      queryCalls := queryCalls + [text];
      if e.Some? {
        embeddingCache := Put(embeddingCache, text, e.value);
      }
    }

    /** _generate_embeddings_batch: cached texts are answered from the cache, the others go
        to the embedding service in one call (none when every text is cached), and their
        embeddings are cached; then a cache over the limit loses its first 100 keys. When
        the service raises, the exception propagates before anything is cached. */
    method GenerateEmbeddingsBatch(texts: seq<string>) returns (embeddings: Option<seq<Option<Embedding>>>)
      requires Valid()
      modifies this
      ensures Valid()
      ensures var answer := FreshEmbeddings(old(embeddingCache), texts, embedDocuments);
        && (embeddings.None? <==> answer.None?)
        && (answer.None? ==> embeddingCache == old(embeddingCache))
        && (answer.Some? ==>
              && embeddings == Some(BatchEmbeddings(old(embeddingCache), texts, answer.value))
              && embeddingCache == BatchCache(old(embeddingCache), texts, answer.value, maxEmbeddingCache))
      ensures documentCalls == old(documentCalls) +
        (if |Uncached(old(embeddingCache), texts)| == 0 then [] else [UncachedTexts(old(embeddingCache), texts)])
      ensures queryCache == old(queryCache) && queryCalls == old(queryCalls)
    {
      var result, uncachedTexts, uncachedIndices := LookUpCached(texts);
      var made: seq<Embedding> := [];
      if |uncachedTexts| > 0 {
        var answer := embedDocuments(uncachedTexts);
        documentCalls := documentCalls + [uncachedTexts];
        if answer.None? {
          return None;
        }
        made := answer.value;
      }
      assert FreshEmbeddings(old(embeddingCache), texts, embedDocuments) == Some(made);
      StoreFresh(texts, result, made);
      TrimEmbeddingCache();
      assert result[..] == BatchEmbeddings(old(embeddingCache), texts, made);
      embeddings := Some(result[..]);
    }

    /** The first loop of _generate_embeddings_batch: cached texts fill their positions,
        the others are collected with their positions. */
    method LookUpCached(texts: seq<string>) returns (result: array<Option<Embedding>>, uncachedTexts: seq<string>, uncachedIndices: seq<nat>)
      ensures fresh(result) && result.Length == |texts|
      ensures uncachedIndices == Uncached(embeddingCache, texts)
      ensures uncachedTexts == UncachedTexts(embeddingCache, texts)
      ensures forall made: seq<Embedding> :: Filled(result[..], embeddingCache, texts, made, 0)
    {
      uncachedTexts := [];
      uncachedIndices := [];
      result := new Option<Embedding>[|texts|](_ => None);
      for i := 0 to |texts|
        modifies result
        invariant uncachedIndices == Uncached(embeddingCache, texts[..i])
        invariant uncachedTexts == TextsAt(texts, uncachedIndices)
        invariant forall j :: 0 <= j < |texts| ==>
          result[j] == if j < i && HasKey(embeddingCache, texts[j]) then Lookup(embeddingCache, texts[j]) else None
      {
        assert texts[..i + 1][..i] == texts[..i];
        var hit := Lookup(embeddingCache, texts[i]);
        if hit.Some? {
          result[i] := hit;
        } else {
          uncachedTexts := uncachedTexts + [texts[i]];
          uncachedIndices := uncachedIndices + [i];
        }
      }
      assert texts[..|texts|] == texts;
    }

    /** The zip loop of _generate_embeddings_batch: each fresh embedding is cached under its
        text and placed at its text's position, as far as both lists go. */
    method StoreFresh(texts: seq<string>, result: array<Option<Embedding>>, made: seq<Embedding>)
      requires DistinctKeys(embeddingCache) && result.Length == |texts|
      requires Filled(result[..], embeddingCache, texts, made, 0)
      modifies this, result
      ensures DistinctKeys(embeddingCache)
      ensures var n := Min(|Uncached(old(embeddingCache), texts)|, |made|);
        embeddingCache == PutAll(old(embeddingCache), UncachedTexts(old(embeddingCache), texts)[..n], made[..n])
      ensures Filled(result[..], old(embeddingCache), texts, made, Min(|Uncached(old(embeddingCache), texts)|, |made|))
      ensures queryCache == old(queryCache) && queryCalls == old(queryCalls) && documentCalls == old(documentCalls)
    {
      ghost var cache0 := embeddingCache;
      var uncachedIndices := Uncached(embeddingCache, texts);
      ghost var uncachedTexts := UncachedTexts(embeddingCache, texts);
      var cache := embeddingCache;
      for k := 0 to Min(|uncachedIndices|, |made|)
        modifies result
        invariant DistinctKeys(cache)
        invariant cache == PutAll(cache0, uncachedTexts[..k], made[..k])
        invariant Filled(result[..], cache0, texts, made, k)
      {
        var idx := uncachedIndices[k];
        FillStep(result[..], cache0, texts, made, k);
        PutAllSnoc(cache0, uncachedTexts, made, k);
        cache := Put(cache, texts[idx], made[k]);
        result[idx] := Some(made[k]);
      }
      embeddingCache := cache;
    }

    /** `if len(cache) > max: del` the first 100 keys. */
    method TrimEmbeddingCache()
      requires DistinctKeys(embeddingCache)
      modifies this
      ensures DistinctKeys(embeddingCache)
      ensures embeddingCache == Trimmed(old(embeddingCache), maxEmbeddingCache)
      ensures queryCache == old(queryCache) && queryCalls == old(queryCalls) && documentCalls == old(documentCalls)
    {
      TrimmedSpec(embeddingCache, maxEmbeddingCache);
      if |embeddingCache| > maxEmbeddingCache {
        var keysToRemove := Keys(embeddingCache)[..Min(EvictBatch, |embeddingCache|)];
        DeleteFirstKeys(embeddingCache, |keysToRemove|);
        embeddingCache := DeleteEach(embeddingCache, keysToRemove);
      }
    }

    /** add_document: the type is taken from the file name when none is given; a failure
        to process propagates; a document without chunks stores nothing and counts 0;
        otherwise every chunk is embedded and stored, and the count of chunks returned.
        An embedding failure propagates with nothing cached and nothing stored. */
    method AddDocument(content: string, filename: string, docType: Option<string>, now: string) returns (r: Result<nat>)
      requires Valid()
      modifies this, store
      ensures Valid()
      ensures var chunks := DocumentChunks(processor, pdfReader, content, filename, docType.GetOr(InferDocType(filename)), now);
        (chunks.Failure? || |chunks.value| == 0) ==>
          && r == (if chunks.Failure? then Failure(chunks.error) else Success(0))
          && embeddingCache == old(embeddingCache) && documentCalls == old(documentCalls)
          && store.collections == old(store.collections) && store.chunksHandle == old(store.chunksHandle)
          && store.chunkAdds == old(store.chunkAdds)
      ensures var chunks := DocumentChunks(processor, pdfReader, content, filename, docType.GetOr(InferDocType(filename)), now);
        (chunks.Success? && |chunks.value| > 0 &&
         FreshEmbeddings(old(embeddingCache), Contents(chunks.value), embedDocuments).None?) ==>
          && r == Failure(EmbeddingFailed)
          && embeddingCache == old(embeddingCache)
          && store.collections == old(store.collections) && store.chunksHandle == old(store.chunksHandle)
          && store.chunkAdds == old(store.chunkAdds)
      ensures var chunks := DocumentChunks(processor, pdfReader, content, filename, docType.GetOr(InferDocType(filename)), now);
        (chunks.Success? && |chunks.value| > 0 &&
         FreshEmbeddings(old(embeddingCache), Contents(chunks.value), embedDocuments).Some?) ==>
          var texts := Contents(chunks.value);
          var made := FreshEmbeddings(old(embeddingCache), texts, embedDocuments).value;
          && r == Success(|chunks.value|)
          && embeddingCache == BatchCache(old(embeddingCache), texts, made, maxEmbeddingCache)
          && store.collections == VectorStore.Appended(
               VectorStore.Opened(old(store.collections), VectorStore.DocumentChunksName), VectorStore.DocumentChunksName,
               VectorStore.ChunkRecords(ChunkDatas(chunks.value), Vectors(BatchEmbeddings(old(embeddingCache), texts, made))))
          && store.chunksHandle == Some(VectorStore.Handle(VectorStore.DocumentChunksName))
      ensures queryCache == old(queryCache) && queryCalls == old(queryCalls)
      ensures store.answersHandle == old(store.answersHandle)
    {
      var processed := ProcessDocument(content, filename, docType.GetOr(InferDocType(filename)), now);
      if processed.Failure? {
        return Failure(processed.error);
      }
      if |processed.value| == 0 {
        return Success(0);
      }
      var stored := StoreChunks(processed.value);
      r := if stored then Success(|processed.value|) else Failure(EmbeddingFailed);
    }

    /** The dispatch of add_document on the document type. */
    method ProcessDocument(content: string, filename: string, docType: string, now: string)
      returns (r: Result<seq<DocumentProcessor.DocumentChunk>>)
      ensures r == DocumentChunks(processor, pdfReader, content, filename, docType, now)
    {
      if docType == "markdown" {
        r := DocumentProcessor.ProcessMarkdown(processor, content, filename, now);
      } else if docType == "pdf" {
        var chunks := DocumentProcessor.ProcessPdf(processor, pdfReader(content), filename, now);
        r := Success(chunks);
      } else {
        r := DocumentProcessor.ProcessText(processor, content, filename, now);
      }
    }

    /** Lines 58-66 of add_document: the chunks' texts are embedded and the chunks stored
        with their embeddings; when embedding raises, nothing is cached or stored. */
    method StoreChunks(chunks: seq<DocumentProcessor.DocumentChunk>) returns (stored: bool)
      requires Valid() && |chunks| > 0
      modifies this, store
      ensures Valid()
      ensures stored <==> FreshEmbeddings(old(embeddingCache), Contents(chunks), embedDocuments).Some?
      ensures !stored ==>
        && embeddingCache == old(embeddingCache)
        && store.collections == old(store.collections) && store.chunksHandle == old(store.chunksHandle)
        && store.chunkAdds == old(store.chunkAdds)
      ensures stored ==>
        var texts := Contents(chunks);
        var made := FreshEmbeddings(old(embeddingCache), texts, embedDocuments).value;
        && embeddingCache == BatchCache(old(embeddingCache), texts, made, maxEmbeddingCache)
        && store.collections == VectorStore.Appended(
             VectorStore.Opened(old(store.collections), VectorStore.DocumentChunksName), VectorStore.DocumentChunksName,
             VectorStore.ChunkRecords(ChunkDatas(chunks), Vectors(BatchEmbeddings(old(embeddingCache), texts, made))))
        && store.chunksHandle == Some(VectorStore.Handle(VectorStore.DocumentChunksName))
      ensures queryCache == old(queryCache) && queryCalls == old(queryCalls)
      ensures store.answersHandle == old(store.answersHandle)
    {
      var texts := seq(|chunks|, k requires 0 <= k < |chunks| => chunks[k].content);
      assert texts == Contents(chunks);
      var answer := GenerateEmbeddingsBatch(texts);
      if answer.None? {
        return false;
      }
      var embeddings := answer.value;
      var chunkData := seq(|chunks|, k requires 0 <= k < |chunks| => ChunkDataOf(chunks[k]));
      var vectors := seq(|embeddings|, k requires 0 <= k < |embeddings| => embeddings[k].GetOr([]));
      assert texts == Contents(chunks) && chunkData == ChunkDatas(chunks) && vectors == Vectors(embeddings);
      var added := store.AddDocumentChunks(chunkData, vectors);
      stored := true;
    }

    /** retrieve: a cached answer under an hour old is returned as it is; otherwise the
        query is embedded, the nearest chunks are searched, each becomes a result with
        confidence `1 - distance`, and the results are cached under the query's key. When
        embedding the query raises, the exception propagates with both caches as they were. */
    method Retrieve(query: string, topK: nat, now: int, nearest: VectorStore.Nearest) returns (r: Option<seq<RagResult>>)
      requires Valid()
      modifies this, store
      ensures Valid()
      ensures FreshHit(old(queryCache), DualRetrieval.QueryKey(query), now) ==>
        && r == Some(Lookup(old(queryCache), DualRetrieval.QueryKey(query)).value.results)
        && queryCache == old(queryCache) && embeddingCache == old(embeddingCache) && queryCalls == old(queryCalls)
        && store.collections == old(store.collections) && store.chunksHandle == old(store.chunksHandle)
      ensures (!FreshHit(old(queryCache), DualRetrieval.QueryKey(query), now) &&
               QueryEmbedding(old(embeddingCache), embedQuery, query).None?) ==>
        && r.None?
        && queryCache == old(queryCache) && embeddingCache == old(embeddingCache) && queryCalls == old(queryCalls) + [query]
        && store.collections == old(store.collections) && store.chunksHandle == old(store.chunksHandle)
      ensures (!FreshHit(old(queryCache), DualRetrieval.QueryKey(query), now) &&
               QueryEmbedding(old(embeddingCache), embedQuery, query).Some?) ==>
        var e := QueryEmbedding(old(embeddingCache), embedQuery, query).value;
        var chunkStore := VectorStore.Opened(old(store.collections), VectorStore.DocumentChunksName);
        && r.Some?
        && r.value == ToRagResults(nearest(chunkStore[VectorStore.DocumentChunksName].records, e, topK))
        && queryCache == CacheResults(old(queryCache), DualRetrieval.QueryKey(query), r.value, now)
        && embeddingCache == (if HasKey(old(embeddingCache), query) then old(embeddingCache) else Put(old(embeddingCache), query, e))
        && queryCalls == old(queryCalls) + (if HasKey(old(embeddingCache), query) then [] else [query])
        && store.collections == chunkStore && store.chunksHandle.Some?
      ensures documentCalls == old(documentCalls)
      ensures store.answersHandle == old(store.answersHandle) && store.chunkAdds == old(store.chunkAdds)
    {
      var key := DualRetrieval.QueryKey(query);
      var cached := Lookup(queryCache, key);
      if cached.Some? && DualRetrieval.AgeHours(cached.value.time, now) < 1.0 {
        return Some(cached.value.results);
      }
      var queryEmbedding := GetEmbedding(query);
      if queryEmbedding.None? {
        return None;
      }
      var hits := store.SearchDocumentChunks(nearest, queryEmbedding.value, topK);
      var results := ConvertHits(hits);
      CacheQueryResults(key, results, now);
      r := Some(results);
    }

    /** Lines 115-121 of retrieve. */
    method CacheQueryResults(key: string, results: seq<RagResult>, now: int)
      requires DistinctKeys(queryCache) && |queryCache| <= MaxQueryCache
      modifies this
      ensures queryCache == CacheResults(old(queryCache), key, results, now)
      ensures DistinctKeys(queryCache) && |queryCache| <= MaxQueryCache
      ensures embeddingCache == old(embeddingCache) && documentCalls == old(documentCalls) && queryCalls == old(queryCalls)
    {
      CacheResultsBounded(queryCache, key, results, now);
      var c := Put(queryCache, key, CachedResults(results, now));
      if |c| > MaxQueryCache {
        var oldest := c[OldestIndex(c)].key;
        c := Delete(c, oldest);
      }
      queryCache := c;
    }

    /** get_stats: the store's counts (opening both collections) and the cache sizes. */
    method GetStats() returns (s: Stats)
      requires Valid()
      modifies store
      ensures Valid()
      ensures store.collections == VectorStore.Opened(VectorStore.Opened(old(store.collections),
                VectorStore.DocumentChunksName), VectorStore.ValidatedAnswersName)
      ensures s == Stats(|store.collections[VectorStore.DocumentChunksName].records|,
                         |store.collections[VectorStore.ValidatedAnswersName].records|,
                         |embeddingCache|, |queryCache|)
      ensures store.chunkAdds == old(store.chunkAdds)
    {
      var chunkCount, answerCount := store.CollectionStats();
      s := Stats(chunkCount, answerCount, |embeddingCache|, |queryCache|);
    }

    /** clear_caches: both caches are emptied; the store is untouched. */
    method ClearCaches()
      requires Valid()
      modifies this
      ensures Valid()
      ensures embeddingCache == [] && queryCache == []
      ensures documentCalls == old(documentCalls) && queryCalls == old(queryCalls)
    {
      embeddingCache := [];
      queryCache := [];
    }
  }
}
