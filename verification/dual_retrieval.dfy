/** The three-tier retriever (backend/app/rag/dual_retrieval.py): a query cache with a
    time-to-live, then human-validated answers above a confidence threshold, then a
    merge of validated answers and document chunks, de-duplicated, ranked and
    thinned out for diversity. */
module DualRetrieval {
  import opened Wrappers
  import opened Values
  import opened Text
  import opened Dicts
  import opened Sorting

  /** One retrieved passage; `source` is "validated", "rag" or "cache". */
  datatype RetrievalResult = RetrievalResult(
    content: string,
    source: string,
    confidence: real,
    metadata: Metadata,
    chunkIds: Option<seq<string>>,
    validationInfo: Option<Metadata>)

  type Embedding = seq<real>

  /** The width of a text-embedding-3-small vector. */
  const EmbeddingWidth: nat := 1536

  /** The fallback returned when the embedding model fails. */
  function ZeroVector(): (z: Embedding)
    ensures |z| == EmbeddingWidth
    ensures forall i :: 0 <= i < |z| ==> z[i] == 0.0
  {
    seq(EmbeddingWidth, _ => 0.0)
  }

  /** The configuration values the retriever reads. */
  datatype Settings = Settings(
    confidenceThreshold: real,
    cacheTtlHours: nat,
    maxCacheSize: nat,
    maxEmbeddingCache: nat)

  /** The embedding service (`None` when the call raises) and the test
      "cosine similarity above 0.85" on two embeddings. */
  datatype EmbeddingModel = EmbeddingModel(
    embed: string -> Option<Embedding>,
    similar: (Embedding, Embedding) -> bool)

  /** The embedding `_get_embedding` hands back for `text`, cached or not. */
  function EmbeddingFor(m: EmbeddingModel, text: string): Embedding {
    match m.embed(text)
    case Some(e) => e
    case None => ZeroVector()
  }

  /** The vector store's two nearest-neighbour searches, as `_search_validated`
      (embedding, original query, k) and `_search_rag` (embedding, k) report them. */
  datatype Search = Search(
    validated: (Embedding, string, nat) -> seq<RetrievalResult>,
    rag: (Embedding, nat) -> seq<RetrievalResult>)

  // ---------------------------------------------------------------------------
  // The query cache

  /** A cached best result and the time (in seconds) it was stored. */
  datatype Cached = Cached(result: RetrievalResult, time: int)

  type QueryCache = Dict<string, Cached>

  /** The cache key of a query: lower-cased, then stripped. */
  function QueryKey(query: string): string {
    Strip(Lower(query))
  }

  function AgeHours(stored: int, now: int): real {
    (now - stored) as real / 3600.0
  }

  /** The result handed back on a hit, with its access metadata set. */
  function MarkHit(r: RetrievalResult, age: real): RetrievalResult {
    r.(metadata := r.metadata["cache_hit" := Bool(true)]["cache_age_hours" := Real(age)])
  }

  /** What `_check_cache` finds, and the cache it leaves behind. */
  datatype Probe = Hit(result: RetrievalResult, cache: QueryCache) | Miss(cache: QueryCache)

  /** `_check_cache`: a fresh entry is a hit (and, being the same object as the one
      in the cache, is marked in place); a stale entry is deleted; a missing one is a miss. */
  function CheckCache(cache: QueryCache, query: string, now: int, ttlHours: nat): (p: Probe)
    requires DistinctKeys(cache)
    ensures var key := QueryKey(query);
      p.Hit? <==> HasKey(cache, key) && AgeHours(Lookup(cache, key).value.time, now) < ttlHours as real
    ensures var key := QueryKey(query);
      p.Hit? ==> var c := Lookup(cache, key).value;
        p.result == MarkHit(c.result, AgeHours(c.time, now)) &&
        Lookup(p.cache, key) == Some(Cached(p.result, c.time)) && Keys(p.cache) == Keys(cache)
    ensures p.Miss? ==> !HasKey(p.cache, QueryKey(query))
    ensures forall k :: k != QueryKey(query) ==> Lookup(p.cache, k) == Lookup(cache, k)
    ensures DistinctKeys(p.cache) && |p.cache| <= |cache|
  {
    var key := QueryKey(query);
    match Lookup(cache, key)
    case None => Miss(cache)
    case Some(c) =>
      var age := AgeHours(c.time, now);
      if age < ttlHours as real then
        var marked := MarkHit(c.result, age);
        Hit(marked, Put(cache, key, Cached(marked, c.time)))
      else
        DeleteKeeps(cache, key);
        Miss(Delete(cache, key))
  }

  /** The sort key of `sorted(query_cache.items(), key=timestamp)`. */
  function StoredAt(e: Entry<string, Cached>): real {
    e.value.time as real
  }

  /** The keys of the `n` oldest entries; entries stored at the same time go in insertion order. */
  function OldestKeys(cache: QueryCache, n: nat): (ks: seq<string>)
    ensures |ks| == Min(n, |cache|)
  {
    Keys(SortBy(cache, StoredAt))[..Min(n, |cache|)]
  }

  /** `_update_cache`: store the entry, then drop the 20 oldest when over the limit. */
  function StoreQuery(cache: QueryCache, query: string, r: RetrievalResult, now: int, maxSize: nat): QueryCache {
    var c := Put(cache, QueryKey(query), Cached(r, now));
    if |c| > maxSize then DeleteAll(c, OldestKeys(c, 20)) else c
  }

  /** The keys picked for eviction are distinct keys of the cache, taken in order of age. */
  lemma OldestKeysSpec(c: QueryCache, n: nat)
    requires DistinctKeys(c)
    ensures var ks := OldestKeys(c, n);
      (forall i, j :: 0 <= i < j < |ks| ==> ks[i] != ks[j]) &&
      (forall i :: 0 <= i < |ks| ==> HasKey(c, ks[i]))
  {
    var sorted := SortBy(c, StoredAt);
    var ks := OldestKeys(c, n);
    SortKeepsDistinct(c, StoredAt, (e: Entry<string, Cached>) => e.key);
    forall i, j | 0 <= i < j < |ks| ensures ks[i] != ks[j] {
      assert ks[i] == sorted[i].key && ks[j] == sorted[j].key;
    }
    forall i | 0 <= i < |ks| ensures HasKey(c, ks[i]) {
      assert sorted[i] in c;
      var p :| 0 <= p < |c| && c[p] == sorted[i];
    }
  }

  /** Every entry that survives the eviction is at least as recent as every evicted one. */
  lemma OldestKeysAreOldest(c: QueryCache, n: nat, x: Entry<string, Cached>, k: string)
    requires DistinctKeys(c)
    requires x in c && x.key !in OldestKeys(c, n)
    requires k in OldestKeys(c, n)
    ensures HasKey(c, k) && Lookup(c, k).value.time <= x.value.time
  {
    var sorted := SortBy(c, StoredAt);
    var ks := OldestKeys(c, n);
    SortSpec(c, StoredAt);
    SortKeepsDistinct(c, StoredAt, (e: Entry<string, Cached>) => e.key);
    var a :| 0 <= a < |ks| && ks[a] == k;
    assert sorted[a].key == k;
    assert sorted[a] in c;
    LookupMember(c, k, sorted[a].value);
    assert x in multiset(sorted);
    var b :| 0 <= b < |sorted| && sorted[b] == x;
    assert b >= |ks|;
    assert StoredAt(sorted[a]) <= StoredAt(sorted[b]);
  }

  /** The eviction drops exactly the 20 oldest entries (or all, when there are fewer):
      every entry that stays is at least as recent as every entry that goes. */
  lemma EvictOldestSpec(c: QueryCache)
    requires DistinctKeys(c)
    ensures var r := DeleteAll(c, OldestKeys(c, 20));
      DistinctKeys(r) && |r| == |c| - Min(20, |c|) &&
      (forall x :: x in r ==> x in c) &&
      forall x, k :: x in r && k in OldestKeys(c, 20) ==> HasKey(c, k) && Lookup(c, k).value.time <= x.value.time
  {
    var ks := OldestKeys(c, 20);
    OldestKeysSpec(c, 20);
    DeleteAllSize(c, ks);
    forall x, k | x in DeleteAll(c, ks) && k in ks ensures HasKey(c, k) && Lookup(c, k).value.time <= x.value.time {
      OldestKeysAreOldest(c, 20, x, k);
    }
  }

  /** The query cache never holds more than `max_cache_size` entries. */
  lemma StoreQueryBounded(cache: QueryCache, query: string, r: RetrievalResult, now: int, maxSize: nat)
    requires DistinctKeys(cache) && |cache| <= maxSize
    ensures DistinctKeys(StoreQuery(cache, query, r, now, maxSize))
    ensures |StoreQuery(cache, query, r, now, maxSize)| <= maxSize
  {
    var c := Put(cache, QueryKey(query), Cached(r, now));
    if |c| > maxSize {
      EvictOldestSpec(c);
    }
  }

  // ---------------------------------------------------------------------------
  // The embedding cache

  type EmbeddingCache = Dict<string, Embedding>

  /** Storing a new embedding, then dropping the 100 earliest-inserted entries when over the limit. */
  function CacheEmbedding(cache: EmbeddingCache, text: string, e: Embedding, maxSize: nat): (r: EmbeddingCache)
    ensures HasKey(cache, text) ==> |r| <= |cache|
    ensures !HasKey(cache, text) && |cache| + 1 > maxSize ==> r == (cache + [Entry(text, e)])[Min(100, |cache| + 1)..]
    ensures !HasKey(cache, text) && |cache| + 1 <= maxSize ==> r == cache + [Entry(text, e)]
  {
    var c := Put(cache, text, e);
    if |c| > maxSize then c[Min(100, |c|)..] else c
  }

  /** Every cached vector is what the service returns for its text. */
  predicate Faithful(m: EmbeddingModel, cache: EmbeddingCache) {
    forall i :: 0 <= i < |cache| ==> m.embed(cache[i].key) == Some(cache[i].value)
  }

  /** Caching a vector the service returned keeps the cache faithful, its keys distinct
      and its size within the limit. */
  lemma CacheEmbeddingKeeps(m: EmbeddingModel, cache: EmbeddingCache, text: string, e: Embedding, maxSize: nat)
    requires DistinctKeys(cache) && |cache| <= maxSize && Faithful(m, cache)
    requires m.embed(text) == Some(e)
    ensures var r := CacheEmbedding(cache, text, e, maxSize);
      DistinctKeys(r) && |r| <= maxSize && Faithful(m, r)
  {
    var c := Put(cache, text, e);
    forall i | 0 <= i < |c| ensures m.embed(c[i].key) == Some(c[i].value) {
      assert c[i] in c;
    }
  }

  // ---------------------------------------------------------------------------
  // Merging and re-ranking

  /** The part of a result's content the duplicate test looks at. */
  function Prefix(r: RetrievalResult): string {
    Take(r.content, 200)
  }

  /** A validated answer's 15% boost (exact arithmetic). */
  function Tag(r: RetrievalResult, boost: bool): (t: RetrievalResult)
    ensures Prefix(t) == Prefix(r)
  {
    if boost then r.(confidence := r.confidence * 1.15) else r
  }

  function Tagged(rs: seq<RetrievalResult>, boost: bool): (ts: seq<RetrievalResult>)
    ensures |ts| == |rs|
    ensures forall i :: 0 <= i < |rs| ==> ts[i] == Tag(rs[i], boost)
  {
    seq(|rs|, i requires 0 <= i < |rs| => Tag(rs[i], boost))
  }

  function PrefixSet(rs: seq<RetrievalResult>): set<string> {
    set i | 0 <= i < |rs| :: Prefix(rs[i])
  }

  /** One of the two loops of `_merge_and_rerank`: keep each result whose prefix has
      not been seen, boosting it when `boost` holds. */
  function Unique(rs: seq<RetrievalResult>, seen: set<string>, boost: bool): (r: seq<RetrievalResult>)
    ensures forall i :: 0 <= i < |r| ==> Prefix(r[i]) !in seen
  {
    if |rs| == 0 then []
    else if Prefix(rs[0]) in seen then Unique(rs[1..], seen, boost)
    else [Tag(rs[0], boost)] + Unique(rs[1..], seen + {Prefix(rs[0])}, boost)
  }

  /** The loop keeps results with distinct prefixes. */
  lemma {:induction false} UniqueDistinct(rs: seq<RetrievalResult>, seen: set<string>, boost: bool)
    ensures DistinctBy(Unique(rs, seen, boost), Prefix)
    ensures PrefixSet(Unique(rs, seen, boost)) <= PrefixSet(rs)
  {
    if |rs| > 0 {
      var p := Prefix(rs[0]);
      PrefixSetCons(rs[0], rs[1..]);
      assert [rs[0]] + rs[1..] == rs;
      if p in seen {
        UniqueDistinct(rs[1..], seen, boost);
      } else {
        UniqueDistinct(rs[1..], seen + {p}, boost);
        var rest := Unique(rs[1..], seen + {p}, boost);
        var r := [Tag(rs[0], boost)] + rest;
        PrefixSetCons(Tag(rs[0], boost), rest);
        DistinctCons(Tag(rs[0], boost), rest);
      }
    }
  }

  lemma DistinctCons(x: RetrievalResult, rest: seq<RetrievalResult>)
    requires DistinctBy(rest, Prefix)
    requires forall k :: 0 <= k < |rest| ==> Prefix(rest[k]) != Prefix(x)
    ensures DistinctBy([x] + rest, Prefix)
  {
    var r := [x] + rest;
    forall i, j | 0 <= i < j < |r| ensures Prefix(r[i]) != Prefix(r[j]) {
      assert r[j] == rest[j - 1];
      if i > 0 {
        assert r[i] == rest[i - 1];
      }
    }
  }

  lemma PrefixSetCons(x: RetrievalResult, rs: seq<RetrievalResult>)
    ensures PrefixSet([x] + rs) == {Prefix(x)} + PrefixSet(rs)
  {
    PrefixSetConcat([x], rs);
    assert PrefixSet([x]) == {Prefix(x)} by {
      assert [x][0] == x;
    }
  }

  /** Every kept result is one of the inputs, boosted when `boost` holds. */
  lemma {:induction false} UniqueFromInputs(rs: seq<RetrievalResult>, seen: set<string>, boost: bool)
    ensures forall i :: 0 <= i < |Unique(rs, seen, boost)| ==> Unique(rs, seen, boost)[i] in Tagged(rs, boost)
  {
    if |rs| > 0 {
      var p := Prefix(rs[0]);
      var seen' := if p in seen then seen else seen + {p};
      UniqueFromInputs(rs[1..], seen', boost);
      var rest := Unique(rs[1..], seen', boost);
      forall i | 0 <= i < |rest| ensures rest[i] in Tagged(rs, boost) {
        var j :| 0 <= j < |rs[1..]| && Tagged(rs[1..], boost)[j] == rest[i];
        assert Tagged(rs, boost)[j + 1] == rest[i];
      }
      if p !in seen {
        assert Tagged(rs, boost)[0] == Tag(rs[0], boost);
      }
    }
  }

  /** Every input prefix was either seen before or is kept. */
  lemma {:induction false} UniqueCovers(rs: seq<RetrievalResult>, seen: set<string>, boost: bool)
    ensures forall i :: 0 <= i < |rs| ==> Prefix(rs[i]) in seen || Prefix(rs[i]) in PrefixSet(Unique(rs, seen, boost))
  {
    if |rs| > 0 {
      var p := Prefix(rs[0]);
      var seen' := if p in seen then seen else seen + {p};
      UniqueCovers(rs[1..], seen', boost);
      var rest := Unique(rs[1..], seen', boost);
      var r := Unique(rs, seen, boost);
      assert PrefixSet(rest) <= PrefixSet(r) by {
        if p !in seen {
          assert forall i :: 0 <= i < |rest| ==> r[i + 1] == rest[i];
        }
      }
      if p !in seen {
        assert Prefix(r[0]) == p;
      }
      forall i | 1 <= i < |rs| ensures Prefix(rs[i]) in seen || Prefix(rs[i]) in PrefixSet(r) {
        assert rs[i] == rs[1..][i - 1];
      }
    }
  }

  /** One step of the loop. */
  lemma UniqueStep(rs: seq<RetrievalResult>, i: nat, seen: set<string>, boost: bool)
    requires i < |rs|
    ensures Unique(rs[i..], seen, boost) ==
      if Prefix(rs[i]) in seen then Unique(rs[i + 1..], seen, boost)
      else [Tag(rs[i], boost)] + Unique(rs[i + 1..], seen + {Prefix(rs[i])}, boost)
  {
    assert rs[i..][1..] == rs[i + 1..];
  }

  lemma PrefixSetSnoc(rs: seq<RetrievalResult>, i: nat)
    requires i < |rs|
    ensures PrefixSet(rs[..i + 1]) == PrefixSet(rs[..i]) + {Prefix(rs[i])}
  {
    assert forall k :: 0 <= k < i ==> rs[..i + 1][k] == rs[..i][k];
  }

  /** The list `_merge_and_rerank` sorts: validated answers (boosted) first, then the
      document chunks whose prefix no earlier result has. */
  function Merged(validated: seq<RetrievalResult>, rag: seq<RetrievalResult>): seq<RetrievalResult> {
    Unique(validated, {}, true) + Unique(rag, PrefixSet(validated), false)
  }

  /** One loop of `_merge_and_rerank`: appends to `acc` each result whose prefix is not
      in `seen` yet (boosted when `boost` holds), recording the prefixes it meets. */
  method AppendUnique(rs: seq<RetrievalResult>, seen0: set<string>, acc: seq<RetrievalResult>, boost: bool)
    returns (all: seq<RetrievalResult>, seen: set<string>)
    ensures all == acc + Unique(rs, seen0, boost)
    ensures seen == seen0 + PrefixSet(rs)
  {
    all, seen := acc, seen0;
    for i := 0 to |rs|
      invariant seen == seen0 + PrefixSet(rs[..i])
      invariant all + Unique(rs[i..], seen, boost) == acc + Unique(rs, seen0, boost)
    {
      AppendUniqueStep(rs, i, seen0, seen, acc, all, boost);
      var prefix := Prefix(rs[i]);
      if prefix !in seen {
        all := all + [Tag(rs[i], boost)];
        seen := seen + {prefix};
      }
    }
    assert rs[..|rs|] == rs;
    assert rs[|rs|..] == [];
  }

  /** One iteration of `AppendUnique` keeps its invariants. */
  lemma AppendUniqueStep(rs: seq<RetrievalResult>, i: nat, seen0: set<string>, seen: set<string>,
                         acc: seq<RetrievalResult>, all: seq<RetrievalResult>, boost: bool)
    requires i < |rs|
    requires seen == seen0 + PrefixSet(rs[..i])
    requires all + Unique(rs[i..], seen, boost) == acc + Unique(rs, seen0, boost)
    ensures var p := Prefix(rs[i]);
      && seen + {p} == seen0 + PrefixSet(rs[..i + 1])
      && (p in seen ==> all + Unique(rs[i + 1..], seen, boost) == acc + Unique(rs, seen0, boost))
      && (p !in seen ==> (all + [Tag(rs[i], boost)]) + Unique(rs[i + 1..], seen + {p}, boost) == acc + Unique(rs, seen0, boost))
  {
    UniqueStep(rs, i, seen, boost);
    PrefixSetSnoc(rs, i);
    var p := Prefix(rs[i]);
    if p !in seen {
      assert (all + [Tag(rs[i], boost)]) + Unique(rs[i + 1..], seen + {p}, boost)
          == all + ([Tag(rs[i], boost)] + Unique(rs[i + 1..], seen + {p}, boost));
    }
  }

  /** The two loops of `_merge_and_rerank` that build the list to sort, sharing one set
      of seen prefixes. */
  method MergeUnique(validated: seq<RetrievalResult>, rag: seq<RetrievalResult>) returns (all: seq<RetrievalResult>)
    ensures all == Merged(validated, rag)
  {
    var seen;
    all, seen := AppendUnique(validated, {}, [], true);
    assert {} + PrefixSet(validated) == PrefixSet(validated);
    all, seen := AppendUnique(rag, seen, all, false);
  }

  /** The sort key of `sort(key=confidence, reverse=True)`. */
  function Downward(r: RetrievalResult): real {
    -r.confidence
  }

  predicate NonIncreasing(rs: seq<RetrievalResult>) {
    forall i, j :: 0 <= i < j < |rs| ==> rs[i].confidence >= rs[j].confidence
  }

  // ---------------------------------------------------------------------------
  // The diversity filter

  /** `cosine(embed(candidate[:200]), embed(selected[:200])) > 0.85`. */
  predicate TooSimilar(m: EmbeddingModel, candidate: RetrievalResult, selected: RetrievalResult) {
    m.similar(EmbeddingFor(m, Prefix(candidate)), EmbeddingFor(m, Prefix(selected)))
  }

  predicate DiverseFrom(m: EmbeddingModel, candidate: RetrievalResult, kept: seq<RetrievalResult>) {
    forall j :: 0 <= j < |kept| ==> !TooSimilar(m, candidate, kept[j])
  }

  /** The candidate loop from position `i` on, with `kept` selected so far. */
  function Select(m: EmbeddingModel, rs: seq<RetrievalResult>, topK: nat, i: nat, kept: seq<RetrievalResult>): seq<RetrievalResult>
    decreases |rs| - i
  {
    if i >= |rs| || |kept| >= topK then kept
    else Select(m, rs, topK, i + 1, if DiverseFrom(m, rs[i], kept) then kept + [rs[i]] else kept)
  }

  /** `_apply_diversity_filter`: the first result, then each later one that is not too
      similar to any already kept, until `top_k` are kept. */
  function Diverse(m: EmbeddingModel, rs: seq<RetrievalResult>, topK: nat): seq<RetrievalResult> {
    if |rs| == 0 then [] else Select(m, rs, topK, 1, [rs[0]])
  }

  predicate Increasing(idx: seq<nat>) {
    forall a, b :: 0 <= a < b < |idx| ==> idx[a] < idx[b]
  }

  /** `r` is `rs` at the positions `idx`, in order. */
  predicate PicksOf<T(==)>(r: seq<T>, rs: seq<T>, idx: seq<nat>) {
    |idx| == |r| && Increasing(idx) &&
    forall a :: 0 <= a < |idx| ==> idx[a] < |rs| && r[a] == rs[idx[a]]
  }

  predicate MutuallyDiverse(m: EmbeddingModel, kept: seq<RetrievalResult>) {
    forall a, b :: 0 <= a < b < |kept| ==> !TooSimilar(m, kept[b], kept[a])
  }

  lemma {:induction false} SelectSpec(m: EmbeddingModel, rs: seq<RetrievalResult>, topK: nat, i: nat,
                                      kept: seq<RetrievalResult>, idx: seq<nat>) returns (idx': seq<nat>)
    requires 0 < i <= |rs| && PicksOf(kept, rs, idx) && MutuallyDiverse(m, kept)
    requires forall a :: 0 <= a < |idx| ==> idx[a] < i
    requires 0 < |kept| <= Max1(topK)
    requires |kept| > 0 ==> idx[0] == 0
    ensures var r := Select(m, rs, topK, i, kept);
      PicksOf(r, rs, idx') && MutuallyDiverse(m, r) && 0 < |r| <= Max1(topK) && idx'[0] == 0 &&
      |kept| <= |r| && kept == r[..|kept|]
    decreases |rs| - i
  {
    if i >= |rs| || |kept| >= topK {
      idx' := idx;
    } else if DiverseFrom(m, rs[i], kept) {
      var kept2 := kept + [rs[i]];
      KeepStep(m, rs, i, kept, idx);
      idx' := SelectSpec(m, rs, topK, i + 1, kept2, idx + [i]);
      assert kept2[..|kept|] == kept;
    } else {
      idx' := SelectSpec(m, rs, topK, i + 1, kept, idx);
    }
  }

  /** Keeping candidate `i`, diverse from those kept so far, extends the selection. */
  lemma KeepStep(m: EmbeddingModel, rs: seq<RetrievalResult>, i: nat, kept: seq<RetrievalResult>, idx: seq<nat>)
    requires i < |rs| && PicksOf(kept, rs, idx) && MutuallyDiverse(m, kept) && DiverseFrom(m, rs[i], kept)
    requires forall a :: 0 <= a < |idx| ==> idx[a] < i
    ensures PicksOf(kept + [rs[i]], rs, idx + [i]) && MutuallyDiverse(m, kept + [rs[i]])
    ensures forall a :: 0 <= a < |idx + [i]| ==> (idx + [i])[a] < i + 1
  {
    var kept2 := kept + [rs[i]];
    forall a, b | 0 <= a < b < |kept2| ensures !TooSimilar(m, kept2[b], kept2[a]) {
      if b == |kept| {
        assert kept2[a] == kept[a];
      }
    }
  }

  function Max1(n: nat): nat {
    if n == 0 then 1 else n
  }

  /** The filter keeps the first result and an order-preserving selection of the others,
      no two of which are too similar, and at most `top_k` of them (one when `top_k` is 0). */
  lemma DiverseSpec(m: EmbeddingModel, rs: seq<RetrievalResult>, topK: nat) returns (idx: seq<nat>)
    ensures var r := Diverse(m, rs, topK);
      PicksOf(r, rs, idx) && MutuallyDiverse(m, r) && |r| <= Max1(topK) &&
      (r == [] <==> rs == []) && (|rs| > 0 ==> r[0] == rs[0])
  {
    if |rs| == 0 {
      idx := [];
    } else {
      idx := SelectSpec(m, rs, topK, 1, [rs[0]], [0]);
    }
  }

  /** `_merge_and_rerank`: merge, sort by decreasing confidence, then cut to `top_k`
      (through the diversity filter when there are more). */
  function Ranked(m: EmbeddingModel, validated: seq<RetrievalResult>, rag: seq<RetrievalResult>, topK: nat): seq<RetrievalResult> {
    var all := SortBy(Merged(validated, rag), Downward);
    if |all| > topK then Diverse(m, all, topK) else all
  }

  /** Before sorting, no two merged results share a prefix. */
  lemma MergedDistinct(validated: seq<RetrievalResult>, rag: seq<RetrievalResult>)
    ensures DistinctBy(Merged(validated, rag), Prefix)
  {
    var u := Unique(validated, {}, true);
    var w := Unique(rag, PrefixSet(validated), false);
    UniqueDistinct(validated, {}, true);
    UniqueDistinct(rag, PrefixSet(validated), false);
    var merged := u + w;
    forall i, j | 0 <= i < j < |merged| ensures Prefix(merged[i]) != Prefix(merged[j]) {
      if i < |u| && j >= |u| {
        assert Prefix(merged[i]) in PrefixSet(u);
        assert merged[j] == w[j - |u|];
      } else if i >= |u| {
        assert merged[i] == w[i - |u|] && merged[j] == w[j - |u|];
      }
    }
  }

  /** Every merged result is a (boosted) validated answer or a document chunk, and a
      result whose prefix some validated answer has is a validated answer. */
  lemma MergedOrigin(validated: seq<RetrievalResult>, rag: seq<RetrievalResult>)
    ensures var merged := Merged(validated, rag);
      (forall i :: 0 <= i < |merged| ==> merged[i] in Tagged(validated, true) || merged[i] in rag) &&
      (forall i :: 0 <= i < |merged| && Prefix(merged[i]) in PrefixSet(validated) ==> merged[i] in Tagged(validated, true))
  {
    var u := Unique(validated, {}, true);
    var w := Unique(rag, PrefixSet(validated), false);
    UniqueFromInputs(validated, {}, true);
    UniqueFromInputs(rag, PrefixSet(validated), false);
    var merged := u + w;
    forall i | 0 <= i < |merged| ensures merged[i] in Tagged(validated, true) || merged[i] in rag {
      if i >= |u| {
        assert merged[i] == w[i - |u|];
        var k :| 0 <= k < |rag| && Tagged(rag, false)[k] == w[i - |u|];
      }
    }
    forall i | 0 <= i < |merged| && Prefix(merged[i]) in PrefixSet(validated) ensures merged[i] in Tagged(validated, true) {
      if i < |u| {
        assert merged[i] == u[i];
      }
    }
  }

  lemma PrefixSetConcat(a: seq<RetrievalResult>, b: seq<RetrievalResult>)
    ensures PrefixSet(a + b) == PrefixSet(a) + PrefixSet(b)
  {
    var ab := a + b;
    forall x | x in PrefixSet(a) ensures x in PrefixSet(ab) {
      var i :| 0 <= i < |a| && Prefix(a[i]) == x;
      assert ab[i] == a[i];
    }
    forall x | x in PrefixSet(b) ensures x in PrefixSet(ab) {
      var i :| 0 <= i < |b| && Prefix(b[i]) == x;
      assert ab[|a| + i] == b[i];
    }
  }

  /** Every prefix among the inputs is represented in the merge. */
  lemma MergedCovers(validated: seq<RetrievalResult>, rag: seq<RetrievalResult>)
    ensures PrefixSet(Merged(validated, rag)) == PrefixSet(validated) + PrefixSet(rag)
  {
    var u := Unique(validated, {}, true);
    var w := Unique(rag, PrefixSet(validated), false);
    UniqueDistinct(validated, {}, true);
    UniqueDistinct(rag, PrefixSet(validated), false);
    UniqueCovers(validated, {}, true);
    UniqueCovers(rag, PrefixSet(validated), false);
    PrefixSetConcat(u, w);
    assert PrefixSet(validated) <= PrefixSet(u);
  }

  /** After the sort: non-increasing confidence, distinct prefixes, nothing new. */
  lemma SortedMergedSpec(validated: seq<RetrievalResult>, rag: seq<RetrievalResult>)
    ensures var all := SortBy(Merged(validated, rag), Downward);
      NonIncreasing(all) && DistinctBy(all, Prefix) &&
      forall i :: 0 <= i < |all| ==> all[i] in Merged(validated, rag)
  {
    var merged := Merged(validated, rag);
    MergedDistinct(validated, rag);
    var all := SortBy(merged, Downward);
    SortSpec(merged, Downward);
    SortKeepsDistinct(merged, Downward, Prefix);
    forall i, j | 0 <= i < j < |all| ensures all[i].confidence >= all[j].confidence {
      assert Downward(all[i]) <= Downward(all[j]);
    }
  }

  /** The result of `_merge_and_rerank` is ordered by non-increasing confidence, has no
      two results with the same 200-character prefix, lets a validated answer win over a
      document chunk with the same prefix, and holds at most `top_k` results (one when
      `top_k` is 0). */
  lemma RankedSpec(m: EmbeddingModel, validated: seq<RetrievalResult>, rag: seq<RetrievalResult>, topK: nat)
    ensures var r := Ranked(m, validated, rag, topK);
      NonIncreasing(r) && DistinctBy(r, Prefix) && |r| <= Max1(topK) &&
      (forall i :: 0 <= i < |r| ==> r[i] in Merged(validated, rag)) &&
      (forall i :: 0 <= i < |r| && Prefix(r[i]) in PrefixSet(validated) ==> r[i] in Tagged(validated, true))
  {
    var merged := Merged(validated, rag);
    MergedOrigin(validated, rag);
    var all := SortBy(merged, Downward);
    SortedMergedSpec(validated, rag);
    if |all| > topK {
      var idx := DiverseSpec(m, all, topK);
      var r := Diverse(m, all, topK);
      forall a, b | 0 <= a < b < |r| ensures r[a].confidence >= r[b].confidence && Prefix(r[a]) != Prefix(r[b]) {
        assert r[a] == all[idx[a]] && r[b] == all[idx[b]];
      }
      forall a | 0 <= a < |r| ensures r[a] in merged {
        assert r[a] == all[idx[a]];
      }
    }
    var r := Ranked(m, validated, rag, topK);
    forall i | 0 <= i < |r| && Prefix(r[i]) in PrefixSet(validated) ensures r[i] in Tagged(validated, true) {
      var k :| 0 <= k < |merged| && merged[k] == r[i];
    }
  }

  // ---------------------------------------------------------------------------
  // Adding a validated answer

  /** The source files named by the chunks' metadata: each truthy `source_file`, once,
      in the order first seen. */
  function SourceFiles(metas: seq<Option<Metadata>>): (files: seq<Value>)
    decreases |metas|
  {
    if |metas| == 0 then []
    else
      var files := SourceFiles(metas[..|metas| - 1]);
      match FileOf(metas[|metas| - 1])
      case Some(f) => if f in files then files else files + [f]
      case None => files
  }

  /** A chunk's `source_file`, when the metadata exists and the value is truthy. */
  function FileOf(meta: Option<Metadata>): Option<Value> {
    if meta.Some? && "source_file" in meta.value && Truthy(meta.value["source_file"])
    then Some(meta.value["source_file"]) else None
  }

  /** The files named in `metas`. */
  function NamedFiles(metas: seq<Option<Metadata>>): set<Value> {
    set i | 0 <= i < |metas| && FileOf(metas[i]).Some? :: FileOf(metas[i]).value
  }

  predicate IsPrefix<T(==)>(a: seq<T>, b: seq<T>) {
    |a| <= |b| && a == b[..|a|]
  }

  /** Each named file appears exactly once, nothing else appears, and reading one more
      chunk only ever appends, so the list is in first-seen order. */
  lemma {:induction false} SourceFilesSpec(metas: seq<Option<Metadata>>)
    ensures var files := SourceFiles(metas);
      (forall a, b :: 0 <= a < b < |files| ==> files[a] != files[b]) &&
      (forall f :: f in files <==> f in NamedFiles(metas))
    ensures forall n :: 0 <= n <= |metas| ==> IsPrefix(SourceFiles(metas[..n]), SourceFiles(metas))
    decreases |metas|
  {
    if |metas| > 0 {
      var init := metas[..|metas| - 1];
      SourceFilesSpec(init);
      assert NamedFiles(metas) == NamedFiles(init) + (if FileOf(metas[|metas| - 1]).Some? then {FileOf(metas[|metas| - 1]).value} else {}) by {
        forall i | 0 <= i < |init| ensures init[i] == metas[i] { }
      }
      forall n | 0 <= n <= |metas| ensures IsPrefix(SourceFiles(metas[..n]), SourceFiles(metas)) {
        if n < |metas| {
          assert metas[..n] == init[..n];
        } else {
          assert metas[..n] == metas;
        }
      }
    }
  }

  /** The metadata loop of `add_validated_answer`. */
  method CollectSourceFiles(metas: seq<Option<Metadata>>) returns (files: seq<Value>)
    ensures files == SourceFiles(metas)
  {
    files := [];
    for i := 0 to |metas|
      invariant files == SourceFiles(metas[..i])
    {
      assert metas[..i + 1][..i] == metas[..i];
      var meta := metas[i];
      if meta.Some? && "source_file" in meta.value && Truthy(meta.value["source_file"]) {
        var fileName := meta.value["source_file"];
        if fileName !in files {
          files := files + [fileName];
        }
      }
    }
    assert metas[..|metas|] == metas;
  }

  /** `query.replace(' ', '_').replace('?', '').replace('!', '')[:30]`. */
  function QueryWords(query: string): (w: string)
    ensures |w| <= 30
    ensures ' ' !in w && '?' !in w && '!' !in w
  {
    var underscored := ReplaceChar(query, ' ', '_');
    assert ' ' !in underscored;
    var cleaned := RemoveChar(RemoveChar(underscored, '?'), '!');
    Take(cleaned, 30)
  }

  /** The primary source file: the first named file, else a name made from the query. */
  function PrimarySource(query: string, files: seq<Value>): (v: Value)
    ensures |files| > 0 ==> v == files[0]
    ensures |files| == 0 ==> v.Str? && StartsWith(v.s, "Validated_") && |v.s| <= 40
  {
    if |files| > 0 then files[0] else Str("Validated_" + QueryWords(query))
  }

  /** The stored embedding: 30% query, 70% answer, position by position. */
  function Combine(q: Embedding, a: Embedding): (c: Embedding)
    ensures |c| == Min(|q|, |a|)
    ensures forall i :: 0 <= i < |c| ==> c[i] == 0.3 * q[i] + 0.7 * a[i]
  {
    seq(Min(|q|, |a|), i requires 0 <= i < Min(|q|, |a|) => 0.3 * q[i] + 0.7 * a[i])
  }

  /** The record handed to the validated-answers collection. */
  datatype ValidatedRecord = ValidatedRecord(id: string, content: string, metadata: Metadata, embedding: Embedding)

  /** The metadata stored with a validated answer (`json.dumps` lists are kept as lists). */
  function ValidatedMetadata(id: string, query: string, answer: string, threadId: string, files: seq<Value>,
                             sourceChunks: seq<string>, feedback: Option<string>, stamp: string): (md: Metadata)
  {
    var primary := PrimarySource(query, files);
    map[
      "thread_id" := Str(threadId),
      "section" := Str("Validated Response"),
      "approved_by" := Str("thread_user"),
      "approved_at" := Str(stamp),
      "source_chunks_json" := List(seq(|sourceChunks|, i requires 0 <= i < |sourceChunks| => Str(sourceChunks[i]))),
      "confidence_score" := Real(1.0),
      "validation_count" := Int(1),
      "last_accessed" := Str(stamp),
      "usage_count" := Int(0),
      "chunk_type" := Str("validated_answer"),
      "has_code" := Bool(Contains(answer, "```") || Contains(answer, "    ")),
      "doc_type" := Str("validated"),
      "feedback_received" := Str(feedback.GetOr("")),
      "original_query" := Str(query),
      "content" := Str(answer),
      "id" := Str(id),
      "validated_from_files" := List(files),
      "file" := primary,
      "source_file" := primary
    ]
  }

  /** The stored metadata names the primary source under both `source_file` and `file`,
      lists every collected file, and carries the answer, its query and the feedback. */
  lemma ValidatedMetadataSpec(id: string, query: string, answer: string, threadId: string, files: seq<Value>,
                              sourceChunks: seq<string>, feedback: Option<string>, stamp: string)
    ensures var md := ValidatedMetadata(id, query, answer, threadId, files, sourceChunks, feedback, stamp);
      "source_file" in md && md["source_file"] == PrimarySource(query, files) &&
      "file" in md && md["file"] == PrimarySource(query, files) &&
      "validated_from_files" in md && md["validated_from_files"] == List(files) &&
      "id" in md && md["id"] == Str(id) &&
      "content" in md && md["content"] == Str(answer) &&
      "original_query" in md && md["original_query"] == Str(query) &&
      "feedback_received" in md && md["feedback_received"] == Str(feedback.GetOr(""))
  {
  }

  // ---------------------------------------------------------------------------
  // The retriever object

  class DualRetrievalSystem {
    const settings: Settings
    const model: EmbeddingModel
    /** `hashlib.md5(...).hexdigest()`, used for the validated answer's id. */
    const md5: string -> string
    var queryCache: QueryCache
    var embeddingCache: EmbeddingCache
    /** The texts sent to the embedding service, in order. */
    ghost var embedCalls: seq<string>

    ghost predicate Valid()
      reads this
    {
      DistinctKeys(queryCache) && |queryCache| <= settings.maxCacheSize &&
      DistinctKeys(embeddingCache) && |embeddingCache| <= settings.maxEmbeddingCache &&
      Faithful(model, embeddingCache)
    }

    constructor(settings: Settings, model: EmbeddingModel, md5: string -> string)
      ensures Valid()
      ensures this.settings == settings && this.model == model && this.md5 == md5
      ensures queryCache == [] && embeddingCache == [] && embedCalls == []
    {
      this.settings := settings;
      this.model := model;
      this.md5 := md5;
      queryCache := [];
      embeddingCache := [];
      embedCalls := [];
    }

    /** `_check_cache`. */
    method CheckQueryCache(query: string, now: int) returns (hit: Option<RetrievalResult>)
      requires Valid()
      modifies this
      ensures Valid()
      ensures var p := CheckCache(old(queryCache), query, now, settings.cacheTtlHours);
        queryCache == p.cache && (hit.Some? <==> p.Hit?) && (p.Hit? ==> hit.value == p.result)
      ensures embeddingCache == old(embeddingCache) && embedCalls == old(embedCalls)
    {
      var p := CheckCache(queryCache, query, now, settings.cacheTtlHours);
      queryCache := p.cache;
      hit := if p.Hit? then Some(p.result) else None;
    }

    /** `_update_cache`, with its deletion loop. */
    method UpdateCache(query: string, result: RetrievalResult, now: int)
      requires Valid()
      modifies this
      ensures Valid()
      ensures queryCache == StoreQuery(old(queryCache), query, result, now, settings.maxCacheSize)
      ensures embeddingCache == old(embeddingCache) && embedCalls == old(embedCalls)
    {
      StoreQueryBounded(queryCache, query, result, now, settings.maxCacheSize);
      queryCache := Put(queryCache, QueryKey(query), Cached(result, now));
      if |queryCache| > settings.maxCacheSize {
        var oldest := OldestKeys(queryCache, 20);
        queryCache := DeleteEach(queryCache, oldest);
      }
    }

    /** `_get_embedding`: a cached vector without calling the service; otherwise one call,
        whose answer is cached (dropping the 100 earliest entries when over the limit);
        on failure the zero vector, and nothing is cached. */
    method GetEmbedding(text: string) returns (e: Embedding)
      requires Valid()
      modifies this
      ensures Valid()
      ensures e == EmbeddingFor(model, text)
      ensures queryCache == old(queryCache)
      ensures HasKey(old(embeddingCache), text) ==> embeddingCache == old(embeddingCache) && embedCalls == old(embedCalls)
      ensures !HasKey(old(embeddingCache), text) ==> embedCalls == old(embedCalls) + [text]
      ensures !HasKey(old(embeddingCache), text) ==>
        embeddingCache == if model.embed(text).Some?
          then CacheEmbedding(old(embeddingCache), text, e, settings.maxEmbeddingCache)
          else old(embeddingCache)
    {
      var cached := Lookup(embeddingCache, text);
      if cached.Some? {
        var i :| 0 <= i < |embeddingCache| && embeddingCache[i] == Entry(text, cached.value);
        return cached.value;
      }
      embedCalls := embedCalls + [text];
      var response := model.embed(text);
      if response.None? {
        return ZeroVector();
      }
      e := response.value;
      StoreEmbedding(text, e);
    }

    /** The cache update of `_get_embedding`: store, then delete the 100 earliest keys
        one by one when over the limit. */
    method StoreEmbedding(text: string, e: Embedding)
      requires Valid() && model.embed(text) == Some(e)
      modifies this
      ensures Valid()
      ensures embeddingCache == CacheEmbedding(old(embeddingCache), text, e, settings.maxEmbeddingCache)
      ensures queryCache == old(queryCache) && embedCalls == old(embedCalls)
    {
      CacheEmbeddingKeeps(model, embeddingCache, text, e, settings.maxEmbeddingCache);
      var c := Put(embeddingCache, text, e);
      if |c| > settings.maxEmbeddingCache {
        c := EvictOldest(c);
      }
      embeddingCache := c;
    }

    /** Deleting the first 100 keys of the embedding cache drops its first 100 entries. */
    static method EvictOldest(c: EmbeddingCache) returns (r: EmbeddingCache)
      requires DistinctKeys(c)
      ensures r == c[Min(100, |c|)..]
    {
      var oldest := Keys(c)[..Min(100, |c|)];
      DeleteFirstKeys(c, Min(100, |c|));
      r := DeleteEach(c, oldest);
    }

    /** The inner loop of _apply_diversity_filter: is the candidate too similar to none
        of the results kept so far? */
    method IsDiverse(candidate: RetrievalResult, kept: seq<RetrievalResult>) returns (isDiverse: bool)
      requires Valid()
      modifies this
      ensures Valid() && queryCache == old(queryCache)
      ensures isDiverse <==> DiverseFrom(model, candidate, kept)
    {
      isDiverse := true;
      var candidateEmbedding := GetEmbedding(Prefix(candidate));
      var j := 0;
      while j < |kept|
        invariant 0 <= j <= |kept|
        invariant Valid() && queryCache == old(queryCache)
        invariant forall k :: 0 <= k < j ==> !TooSimilar(model, candidate, kept[k])
      {
        var selectedEmbedding := GetEmbedding(Prefix(kept[j]));
        if model.similar(candidateEmbedding, selectedEmbedding) {
          isDiverse := false;
          break;
        }
        j := j + 1;
      }
    }

    /** `_apply_diversity_filter`, embedding each prefix through the cache. */
    method ApplyDiversityFilter(results: seq<RetrievalResult>, topK: nat) returns (diverse: seq<RetrievalResult>)
      requires Valid()
      modifies this
      ensures Valid()
      ensures diverse == Diverse(model, results, topK)
      ensures queryCache == old(queryCache)
    {
      if |results| == 0 {
        return [];
      }
      diverse := [results[0]];
      var i := 1;
      while i < |results| && |diverse| < topK
        invariant 1 <= i <= |results|
        invariant Valid() && queryCache == old(queryCache)
        invariant Select(model, results, topK, i, diverse) == Diverse(model, results, topK)
        decreases |results| - i
      {
        var candidate := results[i];
        var isDiverse := IsDiverse(candidate, diverse);
        if isDiverse {
          diverse := diverse + [candidate];
        }
        i := i + 1;
      }
    }

    /** `_merge_and_rerank`: the two de-duplicating loops, the sort, and the cut. */
    method MergeAndRerank(validated: seq<RetrievalResult>, rag: seq<RetrievalResult>, topK: nat)
      returns (ranked: seq<RetrievalResult>)
      requires Valid()
      modifies this
      ensures Valid()
      ensures ranked == Ranked(model, validated, rag, topK)
      ensures queryCache == old(queryCache)
    {
      var all := MergeUnique(validated, rag);
      all := SortBy(all, Downward);
      ranked := all[..Min(topK, |all|)];
      if |all| > topK {
        ranked := ApplyDiversityFilter(all, topK);
      } else {
        assert ranked == all;
      }
    }

    /** `retrieve`: the cache (unless `force_rag`), then a validated answer at or above the
        threshold (unless `force_rag`), then the merged and re-ranked results; the best
        result found is cached. */
    method Retrieve(query: string, topK: nat, forceRag: bool, search: Search, now: int)
      returns (results: seq<RetrievalResult>)
      requires Valid()
      modifies this
      ensures Valid()
      ensures var probe := CheckCache(old(queryCache), query, now, settings.cacheTtlHours);
        !forceRag && probe.Hit? ==>
          results == [probe.result] && queryCache == probe.cache &&
          embeddingCache == old(embeddingCache) && embedCalls == old(embedCalls)
      ensures var probe := CheckCache(old(queryCache), query, now, settings.cacheTtlHours);
        var cache := if forceRag then old(queryCache) else probe.cache;
        var qe := EmbeddingFor(model, query);
        var v := if forceRag then [] else search.validated(qe, query, Min(3, topK));
        (forceRag || probe.Miss?) ==>
          if |v| > 0 && v[0].confidence >= settings.confidenceThreshold then
            results == v[..Min(topK, |v|)] &&
            queryCache == StoreQuery(cache, query, v[0], now, settings.maxCacheSize)
          else
            results == Ranked(model, v, search.rag(qe, topK * 2), topK) &&
            queryCache == if |results| > 0 then StoreQuery(cache, query, results[0], now, settings.maxCacheSize) else cache
    {
      if !forceRag {
        var hit := CheckQueryCache(query, now);
        if hit.Some? {
          return [hit.value];
        }
      }
      var cache := queryCache;
      var queryEmbedding := GetEmbedding(query);
      var validated: seq<RetrievalResult> := [];
      if !forceRag {
        validated := search.validated(queryEmbedding, query, Min(3, topK));
        if |validated| > 0 && validated[0].confidence >= settings.confidenceThreshold {
          UpdateCache(query, validated[0], now);
          return validated[..Min(topK, |validated|)];
        }
      }
      var rag := search.rag(queryEmbedding, topK * 2);
      results := MergeAndRerank(validated, rag, topK);
      if |results| > 0 {
        UpdateCache(query, results[0], now);
      }
    }

    /** `add_validated_answer`: embeds query and answer, collects the chunks' source files
        (`chunkLookup` is what the store returns for the chunk ids, `None` when the lookup
        raises), builds the record for the validated-answers collection and, once the store
        has accepted it, drops the query's cache entry. */
    method AddValidatedAnswer(query: string, answer: string, threadId: string, sourceChunks: seq<string>,
                              feedback: Option<string>, chunkLookup: Option<seq<Option<Metadata>>>,
                              stamp: string, storeFails: bool)
      returns (record: ValidatedRecord)
      requires Valid()
      modifies this
      ensures Valid()
      ensures var files := if |sourceChunks| > 0 && chunkLookup.Some? then SourceFiles(chunkLookup.value) else [];
        var id := md5(query + answer + threadId);
        record == ValidatedRecord(id, answer,
                                  ValidatedMetadata(id, query, answer, threadId, files, sourceChunks, feedback, stamp),
                                  Combine(EmbeddingFor(model, query), EmbeddingFor(model, answer)))
      ensures queryCache == if storeFails then old(queryCache) else Delete(old(queryCache), QueryKey(query))
    {
      var queryEmbedding := GetEmbedding(query);
      var answerEmbedding := GetEmbedding(answer);
      var combined := Combine(queryEmbedding, answerEmbedding);
      var files: seq<Value> := [];
      if |sourceChunks| > 0 && chunkLookup.Some? {
        files := CollectSourceFiles(chunkLookup.value);
      }
      var id := md5(query + answer + threadId);
      record := ValidatedRecord(id, answer,
                                ValidatedMetadata(id, query, answer, threadId, files, sourceChunks, feedback, stamp),
                                combined);
      if !storeFails {
        InvalidateQuery(query);
      }
    }

    /** The last step of `add_validated_answer`: drop the query's cache entry, if any. */
    method InvalidateQuery(query: string)
      requires Valid()
      modifies this
      ensures Valid()
      ensures queryCache == Delete(old(queryCache), QueryKey(query))
      ensures embeddingCache == old(embeddingCache) && embedCalls == old(embedCalls)
    {
      DeleteKeeps(queryCache, QueryKey(query));
      queryCache := Delete(queryCache, QueryKey(query));
    }
  }
}
