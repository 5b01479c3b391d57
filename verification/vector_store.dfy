/** The ChromaDB wrapper of backend/app/rag/vector_store.py. The persistent client is
    modelled by the collections it holds, by name; the store reaches the two collections
    it uses, "document_chunks" and "validated_answers", through handles it looks up (or
    creates) on first use and then keeps. Nearest-neighbour ranking belongs to ChromaDB
    and is a parameter of the searches. */
module VectorStore {
  import opened Wrappers
  import opened Values

  type Embedding = seq<real>

  /** One stored item: its id, document, metadata and embedding. */
  datatype Record = Record(id: string, document: string, metadata: Metadata, embedding: Embedding)

  /** A collection: its distance space and its items in insertion order. */
  datatype Collection = Collection(space: string, records: seq<Record>)

  /** `chunk.to_dict()`: the fields add_document_chunks reads from each chunk. */
  datatype ChunkData = ChunkData(id: string, content: string, metadata: Metadata)

  /** One answer of a query, the four parallel lists of ChromaDB's response read at one position. */
  datatype Hit = Hit(id: string, document: string, metadata: Metadata, distance: real)

  /** ChromaDB's `query` on a collection's items: the nearest items to the embedding, at most `n`. */
  type Nearest = (seq<Record>, Embedding, nat) -> seq<Hit>

  /** A cached collection handle. */
  datatype Handle = Handle(name: string)

  const DocumentChunksName: string := "document_chunks"
  const ValidatedAnswersName: string := "validated_answers"
  const CosineSpace: string := "cosine"
  const BatchSize: nat := 100

  /** A collection is fetched if it exists and created, empty and with cosine distance, if not. */
  function Opened(c: map<string, Collection>, name: string): (r: map<string, Collection>)
    ensures name in r && r.Keys == c.Keys + {name}
    ensures name in c ==> r == c
    ensures name !in c ==> r[name] == Collection(CosineSpace, [])
  {
    if name in c then c else c[name := Collection(CosineSpace, [])]
  }

  /** `collection.add(...)`: the records are appended to the named collection. */
  function Appended(c: map<string, Collection>, name: string, rs: seq<Record>): (r: map<string, Collection>)
    requires name in c
    ensures r.Keys == c.Keys && r[name].records == c[name].records + rs && r[name].space == c[name].space
    ensures forall n :: n in c && n != name ==> r[n] == c[n]
  {
    c[name := c[name].(records := c[name].records + rs)]
  }

  lemma AppendedNothing(c: map<string, Collection>, name: string)
    requires name in c
    ensures Appended(c, name, []) == c
  {
    assert c[name].records + [] == c[name].records;
  }

  /** The four parallel lists handed to `add`, read position by position. */
  function Zip(ids: seq<string>, documents: seq<string>, metadatas: seq<Metadata>, embeddings: seq<Embedding>)
    : (rs: seq<Record>)
    requires |ids| == |documents| == |metadatas| == |embeddings|
    ensures |rs| == |ids|
    ensures forall i :: 0 <= i < |rs| ==> rs[i] == Record(ids[i], documents[i], metadatas[i], embeddings[i])
  {
    seq(|ids|, i requires 0 <= i < |ids| => Record(ids[i], documents[i], metadatas[i], embeddings[i]))
  }

  /** The items add_document_chunks stores: chunk `i` with embedding `i`. */
  function ChunkRecords(chunks: seq<ChunkData>, embeddings: seq<Embedding>): (rs: seq<Record>)
    requires |chunks| == |embeddings|
    ensures |rs| == |chunks|
    ensures forall i :: 0 <= i < |rs| ==>
      rs[i] == Record(chunks[i].id, chunks[i].content, chunks[i].metadata, embeddings[i])
  {
    seq(|chunks|, i requires 0 <= i < |chunks| => Record(chunks[i].id, chunks[i].content, chunks[i].metadata, embeddings[i]))
  }

  lemma AppendedTwice(c: map<string, Collection>, name: string, a: seq<Record>, b: seq<Record>)
    requires name in c
    ensures Appended(Appended(c, name, a), name, b) == Appended(c, name, a + b)
  {
    assert c[name].records + a + b == c[name].records + (a + b);
  }

  // ---------------------------------------------------------------------------
  // Batches

  /** `xs[i:i + 100]` for `i` in `range(from, len(xs), 100)`. */
  function Batches<T>(xs: seq<T>, from: nat): seq<seq<T>>
    decreases |xs| - from
  {
    if from >= |xs| then [] else [xs[from..Min(from + BatchSize, |xs|)]] + Batches(xs, from + BatchSize)
  }

  function Flatten<T>(groups: seq<seq<T>>): seq<T> {
    if |groups| == 0 then [] else Flatten(groups[..|groups| - 1]) + groups[|groups| - 1]
  }

  lemma FlattenSnoc<T>(groups: seq<seq<T>>, g: seq<T>)
    ensures Flatten(groups + [g]) == Flatten(groups) + g
  {
    assert (groups + [g])[..|groups|] == groups;
  }

  lemma {:induction false} FlattenCons<T>(g: seq<T>, groups: seq<seq<T>>)
    ensures Flatten([g] + groups) == g + Flatten(groups)
    decreases |groups|
  {
    if |groups| == 0 {
      assert [g] + groups == [g];
      assert [g][..0] == [];
    } else {
      var n := |groups| - 1;
      assert ([g] + groups)[..n + 1] == [g] + groups[..n];
      FlattenCons(g, groups[..n]);
    }
  }

  /** The batches, put back together, are the list from `from` on, in order. */
  lemma {:induction false} BatchesCover<T>(xs: seq<T>, from: nat)
    ensures Flatten(Batches(xs, from)) == if from >= |xs| then [] else xs[from..]
    decreases |xs| - from
  {
    if from < |xs| {
      var end := Min(from + BatchSize, |xs|);
      BatchesCover(xs, from + BatchSize);
      FlattenCons(xs[from..end], Batches(xs, from + BatchSize));
      assert xs[from..] == xs[from..end] + (if from + BatchSize >= |xs| then [] else xs[from + BatchSize..]);
    }
  }

  /** Every batch holds between 1 and 100 items, and batch `k` starts at `from + 100 * k`. */
  lemma BatchesBounded<T>(xs: seq<T>, from: nat)
    ensures forall k :: 0 <= k < |Batches(xs, from)| ==>
      && 0 < |Batches(xs, from)[k]| <= BatchSize
      && from + BatchSize * k < |xs|
      && Batches(xs, from)[k] == xs[from + BatchSize * k..Min(from + BatchSize * k + BatchSize, |xs|)]
  {
    forall k | 0 <= k < |Batches(xs, from)|
      ensures && 0 < |Batches(xs, from)[k]| <= BatchSize
              && from + BatchSize * k < |xs|
              && Batches(xs, from)[k] == xs[from + BatchSize * k..Min(from + BatchSize * k + BatchSize, |xs|)]
    {
      BatchAt(xs, from, k);
    }
  }

  /** Batch `k` is the slice of at most 100 items starting at `from + 100 * k`. */
  lemma {:induction false} BatchAt<T>(xs: seq<T>, from: nat, k: nat)
    requires k < |Batches(xs, from)|
    ensures from + BatchSize * k < |xs|
    ensures Batches(xs, from)[k] == xs[from + BatchSize * k..Min(from + BatchSize * k + BatchSize, |xs|)]
    decreases k
  {
    if k > 0 {
      BatchAt(xs, from + BatchSize, k - 1);
      assert from + BatchSize * k == from + BatchSize + BatchSize * (k - 1);
    }
  }

  /** Lists of the same length are cut at the same places: batch `k` of the stored items
      is batch `k` of the ids, documents, metadatas and embeddings read together. */
  lemma {:induction false} BatchesAligned(chunks: seq<ChunkData>, embeddings: seq<Embedding>, from: nat)
    requires |chunks| == |embeddings|
    ensures var rb := Batches(ChunkRecords(chunks, embeddings), from);
      && |rb| == |Batches(chunks, from)| == |Batches(embeddings, from)|
      && forall k :: 0 <= k < |rb| ==>
           && |Batches(chunks, from)[k]| == |Batches(embeddings, from)[k]|
           && rb[k] == ChunkRecords(Batches(chunks, from)[k], Batches(embeddings, from)[k])
    decreases |chunks| - from
  {
    if from < |chunks| {
      BatchesAligned(chunks, embeddings, from + BatchSize);
      var end := Min(from + BatchSize, |chunks|);
      var records := ChunkRecords(chunks, embeddings);
      assert records[from..end] == ChunkRecords(chunks[from..end], embeddings[from..end]);
    }
  }

  /** Slicing the four lists alike slices the items they make. */
  lemma ZipSlice(ids: seq<string>, documents: seq<string>, metadatas: seq<Metadata>, embeddings: seq<Embedding>,
                 i: nat, j: nat)
    requires |ids| == |documents| == |metadatas| == |embeddings| && i <= j <= |ids|
    ensures Zip(ids[i..j], documents[i..j], metadatas[i..j], embeddings[i..j]) == Zip(ids, documents, metadatas, embeddings)[i..j]
  {
  }

  /** One batch of the loop: it is the next slice of the items, the slices sent so far
      grow by it, and the collection grows by it. */
  lemma BatchStep(ids: seq<string>, documents: seq<string>, metadatas: seq<Metadata>, embeddings: seq<Embedding>,
                  c0: map<string, Collection>, sent: seq<seq<Record>>, i: nat, batch: seq<Record>)
    requires |ids| == |documents| == |metadatas| == |embeddings| && i < |ids|
    requires DocumentChunksName in c0
    requires Batches(Zip(ids, documents, metadatas, embeddings), 0) == sent + Batches(Zip(ids, documents, metadatas, embeddings), i)
    requires batch == Zip(ids[i..Min(i + BatchSize, |ids|)], documents[i..Min(i + BatchSize, |ids|)],
                          metadatas[i..Min(i + BatchSize, |ids|)], embeddings[i..Min(i + BatchSize, |ids|)])
    ensures Batches(Zip(ids, documents, metadatas, embeddings), 0) == (sent + [batch]) + Batches(Zip(ids, documents, metadatas, embeddings), i + BatchSize)
    ensures Appended(Appended(c0, DocumentChunksName, Flatten(sent)), DocumentChunksName, batch)
         == Appended(c0, DocumentChunksName, Flatten(sent + [batch]))
  {
    var records := Zip(ids, documents, metadatas, embeddings);
    ZipSlice(ids, documents, metadatas, embeddings, i, Min(i + BatchSize, |ids|));
    assert Batches(records, i) == [batch] + Batches(records, i + BatchSize);
    FlattenSnoc(sent, batch);
    AppendedTwice(c0, DocumentChunksName, Flatten(sent), batch);
  }

  /** When the loop stops, every batch has been sent and together they are all the items. */
  lemma BatchesDone(records: seq<Record>, sent: seq<seq<Record>>, i: nat)
    requires i >= |records|
    requires Batches(records, 0) == sent + Batches(records, i)
    ensures sent == Batches(records, 0)
    ensures |records| > 0 ==> Flatten(sent) == records
  {
    assert sent + [] == sent;
    BatchesCover(records, 0);
    assert records[0..] == records;
  }

  // ---------------------------------------------------------------------------
  // The store

  class Store {
    /** The client's collections, by name. */
    var collections: map<string, Collection>
    /** `_document_chunks` and `_validated_answers`: `None` until first used. */
    var chunksHandle: Option<Handle>
    var answersHandle: Option<Handle>
    /** The batches handed to `add` on the document chunks collection, in order. */
    ghost var chunkAdds: seq<seq<Record>>

    /** A kept handle names its own collection, and that collection exists. */
    predicate Valid()
      reads this
    {
      && (chunksHandle.Some? ==> chunksHandle.value == Handle(DocumentChunksName) && DocumentChunksName in collections)
      && (answersHandle.Some? ==> answersHandle.value == Handle(ValidatedAnswersName) && ValidatedAnswersName in collections)
    }

    /** `VectorStore(persist_directory)`: a client on the directory's existing collections;
        no handle yet. */
    constructor (existing: map<string, Collection>)
      ensures Valid()
      ensures collections == existing && chunksHandle.None? && answersHandle.None? && chunkAdds == []
    {
      collections := existing;
      chunksHandle := None;
      answersHandle := None;
      chunkAdds := [];
    }

    /** The `document_chunks` property: the first use fetches or creates the collection,
        later uses return the kept handle and touch nothing. */
    method DocumentChunks() returns (h: Handle)
      requires Valid()
      modifies this
      ensures Valid() && h == Handle(DocumentChunksName) && chunksHandle == Some(h)
      ensures old(chunksHandle).Some? ==> collections == old(collections)
      ensures collections == Opened(old(collections), DocumentChunksName)
      ensures answersHandle == old(answersHandle) && chunkAdds == old(chunkAdds)
    {
      if chunksHandle.None? {
        collections := Opened(collections, DocumentChunksName);
        chunksHandle := Some(Handle(DocumentChunksName));
      }
      h := chunksHandle.value;
    }

    /** The `validated_answers` property, likewise. */
    method ValidatedAnswers() returns (h: Handle)
      requires Valid()
      modifies this
      ensures Valid() && h == Handle(ValidatedAnswersName) && answersHandle == Some(h)
      ensures old(answersHandle).Some? ==> collections == old(collections)
      ensures collections == Opened(old(collections), ValidatedAnswersName)
      ensures chunksHandle == old(chunksHandle) && chunkAdds == old(chunkAdds)
    {
      if answersHandle.None? {
        collections := Opened(collections, ValidatedAnswersName);
        answersHandle := Some(Handle(ValidatedAnswersName));
      }
      h := answersHandle.value;
    }

    /** add_document_chunks: a count mismatch raises before anything is stored; otherwise
        the items go to the collection in batches of 100, each batch reading the four
        lists at the same positions. No chunk: the collection is not even opened. */
    method AddDocumentChunks(chunks: seq<ChunkData>, embeddings: seq<Embedding>) returns (r: Result<()>)
      requires Valid()
      modifies this
      ensures Valid()
      ensures |chunks| != |embeddings| ==>
        r == Failure("Number of chunks must match number of embeddings") && unchanged(this)
      ensures |chunks| == |embeddings| ==> r.Success?
      ensures |chunks| == |embeddings| && |chunks| == 0 ==>
        collections == old(collections) && chunksHandle == old(chunksHandle) && chunkAdds == old(chunkAdds)
      ensures answersHandle == old(answersHandle)
      ensures |chunks| == |embeddings| && |chunks| > 0 ==>
        && collections == Appended(Opened(old(collections), DocumentChunksName), DocumentChunksName, ChunkRecords(chunks, embeddings))
        && chunkAdds == old(chunkAdds) + Batches(ChunkRecords(chunks, embeddings), 0)
        && chunksHandle == Some(Handle(DocumentChunksName))
    {
      if |chunks| != |embeddings| {
        return Failure("Number of chunks must match number of embeddings");
      }
      var ids := seq(|chunks|, k requires 0 <= k < |chunks| => chunks[k].id);
      var documents := seq(|chunks|, k requires 0 <= k < |chunks| => chunks[k].content);
      var metadatas := seq(|chunks|, k requires 0 <= k < |chunks| => chunks[k].metadata);
      assert Zip(ids, documents, metadatas, embeddings) == ChunkRecords(chunks, embeddings);
      AddInBatches(ids, documents, metadatas, embeddings);
      return Success(());
    }

    /** The batch loop of add_document_chunks. */
    method AddInBatches(ids: seq<string>, documents: seq<string>, metadatas: seq<Metadata>, embeddings: seq<Embedding>)
      requires Valid()
      requires |ids| == |documents| == |metadatas| == |embeddings|
      modifies this
      ensures Valid()
      ensures |ids| == 0 ==> collections == old(collections) && chunksHandle == old(chunksHandle) && chunkAdds == old(chunkAdds)
      ensures answersHandle == old(answersHandle)
      ensures |ids| > 0 ==>
        && collections == Appended(Opened(old(collections), DocumentChunksName), DocumentChunksName, Zip(ids, documents, metadatas, embeddings))
        && chunkAdds == old(chunkAdds) + Batches(Zip(ids, documents, metadatas, embeddings), 0)
        && chunksHandle == Some(Handle(DocumentChunksName))
    {
      if |ids| == 0 {
        return;
      }
      ghost var records := Zip(ids, documents, metadatas, embeddings);
      ghost var sent: seq<seq<Record>> := [];
      var h := DocumentChunks();
      ghost var c0 := collections;
      AppendedNothing(c0, DocumentChunksName);
      assert Flatten(sent) == [];
      var i := 0;
      while i < |ids|
        invariant Valid() && answersHandle == old(answersHandle) && chunksHandle == Some(Handle(DocumentChunksName))
        invariant collections == Appended(c0, DocumentChunksName, Flatten(sent))
        invariant Batches(records, 0) == sent + Batches(records, i)
        invariant chunkAdds == old(chunkAdds) + sent
        decreases |ids| - i
      {
        var end := Min(i + BatchSize, |ids|);
        var batch := Zip(ids[i..end], documents[i..end], metadatas[i..end], embeddings[i..end]);
        BatchStep(ids, documents, metadatas, embeddings, c0, sent, i, batch);
        AddChunkBatch(batch);
        sent := sent + [batch];
        i := i + BatchSize;
      }
      BatchesDone(records, sent, i);
    }

    /** One `self.document_chunks.add(...)` call: the kept handle is used and the batch is
        appended to the collection it names. */
    method AddChunkBatch(batch: seq<Record>)
      requires Valid() && chunksHandle == Some(Handle(DocumentChunksName))
      modifies this
      ensures Valid() && chunksHandle == old(chunksHandle) && answersHandle == old(answersHandle)
      ensures collections == Appended(old(collections), DocumentChunksName, batch)
      ensures chunkAdds == old(chunkAdds) + [batch]
    {
      var h := DocumentChunks();
      collections := Appended(collections, h.name, batch);
      chunkAdds := chunkAdds + [batch];
    }

    /** add_validated_answer: one item appended to the validated answers collection. */
    method AddValidatedAnswer(answerId: string, content: string, metadata: Metadata, embedding: Embedding)
      requires Valid()
      modifies this
      ensures Valid()
      ensures collections == Appended(Opened(old(collections), ValidatedAnswersName), ValidatedAnswersName,
                                      [Record(answerId, content, metadata, embedding)])
      ensures answersHandle == Some(Handle(ValidatedAnswersName))
      ensures chunksHandle == old(chunksHandle) && chunkAdds == old(chunkAdds)
    {
      var h := ValidatedAnswers();
      var added := Zip([answerId], [content], [metadata], [embedding]);
      assert added == [Record(answerId, content, metadata, embedding)];
      collections := Appended(collections, h.name, added);
    }

    /** search_document_chunks: the nearest stored chunks, at most `topK`. */
    method SearchDocumentChunks(nearest: Nearest, queryEmbedding: Embedding, topK: nat) returns (hits: seq<Hit>)
      requires Valid()
      modifies this
      ensures Valid() && chunksHandle == Some(Handle(DocumentChunksName))
      ensures collections == Opened(old(collections), DocumentChunksName)
      ensures hits == nearest(collections[DocumentChunksName].records, queryEmbedding, topK)
      ensures answersHandle == old(answersHandle) && chunkAdds == old(chunkAdds)
    {
      var h := DocumentChunks();
      hits := nearest(collections[h.name].records, queryEmbedding, topK);
    }

    /** search_validated_answers: the nearest validated answers, at most `topK`. */
    method SearchValidatedAnswers(nearest: Nearest, queryEmbedding: Embedding, topK: nat) returns (hits: seq<Hit>)
      requires Valid()
      modifies this
      ensures Valid() && answersHandle == Some(Handle(ValidatedAnswersName))
      ensures collections == Opened(old(collections), ValidatedAnswersName)
      ensures hits == nearest(collections[ValidatedAnswersName].records, queryEmbedding, topK)
      ensures chunksHandle == old(chunksHandle) && chunkAdds == old(chunkAdds)
    {
      var h := ValidatedAnswers();
      hits := nearest(collections[h.name].records, queryEmbedding, topK);
    }

    /** get_collection_stats: the number of items in each collection (opening both). */
    method CollectionStats() returns (chunkCount: nat, answerCount: nat)
      requires Valid()
      modifies this
      ensures Valid() && chunksHandle.Some? && answersHandle.Some?
      ensures collections == Opened(Opened(old(collections), DocumentChunksName), ValidatedAnswersName)
      ensures chunkCount == |collections[DocumentChunksName].records|
      ensures answerCount == |collections[ValidatedAnswersName].records|
      ensures chunkAdds == old(chunkAdds)
    {
      var c := DocumentChunks();
      chunkCount := |collections[c.name].records|;
      var a := ValidatedAnswers();
      answerCount := |collections[a.name].records|;
    }

    /** delete_collection: a collection that exists is deleted, and the handle of that
        name alone is dropped; deleting a missing collection fails inside the client,
        the error is swallowed and nothing changes. */
    method DeleteCollection(name: string)
      requires Valid()
      modifies this
      ensures Valid()
      ensures name in old(collections) ==> collections == old(collections) - {name}
      ensures name in old(collections) ==>
        && chunksHandle == (if name == DocumentChunksName then None else old(chunksHandle))
        && answersHandle == (if name == ValidatedAnswersName then None else old(answersHandle))
      ensures name !in old(collections) ==>
        collections == old(collections) && chunksHandle == old(chunksHandle) && answersHandle == old(answersHandle)
      ensures chunkAdds == old(chunkAdds)
    {
      if name !in collections {
        return;
      }
      collections := collections - {name};
      if name == DocumentChunksName {
        chunksHandle := None;
      } else if name == ValidatedAnswersName {
        answersHandle := None;
      }
    }

    /** reset_collections: both collections are gone afterwards, with their handles;
        every other collection stays. */
    method ResetCollections()
      requires Valid()
      modifies this
      ensures Valid()
      ensures collections == old(collections) - {DocumentChunksName, ValidatedAnswersName}
      ensures chunksHandle.None? && answersHandle.None?
      ensures chunkAdds == old(chunkAdds)
    {
      DeleteCollection(DocumentChunksName);
      DeleteCollection(ValidatedAnswersName);
    }
  }
}
