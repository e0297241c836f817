/** The FAISS-backed chunk index: a flat L2 index of embedding vectors and,
    position for position, the metadata dictionary of the chunk each vector
    came from. The connector keeps the two the same length through loading,
    re-initialisation and batch additions, and turns the (distance, label)
    pairs of a nearest-neighbour search into metadata copies carrying their
    distance. The embedding model and the nearest-neighbour search are
    collaborators given as functions; files on disk are an input. */
module FaissIndex {
  import opened Common

  type Vector = seq<real>

  /** A label returned by the nearest-neighbour search: a vector position,
      or -1 where fewer than the requested number of neighbours exist. */
  type Label = i: int | i >= -1

  /** `IndexFlatL2`: its dimension and its vectors in insertion order
      (`ntotal` is their number). */
  datatype FlatIndex = FlatIndex(dimension: int, vectors: seq<Vector>) {
    function NTotal(): nat {
      |vectors|
    }
  }

  /** What is on disk when the connector starts: one of the two files is
      missing, reading or decoding them fails, or an index with its metadata
      list. A stored index holds vectors of its own dimension. */
  datatype StoredIndex = Missing | Unreadable | Stored(index: FlatIndex, metadata: seq<Props>)

  /** A search hit: a copy of the stored metadata and the distance that the
      source stores in it under `score`. */
  datatype SearchHit = SearchHit(metadata: Props, score: real)

  /** The embedding of a chunk's `chunk_text`; a failed embedding reads as
      the (falsy) empty vector. */
  function EmbeddingOf(chunk: Props, embed: Value -> Option<Vector>): (v: Vector)
    requires "chunk_text" in chunk
    ensures embed(chunk["chunk_text"]).None? ==> v == []
  {
    embed(chunk["chunk_text"]).GetOr([])
  }

  /** `emb and len(emb) == embedding_dimension` */
  predicate Acceptable(chunk: Props, embed: Value -> Option<Vector>, dimension: int)
    requires "chunk_text" in chunk
  {
    EmbeddingOf(chunk, embed) != [] && |EmbeddingOf(chunk, embed)| == dimension
  }

  predicate HaveText(chunks: seq<Props>) {
    forall i :: 0 <= i < |chunks| ==> "chunk_text" in chunks[i]
  }

  /** The chunks of a batch whose embedding is accepted, in batch order. */
  function AcceptedChunks(chunks: seq<Props>, embed: Value -> Option<Vector>, dimension: int): (r: seq<Props>)
    requires HaveText(chunks)
    ensures |r| <= |chunks|
    ensures HaveText(r)
    ensures forall i :: 0 <= i < |r| ==> r[i] in chunks && Acceptable(r[i], embed, dimension)
    decreases |chunks|
  {
    if chunks == [] then []
    else
      var init := chunks[..|chunks| - 1];
      var last := chunks[|chunks| - 1];
      var r := AcceptedChunks(init, embed, dimension);
      if Acceptable(last, embed, dimension) then r + [last] else r
  }

  /** Every chunk with an accepted embedding is kept. */
  lemma {:induction false} AcceptedChunksComplete(chunks: seq<Props>, embed: Value -> Option<Vector>, dimension: int, i: nat)
    requires HaveText(chunks) && i < |chunks| && Acceptable(chunks[i], embed, dimension)
    ensures chunks[i] in AcceptedChunks(chunks, embed, dimension)
    decreases |chunks|
  {
    if i < |chunks| - 1 {
      AcceptedChunksComplete(chunks[..|chunks| - 1], embed, dimension, i);
    }
  }

  /** The embeddings of chunks, position for position. */
  function EmbeddingsOf(chunks: seq<Props>, embed: Value -> Option<Vector>): (r: seq<Vector>)
    requires HaveText(chunks)
    ensures |r| == |chunks| && forall i :: 0 <= i < |chunks| ==> r[i] == EmbeddingOf(chunks[i], embed)
  {
    seq(|chunks|, i requires 0 <= i < |chunks| => EmbeddingOf(chunks[i], embed))
  }

  /** The hits for the (distance, label) pairs of a search: labels that are
      -1 or past the end of the metadata are skipped; every other label
      gives its metadata with the distance. */
  function HitsOf(pairs: seq<(real, Label)>, metadata: seq<Props>): (r: seq<SearchHit>)
    ensures |r| <= |pairs|
    decreases |pairs|
  {
    if pairs == [] then []
    else
      var init := HitsOf(pairs[..|pairs| - 1], metadata);
      var (distance, position) := pairs[|pairs| - 1];
      if position != -1 && position < |metadata| then init + [SearchHit(metadata[position], distance)] else init
  }

  /** Each hit is the stored metadata of a valid label, with that label's
      distance. */
  lemma {:induction false} HitsOfSound(pairs: seq<(real, Label)>, metadata: seq<Props>, h: SearchHit)
    requires h in HitsOf(pairs, metadata)
    ensures exists k ::
      0 <= k < |pairs| && 0 <= pairs[k].1 < |metadata| && h == SearchHit(metadata[pairs[k].1], pairs[k].0)
    decreases |pairs|
  {
    var init := pairs[..|pairs| - 1];
    if h in HitsOf(init, metadata) {
      HitsOfSound(init, metadata, h);
      var k :| 0 <= k < |init| && 0 <= init[k].1 < |metadata| && h == SearchHit(metadata[init[k].1], init[k].0);
      assert pairs[k] == init[k];
    } else {
      assert 0 <= pairs[|pairs| - 1].1 < |metadata|;
    }
  }

  /** Each valid label gives a hit. */
  lemma {:induction false} HitsOfComplete(pairs: seq<(real, Label)>, metadata: seq<Props>, k: nat)
    requires k < |pairs| && pairs[k].1 != -1 && pairs[k].1 < |metadata|
    ensures SearchHit(metadata[pairs[k].1], pairs[k].0) in HitsOf(pairs, metadata)
    decreases |pairs|
  {
    if k < |pairs| - 1 {
      HitsOfComplete(pairs[..|pairs| - 1], metadata, k);
    }
  }

  function Min(a: int, b: int): int {
    if a <= b then a else b
  }

  /** `FaissConnector`. */
  class FaissConnector {
    const indexFilePath: string
    const metadataFilePath: string
    const embeddingDimension: int
    var index: Option<FlatIndex>
    var metadata: seq<Props>

    /** The index has the configured dimension, holds vectors of that
        dimension only, and has exactly one metadata entry per vector. */
    predicate Valid()
      reads this
    {
      index.Some? ==>
        && index.value.dimension == embeddingDimension
        && index.value.NTotal() == |metadata|
        && forall i :: 0 <= i < |index.value.vectors| ==> |index.value.vectors[i]| == embeddingDimension
    }

    /** `_initialize`: a new empty index of the configured dimension and no
        metadata. */
    method Initialize()
      modifies this
      ensures index == Some(FlatIndex(embeddingDimension, [])) && metadata == []
      ensures Valid()
    {
      index := Some(FlatIndex(embeddingDimension, []));
      metadata := [];
    }

    /** `__init__` with `_load_or_initialize`: a stored index is kept only
        when its dimension is the configured one and it has one metadata
        entry per vector; in every other case the index starts empty. */
    constructor(indexFilePath: string, metadataFilePath: string, embeddingDimension: int, stored: StoredIndex)
      requires stored.Stored? ==>
        forall i :: 0 <= i < |stored.index.vectors| ==> |stored.index.vectors[i]| == stored.index.dimension
      ensures this.indexFilePath == indexFilePath && this.metadataFilePath == metadataFilePath
      ensures this.embeddingDimension == embeddingDimension
      ensures Valid() && index.Some?
      ensures stored.Stored? && stored.index.dimension == embeddingDimension
              && stored.index.NTotal() == |stored.metadata| ==>
        index == Some(stored.index) && metadata == stored.metadata
      ensures !(stored.Stored? && stored.index.dimension == embeddingDimension
                && stored.index.NTotal() == |stored.metadata|) ==>
        index == Some(FlatIndex(embeddingDimension, [])) && metadata == []
    {
      this.indexFilePath := indexFilePath;
      this.metadataFilePath := metadataFilePath;
      this.embeddingDimension := embeddingDimension;
      index := None;
      metadata := [];
      new;
      match stored {
        case Stored(loaded, loadedMetadata) =>
          index := Some(loaded);
          metadata := loadedMetadata;
          if loaded.dimension != embeddingDimension {
            Initialize();
          } else if loaded.NTotal() != |loadedMetadata| {
            Initialize();
          }
        case _ =>
          Initialize();
      }
    }

    /** `add_chunk_embeddings_batch`: every chunk text is embedded; the
        chunks whose embedding is non-empty and of the configured dimension
        are appended, vectors to the index and metadata to the list, in batch
        order. Without an index nothing changes. `added` is the number of
        vectors appended. */
    method AddChunkEmbeddingsBatch(chunks: seq<Props>, embed: Value -> Option<Vector>) returns (added: nat)
      requires Valid() && HaveText(chunks)
      modifies this
      ensures Valid()
      ensures index.Some? <==> old(index).Some?
      ensures old(index).None? ==> metadata == old(metadata) && added == 0
      ensures old(index).Some? ==>
        var accepted := AcceptedChunks(chunks, embed, embeddingDimension);
        && metadata == old(metadata) + accepted
        && index.value.dimension == old(index).value.dimension
        && index.value.vectors == old(index).value.vectors + EmbeddingsOf(accepted, embed)
        && added == |accepted|
    {
      if index.None? {
        return 0;
      }
      var texts := seq(|chunks|, i requires 0 <= i < |chunks| => chunks[i]["chunk_text"]);
      if texts == [] {
        return 0;
      }
      var embeddings: seq<Option<Vector>> := [];
      for i := 0 to |texts|
        invariant |embeddings| == i && forall k :: 0 <= k < i ==> embeddings[k] == embed(texts[k])
      {
        embeddings := embeddings + [embed(texts[i])];
      }
      var validEmbeddings: seq<Vector> := [];
      var validMetadata: seq<Props> := [];
      for i := 0 to |embeddings|
        invariant HaveText(chunks[..i])
        invariant validMetadata == AcceptedChunks(chunks[..i], embed, embeddingDimension)
        invariant validEmbeddings == EmbeddingsOf(validMetadata, embed)
      {
        assert chunks[..i + 1][..i] == chunks[..i];
        var emb := embeddings[i].GetOr([]);
        assert emb == EmbeddingOf(chunks[i], embed);
        if emb != [] && |emb| == embeddingDimension {
          validEmbeddings := validEmbeddings + [emb];
          validMetadata := validMetadata + [chunks[i]];
        }
      }
      assert chunks[..|embeddings|] == chunks;
      if validEmbeddings == [] {
        return 0;
      }
      index := Some(index.value.(vectors := index.value.vectors + validEmbeddings));
      metadata := metadata + validMetadata;
      added := |validMetadata|;
    }

    /** `search_similar_chunks`: nothing for an empty or missing index, a
        zero neighbour count, a failed or wrongly sized query
        embedding or a failed search; otherwise the hits of the labels the
        search returns for `min(top_k, ntotal)` neighbours. The stored state
        is not changed. */
    method SearchSimilarChunks(queryText: string, topK: int, embed: Value -> Option<Vector>,
                               annSearch: (FlatIndex, Vector, int) -> Option<seq<(real, Label)>>)
      returns (results: seq<SearchHit>)
      requires Valid()
      ensures index.None? || index.value.NTotal() == 0 ==> results == []
      ensures index.Some? && index.value.NTotal() > 0 ==>
        var k := Min(topK, index.value.NTotal());
        var query := embed(VStr(queryText)).GetOr([]);
        results == if k == 0 || query == [] || |query| != embeddingDimension then []
                   else match annSearch(index.value, query, k)
                        case None => []
                        case Some(pairs) => HitsOf(pairs, metadata)
      ensures forall h :: h in results ==> h.metadata in metadata
      ensures (forall ix, q, k :: annSearch(ix, q, k).Some? ==> |annSearch(ix, q, k).value| <= k) ==>
        |results| <= Min(topK, if index.Some? then index.value.NTotal() else 0) || results == []
    {
      if index.None? || index.value.NTotal() == 0 {
        return [];
      }
      var actualTopK := Min(topK, index.value.NTotal());
      if actualTopK == 0 {
        return [];
      }
      var queryEmbedding := embed(VStr(queryText)).GetOr([]);
      if queryEmbedding == [] || |queryEmbedding| != embeddingDimension {
        return [];
      }
      var searched := annSearch(index.value, queryEmbedding, actualTopK);
      if searched.None? {
        return [];
      }
      var pairs := searched.value;
      results := [];
      for i := 0 to |pairs|
        invariant results == HitsOf(pairs[..i], metadata)
      {
        assert pairs[..i + 1][..i] == pairs[..i];
        var (distance, position) := pairs[i];
        if position != -1 && position < |metadata| {
          results := results + [SearchHit(metadata[position], distance)];
        }
      }
      assert pairs[..|pairs|] == pairs;
      forall h | h in results ensures h.metadata in metadata {
        HitsOfSound(pairs, metadata, h);
      }
    }

    /** `get_index_size`: the number of vectors, 0 without an index; for a
        valid connector the number of metadata entries. */
    function GetIndexSize(): (n: nat)
      reads this
      ensures index.None? ==> n == 0
      ensures Valid() ==> n == |metadata| || index.None?
      ensures index.Some? ==> n == |index.value.vectors|
    {
      if index.Some? then index.value.NTotal() else 0
    }
  }
}
