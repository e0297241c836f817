/** The Weaviate-backed chunk store: the objects a batch upload sends, the
    request a similarity search makes (with its optional restriction to some
    source documents), the reshaping of the search answer into chunk rows
    with defaults, and the count a deletion by filename reports. The Weaviate
    service is a collaborator given as a function. */
module WeaviateStore {
  import opened Common

  /** A `where` filter on one property path. */
  datatype WhereFilter =
    | ContainsAny(path: string, valueStrings: seq<string>)
    | Equal(path: string, valueString: string)

  /** The `where` filter of a search: none when no filenames are given or the
      list is empty, otherwise "source_document contains any of them". */
  function SearchWhereFilter(filterFilenames: Option<seq<string>>): (r: Option<WhereFilter>)
    ensures r.None? <==> filterFilenames.None? || filterFilenames.value == []
    ensures r.Some? ==> r.value == ContainsAny("source_document", filterFilenames.value)
  {
    match filterFilenames
    case None => None
    case Some(names) => if names == [] then None else Some(ContainsAny("source_document", names))
  }

  /** The properties sent for one chunk: exactly chunk text, source document
      and entity ids, the last defaulting to the empty list. */
  function ChunkObject(chunk: Props): (o: Props)
    ensures o.Keys == {"chunk_text", "source_document", "entity_ids"}
    ensures o["chunk_text"] == Get(chunk, "chunk_text") && o["source_document"] == Get(chunk, "source_document")
    ensures "entity_ids" !in chunk ==> o["entity_ids"] == VList([])
    ensures "entity_ids" in chunk ==> o["entity_ids"] == chunk["entity_ids"]
  {
    map["chunk_text" := Get(chunk, "chunk_text"),
        "source_document" := Get(chunk, "source_document"),
        "entity_ids" := GetOr(chunk, "entity_ids", VList([]))]
  }

  /** `add_chunk_batch`: the data objects handed to the batch, one per chunk
      and in order. */
  method AddChunkBatch(chunks: seq<Props>) returns (objects: seq<Props>)
    ensures |objects| == |chunks|
    ensures forall i :: 0 <= i < |chunks| ==> objects[i] == ChunkObject(chunks[i])
    ensures forall i :: 0 <= i < |chunks| ==> objects[i].Keys == {"chunk_text", "source_document", "entity_ids"}
  {
    objects := [];
    for i := 0 to |chunks|
      invariant |objects| == i
      invariant forall k :: 0 <= k < i ==> objects[k] == ChunkObject(chunks[k])
    {
      var properties := map["chunk_text" := Get(chunks[i], "chunk_text"),
                             "source_document" := Get(chunks[i], "source_document"),
                             "entity_ids" := GetOr(chunks[i], "entity_ids", VList([]))];
      objects := objects + [properties];
    }
  }

  /** A nearText search: the concepts, the result limit and the optional
      filter. */
  datatype SearchRequest = SearchRequest(concepts: seq<string>, limit: int, where: Option<WhereFilter>)

  /** One object of the search answer: its properties and the `score` found
      under `_additional` (None when either is absent). */
  datatype RawResult = RawResult(properties: Props, additionalScore: Option<real>)

  /** A reformatted search result. */
  datatype ChunkRow = ChunkRow(chunkText: Value, sourceDocument: Value, entityIds: Value, score: real)

  /** The row for one result: missing text and document read as None,
      missing entity ids as the empty list, a missing score as 0.0. */
  function RowOf(res: RawResult): (r: ChunkRow)
    ensures "entity_ids" !in res.properties ==> r.entityIds == VList([])
    ensures res.additionalScore.None? ==> r.score == 0.0
    ensures res.additionalScore.Some? ==> r.score == res.additionalScore.value
    ensures r.chunkText == Get(res.properties, "chunk_text") && r.sourceDocument == Get(res.properties, "source_document")
  {
    ChunkRow(Get(res.properties, "chunk_text"), Get(res.properties, "source_document"),
             GetOr(res.properties, "entity_ids", VList([])), res.additionalScore.GetOr(0.0))
  }

  /** `search_similar_chunks`. `service` answers a request with the result
      objects, or None when the query or reading its answer fails. */
  method SearchSimilarChunks(queryConcepts: seq<string>, topK: int, filterFilenames: Option<seq<string>>,
                             service: SearchRequest -> Option<seq<RawResult>>)
    returns (rows: seq<ChunkRow>, request: SearchRequest)
    ensures request == SearchRequest(queryConcepts, topK, SearchWhereFilter(filterFilenames))
    ensures service(request).None? ==> rows == []
    ensures service(request).Some? ==>
      |rows| == |service(request).value|
      && forall i :: 0 <= i < |rows| ==> rows[i] == RowOf(service(request).value[i])
  {
    var whereFilter: Option<WhereFilter> := None;
    if filterFilenames.Some? && filterFilenames.value != [] {
      whereFilter := Some(ContainsAny("source_document", filterFilenames.value));
    }
    request := SearchRequest(queryConcepts, topK, whereFilter);
    var answer := service(request);
    if answer.None? {
      return [], request;
    }
    var searchResults := answer.value;
    rows := [];
    for i := 0 to |searchResults|
      invariant |rows| == i
      invariant forall k :: 0 <= k < i ==> rows[k] == RowOf(searchResults[k])
    {
      var res := searchResults[i];
      rows := rows + [ChunkRow(Get(res.properties, "chunk_text"), Get(res.properties, "source_document"),
                               GetOr(res.properties, "entity_ids", VList([])), res.additionalScore.GetOr(0.0))];
    }
  }

  /** The answer to a deletion: the `results` part, when present, maps
      counter names to counts. */
  datatype DeleteResponse = DeleteResponse(results: Option<map<string, int>>)

  /** The filter of a deletion by filename. */
  function DeleteFilter(filename: string): (f: WhereFilter)
    ensures f.Equal? && f.path == "source_document" && f.valueString == filename
  {
    Equal("source_document", filename)
  }

  /** `delete_chunks_by_filename`'s result: the `successful` count, 0 when
      it or the `results` part is missing. */
  function DeletedCount(response: DeleteResponse): (n: int)
    ensures response.results.None? ==> n == 0
    ensures response.results.Some? && "successful" !in response.results.value ==> n == 0
    ensures response.results.Some? && "successful" in response.results.value ==>
      n == response.results.value["successful"]
  {
    match response.results
    case None => 0
    case Some(r) => if "successful" in r then r["successful"] else 0
  }
}
