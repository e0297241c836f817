/** The records the system passes between its components: graph nodes, edges
    and subgraphs (common_models.py) and the ingestion-side extraction and
    status records (ingestion_models.py). */
module Models {
  import opened Common

  /** A graph node as returned to callers: id (usually the canonical name),
      display label, entity type and an open property bag. */
  datatype Node = Node(id: string, displayLabel: string, nodeType: string, properties: Props)

  /** A directed, labelled relationship between two node identifiers. */
  datatype Edge = Edge(source: string, target: string, relationLabel: string, properties: Props)

  datatype Subgraph = Subgraph(nodes: seq<Node>, edges: seq<Edge>) {
    /** `Subgraph.is_empty`: no nodes and no edges. */
    predicate IsEmpty() {
      nodes == [] && edges == []
    }
  }

  /** A node built without explicit properties has an empty property bag. */
  function NewNode(id: string, displayLabel: string, nodeType: string): (n: Node)
    ensures n.id == id && n.displayLabel == displayLabel && n.nodeType == nodeType
    ensures n.properties == map[]
  {
    Node(id, displayLabel, nodeType, map[])
  }

  /** An edge built without explicit properties has an empty property bag. */
  function NewEdge(source: string, target: string, relationLabel: string): (e: Edge)
    ensures e.source == source && e.target == target && e.relationLabel == relationLabel
    ensures e.properties == map[]
  {
    Edge(source, target, relationLabel, map[])
  }

  /** `Subgraph()`: the default subgraph, which is empty. */
  function EmptySubgraph(): (g: Subgraph)
    ensures g.nodes == [] && g.edges == []
    ensures g.IsEmpty()
  {
    Subgraph([], [])
  }

  /** One entity found by the language model in one chunk: the mention,
      the entity type and canonical name are required, contexts default to
      the empty list. */
  datatype ExtractedEntity = ExtractedEntity(
    originalMention: string, entityType: string, canonicalName: string, contexts: seq<string>)

  /** One relationship found in one chunk; contexts default to the empty list. */
  datatype ExtractedRelationship = ExtractedRelationship(
    sourceCanonicalName: string, relationshipType: string, targetCanonicalName: string,
    contexts: seq<string>)

  datatype LLMExtractionOutput = LLMExtractionOutput(
    entities: seq<ExtractedEntity>, relationships: seq<ExtractedRelationship>)

  function NewEntity(originalMention: string, entityType: string, canonicalName: string): (e: ExtractedEntity)
    ensures e.originalMention == originalMention && e.entityType == entityType
    ensures e.canonicalName == canonicalName && e.contexts == []
  {
    ExtractedEntity(originalMention, entityType, canonicalName, [])
  }

  function NewRelationship(source: string, relationshipType: string, target: string): (r: ExtractedRelationship)
    ensures r.sourceCanonicalName == source && r.relationshipType == relationshipType
    ensures r.targetCanonicalName == target && r.contexts == []
  {
    ExtractedRelationship(source, relationshipType, target, [])
  }

  /** `LLMExtractionOutput()`: no entities and no relationships. */
  function EmptyExtraction(): (o: LLMExtractionOutput)
    ensures o.entities == [] && o.relationships == []
  {
    LLMExtractionOutput([], [])
  }

  /** The outcome of ingesting one file. */
  datatype IngestionStatus = IngestionStatus(
    filename: string, status: string, message: Option<string>,
    entitiesAdded: int, relationshipsAdded: int)

  /** `IngestionStatus(filename=..., status=...)`: no message, zero counters. */
  function NewStatus(filename: string, status: string): (s: IngestionStatus)
    ensures s.filename == filename && s.status == status
    ensures s.message == None && s.entitiesAdded == 0 && s.relationshipsAdded == 0
  {
    IngestionStatus(filename, status, None, 0, 0)
  }

  function StatusWithMessage(filename: string, status: string, message: string): (s: IngestionStatus)
    ensures s.filename == filename && s.status == status
    ensures s.message == Some(message) && s.entitiesAdded == 0 && s.relationshipsAdded == 0
  {
    IngestionStatus(filename, status, Some(message), 0, 0)
  }
}
