/** Turning graph-database query records into a Subgraph: the node and
    relationship converters, the two-pass assembly that keeps one node per
    id and one edge per relationship element id, the empty-input guard of
    the subgraph query and the property map of an entity merge. The driver
    and the Cypher queries are collaborators: a query is a function from
    its parameters to the records it returns. */
module Neo4jConnector {
  import opened Common
  import opened Models

  /** A value a query record can hold in its `item` column. Driver nodes
      and relationships behave as their property maps for truthiness (an
      entity without properties is falsy). */
  datatype Item =
    | NodeObject(elementId: string, labels: seq<string>, props: Props)
    | RelationshipObject(elementId: string, relType: string, props: Props)
    | DictItem(props: Props)
    | TupleItem(first: Item)
    | NullItem
    | OtherItem(truthy: bool)

  /** Python truthiness of an item. */
  predicate ItemTruthy(item: Item) {
    match item
    case NodeObject(_, _, props) => props != map[]
    case RelationshipObject(_, _, props) => props != map[]
    case DictItem(props) => props != map[]
    case TupleItem(_) => true
    case NullItem => false
    case OtherItem(t) => t
  }

  /** One result row: the item, its kind, and the element ids of the
      relationship's start node, end node and of the relationship itself
      (VNull when the column is null or absent). */
  datatype Record = Record(item: Item, itemType: Value, sElementId: Value, tElementId: Value, relElementId: Value)

  // ---- node conversion ----

  /** The labels as read from a node: a list of values, or an error when
      the stored `_labels` is a non-zero number (indexing it raises). */
  datatype Labels = LabelList(items: seq<Value>) | LabelError

  /** `props.get("_labels", [])` taken as a list. */
  function LabelsOfValue(v: Value): Labels {
    match v
    case VList(items) => LabelList(seq(|items|, i requires 0 <= i < |items| => VStr(items[i])))
    case VStr(s) => LabelList(seq(|s|, i requires 0 <= i < |s| => VStr([s[i]])))
    case VInt(i) => if i != 0 then LabelError else LabelList([])
    case VNull => LabelList([])
  }

  predicate IsSchemaLabel(v: Value, entityTypes: seq<string>) {
    v.VStr? && v.s in entityTypes
  }

  /** The position of the first label that is a schema entity type. */
  function FirstSchemaLabel(labels: seq<Value>, entityTypes: seq<string>): (r: Option<nat>)
    ensures r.Some? ==>
      && r.value < |labels| && IsSchemaLabel(labels[r.value], entityTypes)
      && forall j :: 0 <= j < r.value ==> !IsSchemaLabel(labels[j], entityTypes)
    ensures r.None? ==> forall j :: 0 <= j < |labels| ==> !IsSchemaLabel(labels[j], entityTypes)
  {
    if labels == [] then None
    else if IsSchemaLabel(labels[0], entityTypes) then Some(0)
    else
      match FirstSchemaLabel(labels[1..], entityTypes)
      case None => None
      case Some(k) => Some(k + 1)
  }

  /** The node's primary type: the first label that is a schema entity
      type, else the first label; with no labels the truthy `type`
      property, then the truthy `entity_type` property, then "Unknown". */
  function PrimaryType(labels: seq<Value>, props: Props, entityTypes: seq<string>): (r: Value)
    ensures labels != [] && FirstSchemaLabel(labels, entityTypes).Some? ==>
      r == labels[FirstSchemaLabel(labels, entityTypes).value]
    ensures labels != [] && FirstSchemaLabel(labels, entityTypes).None? ==> r == labels[0]
    ensures labels == [] && Truthy(Get(props, "type")) ==> r == props["type"]
    ensures labels == [] && !Truthy(Get(props, "type")) && Truthy(Get(props, "entity_type")) ==>
      r == props["entity_type"]
    ensures labels == [] && !Truthy(Get(props, "type")) && !Truthy(Get(props, "entity_type")) ==>
      r == VStr("Unknown")
  {
    if labels != [] then
      match FirstSchemaLabel(labels, entityTypes)
      case Some(k) => labels[k]
      case None => labels[0]
    else if Truthy(Get(props, "type")) then props["type"]
    else if Truthy(Get(props, "entity_type")) then props["entity_type"]
    else VStr("Unknown")
  }

  /** What the converter reads from a node item: its properties, labels
      and element id (a value, VNull when there is none). */
  datatype NodeFields = NodeFields(props: Props, labels: Labels, elementId: Value)

  function ReadNode(item: Item): (r: Option<NodeFields>)
    ensures r.Some? <==> item.NodeObject? || item.DictItem?
  {
    match item
    case NodeObject(eid, labels, props) =>
      Some(NodeFields(props, LabelList(seq(|labels|, i requires 0 <= i < |labels| => VStr(labels[i]))), VStr(eid)))
    case DictItem(props) =>
      var labelsValue := GetOr(props, "_labels", VList([]));
      var labels :=
        if !Truthy(labelsValue) && Truthy(Get(props, "type")) then LabelList([Get(props, "type")])
        else LabelsOfValue(labelsValue);
      Some(NodeFields(props, labels, GetOr(props, "element_id", Get(props, "id"))))
    case _ => None
  }

  /** `_convert_neo4j_node_to_pydantic`. The id is `canonical_name` when
      the property is present, otherwise the string form of a truthy
      element id; with neither there is no node. The label is the
      `canonical_name` property, or the id. Non-string id, label or type
      values are rejected, as model validation rejects them. */
  function ConvertNode(item: Item, entityTypes: seq<string>): (r: Option<Node>)
    ensures r.Some? ==> ReadNode(item).Some?
    ensures r.Some? ==>
      var f := ReadNode(item).value;
      && r.value.properties == f.props
      && r.value.displayLabel == r.value.id
      && ("canonical_name" in f.props ==> f.props["canonical_name"] == VStr(r.value.id))
      && ("canonical_name" !in f.props ==> Truthy(f.elementId) && r.value.id == PyStr(f.elementId))
      && f.labels.LabelList?
      && VStr(r.value.nodeType) == PrimaryType(f.labels.items, f.props, entityTypes)
    ensures (ReadNode(item).Some? && "canonical_name" !in ReadNode(item).value.props
             && !Truthy(ReadNode(item).value.elementId)) ==> r.None?
  {
    match ReadNode(item)
    case None => None
    case Some(f) =>
      match f.labels
      case LabelError => None
      case LabelList(labels) =>
        var primaryType := PrimaryType(labels, f.props, entityTypes);
        var idValue :=
          if "canonical_name" in f.props then f.props["canonical_name"]
          else if Truthy(f.elementId) then VStr(PyStr(f.elementId))
          else VNull;
        if idValue.VNull? then None
        else
          var displayLabel := if "canonical_name" in f.props then f.props["canonical_name"] else VStr(PyStr(idValue));
          if !primaryType.VStr? || !displayLabel.VStr? then None
          else Some(Node(PyStr(idValue), displayLabel.s, primaryType.s, f.props))
  }

  // ---- relationship conversion ----

  /** `_convert_neo4j_relationship_to_pydantic` with the record's start
      and end element ids: a tuple is unwrapped once; a dictionary's type
      defaults to "RELATED_TO"; a missing endpoint gives no edge. */
  function ConvertRelationship(item: Item, sElementId: Value, tElementId: Value): (r: Option<Edge>)
    ensures sElementId.VNull? || tElementId.VNull? ==> r.None?
    ensures r.Some? ==> r.value.source == PyStr(sElementId) && r.value.target == PyStr(tElementId)
    ensures item.RelationshipObject? && !sElementId.VNull? && !tElementId.VNull? ==>
      r == Some(Edge(PyStr(sElementId), PyStr(tElementId), item.relType, item.props))
  {
    var rel := if item.TupleItem? then item.first else item;
    var fields: Option<(Value, Props)> :=
      match rel
      case RelationshipObject(_, t, props) => Some((VStr(t), props))
      case DictItem(props) => Some((GetOr(props, "type", VStr("RELATED_TO")), props))
      case _ => None;
    if fields.None? then None
    else if sElementId.VNull? || tElementId.VNull? then None
    else if !fields.value.0.VStr? then None
    else Some(Edge(PyStr(sElementId), PyStr(tElementId), fields.value.0.s, fields.value.1))
  }

  // ---- the two passes, as specifications ----

  /** What the node pass takes from one record: the converted node and
      the element id under which it is registered (VNull for none). */
  function NodeCandidate(record: Record, entityTypes: seq<string>): (r: Option<(Node, Value)>)
    ensures record.itemType != VStr("node") || !ItemTruthy(record.item) ==> r.None?
    ensures r.Some? ==> ConvertNode(record.item, entityTypes) == Some(r.value.0)
  {
    if record.itemType != VStr("node") || !ItemTruthy(record.item) then None
    else
      match ConvertNode(record.item, entityTypes)
      case None => None
      case Some(node) =>
        Some((node, RegisteredElementId(record.item)))
  }

  /** The element id a converted node is registered under: the driver
      node's own, or a dictionary's `element_id` entry (VNull for none). */
  function RegisteredElementId(item: Item): (v: Value)
    ensures item.NodeObject? ==> v == VStr(item.elementId)
    ensures !item.NodeObject? && !item.DictItem? ==> v == VNull
  {
    match item
    case NodeObject(eid, _, _) => VStr(eid)
    case DictItem(props) => if "element_id" in props then props["element_id"] else VNull
    case _ => VNull
  }

  /** The nodes converted by the first pass, in record order. */
  function ConvertedNodes(records: seq<Record>, entityTypes: seq<string>): seq<Node> {
    if records == [] then []
    else
      var last := records[|records| - 1];
      ConvertedNodes(records[..|records| - 1], entityTypes)
        + (match NodeCandidate(last, entityTypes) case Some(c) => [c.0] case None => [])
  }

  function Ids(nodes: seq<Node>): (r: seq<string>)
    ensures |r| == |nodes| && forall i :: 0 <= i < |nodes| ==> r[i] == nodes[i].id
  {
    seq(|nodes|, i requires 0 <= i < |nodes| => nodes[i].id)
  }

  /** The first node for each id, in order of first occurrence. */
  function DedupById(nodes: seq<Node>): (r: seq<Node>)
    ensures NoDuplicates(Ids(r))
    ensures forall n :: n in r ==> n in nodes
    ensures forall n :: n in nodes ==> n.id in Ids(r)
  {
    if nodes == [] then []
    else
      var init := nodes[..|nodes| - 1];
      var last := nodes[|nodes| - 1];
      var d := DedupById(init);
      assert nodes == init + [last];
      if last.id in Ids(d) then d
      else
        assert Ids(d + [last]) == Ids(d) + [last.id];
        d + [last]
  }

  /** For a repeated id the first node with that id is the one kept. */
  lemma {:induction false} DedupByIdKeepsFirst(nodes: seq<Node>, k: nat)
    requires k < |nodes| && forall j :: 0 <= j < k ==> nodes[j].id != nodes[k].id
    ensures nodes[k] in DedupById(nodes)
    decreases |nodes|
  {
    var init := nodes[..|nodes| - 1];
    if k < |nodes| - 1 {
      DedupByIdKeepsFirst(init, k);
    } else {
      var d := DedupById(init);
      forall n | n in d ensures n.id != nodes[k].id {
        var j :| 0 <= j < |init| && init[j] == n;
        assert nodes[j] == init[j];
      }
      assert nodes[k].id !in Ids(d);
    }
  }

  /** What the relationship pass takes from one record: the relationship
      element id (from the record, else from the item) and the converted
      edge. */
  function RelationshipCandidate(record: Record): (r: Option<(Value, Edge)>)
    ensures record.itemType != VStr("relationship") || !ItemTruthy(record.item) ==> r.None?
    ensures record.sElementId.VNull? || record.tElementId.VNull? ==> r.None?
  {
    if record.itemType != VStr("relationship") || !ItemTruthy(record.item) then None
    else
      var item := if record.item.TupleItem? then record.item.first else record.item;
      var relId: Option<Value> :=
        if Truthy(record.relElementId) then Some(record.relElementId)
        else
          match item
          case RelationshipObject(eid, _, _) => Some(VStr(eid))
          case DictItem(props) => if "element_id" in props then Some(props["element_id"]) else None
          case _ => None;
      if relId.None? then None
      else
        match ConvertRelationship(item, record.sElementId, record.tElementId)
        case None => None
        case Some(edge) => Some((relId.value, edge))
  }

  /** The relationship pass: the element ids taken, in order, and their
      edges; a candidate whose id was already taken is dropped. */
  function EdgePass(records: seq<Record>): (r: (seq<Value>, seq<Edge>))
    ensures |r.0| == |r.1|
    ensures NoDuplicates(r.0)
  {
    if records == [] then ([], [])
    else
      var prev := EdgePass(records[..|records| - 1]);
      match RelationshipCandidate(records[|records| - 1])
      case None => prev
      case Some(c) => if c.0 in prev.0 then prev else (prev.0 + [c.0], prev.1 + [c.1])
  }

  /** Every edge comes from a relationship record carrying its element id. */
  lemma {:induction false} EdgesFromCandidates(records: seq<Record>)
    ensures forall i :: 0 <= i < |EdgePass(records).0| ==>
      exists k :: 0 <= k < |records| && RelationshipCandidate(records[k]) == Some((EdgePass(records).0[i], EdgePass(records).1[i]))
    decreases |records|
  {
    if records != [] {
      var init := records[..|records| - 1];
      EdgesFromCandidates(init);
      var prev := EdgePass(init);
      var ids := EdgePass(records).0;
      var edges := EdgePass(records).1;
      forall i | 0 <= i < |ids|
        ensures exists k :: 0 <= k < |records| && RelationshipCandidate(records[k]) == Some((ids[i], edges[i]))
      {
        if i < |prev.0| {
          var k :| 0 <= k < |init| && RelationshipCandidate(init[k]) == Some((prev.0[i], prev.1[i]));
          assert records[k] == init[k];
        } else {
          var last := records[|records| - 1];
          assert RelationshipCandidate(last) == Some((ids[i], edges[i]));
        }
      }
    } else {
      assert EdgePass(records).0 == [];
    }
  }

  /** Every relationship record that converts contributes its element id. */
  lemma {:induction false} CandidatesCovered(records: seq<Record>)
    ensures forall k :: 0 <= k < |records| && RelationshipCandidate(records[k]).Some? ==>
      RelationshipCandidate(records[k]).value.0 in EdgePass(records).0
    decreases |records|
  {
    if records != [] {
      var init := records[..|records| - 1];
      CandidatesCovered(init);
      forall k | 0 <= k < |init| ensures records[k] == init[k] {}
    }
  }

  // ---- the assembly ----

  lemma DedupByIdAppend(nodes: seq<Node>, n: Node)
    ensures DedupById(nodes + [n]) ==
      if n.id in Ids(DedupById(nodes)) then DedupById(nodes) else DedupById(nodes) + [n]
  {
    assert (nodes + [n])[..|nodes|] == nodes;
  }

  lemma ConvertedNodesStep(records: seq<Record>, i: nat, entityTypes: seq<string>)
    requires i < |records|
    ensures NodeCandidate(records[i], entityTypes).None? ==>
      ConvertedNodes(records[..i + 1], entityTypes) == ConvertedNodes(records[..i], entityTypes)
    ensures NodeCandidate(records[i], entityTypes).Some? ==>
      ConvertedNodes(records[..i + 1], entityTypes)
        == ConvertedNodes(records[..i], entityTypes) + [NodeCandidate(records[i], entityTypes).value.0]
  {
    assert records[..i + 1][..i] == records[..i];
    assert records[..i + 1][i] == records[i];
    if NodeCandidate(records[i], entityTypes).None? {
      assert ConvertedNodes(records[..i], entityTypes) + [] == ConvertedNodes(records[..i], entityTypes);
    }
  }

  lemma EdgePassStep(records: seq<Record>, i: nat)
    requires i < |records|
    ensures EdgePass(records[..i + 1]) ==
      match RelationshipCandidate(records[i])
      case None => EdgePass(records[..i])
      case Some(c) =>
        if c.0 in EdgePass(records[..i]).0 then EdgePass(records[..i])
        else (EdgePass(records[..i]).0 + [c.0], EdgePass(records[..i]).1 + [c.1])
  {
    assert records[..i + 1][..i] == records[..i];
  }

  /** A node map keyed by node id, with its insertion order. */
  predicate NodeDict(nodesMap: map<string, Node>, nodeOrder: seq<string>) {
    && (forall k :: k in nodeOrder ==> k in nodesMap)
    && (forall k :: k in nodesMap ==> k in nodeOrder && nodesMap[k].id == k)
  }

  lemma NodeDictIds(nodesMap: map<string, Node>, nodeOrder: seq<string>)
    requires NodeDict(nodesMap, nodeOrder)
    ensures Ids(ValuesInOrder(nodesMap, nodeOrder)) == nodeOrder
  {
  }

  /** The first pass's reading of one record: nothing for a record that
      is not a truthy node item or does not convert, otherwise the
      converted node and the element id it is registered under. */
  method ReadNodeRecord(record: Record, entityTypes: seq<string>) returns (c: Option<(Node, Value)>)
    ensures c == NodeCandidate(record, entityTypes)
  {
    if record.itemType != VStr("node") || !ItemTruthy(record.item) {
      return None;
    }
    var node := record.item;
    var converted := ConvertNode(node, entityTypes);
    if converted.None? {
      return None;
    }
    var elementId := RegisteredElementId(node);
    return Some((converted.value, elementId));
  }

  /** Keeps the first node per id: a node whose id is new is added at the
      end of the order, one whose id is known changes nothing. */
  method KeepFirst(nodesMap: map<string, Node>, nodeOrder: seq<string>, ghost seen: seq<Node>, n: Node)
    returns (m: map<string, Node>, o: seq<string>)
    requires NodeDict(nodesMap, nodeOrder)
    requires ValuesInOrder(nodesMap, nodeOrder) == DedupById(seen)
    ensures NodeDict(m, o)
    ensures ValuesInOrder(m, o) == DedupById(seen + [n])
    ensures n.id in m && nodesMap.Keys <= m.Keys
    ensures n.id in nodesMap ==> m == nodesMap && o == nodeOrder
    ensures n.id !in nodesMap ==> m == nodesMap[n.id := n] && o == nodeOrder + [n.id]
  {
    NodeDictIds(nodesMap, nodeOrder);
    DedupByIdAppend(seen, n);
    m, o := nodesMap, nodeOrder;
    if n.id !in nodesMap {
      ValuesInOrderAppend(nodesMap, nodeOrder, n.id, n);
      m := nodesMap[n.id := n];
      o := nodeOrder + [n.id];
    }
  }

  /** The first pass: converts every node record and keeps the first node
      per id; every node registered under an element id is also in the
      node map. */
  method NodePass(records: seq<Record>, entityTypes: seq<string>)
    returns (nodesMap: map<string, Node>, nodeOrder: seq<string>, nodesByElementId: map<Value, Node>)
    ensures NodeDict(nodesMap, nodeOrder)
    ensures ValuesInOrder(nodesMap, nodeOrder) == DedupById(ConvertedNodes(records, entityTypes))
    ensures forall v :: v in nodesByElementId ==> nodesByElementId[v].id in nodesMap
  {
    nodesMap, nodeOrder, nodesByElementId := map[], [], map[];
    for i := 0 to |records|
      invariant NodeDict(nodesMap, nodeOrder)
      invariant ValuesInOrder(nodesMap, nodeOrder) == DedupById(ConvertedNodes(records[..i], entityTypes))
      invariant forall v :: v in nodesByElementId ==> nodesByElementId[v].id in nodesMap
    {
      ConvertedNodesStep(records, i, entityTypes);
      ghost var seen := ConvertedNodes(records[..i], entityTypes);
      var candidate := ReadNodeRecord(records[i], entityTypes);
      if candidate.None? {
        continue;
      }
      var pydanticNode := candidate.value.0;
      var elementId := candidate.value.1;
      if Truthy(elementId) {
        nodesByElementId := nodesByElementId[elementId := pydanticNode];
      }
      nodesMap, nodeOrder := KeepFirst(nodesMap, nodeOrder, seen, pydanticNode);
      assert ConvertedNodes(records[..i + 1], entityTypes) == seen + [pydanticNode];
    }
    assert records[..|records|] == records;
  }

  /** The second pass's reading of one record: nothing for a record that
      is not a truthy relationship item, a tuple unwrapped once, the element
      id from the record or else from the item (nothing without one), and
      the converted edge. */
  method ReadRelationship(record: Record) returns (c: Option<(Value, Edge)>)
    ensures c == RelationshipCandidate(record)
  {
    if record.itemType != VStr("relationship") || !ItemTruthy(record.item) {
      return None;
    }
    var item := record.item;
    var currentRelId := record.relElementId;
    if item.TupleItem? {
      item := item.first;
    }
    if !Truthy(currentRelId) {
      if item.RelationshipObject? {
        currentRelId := VStr(item.elementId);
      } else if item.DictItem? && "element_id" in item.props {
        currentRelId := item.props["element_id"];
      } else {
        return None;
      }
    }
    var edge := ConvertRelationship(item, record.sElementId, record.tElementId);
    if edge.None? {
      return None;
    }
    return Some((currentRelId, edge.value));
  }

  /** The backfill of one endpoint: the node registered under a truthy
      element id is added when its id is not yet in the node map. When
      every registered node is already in the map, nothing changes. */
  method Backfill(nodesMap: map<string, Node>, nodeOrder: seq<string>, nodesByElementId: map<Value, Node>, elementId: Value)
    returns (m: map<string, Node>, o: seq<string>)
    ensures Truthy(elementId) && elementId in nodesByElementId && nodesByElementId[elementId].id !in nodesMap ==>
      var n := nodesByElementId[elementId];
      m == nodesMap[n.id := n] && o == nodeOrder + [n.id]
    ensures !(Truthy(elementId) && elementId in nodesByElementId && nodesByElementId[elementId].id !in nodesMap) ==>
      m == nodesMap && o == nodeOrder
    ensures (forall v :: v in nodesByElementId ==> nodesByElementId[v].id in nodesMap) ==> m == nodesMap && o == nodeOrder
  {
    m, o := nodesMap, nodeOrder;
    if Truthy(elementId) && elementId in nodesByElementId {
      var node := nodesByElementId[elementId];
      if node.id !in nodesMap {
        m := nodesMap[node.id := node];
        o := nodeOrder + [node.id];
      }
    }
  }

  /** `_process_subgraph_results_revised_v3`: the node pass, then the
      relationship pass. The nodes are the first converted node per id in
      record order, so node ids are unique; the backfill in the second pass
      finds every registered node already present and adds none. The
      edges are one per relationship element id, in record order, kept
      whether or not nodes for their endpoints were found. `relIds` are
      the processed relationship element ids in insertion order. */
  method ProcessSubgraphResults(records: seq<Record>, entityTypes: seq<string>)
    returns (g: Subgraph, relIds: seq<Value>)
    ensures g.nodes == DedupById(ConvertedNodes(records, entityTypes))
    ensures NoDuplicates(Ids(g.nodes))
    ensures relIds == EdgePass(records).0 && g.edges == EdgePass(records).1
    ensures NoDuplicates(relIds) && |relIds| == |g.edges|
  {
    var nodesMap, nodeOrder, nodesByElementId := NodePass(records, entityTypes);
    ghost var passOneMap, passOneOrder := nodesMap, nodeOrder;
    var edges: seq<Edge> := [];
    var processed: seq<Value> := [];
    for i := 0 to |records|
      invariant nodesMap == passOneMap && nodeOrder == passOneOrder
      invariant (processed, edges) == EdgePass(records[..i])
    {
      var record := records[i];
      EdgePassStep(records, i);
      var candidate := ReadRelationship(record);
      if candidate.None? || candidate.value.0 in processed {
        continue;
      }
      nodesMap, nodeOrder := Backfill(nodesMap, nodeOrder, nodesByElementId, record.sElementId);
      nodesMap, nodeOrder := Backfill(nodesMap, nodeOrder, nodesByElementId, record.tElementId);
      edges := edges + [candidate.value.1];
      processed := processed + [candidate.value.0];
    }
    assert records[..|records|] == records;
    NodeDictIds(nodesMap, nodeOrder);
    g := Subgraph(ValuesInOrder(nodesMap, nodeOrder), edges);
    relIds := processed;
  }

  /** `get_subgraph_for_entities`: with no names the result is the empty
      subgraph and the database is not queried; otherwise the records the
      query returns are assembled. */
  method GetSubgraphForEntities(
    canonicalNames: seq<string>, hopDepth: int, query: (seq<string>, int) -> seq<Record>, entityTypes: seq<string>)
    returns (g: Subgraph, queried: bool)
    ensures queried <==> canonicalNames != []
    ensures canonicalNames == [] ==> g == EmptySubgraph()
    ensures canonicalNames != [] ==>
      && g.nodes == DedupById(ConvertedNodes(query(canonicalNames, hopDepth), entityTypes))
      && g.edges == EdgePass(query(canonicalNames, hopDepth)).1
  {
    if canonicalNames == [] {
      return EmptySubgraph(), false;
    }
    var records := query(canonicalNames, hopDepth);
    var relIds;
    g, relIds := ProcessSubgraphResults(records, entityTypes);
    queried := true;
  }

  /** The property map `merge_entity` writes: the given properties, plus
      `canonical_name` unless the properties already set it. */
  function MergeEntityProps(canonicalName: string, properties: Props): (props: Props)
    ensures props.Keys == properties.Keys + {"canonical_name"}
    ensures forall k :: k in properties ==> props[k] == properties[k]
    ensures "canonical_name" !in properties ==> props["canonical_name"] == VStr(canonicalName)
  {
    map["canonical_name" := VStr(canonicalName)] + properties
  }
}
