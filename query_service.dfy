/** The query side of the retrieval pipeline: linking the entity strings
    found in a question to canonical graph entities, choosing how to
    retrieve a subgraph from the classified intent, rendering that subgraph
    as the text handed to the answering model, and the whole flow of
    `process_user_query`. The language model, the vector search and the
    graph database are collaborators given as functions. */
module QueryService {
  import opened Common
  import opened Strings
  import opened Models
  import opened Config

  // ---- linking query entities to the graph ----

  /** A query entity string, the canonical name it was linked to and the
      distance of that match (lower is closer). */
  datatype EntityLink = EntityLink(queryText: string, canonicalName: string, score: real)

  /** The link one query string yields: blank strings are skipped, only the
      top search result is considered, and it is kept when its distance is
      within the threshold. `search(t)` stands for the entity search with
      `top_k=1`, a list of (canonical name, distance) pairs. */
  function LinkOf(text: string, search: string -> seq<(string, real)>, threshold: real): (r: Option<EntityLink>)
    ensures r.Some? <==> !IsBlank(text) && search(text) != [] && search(text)[0].1 <= threshold
    ensures r.Some? ==> r.value == EntityLink(text, search(text)[0].0, search(text)[0].1)
  {
    if IsBlank(text) then None
    else
      var results := search(text);
      if results == [] then None
      else if results[0].1 <= threshold then Some(EntityLink(text, results[0].0, results[0].1))
      else None
  }

  /** The links of all query strings, in input order. */
  function Links(texts: seq<string>, search: string -> seq<(string, real)>, threshold: real): (r: seq<EntityLink>)
    ensures |r| <= |texts|
    decreases |texts|
  {
    if texts == [] then []
    else
      var init := Links(texts[..|texts| - 1], search, threshold);
      match LinkOf(texts[|texts| - 1], search, threshold)
      case Some(l) => init + [l]
      case None => init
  }

  /** Linking works string by string: the links of two lists one after the
      other are the links of the first followed by those of the second, so
      the output keeps the input order. */
  lemma {:induction false} LinksConcat(a: seq<string>, b: seq<string>, search: string -> seq<(string, real)>, threshold: real)
    ensures Links(a + b, search, threshold) == Links(a, search, threshold) + Links(b, search, threshold)
    decreases |b|
  {
    if b == [] {
      assert a + b == a;
    } else {
      var b' := b[..|b| - 1];
      assert (a + b)[..|a + b| - 1] == a + b';
      assert (a + b)[|a + b| - 1] == b[|b| - 1];
      LinksConcat(a, b', search, threshold);
    }
  }

  /** Every link comes from a non-blank query string whose top match is
      within the threshold, and records that match exactly. */
  lemma {:induction false} LinksSound(texts: seq<string>, search: string -> seq<(string, real)>, threshold: real, l: EntityLink)
    requires l in Links(texts, search, threshold)
    ensures l.queryText in texts && !IsBlank(l.queryText)
    ensures search(l.queryText) != [] && search(l.queryText)[0] == (l.canonicalName, l.score)
    ensures l.score <= threshold
    decreases |texts|
  {
    var init := texts[..|texts| - 1];
    if l in Links(init, search, threshold) {
      LinksSound(init, search, threshold, l);
    } else {
      assert LinkOf(texts[|texts| - 1], search, threshold) == Some(l);
    }
  }

  /** Every non-blank query string whose top match is within the threshold
      is linked. */
  lemma {:induction false} LinksComplete(texts: seq<string>, search: string -> seq<(string, real)>, threshold: real, i: nat)
    requires i < |texts| && !IsBlank(texts[i])
    requires search(texts[i]) != [] && search(texts[i])[0].1 <= threshold
    ensures EntityLink(texts[i], search(texts[i])[0].0, search(texts[i])[0].1) in Links(texts, search, threshold)
    decreases |texts|
  {
    if i < |texts| - 1 {
      LinksComplete(texts[..|texts| - 1], search, threshold, i);
    }
  }

  /** `_link_query_entities_to_graph`. */
  method LinkQueryEntities(texts: seq<string>, search: string -> seq<(string, real)>, threshold: real)
    returns (links: seq<EntityLink>)
    ensures links == Links(texts, search, threshold)
  {
    links := [];
    if texts == [] {
      return;
    }
    for i := 0 to |texts|
      invariant links == Links(texts[..i], search, threshold)
    {
      assert texts[..i + 1][..i] == texts[..i];
      var text := texts[i];
      if IsBlank(text) {
        continue;
      }
      var results := search(text);
      if results != [] {
        var (name, score) := results[0];
        if score <= threshold {
          links := links + [EntityLink(text, name, score)];
        }
      }
    }
    assert texts[..|texts|] == texts;
  }

  /** The canonical names of the links, in order. It has the shape of
      `IngestionService.CanonicalNames` but is over `EntityLink`, the
      linker's record, rather than over extracted entities; the two sides
      of the pipeline share no record type here, as they share none in the
      program. */
  function LinkedNames(links: seq<EntityLink>): (r: seq<string>)
    ensures |r| == |links| && forall i :: 0 <= i < |links| ==> r[i] == links[i].canonicalName
  {
    seq(|links|, i requires 0 <= i < |links| => links[i].canonicalName)
  }

  // ---- rendering a subgraph for the answering model ----

  const NoInformationMessage: string := "No relevant information found in the knowledge graph for this query."
  const ContextHeader: string := "Knowledge Graph Context:"
  const EntitiesHeader: string := "\nEntities Found:"
  const RelationshipsHeader: string := "\nRelationships Found:"
  const NodePrefix: string := "- Node: ["
  const RelationshipPrefix: string := "- Relationship: ("

  /** The first three items of a value (`v[:3]`). */
  function FirstThree(items: seq<string>): (r: seq<string>)
    ensures |r| <= 3 && |r| <= |items|
    ensures r == items[..|r|]
    ensures |items| <= 3 ==> r == items
  {
    if |items| <= 3 then items else items[..3]
  }

  /** The aliases shown for a node: `aliases` when it is truthy, otherwise
      `original_mentions`, cut to three items. */
  function ShownAliases(p: Props): (r: seq<string>)
    ensures |r| <= 3
    ensures Truthy(Get(p, "aliases")) ==> r == FirstThree(AsItems(p["aliases"]))
    ensures !Truthy(Get(p, "aliases")) ==> r == FirstThree(AsItems(Get(p, "original_mentions")))
  {
    FirstThree(AsItems(OrElse(Get(p, "aliases"), Get(p, "original_mentions"))))
  }

  /** A context as shown: unchanged up to 150 characters, otherwise its
      first 150 characters followed by "...". */
  function ShownContext(c: string): (r: string)
    ensures |c| <= 150 ==> r == c
    ensures |c| > 150 ==> |r| == 153 && r[..150] == c[..150] && r[150..] == "..."
  {
    if |c| > 150 then c[..150] + "..." else c
  }

  /** The "Aliases: …" part of a node line, when there is one. */
  function AliasPart(p: Props): seq<string> {
    var aliases := OrElse(Get(p, "aliases"), Get(p, "original_mentions"));
    if Truthy(aliases) then ["Aliases: " + Join(ShownAliases(p), ", ")] else []
  }

  /** The "Context: …" part, from the first stored context, when there is one. */
  function ContextPart(p: Props): seq<string> {
    var contexts := Get(p, "contexts");
    if Truthy(contexts) && AsItems(contexts) != [] then ["Context: " + ShownContext(AsItems(contexts)[0])] else []
  }

  /** The "Source Document: …" part, when there is one. */
  function SourcePart(p: Props): seq<string> {
    var doc := Get(p, "source_document_filename");
    if Truthy(doc) then ["Source Document: " + PyStr(doc)] else []
  }

  /** The bracketed parts of a node line: name and type, then, for a node
      with properties, aliases, context and source document when present. */
  function NodeParts(n: Node): (r: seq<string>)
    ensures 2 <= |r| <= 5
    ensures r[0] == "Name: " + n.displayLabel && r[1] == "Type: " + n.nodeType
    ensures n.properties == map[] ==> |r| == 2
  {
    var extra := if n.properties == map[] then []
      else AliasPart(n.properties) + ContextPart(n.properties) + SourcePart(n.properties);
    ["Name: " + n.displayLabel, "Type: " + n.nodeType] + extra
  }

  /** The bracketed parts of a relationship line: its type, then context and
      source document when present. */
  function EdgeParts(e: Edge): (r: seq<string>)
    ensures 1 <= |r| <= 3
    ensures r[0] == "Type: " + e.relationLabel
    ensures e.properties == map[] ==> |r| == 1
  {
    var extra := if e.properties == map[] then []
      else ContextPart(e.properties) + SourcePart(e.properties);
    ["Type: " + e.relationLabel] + extra
  }

  function NodeLine(n: Node): (r: string)
    ensures StartsWith(r, NodePrefix)
  {
    NodePrefix + Join(NodeParts(n), "; ") + "]"
  }

  function EdgeLine(e: Edge): (r: string)
    ensures StartsWith(r, RelationshipPrefix)
  {
    RelationshipPrefix + e.source + ") -[" + Join(EdgeParts(e), ", ") + "]-> (" + e.target + ")"
  }

  function NodeLines(nodes: seq<Node>): (r: seq<string>)
    ensures |r| == |nodes| && forall i :: 0 <= i < |nodes| ==> r[i] == NodeLine(nodes[i])
  {
    seq(|nodes|, i requires 0 <= i < |nodes| => NodeLine(nodes[i]))
  }

  function EdgeLines(edges: seq<Edge>): (r: seq<string>)
    ensures |r| == |edges| && forall i :: 0 <= i < |edges| ==> r[i] == EdgeLine(edges[i])
  {
    seq(|edges|, i requires 0 <= i < |edges| => EdgeLine(edges[i]))
  }

  /** The entities section: its header and one line per node, when there are nodes. */
  function NodeSection(g: Subgraph): seq<string> {
    if g.nodes != [] then [EntitiesHeader] + NodeLines(g.nodes) else []
  }

  /** The relationships section: its header and one line per edge, when there are edges. */
  function EdgeSection(g: Subgraph): seq<string> {
    if g.edges != [] then [RelationshipsHeader] + EdgeLines(g.edges) else []
  }

  /** The lines of the context of a subgraph: the header, an entities section
      when there are nodes, a relationships section when there are edges. */
  function ContextLines(g: Subgraph): seq<string> {
    [ContextHeader] + NodeSection(g) + EdgeSection(g)
  }

  /** The text `_format_subgraph_for_llm_context` produces. */
  function ContextText(g: Subgraph): string {
    if g.IsEmpty() then NoInformationMessage else Join(ContextLines(g), "\n")
  }

  /** Appends one line per node, in order. */
  method AppendNodeLines(parts: seq<string>, nodes: seq<Node>) returns (r: seq<string>)
    ensures r == parts + NodeLines(nodes)
  {
    r := parts;
    for i := 0 to |nodes|
      invariant r == parts + NodeLines(nodes[..i])
    {
      assert NodeLines(nodes[..i + 1]) == NodeLines(nodes[..i]) + [NodeLine(nodes[i])];
      r := r + [NodeLine(nodes[i])];
    }
    assert nodes[..|nodes|] == nodes;
  }

  /** Appends one line per relationship, in order. */
  method AppendEdgeLines(parts: seq<string>, edges: seq<Edge>) returns (r: seq<string>)
    ensures r == parts + EdgeLines(edges)
  {
    r := parts;
    for i := 0 to |edges|
      invariant r == parts + EdgeLines(edges[..i])
    {
      assert EdgeLines(edges[..i + 1]) == EdgeLines(edges[..i]) + [EdgeLine(edges[i])];
      r := r + [EdgeLine(edges[i])];
    }
    assert edges[..|edges|] == edges;
  }

  /** The header, then the entities section when there are nodes, then the
      relationships section when there are edges. */
  method BuildContextLines(g: Subgraph) returns (contextParts: seq<string>)
    ensures contextParts == ContextLines(g)
  {
    contextParts := [ContextHeader];
    if g.nodes != [] {
      contextParts := AppendNodeLines(contextParts + [EntitiesHeader], g.nodes);
      AppendAssoc([ContextHeader], [EntitiesHeader], NodeLines(g.nodes));
    } else {
      assert NodeSection(g) == [];
    }
    ghost var afterNodes := contextParts;
    if g.edges != [] {
      contextParts := AppendEdgeLines(contextParts + [RelationshipsHeader], g.edges);
      AppendAssoc(afterNodes, [RelationshipsHeader], EdgeLines(g.edges));
    } else {
      assert EdgeSection(g) == [];
    }
  }

  /** `_format_subgraph_for_llm_context`. */
  method FormatSubgraphForLlmContext(g: Subgraph) returns (text: string)
    ensures text == ContextText(g)
    ensures g.IsEmpty() ==> text == NoInformationMessage
    ensures !g.IsEmpty() ==> StartsWith(text, ContextHeader)
  {
    if g.IsEmpty() {
      return NoInformationMessage;
    }
    var contextParts := BuildContextLines(g);
    text := Join(contextParts, "\n");
    JoinStartsWith(contextParts, "\n");
  }

  /** The lines among `lines` that start with `prefix`. */
  function CountStartingWith(lines: seq<string>, prefix: string): nat
    decreases |lines|
  {
    if lines == [] then 0
    else (if StartsWith(lines[0], prefix) then 1 else 0) + CountStartingWith(lines[1..], prefix)
  }

  lemma {:induction false} CountStartingWithConcat(a: seq<string>, b: seq<string>, prefix: string)
    ensures CountStartingWith(a + b, prefix) == CountStartingWith(a, prefix) + CountStartingWith(b, prefix)
    decreases |a|
  {
    if a == [] {
      assert a + b == b;
    } else {
      assert (a + b)[0] == a[0];
      assert (a + b)[1..] == a[1..] + b;
      CountStartingWithConcat(a[1..], b, prefix);
    }
  }

  lemma {:induction false} CountStartingWithAll(lines: seq<string>, prefix: string)
    requires forall i :: 0 <= i < |lines| ==> StartsWith(lines[i], prefix)
    ensures CountStartingWith(lines, prefix) == |lines|
    decreases |lines|
  {
    if lines != [] {
      CountStartingWithAll(lines[1..], prefix);
    }
  }

  lemma {:induction false} CountStartingWithNone(lines: seq<string>, prefix: string)
    requires forall i :: 0 <= i < |lines| ==> !StartsWith(lines[i], prefix)
    ensures CountStartingWith(lines, prefix) == 0
    decreases |lines|
  {
    if lines != [] {
      CountStartingWithNone(lines[1..], prefix);
    }
  }

  /** Node lines start with the node prefix and never with the
      relationship prefix. */
  lemma NodeLinesCount(nodes: seq<Node>)
    ensures CountStartingWith(NodeLines(nodes), NodePrefix) == |nodes|
    ensures CountStartingWith(NodeLines(nodes), RelationshipPrefix) == 0
  {
    var nl := NodeLines(nodes);
    forall i | 0 <= i < |nl| ensures !StartsWith(nl[i], RelationshipPrefix) {
      assert nl[i][2] == 'N';
    }
    CountStartingWithAll(nl, NodePrefix);
    CountStartingWithNone(nl, RelationshipPrefix);
  }

  /** Relationship lines start with the relationship prefix and never with
      the node prefix. */
  lemma EdgeLinesCount(edges: seq<Edge>)
    ensures CountStartingWith(EdgeLines(edges), RelationshipPrefix) == |edges|
    ensures CountStartingWith(EdgeLines(edges), NodePrefix) == 0
  {
    var el := EdgeLines(edges);
    forall i | 0 <= i < |el| ensures !StartsWith(el[i], NodePrefix) {
      assert el[i][2] == 'R';
    }
    CountStartingWithAll(el, RelationshipPrefix);
    CountStartingWithNone(el, NodePrefix);
  }

  /** No header line starts with either entry prefix. */
  lemma HeadersAreNotEntries(prefix: string)
    requires prefix == NodePrefix || prefix == RelationshipPrefix
    ensures CountStartingWith([ContextHeader], prefix) == 0
    ensures CountStartingWith([EntitiesHeader], prefix) == 0
    ensures CountStartingWith([RelationshipsHeader], prefix) == 0
  {
    assert prefix[0] == '-';
    assert ContextHeader[0] == 'K';
    assert EntitiesHeader[0] == '\n';
    assert RelationshipsHeader[0] == '\n';
  }

  /** The entries of one section of the context. */
  lemma SectionCounts(g: Subgraph, prefix: string)
    requires prefix == NodePrefix || prefix == RelationshipPrefix
    ensures CountStartingWith(NodeSection(g), prefix) == if prefix == NodePrefix then |g.nodes| else 0
    ensures CountStartingWith(EdgeSection(g), prefix) == if prefix == RelationshipPrefix then |g.edges| else 0
  {
    HeadersAreNotEntries(prefix);
    NodeLinesCount(g.nodes);
    EdgeLinesCount(g.edges);
    assert NodePrefix != RelationshipPrefix by {
      assert NodePrefix[2] != RelationshipPrefix[2];
    }
    if g.nodes != [] {
      CountStartingWithConcat([EntitiesHeader], NodeLines(g.nodes), prefix);
    }
    if g.edges != [] {
      CountStartingWithConcat([RelationshipsHeader], EdgeLines(g.edges), prefix);
    }
  }

  /** Exactly one context line per node starts with "- Node: [" and
      exactly one per edge with "- Relationship: (". */
  lemma OneLinePerNodeAndEdge(g: Subgraph)
    ensures CountStartingWith(ContextLines(g), NodePrefix) == |g.nodes|
    ensures CountStartingWith(ContextLines(g), RelationshipPrefix) == |g.edges|
  {
    SectionCounts(g, NodePrefix);
    SectionCounts(g, RelationshipPrefix);
    HeadersAreNotEntries(NodePrefix);
    HeadersAreNotEntries(RelationshipPrefix);
    CountStartingWithConcat([ContextHeader], NodeSection(g), NodePrefix);
    CountStartingWithConcat([ContextHeader] + NodeSection(g), EdgeSection(g), NodePrefix);
    CountStartingWithConcat([ContextHeader], NodeSection(g), RelationshipPrefix);
    CountStartingWithConcat([ContextHeader] + NodeSection(g), EdgeSection(g), RelationshipPrefix);
  }

  /** Entry lines start with "-", so no entry line is a section header. */
  lemma EntriesAreNotHeaders(g: Subgraph)
    ensures EntitiesHeader !in NodeLines(g.nodes) && RelationshipsHeader !in NodeLines(g.nodes)
    ensures EntitiesHeader !in EdgeLines(g.edges) && RelationshipsHeader !in EdgeLines(g.edges)
  {
    assert EntitiesHeader[0] == '\n' && RelationshipsHeader[0] == '\n';
    forall i | 0 <= i < |g.nodes| ensures NodeLines(g.nodes)[i][0] == '-' {
      assert NodeLines(g.nodes)[i][..|NodePrefix|] == NodePrefix;
    }
    forall i | 0 <= i < |g.edges| ensures EdgeLines(g.edges)[i][0] == '-' {
      assert EdgeLines(g.edges)[i][..|RelationshipPrefix|] == RelationshipPrefix;
    }
  }

  /** Each section header is present exactly when its section has entries. */
  lemma SectionHeadersPresentIffEntries(g: Subgraph)
    ensures EntitiesHeader in ContextLines(g) <==> g.nodes != []
    ensures RelationshipsHeader in ContextLines(g) <==> g.edges != []
  {
    EntriesAreNotHeaders(g);
    assert ContextHeader[0] == 'K';
    assert EntitiesHeader != RelationshipsHeader by {
      assert EntitiesHeader[1] == 'E' && RelationshipsHeader[1] == 'R';
    }
    assert EntitiesHeader !in EdgeSection(g) && RelationshipsHeader !in NodeSection(g);
    assert EntitiesHeader in NodeSection(g) <==> g.nodes != [];
    assert RelationshipsHeader in EdgeSection(g) <==> g.edges != [];
  }

  // ---- routing on the classified intent ----

  /** The intent classification of a question (`QueryIntent`). */
  datatype QueryIntent = QueryIntent(queryIntent: string, targetEntities: seq<string>)

  /** What the classifier gave: nothing (None or an empty dictionary), a
      dictionary that does not validate as a `QueryIntent`, or an intent. */
  datatype Classification = NoClassification | InvalidClassification | Classified(intent: QueryIntent)

  /** How the subgraph is retrieved: not at all, the neighbourhood of the
      named entities up to a hop depth, or the shortest paths between two
      entities up to a number of hops. */
  datatype Retrieval =
    | NoRetrieval
    | Neighbourhood(names: seq<string>, hopDepth: int)
    | ShortestPaths(startName: string, endName: string, maxHops: int)

  /** The intent used for retrieval: the classified one, otherwise the
      default "entity_information" over the linked names when there are any. */
  function EffectiveIntent(c: Classification, linked: seq<string>): (r: Option<QueryIntent>)
    ensures c.Classified? ==> r == Some(c.intent)
    ensures !c.Classified? ==> (r.Some? <==> linked != [])
    ensures !c.Classified? && r.Some? ==> r.value == QueryIntent("entity_information", linked)
  {
    match c
    case Classified(i) => Some(i)
    case _ => if linked != [] then Some(QueryIntent("entity_information", linked)) else None
  }

  /** The entities to retrieve: the intent's targets, or the linked names
      when the intent names none. */
  function RetrievalTargets(intent: QueryIntent, linked: seq<string>): (r: seq<string>)
    ensures intent.targetEntities != [] ==> r == intent.targetEntities
    ensures intent.targetEntities == [] ==> r == linked
  {
    if intent.targetEntities == [] && linked != [] then linked else intent.targetEntities
  }

  /** The retrieval chosen for an intent, compared case-insensitively. */
  function Route(intent: QueryIntent, linked: seq<string>, s: Settings): (r: Retrieval)
    ensures r.NoRetrieval? <==> RetrievalTargets(intent, linked) == []
    ensures r.ShortestPaths? <==>
      Lower(intent.queryIntent) == "relationship_discovery" && |RetrievalTargets(intent, linked)| >= 2
    ensures r.ShortestPaths? ==>
      r == ShortestPaths(RetrievalTargets(intent, linked)[0], RetrievalTargets(intent, linked)[1],
                         s.relationshipDiscoveryMaxPathLength)
    ensures r.Neighbourhood? ==> r.names == RetrievalTargets(intent, linked)
    ensures r.Neighbourhood? ==>
      r.hopDepth == if Lower(intent.queryIntent) == "complex_reasoning" then s.complexQueryHopDepth
                    else s.entityInfoHopDepth
  {
    var targets := RetrievalTargets(intent, linked);
    if targets == [] then NoRetrieval
    else
      var kind := Lower(intent.queryIntent);
      if kind == "entity_information" || kind == "summarization_of_entity" then
        Neighbourhood(targets, s.entityInfoHopDepth)
      else if kind == "relationship_discovery" && |targets| >= 2 then
        ShortestPaths(targets[0], targets[1], s.relationshipDiscoveryMaxPathLength)
      else if kind == "complex_reasoning" then
        Neighbourhood(targets, s.complexQueryHopDepth)
      else
        Neighbourhood(targets, s.entityInfoHopDepth)
  }

  /** Intents that differ only in letter case are routed alike. */
  lemma RouteIgnoresCase(a: QueryIntent, b: QueryIntent, linked: seq<string>, s: Settings)
    requires Lower(a.queryIntent) == Lower(b.queryIntent) && a.targetEntities == b.targetEntities
    ensures Route(a, linked, s) == Route(b, linked, s)
  {
  }

  /** Without a classified intent but with linked names, the neighbourhood
      of the linked names is retrieved at the entity-information depth. */
  lemma DefaultIntentRetrieval(c: Classification, linked: seq<string>, s: Settings)
    requires !c.Classified? && linked != []
    ensures EffectiveIntent(c, linked).Some?
    ensures Route(EffectiveIntent(c, linked).value, linked, s) == Neighbourhood(linked, s.entityInfoHopDepth)
  {
    var kind := "entity_information";
    assert Lower(kind) == kind by {
      forall i | 0 <= i < |kind| ensures Lower(kind)[i] == kind[i] {
        assert !('A' <= kind[i] <= 'Z');
      }
    }
  }

  // ---- the whole query ----

  /** `QueryResponse`: the answer, the retrieved subgraph and the context
      text the answer was generated from. */
  datatype QueryResponse = QueryResponse(llmAnswer: string, subgraphContext: Subgraph, llmContextInputText: string)

  const EntityErrorAnswer: string :=
    "I encountered an issue trying to understand the entities in your query. Please try rephrasing."
  const EntityErrorContext: string := "Error: Could not extract entities from query."
  const IntentErrorAnswer: string :=
    "I'm having trouble understanding the intent of your query or linking it to known information. Could you please rephrase or be more specific?"
  const IntentErrorContext: string := "Error: Could not determine query intent and no entities linked."
  const GenerationFallbackAnswer: string :=
    "I encountered an issue while trying to formulate a response based on the available information."

  /** `process_user_query`. The collaborators: `extract` finds the entity
      strings of the question (None on failure), `search` is the entity
      search, `classify` the intent classifier, `retrieve` the graph query a
      retrieval stands for and `generate` the answering model (None on
      failure). `retrieval` tells which graph query was made. */
  method ProcessUserQuery(
    query: string, s: Settings,
    extract: string -> Option<seq<string>>,
    search: string -> seq<(string, real)>,
    classify: (string, seq<string>) -> Classification,
    retrieve: Retrieval -> Subgraph,
    generate: (string, string) -> Option<string>)
    returns (response: QueryResponse, retrieval: Retrieval)
    ensures extract(query).None? ==>
      response == QueryResponse(EntityErrorAnswer, EmptySubgraph(), EntityErrorContext) && retrieval == NoRetrieval
    ensures extract(query).Some? ==>
      var linked := LinkedNames(Links(extract(query).value, search, s.vectorMatchThreshold));
      var intent := EffectiveIntent(classify(query, linked), linked);
      && (intent.None? ==>
            response == QueryResponse(IntentErrorAnswer, EmptySubgraph(), IntentErrorContext)
            && retrieval == NoRetrieval)
      && (intent.Some? ==>
            && retrieval == Route(intent.value, linked, s)
            && response.subgraphContext == (if retrieval.NoRetrieval? then EmptySubgraph() else retrieve(retrieval))
            && response.llmContextInputText == ContextText(response.subgraphContext)
            && response.llmAnswer == generate(query, response.llmContextInputText).GetOr(GenerationFallbackAnswer))
  {
    retrieval := NoRetrieval;
    var extracted := extract(query);
    if extracted.None? {
      return QueryResponse(EntityErrorAnswer, EmptySubgraph(), EntityErrorContext), retrieval;
    }
    var links := LinkQueryEntities(extracted.value, search, s.vectorMatchThreshold);
    var linked := LinkedNames(links);
    var intent := EffectiveIntent(classify(query, linked), linked);
    if intent.None? {
      return QueryResponse(IntentErrorAnswer, EmptySubgraph(), IntentErrorContext), retrieval;
    }
    retrieval := Route(intent.value, linked, s);
    var subgraph := EmptySubgraph();
    if !retrieval.NoRetrieval? {
      subgraph := retrieve(retrieval);
    }
    var contextText := FormatSubgraphForLlmContext(subgraph);
    var answer := generate(query, contextText);
    var answerText := if answer.None? then GenerationFallbackAnswer else answer.value;
    response := QueryResponse(answerText, subgraph, contextText);
  }

  /** A question whose extracted entities cannot be linked and whose intent
      cannot be classified gets the fixed apology and no graph query. */
  lemma {:induction false} UnlinkedUnclassifiedIsRefused(texts: seq<string>, search: string -> seq<(string, real)>, threshold: real, c: Classification)
    requires forall i :: 0 <= i < |texts| ==> IsBlank(texts[i]) || search(texts[i]) == [] || search(texts[i])[0].1 > threshold
    requires !c.Classified?
    ensures LinkedNames(Links(texts, search, threshold)) == []
    ensures EffectiveIntent(c, LinkedNames(Links(texts, search, threshold))).None?
    decreases |texts|
  {
    if texts != [] {
      var init := texts[..|texts| - 1];
      UnlinkedUnclassifiedIsRefused(init, search, threshold, c);
      assert LinkOf(texts[|texts| - 1], search, threshold).None?;
    }
  }
}
