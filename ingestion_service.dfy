/** The ingestion pipeline for one document: the consolidation of per-chunk
    extractions into one record per entity and per relationship, the graph
    writes and their counts, the vector-store batch and the status updates
    of the file-metadata table. Parsing, chunking, the language model and
    the stores are collaborators given as values or function parameters. */
module IngestionService {
  import opened Common
  import opened Strings
  import opened Models
  import opened FileParser
  import opened FileTable

  // ---- entity consolidation ----

  /** One consolidated entity: the type of its first occurrence and the
      union of every occurrence's mention and contexts. */
  datatype EntityRecord = EntityRecord(
    canonicalName: string, entityType: string, originalMentions: set<string>, contexts: set<string>)

  /** Every canonical name that occurs. */
  function Names(es: seq<ExtractedEntity>): set<string> {
    set i | 0 <= i < |es| :: es[i].canonicalName
  }

  /** The mentions of every occurrence of `name`. */
  function MentionsOf(es: seq<ExtractedEntity>, name: string): set<string> {
    set i | 0 <= i < |es| && es[i].canonicalName == name :: es[i].originalMention
  }

  /** The contexts of every occurrence of `name`. */
  function ContextsOf(es: seq<ExtractedEntity>, name: string): set<string> {
    set i, c | 0 <= i < |es| && es[i].canonicalName == name && c in es[i].contexts :: c
  }

  /** The type of the first occurrence of `name`. */
  function FirstType(es: seq<ExtractedEntity>, name: string): string
    requires name in Names(es)
  {
    if es[0].canonicalName == name then es[0].entityType
    else
      assert name in Names(es[1..]) by {
        var i :| 0 <= i < |es| && es[i].canonicalName == name;
        assert es[1..][i - 1] == es[i];
      }
      FirstType(es[1..], name)
  }

  /** The canonical names in occurrence order (with repeats). */
  function CanonicalNames(es: seq<ExtractedEntity>): (r: seq<string>)
    ensures |r| == |es| && forall i :: 0 <= i < |es| ==> r[i] == es[i].canonicalName
  {
    seq(|es|, i requires 0 <= i < |es| => es[i].canonicalName)
  }

  lemma NamesAreCanonicalNames(es: seq<ExtractedEntity>)
    ensures forall n :: n in Names(es) <==> n in CanonicalNames(es)
  {
    var cn := CanonicalNames(es);
    forall n | n in cn ensures n in Names(es) {
      var i :| 0 <= i < |cn| && cn[i] == n;
      assert es[i].canonicalName == n;
    }
  }

  lemma NamesStep(s: seq<ExtractedEntity>, e: ExtractedEntity)
    ensures Names(s + [e]) == Names(s) + {e.canonicalName}
  {
    var t := s + [e];
    forall x | x in Names(t) ensures x in Names(s) + {e.canonicalName} {
      var i :| 0 <= i < |t| && t[i].canonicalName == x;
      if i < |s| { assert s[i] == t[i]; }
    }
    forall x | x in Names(s) ensures x in Names(t) {
      var i :| 0 <= i < |s| && s[i].canonicalName == x;
      assert t[i] == s[i];
    }
    assert t[|s|] == e;
  }

  lemma MentionsStep(s: seq<ExtractedEntity>, e: ExtractedEntity, name: string)
    ensures MentionsOf(s + [e], name) ==
      MentionsOf(s, name) + (if e.canonicalName == name then {e.originalMention} else {})
  {
    var t := s + [e];
    forall x | x in MentionsOf(t, name)
      ensures x in MentionsOf(s, name) + (if e.canonicalName == name then {e.originalMention} else {})
    {
      var i :| 0 <= i < |t| && t[i].canonicalName == name && t[i].originalMention == x;
      if i < |s| { assert s[i] == t[i]; }
    }
    forall x | x in MentionsOf(s, name) ensures x in MentionsOf(t, name) {
      var i :| 0 <= i < |s| && s[i].canonicalName == name && s[i].originalMention == x;
      assert t[i] == s[i];
    }
    assert t[|s|] == e;
  }

  lemma ContextsStep(s: seq<ExtractedEntity>, e: ExtractedEntity, name: string)
    ensures ContextsOf(s + [e], name) ==
      ContextsOf(s, name) + (if e.canonicalName == name then set c | c in e.contexts else {})
  {
    var t := s + [e];
    forall x | x in ContextsOf(t, name)
      ensures x in ContextsOf(s, name) + (if e.canonicalName == name then set c | c in e.contexts else {})
    {
      var i :| 0 <= i < |t| && t[i].canonicalName == name && x in t[i].contexts;
      if i < |s| { assert s[i] == t[i]; }
    }
    forall x | x in ContextsOf(s, name) ensures x in ContextsOf(t, name) {
      var i :| 0 <= i < |s| && s[i].canonicalName == name && x in s[i].contexts;
      assert t[i] == s[i];
    }
    if e.canonicalName == name {
      forall x | x in e.contexts ensures x in ContextsOf(t, name) {
        assert t[|s|] == e;
      }
    }
  }

  /** Occurrences after the first never change the recorded type. */
  lemma {:induction false} FirstTypeStable(s: seq<ExtractedEntity>, more: seq<ExtractedEntity>, name: string)
    requires name in Names(s)
    ensures name in Names(s + more)
    ensures FirstType(s + more, name) == FirstType(s, name)
    decreases |s|
  {
    var t := s + more;
    var i :| 0 <= i < |s| && s[i].canonicalName == name;
    assert t[i] == s[i];
    if s[0].canonicalName != name {
      assert s[1..][i - 1] == s[i];
      FirstTypeStable(s[1..], more, name);
      assert t[1..] == s[1..] + more;
    }
  }

  /** A name seen for the first time takes the type of that occurrence. */
  lemma {:induction false} FirstTypeOfNewName(s: seq<ExtractedEntity>, e: ExtractedEntity)
    requires e.canonicalName !in Names(s)
    ensures e.canonicalName in Names(s + [e])
    ensures FirstType(s + [e], e.canonicalName) == e.entityType
    decreases |s|
  {
    var t := s + [e];
    assert t[|s|] == e;
    if s != [] {
      assert s[0].canonicalName in Names(s);
      assert t[1..] == s[1..] + [e];
      assert e.canonicalName !in Names(s[1..]) by {
        forall i | 0 <= i < |s[1..]| ensures s[1..][i].canonicalName != e.canonicalName {
          assert s[1..][i] == s[i + 1];
        }
      }
      FirstTypeOfNewName(s[1..], e);
    }
  }

  /** The recorded type is that of the earliest occurrence of the name. */
  lemma {:induction false} FirstTypeIsEarliest(es: seq<ExtractedEntity>, name: string, k: nat)
    requires k < |es| && es[k].canonicalName == name
    requires forall j :: 0 <= j < k ==> es[j].canonicalName != name
    ensures name in Names(es)
    ensures FirstType(es, name) == es[k].entityType
    decreases k
  {
    if k > 0 {
      forall j | 0 <= j < k - 1 ensures es[1..][j].canonicalName != name {
        assert es[1..][j] == es[j + 1];
      }
      assert es[1..][k - 1] == es[k];
      FirstTypeIsEarliest(es[1..], name, k - 1);
    }
  }

  /** The record for `name` as consolidation defines it. */
  function EntityRecordOf(es: seq<ExtractedEntity>, name: string): EntityRecord
    requires name in Names(es)
  {
    EntityRecord(name, FirstType(es, name), MentionsOf(es, name), ContextsOf(es, name))
  }

  /** Adding an occurrence of a known name extends its mentions and
      contexts and keeps its type; other records are unchanged. */
  lemma EntityRecordStep(s: seq<ExtractedEntity>, e: ExtractedEntity, n: string)
    requires n in Names(s)
    ensures n in Names(s + [e])
    ensures EntityRecordOf(s + [e], n) ==
      if n == e.canonicalName then
        EntityRecordOf(s, n).(originalMentions := EntityRecordOf(s, n).originalMentions + {e.originalMention},
                              contexts := EntityRecordOf(s, n).contexts + set c | c in e.contexts)
      else EntityRecordOf(s, n)
  {
    NamesStep(s, e);
    MentionsStep(s, e, n);
    ContextsStep(s, e, n);
    FirstTypeStable(s, [e], n);
  }

  /** The first occurrence of a name creates its record from that
      occurrence alone. */
  lemma NewEntityRecord(s: seq<ExtractedEntity>, e: ExtractedEntity)
    requires e.canonicalName !in Names(s)
    ensures e.canonicalName in Names(s + [e])
    ensures EntityRecordOf(s + [e], e.canonicalName) ==
      EntityRecord(e.canonicalName, e.entityType, {e.originalMention}, set c | c in e.contexts)
  {
    var n := e.canonicalName;
    MentionsStep(s, e, n);
    ContextsStep(s, e, n);
    FirstTypeOfNewName(s, e);
    assert MentionsOf(s, n) == {};
    assert ContextsOf(s, n) == {};
  }

  /** `consolidated` and `order` are what consolidating `prefix` builds. */
  ghost predicate EntitiesSoFar(prefix: seq<ExtractedEntity>, consolidated: map<string, EntityRecord>, order: seq<string>) {
    && consolidated.Keys == Names(prefix)
    && (forall n :: n in consolidated ==> consolidated[n] == EntityRecordOf(prefix, n))
    && order == Dedup(CanonicalNames(prefix))
  }

  /** One iteration of `_consolidate_entities`: a new name gets a record of
      its own, a known name's record takes in the mention and contexts. */
  method AddEntity(prefix: seq<ExtractedEntity>, entity: ExtractedEntity,
                   consolidated: map<string, EntityRecord>, order: seq<string>)
    returns (consolidated': map<string, EntityRecord>, order': seq<string>)
    requires EntitiesSoFar(prefix, consolidated, order)
    ensures EntitiesSoFar(prefix + [entity], consolidated', order')
  {
    NamesStep(prefix, entity);
    assert CanonicalNames(prefix + [entity]) == CanonicalNames(prefix) + [entity.canonicalName];
    NamesAreCanonicalNames(prefix);
    forall n | n in consolidated
      ensures EntityRecordOf(prefix + [entity], n) ==
        if n == entity.canonicalName then
          consolidated[n].(originalMentions := consolidated[n].originalMentions + {entity.originalMention},
                           contexts := consolidated[n].contexts + set c | c in entity.contexts)
        else consolidated[n]
    {
      EntityRecordStep(prefix, entity, n);
    }
    if entity.canonicalName !in consolidated {
      NewEntityRecord(prefix, entity);
      consolidated' := consolidated[entity.canonicalName := EntityRecord(
        entity.canonicalName, entity.entityType, {entity.originalMention}, set c | c in entity.contexts)];
      order' := order + [entity.canonicalName];
    } else {
      var data := consolidated[entity.canonicalName];
      consolidated' := consolidated[entity.canonicalName := data.(
        originalMentions := data.originalMentions + {entity.originalMention},
        contexts := data.contexts + set c | c in entity.contexts)];
      order' := order;
    }
  }

  /** `_consolidate_entities`: exactly one record per distinct canonical
      name, keyed by that name, with the first occurrence's type and the
      unions of all mentions and contexts; `order` is the dictionary's
      insertion order, each name at its first occurrence. */
  method ConsolidateEntities(entities: seq<ExtractedEntity>)
    returns (consolidated: map<string, EntityRecord>, order: seq<string>)
    ensures consolidated.Keys == Names(entities)
    ensures forall n :: n in consolidated ==> consolidated[n] == EntityRecordOf(entities, n)
    ensures order == Dedup(CanonicalNames(entities))
  {
    consolidated := map[];
    order := [];
    var i := 0;
    while i < |entities|
      invariant 0 <= i <= |entities|
      invariant EntitiesSoFar(entities[..i], consolidated, order)
    {
      assert entities[..i + 1] == entities[..i] + [entities[i]];
      consolidated, order := AddEntity(entities[..i], entities[i], consolidated, order);
      i := i + 1;
    }
    assert entities[..i] == entities;
  }

  // ---- relationship consolidation ----

  /** (source canonical name, relationship type, target canonical name) */
  type RelKey = (string, string, string)

  function KeyOf(r: ExtractedRelationship): RelKey {
    (r.sourceCanonicalName, r.relationshipType, r.targetCanonicalName)
  }

  datatype RelationshipRecord = RelationshipRecord(
    sourceCanonicalName: string, relationshipType: string, targetCanonicalName: string, contexts: set<string>)

  /** Every key that occurs. */
  function RelKeys(rs: seq<ExtractedRelationship>): set<RelKey> {
    set i | 0 <= i < |rs| :: KeyOf(rs[i])
  }

  /** The contexts of every occurrence of the key. */
  function RelContextsOf(rs: seq<ExtractedRelationship>, k: RelKey): set<string> {
    set i, c | 0 <= i < |rs| && KeyOf(rs[i]) == k && c in rs[i].contexts :: c
  }

  /** The keys in occurrence order (with repeats). */
  function KeySequence(rs: seq<ExtractedRelationship>): (r: seq<RelKey>)
    ensures |r| == |rs| && forall i :: 0 <= i < |rs| ==> r[i] == KeyOf(rs[i])
  {
    seq(|rs|, i requires 0 <= i < |rs| => KeyOf(rs[i]))
  }

  /** The record for key `k` as consolidation defines it. */
  function RelationshipRecordOf(rs: seq<ExtractedRelationship>, k: RelKey): RelationshipRecord {
    RelationshipRecord(k.0, k.1, k.2, RelContextsOf(rs, k))
  }

  lemma RelKeysAreKeySequence(rs: seq<ExtractedRelationship>)
    ensures forall k :: k in RelKeys(rs) <==> k in KeySequence(rs)
  {
    var ks := KeySequence(rs);
    forall k | k in ks ensures k in RelKeys(rs) {
      var i :| 0 <= i < |ks| && ks[i] == k;
      assert KeyOf(rs[i]) == k;
    }
  }

  lemma RelKeysStep(s: seq<ExtractedRelationship>, r: ExtractedRelationship)
    ensures RelKeys(s + [r]) == RelKeys(s) + {KeyOf(r)}
  {
    var t := s + [r];
    forall x | x in RelKeys(t) ensures x in RelKeys(s) + {KeyOf(r)} {
      var i :| 0 <= i < |t| && KeyOf(t[i]) == x;
      if i < |s| { assert s[i] == t[i]; }
    }
    forall x | x in RelKeys(s) ensures x in RelKeys(t) {
      var i :| 0 <= i < |s| && KeyOf(s[i]) == x;
      assert t[i] == s[i];
    }
    assert t[|s|] == r;
  }

  lemma RelContextsStep(s: seq<ExtractedRelationship>, r: ExtractedRelationship, k: RelKey)
    ensures RelContextsOf(s + [r], k) ==
      RelContextsOf(s, k) + (if KeyOf(r) == k then set c | c in r.contexts else {})
  {
    var t := s + [r];
    forall x | x in RelContextsOf(t, k)
      ensures x in RelContextsOf(s, k) + (if KeyOf(r) == k then set c | c in r.contexts else {})
    {
      var i :| 0 <= i < |t| && KeyOf(t[i]) == k && x in t[i].contexts;
      if i < |s| { assert s[i] == t[i]; }
    }
    forall x | x in RelContextsOf(s, k) ensures x in RelContextsOf(t, k) {
      var i :| 0 <= i < |s| && KeyOf(s[i]) == k && x in s[i].contexts;
      assert t[i] == s[i];
    }
    if KeyOf(r) == k {
      forall x | x in r.contexts ensures x in RelContextsOf(t, k) {
        assert t[|s|] == r;
      }
    }
  }

  /** `consolidated` and `order` are what consolidating `prefix` builds. */
  ghost predicate RelationshipsSoFar(prefix: seq<ExtractedRelationship>,
                                     consolidated: map<RelKey, RelationshipRecord>, order: seq<RelKey>) {
    && consolidated.Keys == RelKeys(prefix)
    && (forall k :: k in consolidated ==> consolidated[k] == RelationshipRecordOf(prefix, k))
    && order == Dedup(KeySequence(prefix))
  }

  /** One iteration of `_consolidate_relationships`: a new triple gets a
      record of its own, a known triple's record takes in the contexts. */
  method AddRelationship(prefix: seq<ExtractedRelationship>, rel: ExtractedRelationship,
                         consolidated: map<RelKey, RelationshipRecord>, order: seq<RelKey>)
    returns (consolidated': map<RelKey, RelationshipRecord>, order': seq<RelKey>)
    requires RelationshipsSoFar(prefix, consolidated, order)
    ensures RelationshipsSoFar(prefix + [rel], consolidated', order')
  {
    RelKeysStep(prefix, rel);
    assert KeySequence(prefix + [rel]) == KeySequence(prefix) + [KeyOf(rel)];
    RelKeysAreKeySequence(prefix);
    forall k | k in consolidated
      ensures RelationshipRecordOf(prefix + [rel], k) ==
        if k == KeyOf(rel) then consolidated[k].(contexts := consolidated[k].contexts + set c | c in rel.contexts)
        else consolidated[k]
    {
      RelContextsStep(prefix, rel, k);
    }
    var key := KeyOf(rel);
    if key !in consolidated {
      RelContextsStep(prefix, rel, key);
      assert RelContextsOf(prefix, key) == {};
      consolidated' := consolidated[key := RelationshipRecord(
        rel.sourceCanonicalName, rel.relationshipType, rel.targetCanonicalName, set c | c in rel.contexts)];
      order' := order + [key];
    } else {
      consolidated' := consolidated[key := consolidated[key].(
        contexts := consolidated[key].contexts + set c | c in rel.contexts)];
      order' := order;
    }
  }

  /** `_consolidate_relationships`: exactly one record per distinct
      (source, type, target) triple, holding the union of the contexts of
      all its occurrences; `order` is the insertion order. */
  method ConsolidateRelationships(relationships: seq<ExtractedRelationship>)
    returns (consolidated: map<RelKey, RelationshipRecord>, order: seq<RelKey>)
    ensures consolidated.Keys == RelKeys(relationships)
    ensures forall k :: k in consolidated ==> consolidated[k] == RelationshipRecordOf(relationships, k)
    ensures order == Dedup(KeySequence(relationships))
  {
    consolidated := map[];
    order := [];
    var i := 0;
    while i < |relationships|
      invariant 0 <= i <= |relationships|
      invariant RelationshipsSoFar(relationships[..i], consolidated, order)
    {
      assert relationships[..i + 1] == relationships[..i] + [relationships[i]];
      consolidated, order := AddRelationship(relationships[..i], relationships[i], consolidated, order);
      i := i + 1;
    }
    assert relationships[..i] == relationships;
  }

  // ---- graph writes ----

  /** The number of items the collaborator reports as merged. */
  function SuccessCount<T>(items: seq<T>, ok: T -> bool): (n: nat)
    ensures n <= |items|
  {
    if items == [] then 0
    else SuccessCount(items[..|items| - 1], ok) + (if ok(items[|items| - 1]) then 1 else 0)
  }

  /** One `merge_entity` call: type, canonical name and its properties. */
  datatype EntityWrite = EntityWrite(
    entityType: string, canonicalName: string, originalMentions: set<string>, contexts: set<string>,
    sourceDocumentFilename: string)

  function EntityWriteOf(r: EntityRecord, filename: string): EntityWrite {
    EntityWrite(r.entityType, r.canonicalName, r.originalMentions, r.contexts, filename)
  }

  /** Step 5, entities: one merge per consolidated entity, in order,
      counting only the merges that report success. */
  method MergeEntities(records: seq<EntityRecord>, filename: string, merge: EntityWrite -> bool)
    returns (count: nat, writes: seq<EntityWrite>)
    ensures |writes| == |records|
    ensures forall i :: 0 <= i < |records| ==> writes[i] == EntityWriteOf(records[i], filename)
    ensures count == SuccessCount(writes, merge) && count <= |records|
  {
    count := 0;
    writes := [];
    var i := 0;
    while i < |records|
      invariant 0 <= i <= |records|
      invariant |writes| == i
      invariant forall j :: 0 <= j < i ==> writes[j] == EntityWriteOf(records[j], filename)
      invariant count == SuccessCount(writes, merge)
    {
      var w := EntityWriteOf(records[i], filename);
      assert (writes + [w])[..i] == writes;
      writes := writes + [w];
      if merge(w) {
        count := count + 1;
      }
      i := i + 1;
    }
  }

  /** One `merge_relationship` call. */
  datatype RelationshipWrite = RelationshipWrite(
    sourceType: string, sourceCanonicalName: string, targetType: string, targetCanonicalName: string,
    relationshipType: string, contexts: set<string>, sourceDocumentFilename: string)

  /** `consolidated.get(name, {}).get("entity_type")` read for truthiness:
      "" when the name is not a consolidated entity. */
  function KnownType(entities: map<string, EntityRecord>, name: string): (t: string)
    ensures name !in entities ==> t == ""
  {
    if name in entities then entities[name].entityType else ""
  }

  /** A relationship is written only when both endpoints have a non-empty type. */
  predicate Writable(r: RelationshipRecord, entities: map<string, EntityRecord>) {
    KnownType(entities, r.sourceCanonicalName) != "" && KnownType(entities, r.targetCanonicalName) != ""
  }

  function RelationshipWriteOf(r: RelationshipRecord, entities: map<string, EntityRecord>, filename: string): RelationshipWrite {
    RelationshipWrite(KnownType(entities, r.sourceCanonicalName), r.sourceCanonicalName,
      KnownType(entities, r.targetCanonicalName), r.targetCanonicalName,
      r.relationshipType, r.contexts, filename)
  }

  /** The merge calls step 5 makes for relationships, in order. */
  function RelationshipWrites(records: seq<RelationshipRecord>, entities: map<string, EntityRecord>, filename: string)
    : (ws: seq<RelationshipWrite>)
    ensures |ws| <= |records|
  {
    if records == [] then []
    else
      var init := records[..|records| - 1];
      var last := records[|records| - 1];
      RelationshipWrites(init, entities, filename)
        + (if Writable(last, entities) then [RelationshipWriteOf(last, entities, filename)] else [])
  }

  /** Every relationship written joins two consolidated entities and
      carries their types. */
  lemma {:induction false} RelationshipWritesSound(
    records: seq<RelationshipRecord>, entities: map<string, EntityRecord>, filename: string)
    ensures forall w :: w in RelationshipWrites(records, entities, filename) ==>
      && w.sourceCanonicalName in entities && w.targetCanonicalName in entities
      && w.sourceType == entities[w.sourceCanonicalName].entityType != ""
      && w.targetType == entities[w.targetCanonicalName].entityType != ""
      && w.sourceDocumentFilename == filename
    decreases |records|
  {
    if records != [] {
      RelationshipWritesSound(records[..|records| - 1], entities, filename);
    }
  }

  /** Every relationship whose endpoints are both known is written. */
  lemma {:induction false} RelationshipWritesComplete(
    records: seq<RelationshipRecord>, entities: map<string, EntityRecord>, filename: string)
    ensures forall r :: r in records && Writable(r, entities) ==>
      RelationshipWriteOf(r, entities, filename) in RelationshipWrites(records, entities, filename)
    decreases |records|
  {
    if records != [] {
      var init := records[..|records| - 1];
      assert records == init + [records[|records| - 1]];
      RelationshipWritesComplete(init, entities, filename);
    }
  }

  /** Step 5, relationships: a relationship with an unknown endpoint is
      skipped and not counted; the count covers only successful merges. */
  method MergeRelationships(
    records: seq<RelationshipRecord>, entities: map<string, EntityRecord>, filename: string,
    merge: RelationshipWrite -> bool)
    returns (count: nat, writes: seq<RelationshipWrite>)
    ensures writes == RelationshipWrites(records, entities, filename)
    ensures count == SuccessCount(writes, merge) && count <= |records|
  {
    count := 0;
    writes := [];
    var i := 0;
    while i < |records|
      invariant 0 <= i <= |records|
      invariant writes == RelationshipWrites(records[..i], entities, filename)
      invariant count == SuccessCount(writes, merge)
    {
      var rel := records[i];
      assert records[..i + 1][..i] == records[..i];
      var sourceType := KnownType(entities, rel.sourceCanonicalName);
      var targetType := KnownType(entities, rel.targetCanonicalName);
      if sourceType == "" || targetType == "" {
        i := i + 1;
        continue;
      }
      var w := RelationshipWrite(sourceType, rel.sourceCanonicalName, targetType, rel.targetCanonicalName,
        rel.relationshipType, rel.contexts, filename);
      assert (writes + [w])[..|writes|] == writes;
      writes := writes + [w];
      if merge(w) {
        count := count + 1;
      }
      i := i + 1;
    }
    assert records[..i] == records;
  }

  /** Each relationship written is the write of a record that is writable. */
  lemma {:induction false} RelationshipWritesFromRecords(
    records: seq<RelationshipRecord>, entities: map<string, EntityRecord>, filename: string)
    ensures forall w :: w in RelationshipWrites(records, entities, filename) ==>
      exists r :: r in records && Writable(r, entities) && w == RelationshipWriteOf(r, entities, filename)
    decreases |records|
  {
    if records != [] {
      var init := records[..|records| - 1];
      var last := records[|records| - 1];
      RelationshipWritesFromRecords(init, entities, filename);
      forall w | w in RelationshipWrites(records, entities, filename)
        ensures exists r :: r in records && Writable(r, entities) && w == RelationshipWriteOf(r, entities, filename)
      {
        if w in RelationshipWrites(init, entities, filename) {
          var r :| r in init && Writable(r, entities) && w == RelationshipWriteOf(r, entities, filename);
          assert r in records by {
            var k :| 0 <= k < |init| && init[k] == r;
            assert records[k] == r;
          }
        } else {
          assert w == RelationshipWriteOf(last, entities, filename);
        }
      }
    }
  }

  // ---- the writes a document's extractions call for ----

  /** The consolidated entities, keyed by canonical name. */
  function ConsolidatedEntities(es: seq<ExtractedEntity>): map<string, EntityRecord> {
    map n | n in Names(es) :: EntityRecordOf(es, n)
  }

  /** The entity merges of step 5: one per distinct canonical name, in order
      of first occurrence, each carrying that name's consolidated record. */
  function EntityWritesOf(es: seq<ExtractedEntity>, filename: string): seq<EntityWrite> {
    var order := Dedup(CanonicalNames(es));
    NamesAreCanonicalNames(es);
    seq(|order|, i requires 0 <= i < |order| => EntityWriteOf(EntityRecordOf(es, order[i]), filename))
  }

  /** The consolidated relationships, one per distinct key in order of first
      occurrence. */
  function RelationshipRecordsOf(rs: seq<ExtractedRelationship>): seq<RelationshipRecord> {
    var order := Dedup(KeySequence(rs));
    seq(|order|, i requires 0 <= i < |order| => RelationshipRecordOf(rs, order[i]))
  }

  /** The relationship merges of step 5 for the parsed chunks. */
  function RelationshipWritesOf(items: seq<ChunkExtraction>, filename: string): seq<RelationshipWrite> {
    RelationshipWrites(RelationshipRecordsOf(AllRelationships(items)), ConsolidatedEntities(AllEntities(items)), filename)
  }

  /** A map that holds exactly the consolidated records is the consolidated map. */
  lemma ConsolidatedEntitiesUnique(m: map<string, EntityRecord>, es: seq<ExtractedEntity>)
    requires m.Keys == Names(es)
    requires forall n :: n in m ==> m[n] == EntityRecordOf(es, n)
    ensures m == ConsolidatedEntities(es)
  {
  }

  /** Merging the consolidated records in first-occurrence order makes the
      entity writes of step 5. */
  lemma EntityMergesAsConsolidated(
    es: seq<ExtractedEntity>, m: map<string, EntityRecord>, order: seq<string>,
    records: seq<EntityRecord>, writes: seq<EntityWrite>, filename: string)
    requires m.Keys == Names(es)
    requires forall n :: n in m ==> m[n] == EntityRecordOf(es, n)
    requires order == Dedup(CanonicalNames(es))
    requires |records| == |order| && forall i :: 0 <= i < |order| ==> order[i] in m && records[i] == m[order[i]]
    requires |writes| == |records| && forall i :: 0 <= i < |records| ==> writes[i] == EntityWriteOf(records[i], filename)
    ensures writes == EntityWritesOf(es, filename)
  {
    var expected := EntityWritesOf(es, filename);
    assert |writes| == |expected|;
    forall i | 0 <= i < |writes| ensures writes[i] == expected[i] {
      assert records[i] == EntityRecordOf(es, order[i]);
    }
  }

  /** The consolidated relationship records in insertion order are those
      of `RelationshipRecordsOf`. */
  lemma RelationshipRecordsAsConsolidated(
    rs: seq<ExtractedRelationship>, m: map<RelKey, RelationshipRecord>, order: seq<RelKey>,
    records: seq<RelationshipRecord>)
    requires forall k :: k in m ==> m[k] == RelationshipRecordOf(rs, k)
    requires order == Dedup(KeySequence(rs))
    requires |records| == |order| && forall i :: 0 <= i < |order| ==> order[i] in m && records[i] == m[order[i]]
    ensures records == RelationshipRecordsOf(rs)
  {
  }

  /** Exactly one entity write per distinct canonical name, each holding
      the name's first type and all of its mentions and contexts, for this
      document. */
  lemma EntityWritesOfDistinct(es: seq<ExtractedEntity>, filename: string)
    ensures var ws := EntityWritesOf(es, filename);
      && |ws| == |Names(es)|
      && (forall i, j :: 0 <= i < j < |ws| ==> ws[i].canonicalName != ws[j].canonicalName)
      && (forall w :: w in ws ==>
            w.canonicalName in Names(es) && w == EntityWriteOf(EntityRecordOf(es, w.canonicalName), filename))
      && (forall n :: n in Names(es) ==> exists w :: w in ws && w.canonicalName == n)
  {
    var ws := EntityWritesOf(es, filename);
    var order := Dedup(CanonicalNames(es));
    NamesAreCanonicalNames(es);
    assert forall i :: 0 <= i < |ws| ==> ws[i].canonicalName == order[i];
    assert (set x | x in order) == Names(es);
    DistinctCardinality(order);
    forall n | n in Names(es) ensures exists w :: w in ws && w.canonicalName == n {
      var i :| 0 <= i < |order| && order[i] == n;
      assert ws[i] in ws;
    }
  }

  /** Every relationship write is a consolidated relationship, with its
      contexts, between two consolidated entities of non-empty type, and
      carries those types; and every consolidated relationship whose two
      endpoints are such entities is written. */
  lemma RelationshipWritesOfSoundComplete(items: seq<ChunkExtraction>, filename: string)
    ensures var es := AllEntities(items); var rs := AllRelationships(items);
      var ws := RelationshipWritesOf(items, filename);
      && |ws| <= |RelKeys(rs)|
      && (forall w :: w in ws ==>
            && KeyOf3(w) in RelKeys(rs) && w.contexts == RelContextsOf(rs, KeyOf3(w))
            && w.sourceCanonicalName in Names(es) && w.targetCanonicalName in Names(es)
            && w.sourceType == FirstType(es, w.sourceCanonicalName) != ""
            && w.targetType == FirstType(es, w.targetCanonicalName) != ""
            && w.sourceDocumentFilename == filename)
      && (forall k ::
            (k in RelKeys(rs) && k.0 in Names(es) && k.2 in Names(es)
             && FirstType(es, k.0) != "" && FirstType(es, k.2) != "") ==>
            RelationshipWriteOf(RelationshipRecordOf(rs, k), ConsolidatedEntities(es), filename) in ws)
  {
    var es := AllEntities(items);
    var rs := AllRelationships(items);
    var entities := ConsolidatedEntities(es);
    var records := RelationshipRecordsOf(rs);
    var order := Dedup(KeySequence(rs));
    RelKeysAreKeySequence(rs);
    assert (set x | x in order) == RelKeys(rs);
    DistinctCardinality(order);
    RelationshipWritesFromRecords(records, entities, filename);
    RelationshipWritesComplete(records, entities, filename);
    forall w | w in RelationshipWritesOf(items, filename)
      ensures KeyOf3(w) in RelKeys(rs) && w.contexts == RelContextsOf(rs, KeyOf3(w))
    {
      var r :| r in records && Writable(r, entities) && w == RelationshipWriteOf(r, entities, filename);
      var i :| 0 <= i < |records| && records[i] == r;
      assert order[i] in order;
    }
    forall k | k in RelKeys(rs) && k.0 in Names(es) && k.2 in Names(es)
        && FirstType(es, k.0) != "" && FirstType(es, k.2) != ""
      ensures RelationshipWriteOf(RelationshipRecordOf(rs, k), entities, filename) in RelationshipWritesOf(items, filename)
    {
      var i :| 0 <= i < |order| && order[i] == k;
      assert records[i] == RelationshipRecordOf(rs, k);
    }
  }

  /** The (source, type, target) key of a relationship write. */
  function KeyOf3(w: RelationshipWrite): RelKey {
    (w.sourceCanonicalName, w.relationshipType, w.targetCanonicalName)
  }

  // ---- per-chunk extraction ----

  /** What the language model gave for one chunk: nothing (None or an empty
      dictionary), output that fails validation, or a valid extraction. */
  datatype ExtractionOutcome = NoOutput | InvalidOutput | Extracted(data: LLMExtractionOutput)

  datatype ChunkExtraction = ChunkExtraction(chunkText: string, extractedData: LLMExtractionOutput)

  /** The chunks whose extraction is valid, in chunk order. */
  function ParsedChunks(chunks: seq<string>, extract: string -> ExtractionOutcome): (items: seq<ChunkExtraction>)
    ensures |items| <= |chunks|
    ensures forall it :: it in items ==> it.chunkText in chunks && extract(it.chunkText) == Extracted(it.extractedData)
  {
    if chunks == [] then []
    else
      var init := chunks[..|chunks| - 1];
      var last := chunks[|chunks| - 1];
      var items := ParsedChunks(init, extract);
      match extract(last)
      case Extracted(data) => items + [ChunkExtraction(last, data)]
      case _ => items
  }

  /** No chunk parsed exactly when no extraction is valid. */
  lemma {:induction false} NoParsedChunks(chunks: seq<string>, extract: string -> ExtractionOutcome)
    ensures ParsedChunks(chunks, extract) == [] <==> forall c :: c in chunks ==> !extract(c).Extracted?
    decreases |chunks|
  {
    if chunks != [] {
      var init := chunks[..|chunks| - 1];
      assert chunks == init + [chunks[|chunks| - 1]];
      NoParsedChunks(init, extract);
    }
  }

  /** Step 3: one extraction call per chunk, keeping the valid ones. */
  method ExtractChunks(chunks: seq<string>, extract: string -> ExtractionOutcome)
    returns (items: seq<ChunkExtraction>)
    ensures items == ParsedChunks(chunks, extract)
  {
    items := [];
    var i := 0;
    while i < |chunks|
      invariant 0 <= i <= |chunks|
      invariant items == ParsedChunks(chunks[..i], extract)
    {
      assert chunks[..i + 1][..i] == chunks[..i];
      match extract(chunks[i]) {
        case Extracted(data) =>
          items := items + [ChunkExtraction(chunks[i], data)];
        case _ =>
      }
      i := i + 1;
    }
    assert chunks[..i] == chunks;
  }

  /** All entities of all parsed chunks, chunk by chunk. */
  function AllEntities(items: seq<ChunkExtraction>): seq<ExtractedEntity> {
    if items == [] then [] else AllEntities(items[..|items| - 1]) + items[|items| - 1].extractedData.entities
  }

  /** All relationships of all parsed chunks, chunk by chunk. */
  function AllRelationships(items: seq<ChunkExtraction>): seq<ExtractedRelationship> {
    if items == [] then [] else AllRelationships(items[..|items| - 1]) + items[|items| - 1].extractedData.relationships
  }

  // ---- vector-store batch ----

  /** One vector-store record: the chunk text, the document and the
      distinct canonical names of the chunk's entities. */
  datatype ChunkRecord = ChunkRecord(chunkText: string, sourceDocument: string, entityIds: seq<string>)

  /** Step 6: one record per parsed chunk, in chunk order, each naming the
      document and listing each of the chunk's entities once. */
  method BuildVectorBatch(items: seq<ChunkExtraction>, filename: string) returns (batch: seq<ChunkRecord>)
    ensures |batch| == |items|
    ensures forall i :: 0 <= i < |items| ==>
      && batch[i].chunkText == items[i].chunkText
      && batch[i].sourceDocument == filename
      && NoDuplicates(batch[i].entityIds)
      && (forall n :: n in batch[i].entityIds <==> n in Names(items[i].extractedData.entities))
  {
    batch := [];
    var i := 0;
    while i < |items|
      invariant 0 <= i <= |items|
      invariant |batch| == i
      invariant forall j :: 0 <= j < i ==>
        && batch[j].chunkText == items[j].chunkText
        && batch[j].sourceDocument == filename
        && NoDuplicates(batch[j].entityIds)
        && (forall n :: n in batch[j].entityIds <==> n in Names(items[j].extractedData.entities))
    {
      var entities := items[i].extractedData.entities;
      var entityIds := Dedup(CanonicalNames(entities));
      NamesAreCanonicalNames(entities);
      batch := batch + [ChunkRecord(items[i].chunkText, filename, entityIds)];
      i := i + 1;
    }
  }

  // ---- the whole pipeline ----

  const NoTextMessage: string := "No text content found in file."
  const NoChunksMessage: string := "No text chunks could be generated from the document."
  const AllChunksFailedMessage: string := "LLM extraction failed for all chunks. No graph data to add."
  const SuccessMessage: string := "Document processed and ingested successfully."

  /** The status update that records a failure with its message. */
  function FailedUpdate(message: string): StatusUpdate {
    StatusUpdate("Failed", [("error_message", SqlText(message))])
  }

  /** What the semantic splitter gave: its chunks, or the message of the
      `ValueError` or of any other exception that building the embeddings
      model or splitting raised. */
  datatype ChunkingOutcome = Chunks(chunks: seq<string>) | ChunkingValueError(message: string) | ChunkingRaised(message: string)

  /** The status of a run stopped by an exception outside the parsing
      errors. */
  function UnexpectedFailure(filename: string, e: string): IngestionStatus {
    StatusWithMessage(filename, "Failed", "An unexpected error occurred: " + e)
  }

  /** Whether the pipeline gets past steps 2 and 3: the file opened, its
      text was extracted and is not blank, the splitter gave chunks and at
      least one chunk's extraction validated. */
  predicate Ingestible(openError: Option<string>, parse: ParseResult, chunker: string -> ChunkingOutcome,
                       extract: string -> ExtractionOutcome) {
    && openError.None? && parse.Parsed? && !IsBlank(parse.text) && chunker(parse.text).Chunks?
    && ParsedChunks(chunker(parse.text).chunks, extract) != []
  }

  /** What steps 4 to 6 promise: the entity writes are exactly the
      consolidated entities in first-occurrence order, the relationship
      writes exactly those of the consolidated relationships whose endpoints
      are typed entities, and the batch holds one record per parsed chunk
      for this document listing each of the chunk's names once. */
  ghost predicate WritesAsConsolidated(
    filename: string, items: seq<ChunkExtraction>, entityWrites: seq<EntityWrite>,
    relationshipWrites: seq<RelationshipWrite>, batch: seq<ChunkRecord>)
  {
    && entityWrites == EntityWritesOf(AllEntities(items), filename)
    && relationshipWrites == RelationshipWritesOf(items, filename)
    && |batch| == |items|
    && forall i :: 0 <= i < |items| ==>
      && batch[i].chunkText == items[i].chunkText
      && batch[i].sourceDocument == filename
      && NoDuplicates(batch[i].entityIds)
      && (forall n :: n in batch[i].entityIds <==> n in Names(items[i].extractedData.entities))
  }

  /** Steps 4 to 6 for the parsed chunks: consolidate, write the graph
      (counting successful merges) and build the vector-store batch. */
  method StoreExtractions(
    filename: string, items: seq<ChunkExtraction>,
    mergeEntity: EntityWrite -> bool, mergeRelationship: RelationshipWrite -> bool)
    returns (entitiesAdded: nat, relsAdded: nat, entityWrites: seq<EntityWrite>,
             relationshipWrites: seq<RelationshipWrite>, batch: seq<ChunkRecord>)
    ensures WritesAsConsolidated(filename, items, entityWrites, relationshipWrites, batch)
    ensures entitiesAdded == SuccessCount(entityWrites, mergeEntity) <= |Names(AllEntities(items))|
    ensures relsAdded == SuccessCount(relationshipWrites, mergeRelationship) <= |RelKeys(AllRelationships(items))|
  {
    var allEntities := AllEntities(items);
    var allRelationships := AllRelationships(items);
    var entityMap, entityOrder := ConsolidateEntities(allEntities);
    var relMap, relOrder := ConsolidateRelationships(allRelationships);
    var entityRecords := ValuesInOrder(entityMap, entityOrder);
    var relRecords := ValuesInOrder(relMap, relOrder);
    entitiesAdded, entityWrites := MergeEntities(entityRecords, filename, mergeEntity);
    relsAdded, relationshipWrites := MergeRelationships(relRecords, entityMap, filename, mergeRelationship);
    batch := BuildVectorBatch(items, filename);

    // the merges are those the consolidated data calls for
    EntityMergesAsConsolidated(allEntities, entityMap, entityOrder, entityRecords, entityWrites, filename);
    RelationshipRecordsAsConsolidated(allRelationships, relMap, relOrder, relRecords);
    ConsolidatedEntitiesUnique(entityMap, allEntities);
    EntityWritesOfDistinct(allEntities, filename);
    RelationshipWritesOfSoundComplete(items, filename);
  }

  /** `process_document_for_ingestion`. `openError` is the message of the
      exception opening the stored file raised (None when it opened),
      `parse` what text extraction gave for it, `chunker` the semantic
      splitter, `extract` the language model, `mergeEntity` and
      `mergeRelationship` the graph store's answers, and `addBatch` the
      vector store's, None when the batch was added and otherwise the
      message of the exception it raised. Returns the final status, the
      status-table updates in call order, the graph writes and the batch. */
  method ProcessDocument(
    filename: string, openError: Option<string>, parse: ParseResult, chunker: string -> ChunkingOutcome,
    extract: string -> ExtractionOutcome,
    mergeEntity: EntityWrite -> bool, mergeRelationship: RelationshipWrite -> bool,
    addBatch: seq<ChunkRecord> -> Option<string>)
    returns (status: IngestionStatus, updates: seq<StatusUpdate>,
             entityWrites: seq<EntityWrite>, relationshipWrites: seq<RelationshipWrite>,
             batch: seq<ChunkRecord>)
    ensures |updates| == 2 && updates[0] == StatusUpdate("Processing", [])
    ensures status.filename == filename
    ensures openError.Some? ==>
      status == UnexpectedFailure(filename, openError.value)
      && updates[1] == FailedUpdate("Unexpected error: " + openError.value)
    ensures openError.None? && parse.Failed? ==>
      && status == StatusWithMessage(filename, "Failed", "File processing error: " + ErrorMessage(parse.error))
      && updates[1] == FailedUpdate(ErrorMessage(parse.error))
    ensures openError.None? && parse.Parsed? && IsBlank(parse.text) ==>
      status == StatusWithMessage(filename, "Failed", NoTextMessage) && updates[1] == FailedUpdate(NoTextMessage)
    ensures openError.None? && parse.Parsed? && !IsBlank(parse.text) && chunker(parse.text).ChunkingValueError? ==>
      var e := chunker(parse.text).message;
      status == StatusWithMessage(filename, "Failed", "File processing error: " + e) && updates[1] == FailedUpdate(e)
    ensures openError.None? && parse.Parsed? && !IsBlank(parse.text) && chunker(parse.text).ChunkingRaised? ==>
      var e := chunker(parse.text).message;
      status == UnexpectedFailure(filename, e) && updates[1] == FailedUpdate("Unexpected error: " + e)
    ensures openError.None? && parse.Parsed? && !IsBlank(parse.text) && chunker(parse.text) == Chunks([]) ==>
      status == StatusWithMessage(filename, "Failed", NoChunksMessage) && updates[1] == FailedUpdate(NoChunksMessage)
    ensures openError.None? && parse.Parsed? && !IsBlank(parse.text) && chunker(parse.text).Chunks?
            && chunker(parse.text).chunks != [] && ParsedChunks(chunker(parse.text).chunks, extract) == [] ==>
      status == StatusWithMessage(filename, "Failed", AllChunksFailedMessage)
      && updates[1] == FailedUpdate(AllChunksFailedMessage)
    ensures status.status == "Completed" <==> Ingestible(openError, parse, chunker, extract) && addBatch(batch).None?
    ensures status.status != "Completed" ==> status.status == "Failed"
    ensures !Ingestible(openError, parse, chunker, extract) ==>
      entityWrites == [] && relationshipWrites == [] && batch == []
    ensures Ingestible(openError, parse, chunker, extract) ==>
      WritesAsConsolidated(filename, ParsedChunks(chunker(parse.text).chunks, extract),
        entityWrites, relationshipWrites, batch)
    ensures Ingestible(openError, parse, chunker, extract) && addBatch(batch).Some? ==>
      status == UnexpectedFailure(filename, addBatch(batch).value)
      && updates[1] == FailedUpdate("Unexpected error: " + addBatch(batch).value)
    ensures Ingestible(openError, parse, chunker, extract) && addBatch(batch).None? ==>
      && status == IngestionStatus(filename, "Completed", Some(SuccessMessage),
           SuccessCount(entityWrites, mergeEntity), SuccessCount(relationshipWrites, mergeRelationship))
      && updates[1] == StatusUpdate("Completed", [
           ("chunk_count", SqlInt(|batch|)), ("entities_added", SqlInt(status.entitiesAdded)),
           ("relationships_added", SqlInt(status.relationshipsAdded)), ("error_message", SqlNull)])
  {
    updates := [StatusUpdate("Processing", [])];
    entityWrites, relationshipWrites, batch := [], [], [];
    if openError.Some? {
      var e := openError.value;
      updates := updates + [FailedUpdate("Unexpected error: " + e)];
      return UnexpectedFailure(filename, e), updates, entityWrites, relationshipWrites, batch;
    }
    if parse.Failed? {
      var e := ErrorMessage(parse.error);
      updates := updates + [FailedUpdate(e)];
      return StatusWithMessage(filename, "Failed", "File processing error: " + e), updates,
        entityWrites, relationshipWrites, batch;
    }
    var rawText := parse.text;
    if IsBlank(rawText) {
      updates := updates + [FailedUpdate(NoTextMessage)];
      return StatusWithMessage(filename, "Failed", NoTextMessage), updates, entityWrites, relationshipWrites, batch;
    }
    var chunking := chunker(rawText);
    match chunking {
      case ChunkingValueError(e) =>
        updates := updates + [FailedUpdate(e)];
        return StatusWithMessage(filename, "Failed", "File processing error: " + e), updates,
          entityWrites, relationshipWrites, batch;
      case ChunkingRaised(e) =>
        updates := updates + [FailedUpdate("Unexpected error: " + e)];
        return UnexpectedFailure(filename, e), updates, entityWrites, relationshipWrites, batch;
      case Chunks(_) =>
    }
    var textChunks := chunking.chunks;
    if textChunks == [] {
      updates := updates + [FailedUpdate(NoChunksMessage)];
      return StatusWithMessage(filename, "Failed", NoChunksMessage), updates, entityWrites, relationshipWrites, batch;
    }
    var items := ExtractChunks(textChunks, extract);
    if items == [] {
      updates := updates + [FailedUpdate(AllChunksFailedMessage)];
      return StatusWithMessage(filename, "Failed", AllChunksFailedMessage), updates,
        entityWrites, relationshipWrites, batch;
    }

    var entitiesAdded, relsAdded, ew, rw, b := StoreExtractions(filename, items, mergeEntity, mergeRelationship);
    entityWrites, relationshipWrites, batch := ew, rw, b;
    var added := addBatch(batch);
    if added.Some? {
      var e := added.value;
      updates := updates + [FailedUpdate("Unexpected error: " + e)];
      return UnexpectedFailure(filename, e), updates, entityWrites, relationshipWrites, batch;
    }
    status := IngestionStatus(filename, "Completed", Some(SuccessMessage), entitiesAdded, relsAdded);
    updates := updates + [StatusUpdate("Completed", [
      ("chunk_count", SqlInt(|batch|)), ("entities_added", SqlInt(entitiesAdded)),
      ("relationships_added", SqlInt(relsAdded)), ("error_message", SqlNull)])];
  }
}
