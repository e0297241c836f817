/** Re-ranking of retrieved passages: every passage is scored against the
    question by a cross-encoder, its score is overwritten with the new one,
    and the caller's list is sorted in place by descending score, keeping the
    original order among equal scores. The cross-encoder is a collaborator
    given as a function; the list is an array. */
module Reranker {
  import opened Common

  /** A retrieved passage (`SourceChunk`): its text, owning document, the
      entity names it mentions and its relevance score. */
  datatype SourceChunk = SourceChunk(chunkText: string, sourceDocument: string, entityIds: seq<string>, score: real)

  /** Non-increasing by score. */
  predicate SortedByScore(s: seq<SourceChunk>) {
    forall i, j :: 0 <= i < j < |s| ==> s[i].score >= s[j].score
  }

  /** The passages with score `v`, in their order in `s`. Two arrangements
      with the same such lists for every `v` hold the same passages, and
      equal-score passages are in the same relative order in both. */
  function WithScore(s: seq<SourceChunk>, v: real): (r: seq<SourceChunk>)
    ensures |r| <= |s|
    decreases |s|
  {
    if s == [] then []
    else (if s[0].score == v then [s[0]] else []) + WithScore(s[1..], v)
  }

  /** `WithScore` keeps exactly the passages with the given score. */
  lemma {:induction false} WithScoreMembers(s: seq<SourceChunk>, v: real, x: SourceChunk)
    ensures x in WithScore(s, v) <==> x in s && x.score == v
    decreases |s|
  {
    if s != [] {
      WithScoreMembers(s[1..], v, x);
      assert s == [s[0]] + s[1..];
    }
  }

  /** Inserts `x` in front of the first passage whose score is not above its
      own, so that `x` comes before the equal-score passages of `t`. */
  function Insert(x: SourceChunk, t: seq<SourceChunk>): (r: seq<SourceChunk>)
    ensures |r| == |t| + 1
    ensures multiset(r) == multiset(t) + multiset{x}
    decreases |t|
  {
    if t == [] || x.score >= t[0].score then
      [x] + t
    else
      assert t == [t[0]] + t[1..];
      [t[0]] + Insert(x, t[1..])
  }

  /** Every passage of `Insert(x, t)` is `x` or a passage of `t`. */
  lemma InsertBounded(x: SourceChunk, t: seq<SourceChunk>, bound: real)
    requires x.score <= bound && forall i :: 0 <= i < |t| ==> t[i].score <= bound
    ensures forall y :: y in Insert(x, t) ==> y.score <= bound
  {
    var r := Insert(x, t);
    forall y | y in r ensures y.score <= bound {
      assert y in multiset(r);
      assert y in multiset(t) + multiset{x};
      if y in multiset(t) {
        var k :| 0 <= k < |t| && t[k] == y;
      }
    }
  }

  /** Inserting into a sorted list keeps it sorted. */
  lemma {:induction false} InsertSorted(x: SourceChunk, t: seq<SourceChunk>)
    requires SortedByScore(t)
    ensures SortedByScore(Insert(x, t))
    decreases |t|
  {
    if t != [] && x.score < t[0].score {
      var tail := t[1..];
      var rest := Insert(x, tail);
      InsertSorted(x, tail);
      InsertBounded(x, tail, t[0].score);
      var r := [t[0]] + rest;
      assert Insert(x, t) == r;
      forall i, j | 0 <= i < j < |r| ensures r[i].score >= r[j].score {
        if i == 0 {
          assert r[j] in rest;
        } else {
          assert r[i] == rest[i - 1] && r[j] == rest[j - 1];
        }
      }
    }
  }

  /** The reference definition of Python's stable descending sort by score
      (`list.sort(key=score, reverse=True)`), as an insertion sort. */
  function SortByScore(s: seq<SourceChunk>): (r: seq<SourceChunk>)
    ensures |r| == |s|
    ensures multiset(r) == multiset(s)
    ensures SortedByScore(r)
    decreases |s|
  {
    if s == [] then []
    else
      assert s == [s[0]] + s[1..];
      InsertSorted(s[0], SortByScore(s[1..]));
      Insert(s[0], SortByScore(s[1..]))
  }

  lemma {:induction false} InsertWithScore(x: SourceChunk, t: seq<SourceChunk>, v: real)
    ensures WithScore(Insert(x, t), v) == (if x.score == v then [x] else []) + WithScore(t, v)
    decreases |t|
  {
    var here := if x.score == v then [x] else [];
    if t == [] || x.score >= t[0].score {
      assert Insert(x, t) == [x] + t;
      assert ([x] + t)[1..] == t;
    } else {
      var rest := Insert(x, t[1..]);
      assert Insert(x, t) == [t[0]] + rest;
      assert ([t[0]] + rest)[1..] == rest;
      InsertWithScore(x, t[1..], v);
      var first := if t[0].score == v then [t[0]] else [];
      assert WithScore(Insert(x, t), v) == first + (here + WithScore(t[1..], v));
      assert WithScore(t, v) == first + WithScore(t[1..], v);
      assert first == [] || here == [];
    }
  }

  /** The sort is stable: for every score, the passages with that score are
      in their original order. */
  lemma {:induction false} SortByScoreStable(s: seq<SourceChunk>, v: real)
    ensures WithScore(SortByScore(s), v) == WithScore(s, v)
    decreases |s|
  {
    if s != [] {
      SortByScoreStable(s[1..], v);
      InsertWithScore(s[0], SortByScore(s[1..]), v);
    }
  }

  /** Two sorted arrangements with the same equal-score lists start with
      the same passage. */
  lemma SameFirst(r: seq<SourceChunk>, q: seq<SourceChunk>)
    requires r != [] && q != [] && SortedByScore(r) && SortedByScore(q)
    requires forall v :: WithScore(r, v) == WithScore(q, v)
    ensures r[0] == q[0]
  {
    assert r[0] in q by {
      WithScoreMembers(r, r[0].score, r[0]);
      WithScoreMembers(q, r[0].score, r[0]);
    }
    assert q[0] in r by {
      WithScoreMembers(q, q[0].score, q[0]);
      WithScoreMembers(r, q[0].score, q[0]);
    }
    assert r[0].score <= q[0].score by {
      var k :| 0 <= k < |q| && q[k] == r[0];
    }
    assert q[0].score <= r[0].score by {
      var k :| 0 <= k < |r| && r[k] == q[0];
    }
    var m := r[0].score;
    assert WithScore(r, m)[0] == r[0];
    assert WithScore(q, m)[0] == q[0];
    assert WithScore(r, m) == WithScore(q, m);
  }

  /** Removing the same first passage keeps the equal-score lists equal. */
  lemma SameTails(r: seq<SourceChunk>, q: seq<SourceChunk>, v: real)
    requires r != [] && q != [] && r[0] == q[0]
    requires WithScore(r, v) == WithScore(q, v)
    ensures WithScore(r[1..], v) == WithScore(q[1..], v)
  {
    var a := WithScore(r[1..], v);
    var b := WithScore(q[1..], v);
    if r[0].score == v {
      assert WithScore(r, v) == [r[0]] + a;
      assert WithScore(q, v) == [r[0]] + b;
      assert ([r[0]] + a)[1..] == a;
      assert ([r[0]] + b)[1..] == b;
    } else {
      assert WithScore(r, v) == a;
      assert WithScore(q, v) == b;
    }
  }

  /** A sorted arrangement is determined by its equal-score lists: whatever
      algorithm produces a sorted and stable arrangement of `s` produces
      `SortByScore(s)`. */
  lemma {:induction false} SortedStableIsUnique(r: seq<SourceChunk>, q: seq<SourceChunk>)
    requires SortedByScore(r) && SortedByScore(q)
    requires forall v :: WithScore(r, v) == WithScore(q, v)
    ensures r == q
    decreases |r|
  {
    if r == [] {
      if q != [] {
        WithScoreMembers(q, q[0].score, q[0]);
      }
    } else if q == [] {
      WithScoreMembers(r, r[0].score, r[0]);
    } else {
      SameFirst(r, q);
      forall v ensures WithScore(r[1..], v) == WithScore(q[1..], v) {
        SameTails(r, q, v);
      }
      SortedStableIsUnique(r[1..], q[1..]);
      assert r == [r[0]] + r[1..] && q == [q[0]] + q[1..];
    }
  }

  /** Hence the rearrangement Python's sort performs is `SortByScore`. */
  lemma SortedStableIsSortByScore(s: seq<SourceChunk>, r: seq<SourceChunk>)
    requires SortedByScore(r) && forall v :: WithScore(r, v) == WithScore(s, v)
    ensures r == SortByScore(s)
  {
    forall v ensures WithScore(r, v) == WithScore(SortByScore(s), v) {
      SortByScoreStable(s, v);
    }
    SortedStableIsUnique(r, SortByScore(s));
  }

  /** The passage texts, in order (the second half of each query/passage
      pair handed to the cross-encoder). */
  function Texts(s: seq<SourceChunk>): (r: seq<string>)
    ensures |r| == |s| && forall i :: 0 <= i < |s| ==> r[i] == s[i].chunkText
  {
    seq(|s|, i requires 0 <= i < |s| => s[i].chunkText)
  }

  /** The passages with their scores replaced by `scores`, position by
      position; nothing else about a passage changes. */
  function Rescored(s: seq<SourceChunk>, scores: seq<real>): (r: seq<SourceChunk>)
    requires |scores| >= |s|
    ensures |r| == |s|
    ensures forall i :: 0 <= i < |s| ==> r[i].score == scores[i]
    ensures forall i :: 0 <= i < |s| ==>
      r[i].chunkText == s[i].chunkText && r[i].sourceDocument == s[i].sourceDocument && r[i].entityIds == s[i].entityIds
  {
    seq(|s|, i requires 0 <= i < |s| => s[i].(score := scores[i]))
  }

  const DefaultModelRepo: string := "cross-encoder/ms-marco-MiniLM-L-6-v2"

  /** The cross-encoder named by the `reranking` section of the retrieval
      settings, with its default. */
  function ModelRepo(section: Props): (r: string)
    ensures "model_repo" !in section ==> r == DefaultModelRepo
  {
    PyStr(GetOr(section, "model_repo", VStr(DefaultModelRepo)))
  }

  /** Whether the `reranking` section enables re-ranking (off by default). */
  predicate RerankingEnabled(section: Props) {
    Truthy(Get(section, "enabled"))
  }

  /** `ReRanker`: a cross-encoder that scores (question, passage text) pairs. */
  class ReRanker {
    const modelRepo: string
    const scorer: (string, seq<string>) -> seq<real>

    constructor(section: Props, scorer: (string, seq<string>) -> seq<real>)
      ensures modelRepo == ModelRepo(section) && this.scorer == scorer
    {
      modelRepo := ModelRepo(section);
      this.scorer := scorer;
    }

    /** `rerank_chunks`. An empty list gives a new empty list and the
        cross-encoder is not consulted; otherwise every passage's score is
        overwritten with the cross-encoder's score for its original position
        and the caller's array itself is sorted and returned. */
    method RerankChunks(query: string, chunks: array<SourceChunk>) returns (result: array<SourceChunk>, scorerCalled: bool)
      requires |scorer(query, Texts(chunks[..]))| >= chunks.Length
      modifies chunks
      ensures chunks.Length == 0 ==> result.Length == 0 && !scorerCalled
      ensures chunks.Length > 0 ==> result == chunks && scorerCalled
      ensures chunks[..] == SortByScore(Rescored(old(chunks[..]), scorer(query, Texts(old(chunks[..])))))
      ensures SortedByScore(chunks[..])
      ensures multiset(chunks[..]) == multiset(Rescored(old(chunks[..]), scorer(query, Texts(old(chunks[..])))))
      ensures forall v :: WithScore(chunks[..], v) == WithScore(Rescored(old(chunks[..]), scorer(query, Texts(old(chunks[..])))), v)
    {
      if chunks.Length == 0 {
        assert chunks[..] == [];
        result := new SourceChunk[0];
        scorerCalled := false;
        return;
      }
      ghost var original := chunks[..];
      var newScores := scorer(query, Texts(chunks[..]));
      scorerCalled := true;
      for i := 0 to chunks.Length
        invariant forall k :: 0 <= k < i ==> chunks[k] == original[k].(score := newScores[k])
        invariant forall k :: i <= k < chunks.Length ==> chunks[k] == original[k]
      {
        chunks[i] := chunks[i].(score := newScores[i]);
      }
      assert chunks[..] == Rescored(original, newScores);
      var sorted := SortByScore(chunks[..]);
      forall k | 0 <= k < chunks.Length {
        chunks[k] := sorted[k];
      }
      assert chunks[..] == sorted;
      forall v ensures WithScore(chunks[..], v) == WithScore(Rescored(original, newScores), v) {
        SortByScoreStable(Rescored(original, newScores), v);
      }
      result := chunks;
    }
  }

  /** The module-level singleton behind `get_reranker`. */
  class RerankerRegistry {
    var instance: Option<ReRanker>

    constructor()
      ensures instance == None
    {
      instance := None;
    }

    /** `get_reranker`: None when re-ranking is disabled; otherwise the one
        instance, created on the first enabled call and returned unchanged
        by every later one. */
    method GetReranker(section: Props, scorer: (string, seq<string>) -> seq<real>) returns (r: Option<ReRanker>)
      modifies this
      ensures !RerankingEnabled(section) ==> r == None && instance == old(instance)
      ensures RerankingEnabled(section) && old(instance).Some? ==> r == old(instance) && instance == old(instance)
      ensures RerankingEnabled(section) && old(instance).None? ==>
        r.Some? && fresh(r.value) && instance == r && r.value.modelRepo == ModelRepo(section)
      ensures RerankingEnabled(section) ==> r.Some? && r == instance
    {
      if !RerankingEnabled(section) {
        return None;
      }
      if instance.None? {
        var created := new ReRanker(section, scorer);
        instance := Some(created);
      }
      r := instance;
    }
  }
}
