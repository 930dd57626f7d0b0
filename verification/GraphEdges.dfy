/** From pair scores to edges: every unordered pair of documents once, oriented by document id. */
module GraphEdges {
  import opened Values
  import opened GraphRecompute
  import opened Semantic
  import opened SemanticMatrix
  import opened Entities
  import opened Sums

  datatype Knobs = Knobs(semanticWeight: real, entityWeight: real, topicWeight: real, edgeThreshold: real,
                         topK: nat, floor: real, ceil: real)

  /** The settings as validated: the calibration range is not empty. */
  type Settings = g: Knobs | g.floor < g.ceil witness Knobs(0.5, 0.3, 0.2, 0.35, 10, 0.5, 0.95)

  /** What the scorers know of the corpus. The topic similarity is one minus a Jensen-Shannon distance. */
  datatype Signals = Signals(vectors: map<DocId, seq<(ChunkId, Vector)>>, mentions: map<DocId, Mentions>,
                             idf: Key -> real, shown: Key -> real, topic: (DocId, DocId) -> real)

  datatype Edge = Edge(source: DocId, target: DocId, semantic: real, entity: real, topic: real, combined: real,
                       pairs: seq<TopPair>, shared: seq<SharedEntity>)

  ghost predicate Symmetric(topic: (DocId, DocId) -> real) {
    forall d, e :: topic(d, e) == topic(e, d)
  }

  ghost predicate Fitted(sig: Signals, ids: seq<DocId>) {
    Distinct(ids) && Symmetric(sig.topic)
  }

  /** A document without vectors takes part with an empty block. */
  function VectorsOf(sig: Signals, d: DocId): DocVectors {
    if d in sig.vectors then DocVectors(d, sig.vectors[d]) else DocVectors(d, [])
  }

  function Combine(semantic: real, entity: real, topic: real, g: Settings): real {
    g.semanticWeight * semantic + g.entityWeight * entity + g.topicWeight * topic
  }

  function Ordered(d: DocId, e: DocId): Pair {
    if d < e then (d, e) else (e, d)
  }

  predicate Joins(x: Edge, d: DocId, e: DocId) {
    (x.source, x.target) == Ordered(d, e)
  }

  // ---- what an edge is, without any order of the documents

  ghost predicate SemanticOf(sig: Signals, g: Settings, d: DocId, e: DocId, o: SemanticOverlap) {
    IsOverlap(VectorsOf(sig, d), VectorsOf(sig, e), g.topK, g.floor, g.ceil, o)
  }

  ghost predicate EntityOf(sig: Signals, d: DocId, e: DocId, o: EntityOverlap) {
    IsEntityOverlap(o, MentionsOf(sig.mentions, d), MentionsOf(sig.mentions, e), sig.idf, sig.shown)
  }

  ghost function CombinedWith(sig: Signals, g: Settings, d: DocId, e: DocId, o: SemanticOverlap): real {
    Combine(o.score, Jaccard(MentionsOf(sig.mentions, d).Keys, MentionsOf(sig.mentions, e).Keys, sig.idf),
      sig.topic(d, e), g)
  }

  /** The pair's combined score reaches the threshold. */
  ghost predicate Passes(sig: Signals, g: Settings, d: DocId, e: DocId) {
    exists o :: SemanticOf(sig, g, d, e, o) && CombinedWith(sig, g, d, e, o) >= g.edgeThreshold
  }

  /** Every part of the edge is read from source to target: the `a` chunks and counts are the source's. */
  ghost predicate IsEdge(sig: Signals, g: Settings, x: Edge) {
    && x.source < x.target
    && (exists raw :: SemanticOf(sig, g, x.source, x.target, SemanticOverlap(x.semantic, raw, x.pairs)))
    && EntityOf(sig, x.source, x.target, EntityOverlap(x.entity, x.shared))
    && x.topic == sig.topic(x.source, x.target)
    && x.combined == Combine(x.semantic, x.entity, x.topic, g)
    && x.combined >= g.edgeThreshold
  }

  lemma CombinedUnique(sig: Signals, g: Settings, d: DocId, e: DocId, o: SemanticOverlap, p: SemanticOverlap)
    requires SemanticOf(sig, g, d, e, o) && SemanticOf(sig, g, d, e, p)
    ensures o.score == p.score && CombinedWith(sig, g, d, e, o) == CombinedWith(sig, g, d, e, p)
  {
    OverlapScoreUnique(VectorsOf(sig, d), VectorsOf(sig, e), g.topK, g.floor, g.ceil, o, p);
  }

  lemma CombinedFlips(sig: Signals, g: Settings, d: DocId, e: DocId, o: SemanticOverlap)
    requires sig.topic(d, e) == sig.topic(e, d)
    requires SemanticOf(sig, g, d, e, o)
    ensures SemanticOf(sig, g, e, d, Flip(o)) && CombinedWith(sig, g, e, d, Flip(o)) == CombinedWith(sig, g, d, e, o)
  {
    var a, b := MentionsOf(sig.mentions, d).Keys, MentionsOf(sig.mentions, e).Keys;
    OverlapFlips(VectorsOf(sig, d), VectorsOf(sig, e), g.topK, g.floor, g.ceil, o);
    assert a + b == b + a && a * b == b * a;
  }

  /** Which documents are linked does not depend on which is named first. */
  lemma PassesFlips(sig: Signals, g: Settings, d: DocId, e: DocId)
    requires sig.topic(d, e) == sig.topic(e, d)
    ensures Passes(sig, g, d, e) <==> Passes(sig, g, e, d)
  {
    if Passes(sig, g, d, e) {
      var o :| SemanticOf(sig, g, d, e, o) && CombinedWith(sig, g, d, e, o) >= g.edgeThreshold;
      CombinedFlips(sig, g, d, e, o);
    }
    if Passes(sig, g, e, d) {
      var o :| SemanticOf(sig, g, e, d, o) && CombinedWith(sig, g, e, d, o) >= g.edgeThreshold;
      CombinedFlips(sig, g, e, d, o);
    }
  }

  // ---- one pair

  function EdgeFor(d: DocId, e: DocId, sem: SemanticOverlap, ent: EntityOverlap, topic: real, combined: real): Edge {
    var flipped := e < d;
    Edge(Ordered(d, e).0, Ordered(d, e).1, sem.score, ent.score, topic, combined,
         if flipped then FlipPairs(sem.pairs) else sem.pairs, if flipped then FlipShared(ent.shared) else ent.shared)
  }

  lemma EdgeForIsEdge(sig: Signals, g: Settings, d: DocId, e: DocId, sem: SemanticOverlap, ent: EntityOverlap,
                      combined: real)
    requires d != e && sig.topic(d, e) == sig.topic(e, d)
    requires SemanticOf(sig, g, d, e, sem) && EntityOf(sig, d, e, ent)
    requires combined == Combine(sem.score, ent.score, sig.topic(d, e), g) && combined >= g.edgeThreshold
    ensures IsEdge(sig, g, EdgeFor(d, e, sem, ent, sig.topic(d, e), combined))
  {
    if d < e {
      assert SemanticOverlap(sem.score, sem.raw, sem.pairs) == sem;
    } else {
      CombinedFlips(sig, g, d, e, sem);
      EntityOverlapFlips(ent, MentionsOf(sig.mentions, d), MentionsOf(sig.mentions, e), sig.idf, sig.shown);
      assert SemanticOverlap(sem.score, sem.raw, FlipPairs(sem.pairs)) == Flip(sem);
    }
  }

  method EdgeOfPair(sig: Signals, g: Settings, d: DocId, e: DocId, sem: SemanticOverlap) returns (x: Option<Edge>)
    requires d != e && sig.topic(d, e) == sig.topic(e, d)
    requires SemanticOf(sig, g, d, e, sem)
    ensures x.Some? <==> Passes(sig, g, d, e)
    ensures x.Some? ==> IsEdge(sig, g, x.value) && Joins(x.value, d, e)
  {
    var ent := Score(MentionsOf(sig.mentions, d), MentionsOf(sig.mentions, e), sig.idf, sig.shown);
    var combined := Combine(sem.score, ent.score, sig.topic(d, e), g);
    assert combined == CombinedWith(sig, g, d, e, sem);
    if combined < g.edgeThreshold {
      forall o | SemanticOf(sig, g, d, e, o) ensures CombinedWith(sig, g, d, e, o) < g.edgeThreshold {
        CombinedUnique(sig, g, d, e, sem, o);
      }
      return None;
    }
    EdgeForIsEdge(sig, g, d, e, sem, ent, combined);
    x := Some(EdgeFor(d, e, sem, ent, sig.topic(d, e), combined));
  }

  // ---- all pairs

  predicate Linked(edges: seq<Edge>, d: DocId, e: DocId) {
    exists k :: 0 <= k < |edges| && Joins(edges[k], d, e)
  }

  predicate NoPairTwice(edges: seq<Edge>) {
    forall k, l :: 0 <= k < l < |edges| ==> (edges[k].source, edges[k].target) != (edges[l].source, edges[l].target)
  }

  /** Loop order of the pairs. */
  predicate Before(s: int, t: int, i: int, j: int) {
    s < t && (s < i || (s == i && t < j))
  }

  lemma PairDecidesIndices(ids: seq<DocId>, s: nat, t: nat, i: nat, j: nat)
    requires Distinct(ids) && s < t < |ids| && i < j < |ids| && Ordered(ids[s], ids[t]) == Ordered(ids[i], ids[j])
    ensures s == i && t == j
  {
  }

  /** Pairs before `(i, j)` are linked exactly when they pass, once. */
  ghost predicate UpTo(edges: seq<Edge>, sig: Signals, g: Settings, ids: seq<DocId>, i: nat, j: nat) {
    NoPairTwice(edges) && AllEdges(edges, sig, g) && AllFrom(edges, ids, i, j) && LinksUpTo(edges, sig, g, ids, i, j)
  }

  ghost predicate AllEdges(edges: seq<Edge>, sig: Signals, g: Settings) {
    edges == [] || (AllEdges(edges[..|edges| - 1], sig, g) && IsEdge(sig, g, edges[|edges| - 1]))
  }

  lemma {:induction false} EachIsEdge(edges: seq<Edge>, sig: Signals, g: Settings, k: nat)
    requires AllEdges(edges, sig, g) && k < |edges|
    ensures IsEdge(sig, g, edges[k])
  {
    if k == |edges| - 1 {
    } else {
      EachIsEdge(edges[..|edges| - 1], sig, g, k);
    }
  }

  ghost predicate AllFrom(edges: seq<Edge>, ids: seq<DocId>, i: nat, j: nat) {
    forall k :: 0 <= k < |edges| ==> From(edges[k], ids, i, j)
  }

  ghost predicate LinksUpTo(edges: seq<Edge>, sig: Signals, g: Settings, ids: seq<DocId>, i: nat, j: nat) {
    forall s, t :: 0 <= s < |ids| && 0 <= t < |ids| && Before(s, t, i, j) ==>
      LinkedRightly(edges, sig, g, ids[s], ids[t])
  }

  ghost predicate LinkedRightly(edges: seq<Edge>, sig: Signals, g: Settings, d: DocId, e: DocId) {
    Linked(edges, d, e) <==> Passes(sig, g, d, e)
  }

  ghost predicate From(x: Edge, ids: seq<DocId>, i: nat, j: nat) {
    exists s, t :: 0 <= s < |ids| && 0 <= t < |ids| && Before(s, t, i, j) && Joins(x, ids[s], ids[t])
  }

  lemma LinkedByLast(edges: seq<Edge>, x: Edge, d: DocId, e: DocId)
    ensures Linked(edges + [x], d, e) <==> Linked(edges, d, e) || Joins(x, d, e)
  {
    var more := edges + [x];
    if Linked(edges, d, e) {
      var k :| 0 <= k < |edges| && Joins(edges[k], d, e);
      assert Joins(more[k], d, e);
    }
    if Joins(x, d, e) { assert Joins(more[|edges|], d, e); }
    if Linked(more, d, e) {
      var k :| 0 <= k < |more| && Joins(more[k], d, e);
      assert k < |edges| ==> Joins(edges[k], d, e);
    }
  }

  /** An edge of earlier pairs does not join a later one. */
  lemma FromIsOther(x: Edge, ids: seq<DocId>, i: nat, j: nat)
    requires Distinct(ids) && i < j < |ids| && From(x, ids, i, j)
    ensures !Joins(x, ids[i], ids[j])
  {
    var s, t :| 0 <= s < |ids| && 0 <= t < |ids| && Before(s, t, i, j) && Joins(x, ids[s], ids[t]);
    if Ordered(ids[s], ids[t]) == Ordered(ids[i], ids[j]) {
      PairDecidesIndices(ids, s, t, i, j);
    }
  }

  lemma FromGrows(x: Edge, ids: seq<DocId>, i: nat, j: nat, i': nat, j': nat)
    requires From(x, ids, i, j) && (i < i' || (i == i' && j <= j'))
    ensures From(x, ids, i', j')
  {
    var s, t :| 0 <= s < |ids| && 0 <= t < |ids| && Before(s, t, i, j) && Joins(x, ids[s], ids[t]);
    assert Before(s, t, i', j');
  }

  lemma AllFromGrows(edges: seq<Edge>, ids: seq<DocId>, i: nat, j: nat, i': nat, j': nat)
    requires AllFrom(edges, ids, i, j) && (i < i' || (i == i' && j <= j'))
    ensures AllFrom(edges, ids, i', j')
  {
    forall k | 0 <= k < |edges| ensures From(edges[k], ids, i', j') {
      FromGrows(edges[k], ids, i, j, i', j');
    }
  }

  lemma NotYetLinked(edges: seq<Edge>, ids: seq<DocId>, i: nat, j: nat)
    requires Distinct(ids) && i < j < |ids| && AllFrom(edges, ids, i, j)
    ensures !Linked(edges, ids[i], ids[j])
  {
    forall k | 0 <= k < |edges| ensures !Joins(edges[k], ids[i], ids[j]) {
      FromIsOther(edges[k], ids, i, j);
    }
  }

  lemma SkippedLinks(edges: seq<Edge>, sig: Signals, g: Settings, ids: seq<DocId>, i: nat, j: nat)
    requires i < j < |ids| && LinksUpTo(edges, sig, g, ids, i, j)
    requires !Passes(sig, g, ids[i], ids[j]) && !Linked(edges, ids[i], ids[j])
    ensures LinksUpTo(edges, sig, g, ids, i, j + 1)
  {
    forall s, t | 0 <= s < |ids| && 0 <= t < |ids| && Before(s, t, i, j + 1)
      ensures LinkedRightly(edges, sig, g, ids[s], ids[t])
    {
      assert Before(s, t, i, j) || (s == i && t == j);
    }
  }

  lemma PairSkipped(edges: seq<Edge>, sig: Signals, g: Settings, ids: seq<DocId>, i: nat, j: nat)
    requires Fitted(sig, ids) && i < j < |ids| && UpTo(edges, sig, g, ids, i, j) && !Passes(sig, g, ids[i], ids[j])
    ensures UpTo(edges, sig, g, ids, i, j + 1)
  {
    NotYetLinked(edges, ids, i, j);
    AllFromGrows(edges, ids, i, j, i, j + 1);
    SkippedLinks(edges, sig, g, ids, i, j);
  }

  lemma AddedLinks(edges: seq<Edge>, x: Edge, sig: Signals, g: Settings, ids: seq<DocId>, i: nat, j: nat, s: nat,
                   t: nat)
    requires Fitted(sig, ids) && i < j < |ids| && s < |ids| && t < |ids| && Before(s, t, i, j + 1)
    requires Joins(x, ids[i], ids[j]) && Passes(sig, g, ids[i], ids[j])
    requires Before(s, t, i, j) ==> (Linked(edges, ids[s], ids[t]) <==> Passes(sig, g, ids[s], ids[t]))
    ensures Linked(edges + [x], ids[s], ids[t]) <==> Passes(sig, g, ids[s], ids[t])
  {
    LinkedByLast(edges, x, ids[s], ids[t]);
    if Joins(x, ids[s], ids[t]) { PairDecidesIndices(ids, s, t, i, j); }
  }

  lemma AllAddedLinks(edges: seq<Edge>, x: Edge, sig: Signals, g: Settings, ids: seq<DocId>, i: nat, j: nat)
    requires Fitted(sig, ids) && i < j < |ids| && LinksUpTo(edges, sig, g, ids, i, j)
    requires Joins(x, ids[i], ids[j]) && Passes(sig, g, ids[i], ids[j])
    ensures LinksUpTo(edges + [x], sig, g, ids, i, j + 1)
  {
    forall s, t | 0 <= s < |ids| && 0 <= t < |ids| && Before(s, t, i, j + 1)
      ensures LinkedRightly(edges + [x], sig, g, ids[s], ids[t])
    {
      assert Before(s, t, i, j) ==> LinkedRightly(edges, sig, g, ids[s], ids[t]);
      AddedLinks(edges, x, sig, g, ids, i, j, s, t);
    }
  }

  lemma AddedIsNew(edges: seq<Edge>, x: Edge, ids: seq<DocId>, i: nat, j: nat)
    requires Distinct(ids) && i < j < |ids| && NoPairTwice(edges) && AllFrom(edges, ids, i, j) &&
             Joins(x, ids[i], ids[j])
    ensures NoPairTwice(edges + [x]) && AllFrom(edges + [x], ids, i, j + 1)
  {
    AllFromGrows(edges, ids, i, j, i, j + 1);
    forall k | 0 <= k < |edges| ensures (edges[k].source, edges[k].target) != (x.source, x.target) {
      FromIsOther(edges[k], ids, i, j);
    }
    assert From(x, ids, i, j + 1) by { assert Before(i, j, i, j + 1); }
  }

  lemma PairAdded(edges: seq<Edge>, x: Edge, sig: Signals, g: Settings, ids: seq<DocId>, i: nat, j: nat)
    requires Fitted(sig, ids) && i < j < |ids| && UpTo(edges, sig, g, ids, i, j) && Passes(sig, g, ids[i], ids[j])
    requires IsEdge(sig, g, x) && Joins(x, ids[i], ids[j])
    ensures UpTo(edges + [x], sig, g, ids, i, j + 1)
  {
    AddedIsNew(edges, x, ids, i, j);
    assert (edges + [x])[..|edges|] == edges;
    AllAddedLinks(edges, x, sig, g, ids, i, j);
  }

  lemma LinksNextRow(edges: seq<Edge>, sig: Signals, g: Settings, ids: seq<DocId>, i: nat)
    requires i < |ids| && LinksUpTo(edges, sig, g, ids, i, |ids|)
    ensures LinksUpTo(edges, sig, g, ids, i + 1, i + 2)
  {
    forall s, t | 0 <= s < |ids| && 0 <= t < |ids| && Before(s, t, i + 1, i + 2)
      ensures LinkedRightly(edges, sig, g, ids[s], ids[t])
    {
      assert Before(s, t, i, |ids|);
    }
  }

  lemma NextRow(edges: seq<Edge>, sig: Signals, g: Settings, ids: seq<DocId>, i: nat)
    requires i < |ids| && UpTo(edges, sig, g, ids, i, |ids|)
    ensures UpTo(edges, sig, g, ids, i + 1, i + 2)
  {
    AllFromGrows(edges, ids, i, |ids|, i + 1, i + 2);
    LinksNextRow(edges, sig, g, ids, i);
  }

  /** Scores for every pair in input order, as `semantic_overlaps` returns them. */
  ghost predicate Scored(semantic: map<Pair, SemanticOverlap>, sig: Signals, g: Settings, ids: seq<DocId>) {
    forall i, j :: 0 <= i < j < |ids| ==>
      (ids[i], ids[j]) in semantic && SemanticOf(sig, g, ids[i], ids[j], semantic[(ids[i], ids[j])])
  }

  /** One turn of the pair loop. */
  method AddPair(before: seq<Edge>, sig: Signals, g: Settings, ids: seq<DocId>, i: nat, j: nat,
                 semantic: map<Pair, SemanticOverlap>) returns (edges: seq<Edge>)
    requires Fitted(sig, ids) && i < j < |ids| && Scored(semantic, sig, g, ids)
    requires UpTo(before, sig, g, ids, i, j)
    ensures UpTo(edges, sig, g, ids, i, j + 1)
  {
    var sem := semantic[(ids[i], ids[j])];
    assert sig.topic(ids[i], ids[j]) == sig.topic(ids[j], ids[i]);
    var x := EdgeOfPair(sig, g, ids[i], ids[j], sem);
    if x.Some? {
      PairAdded(before, x.value, sig, g, ids, i, j);
      edges := before + [x.value];
    } else {
      PairSkipped(before, sig, g, ids, i, j);
      edges := before;
    }
  }

  method EdgesFrom(before: seq<Edge>, sig: Signals, g: Settings, ids: seq<DocId>, i: nat,
                   semantic: map<Pair, SemanticOverlap>)
      returns (edges: seq<Edge>)
    requires Fitted(sig, ids) && i < |ids| && Scored(semantic, sig, g, ids) && UpTo(before, sig, g, ids, i, i + 1)
    ensures UpTo(edges, sig, g, ids, i, |ids|)
  {
    edges := before;
    for j := i + 1 to |ids|
      invariant UpTo(edges, sig, g, ids, i, j)
    {
      edges := AddPair(edges, sig, g, ids, i, j, semantic);
    }
  }

  /** The edges of a document set: right ones only, each unordered pair that passes, and none twice. */
  ghost predicate IsEdgeSet(edges: seq<Edge>, sig: Signals, g: Settings, docs: set<DocId>) {
    && NoPairTwice(edges)
    && (forall k :: 0 <= k < |edges| ==> IsEdge(sig, g, edges[k]) && edges[k].source in docs && edges[k].target in docs)
    && forall d, e :: d in docs && e in docs && d != e ==> (Linked(edges, d, e) <==> Passes(sig, g, d, e))
  }

  lemma UpToEndIsEdgeSet(edges: seq<Edge>, sig: Signals, g: Settings, ids: seq<DocId>)
    requires Fitted(sig, ids) && UpTo(edges, sig, g, ids, |ids|, |ids| + 1)
    ensures IsEdgeSet(edges, sig, g, set d | d in ids)
  {
    forall k | 0 <= k < |edges| ensures IsEdge(sig, g, edges[k]) && edges[k].source in ids && edges[k].target in ids {
      EachIsEdge(edges, sig, g, k);
      assert From(edges[k], ids, |ids|, |ids| + 1);
      var s, t :| 0 <= s < |ids| && 0 <= t < |ids| && Before(s, t, |ids|, |ids| + 1) && Joins(edges[k], ids[s], ids[t]);
    }
    forall d, e | d in ids && e in ids && d != e ensures Linked(edges, d, e) <==> Passes(sig, g, d, e) {
      var s :| 0 <= s < |ids| && ids[s] == d;
      var t :| 0 <= t < |ids| && ids[t] == e;
      PassesFlips(sig, g, d, e);
      assert Before(s, t, |ids|, |ids| + 1) ==> LinkedRightly(edges, sig, g, d, e);
      assert Before(t, s, |ids|, |ids| + 1) ==> LinkedRightly(edges, sig, g, e, d);
      assert Linked(edges, d, e) <==> Linked(edges, e, d) by { assert Ordered(d, e) == Ordered(e, d); }
    }
  }

  method BuildEdges(sig: Signals, g: Settings, ids: seq<DocId>, semantic: map<Pair, SemanticOverlap>)
    returns (edges: seq<Edge>)
    requires Fitted(sig, ids) && Scored(semantic, sig, g, ids)
    ensures IsEdgeSet(edges, sig, g, set d | d in ids)
  {
    edges := [];
    for i := 0 to |ids|
      invariant UpTo(edges, sig, g, ids, i, i + 1)
    {
      edges := EdgesFrom(edges, sig, g, ids, i, semantic);
      NextRow(edges, sig, g, ids, i);
    }
    UpToEndIsEdgeSet(edges, sig, g, ids);
  }

  lemma OverlapIsSemantic(docs: seq<DocVectors>, sig: Signals, g: Settings, ids: seq<DocId>,
                          semantic: map<Pair, SemanticOverlap>, i: nat, j: nat)
    requires i < |docs| == |ids| && j < |ids|
    requires docs[i] == VectorsOf(sig, ids[i]) && docs[j] == VectorsOf(sig, ids[j])
    requires HasOverlap(semantic, docs[i], docs[j], g.topK, g.floor, g.ceil)
    ensures (ids[i], ids[j]) in semantic && SemanticOf(sig, g, ids[i], ids[j], semantic[(ids[i], ids[j])])
  {
  }

  /** The scoring pass from document vectors to edges. */
  method ScoreAndBuild(docs: seq<DocVectors>, sig: Signals, g: Settings, ids: seq<DocId>) returns (edges: seq<Edge>)
    requires Fitted(sig, ids) && |docs| == |ids|
    requires forall i :: 0 <= i < |ids| ==> docs[i] == VectorsOf(sig, ids[i])
    ensures IsEdgeSet(edges, sig, g, set d | d in ids)
  {
    var semantic := SemanticOverlaps(docs, g.topK, g.floor, g.ceil);
    forall i, j | 0 <= i < j < |ids|
      ensures (ids[i], ids[j]) in semantic && SemanticOf(sig, g, ids[i], ids[j], semantic[(ids[i], ids[j])])
    {
      assert HasOverlap(semantic, docs[i], docs[j], g.topK, g.floor, g.ceil);
      OverlapIsSemantic(docs, sig, g, ids, semantic, i, j);
    }
    edges := BuildEdges(sig, g, ids, semantic);
  }

  // ---- the edge set is a function of the document set

  predicate SameScores(x: Edge, y: Edge) {
    && x.source == y.source && x.target == y.target && x.semantic == y.semantic && x.entity == y.entity
    && x.topic == y.topic && x.combined == y.combined && |x.pairs| == |y.pairs|
  }

  lemma EdgeScoresUnique(sig: Signals, g: Settings, x: Edge, y: Edge)
    requires IsEdge(sig, g, x) && IsEdge(sig, g, y)
    requires x.source == y.source && x.target == y.target
    ensures SameScores(x, y)
  {
    var r :| SemanticOf(sig, g, x.source, x.target, SemanticOverlap(x.semantic, r, x.pairs));
    var s :| SemanticOf(sig, g, y.source, y.target, SemanticOverlap(y.semantic, s, y.pairs));
    OverlapScoreUnique(VectorsOf(sig, x.source), VectorsOf(sig, x.target), g.topK, g.floor, g.ceil,
                       SemanticOverlap(x.semantic, r, x.pairs), SemanticOverlap(y.semantic, s, y.pairs));
  }

  lemma PassingOfEdge(sig: Signals, g: Settings, x: Edge)
    requires IsEdge(sig, g, x)
    ensures Passes(sig, g, x.source, x.target)
  {
    var r :| SemanticOf(sig, g, x.source, x.target, SemanticOverlap(x.semantic, r, x.pairs));
    assert CombinedWith(sig, g, x.source, x.target, SemanticOverlap(x.semantic, r, x.pairs)) == x.combined;
  }

  /** Built from the same documents in any two orders, with ties broken in any way, the edges are the same
      pairs with the same scores. */
  lemma EdgesIgnoreOrder(a: seq<Edge>, b: seq<Edge>, sig: Signals, g: Settings, docs: set<DocId>, k: nat)
    requires IsEdgeSet(a, sig, g, docs) && IsEdgeSet(b, sig, g, docs) && k < |a|
    ensures exists l :: 0 <= l < |b| && SameScores(a[k], b[l])
    ensures forall l, m :: 0 <= l < |b| && 0 <= m < |b| && SameScores(a[k], b[l]) && SameScores(a[k], b[m]) ==> l == m
  {
    var x := a[k];
    PassingOfEdge(sig, g, x);
    assert Linked(b, x.source, x.target);
    var l :| 0 <= l < |b| && Joins(b[l], x.source, x.target);
    EdgeScoresUnique(sig, g, x, b[l]);
    forall l, m | 0 <= l < |b| && 0 <= m < |b| && SameScores(x, b[l]) && SameScores(x, b[m]) ensures l == m {
      assert !(l < m) && !(m < l);
    }
  }

  /** Exactly one edge per unordered pair that passes, none otherwise. */
  lemma OneEdgePerPassingPair(edges: seq<Edge>, sig: Signals, g: Settings, docs: set<DocId>, d: DocId, e: DocId)
    requires IsEdgeSet(edges, sig, g, docs) && d in docs && e in docs && d != e
    ensures Passes(sig, g, d, e) <==> exists k :: 0 <= k < |edges| && Joins(edges[k], d, e)
    ensures forall k, l :: 0 <= k < |edges| && 0 <= l < |edges| && Joins(edges[k], d, e) && Joins(edges[l], d, e) ==>
            k == l
  {
    forall k, l | 0 <= k < |edges| && 0 <= l < |edges| && Joins(edges[k], d, e) && Joins(edges[l], d, e)
      ensures k == l
    {
      assert !(k < l) && !(l < k);
    }
  }

  /** Evidence for a pair of documents: `a` is a chunk of the first and `b` one of the second, each
      similarity is that pair's own, best first, and a pair left out is no better than any listed. */
  ghost predicate IsEvidence(u: DocVectors, v: DocVectors, topK: nat, pairs: seq<TopPair>, cells: seq<Cell>) {
    && Distinct(cells) && |cells| == |pairs| && InRange(u, v, cells)
    && (0 < topK <= |u.rows| * |v.rows| ==> |pairs| == topK)
    && (topK > |u.rows| * |v.rows| ==> |pairs| == |u.rows| * |v.rows|)
    && (forall t :: 0 <= t < |cells| ==>
          pairs[t] == TopPair(u.rows[cells[t].0].0, v.rows[cells[t].1].0,
            Dot(u.rows[cells[t].0].1, v.rows[cells[t].1].1)))
    && (forall s, t :: 0 <= s < t < |pairs| ==> pairs[s].sim >= pairs[t].sim)
    && forall r: nat, c: nat, t :: r < |u.rows| && c < |v.rows| && (r, c) !in cells && 0 <= t < |pairs| ==>
         Sim(u, v, (r, c)) <= pairs[t].sim
  }

  lemma LeftOutIsWorse(u: DocVectors, v: DocVectors, cells: seq<Cell>, r: nat, c: nat, t: nat)
    requires Best(Cells(u, v), Chosen(cells), Sims(u, v))
    requires r < |u.rows| && c < |v.rows| && (r, c) !in cells && t < |cells|
    ensures Sim(u, v, (r, c)) <= Sim(u, v, cells[t])
  {
    assert (r, c) in Cells(u, v) - Chosen(cells) && cells[t] in Chosen(cells);
    assert Sims(u, v)((r, c)) <= Sims(u, v)(cells[t]);
  }

  lemma EvidenceOfCells(u: DocVectors, v: DocVectors, topK: nat, cells: seq<Cell>)
    requires TopCells(u, v, cells, topK)
    ensures IsEvidence(u, v, topK, Evidence(u, v, cells), cells)
  {
    forall r: nat, c: nat, t | r < |u.rows| && c < |v.rows| && (r, c) !in cells && 0 <= t < |cells|
      ensures Sim(u, v, (r, c)) <= Evidence(u, v, cells)[t].sim
    {
      LeftOutIsWorse(u, v, cells, r, c, t);
    }
  }

  lemma EdgeEvidence(sig: Signals, g: Settings, x: Edge) returns (cells: seq<Cell>)
    requires IsEdge(sig, g, x) && VectorsOf(sig, x.source).rows != [] && VectorsOf(sig, x.target).rows != []
    ensures IsEvidence(VectorsOf(sig, x.source), VectorsOf(sig, x.target), g.topK, x.pairs, cells)
  {
    var u, v := VectorsOf(sig, x.source), VectorsOf(sig, x.target);
    var raw :| SemanticOf(sig, g, x.source, x.target, SemanticOverlap(x.semantic, raw, x.pairs));
    cells :| TopCells(u, v, cells, g.topK)
             && IsOverlapOf(u, v, cells, g.floor, g.ceil, SemanticOverlap(x.semantic, raw, x.pairs));
    EvidenceOfCells(u, v, g.topK, cells);
  }
}
