/** What the stored columns of an edge say, and which pairs get one, in terms of the corpus and the settings. */
module EdgeMeaning {
  import opened Values
  import opened Sums
  import opened GraphRecompute
  import opened Semantic
  import opened SemanticMatrix
  import opened Entities
  import opened GraphEdges

  // ---- the columns of one edge

  function SimsOf(pairs: seq<TopPair>): seq<real> {
    seq(|pairs|, t requires 0 <= t < |pairs| => pairs[t].sim)
  }

  predicate IsAverage(mean: real, values: seq<real>) {
    mean * |values| as real == Total(values)
  }

  /** `x` of the way from `floor` to `ceil`, and no further than either end. */
  predicate IsShareOfRange(x: real, raw: real, floor: real, ceil: real) {
    && (raw <= floor ==> x == 0.0) && (raw >= ceil ==> x == 1.0)
    && (floor <= raw <= ceil ==> x * (ceil - floor) == raw - floor)
  }

  lemma RawOfCells(a: DocVectors, b: DocVectors, cells: seq<Cell>, raw: real, pairs: seq<TopPair>)
    requires Distinct(cells) && InRange(a, b, cells) && pairs == Evidence(a, b, cells)
    requires IsMean(raw, |cells|, Sum(Chosen(cells), Sims(a, b)))
    ensures IsAverage(raw, SimsOf(pairs))
  {
    TotalIsSum(a, b, cells, SimsOf(pairs));
    MeanIsAverage(raw, SimsOf(pairs), |cells|);
  }

  lemma MeanIsAverage(raw: real, values: seq<real>, n: nat)
    requires |values| == n && IsMean(raw, n, Total(values))
    ensures IsAverage(raw, values)
  {
  }

  lemma CalibrateIsShare(raw: real, floor: real, ceil: real)
    requires floor < ceil
    ensures IsShareOfRange(Calibrate(raw, floor, ceil), raw, floor, ceil)
  {
    CalibrateMeaning(raw, raw, floor, ceil);
  }

  lemma ScoreOfCells(a: DocVectors, b: DocVectors, cells: seq<Cell>, floor: real, ceil: real, o: SemanticOverlap)
    requires floor < ceil && Distinct(cells) && IsOverlapOf(a, b, cells, floor, ceil, o)
    ensures IsAverage(o.raw, SimsOf(o.pairs)) && IsShareOfRange(o.score, o.raw, floor, ceil)
    ensures |o.pairs| == |cells|
  {
    RawOfCells(a, b, cells, o.raw, o.pairs);
    CalibrateIsShare(o.raw, floor, ceil);
  }

  lemma ScoreOfOverlap(a: DocVectors, b: DocVectors, topK: nat, floor: real, ceil: real, o: SemanticOverlap)
    requires floor < ceil && a.rows != [] && b.rows != [] && IsOverlap(a, b, topK, floor, ceil, o)
    ensures IsAverage(o.raw, SimsOf(o.pairs)) && IsShareOfRange(o.score, o.raw, floor, ceil)
    ensures o.pairs != []
  {
    var cells :| TopCells(a, b, cells, topK) && IsOverlapOf(a, b, cells, floor, ceil, o);
    assert |a.rows| * |b.rows| > 0;
    ScoreOfCells(a, b, cells, floor, ceil, o);
  }

  /** `score` is the calibrated mean of the listed similarities, and zero when there are none. */
  ghost predicate MeanOf(score: real, pairs: seq<TopPair>, g: Settings) {
    if pairs == [] then score == 0.0
    else exists raw :: IsAverage(raw, SimsOf(pairs)) && IsShareOfRange(score, raw, g.floor, g.ceil)
  }

  /** The semantic score is the calibrated mean of the similarities listed as evidence, of which there are none
      exactly when a document has no vectors. */
  lemma SemanticColumn(sig: Signals, g: Settings, x: Edge)
    requires IsEdge(sig, g, x)
    ensures x.pairs == [] <==> VectorsOf(sig, x.source).rows == [] || VectorsOf(sig, x.target).rows == []
    ensures MeanOf(x.semantic, x.pairs, g)
  {
    var u, v := VectorsOf(sig, x.source), VectorsOf(sig, x.target);
    var raw :| SemanticOf(sig, g, x.source, x.target, SemanticOverlap(x.semantic, raw, x.pairs));
    if u.rows != [] && v.rows != [] {
      ScoreOfOverlap(u, v, g.topK, g.floor, g.ceil, SemanticOverlap(x.semantic, raw, x.pairs));
    }
  }

  lemma ShareIs(part: real, whole: real)
    requires whole > 0.0
    ensures part / whole * whole == part
  {
  }

  /** `score` is the weight of the shared entities over the weight of all of both documents'. */
  ghost predicate IsShareOfWeight(score: real, a: set<Key>, b: set<Key>, idf: Key -> real) {
    if Sum(a + b, idf) > 0.0 then score * Sum(a + b, idf) == Sum(a * b, idf) else score == 0.0
  }

  lemma JaccardIsShare(a: set<Key>, b: set<Key>, idf: Key -> real)
    ensures IsShareOfWeight(Jaccard(a, b, idf), a, b, idf)
  {
    if Sum(a + b, idf) > 0.0 { ShareIs(Sum(a * b, idf), Sum(a + b, idf)); }
  }

  lemma EntityColumn(sig: Signals, g: Settings, x: Edge)
    requires IsEdge(sig, g, x)
    ensures IsShareOfWeight(x.entity, MentionsOf(sig.mentions, x.source).Keys, MentionsOf(sig.mentions, x.target).Keys,
              sig.idf)
  {
    JaccardIsShare(MentionsOf(sig.mentions, x.source).Keys, MentionsOf(sig.mentions, x.target).Keys, sig.idf);
  }

  /** The entities listed are shared ones with their own counts, each once, heaviest first and then by text; one
      left out is preceded by all listed, and only when the list is full. */
  lemma SharedColumn(sig: Signals, g: Settings, x: Edge)
    requires IsEdge(sig, g, x)
    ensures var a, b := MentionsOf(sig.mentions, x.source), MentionsOf(sig.mentions, x.target);
            IsSharedList(x.shared, a, b, sig.shown)
  {
    var a, b := MentionsOf(sig.mentions, x.source), MentionsOf(sig.mentions, x.target);
    var keys :| IsSharedOf(x.shared, keys, a, b, sig.shown);
    SharedListIs(x.shared, keys, a, b, sig.shown);
  }

  predicate ListsKey(shared: seq<SharedEntity>, k: Key) {
    exists t :: 0 <= t < |shared| && shared[t].key == k
  }

  predicate Listed(e: SharedEntity, a: Mentions, b: Mentions, shown: Key -> real) {
    e.key in a && e.key in b && e.idf == shown(e.key) && e.countA == a[e.key] && e.countB == b[e.key]
  }

  predicate Heavier(w: real, text: string, w': real, text': string) {
    w > w' || (w == w' && LexLeq(text, text'))
  }

  ghost predicate IsSharedList(shared: seq<SharedEntity>, a: Mentions, b: Mentions, shown: Key -> real) {
    && |shared| <= 25
    && (forall t :: 0 <= t < |shared| ==> Listed(shared[t], a, b, shown))
    && (forall s, t :: 0 <= s < t < |shared| ==>
          shared[s].key != shared[t].key
          && Heavier(shared[s].idf, shared[s].key.0, shared[t].idf, shared[t].key.0))
    && forall k :: k in a && k in b && !ListsKey(shared, k) ==> LeftOut(shared, k, shown)
  }

  /** The list is full of entities at least as heavy. */
  predicate LeftOut(shared: seq<SharedEntity>, k: Key, shown: Key -> real) {
    |shared| == 25 && forall t :: 0 <= t < |shared| ==> Heavier(shared[t].idf, shared[t].key.0, shown(k), k.0)
  }

  lemma SharedListIs(shared: seq<SharedEntity>, keys: seq<Key>, a: Mentions, b: Mentions, shown: Key -> real)
    requires IsSharedOf(shared, keys, a, b, shown)
    ensures IsSharedList(shared, a, b, shown)
  {
    forall t | 0 <= t < |shared| ensures Listed(shared[t], a, b, shown) && shared[t].key == keys[t] {
      assert keys[t] in keys && shared[t] == Entry(keys[t], a, b, shown);
    }
    forall k | k in a && k in b && !ListsKey(shared, k) ensures LeftOut(shared, k, shown) {
      assert k in keys;
      var u :| 0 <= u < |keys| && keys[u] == k;
      assert u >= |shared|;
      assert forall t :: 0 <= t < |shared| ==> Precedes(keys[t], keys[u], shown);
    }
  }

  /** The weighted sum of the three scores. */
  predicate Weighs(total: real, g: Settings, semantic: real, entity: real, topic: real) {
    total == g.semanticWeight * semantic + g.entityWeight * entity + g.topicWeight * topic
  }

  lemma CombineWeighs(semantic: real, entity: real, topic: real, g: Settings)
    ensures Weighs(Combine(semantic, entity, topic, g), g, semantic, entity, topic)
  {
  }

  lemma EdgeColumns(sig: Signals, g: Settings, x: Edge)
    requires IsEdge(sig, g, x)
    ensures x.combined == Combine(x.semantic, x.entity, x.topic, g)
    ensures x.combined >= g.edgeThreshold && x.topic == sig.topic(x.source, x.target) && x.source < x.target
  {
  }

  lemma EdgeWeighs(sig: Signals, g: Settings, x: Edge)
    requires IsEdge(sig, g, x)
    ensures Weighs(x.combined, g, x.semantic, x.entity, x.topic)
    ensures x.combined >= g.edgeThreshold && x.topic == sig.topic(x.source, x.target) && x.source < x.target
  {
    EdgeColumns(sig, g, x);
    CombineWeighs(x.semantic, x.entity, x.topic, g);
  }

  /** The combined score of every stored edge is the weighted sum of its own three columns, and it reaches the
      threshold. */
  lemma CombinedColumn(edges: seq<Edge>, sig: Signals, g: Settings, docs: set<DocId>)
    requires IsEdgeSet(edges, sig, g, docs)
    ensures forall x :: x in edges ==>
              && Weighs(x.combined, g, x.semantic, x.entity, x.topic)
              && x.combined >= g.edgeThreshold && x.topic == sig.topic(x.source, x.target) && x.source < x.target
  {
    forall x | x in edges
      ensures Weighs(x.combined, g, x.semantic, x.entity, x.topic)
      ensures x.combined >= g.edgeThreshold && x.topic == sig.topic(x.source, x.target) && x.source < x.target
    {
      EdgeWeighs(sig, g, x);
    }
  }

  // ---- which pairs are linked

  ghost function EntityScore(sig: Signals, d: DocId, e: DocId): (score: real)
    ensures IsShareOfWeight(score, MentionsOf(sig.mentions, d).Keys, MentionsOf(sig.mentions, e).Keys, sig.idf)
  {
    JaccardIsShare(MentionsOf(sig.mentions, d).Keys, MentionsOf(sig.mentions, e).Keys, sig.idf);
    Jaccard(MentionsOf(sig.mentions, d).Keys, MentionsOf(sig.mentions, e).Keys, sig.idf)
  }

  lemma PassesWith(sig: Signals, g: Settings, d: DocId, e: DocId, o: SemanticOverlap)
    requires SemanticOf(sig, g, d, e, o)
    ensures Passes(sig, g, d, e) <==> CombinedWith(sig, g, d, e, o) >= g.edgeThreshold
  {
    forall p | SemanticOf(sig, g, d, e, p) ensures CombinedWith(sig, g, d, e, p) == CombinedWith(sig, g, d, e, o) {
      CombinedUnique(sig, g, d, e, p, o);
    }
  }

  /** A pair passes exactly when the weighted sum of its three scores reaches the threshold. */
  lemma PassesExactly(sig: Signals, g: Settings, d: DocId, e: DocId, o: SemanticOverlap, total: real)
    requires SemanticOf(sig, g, d, e, o) && Weighs(total, g, o.score, EntityScore(sig, d, e), sig.topic(d, e))
    ensures Passes(sig, g, d, e) <==> total >= g.edgeThreshold
  {
    PassesWith(sig, g, d, e, o);
    CombineWeighs(o.score, EntityScore(sig, d, e), sig.topic(d, e), g);
  }

  lemma ReachesShare(weight: real, score: real, threshold: real)
    requires weight > 0.0
    ensures weight * score >= threshold <==> score >= threshold / weight
  {
    var q := threshold / weight;
    assert q * weight == threshold;
    assert weight * score - threshold == (score - q) * weight;
    SignOfProduct(score - q, weight);
  }

  /** Only one of three weights counts. */
  predicate Alone(weight: real, other: real, another: real) {
    weight > 0.0 && other == 0.0 && another == 0.0
  }

  lemma SemanticAlone(total: real, g: Settings, x: real, y: real, z: real)
    requires Weighs(total, g, x, y, z) && Alone(g.semanticWeight, g.entityWeight, g.topicWeight)
    ensures total >= g.edgeThreshold <==> x >= g.edgeThreshold / g.semanticWeight
  {
    ReachesShare(g.semanticWeight, x, g.edgeThreshold);
  }

  lemma EntityAlone(total: real, g: Settings, x: real, y: real, z: real)
    requires Weighs(total, g, x, y, z) && Alone(g.entityWeight, g.semanticWeight, g.topicWeight)
    ensures total >= g.edgeThreshold <==> y >= g.edgeThreshold / g.entityWeight
  {
    ReachesShare(g.entityWeight, y, g.edgeThreshold);
  }

  lemma TopicAlone(total: real, g: Settings, x: real, y: real, z: real)
    requires Weighs(total, g, x, y, z) && Alone(g.topicWeight, g.semanticWeight, g.entityWeight)
    ensures total >= g.edgeThreshold <==> z >= g.edgeThreshold / g.topicWeight
  {
    ReachesShare(g.topicWeight, z, g.edgeThreshold);
  }

  /** With one weight alone, the pair passes exactly when that signal reaches the threshold over the weight. */
  lemma OneSignalDecides(sig: Signals, g: Settings, d: DocId, e: DocId, o: SemanticOverlap)
    requires SemanticOf(sig, g, d, e, o)
    ensures Alone(g.semanticWeight, g.entityWeight, g.topicWeight) ==>
              (Passes(sig, g, d, e) <==> o.score >= g.edgeThreshold / g.semanticWeight)
    ensures Alone(g.entityWeight, g.semanticWeight, g.topicWeight) ==>
              (Passes(sig, g, d, e) <==> EntityScore(sig, d, e) >= g.edgeThreshold / g.entityWeight)
    ensures Alone(g.topicWeight, g.semanticWeight, g.entityWeight) ==>
              (Passes(sig, g, d, e) <==> sig.topic(d, e) >= g.edgeThreshold / g.topicWeight)
  {
    var x, y, z := o.score, EntityScore(sig, d, e), sig.topic(d, e);
    var total := Combine(x, y, z, g);
    CombineWeighs(x, y, z, g);
    PassesExactly(sig, g, d, e, o, total);
    if Alone(g.semanticWeight, g.entityWeight, g.topicWeight) {
      SemanticAlone(total, g, x, y, z);
    } else if Alone(g.entityWeight, g.semanticWeight, g.topicWeight) {
      EntityAlone(total, g, x, y, z);
    } else if Alone(g.topicWeight, g.semanticWeight, g.entityWeight) {
      TopicAlone(total, g, x, y, z);
    }
  }

  /** Every pair has such an overlap, and all of its overlaps have the same score. */
  lemma SemanticScoreExists(sig: Signals, g: Settings, d: DocId, e: DocId) returns (o: SemanticOverlap)
    ensures SemanticOf(sig, g, d, e, o)
    ensures forall p :: SemanticOf(sig, g, d, e, p) ==> p.score == o.score
  {
    o := OverlapExists(VectorsOf(sig, d), VectorsOf(sig, e), g.topK, g.floor, g.ceil);
    forall p | SemanticOf(sig, g, d, e, p) ensures p.score == o.score { CombinedUnique(sig, g, d, e, p, o); }
  }
}
