/** The graph service: one recompute from rows to stored edges, and what is stored over all interleavings. */
module GraphService {
  import opened Values
  import opened GraphRecompute
  import opened Entities
  import opened GraphEdges

  /** What the scoring relies on, each a function: the mentions found in a document's texts, the topic similarity
      fitted on all texts, the node attributes, the logarithm and the rounding. */
  datatype Models<!A> = Models(extract: seq<string> -> Mentions,
                               topics: map<DocId, seq<string>> -> ((DocId, DocId) -> real),
                               analyse: Input -> map<DocId, A>, ln: real -> real, round: real -> real,
                               settings: Settings)

  ghost predicate SymmetricTopics<A>(k: Models<A>) {
    forall texts :: Symmetric(k.topics(texts))
  }

  // ---- what a corpus gives the scorers

  function Texts(pieces: seq<Piece>): seq<string> {
    seq(|pieces|, i requires 0 <= i < |pieces| => pieces[i].text)
  }

  function AllTexts(input: Input): map<DocId, seq<string>> {
    map d | d in input :: Texts(input[d])
  }

  function AllVectors(input: Input): map<DocId, seq<(ChunkId, Vector)>> {
    map d | d in input :: Usable(input[d])
  }

  function AllMentions(texts: map<DocId, seq<string>>, extract: seq<string> -> Mentions): map<DocId, Mentions> {
    map d | d in texts :: extract(texts[d])
  }

  ghost predicate IsFitted<A>(idf: map<Key, real>, input: Input, k: Models<A>) {
    IsIdf(idf, AllMentions(AllTexts(input), k.extract), k.ln)
  }

  function SignalsOf<A>(input: Input, idf: map<Key, real>, k: Models<A>): Signals {
    Signals(AllVectors(input), AllMentions(AllTexts(input), k.extract), Weights(idf), Shown(idf, k.round),
            k.topics(AllTexts(input)))
  }

  /** The stored edges of a document set: right ones only, under their own pair, and each pair that passes. */
  ghost predicate IsEdgeTable(table: map<Pair, Edge>, sig: Signals, g: Settings, docs: set<DocId>) {
    && (forall p :: p in table ==> IsEdgeAt(table[p], p, sig, g, docs))
    && forall d, e :: d in docs && e in docs && d < e ==> ((d, e) in table <==> Passes(sig, g, d, e))
  }

  ghost predicate IsEdgeAt(x: Edge, p: Pair, sig: Signals, g: Settings, docs: set<DocId>) {
    IsEdge(sig, g, x) && p == (x.source, x.target) && p.0 in docs && p.1 in docs
  }

  ghost predicate IsGraph<A>(input: Input, table: map<Pair, Edge>, k: Models<A>) {
    exists idf :: IsFitted(idf, input, k) && IsEdgeTable(table, SignalsOf(input, idf, k), k.settings, input.Keys)
  }

  lemma IsGraphOf<A>(input: Input, table: map<Pair, Edge>, idf: map<Key, real>, k: Models<A>)
    requires IsFitted(idf, input, k) && IsEdgeTable(table, SignalsOf(input, idf, k), k.settings, input.Keys)
    ensures IsGraph(input, table, k)
  {
  }

  /** The scoring of the recompute protocol, instantiated. */
  ghost function GraphModel<A>(k: Models<A>): Model<Edge, A> {
    Model((input: Input, table: map<Pair, Edge>) => IsGraph(input, table, k),
          (input: Input, analyses: map<DocId, A>) => analyses == k.analyse(input))
  }

  // ---- the corpus as the scorers see it

  /** Chunk `i` of a finished document, with a vector in the index: what the semantic scorer gets of it. */
  predicate ScoredAs(c: Corpus, d: DocId, i: int, row: (ChunkId, Vector)) {
    && d in c.docs && c.docs[d].done && 0 <= i < |c.docs[d].chunks|
    && var x := c.docs[d].chunks[i];
       x.id == row.0 && x.vid.Some? && x.vid.value in c.vectors && c.vectors[x.vid.value] == row.1
  }

  lemma {:induction false} UsableExactly(pieces: seq<Piece>, row: (ChunkId, Vector))
    ensures row in Usable(pieces)
            <==> exists i :: 0 <= i < |pieces| && pieces[i].id == row.0 && pieces[i].vector == Some(row.1)
  {
    if pieces != [] {
      var n := |pieces| - 1;
      UsableExactly(pieces[..n], row);
      if i :| 0 <= i < n && pieces[i].id == row.0 && pieces[i].vector == Some(row.1) {
        assert pieces[..n][i] == pieces[i];
      }
    }
  }

  /** A document is scored on the vectors of its own chunks, if it is finished: exactly those the index holds. */
  lemma ScoredVectorsExactly<A>(c: Corpus, idf: map<Key, real>, k: Models<A>, d: DocId, row: (ChunkId, Vector))
    ensures row in GraphEdges.VectorsOf(SignalsOf(View(c), idf, k), d).rows <==> exists i :: ScoredAs(c, d, i, row)
  {
    if d in View(c) {
      var pieces := View(c)[d];
      UsableExactly(pieces, row);
      forall i | 0 <= i < |pieces|
        ensures pieces[i].id == row.0 && pieces[i].vector == Some(row.1) <==> ScoredAs(c, d, i, row)
      {
      }
    }
  }

  /** Entities and topics come from the texts of all chunks of the finished documents, with a vector or without. */
  lemma ScoredTextsExactly(c: Corpus, d: DocId)
    ensures var texts := AllTexts(View(c));
            && (d in texts <==> d in c.docs && c.docs[d].done)
            && (d in texts ==> |texts[d]| == |c.docs[d].chunks|
                               && forall i :: 0 <= i < |texts[d]| ==> texts[d][i] == c.docs[d].chunks[i].text)
  {
  }

  // ---- one recompute, statement by statement, with nobody interfering

  method ReadTexts(ids: seq<DocId>, rows: map<DocId, seq<Chunk>>, ghost vectors: map<VectorId, Vector>)
      returns (texts: map<DocId, seq<string>>)
    requires forall d :: d in ids <==> d in rows
    ensures texts == AllTexts(Hydrate(rows, vectors))
  {
    texts := map[];
    for k := 0 to |ids|
      invariant texts.Keys == set d | d in ids[..k]
      invariant forall d :: d in texts ==> d in rows && texts[d] == Texts(Pieces(rows[d], vectors))
    {
      assert ids[..k + 1] == ids[..k] + [ids[k]];
      var chunks := rows[ids[k]];
      var own := seq(|chunks|, i requires 0 <= i < |chunks| => chunks[i].text);
      assert own == Texts(Pieces(chunks, vectors));
      texts := texts[ids[k] := own];
    }
    assert ids[..|ids|] == ids;
  }

  method ExtractAll(ids: seq<DocId>, texts: map<DocId, seq<string>>, extract: seq<string> -> Mentions)
      returns (mentions: map<DocId, Mentions>)
    requires forall d :: d in ids <==> d in texts
    ensures mentions == AllMentions(texts, extract)
  {
    mentions := map[];
    for k := 0 to |ids|
      invariant mentions.Keys == set d | d in ids[..k]
      invariant forall d :: d in mentions ==> d in texts && mentions[d] == extract(texts[d])
    {
      assert ids[..k + 1] == ids[..k] + [ids[k]];
      mentions := mentions[ids[k] := extract(texts[ids[k]])];
    }
    assert ids[..|ids|] == ids;
  }

  /** The document vectors as the scorers look them up. */
  method VectorMap(docs: seq<DocVectors>, ids: seq<DocId>, ghost input: Input)
      returns (vectors: map<DocId, seq<(ChunkId, Vector)>>)
    requires |docs| == |ids| && forall d :: d in ids <==> d in input
    requires forall i :: 0 <= i < |ids| ==> docs[i] == DocVectors(ids[i], Usable(input[ids[i]]))
    ensures vectors == AllVectors(input)
  {
    vectors := map[];
    for k := 0 to |ids|
      invariant vectors.Keys == set d | d in ids[..k]
      invariant forall d :: d in vectors ==> d in input && vectors[d] == Usable(input[d])
    {
      assert ids[..k + 1] == ids[..k] + [ids[k]];
      vectors := vectors[docs[k].doc := docs[k].rows];
    }
    assert ids[..|ids|] == ids;
  }

  /** The rows of `upsert_many`, under their pairs. */
  method Keyed(edges: seq<Edge>) returns (table: map<Pair, Edge>)
    requires NoPairTwice(edges)
    ensures forall p :: p in table ==>
            exists i :: 0 <= i < |edges| && p == (edges[i].source, edges[i].target) && table[p] == edges[i]
    ensures forall i :: 0 <= i < |edges| ==> (edges[i].source, edges[i].target) in table
  {
    table := map[];
    for k := 0 to |edges|
      invariant forall p :: p in table ==>
                exists i :: 0 <= i < k && p == (edges[i].source, edges[i].target) && table[p] == edges[i]
      invariant forall i :: 0 <= i < k ==> (edges[i].source, edges[i].target) in table
    {
      table := table[(edges[k].source, edges[k].target) := edges[k]];
    }
  }

  lemma KeyedIsTable(edges: seq<Edge>, table: map<Pair, Edge>, sig: Signals, g: Settings, docs: set<DocId>)
    requires IsEdgeSet(edges, sig, g, docs)
    requires forall p :: p in table ==>
             exists i :: 0 <= i < |edges| && p == (edges[i].source, edges[i].target) && table[p] == edges[i]
    requires forall i :: 0 <= i < |edges| ==> (edges[i].source, edges[i].target) in table
    ensures IsEdgeTable(table, sig, g, docs)
  {
    forall d, e | d in docs && e in docs && d < e ensures (d, e) in table <==> Passes(sig, g, d, e) {
      if (d, e) in table {
        var i :| 0 <= i < |edges| && (d, e) == (edges[i].source, edges[i].target);
        assert Joins(edges[i], d, e);
      }
      if Linked(edges, d, e) {
        var i :| 0 <= i < |edges| && Joins(edges[i], d, e);
      }
    }
  }

  lemma VectorsFound(byDoc: map<DocId, seq<(ChunkId, Vector)>>, sig: Signals, doc: DocVectors, d: DocId)
    requires sig.vectors == byDoc && d in byDoc && doc == DocVectors(d, byDoc[d])
    ensures doc == GraphEdges.VectorsOf(sig, d)
  {
  }

  lemma IdsAreKeys(ids: seq<DocId>, rows: map<DocId, seq<Chunk>>, vectors: map<VectorId, Vector>)
    requires forall d :: d in ids <==> d in rows
    ensures (set d | d in ids) == Hydrate(rows, vectors).Keys
  {
  }

  /** Entities and topics, fitted on the whole corpus. */
  method GatherSignals<A>(ids: seq<DocId>, rows: map<DocId, seq<Chunk>>, docs: seq<DocVectors>,
                          ghost vectors: map<VectorId, Vector>, k: Models<A>) returns (sig: Signals,
                            ghost idf: map<Key, real>)
    requires |docs| == |ids| && forall d :: d in ids <==> d in rows
    requires forall i :: 0 <= i < |ids| ==> docs[i] == DocVectors(ids[i], Usable(Pieces(rows[ids[i]], vectors)))
    ensures sig == SignalsOf(Hydrate(rows, vectors), idf, k) && IsFitted(idf, Hydrate(rows, vectors), k)
    ensures forall i :: 0 <= i < |ids| ==> docs[i] == GraphEdges.VectorsOf(sig, ids[i])
  {
    var texts := ReadTexts(ids, rows, vectors);
    var mentions := ExtractAll(ids, texts, k.extract);
    var scorer := new EntityScorer(mentions, k.ln, k.round);
    var byDoc := VectorMap(docs, ids, Hydrate(rows, vectors));
    idf := scorer.idf;
    sig := Signals(byDoc, mentions, Weights(scorer.idf), Shown(scorer.idf, k.round), k.topics(texts));
    forall i | 0 <= i < |ids| ensures docs[i] == GraphEdges.VectorsOf(sig, ids[i]) {
      VectorsFound(byDoc, sig, docs[i], ids[i]);
    }
  }

  /** Scores and edges, under their pairs. */
  method ScoreTable(docs: seq<DocVectors>, sig: Signals, g: Settings, ids: seq<DocId>) returns (table: map<Pair, Edge>)
    requires Fitted(sig, ids) && |docs| == |ids|
    requires forall i :: 0 <= i < |ids| ==> docs[i] == GraphEdges.VectorsOf(sig, ids[i])
    ensures IsEdgeTable(table, sig, g, set d | d in ids)
  {
    var edges := ScoreAndBuild(docs, sig, g, ids);
    table := Keyed(edges);
    KeyedIsTable(edges, table, sig, g, set d | d in ids);
  }

  /** Entities, topics, scores and edges. */
  method ScoreCorpus<A>(ids: seq<DocId>, rows: map<DocId, seq<Chunk>>, docs: seq<DocVectors>,
                        ghost vectors: map<VectorId, Vector>, k: Models<A>) returns (table: map<Pair, Edge>)
    requires Distinct(ids) && |docs| == |ids| && SymmetricTopics(k) && forall d :: d in ids <==> d in rows
    requires forall i :: 0 <= i < |ids| ==> docs[i] == DocVectors(ids[i], Usable(Pieces(rows[ids[i]], vectors)))
    ensures IsGraph(Hydrate(rows, vectors), table, k)
  {
    var sig;
    ghost var idf;
    sig, idf := GatherSignals(ids, rows, docs, vectors, k);
    table := ScoreTable(docs, sig, k.settings, ids);
    IdsAreKeys(ids, rows, vectors);
    IsGraphOf(Hydrate(rows, vectors), table, idf, k);
  }

  /** The three writes. */
  method StoreGraph<A>(tables: GraphTables<Edge, A>, edges: map<Pair, Edge>, analyses: map<DocId, A>)
    modifies tables
    ensures tables.edges == edges && tables.analyses == analyses
  {
    tables.DeleteAll();
    tables.UpsertMany(edges);
    tables.ReplaceAll(analyses);
    assert map[] + edges == edges;
  }

  /** `_recompute_locked` over a corpus at rest: a full recompute depends on nothing stored before it. */
  method RecomputeLocked<A>(tables: GraphTables<Edge, A>, corpus: Corpus, done: seq<DocId>, k: Models<A>)
    requires Distinct(done) && forall d :: d in done <==> d in RowsOf(corpus)
    requires SameIdSameChunk(AllChunks(done, RowsOf(corpus))) && SymmetricTopics(k)
    modifies tables
    ensures IsGraph(View(corpus), tables.edges, k) && tables.analyses == k.analyse(View(corpus))
  {
    var rows := ReadAllRows(corpus, done);
    var docs := BuildDocVectors(done, rows, corpus.vectors);
    var edges := ScoreCorpus(done, rows, docs, corpus.vectors, k);
    StoreGraph(tables, edges, k.analyse(Hydrate(rows, corpus.vectors)));
  }

  // ---- over all interleavings

  /** Once quiescent after a success, the stored edges are exactly those of the current done corpus: one for each
      pair of documents that passes, with the scores and the evidence of that pair. */
  lemma StoredGraphIsCurrent<A(!new)>(states: seq<State<Edge, A>>, actions: seq<Action<Edge, A>>, k: Models<A>, i: nat,
                                      idf: map<Key, real>)
    requires Run(states, actions, GraphModel(k)) && i < |states|
    requires states[i].owed == {} && states[i].pending == 0 && states[i].running.None? && states[i].lastOk
    requires IsFitted(idf, View(states[i].corpus), k)
    ensures var input := View(states[i].corpus);
            && IsEdgeTable(states[i].edges, SignalsOf(input, idf, k), k.settings, input.Keys)
            && states[i].analyses == k.analyse(input)
  {
    LatestWins(states, actions, GraphModel(k), i);
    var input := View(states[i].corpus);
    var other :| IsFitted(other, input, k) &&
      IsEdgeTable(states[i].edges, SignalsOf(input, other, k), k.settings, input.Keys);
    IdfUnique(idf, other, AllMentions(AllTexts(input), k.extract), k.ln);
  }

  lemma GraphModelIsScoped<A(!new)>(k: Models<A>)
    requires forall input :: k.analyse(input).Keys == input.Keys
    ensures Scoped(GraphModel(k))
  {
  }

  /** The real scoring names documents of its input only, so a recompute that nobody overtakes breaks no foreign
      key. */
  lemma UndisturbedRecomputeSucceeds<A(!new)>(states: seq<State<Edge, A>>, actions: seq<Action<Edge, A>>, k: Models<A>,
                                              i: nat)
    requires Run(states, actions, GraphModel(k)) && i < |states| && Quiet(states[i])
    requires forall input :: k.analyse(input).Keys == input.Keys
    ensures var s := states[i];
            && (s.running.Some? && s.running.value.Cleared? ==> Enabled(s, UpsertEdges, GraphModel(k)))
            && (s.running.Some? && s.running.value.Upserted? ==> Enabled(s, ReplaceAnalyses, GraphModel(k)))
  {
    GraphModelIsScoped(k);
    UndisturbedWritesSucceed(states, actions, GraphModel(k), i);
  }
}
