/** The recompute lifecycle of the connection graph, over all interleavings of ingestion jobs, deletes,
    manual requests and the (serialized, failing, non-atomic) recomputes they cause, in one process. */
module GraphRecompute {
  import opened Values

  // ---- the corpus, and what a recompute makes of it

  datatype Chunk = Chunk(id: ChunkId, text: string, vid: Option<VectorId>)

  datatype Doc = Doc(done: bool, chunks: seq<Chunk>)

  /** Documents with their rows, and the in-memory index. */
  datatype Corpus = Corpus(docs: map<DocId, Doc>, vectors: map<VectorId, Vector>)

  /** A chunk as the scoring sees it; a chunk without a usable vector still counts for its text. */
  datatype Piece = Piece(id: ChunkId, text: string, vector: Option<Vector>)

  type Input = map<DocId, seq<Piece>>

  type Pair = (DocId, DocId)

  /** What the scoring may make of the pieces of every done document; ties leave it some freedom. */
  datatype Model<!E, !A> = Model(edges: (Input, map<Pair, E>) -> bool, analyses: (Input, map<DocId, A>) -> bool)

  function RowsOf(c: Corpus): map<DocId, seq<Chunk>> {
    map d | d in c.docs && c.docs[d].done :: c.docs[d].chunks
  }

  function Found(vid: Option<VectorId>, vectors: map<VectorId, Vector>): Option<Vector> {
    if vid.Some? && vid.value in vectors then Some(vectors[vid.value]) else None
  }

  function Pieces(chunks: seq<Chunk>, vectors: map<VectorId, Vector>): seq<Piece> {
    seq(|chunks|, i requires 0 <= i < |chunks| => Piece(chunks[i].id, chunks[i].text, Found(chunks[i].vid, vectors)))
  }

  function Hydrate(rows: map<DocId, seq<Chunk>>, vectors: map<VectorId, Vector>): Input {
    map d | d in rows :: Pieces(rows[d], vectors)
  }

  function View(c: Corpus): Input {
    Hydrate(RowsOf(c), c.vectors)
  }

  // ---- the state machine

  /** A recompute holding the lock. Rows are read one document at a time, vectors in one call, the scoring
      follows on a worker thread, and the three writes are separate transactions. */
  datatype Phase<E, A> =
    | Begun
    | Reading(ids: set<DocId>, rows: map<DocId, seq<Chunk>>)
    | Scoring(input: Input)
    | Scored(input: Input, edges: map<Pair, E>, analyses: map<DocId, A>)
    | Cleared(input: Input, edges: map<Pair, E>, analyses: map<DocId, A>)
    | Upserted(input: Input, edges: map<Pair, E>, analyses: map<DocId, A>)

  /** `owed` are the documents whose job or delete has changed the corpus and not asked for its recompute
      yet; `pending` counts recomputes waiting for the lock; `lastOk` says the last one to run succeeded. */
  datatype State<E, A> = State(corpus: Corpus, edges: map<Pair, E>, analyses: map<DocId, A>, owed: set<DocId>,
                               pending: nat, running: Option<Phase<E, A>>, lastOk: bool)

  datatype Action<E, A> =
    // uploads, the worker's job for `d`, and its failure cleanup
    | Upload(d: DocId)
    | WriteRows(d: DocId, chunks: seq<Chunk>)
    | Index(vectors: map<VectorId, Vector>)
    | Unindex(d: DocId, vids: set<VectorId>)
    | MarkDone(d: DocId)
    | MarkFailed(d: DocId)
    // deletes
    | DeleteRow(d: DocId)
    // triggers
    | Trigger(d: DocId) | Request
    // the recompute itself
    | Start | ListDone | ReadRows(d: DocId) | ReadVectors | Compute(edges: map<Pair, E>, analyses: map<DocId, A>)
    | ClearEdges | UpsertEdges | ReplaceAnalyses | Fail

  /** Vector ids that the rows of done documents, other than `d`, point at. */
  ghost predicate Unused(c: Corpus, vids: set<VectorId>, d: Option<DocId>) {
    forall e, i :: e in c.docs && c.docs[e].done && d != Some(e) && 0 <= i < |c.docs[e].chunks| ==>
      var vid := c.docs[e].chunks[i].vid;
      vid.Some? ==> vid.value !in vids
  }

  /** Nobody but the job or delete that is about to ask for a recompute touches a done document. */
  predicate InHand<E, A>(s: State<E, A>, d: DocId) {
    d in s.owed || d !in s.corpus.docs || !s.corpus.docs[d].done
  }

  /** Edges and analyses carry foreign keys to their documents. */
  predicate KeysExist<V>(edges: map<Pair, V>, docs: map<DocId, Doc>) {
    forall p :: p in edges ==> p.0 in docs && p.1 in docs
  }

  ghost predicate Enabled<E, A>(s: State<E, A>, a: Action<E, A>, m: Model<E, A>) {
    var docs := s.corpus.docs;
    match a
    case Upload(d) => d !in docs && d !in s.owed
    case WriteRows(d, _) => d in docs && InHand(s, d)
    case Index(vectors) => Unused(s.corpus, vectors.Keys, None)
    case Unindex(d, vids) => d in s.owed || (InHand(s, d) && Unused(s.corpus, vids, Some(d)))
    case MarkDone(d) => d in docs && !docs[d].done
    case MarkFailed(d) => d in docs && InHand(s, d)
    case DeleteRow(d) => d in docs
    case Trigger(d) => d in s.owed
    case Request => true
    case Start => s.running.None? && s.pending > 0
    case ListDone => s.running == Some(Begun)
    case ReadRows(d) => s.running.Some? && s.running.value.Reading? &&
      d in s.running.value.ids - s.running.value.rows.Keys
    case ReadVectors => s.running.Some? && s.running.value.Reading? && s.running.value.ids == s.running.value.rows.Keys
    case Compute(edges, analyses) =>
      s.running.Some? && s.running.value.Scoring?
      && m.edges(s.running.value.input, edges) && m.analyses(s.running.value.input, analyses)
    case ClearEdges => s.running.Some? && s.running.value.Scored?
    case UpsertEdges => s.running.Some? && s.running.value.Cleared? && KeysExist(s.running.value.edges, docs)
    case ReplaceAnalyses =>
      s.running.Some? && s.running.value.Upserted? && s.running.value.analyses.Keys <= docs.Keys
    case Fail => s.running.Some?
  }

  function WithDone(c: Corpus, d: DocId, done: bool): Corpus
    requires d in c.docs
  {
    c.(docs := c.docs[d := c.docs[d].(done := done)])
  }

  /** Rows of a document, `list_by_document`; a document deleted meanwhile has none. */
  function RowsNow(c: Corpus, d: DocId): seq<Chunk> {
    if d in c.docs then c.docs[d].chunks else []
  }

  function Next<E, A>(s: State<E, A>, a: Action<E, A>, m: Model<E, A>): State<E, A>
    requires Enabled(s, a, m)
  {
    var c := s.corpus;
    match a
    case Upload(d) => s.(corpus := c.(docs := c.docs[d := Doc(false, [])]))
    case WriteRows(d, chunks) => s.(corpus := c.(docs := c.docs[d := c.docs[d].(chunks := chunks)]))
    case Index(vectors) => s.(corpus := c.(vectors := c.vectors + vectors))
    case Unindex(d, vids) => s.(corpus := c.(vectors := c.vectors - vids))
    case MarkDone(d) => s.(corpus := WithDone(c, d, true), owed := s.owed + {d})
    case MarkFailed(d) => s.(corpus := WithDone(c, d, false))
    case DeleteRow(d) =>
      s.(corpus := c.(docs := c.docs - {d}),
         edges := map p | p in s.edges && p.0 != d && p.1 != d :: s.edges[p],
         analyses := s.analyses - {d}, owed := s.owed + {d})
    case Trigger(d) => s.(owed := s.owed - {d}, pending := s.pending + 1)
    case Request => s.(pending := s.pending + 1)
    case Start => s.(pending := s.pending - 1, running := Some(Begun))
    case ListDone => s.(running := Some(Reading(RowsOf(c).Keys, map[])))
    case ReadRows(d) =>
      var r := s.running.value;
      s.(running := Some(Reading(r.ids, r.rows[d := RowsNow(c, d)])))
    case ReadVectors => s.(running := Some(Scoring(Hydrate(s.running.value.rows, c.vectors))))
    case Compute(edges, analyses) => s.(running := Some(Scored(s.running.value.input, edges, analyses)))
    case ClearEdges =>
      var r := s.running.value;
      s.(edges := map[], running := Some(Cleared(r.input, r.edges, r.analyses)))
    case UpsertEdges =>
      var r := s.running.value;
      s.(edges := s.edges + r.edges, running := Some(Upserted(r.input, r.edges, r.analyses)))
    case ReplaceAnalyses => s.(analyses := s.running.value.analyses, running := None, lastOk := true)
    case Fail => s.(running := None, lastOk := false)
  }

  /** The process starts with no recompute running and either a graph that matches the corpus or a
      recompute already asked for. */
  ghost predicate Initial<E, A>(s: State<E, A>, m: Model<E, A>) {
    && s.owed == {} && s.running.None?
    && (s.pending > 0 || Matches(s, m))
  }

  ghost predicate Run<E(!new), A(!new)>(states: seq<State<E, A>>, actions: seq<Action<E, A>>, m: Model<E, A>) {
    && |states| == |actions| + 1
    && Initial(states[0], m)
    && forall i :: 0 <= i < |actions| ==>
         Enabled(states[i], actions[i], m) && states[i + 1] == Next(states[i], actions[i], m)
  }

  /** Stored edges and analyses are those of the current done corpus. */
  ghost predicate Matches<E, A>(s: State<E, A>, m: Model<E, A>) {
    m.edges(View(s.corpus), s.edges) && m.analyses(View(s.corpus), s.analyses)
  }

  // ---- the invariant

  /** Every change of the done corpus is followed by a recompute that has started. */
  predicate Quiet<E, A>(s: State<E, A>) {
    s.owed == {} && s.pending == 0
  }

  /** What the running recompute has read and written so far agrees with the corpus as it is now. */
  ghost predicate UpToDate<E, A>(s: State<E, A>, m: Model<E, A>) {
    match s.running
    case None => s.lastOk ==> Matches(s, m)
    case Some(Begun) => true
    case Some(Reading(ids, rows)) =>
      ids == RowsOf(s.corpus).Keys && rows.Keys <= ids && forall d :: d in rows ==> rows[d] == RowsOf(s.corpus)[d]
    case Some(Scoring(input)) => input == View(s.corpus)
    case Some(Scored(input, edges, analyses)) => ScoredFrom(input, edges, analyses, s, m)
    case Some(Cleared(input, edges, analyses)) => ScoredFrom(input, edges, analyses, s, m) && s.edges == map[]
    case Some(Upserted(input, edges, analyses)) => ScoredFrom(input, edges, analyses, s, m) && s.edges == edges
  }

  ghost predicate ScoredFrom<E, A>(input: Input, edges: map<Pair, E>, analyses: map<DocId, A>, s: State<E, A>,
                                   m: Model<E, A>)
  {
    input == View(s.corpus) && m.edges(input, edges) && m.analyses(input, analyses)
  }

  ghost predicate Inv<E, A>(s: State<E, A>, m: Model<E, A>) {
    Quiet(s) ==> UpToDate(s, m)
  }

  // ---- steps that leave the done corpus alone

  lemma PiecesIgnoreUnused(chunks: seq<Chunk>, before: map<VectorId, Vector>, after: map<VectorId, Vector>,
                           vids: set<VectorId>)
    requires forall i :: 0 <= i < |chunks| ==> chunks[i].vid.Some? ==> chunks[i].vid.value !in vids
    requires forall v :: v !in vids ==> (v in before <==> v in after) && (v in before ==> before[v] == after[v])
    ensures Pieces(chunks, before) == Pieces(chunks, after)
  {
    forall i | 0 <= i < |chunks| ensures Pieces(chunks, before)[i] == Pieces(chunks, after)[i] {
      assert Found(chunks[i].vid, before) == Found(chunks[i].vid, after);
    }
  }

  lemma ViewIgnoresUnused(c: Corpus, vectors: map<VectorId, Vector>, vids: set<VectorId>)
    requires Unused(c, vids, None)
    requires forall v :: v !in vids ==>
             (v in c.vectors <==> v in vectors) && (v in c.vectors ==> c.vectors[v] == vectors[v])
    ensures View(c.(vectors := vectors)) == View(c) && RowsOf(c.(vectors := vectors)) == RowsOf(c)
  {
    assert RowsOf(c.(vectors := vectors)) == RowsOf(c);
    forall d | d in RowsOf(c) ensures Pieces(RowsOf(c)[d], c.vectors) == Pieces(RowsOf(c)[d], vectors) {
      PiecesIgnoreUnused(RowsOf(c)[d], c.vectors, vectors, vids);
    }
  }

  predicate Background<E, A>(a: Action<E, A>) {
    a.Upload? || a.WriteRows? || a.Index? || a.Unindex? || a.MarkFailed?
  }

  lemma BackgroundKeepsView<E, A>(s: State<E, A>, a: Action<E, A>, m: Model<E, A>)
    requires s.owed == {} && Enabled(s, a, m) && Background(a)
    ensures View(Next(s, a, m).corpus) == View(s.corpus) && RowsOf(Next(s, a, m).corpus) == RowsOf(s.corpus)
  {
    var c, c' := s.corpus, Next(s, a, m).corpus;
    if a.Index? {
      ViewIgnoresUnused(c, c'.vectors, a.vectors.Keys);
    } else if a.Unindex? {
      ViewIgnoresUnused(c, c'.vectors, a.vids);
    } else {
      assert RowsOf(c') == RowsOf(c);
    }
  }

  lemma RecomputeStepKeepsInv<E, A>(s: State<E, A>, a: Action<E, A>, m: Model<E, A>)
    requires Quiet(s) && UpToDate(s, m) && Enabled(s, a, m)
    requires a.ListDone? || a.ReadRows? || a.ReadVectors? || a.Compute? || a.ClearEdges? || a.UpsertEdges? ||
             a.ReplaceAnalyses? || a.Fail?
    ensures UpToDate(Next(s, a, m), m)
  {
    match a
    case ReadVectors => assert s.running.value.rows == RowsOf(s.corpus);
    case UpsertEdges => assert map[] + s.running.value.edges == s.running.value.edges;
    case _ =>
  }

  lemma StepKeepsInv<E, A>(s: State<E, A>, a: Action<E, A>, m: Model<E, A>)
    requires Inv(s, m) && Enabled(s, a, m)
    ensures Inv(Next(s, a, m), m)
  {
    if Quiet(s) && Quiet(Next(s, a, m)) {
      if Background(a) {
        BackgroundKeepsView(s, a, m);
      } else {
        RecomputeStepKeepsInv(s, a, m);
      }
    }
  }

  lemma {:induction false} RunKeepsInv<E(!new), A(!new)>(states: seq<State<E, A>>, actions: seq<Action<E, A>>,
                                                         m: Model<E, A>, i: nat)
    requires Run(states, actions, m) && i < |states|
    ensures Inv(states[i], m)
  {
    if i == 0 {
    } else {
      RunKeepsInv(states, actions, m, i - 1);
      StepKeepsInv(states[i - 1], actions[i - 1], m);
    }
  }

  /** Latest wins: with every trigger fired, no recompute waiting or running and the last one successful,
      the stored graph is that of the done corpus, whatever was interleaved and whatever failed before. */
  lemma LatestWins<E(!new), A(!new)>(states: seq<State<E, A>>, actions: seq<Action<E, A>>, m: Model<E, A>, i: nat)
    requires Run(states, actions, m) && i < |states|
    requires states[i].owed == {} && states[i].pending == 0 && states[i].running.None? && states[i].lastOk
    ensures m.edges(View(states[i].corpus), states[i].edges)
    ensures m.analyses(View(states[i].corpus), states[i].analyses)
  {
    RunKeepsInv(states, actions, m, i);
  }

  // ---- what readers may rely on meanwhile

  /** No edge or analysis names a document that is gone. */
  ghost predicate NoDangling<E, A>(s: State<E, A>) {
    KeysExist(s.edges, s.corpus.docs) && s.analyses.Keys <= s.corpus.docs.Keys
  }

  lemma StepLeavesNoDangling<E, A>(s: State<E, A>, a: Action<E, A>, m: Model<E, A>)
    requires NoDangling(s) && Enabled(s, a, m)
    ensures NoDangling(Next(s, a, m))
  {
  }

  /** At every moment, also inside a recompute's write window, what is stored refers to existing documents:
      a delete takes its edges and its analysis with it and does not wait for the recompute. */
  lemma {:induction false} NoDanglingEver<E(!new), A(!new)>(states: seq<State<E, A>>, actions: seq<Action<E, A>>,
                                                            m: Model<E, A>, i: nat)
    requires Run(states, actions, m) && i < |states| && NoDangling(states[0])
    ensures NoDangling(states[i])
  {
    if i == 0 {
    } else {
      NoDanglingEver(states, actions, m, i - 1);
      StepLeavesNoDangling(states[i - 1], actions[i - 1], m);
    }
  }

  /** Edges and analyses are computed for the documents of the input only. */
  ghost predicate Scoped<E(!new), A(!new)>(m: Model<E, A>) {
    && (forall input, edges, p: Pair :: m.edges(input, edges) && p in edges ==> p.0 in input && p.1 in input)
    && forall input, analyses :: m.analyses(input, analyses) ==> analyses.Keys == input.Keys
  }

  /** A recompute that nobody overtakes never breaks a foreign key, so its writes go through. */
  lemma UndisturbedWritesSucceed<E(!new), A(!new)>(states: seq<State<E, A>>, actions: seq<Action<E, A>>,
                                                   m: Model<E, A>, i: nat)
    requires Run(states, actions, m) && i < |states| && Scoped(m) && Quiet(states[i])
    ensures var s := states[i]; s.running.Some? && s.running.value.Cleared? ==> Enabled(s, UpsertEdges, m)
    ensures var s := states[i]; s.running.Some? && s.running.value.Upserted? ==> Enabled(s, ReplaceAnalyses, m)
  {
    RunKeepsInv(states, actions, m, i);
  }

  // ---- one recompute, statement by statement, with nobody interfering

  /** The matrix handed to the semantic scorer: the document's chunks that have a vector, in order. */
  datatype DocVectors = DocVectors(doc: DocId, rows: seq<(ChunkId, Vector)>)

  function Usable(pieces: seq<Piece>): seq<(ChunkId, Vector)> {
    if pieces == [] then []
    else
      var n := |pieces| - 1;
      Usable(pieces[..n]) + if pieces[n].vector.Some? then [(pieces[n].id, pieces[n].vector.value)] else []
  }

  ghost function ChunkSet(chunks: seq<Chunk>): set<Chunk> {
    set c | c in chunks
  }

  ghost predicate SameIdSameChunk(chunks: set<Chunk>) {
    forall c, d :: c in chunks && d in chunks && c.id == d.id ==> c == d
  }

  /** The dictionary holds exactly the found vectors of the chunks seen so far. */
  ghost predicate Collected(byChunk: map<ChunkId, Vector>, seen: set<Chunk>, vectors: map<VectorId, Vector>) {
    && (forall id :: id in byChunk ==> exists c :: c in seen && c.id == id)
    && forall c :: c in seen ==>
         (c.id in byChunk <==> Found(c.vid, vectors).Some?) && (c.id in byChunk ==>
           byChunk[c.id] == Found(c.vid, vectors).value)
  }

  function Collect(byChunk: map<ChunkId, Vector>, c: Chunk, vectors: map<VectorId, Vector>): map<ChunkId, Vector> {
    var v := Found(c.vid, vectors);
    if v.Some? then byChunk[c.id := v.value] else byChunk
  }

  lemma OneMoreCollected(byChunk: map<ChunkId, Vector>, seen: set<Chunk>, c: Chunk, vectors: map<VectorId, Vector>)
    requires Collected(byChunk, seen, vectors) && SameIdSameChunk(seen + {c})
    ensures Collected(Collect(byChunk, c, vectors), seen + {c}, vectors)
  {
    forall id | id in Collect(byChunk, c, vectors) ensures exists d :: d in seen + {c} && d.id == id {
      if id != c.id {
        var d :| d in seen && d.id == id;
        assert d in seen + {c};
      } else {
        assert c in seen + {c};
      }
    }
  }

  /** The first loop of `_build_doc_vectors`, over one document's share of the flat list. */
  method AddToByChunk(chunks: seq<Chunk>, vectors: map<VectorId, Vector>, byChunk: map<ChunkId, Vector>,
                      ghost seen: set<Chunk>)
      returns (all: map<ChunkId, Vector>)
    requires Collected(byChunk, seen, vectors) && SameIdSameChunk(seen + ChunkSet(chunks))
    ensures Collected(all, seen + ChunkSet(chunks), vectors)
  {
    all := byChunk;
    assert seen + ChunkSet([]) == seen;
    for i := 0 to |chunks|
      invariant Collected(all, seen + ChunkSet(chunks[..i]), vectors)
    {
      assert chunks[..i + 1] == chunks[..i] + [chunks[i]];
      assert seen + ChunkSet(chunks[..i + 1]) == (seen + ChunkSet(chunks[..i])) + {chunks[i]};
      OneMoreCollected(all, seen + ChunkSet(chunks[..i]), chunks[i], vectors);
      all := Collect(all, chunks[i], vectors);
    }
    assert chunks[..|chunks|] == chunks;
  }

  /** The second loop: pick a document's usable chunks back out of the dictionary. */
  method PickUsable(chunks: seq<Chunk>, vectors: map<VectorId, Vector>, byChunk: map<ChunkId, Vector>,
                    ghost seen: set<Chunk>)
      returns (rows: seq<(ChunkId, Vector)>)
    requires Collected(byChunk, seen, vectors) && forall c :: c in chunks ==> c in seen
    ensures rows == Usable(Pieces(chunks, vectors))
  {
    rows := [];
    for i := 0 to |chunks|
      invariant rows == Usable(Pieces(chunks[..i], vectors))
    {
      assert Pieces(chunks[..i + 1], vectors)[..i] == Pieces(chunks[..i], vectors);
      assert chunks[i] in seen;
      if chunks[i].vid.Some? && chunks[i].id in byChunk {
        rows := rows + [(chunks[i].id, byChunk[chunks[i].id])];
      }
    }
    assert chunks[..|chunks|] == chunks;
  }

  ghost function AllChunks(ids: seq<DocId>, rows: map<DocId, seq<Chunk>>): set<Chunk>
    requires forall d :: d in ids ==> d in rows
  {
    set d, c | d in ids && c in rows[d] :: c
  }

  /** Vectors are fetched once for the flat list of all chunks and regrouped by document; nothing is lost or
      mixed up on the way as long as chunk ids are unique. */
  method BuildDocVectors(ids: seq<DocId>, rows: map<DocId, seq<Chunk>>, vectors: map<VectorId, Vector>)
    returns (out: seq<DocVectors>)
    requires forall d :: d in ids ==> d in rows
    requires SameIdSameChunk(AllChunks(ids, rows))
    ensures |out| == |ids|
    ensures forall k :: 0 <= k < |ids| ==> out[k] == DocVectors(ids[k], Usable(Pieces(rows[ids[k]], vectors)))
  {
    var byChunk: map<ChunkId, Vector> := map[];
    for k := 0 to |ids|
      invariant Collected(byChunk, AllChunks(ids[..k], rows), vectors)
    {
      ghost var seen, more := AllChunks(ids[..k], rows), ChunkSet(rows[ids[k]]);
      assert ids[..k + 1] == ids[..k] + [ids[k]];
      assert AllChunks(ids[..k + 1], rows) == seen + more;
      byChunk := AddToByChunk(rows[ids[k]], vectors, byChunk, seen);
    }
    assert ids[..|ids|] == ids;
    out := [];
    for k := 0 to |ids|
      invariant |out| == k
      invariant forall j :: 0 <= j < k ==> out[j] == DocVectors(ids[j], Usable(Pieces(rows[ids[j]], vectors)))
    {
      var usable := PickUsable(rows[ids[k]], vectors, byChunk, AllChunks(ids, rows));
      out := out + [DocVectors(ids[k], usable)];
    }
  }

  class GraphTables<E, A> {
    var edges: map<Pair, E>
    var analyses: map<DocId, A>

    method DeleteAll()
      modifies this`edges
      ensures edges == map[]
    {
      edges := map[];
    }

    method UpsertMany(items: map<Pair, E>)
      modifies this`edges
      ensures edges == old(edges) + items
    {
      edges := edges - items.Keys;
      edges := edges + items;
    }

    method ReplaceAll(items: map<DocId, A>)
      modifies this`analyses
      ensures analyses == items
    {
      analyses := items;
    }
  }

  /** The loop over `list_by_document`. */
  method ReadAllRows(corpus: Corpus, done: seq<DocId>) returns (rows: map<DocId, seq<Chunk>>)
    requires forall d :: d in done <==> d in RowsOf(corpus)
    ensures rows == RowsOf(corpus)
  {
    rows := map[];
    for k := 0 to |done|
      invariant rows.Keys == set d | d in done[..k]
      invariant forall d :: d in rows ==> d in RowsOf(corpus) && rows[d] == RowsOf(corpus)[d]
    {
      assert done[..k + 1] == done[..k] + [done[k]];
      rows := rows[done[k] := RowsNow(corpus, done[k])];
    }
    assert done[..|done|] == done;
  }
}
