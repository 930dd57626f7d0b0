/** The running server: the worker's pipeline and the delete endpoint over the three stores.
    `journal` is a ghost record of every atomic write since the process came up. */
module Service {
  import opened Values
  import opened World
  import opened FaissStore
  import opened Sql
  import opened Dedup
  import opened Invariants
  import opened Bm25
  import opened Pipeline
  import opened PipelineProof
  import opened Runs

  lemma TripleCut<T>(es: seq<T>, a: T, b: T, c: T)
    ensures es + [a, b, c][..0] == es && es + [a, b, c][..1] == es + [a] && es + [a, b, c][..2] == es + [a] + [b]
    ensures es + [a, b, c] == es + [a] + [b] + [c]
  {
  }

  lemma PairCut<T>(es: seq<T>, a: T, b: T)
    ensures es + [a, b][..0] == es && es + [a, b][..1] == es + [a] && es + [a, b] == es + [a] + [b]
  {
  }

  // ---- the stages of a run

  function EarlyStage(d: DocId): seq<Effect> {
    [SetStatus(d, Parsing), SetStatus(d, Chunking), SetStatus(d, Embedding)]
  }

  function StatusStage(d: DocId): seq<Effect> {
    EarlyStage(d) + [SetStatus(d, Indexing)]
  }

  lemma EarlyCut(j: seq<Effect>, d: DocId)
    ensures j + EarlyStage(d) + [SetStatus(d, Indexing)] == j + StatusStage(d)
    ensures forall n :: 0 <= n <= 3 ==> StatusStage(d)[..n] == EarlyStage(d)[..n]
    ensures EarlyStage(d)[..3] == EarlyStage(d)
  {
  }

  function RowStage(b: Batch): seq<Effect> {
    [InsertRows(b.rows), AssignIds(b.ids)]
  }

  function FinishStage(d: DocId, b: Batch): seq<Effect> {
    [Persist, AddTexts(b.texts), SetStatus(d, Done)]
  }

  function StoreStage(d: DocId, b: Batch): seq<Effect> {
    [AddVectors(b.recs), MapVectors(b.recs)] + FinishStage(d, b)
  }

  lemma StoreCut(j: seq<Effect>, d: DocId, b: Batch, n: nat)
    requires 2 <= n <= 5
    ensures j + StoreStage(d, b)[..n] == j + [AddVectors(b.recs), MapVectors(b.recs)] + FinishStage(d, b)[..n - 2]
  {
  }

  /** A cut through three stretches lies in one of them, the earlier ones being whole. */
  lemma StagePrefix<T>(j: seq<T>, a: seq<T>, b: seq<T>, c: seq<T>, n: nat)
    requires n <= |a| + |b| + |c|
    ensures n <= |a| ==> j + (a + b + c)[..n] == j + a[..n]
    ensures |a| <= n <= |a| + |b| ==> j + (a + b + c)[..n] == j + a + b[..n - |a|]
    ensures |a| + |b| <= n ==> j + (a + b + c)[..n] == j + a + b + c[..n - |a| - |b|]
  {
  }

  lemma PipelineCut(j: seq<Effect>, d: DocId, b: Batch, n: nat)
    requires n <= PIPELINE_LENGTH
    ensures n <= 4 ==> j + PipelineEffects(d, b)[..n] == j + StatusStage(d)[..n]
    ensures 4 <= n <= 6 ==> j + PipelineEffects(d, b)[..n] == j + StatusStage(d) + RowStage(b)[..n - 4]
    ensures 6 <= n ==> j + PipelineEffects(d, b)[..n] == j + StatusStage(d) + RowStage(b) + StoreStage(d, b)[..n - 6]
  {
    StagePrefix(j, StatusStage(d), RowStage(b), StoreStage(d, b), n);
    assert PipelineEffects(d, b) == StatusStage(d) + RowStage(b) + StoreStage(d, b);
  }

  lemma BatchParts(s: State, d: DocId, job: Job, cfg: Config)
    requires Fits(s, job)
    ensures var b, kept := BatchOf(s, d, job, cfg), KeptOf(s, job, cfg);
            var base := MaxVid(s.rows + b.rows);
            && b == BatchFor(s.rows, d, job, kept, cfg.embed) && base >= -1
            && b.recs == NewRecords(d, job, kept, base, cfg.embed) && b.texts == NewTexts(job, kept)
  {
  }

  lemma NewIdIs(job: Job, kept: seq<nat>, base: int, j: nat)
    requires base >= -1 && j < |kept| && |job.ids| == |job.drafts| && Distinct(job.ids)
    requires IncreasingBelow(kept, |job.drafts|)
    ensures var c := job.ids[kept[j]]; c in NewIds(job, kept, base) && NewIds(job, kept, base)[c] == base + 1 + j
  {
    var c := job.ids[kept[j]];
    assert c in job.ids;
    var i := IndexOf(job.ids, c);
    assert i == kept[j] && i in kept;
    var k := IndexOf(kept, i);
    assert k == j;
  }

  lemma NewIdFrom(job: Job, kept: seq<nat>, base: int, c: ChunkId) returns (j: nat)
    requires base >= -1 && c in NewIds(job, kept, base)
    ensures j < |kept| && kept[j] < |job.ids| && job.ids[kept[j]] == c
  {
    j := IndexOf(kept, IndexOf(job.ids, c));
  }

  ghost predicate HoldsIds(ids: map<ChunkId, VectorId>, job: Job, kept: seq<nat>, base: int, n: nat)
    requires n <= |kept| && |job.ids| == |job.drafts| && IncreasingBelow(kept, |job.drafts|)
  {
    && (forall c :: c in ids ==> exists i :: 0 <= i < n && job.ids[kept[i]] == c)
    && forall i :: 0 <= i < n ==> job.ids[kept[i]] in ids && ids[job.ids[kept[i]]] == base + 1 + i
  }

  lemma HeldIdIsNew(ids: map<ChunkId, VectorId>, job: Job, kept: seq<nat>, base: int, c: ChunkId)
    requires base >= -1 && |job.ids| == |job.drafts| && Distinct(job.ids)
    requires IncreasingBelow(kept, |job.drafts|) && HoldsIds(ids, job, kept, base, |kept|) && c in ids
    ensures c in NewIds(job, kept, base) && NewIds(job, kept, base)[c] == ids[c]
  {
    var i :| 0 <= i < |kept| && job.ids[kept[i]] == c;
    NewIdIs(job, kept, base, i);
  }

  lemma NewIdIsHeld(ids: map<ChunkId, VectorId>, job: Job, kept: seq<nat>, base: int, c: ChunkId)
    requires base >= -1 && |job.ids| == |job.drafts| && IncreasingBelow(kept, |job.drafts|)
    requires HoldsIds(ids, job, kept, base, |kept|) && c in NewIds(job, kept, base)
    ensures c in ids
  {
    var j := NewIdFrom(job, kept, base, c);
  }

  lemma HeldIdsAreNewIds(ids: map<ChunkId, VectorId>, job: Job, kept: seq<nat>, base: int)
    requires base >= -1 && |job.ids| == |job.drafts| && Distinct(job.ids)
    requires IncreasingBelow(kept, |job.drafts|) && HoldsIds(ids, job, kept, base, |kept|)
    ensures ids == NewIds(job, kept, base)
  {
    var spec := NewIds(job, kept, base);
    forall c | c in ids ensures c in spec && spec[c] == ids[c] { HeldIdIsNew(ids, job, kept, base, c); }
    forall c | c in spec ensures c in ids { NewIdIsHeld(ids, job, kept, base, c); }
  }

  /** The failure handler can rely on the store's maps wherever the exception came from. */
  ghost predicate MapsAgreeThroughout(s: State, d: DocId, b: Batch) {
    forall k :: 0 <= k <= PIPELINE_LENGTH ==> MapsAgreeAfter(s, PipelineEffects(d, b)[..k])
  }

  ghost predicate MapsAgreeAfter(s: State, es: seq<Effect>) {
    var t := Replay(s, es); MapsAgree(t.chunkOf, t.docOf, t.vidsOf)
  }

  lemma RunKeepsMaps(s: State, d: DocId, b: Batch, threshold: real)
    requires Ready(s, d, b, threshold)
    ensures MapsAgreeThroughout(s, d, b)
  {
    forall k | 0 <= k <= PIPELINE_LENGTH ensures MapsAgreeAfter(s, PipelineEffects(d, b)[..k]) {
      PipelineReaches(s, d, b, k);
      MapsAgreeAfterAdd(s.chunkOf, s.docOf, s.vidsOf, b.recs);
    }
  }

  ghost function RunOrSkip(s: State, d: DocId, job: Job, cfg: Config, raise: Option<nat>): seq<Effect>
    requires Fits(s, job) && CanRaise(raise)
  {
    if d in s.docs then RunEffects(s, d, BatchOf(s, d, job, cfg), raise) else []
  }

  lemma WorkIsDequeueThenRun(s: State, job: Job, cfg: Config, raise: Option<nat>)
    requires s.queue != [] && Fits(s, job) && CanRaise(raise)
    ensures Fits(Apply(s, Dequeue), job)
    ensures WorkEffects(s, job, raise, cfg) == [Dequeue] + RunOrSkip(Apply(s, Dequeue), s.queue[0], job, cfg, raise)
  {
  }

  lemma Regroup(a: seq<Effect>, b: seq<Effect>, c: seq<Effect>)
    ensures (a + b) + c == a + (b + c)
  {
  }

  lemma OperationOutcome(origin: State, j: seq<Effect>, s: State, op: Op, cfg: Config)
    requires s == Replay(origin, j) && Agree(s, cfg.threshold) && Enabled(s, op)
    ensures Agree(Replay(origin, j + EffectsOf(s, op, cfg)), cfg.threshold)
    ensures op.Delete? ==> Replay(origin, j + EffectsOf(s, op, cfg)).docs == s.docs - {op.victim}
  {
    ReplayConcat(origin, j, EffectsOf(s, op, cfg));
    OperationKeepsAgreement(s, op, cfg);
    if op.Delete? && op.victim in s.docs {
      assert DeleteEffects(s, op.victim)[..DELETE_LENGTH] == DeleteEffects(s, op.victim);
      DeleteReaches(s, op.victim, DELETE_LENGTH);
    }
  }

  lemma DequeueKeepsConsistent(s: State, threshold: real)
    requires Consistent(s, threshold)
    ensures Consistent(Apply(s, Dequeue), threshold)
  {
  }

  /** What forgetting a document in the store comes to. */
  lemma Forgotten(v: State, d: DocId)
    ensures var vids := VidsOf(v.vidsOf, d);
            Apply(Apply(Apply(v, ForgetDoc(d)), RemoveVectors(vids)), UnmapVectors(vids)) ==
            State(v.docs, v.rows, v.file, v.index - vids, v.chunkOf - vids, v.docOf - vids, v.vidsOf - {d}, v.corpus,
              v.queue)
  {
  }

  lemma Upserted(v: State, recs: seq<Record>)
    ensures Apply(Apply(v, AddVectors(recs)), MapVectors(recs)) ==
            State(v.docs, v.rows, v.file, v.index + VectorsOf(recs), v.chunkOf + ChunksOf(recs),
              v.docOf + OwnersOf(recs), WithVids(v.vidsOf, recs), v.corpus, v.queue)
  {
  }

  lemma NewTextsStep(job: Job, kept: seq<nat>, j: nat)
    requires j < |kept|
    requires |job.ids| == |job.drafts| && Distinct(job.ids) && IncreasingBelow(kept, |job.drafts|)
    ensures NewTexts(job, kept[..j + 1]) == NewTexts(job, kept[..j])[job.ids[kept[j]] := job.drafts[kept[j]].text]
  {
    var before, after := kept[..j], kept[..j + 1];
    assert after == before + [kept[j]];
    assert IndexOf(job.ids, job.ids[kept[j]]) == kept[j];
    assert forall c :: c in job.ids && IndexOf(job.ids, c) == kept[j] ==> c == job.ids[kept[j]];
  }

  class Server {
    const db: Database
    const store: FaissVectorStore
    const bm25: BM25Index
    var queue: seq<DocId>
    ghost const origin: State
    ghost var journal: seq<Effect>

    constructor (db: Database, store: FaissVectorStore, bm25: BM25Index, queue: seq<DocId>)
      ensures this.db == db && this.store == store && this.bm25 == bm25 && this.queue == queue
      ensures journal == [] && Valid()
    {
      this.db, this.store, this.bm25, this.queue := db, store, bm25, queue;
      origin := State(db.docs, db.rows, store.file, store.index, store.chunkOf, store.docOf, store.vidsOf,
                      bm25.corpus, queue);
      journal := [];
    }

    ghost function View(): State
      reads this, db, store, bm25
    {
      State(db.docs, db.rows, store.file, store.index, store.chunkOf, store.docOf, store.vidsOf, bm25.corpus, queue)
    }

    /** The state is what the journal says it is: nothing else has written to it. */
    ghost predicate Valid()
      reads this, db, store, bm25
    {
      View() == Replay(origin, journal)
    }

    ghost method Journalled(e: Effect)
      requires View() == Apply(Replay(origin, journal), e)
      modifies this`journal
      ensures Valid() && journal == old(journal) + [e]
    {
      ghost var v, longer := View(), journal + [e];
      assert v == Replay(origin, longer) by { ReplayStep(origin, journal, e); }
      journal := longer;
      assert View() == v;
    }

    ghost method JournalledTwo(a: Effect, b: Effect)
      requires View() == Apply(Apply(Replay(origin, journal), a), b)
      modifies this`journal
      ensures Valid() && journal == old(journal) + [a, b]
    {
      ghost var v, longer := View(), journal + [a, b];
      assert v == Replay(origin, longer) by { ReplayTwo(origin, journal, a, b); }
      journal := longer;
      assert View() == v;
    }

    // ---- one write each

    method UpdateStatus(d: DocId, st: Status)
      requires Valid()
      modifies this`journal, db`docs
      ensures Valid() && journal == old(journal) + [SetStatus(d, st)]
    {
      db.UpdateStatus(d, st);
      Journalled(SetStatus(d, st));
    }

    method InsertRows(rows: Rows)
      requires Valid()
      modifies this`journal, db`rows
      ensures Valid() && journal == old(journal) + [Effect.InsertRows(rows)]
      ensures db.rows == old(db.rows) + rows
    {
      db.BulkCreate(rows);
      Journalled(Effect.InsertRows(rows));
    }

    method AssignIds(ids: map<ChunkId, VectorId>)
      requires Valid()
      modifies this`journal, db`rows
      ensures Valid() && journal == old(journal) + [Effect.AssignIds(ids)]
    {
      db.AssignVectorIds(ids);
      Journalled(Effect.AssignIds(ids));
    }

    /** One upsert is two effects: vectors, then mappings. */
    method Upsert(recs: seq<Record>)
      requires Valid()
      modifies this`journal, store
      ensures Valid() && journal == old(journal) + [AddVectors(recs), MapVectors(recs)]
    {
      Upserted(View(), recs);
      store.Upsert(recs);
      JournalledTwo(AddVectors(recs), MapVectors(recs));
    }

    method Persist()
      requires Valid()
      modifies this`journal, store`file
      ensures Valid() && journal == old(journal) + [Effect.Persist]
    {
      store.Persist();
      Journalled(Effect.Persist);
    }

    method AddTexts(items: map<ChunkId, string>)
      requires Valid()
      modifies this`journal, bm25
      ensures Valid() && journal == old(journal) + [Effect.AddTexts(items)]
    {
      bm25.Add(items);
      Journalled(Effect.AddTexts(items));
    }

    method RemoveTexts(ids: set<ChunkId>)
      requires Valid()
      modifies this`journal, bm25
      ensures Valid() && journal == old(journal) + [Effect.RemoveTexts(ids)]
    {
      bm25.Remove(ids);
      Journalled(Effect.RemoveTexts(ids));
    }

    /** Forgetting a document in the store is three effects. */
    method ForgetVectors(d: DocId)
      requires Valid() && MapsAgree(store.chunkOf, store.docOf, store.vidsOf)
      modifies this`journal, store
      ensures var vids := VidsOf(old(store.vidsOf), d);
              Valid() && journal == old(journal) + [ForgetDoc(d), RemoveVectors(vids), UnmapVectors(vids)]
      ensures MapsAgree(store.chunkOf, store.docOf, store.vidsOf)
    {
      ghost var vids, j := VidsOf(store.vidsOf, d), journal;
      Forgotten(View(), d);
      var removed := store.DeleteByDocument(d);
      ReplayThree(origin, j, ForgetDoc(d), RemoveVectors(vids), UnmapVectors(vids));
      journal := j + [ForgetDoc(d), RemoveVectors(vids), UnmapVectors(vids)];
    }

    method DeleteRows(d: DocId)
      requires Valid()
      modifies this`journal, db`rows
      ensures Valid() && journal == old(journal) + [Effect.DeleteRows(d)]
    {
      var removed := db.DeleteByDocument(d);
      Journalled(Effect.DeleteRows(d));
    }

    method DeleteDoc(d: DocId) returns (deleted: bool)
      requires Valid()
      modifies this`journal, db
      ensures Valid() && journal == old(journal) + [Effect.DeleteDoc(d)]
      ensures deleted == (d in old(db.docs))
    {
      deleted := db.DeleteDocument(d);
      Journalled(Effect.DeleteDoc(d));
    }

    // ---- building what a run inserts

    method RowsFor(d: DocId, job: Job, flags: seq<bool>, ghost kept: seq<nat>) returns (rows: Rows)
      requires |job.ids| == |job.drafts| == |flags| && Distinct(job.ids)
      requires forall i :: 0 <= i < |flags| ==> flags[i] == (i !in kept)
      ensures rows == NewRows(d, job, kept)
    {
      rows := map[];
      for i := 0 to |job.drafts|
        invariant rows.Keys == set j | 0 <= j < i :: job.ids[j]
        invariant forall j :: 0 <= j < i ==> rows[job.ids[j]] == NewRow(d, job, kept, j)
      {
        rows := rows[job.ids[i] := Row(d, i, job.drafts[i].text, job.drafts[i].hash, flags[i], None)];
      }
      forall c | c in job.ids ensures c in rows && rows[c] == NewRows(d, job, kept)[c] {
        var i := IndexOf(job.ids, c);
      }
    }

    method IdsFor(job: Job, kept: seq<nat>, base: int) returns (ids: map<ChunkId, VectorId>)
      requires base >= -1
      requires |job.ids| == |job.drafts| && Distinct(job.ids) && IncreasingBelow(kept, |job.drafts|)
      ensures ids == NewIds(job, kept, base)
    {
      ids := map[];
      for j := 0 to |kept|
        invariant HoldsIds(ids, job, kept, base, j)
      {
        ids := ids[job.ids[kept[j]] := base + 1 + j];
      }
      HeldIdsAreNewIds(ids, job, kept, base);
    }

    method TextsFor(job: Job, kept: seq<nat>) returns (texts: map<ChunkId, string>)
      requires |job.ids| == |job.drafts| && Distinct(job.ids) && IncreasingBelow(kept, |job.drafts|)
      ensures texts == NewTexts(job, kept)
    {
      texts := map[];
      for j := 0 to |kept|
        invariant texts == NewTexts(job, kept[..j])
      {
        NewTextsStep(job, kept, j);
        texts := texts[job.ids[kept[j]] := job.drafts[kept[j]].text];
      }
      assert kept[..|kept|] == kept;
    }

    method RecordsFor(d: DocId, job: Job, kept: seq<nat>, base: int, vectors: seq<Vector>,
                      ghost embed: string -> Vector)
      returns (recs: seq<Record>)
      requires base >= -1 && |job.ids| == |job.drafts| && IncreasingBelow(kept, |job.drafts|)
      requires AreVectorsOf(vectors, kept, job.drafts, |job.drafts|, embed)
      ensures recs == NewRecords(d, job, kept, base, embed)
    {
      recs := [];
      for j := 0 to |kept|
        invariant recs == NewRecords(d, job, kept, base, embed)[..j]
      {
        recs := recs + [Record(job.ids[kept[j]], d, base + 1 + j, vectors[j])];
      }
    }

    // ---- the worker

    method ReachEmbedding(d: DocId, raise: Option<nat>)
      requires Valid()
      modifies this`journal, db`docs
      ensures Valid()
      ensures journal == old(journal) +
              if raise.Some? && raise.value < 3 then EarlyStage(d)[..raise.value] else EarlyStage(d)
    {
      TripleCut(journal, SetStatus(d, Parsing), SetStatus(d, Chunking), SetStatus(d, Embedding));
      if raise == Some(0) { return; }
      UpdateStatus(d, Parsing);
      if raise == Some(1) { return; }
      UpdateStatus(d, Chunking);
      if raise == Some(2) { return; }
      UpdateStatus(d, Embedding);
    }

    /** The first stages: parsing, chunking, embedding with deduplication, and the step to indexing. An
        exception surfaces after `raise` writes. */
    method Prepare(d: DocId, job: Job, cfg: Config, raise: Option<nat>)
      returns (flags: seq<bool>, kept: seq<nat>, vectors: seq<Vector>)
      requires Valid() && store.Valid() && Fits(View(), job)
      modifies this`journal, db`docs
      ensures Valid()
      ensures journal == old(journal) +
              if raise.Some? && raise.value < 4 then StatusStage(d)[..raise.value] else StatusStage(d)
      ensures !(raise.Some? && raise.value < 4) ==>
                && kept == KeptOf(old(View()), job, cfg)
                && |flags| == |job.drafts| && (forall i :: 0 <= i < |flags| ==> flags[i] == (i !in kept))
                && AreVectorsOf(vectors, kept, job.drafts, |job.drafts|, cfg.embed)
    {
      flags, kept, vectors := [], [], [];
      EarlyCut(journal, d);
      ReachEmbedding(d, raise);
      if raise.Some? && raise.value < 4 { return; }
      flags, kept, vectors := DedupAndEmbed(job.drafts, db, store, cfg.embed, cfg.threshold);
      UpdateStatus(d, Indexing);
    }

    /** The rows are in: their ids go on from the largest one assigned. */
    method AssignNext(job: Job, kept: seq<nat>, ghost b: Batch) returns (base: int)
      requires Valid() && |job.ids| == |job.drafts| && Distinct(job.ids) && IncreasingBelow(kept, |job.drafts|)
      requires b.ids == NewIds(job, kept, MaxVid(db.rows))
      modifies this`journal, db`rows
      ensures Valid() && journal == old(journal) + [Effect.AssignIds(b.ids)] && base == MaxVid(old(db.rows))
    {
      base := db.MaxVectorId();
      var ids := IdsFor(job, kept, base);
      AssignIds(ids);
    }

    /** Indexing, the SQL half: the rows, then their ids. */
    method IndexRows(d: DocId, job: Job, raise: Option<nat>, flags: seq<bool>, kept: seq<nat>, ghost b: Batch,
                     ghost embed: string -> Vector) returns (base: int)
      requires Valid() && Fits(View(), job)
      requires raise.Some? ==> raise.value >= 4
      requires IncreasingBelow(kept, |job.drafts|)
      requires |flags| == |job.drafts| && forall i :: 0 <= i < |flags| ==> flags[i] == (i !in kept)
      requires b == BatchFor(db.rows, d, job, kept, embed)
      modifies this`journal, db`rows
      ensures Valid()
      ensures journal == old(journal) +
              if raise.Some? && raise.value < 6 then RowStage(b)[..raise.value - 4] else RowStage(b)
      ensures !(raise.Some? && raise.value < 6) ==> base == MaxVid(old(db.rows) + b.rows)
    {
      PairCut(journal, Effect.InsertRows(b.rows), Effect.AssignIds(b.ids));
      base := -1;
      if raise == Some(4) { return; }
      var rows := RowsFor(d, job, flags, kept);
      InsertRows(rows);
      if raise == Some(5) { return; }
      base := AssignNext(job, kept, b);
    }

    /** Indexing, the stores: vectors, then the file, then BM25, then done. */
    method IndexStores(d: DocId, job: Job, raise: Option<nat>, kept: seq<nat>, base: int, vectors: seq<Vector>,
                       ghost b: Batch, ghost embed: string -> Vector)
      requires Valid() && CanRaise(raise)
      requires raise.Some? ==> raise.value >= 6
      requires base >= -1 && |job.ids| == |job.drafts| && Distinct(job.ids) && IncreasingBelow(kept, |job.drafts|)
      requires AreVectorsOf(vectors, kept, job.drafts, |job.drafts|, embed)
      requires b.recs == NewRecords(d, job, kept, base, embed) && b.texts == NewTexts(job, kept)
      modifies this`journal, db`docs, store, bm25
      ensures Valid()
      ensures journal == old(journal) + if raise.Some? then StoreStage(d, b)[..raise.value - 6] else StoreStage(d, b)
    {
      if raise == Some(6) { return; }
      StoreCut(journal, d, b, if raise.Some? then raise.value - 6 else 5);
      var recs := RecordsFor(d, job, kept, base, vectors, embed);
      Upsert(recs);
      Finish(d, job, raise, kept, b);
    }

    method Finish(d: DocId, job: Job, raise: Option<nat>, kept: seq<nat>, ghost b: Batch)
      requires Valid() && CanRaise(raise)
      requires raise.Some? ==> raise.value >= 8
      requires |job.ids| == |job.drafts| && Distinct(job.ids) && IncreasingBelow(kept, |job.drafts|)
      requires b.texts == NewTexts(job, kept)
      modifies this`journal, db`docs, store`file, bm25
      ensures Valid()
      ensures journal == old(journal) + if raise.Some? then FinishStage(d, b)[..raise.value - 8] else FinishStage(d, b)
    {
      TripleCut(journal, Effect.Persist, Effect.AddTexts(b.texts), SetStatus(d, Done));
      if raise == Some(8) { return; }
      Persist();
      if raise == Some(9) { return; }
      var texts := TextsFor(job, kept);
      AddTexts(texts);
      if raise == Some(10) { return; }
      UpdateStatus(d, Done);
    }

    /** The part of a run the failure handler guards. */
    method Attempt(d: DocId, job: Job, cfg: Config, raise: Option<nat>, ghost b: Batch)
      requires Valid() && store.Valid() && Fits(View(), job) && CanRaise(raise)
      requires b == BatchOf(View(), d, job, cfg)
      modifies this`journal, db, store, bm25
      ensures Valid()
      ensures journal == old(journal) + PipelineEffects(d, b)[..if raise.Some? then raise.value else PIPELINE_LENGTH]
    {
      PipelineCut(journal, d, b, if raise.Some? then raise.value else PIPELINE_LENGTH);
      BatchParts(View(), d, job, cfg);
      var flags, kept, vectors := Prepare(d, job, cfg, raise);
      if raise.Some? && raise.value < 4 { return; }
      var base := IndexRows(d, job, raise, flags, kept, b, cfg.embed);
      if raise.Some? && raise.value < 6 { return; }
      IndexStores(d, job, raise, kept, base, vectors, b, cfg.embed);
    }

    method CleanUp(d: DocId)
      requires Valid() && MapsAgree(store.chunkOf, store.docOf, store.vidsOf)
      modifies this`journal, db, store, bm25
      ensures Valid() && journal == old(journal) + CleanupEffects(old(View()), d)
    {
      ForgetVectors(d);
      Persist();
      CleanTables(d);
    }

    /** The handler's second half: rows, texts, status. */
    method CleanTables(d: DocId)
      requires Valid()
      modifies this`journal, db, bm25
      ensures Valid()
      ensures journal == old(journal) +
                         [Effect.DeleteRows(d), Effect.RemoveTexts(ChunksOfDoc(old(db.rows), d)), SetStatus(d, Failed)]
    {
      var removed := db.ListByDocument(d);
      DeleteRows(d);
      RemoveTexts(removed);
      UpdateStatus(d, Failed);
    }

    lemma Reached(j: seq<Effect>, es: seq<Effect>)
      requires Valid() && journal == j + es
      ensures View() == Replay(Replay(origin, j), es)
    {
      ReplayConcat(origin, j, es);
    }

    /** The attempt, and the failure handler when it raised. */
    method Run(d: DocId, job: Job, cfg: Config, raise: Option<nat>, ghost b: Batch)
      requires Valid() && store.Valid() && Fits(View(), job) && CanRaise(raise)
      requires b == BatchOf(View(), d, job, cfg) && MapsAgreeThroughout(View(), d, b)
      modifies this`journal, db, store, bm25
      ensures Valid()
      ensures journal == old(journal) + RunEffects(old(View()), d, b, raise)
    {
      ghost var s, j := View(), journal;
      Attempt(d, job, cfg, raise, b);
      if raise.Some? {
        Reached(j, PipelineEffects(d, b)[..raise.value]);
        assert MapsAgreeAfter(s, PipelineEffects(d, b)[..raise.value]);
        CleanUp(d);
      }
    }

    /** One document, start to finish: the happy path, or an exception and the failure handler. */
    method RunPipeline(d: DocId, job: Job, cfg: Config, raise: Option<nat>)
      requires Valid() && Consistent(View(), cfg.threshold)
      requires d in db.docs && db.docs[d].status == Queued && Fits(View(), job) && CanRaise(raise)
      modifies this`journal, db, store, bm25
      ensures Valid()
      ensures journal == old(journal) + RunEffects(old(View()), d, BatchOf(old(View()), d, job, cfg), raise)
    {
      ghost var b := BatchOf(View(), d, job, cfg);
      BatchIsGood(View(), d, job, cfg);
      RunKeepsMaps(View(), d, b, cfg.threshold);
      Run(d, job, cfg, raise, b);
    }

    /** A document deleted while it waited is skipped. */
    method RunIfPresent(d: DocId, job: Job, cfg: Config, raise: Option<nat>)
      requires Valid() && Consistent(View(), cfg.threshold) && Fits(View(), job) && CanRaise(raise)
      requires d in db.docs ==> db.docs[d].status == Queued
      modifies this`journal, db, store, bm25
      ensures Valid()
      ensures journal == old(journal) + RunOrSkip(old(View()), d, job, cfg, raise)
    {
      if d in db.docs {
        RunPipeline(d, job, cfg, raise);
      }
    }

    method RunNext(job: Job, cfg: Config, raise: Option<nat>)
      requires Valid() && queue != [] && Fits(View(), job) && CanRaise(raise)
      requires Consistent(View(), cfg.threshold)
      requires queue[0] in db.docs ==> db.docs[queue[0]].status == Queued
      modifies this, db, store, bm25
      ensures Valid()
      ensures journal == old(journal) + WorkEffects(old(View()), job, raise, cfg)
    {
      ghost var s, j := View(), journal;
      DequeueKeepsConsistent(s, cfg.threshold);
      var d := Next();
      WorkIsDequeueThenRun(s, job, cfg, raise);
      RunIfPresent(d, job, cfg, raise);
      Regroup(j, [Dequeue], RunOrSkip(Apply(s, Dequeue), d, job, cfg, raise));
    }

    method Next() returns (d: DocId)
      requires Valid() && queue != []
      modifies this
      ensures Valid() && journal == old(journal) + [Dequeue]
      ensures d == old(queue)[0] && View() == Apply(old(View()), Dequeue)
    {
      d := queue[0];
      queue := queue[1..];
      Journalled(Dequeue);
    }

    /** The worker takes one id off its queue; a document deleted meanwhile is not an error. */
    method WorkOnce(job: Job, cfg: Config, raise: Option<nat>)
      requires Valid() && Agree(View(), cfg.threshold) && Enabled(View(), Work(job, raise))
      modifies this, db, store, bm25
      ensures Valid()
      ensures journal == old(journal) + EffectsOf(old(View()), Work(job, raise), cfg)
      ensures Agree(View(), cfg.threshold)
    {
      ghost var s, j := View(), journal;
      assert queue[0] in queue;
      RunNext(job, cfg, raise);
      OperationOutcome(origin, j, s, Work(job, raise), cfg);
    }

    method Purge(d: DocId) returns (deleted: bool)
      requires Valid() && MapsAgree(store.chunkOf, store.docOf, store.vidsOf)
      modifies this`journal, db, store, bm25
      ensures Valid()
      ensures deleted == (d in old(db.docs))
      ensures journal == old(journal) + DeleteEffects(old(View()), d)
    {
      if d !in db.docs { return false; }
      var chunks := db.ListByDocument(d);
      deleted := DeleteDoc(d);
      if deleted {
        ForgetVectors(d);
        Persist();
        RemoveTexts(chunks);
      }
    }

    /** SQL first (chunk rows cascade), then the store and its file, then BM25. */
    method Delete(d: DocId, ghost cfg: Config) returns (deleted: bool)
      requires Valid() && Agree(View(), cfg.threshold)
      modifies this`journal, db, store, bm25
      ensures Valid()
      ensures deleted == (d in old(db.docs)) && db.docs == old(db.docs) - {d}
      ensures journal == old(journal) + EffectsOf(old(View()), Op.Delete(d), cfg)
      ensures Agree(View(), cfg.threshold)
    {
      ghost var s, j := View(), journal;
      deleted := Purge(d);
      OperationOutcome(origin, j, s, Op.Delete(d), cfg);
    }

    /** The row first, then the queue. */
    method AddAndEnqueue(d: DocId, created: nat)
      requires Valid() && d !in db.docs
      modifies this, db
      ensures Valid() && journal == old(journal) + [AddDoc(d, created), Enqueue(d)]
    {
      db.CreateDocument(d, created);
      Journalled(AddDoc(d, created));
      queue := queue + [d];
      Journalled(Enqueue(d));
    }

    method Upload(d: DocId, created: nat, ghost cfg: Config)
      requires Valid() && Agree(View(), cfg.threshold) && Enabled(View(), Op.Upload(d, created))
      modifies this, db
      ensures Valid()
      ensures journal == old(journal) + [AddDoc(d, created), Enqueue(d)]
      ensures Agree(View(), cfg.threshold)
    {
      ghost var s, j := View(), journal;
      AddAndEnqueue(d, created);
      OperationOutcome(origin, j, s, Op.Upload(d, created), cfg);
    }
  }
}
