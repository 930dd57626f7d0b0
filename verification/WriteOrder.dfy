/** In what order a run and a delete change the stores, at every point between two writes. */
module WriteOrder {
  import opened Values
  import opened World
  import opened Invariants
  import opened Pipeline
  import opened PipelineProof
  import opened Runs

  // ---- a run

  /** A chunk of the run: a row there was not before. */
  predicate NewRow(s: State, t: State, c: ChunkId) {
    c in t.rows && c !in s.rows
  }

  /** The row has its id and the file its vector. */
  predicate OnDisk(t: State, c: ChunkId) {
    c in t.rows && t.rows[c].vid.Some? && t.rows[c].vid.value in t.file
  }

  ghost predicate AllStored(s: State, t: State) {
    forall c :: NewRow(s, t, c) && !t.rows[c].dup ==> OnDisk(t, c) && c in t.corpus
  }

  /** Status before rows, rows and ids before vectors, vectors and maps before the file, the file before the texts,
      everything before the document is done. */
  ghost predicate RunOrder(s: State, t: State, d: DocId)
    requires d in t.docs
  {
    var st := t.docs[d].status;
    && (forall c :: NewRow(s, t, c) ==> t.rows[c].doc == d && (st == Indexing || st == Done))
    && (forall v :: v in t.index && v !in s.index ==> exists c :: NewRow(s, t, c) && t.rows[c].vid == Some(v))
    && (forall v :: v in t.file && v !in s.file ==> t.file == t.index && v in t.chunkOf)
    && (forall c :: c in t.corpus && c !in s.corpus ==> OnDisk(t, c))
    && (st == Done ==> AllStored(s, t))
  }

  /** The stages a document goes through. */
  predicate Advances(before: Status, after: Status) {
    match before
    case Queued => after.Parsing?
    case Parsing => after.Chunking?
    case Chunking => after.Embedding?
    case Embedding => after.Indexing?
    case Indexing => after.Indexing? || after.Done?
    case _ => false
  }

  lemma NewRowIs(old': Rows, new': Rows, ids: map<ChunkId, VectorId>, d: DocId, c: ChunkId)
    requires Joins(old', new', ids, d) && c in old' + new' && c !in old'
    ensures var rows := WithIds(old' + new', ids);
            c in new' && (old' + new')[c].doc == d && c in rows && rows[c].doc == d && rows[c].dup == new'[c].dup
  {
    JoinedAt(old', new', ids, d, c);
  }

  lemma NewRowOwner(s: State, d: DocId, b: Batch, k: nat, c: ChunkId)
    requires Joins(s.rows, b.rows, b.ids, d) && k <= PIPELINE_LENGTH && NewRow(s, At(s, d, b, k), c)
    ensures At(s, d, b, k).rows[c].doc == d && k >= 5
  {
    NewRowIs(s.rows, b.rows, b.ids, d, c);
  }

  lemma RowsInOrder(s: State, d: DocId, b: Batch, threshold: real, k: nat)
    requires Ready(s, d, b, threshold) && k <= PIPELINE_LENGTH
    ensures var t := At(s, d, b, k);
            && d in t.docs
            && forall c :: NewRow(s, t, c) ==>
                 t.rows[c].doc == d && (t.docs[d].status == Indexing || t.docs[d].status == Done)
  {
    ReadyJoins(s, d, b, threshold);
    forall c | NewRow(s, At(s, d, b, k), c) ensures At(s, d, b, k).rows[c].doc == d && k >= 5 {
      NewRowOwner(s, d, b, k, c);
    }
  }

  lemma IdHasRow(old': Rows, new': Rows, ids: map<ChunkId, VectorId>, d: DocId, v: VectorId)
    requires Joins(old', new', ids, d) && v in ids.Values
    ensures var rows := WithIds(old' + new', ids); exists c :: c in rows && c !in old' && rows[c].vid == Some(v)
  {
    var c :| c in ids && ids[c] == v;
    JoinedAt(old', new', ids, d, c);
  }

  lemma NewVectorHasRow(s: State, d: DocId, b: Batch, threshold: real, v: VectorId)
    requires Ready(s, d, b, threshold) && v in Vectors(s, b) && v !in s.index
    ensures exists c :: c in Indexed(s, b) && c !in s.rows && Indexed(s, b)[c].vid == Some(v)
  {
    ReadyIds(s, d, b, threshold);
    ReadyJoins(s, d, b, threshold);
    IdHasRow(s.rows, b.rows, b.ids, d, v);
  }

  lemma VectorsAfterRows(s: State, d: DocId, b: Batch, threshold: real, k: nat)
    requires Ready(s, d, b, threshold) && k <= PIPELINE_LENGTH
    ensures var t := At(s, d, b, k);
            forall v :: v in t.index && v !in s.index ==> exists c :: NewRow(s, t, c) && t.rows[c].vid == Some(v)
  {
    var t := At(s, d, b, k);
    forall v | v in t.index && v !in s.index ensures exists c :: NewRow(s, t, c) && t.rows[c].vid == Some(v) {
      NewVectorHasRow(s, d, b, threshold, v);
      var c :| c in Indexed(s, b) && c !in s.rows && Indexed(s, b)[c].vid == Some(v);
      assert NewRow(s, t, c);
    }
  }

  lemma MapsCoverNew(s: State, d: DocId, b: Batch, threshold: real)
    requires Ready(s, d, b, threshold)
    ensures s.file == s.index && (s.chunkOf + ChunksOf(b.recs)).Keys == Vectors(s, b).Keys
  {
    ReadyIds(s, d, b, threshold);
  }

  lemma FileAfterVectors(s: State, d: DocId, b: Batch, threshold: real, k: nat)
    requires Ready(s, d, b, threshold) && k <= PIPELINE_LENGTH
    ensures var t := At(s, d, b, k);
            forall v :: v in t.file && v !in s.file ==> t.file == t.index && v in t.chunkOf
  {
    MapsCoverNew(s, d, b, threshold);
  }

  /** A row that is not a duplicate has its vector in the index from the moment the vectors are in. */
  lemma IndexedRowHasVector(s: State, d: DocId, b: Batch, threshold: real, c: ChunkId)
    requires Ready(s, d, b, threshold) && c in b.rows && !b.rows[c].dup
    ensures var rows := Indexed(s, b);
            c in rows && !rows[c].dup && rows[c].vid.Some? && rows[c].vid.value in Vectors(s, b)
  {
    ReadyIds(s, d, b, threshold);
    ReadyJoins(s, d, b, threshold);
    JoinedAt(s.rows, b.rows, b.ids, d, c);
    assert b.ids[c] in b.ids.Values;
  }

  lemma TextsAfterFile(s: State, d: DocId, b: Batch, threshold: real, k: nat)
    requires Ready(s, d, b, threshold) && k <= PIPELINE_LENGTH
    ensures var t := At(s, d, b, k);
            forall c :: c in t.corpus && c !in s.corpus ==> OnDisk(t, c)
  {
    forall c | c in At(s, d, b, k).corpus && c !in s.corpus ensures OnDisk(At(s, d, b, k), c) {
      IndexedRowHasVector(s, d, b, threshold, c);
    }
  }

  lemma StoredWhenDone(s: State, d: DocId, b: Batch, threshold: real, c: ChunkId)
    requires Ready(s, d, b, threshold) && NewRow(s, At(s, d, b, PIPELINE_LENGTH), c)
    requires !At(s, d, b, PIPELINE_LENGTH).rows[c].dup
    ensures OnDisk(At(s, d, b, PIPELINE_LENGTH), c) && c in At(s, d, b, PIPELINE_LENGTH).corpus
  {
    ReadyJoins(s, d, b, threshold);
    NewRowIs(s.rows, b.rows, b.ids, d, c);
    IndexedRowHasVector(s, d, b, threshold, c);
  }

  lemma AllStoredAtEnd(s: State, t: State, d: DocId, b: Batch, threshold: real)
    requires Ready(s, d, b, threshold) && t == At(s, d, b, PIPELINE_LENGTH)
    ensures AllStored(s, t)
  {
    forall c | NewRow(s, t, c) && !t.rows[c].dup ensures OnDisk(t, c) && c in t.corpus {
      StoredWhenDone(s, d, b, threshold, c);
    }
  }

  lemma DoneOnlyAtEnd(s: State, d: DocId, b: Batch, k: nat)
    requires d in s.docs && s.docs[d].status == Queued && k <= PIPELINE_LENGTH
    ensures d in At(s, d, b, k).docs && (At(s, d, b, k).docs[d].status == Done ==> k == PIPELINE_LENGTH)
  {
  }

  lemma RunInOrder(s: State, d: DocId, b: Batch, threshold: real, k: nat)
    requires Ready(s, d, b, threshold) && k <= PIPELINE_LENGTH
    ensures d in At(s, d, b, k).docs && RunOrder(s, At(s, d, b, k), d)
  {
    RowsInOrder(s, d, b, threshold, k);
    VectorsAfterRows(s, d, b, threshold, k);
    FileAfterVectors(s, d, b, threshold, k);
    TextsAfterFile(s, d, b, threshold, k);
    DoneOnlyAtEnd(s, d, b, k);
    if k == PIPELINE_LENGTH { AllStoredAtEnd(s, At(s, d, b, k), d, b, threshold); }
  }

  lemma StagesInOrder(s: State, d: DocId, b: Batch, k: nat)
    requires d in s.docs && s.docs[d].status == Queued && k < PIPELINE_LENGTH
    ensures d in At(s, d, b, k).docs && d in At(s, d, b, k + 1).docs
    ensures Advances(At(s, d, b, k).docs[d].status, At(s, d, b, k + 1).docs[d].status)
  {
  }

  // ---- the failure handler

  /** Vectors leave memory and disk before their rows go, and the document has failed only when nothing of the run
      is left. */
  ghost predicate HandlerOrder(s: State, t: State, d: DocId)
    requires d in t.docs
  {
    && (forall v :: (v in t.index && v !in s.index) || (v in t.file && v !in s.file) ==>
          exists c :: NewRow(s, t, c) && t.rows[c].vid == Some(v))
    && (t.docs[d].status == Failed ==>
          t.rows == s.rows && t.index == s.index && t.file == s.file && t.corpus == s.corpus)
  }

  lemma FileVectorHasRow(s: State, d: DocId, b: Batch, threshold: real, n: nat, v: VectorId)
    requires Ready(s, d, b, threshold) && n <= PIPELINE_LENGTH
    requires var t := At(s, d, b, n); (v in t.index && v !in s.index) || (v in t.file && v !in s.file)
    ensures exists c :: NewRow(s, At(s, d, b, n), c) && At(s, d, b, n).rows[c].vid == Some(v)
  {
    FileAfterVectors(s, d, b, threshold, n);
    VectorsAfterRows(s, d, b, threshold, n);
    MapsCoverNew(s, d, b, threshold);
  }

  lemma HandlerLeavesFewer(s: State, d: DocId, b: Batch, threshold: real, n: nat, m: nat, v: VectorId)
    requires Ready(s, d, b, threshold) && n <= PIPELINE_LENGTH && n != MID_UPSERT && m <= CLEANUP_LENGTH
    requires var t := CleaningAt(At(s, d, b, n), d, m); (v in t.index && v !in s.index) || (v in t.file && v !in s.file)
    ensures m < 5 && CleaningAt(At(s, d, b, n), d, m).rows == At(s, d, b, n).rows
    ensures var t := At(s, d, b, n); (v in t.index && v !in s.index) || (v in t.file && v !in s.file)
  {
    CleanupRestoresStore(s, d, b, threshold, n);
    MapsCoverNew(s, d, b, threshold);
  }

  lemma FailedOnlyAtEnd(s: State, d: DocId, b: Batch, n: nat, m: nat)
    requires d in s.docs && s.docs[d].status == Queued && n <= PIPELINE_LENGTH && m <= CLEANUP_LENGTH
    ensures var t := CleaningAt(At(s, d, b, n), d, m);
            d in t.docs && (t.docs[d].status == Failed ==> m == CLEANUP_LENGTH)
  {
  }

  lemma HandlerInOrder(s: State, d: DocId, b: Batch, threshold: real, n: nat, m: nat)
    requires Ready(s, d, b, threshold) && n <= PIPELINE_LENGTH && n != MID_UPSERT && m <= CLEANUP_LENGTH
    ensures var t := CleaningAt(At(s, d, b, n), d, m); d in t.docs && HandlerOrder(s, t, d)
  {
    var t := CleaningAt(At(s, d, b, n), d, m);
    forall v | (v in t.index && v !in s.index) || (v in t.file && v !in s.file)
      ensures exists c :: NewRow(s, t, c) && t.rows[c].vid == Some(v)
    {
      HandlerLeavesFewer(s, d, b, threshold, n, m, v);
      FileVectorHasRow(s, d, b, threshold, n, v);
      var c :| NewRow(s, At(s, d, b, n), c) && At(s, d, b, n).rows[c].vid == Some(v);
      assert NewRow(s, t, c);
    }
    FailedOnlyAtEnd(s, d, b, n, m);
    FailureRestores(s, d, b, threshold, n);
  }

  // ---- a delete

  /** SQL first: while the document is listed nothing is missing, and once a vector or a text is gone no row of it is
      left; the file follows the index, the texts go last. */
  ghost predicate DeleteOrder(s: State, t: State, d: DocId) {
    && (d in t.docs ==> t == s)
    && (d !in t.docs ==> forall c :: c in t.rows ==> t.rows[c].doc != d)
    && (forall v :: v in s.file && v !in t.file ==> v !in t.index && v !in t.chunkOf)
    && (t.corpus != s.corpus ==> t.file == t.index)
  }

  lemma DeleteInOrder(s: State, d: DocId, cfg: Config, k: nat)
    requires Agree(s, cfg.threshold) && d in s.docs && k <= |EffectsOf(s, Delete(d), cfg)|
    ensures DeleteOrder(s, Replay(s, EffectsOf(s, Delete(d), cfg)[..k]), d)
  {
    DeleteReaches(s, d, k);
    FileIsIndex(s, cfg.threshold);
  }

  /** No id waits whose document is not stored yet. */
  lemma UploadInOrder(s: State, d: DocId, created: nat, cfg: Config, k: nat)
    requires Enabled(s, Upload(d, created)) && k <= |EffectsOf(s, Upload(d, created), cfg)|
    ensures var t := Replay(s, EffectsOf(s, Upload(d, created), cfg)[..k]); d in t.queue ==> d in t.docs
  {
    var es := EffectsOf(s, Upload(d, created), cfg);
    UploadSteps(s, d, created);
    assert es[..0] == [] && es[..1] == [AddDoc(d, created), Enqueue(d)][..1] && es[..2] == es;
    assert k == 0 || k == 1 || k == 2;
  }

  lemma FileIsIndex(s: State, threshold: real)
    requires Agree(s, threshold)
    ensures s.file == s.index
  {
  }

  // ---- as operations

  lemma PipelinePart(s: State, d: DocId, b: Batch, raise: Option<nat>, k: nat)
    requires CanRaise(raise) && k <= if raise.Some? then raise.value else PIPELINE_LENGTH
    ensures k <= |RunEffects(s, d, b, raise)| && Replay(s, RunEffects(s, d, b, raise)[..k]) == At(s, d, b, k)
  {
    PipelineReaches(s, d, b, k);
    if raise.Some? {
      var es, n := PipelineEffects(d, b), raise.value;
      assert (es[..n] + CleanupEffects(Replay(s, es[..n]), d))[..k] == es[..k];
    }
  }

  lemma HandlerPart(s: State, d: DocId, b: Batch, n: nat, m: nat)
    requires CanRaise(Some(n)) && m <= CLEANUP_LENGTH
    ensures n + m <= |RunEffects(s, d, b, Some(n))|
    ensures Replay(s, RunEffects(s, d, b, Some(n))[..n + m]) == CleaningAt(At(s, d, b, n), d, m)
  {
    var es, t := PipelineEffects(d, b), At(s, d, b, n);
    FailedRunEffects(s, d, b, n);
    PipelineReaches(s, d, b, n);
    assert (es[..n] + CleanupEffects(t, d))[..n + m] == es[..n] + CleanupEffects(t, d)[..m];
    ReplayConcat(s, es[..n], CleanupEffects(t, d)[..m]);
    CleanupReaches(t, d, m);
  }

  lemma CutOfWork(s: State, d: DocId, job: Job, raise: Option<nat>, cfg: Config, k: nat)
    requires s.queue != [] && d == s.queue[0] && d in s.docs && Fits(s, job) && CanRaise(raise)
    requires var after := Apply(s, Dequeue); k <= |RunEffects(after, d, BatchOf(after, d, job, cfg), raise)|
    ensures k + 1 <= |WorkEffects(s, job, raise, cfg)|
    ensures var after := Apply(s, Dequeue);
            Replay(s, WorkEffects(s, job, raise, cfg)[..k + 1]) ==
            Replay(after, RunEffects(after, d, BatchOf(after, d, job, cfg), raise)[..k])
  {
    var after := Apply(s, Dequeue);
    AfterDequeue(s, RunEffects(after, d, BatchOf(after, d, job, cfg), raise), k + 1);
  }

  lemma RunPartInOrder(s: State, d: DocId, b: Batch, threshold: real, raise: Option<nat>, k: nat)
    requires Ready(s, d, b, threshold) && CanRaise(raise)
    requires k <= if raise.Some? then raise.value else PIPELINE_LENGTH
    ensures k <= |RunEffects(s, d, b, raise)|
    ensures var t := Replay(s, RunEffects(s, d, b, raise)[..k]); d in t.docs && RunOrder(s, t, d)
  {
    PipelinePart(s, d, b, raise, k);
    RunInOrder(s, d, b, threshold, k);
  }

  lemma HandlerPartInOrder(s: State, d: DocId, b: Batch, threshold: real, n: nat, m: nat)
    requires Ready(s, d, b, threshold) && CanRaise(Some(n)) && m <= CLEANUP_LENGTH
    ensures n + m <= |RunEffects(s, d, b, Some(n))|
    ensures var t := Replay(s, RunEffects(s, d, b, Some(n))[..n + m]); d in t.docs && HandlerOrder(s, t, d)
  {
    HandlerPart(s, d, b, n, m);
    HandlerInOrder(s, d, b, threshold, n, m);
  }

  /** A run cut after `k` writes, none of them the handler's. */
  lemma RunWritesInOrder(s: State, job: Job, raise: Option<nat>, cfg: Config, k: nat)
    requires Agree(s, cfg.threshold) && Enabled(s, Work(job, raise)) && s.queue[0] in s.docs
    requires k <= if raise.Some? then raise.value else PIPELINE_LENGTH
    ensures k + 1 <= |EffectsOf(s, Work(job, raise), cfg)|
    ensures var t := Replay(s, EffectsOf(s, Work(job, raise), cfg)[..k + 1]);
            s.queue[0] in t.docs && RunOrder(s, t, s.queue[0])
  {
    var d, after := s.queue[0], Apply(s, Dequeue);
    WorkIsReady(s, job, cfg);
    RunPartInOrder(after, d, BatchOf(after, d, job, cfg), cfg.threshold, raise, k);
    CutOfWork(s, d, job, raise, cfg, k);
    SameRunOrder(s, after, Replay(s, EffectsOf(s, Work(job, raise), cfg)[..k + 1]), d);
  }

  lemma SameRunOrder(s: State, s': State, t: State, d: DocId)
    requires s'.rows == s.rows && s'.index == s.index && s'.file == s.file && s'.corpus == s.corpus
    requires d in t.docs
    ensures RunOrder(s', t, d) ==> RunOrder(s, t, d)
    ensures HandlerOrder(s', t, d) ==> HandlerOrder(s, t, d)
  {
    assert forall c :: NewRow(s, t, c) <==> NewRow(s', t, c);
  }

  /** A run that raised after `n` writes, cut `m` writes into its handler. */
  lemma HandlerWritesInOrder(s: State, job: Job, n: nat, cfg: Config, m: nat)
    requires Agree(s, cfg.threshold) && Enabled(s, Work(job, Some(n))) && s.queue[0] in s.docs
    requires m <= CLEANUP_LENGTH
    ensures n + m + 1 <= |EffectsOf(s, Work(job, Some(n)), cfg)|
    ensures var t := Replay(s, EffectsOf(s, Work(job, Some(n)), cfg)[..n + m + 1]);
            s.queue[0] in t.docs && HandlerOrder(s, t, s.queue[0])
  {
    var d, after := s.queue[0], Apply(s, Dequeue);
    WorkIsReady(s, job, cfg);
    HandlerPartInOrder(after, d, BatchOf(after, d, job, cfg), cfg.threshold, n, m);
    CutOfWork(s, d, job, Some(n), cfg, n + m);
    SameRunOrder(s, after, Replay(s, EffectsOf(s, Work(job, Some(n)), cfg)[..n + m + 1]), d);
  }

  /** Every write of a run that does not raise takes the document one stage on, or keeps it indexing. */
  lemma RunAdvances(s: State, job: Job, cfg: Config, k: nat)
    requires Agree(s, cfg.threshold) && Enabled(s, Work(job, None)) && s.queue[0] in s.docs && k < PIPELINE_LENGTH
    ensures k + 2 <= |EffectsOf(s, Work(job, None), cfg)|
    ensures var es, d := EffectsOf(s, Work(job, None), cfg), s.queue[0];
            var t, u := Replay(s, es[..k + 1]), Replay(s, es[..k + 2]);
            d in t.docs && d in u.docs && Advances(t.docs[d].status, u.docs[d].status)
  {
    var d, after := s.queue[0], Apply(s, Dequeue);
    WorkIsReady(s, job, cfg);
    var b := BatchOf(after, d, job, cfg);
    PipelinePart(after, d, b, None, k);
    PipelinePart(after, d, b, None, k + 1);
    CutOfWork(s, d, job, None, cfg, k);
    CutOfWork(s, d, job, None, cfg, k + 1);
    StagesInOrder(after, d, b, k);
  }
}
