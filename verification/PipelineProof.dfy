/** Every prefix of a run, failed or not, leaves a repairable state; every finished run a consistent one. */
module PipelineProof {
  import opened Values
  import opened World
  import opened FaissStore
  import opened Dedup
  import opened Invariants
  import opened Pipeline

  /** A run starts on a consistent state with a queued document and a batch that fits it. */
  ghost predicate Ready(s: State, d: DocId, b: Batch, threshold: real) {
    && Consistent(s, threshold)
    && d in s.docs && s.docs[d].status == Queued
    && GoodBatch(s, d, b, threshold)
  }

  function Inserted(s: State, b: Batch): Rows { s.rows + b.rows }

  function Indexed(s: State, b: Batch): Rows { WithIds(Inserted(s, b), b.ids) }

  function Vectors(s: State, b: Batch): Index { s.index + VectorsOf(b.recs) }

  // ---- rows of one document joining the others

  /** New rows belong to `d`, carry no ids yet, and get ids exactly when they are not duplicates. */
  ghost predicate Joins(old': Rows, new': Rows, ids: map<ChunkId, VectorId>, d: DocId) {
    && (forall c :: c in old' ==> old'[c].doc != d)
    && (forall c :: c in new' ==> c !in old' && new'[c].doc == d && new'[c].vid == None)
    && forall c :: c in ids <==> c in new' && !new'[c].dup
  }

  lemma JoinedAt(old': Rows, new': Rows, ids: map<ChunkId, VectorId>, d: DocId, c: ChunkId)
    requires Joins(old', new', ids, d)
    ensures var rows := WithIds(old' + new', ids);
            && (c in rows <==> c in old' || c in new')
            && (c in old' ==> rows[c] == old'[c])
            && (c in new' ==> rows[c] == new'[c].(vid := if c in ids then Some(ids[c]) else None))
  {
  }

  lemma JoinedVidsUnique(old': Rows, new': Rows, ids: map<ChunkId, VectorId>, d: DocId)
    requires Joins(old', new', ids, d) && VidsUnique(old')
    requires forall a, c :: a in ids && c in ids && a != c ==> ids[a] != ids[c]
    requires forall a, c :: a in ids && c in old' ==> old'[c].vid != Some(ids[a])
    ensures VidsUnique(WithIds(old' + new', ids))
  {
    var rows := WithIds(old' + new', ids);
    forall x, y | x in rows && y in rows && x != y && rows[x].vid.Some? && rows[y].vid.Some?
      ensures rows[x].vid != rows[y].vid
    {
      JoinedAt(old', new', ids, d, x);
      JoinedAt(old', new', ids, d, y);
    }
  }

  lemma JoinedHashesDiffer(old': Rows, new': Rows, ids: map<ChunkId, VectorId>, d: DocId)
    requires Joins(old', new', ids, d) && CanonicalHashesDiffer(old' + new')
    ensures CanonicalHashesDiffer(WithIds(old' + new', ids))
  {
    var rows, before := WithIds(old' + new', ids), old' + new';
    assert forall x :: x in rows ==> x in before && rows[x].hash == before[x].hash && rows[x].dup == before[x].dup;
  }

  lemma JoinedMapped(old': Rows, new': Rows, ids: map<ChunkId, VectorId>, d: DocId, v: VectorId)
    requires Joins(old', new', ids, d)
    ensures v in Mapped(WithIds(old' + new', ids)).Values <==> v in Mapped(old').Values || v in ids.Values
  {
    var rows := WithIds(old' + new', ids);
    MappedValues(rows, v);
    MappedValues(old', v);
    if c :| c in rows && !rows[c].dup && rows[c].vid == Some(v) {
      JoinedAt(old', new', ids, d, c);
      if c in new' { assert ids[c] == v; }
    }
    if c :| c in old' && !old'[c].dup && old'[c].vid == Some(v) {
      JoinedAt(old', new', ids, d, c);
      assert c in rows && !rows[c].dup && rows[c].vid == Some(v);
    }
    if c :| c in ids && ids[c] == v {
      JoinedAt(old', new', ids, d, c);
      assert c in rows && !rows[c].dup && rows[c].vid == Some(v);
    }
  }

  lemma JoinedMappedValues(old': Rows, new': Rows, ids: map<ChunkId, VectorId>, d: DocId)
    requires Joins(old', new', ids, d)
    ensures Mapped(WithIds(old' + new', ids)).Values == Mapped(old').Values + ids.Values
  {
    forall v ensures v in Mapped(WithIds(old' + new', ids)).Values <==> v in Mapped(old').Values + ids.Values {
      JoinedMapped(old', new', ids, d, v);
    }
  }

  /** The rows of `d` are exactly the new ones. */
  lemma JoinedOwn(old': Rows, new': Rows, ids: map<ChunkId, VectorId>, d: DocId)
    requires Joins(old', new', ids, d)
    ensures ChunksOfDoc(old', d) == {}
    ensures ChunksOfDoc(old' + new', d) == new'.Keys == ChunksOfDoc(WithIds(old' + new', ids), d)
  {
    var rows := WithIds(old' + new', ids);
    forall c ensures c in ChunksOfDoc(rows, d) <==> c in new' {
      JoinedAt(old', new', ids, d, c);
    }
  }

  lemma JoinedRowsDone(old': Rows, new': Rows, ids: map<ChunkId, VectorId>, d: DocId, docs: map<DocId, Doc>)
    requires Joins(old', new', ids, d) && d in docs && docs[d].status == Done
    requires forall c :: c in old' ==> old'[c].doc in docs && docs[old'[c].doc].status == Done
    requires forall c :: c in old' ==> (old'[c].dup <==> old'[c].vid.None?)
    ensures var rows := WithIds(old' + new', ids);
            && (forall c :: c in rows ==> rows[c].doc in docs && docs[rows[c].doc].status == Done)
            && (forall c :: c in rows ==> (rows[c].dup <==> rows[c].vid.None?))
  {
    var rows := WithIds(old' + new', ids);
    forall c | c in rows
      ensures rows[c].doc in docs && docs[rows[c].doc].status == Done
      ensures rows[c].dup <==> rows[c].vid.None?
    {
      JoinedAt(old', new', ids, d, c);
    }
  }

  lemma UnmappedJoin(old': Rows, new': Rows)
    requires forall c :: c in new' ==> c !in old' && new'[c].vid == None
    ensures Mapped(old' + new') == Mapped(old')
    ensures VidsUnique(old') ==> VidsUnique(old' + new')
  {
  }

  lemma JoinedWithoutDoc(old': Rows, new': Rows, ids: map<ChunkId, VectorId>, d: DocId)
    requires Joins(old', new', ids, d)
    ensures Others(old' + new', d) == old'
    ensures Others(WithIds(old' + new', ids), d) == old'
    ensures Others(old', d) == old'
  {
    var rows := WithIds(old' + new', ids);
    forall c ensures c in Others(rows, d) <==> c in old' {
      JoinedAt(old', new', ids, d, c);
    }
    forall c | c in old' ensures rows[c] == old'[c] {
      JoinedAt(old', new', ids, d, c);
    }
  }

  lemma ReadyJoins(s: State, d: DocId, b: Batch, threshold: real)
    requires Ready(s, d, b, threshold)
    ensures Joins(s.rows, b.rows, b.ids, d)
  {
  }

  lemma RecordIdsAreIds(s: State, d: DocId, b: Batch)
    requires GoodRecords(s, d, b)
    ensures b.ids.Values == RecordIds(b.recs)
  {
    forall v | v in b.ids.Values ensures v in RecordIds(b.recs) {
      var c :| c in b.ids && b.ids[c] == v;
      var i :| 0 <= i < |b.recs| && b.recs[i].chunk == c;
    }
    forall v | v in RecordIds(b.recs) ensures v in b.ids.Values {
      var i :| 0 <= i < |b.recs| && b.recs[i].vid == v;
      assert b.recs[i].chunk in b.ids;
    }
  }

  lemma ReadyIds(s: State, d: DocId, b: Batch, threshold: real)
    requires Ready(s, d, b, threshold)
    ensures b.ids.Values == RecordIds(b.recs) == VectorsOf(b.recs).Keys == ChunksOf(b.recs).Keys ==
            OwnersOf(b.recs).Keys
    ensures Mapped(s.rows).Values == s.index.Keys == s.chunkOf.Keys == s.docOf.Keys
    ensures s.index.Keys !! b.ids.Values
  {
    RecordKeys(b.recs);
    RecordIdsAreIds(s, d, b);
    BijectionCoversIndex(s.rows, s.chunkOf, s.docOf);
  }

  lemma NewIdsUnused(s: State, d: DocId, b: Batch, threshold: real)
    requires Ready(s, d, b, threshold)
    ensures forall a, c :: a in b.ids && c in s.rows ==> s.rows[c].vid != Some(b.ids[a])
  {
  }

  /** The three sets of rows a run goes through, for the document's status at the time. */
  ghost predicate RowsInFlight(s: State, b: Batch, rows: Rows, status: Status) {
    || rows == s.rows
    || (rows == Inserted(s, b) && !Resting(status))
    || (rows == Indexed(s, b) && !status.Queued? && !status.Failed?)
  }

  /** Row by row: unchanged, or the document's own. */
  ghost predicate OthersUntouched(s: State, d: DocId, rows: Rows, status: Status) {
    forall c :: c in rows ==>
      if c in s.rows then rows[c] == s.rows[c]
      else
        && rows[c].doc == d && !status.Queued? && !status.Failed?
        && (rows[c].dup ==> rows[c].vid.None?)
        && (status == Done && !rows[c].dup ==> rows[c].vid.Some?)
  }

  lemma InFlightOthersUntouched(s: State, d: DocId, b: Batch, threshold: real, rows: Rows, status: Status)
    requires Joins(s.rows, b.rows, b.ids, d) && RowsInFlight(s, b, rows, status)
    ensures OthersUntouched(s, d, rows, status)
  {
    if rows == Indexed(s, b) {
      forall c | c in rows
        ensures c in s.rows ==> rows[c] == s.rows[c]
        ensures c !in s.rows ==> rows[c].doc == d && (rows[c].dup <==> rows[c].vid.None?)
      {
        JoinedAt(s.rows, b.rows, b.ids, d, c);
      }
    }
  }

  lemma InFlightRows(s: State, d: DocId, b: Batch, threshold: real, rows: Rows, status: Status)
    requires Ready(s, d, b, threshold) && RowsInFlight(s, b, rows, status)
    ensures VidsUnique(rows) && CanonicalHashesDiffer(rows)
  {
    ReadyJoins(s, d, b, threshold);
    NewIdsUnused(s, d, b, threshold);
    if rows == Indexed(s, b) {
      JoinedVidsUnique(s.rows, b.rows, b.ids, d);
      JoinedHashesDiffer(s.rows, b.rows, b.ids, d);
    } else if rows == Inserted(s, b) {
      UnmappedJoin(s.rows, b.rows);
    }
  }

  lemma InFlightMapped(s: State, d: DocId, b: Batch, threshold: real, rows: Rows, status: Status)
    requires Ready(s, d, b, threshold) && RowsInFlight(s, b, rows, status)
    ensures Mapped(rows).Values == if rows == Indexed(s, b) then Vectors(s, b).Keys else s.index.Keys
  {
    ReadyJoins(s, d, b, threshold);
    ReadyIds(s, d, b, threshold);
    if rows == Indexed(s, b) {
      JoinedMappedValues(s.rows, b.rows, b.ids, d);
    } else if rows == Inserted(s, b) {
      UnmappedJoin(s.rows, b.rows);
    }
  }

  lemma RowsRecoverable(s: State, d: DocId, docs: map<DocId, Doc>, rows: Rows, threshold: real, status: Status)
    requires Consistent(s, threshold) && d in s.docs
    requires docs == WithStatus(s.docs, d, status) && OthersUntouched(s, d, rows, status)
    requires forall c :: c in s.rows ==> s.rows[c].doc != d
    ensures RowsReady(docs, rows)
  {
  }

  ghost predicate InFlight(s: State, d: DocId, b: Batch, t: State, status: Status) {
    && t.docs == WithStatus(s.docs, d, status)
    && RowsInFlight(s, b, t.rows, status)
    && (t.index == s.index || (t.index == Vectors(s, b) && t.rows == Indexed(s, b)))
    && (t.file == s.index || (t.file == Vectors(s, b) && t.rows == Indexed(s, b)))
  }

  /** The heart of the count check. While a document is in flight its rows may be absent, present
      without ids, or present with ids, and its vectors may be in memory or on disk only once the ids
      are in SQL; under those two rules every combination is repairable. */
  lemma InFlightIsRecoverable(s: State, d: DocId, b: Batch, threshold: real, t: State, status: Status)
    requires Ready(s, d, b, threshold) && InFlight(s, d, b, t, status)
    ensures Recoverable(t, threshold)
  {
    ReadyJoins(s, d, b, threshold);
    InFlightOthersUntouched(s, d, b, threshold, t.rows, status);
    RowsRecoverable(s, d, t.docs, t.rows, threshold, status);
    InFlightRows(s, d, b, threshold, t.rows, status);
    InFlightMapped(s, d, b, threshold, t.rows, status);
    assert s.index.Keys <= Vectors(s, b).Keys;
  }

  // ---- the run step by step

  /** The state after the first `k` effects of the happy path. */
  function At(s: State, d: DocId, b: Batch, k: nat): State
    requires k <= PIPELINE_LENGTH
  {
    State(
      if k == 0 then s.docs else WithStatus(s.docs, d, StatusAt(k)),
      if k < 5 then s.rows else if k < 6 then Inserted(s, b) else Indexed(s, b),
      if k < 9 then s.file else Vectors(s, b),
      if k < 7 then s.index else Vectors(s, b),
      if k < 8 then s.chunkOf else s.chunkOf + ChunksOf(b.recs),
      if k < 8 then s.docOf else s.docOf + OwnersOf(b.recs),
      if k < 8 then s.vidsOf else WithVids(s.vidsOf, b.recs),
      if k < 10 then s.corpus else s.corpus + Tokenized(b.texts),
      s.queue)
  }

  function StatusAt(k: nat): Status
    requires 0 < k <= PIPELINE_LENGTH
  {
    if k == 1 then Parsing else if k == 2 then Chunking else if k == 3 then Embedding
    else if k < 11 then Indexing else Done
  }

  lemma StatusOverwritten(docs: map<DocId, Doc>, d: DocId, a: Status, b: Status)
    ensures WithStatus(WithStatus(docs, d, a), d, b) == WithStatus(docs, d, b)
  {
  }

  lemma StatusStep(s: State, d: DocId, b: Batch, k: nat)
    requires 0 < k <= 4 || k == 11
    ensures Apply(At(s, d, b, k - 1), SetStatus(d, StatusAt(k))) == At(s, d, b, k)
  {
    if k > 1 { StatusOverwritten(s.docs, d, StatusAt(k - 1), StatusAt(k)); }
  }

  lemma RowStep(s: State, d: DocId, b: Batch, k: nat)
    requires 5 <= k <= 6
    ensures Apply(At(s, d, b, k - 1), if k == 5 then InsertRows(b.rows) else AssignIds(b.ids)) == At(s, d, b, k)
  {
  }

  lemma VectorStep(s: State, d: DocId, b: Batch, k: nat)
    requires 7 <= k <= 8
    ensures Apply(At(s, d, b, k - 1), if k == 7 then AddVectors(b.recs) else MapVectors(b.recs)) == At(s, d, b, k)
  {
  }

  lemma PersistStep(s: State, d: DocId, b: Batch, k: nat)
    requires 9 <= k <= 10
    ensures Apply(At(s, d, b, k - 1), if k == 9 then Persist else AddTexts(b.texts)) == At(s, d, b, k)
  {
  }

  lemma PipelineStep(s: State, d: DocId, b: Batch, k: nat)
    requires 0 < k <= PIPELINE_LENGTH
    ensures Apply(At(s, d, b, k - 1), PipelineEffects(d, b)[k - 1]) == At(s, d, b, k)
  {
    if k <= 4 || k == 11 {
      StatusStep(s, d, b, k);
    } else if k <= 6 {
      RowStep(s, d, b, k);
    } else if k <= 8 {
      VectorStep(s, d, b, k);
    } else {
      PersistStep(s, d, b, k);
    }
  }

  lemma {:induction false} PipelineReaches(s: State, d: DocId, b: Batch, k: nat)
    requires k <= PIPELINE_LENGTH
    ensures Replay(s, PipelineEffects(d, b)[..k]) == At(s, d, b, k)
  {
    if k == 0 {
    } else {
      var es := PipelineEffects(d, b);
      PipelineReaches(s, d, b, k - 1);
      ReplayOneMore(s, es, k);
      PipelineStep(s, d, b, k);
    }
  }

  lemma ReplayOneMore(s: State, es: seq<Effect>, k: nat)
    requires 0 < k <= |es|
    ensures Replay(s, es[..k]) == Apply(Replay(s, es[..k - 1]), es[k - 1])
  {
    assert es[..k][..k - 1] == es[..k - 1];
  }

  lemma NoIdsBefore(s: State, d: DocId, threshold: real)
    requires Consistent(s, threshold) && d in s.docs && s.docs[d].status == Queued
    ensures VidsOf(s.vidsOf, d) == {}
  {
    forall v | v in s.docOf ensures s.docOf[v] != d {
      assert s.docOf[v] == s.rows[s.chunkOf[v]].doc;
    }
    forall v ensures v !in VidsOf(s.vidsOf, d) {
      assert v in VidsOf(s.vidsOf, d) <==> v in s.docOf && s.docOf[v] == d;
    }
  }

  /** What the failure handler finds: the document's own ids in the maps once the upsert happened. */
  lemma OwnIds(s: State, d: DocId, b: Batch, threshold: real, k: nat)
    requires Ready(s, d, b, threshold) && k <= PIPELINE_LENGTH
    ensures VidsOf(At(s, d, b, k).vidsOf, d) == if k < 8 then {} else b.ids.Values
  {
    RecordVids(s.vidsOf, b.recs, d, d);
    NoIdsBefore(s, d, threshold);
    ReadyIds(s, d, b, threshold);
  }

  /** The state after `m` steps of the failure handler that started in `t`. */
  function CleaningAt(t: State, d: DocId, m: nat): State
    requires m <= CLEANUP_LENGTH
  {
    var vids := VidsOf(t.vidsOf, d);
    State(
      if m < CLEANUP_LENGTH then t.docs else WithStatus(t.docs, d, Failed),
      if m < 5 then t.rows else Others(t.rows, d),
      if m < 4 then t.file else t.index - vids,
      if m < 2 then t.index else t.index - vids,
      if m < 3 then t.chunkOf else t.chunkOf - vids,
      if m < 3 then t.docOf else t.docOf - vids,
      if m < 1 then t.vidsOf else t.vidsOf - {d},
      if m < 6 then t.corpus else t.corpus - ChunksOfDoc(t.rows, d),
      t.queue)
  }

  lemma ForgetStep(t: State, d: DocId, m: nat)
    requires 1 <= m <= 3
    ensures Apply(CleaningAt(t, d, m - 1), CleanupEffects(t, d)[m - 1]) == CleaningAt(t, d, m)
  {
  }

  lemma StoreCleanupStep(t: State, d: DocId)
    ensures Apply(CleaningAt(t, d, 3), Persist) == CleaningAt(t, d, 4)
  {
  }

  lemma RowCleanupStep(t: State, d: DocId)
    ensures Apply(CleaningAt(t, d, 4), DeleteRows(d)) == CleaningAt(t, d, 5)
  {
  }

  lemma LastCleanupSteps(t: State, d: DocId)
    ensures Apply(CleaningAt(t, d, 5), RemoveTexts(ChunksOfDoc(t.rows, d))) == CleaningAt(t, d, 6)
    ensures Apply(CleaningAt(t, d, 6), SetStatus(d, Failed)) == CleaningAt(t, d, CLEANUP_LENGTH)
  {
  }

  lemma CleanupStep(t: State, d: DocId, m: nat)
    requires 0 < m <= CLEANUP_LENGTH
    ensures Apply(CleaningAt(t, d, m - 1), CleanupEffects(t, d)[m - 1]) == CleaningAt(t, d, m)
  {
    if m <= 3 {
      ForgetStep(t, d, m);
    } else if m == 4 {
      StoreCleanupStep(t, d);
    } else if m == 5 {
      RowCleanupStep(t, d);
    } else {
      LastCleanupSteps(t, d);
    }
  }

  lemma {:induction false} CleanupReaches(t: State, d: DocId, m: nat)
    requires m <= CLEANUP_LENGTH
    ensures Replay(t, CleanupEffects(t, d)[..m]) == CleaningAt(t, d, m)
  {
    if m == 0 {
    } else {
      var es := CleanupEffects(t, d);
      CleanupReaches(t, d, m - 1);
      ReplayOneMore(t, es, m);
      CleanupStep(t, d, m);
    }
  }

  /** What the handler undoes, component by component. */
  lemma CleanupRestoresRows(s: State, d: DocId, b: Batch, threshold: real, k: nat)
    requires Ready(s, d, b, threshold) && k <= PIPELINE_LENGTH
    ensures Others(At(s, d, b, k).rows, d) == s.rows
  {
    ReadyJoins(s, d, b, threshold);
    JoinedWithoutDoc(s.rows, b.rows, b.ids, d);
  }

  lemma MapMinusAdded<V>(m: map<VectorId, V>, added: map<VectorId, V>, ids: set<VectorId>)
    requires added.Keys == ids && m.Keys !! ids
    ensures m + added - ids == m && m - {} == m
  {
  }

  lemma CleanupRestoresStore(s: State, d: DocId, b: Batch, threshold: real, k: nat)
    requires Ready(s, d, b, threshold) && k <= PIPELINE_LENGTH && k != MID_UPSERT
    ensures var t := At(s, d, b, k); var vids := VidsOf(t.vidsOf, d);
            t.index - vids == s.index && t.chunkOf - vids == s.chunkOf && t.docOf - vids == s.docOf
  {
    OwnIds(s, d, b, threshold, k);
    ReadyIds(s, d, b, threshold);
    MapMinusAdded(s.index, VectorsOf(b.recs), b.ids.Values);
    MapMinusAdded(s.chunkOf, ChunksOf(b.recs), b.ids.Values);
    MapMinusAdded(s.docOf, OwnersOf(b.recs), b.ids.Values);
  }

  lemma CorpusMinusAdded(corpus: map<ChunkId, seq<string>>, added: map<ChunkId, seq<string>>, own: set<ChunkId>,
                         fresh': set<ChunkId>)
    requires own <= fresh' && corpus.Keys !! fresh'
    ensures corpus - own == corpus
    ensures added.Keys <= own ==> corpus + added - own == corpus
  {
  }

  lemma CleanupRestoresCorpus(s: State, d: DocId, b: Batch, threshold: real, k: nat)
    requires Ready(s, d, b, threshold) && k <= PIPELINE_LENGTH
    ensures At(s, d, b, k).corpus - ChunksOfDoc(At(s, d, b, k).rows, d) == s.corpus
  {
    ReadyJoins(s, d, b, threshold);
    JoinedOwn(s.rows, b.rows, b.ids, d);
    var t := At(s, d, b, k);
    assert ChunksOfDoc(t.rows, d) == if k < 5 then {} else b.rows.Keys;
    assert Tokenized(b.texts).Keys <= b.rows.Keys;
    CorpusMinusAdded(s.corpus, Tokenized(b.texts), ChunksOfDoc(t.rows, d), b.rows.Keys);
  }

  function StatusNow(k: nat): Status
    requires k <= PIPELINE_LENGTH
  {
    if k == 0 then Queued else StatusAt(k)
  }

  lemma PrefixInFlight(s: State, d: DocId, b: Batch, k: nat)
    requires d in s.docs && s.docs[d].status == Queued && s.file == s.index && k <= PIPELINE_LENGTH
    ensures InFlight(s, d, b, At(s, d, b, k), StatusNow(k))
  {
  }

  /** No prefix of the happy path is beyond repair. */
  lemma PrefixIsRecoverable(s: State, d: DocId, b: Batch, threshold: real, k: nat)
    requires Ready(s, d, b, threshold) && k <= PIPELINE_LENGTH
    ensures Recoverable(At(s, d, b, k), threshold)
  {
    PrefixInFlight(s, d, b, k);
    InFlightIsRecoverable(s, d, b, threshold, At(s, d, b, k), StatusNow(k));
  }

  lemma EarlyCleaning(t: State, d: DocId, m: nat)
    requires m < 5
    ensures var u, cleaned := CleaningAt(t, d, m), t.index - VidsOf(t.vidsOf, d);
            && u.docs == t.docs && u.rows == t.rows
            && (u.index == t.index || u.index == cleaned)
            && (u.file == t.file || u.file == cleaned)
  {
  }

  lemma EarlyCleanupIsRecoverable(s: State, d: DocId, b: Batch, threshold: real, k: nat, m: nat)
    requires Ready(s, d, b, threshold) && k <= PIPELINE_LENGTH && k != MID_UPSERT && m < 5
    ensures Recoverable(CleaningAt(At(s, d, b, k), d, m), threshold)
  {
    var t := At(s, d, b, k);
    CleanupRestoresStore(s, d, b, threshold, k);
    PrefixInFlight(s, d, b, k);
    EarlyCleaning(t, d, m);
    InFlightIsRecoverable(s, d, b, threshold, CleaningAt(t, d, m), StatusNow(k));
  }

  lemma LateCleanupIsRecoverable(s: State, d: DocId, b: Batch, threshold: real, k: nat, m: nat)
    requires Ready(s, d, b, threshold) && k <= PIPELINE_LENGTH && k != MID_UPSERT && 5 <= m <= CLEANUP_LENGTH
    ensures Recoverable(CleaningAt(At(s, d, b, k), d, m), threshold)
  {
    var t := At(s, d, b, k);
    CleanupRestoresRows(s, d, b, threshold, k);
    CleanupRestoresStore(s, d, b, threshold, k);
    if m == CLEANUP_LENGTH && k > 0 { StatusOverwritten(s.docs, d, StatusAt(k), Failed); }
    var u := CleaningAt(t, d, m);
    assert u.rows == s.rows && u.index == s.index && u.file == s.index;
    InFlightIsRecoverable(s, d, b, threshold, u, if m == CLEANUP_LENGTH then Failed else StatusNow(k));
  }

  /** Nor is any point inside the failure handler. */
  lemma CleanupIsRecoverable(s: State, d: DocId, b: Batch, threshold: real, k: nat, m: nat)
    requires Ready(s, d, b, threshold) && k <= PIPELINE_LENGTH && k != MID_UPSERT && m <= CLEANUP_LENGTH
    ensures Recoverable(CleaningAt(At(s, d, b, k), d, m), threshold)
  {
    if m < 5 {
      EarlyCleanupIsRecoverable(s, d, b, threshold, k, m);
    } else {
      LateCleanupIsRecoverable(s, d, b, threshold, k, m);
    }
  }

  // ---- finished runs

  lemma SuccessDocs(s: State, d: DocId, b: Batch, threshold: real)
    requires Ready(s, d, b, threshold)
    ensures var t := At(s, d, b, PIPELINE_LENGTH); forall e :: e in t.docs ==> Resting(t.docs[e].status)
  {
  }

  lemma SuccessUnique(s: State, d: DocId, b: Batch, threshold: real)
    requires Ready(s, d, b, threshold)
    ensures var t := At(s, d, b, PIPELINE_LENGTH); VidsUnique(t.rows) && CanonicalHashesDiffer(t.rows)
  {
    InFlightRows(s, d, b, threshold, Indexed(s, b), Done);
  }

  lemma SuccessMaps(s: State, d: DocId, b: Batch, threshold: real)
    requires Ready(s, d, b, threshold)
    ensures var t := At(s, d, b, PIPELINE_LENGTH);
            MapsAgree(t.chunkOf, t.docOf, t.vidsOf) && Bijection(t.rows, t.chunkOf, t.docOf)
  {
    MapsAgreeAfterAdd(s.chunkOf, s.docOf, s.vidsOf, b.recs);
    SuccessBijection(s, d, b, threshold);
  }

  lemma SuccessIndex(s: State, d: DocId, b: Batch, threshold: real)
    requires Ready(s, d, b, threshold)
    ensures var t := At(s, d, b, PIPELINE_LENGTH);
            t.index.Keys == t.chunkOf.Keys && t.file == t.index && Separated(t.index, threshold)
  {
    ReadyIds(s, d, b, threshold);
  }

  /** A finished run is consistent, with the document done. */
  lemma SuccessIsConsistent(s: State, d: DocId, b: Batch, threshold: real)
    requires Ready(s, d, b, threshold)
    ensures Consistent(At(s, d, b, PIPELINE_LENGTH), threshold)
  {
    SuccessDocs(s, d, b, threshold);
    SuccessUnique(s, d, b, threshold);
    SuccessMaps(s, d, b, threshold);
    SuccessIndex(s, d, b, threshold);
    SuccessTexts(s, d, b, threshold);
    SuccessRows(s, d, b, threshold);
  }

  lemma SuccessTexts(s: State, d: DocId, b: Batch, threshold: real)
    requires Ready(s, d, b, threshold)
    ensures var t := At(s, d, b, PIPELINE_LENGTH); t.corpus == Tokenized(NonDuplicates(t.rows))
  {
    SuccessCorpus(s, d, b, threshold);
  }

  lemma SuccessRows(s: State, d: DocId, b: Batch, threshold: real)
    requires Ready(s, d, b, threshold)
    ensures var t := At(s, d, b, PIPELINE_LENGTH);
            && (forall c :: c in t.rows ==> t.rows[c].doc in t.docs && t.docs[t.rows[c].doc].status == Done)
            && (forall c :: c in t.rows ==> (t.rows[c].dup <==> t.rows[c].vid.None?))
  {
    ReadyJoins(s, d, b, threshold);
    JoinedRowsDone(s.rows, b.rows, b.ids, d, WithStatus(s.docs, d, Done));
  }

  lemma AddedMappingIs(s: State, d: DocId, b: Batch, threshold: real, c: ChunkId)
    requires Ready(s, d, b, threshold) && c in b.ids
    ensures var v := b.ids[c];
            && v in ChunksOf(b.recs) && ChunksOf(b.recs)[v] == c
            && v in OwnersOf(b.recs) && OwnersOf(b.recs)[v] == d
  {
    var i :| 0 <= i < |b.recs| && b.recs[i].chunk == c;
    RecordAt(b.recs, i);
  }

  /** The mappings added name each new id's chunk and the document. */
  predicate Maps(ids: map<ChunkId, VectorId>, d: DocId, chunkOf: map<VectorId, ChunkId>, docOf: map<VectorId, DocId>) {
    && chunkOf.Keys == docOf.Keys == ids.Values
    && forall c :: c in ids ==> ids[c] in chunkOf && chunkOf[ids[c]] == c && docOf[ids[c]] == d
  }

  lemma JoinedMappingHasRow(old': Rows, new': Rows, ids: map<ChunkId, VectorId>, d: DocId,
                            chunkOf: map<VectorId, ChunkId>,
                            docOf: map<VectorId, DocId>, chunks: map<VectorId, ChunkId>, owners: map<VectorId, DocId>,
                            v: VectorId)
    requires Joins(old', new', ids, d) && Bijection(old', chunkOf, docOf) && Maps(ids, d, chunks, owners)
    requires v in chunkOf + chunks && chunkOf.Keys !! ids.Values
    ensures var c, rows := (chunkOf + chunks)[v], WithIds(old' + new', ids);
            c in rows && rows[c].vid == Some(v) && (docOf + owners)[v] == rows[c].doc
  {
    if v in ids.Values {
      var c :| c in ids && ids[c] == v;
      JoinedAt(old', new', ids, d, c);
    } else {
      JoinedAt(old', new', ids, d, chunkOf[v]);
    }
  }

  lemma JoinedRowHasMapping(old': Rows, new': Rows, ids: map<ChunkId, VectorId>, d: DocId,
                            chunkOf: map<VectorId, ChunkId>,
                            docOf: map<VectorId, DocId>, chunks: map<VectorId, ChunkId>, owners: map<VectorId, DocId>,
                            c: ChunkId)
    requires Joins(old', new', ids, d) && Bijection(old', chunkOf, docOf) && Maps(ids, d, chunks, owners)
    requires chunkOf.Keys !! ids.Values && c in WithIds(old' + new', ids) && WithIds(old' + new', ids)[c].vid.Some?
    ensures var v := WithIds(old' + new', ids)[c].vid.value; v in chunkOf + chunks && (chunkOf + chunks)[v] == c
  {
    JoinedAt(old', new', ids, d, c);
  }

  lemma JoinedBijection(old': Rows, new': Rows, ids: map<ChunkId, VectorId>, d: DocId, chunkOf: map<VectorId, ChunkId>,
                        docOf: map<VectorId, DocId>, chunks: map<VectorId, ChunkId>, owners: map<VectorId, DocId>)
    requires Joins(old', new', ids, d) && Bijection(old', chunkOf, docOf) && Maps(ids, d, chunks, owners)
    requires chunkOf.Keys !! ids.Values
    ensures Bijection(WithIds(old' + new', ids), chunkOf + chunks, docOf + owners)
  {
    var rows := WithIds(old' + new', ids);
    assert (chunkOf + chunks).Keys == (docOf + owners).Keys;
    forall v | v in chunkOf + chunks
      ensures var c := (chunkOf + chunks)[v]; c in rows && rows[c].vid == Some(v) && (docOf + owners)[v] == rows[c].doc
    {
      JoinedMappingHasRow(old', new', ids, d, chunkOf, docOf, chunks, owners, v);
    }
    forall c | c in rows && rows[c].vid.Some?
      ensures rows[c].vid.value in chunkOf + chunks && (chunkOf + chunks)[rows[c].vid.value] == c
    {
      JoinedRowHasMapping(old', new', ids, d, chunkOf, docOf, chunks, owners, c);
    }
  }

  lemma SuccessBijection(s: State, d: DocId, b: Batch, threshold: real)
    requires Ready(s, d, b, threshold)
    ensures Bijection(Indexed(s, b), s.chunkOf + ChunksOf(b.recs), s.docOf + OwnersOf(b.recs))
  {
    ReadyJoins(s, d, b, threshold);
    ReadyIds(s, d, b, threshold);
    forall c | c in b.ids ensures var v := b.ids[c];
        v in ChunksOf(b.recs) && ChunksOf(b.recs)[v] == c && v in OwnersOf(b.recs) && OwnersOf(b.recs)[v] == d
    {
      AddedMappingIs(s, d, b, threshold, c);
    }
    JoinedBijection(s.rows, b.rows, b.ids, d, s.chunkOf, s.docOf, ChunksOf(b.recs), OwnersOf(b.recs));
  }

  lemma SuccessCorpus(s: State, d: DocId, b: Batch, threshold: real)
    requires Ready(s, d, b, threshold)
    ensures At(s, d, b, PIPELINE_LENGTH).corpus == Tokenized(NonDuplicates(Indexed(s, b)))
  {
    ReadyJoins(s, d, b, threshold);
    JoinedTexts(s.rows, b.rows, b.ids, d);
    assert NonDuplicates(Indexed(s, b)) == NonDuplicates(s.rows) + b.texts;
    TokenizedUnion(NonDuplicates(s.rows), b.texts);
  }

  lemma TokenizedUnion(a: map<ChunkId, string>, b: map<ChunkId, string>)
    ensures Tokenized(a + b) == Tokenized(a) + Tokenized(b)
  {
  }

  lemma JoinedTexts(old': Rows, new': Rows, ids: map<ChunkId, VectorId>, d: DocId)
    requires Joins(old', new', ids, d)
    ensures NonDuplicates(WithIds(old' + new', ids)) == NonDuplicates(old') + NonDuplicates(new')
  {
    var rows := WithIds(old' + new', ids);
    forall c
      ensures c in NonDuplicates(rows) <==> c in NonDuplicates(old') || c in NonDuplicates(new')
    {
      JoinedAt(old', new', ids, d, c);
    }
    forall c | c in NonDuplicates(rows)
      ensures NonDuplicates(rows)[c] == (NonDuplicates(old') + NonDuplicates(new'))[c]
    {
      JoinedAt(old', new', ids, d, c);
    }
  }

  lemma CleanupRestoresVids(s: State, d: DocId, b: Batch, threshold: real, k: nat, e: DocId)
    requires Ready(s, d, b, threshold) && k <= PIPELINE_LENGTH && k != MID_UPSERT
    ensures VidsOf(CleaningAt(At(s, d, b, k), d, CLEANUP_LENGTH).vidsOf, e) == VidsOf(s.vidsOf, e)
  {
    NoIdsBefore(s, d, threshold);
    ForgottenVids(At(s, d, b, k), d, e);
    if e != d && k >= 8 { RecordVids(s.vidsOf, b.recs, d, e); }
  }

  lemma ForgottenVids(t: State, d: DocId, e: DocId)
    ensures VidsOf(CleaningAt(t, d, CLEANUP_LENGTH).vidsOf, e) == if e == d then {} else VidsOf(t.vidsOf, e)
  {
  }

  /** A failed run ends as if nothing had happened, but for the document's status. */
  lemma FailureRestores(s: State, d: DocId, b: Batch, threshold: real, k: nat)
    requires Ready(s, d, b, threshold) && k <= PIPELINE_LENGTH && k != MID_UPSERT
    ensures var t := CleaningAt(At(s, d, b, k), d, CLEANUP_LENGTH);
            && t == s.(docs := WithStatus(s.docs, d, Failed), vidsOf := t.vidsOf)
            && forall e :: VidsOf(t.vidsOf, e) == VidsOf(s.vidsOf, e)
  {
    var t := CleaningAt(At(s, d, b, k), d, CLEANUP_LENGTH);
    CleanupRestoresRows(s, d, b, threshold, k);
    CleanupRestoresStore(s, d, b, threshold, k);
    CleanupRestoresCorpus(s, d, b, threshold, k);
    if k > 0 { StatusOverwritten(s.docs, d, StatusAt(k), Failed); }
    forall e ensures VidsOf(t.vidsOf, e) == VidsOf(s.vidsOf, e) {
      CleanupRestoresVids(s, d, b, threshold, k, e);
    }
  }

  lemma FailureIsConsistent(s: State, d: DocId, b: Batch, threshold: real, k: nat)
    requires Ready(s, d, b, threshold) && k <= PIPELINE_LENGTH && k != MID_UPSERT
    ensures Consistent(CleaningAt(At(s, d, b, k), d, CLEANUP_LENGTH), threshold)
  {
    FailureRestores(s, d, b, threshold, k);
    ReadyJoins(s, d, b, threshold);
    SameVidsAgree(s.chunkOf, s.docOf, s.vidsOf, CleaningAt(At(s, d, b, k), d, CLEANUP_LENGTH).vidsOf);
  }

  lemma SameVidsAgree(chunkOf: map<VectorId, ChunkId>, docOf: map<VectorId, DocId>,
                      a: map<DocId, set<VectorId>>, b: map<DocId, set<VectorId>>)
    requires MapsAgree(chunkOf, docOf, a) && forall e :: VidsOf(b, e) == VidsOf(a, e)
    ensures MapsAgree(chunkOf, docOf, b)
  {
    forall e, v ensures v in VidsOf(b, e) <==> v in docOf && docOf[v] == e {
      assert VidsOf(b, e) == VidsOf(a, e);
    }
  }
}
