/** One document's run through the worker as a list of effects, and what each prefix leaves behind. */
module Pipeline {
  import opened Values
  import opened World
  import opened FaissStore
  import opened Sql
  import opened Dedup
  import opened Invariants

  datatype Config = Config(embed: string -> Vector, threshold: real)

  /** What one run works on: the chunker's drafts and the ids drawn for their rows. */
  datatype Job = Job(drafts: seq<Draft>, ids: seq<ChunkId>)

  ghost predicate Fits(s: State, job: Job) {
    |job.ids| == |job.drafts| && Distinct(job.ids) && forall i :: 0 <= i < |job.ids| ==> job.ids[i] !in s.rows
  }

  ghost function KeptOf(s: State, job: Job, cfg: Config): (kept: seq<nat>)
    ensures IncreasingBelow(kept, |job.drafts|)
  {
    KeptIncreasing(job.drafts, CanonicalHashes(s.rows), s.index, cfg.embed, cfg.threshold, |job.drafts|);
    Kept(job.drafts, CanonicalHashes(s.rows), s.index, cfg.embed, cfg.threshold, |job.drafts|)
  }

  function NewRow(d: DocId, job: Job, kept: seq<nat>, i: nat): Row
    requires i < |job.drafts|
  {
    Row(d, i, job.drafts[i].text, job.drafts[i].hash, i !in kept, None)
  }

  function NewRows(d: DocId, job: Job, kept: seq<nat>): Rows
    requires |job.ids| == |job.drafts|
  {
    map c | c in job.ids :: NewRow(d, job, kept, IndexOf(job.ids, c))
  }

  /** The j-th kept draft gets id base + 1 + j. */
  function NewIds(job: Job, kept: seq<nat>, base: int): map<ChunkId, VectorId>
    requires base >= -1
  {
    map c | c in job.ids && IndexOf(job.ids, c) in kept :: base + 1 + IndexOf(kept, IndexOf(job.ids, c))
  }

  function NewRecords(d: DocId, job: Job, kept: seq<nat>, base: int, embed: string -> Vector): seq<Record>
    requires base >= -1
    requires |job.ids| == |job.drafts| && IncreasingBelow(kept, |job.drafts|)
  {
    seq(|kept|, j requires 0 <= j < |kept| =>
      Record(job.ids[kept[j]], d, base + 1 + j, embed(job.drafts[kept[j]].text)))
  }

  function NewTexts(job: Job, kept: seq<nat>): map<ChunkId, string>
    requires |job.ids| == |job.drafts|
  {
    map c | c in job.ids && IndexOf(job.ids, c) in kept :: job.drafts[IndexOf(job.ids, c)].text
  }

  /** Everything a run adds: rows without ids, the ids of the non-duplicates, their vectors and texts. */
  datatype Batch = Batch(rows: Rows, ids: map<ChunkId, VectorId>, recs: seq<Record>, texts: map<ChunkId, string>)

  ghost function BatchFor(old': Rows, d: DocId, job: Job, kept: seq<nat>, embed: string -> Vector): Batch
    requires |job.ids| == |job.drafts| && IncreasingBelow(kept, |job.drafts|)
  {
    var rows := NewRows(d, job, kept);
    var base := MaxVid(old' + rows);
    Batch(rows, NewIds(job, kept, base), NewRecords(d, job, kept, base, embed), NewTexts(job, kept))
  }

  ghost function BatchOf(s: State, d: DocId, job: Job, cfg: Config): Batch
    requires Fits(s, job)
  {
    BatchFor(s.rows, d, job, KeptOf(s, job, cfg), cfg.embed)
  }

  const PIPELINE_LENGTH := 11

  /** The happy path of a run, in the order the source performs it. */
  function PipelineEffects(d: DocId, b: Batch): (es: seq<Effect>)
    ensures |es| == PIPELINE_LENGTH
  {
    [SetStatus(d, Parsing), SetStatus(d, Chunking), SetStatus(d, Embedding), SetStatus(d, Indexing),
     InsertRows(b.rows), AssignIds(b.ids),
     AddVectors(b.recs), MapVectors(b.recs), Persist, AddTexts(b.texts), SetStatus(d, Done)]
  }

  const CLEANUP_LENGTH := 7

  /** The failure handler, from the state the exception left. */
  function CleanupEffects(s: State, d: DocId): (es: seq<Effect>)
    ensures |es| == CLEANUP_LENGTH
  {
    var vids := VidsOf(s.vidsOf, d);
    [ForgetDoc(d), RemoveVectors(vids), UnmapVectors(vids), Persist,
     DeleteRows(d), RemoveTexts(ChunksOfDoc(s.rows, d)), SetStatus(d, Failed)]
  }

  /** After the vectors of an upsert and before their mappings. */
  const MID_UPSERT := 7

  /** Where an exception can surface: after any effect, except inside an upsert, whose mapping half
      cannot raise. */
  predicate CanRaise(raise: Option<nat>) {
    raise.Some? ==> raise.value <= PIPELINE_LENGTH && raise.value != MID_UPSERT
  }

  /** A whole run: the pipeline, or the part of it before an exception and then the handler. */
  function RunEffects(s: State, d: DocId, b: Batch, raise: Option<nat>): seq<Effect>
    requires CanRaise(raise)
  {
    var es := PipelineEffects(d, b);
    if raise.None? then es
    else es[..raise.value] + CleanupEffects(Replay(s, es[..raise.value]), d)
  }

  // ---- what a batch promises

  ghost predicate GoodRows(s: State, d: DocId, b: Batch) {
    && (forall c :: c in b.rows ==> c !in s.rows && b.rows[c].doc == d && b.rows[c].vid == None)
    && (forall c :: c in b.ids <==> c in b.rows && !b.rows[c].dup)
    && b.texts == NonDuplicates(b.rows)
    && CanonicalHashesDiffer(s.rows + b.rows)
  }

  ghost predicate GoodRecords(s: State, d: DocId, b: Batch) {
    && FreshIds(b.recs, s.index.Keys)
    && (forall c :: c in b.ids ==> b.ids[c] !in s.index)
    && (forall a, c :: a in b.ids && c in b.ids && a != c ==> b.ids[a] != b.ids[c])
    && (forall i :: 0 <= i < |b.recs| ==>
          var r := b.recs[i]; r.doc == d && r.chunk in b.ids && b.ids[r.chunk] == r.vid)
    && (forall c :: c in b.ids ==> exists i :: 0 <= i < |b.recs| && b.recs[i].chunk == c)
  }

  /** The facts about a batch that the rest of the argument needs. */
  ghost predicate GoodBatch(s: State, d: DocId, b: Batch, threshold: real) {
    GoodRows(s, d, b) && GoodRecords(s, d, b) && Separated(s.index + VectorsOf(b.recs), threshold)
  }

  lemma RecordsMatchIds(d: DocId, job: Job, kept: seq<nat>, base: int, embed: string -> Vector)
    requires base >= -1
    requires |job.ids| == |job.drafts| && Distinct(job.ids) && IncreasingBelow(kept, |job.drafts|)
    ensures var ids, recs := NewIds(job, kept, base), NewRecords(d, job, kept, base, embed);
            && (forall j :: 0 <= j < |recs| ==> recs[j].chunk in ids && ids[recs[j].chunk] == recs[j].vid)
            && (forall c :: c in ids ==> exists j :: 0 <= j < |recs| && recs[j].chunk == c)
            && (forall a, c :: a in ids && c in ids && a != c ==> ids[a] != ids[c])
  {
    var ids, recs := NewIds(job, kept, base), NewRecords(d, job, kept, base, embed);
    forall j | 0 <= j < |recs| ensures recs[j].chunk in ids && ids[recs[j].chunk] == recs[j].vid {
      assert kept[j] in kept;
      assert IndexOf(job.ids, job.ids[kept[j]]) == kept[j];
      assert IndexOf(kept, kept[j]) == j;
    }
    forall c | c in ids ensures exists j :: 0 <= j < |recs| && recs[j].chunk == c {
      assert recs[IndexOf(kept, IndexOf(job.ids, c))].chunk == c;
    }
  }

  /** Ids are allocated above every assigned one, so they are new to the index and to each other. */
  lemma AllocatedIdsAreFresh(s: State, d: DocId, job: Job, cfg: Config)
    requires Consistent(s, cfg.threshold) && Fits(s, job)
    ensures var b := BatchOf(s, d, job, cfg);
            FreshIds(b.recs, s.index.Keys) && forall c :: c in b.ids ==> b.ids[c] !in s.index
  {
    var b := BatchOf(s, d, job, cfg);
    var rows := s.rows + b.rows;
    var base := MaxVid(rows);
    forall v | v in s.index ensures v <= base {
      var c := s.chunkOf[v];
      assert c in rows && rows[c] == s.rows[c];
    }
  }

  lemma DraftIsNew(s: State, job: Job, cfg: Config, i: nat)
    requires i in KeptOf(s, job, cfg)
    ensures i < |job.drafts|
    ensures job.drafts[i].hash !in CanonicalHashes(s.rows)
    ensures forall j :: 0 <= j < i ==> job.drafts[j].hash != job.drafts[i].hash
    ensures forall k :: k in s.index ==> Dot(s.index[k], cfg.embed(job.drafts[i].text)) <= cfg.threshold
    ensures forall j :: j in KeptOf(s, job, cfg) && j < i ==>
              Dot(cfg.embed(job.drafts[j].text), cfg.embed(job.drafts[i].text)) <= cfg.threshold
  {
    var kept := KeptOf(s, job, cfg);
    var j :| 0 <= j < |kept| && kept[j] == i;
    KeptExactly(job.drafts, CanonicalHashes(s.rows), s.index, cfg.embed, cfg.threshold, |job.drafts|, i);
  }

  lemma NewHashCase(s: State, d: DocId, job: Job, cfg: Config, a: ChunkId, b: ChunkId)
    requires Fits(s, job)
    requires var new' := NewRows(d, job, KeptOf(s, job, cfg)); a in new' && !new'[a].dup
    requires var rows := s.rows + NewRows(d, job, KeptOf(s, job, cfg)); b in rows && b != a && !rows[b].dup
    ensures var rows := s.rows + NewRows(d, job, KeptOf(s, job, cfg)); rows[a].hash != rows[b].hash
  {
    DraftIsNew(s, job, cfg, IndexOf(job.ids, a));
    if b in s.rows {
      assert s.rows[b].hash in CanonicalHashes(s.rows);
    } else {
      DraftIsNew(s, job, cfg, IndexOf(job.ids, b));
    }
  }

  lemma BatchHashesDiffer(s: State, d: DocId, job: Job, cfg: Config)
    requires Consistent(s, cfg.threshold) && Fits(s, job)
    ensures CanonicalHashesDiffer(s.rows + NewRows(d, job, KeptOf(s, job, cfg)))
  {
    var new' := NewRows(d, job, KeptOf(s, job, cfg));
    var rows := s.rows + new';
    forall a, b | a in rows && b in rows && a != b && !rows[a].dup && !rows[b].dup
      ensures rows[a].hash != rows[b].hash
    {
      if a in new' {
        NewHashCase(s, d, job, cfg, a, b);
      } else if b in new' {
        NewHashCase(s, d, job, cfg, b, a);
      }
    }
  }

  lemma NewVectorCase(s: State, job: Job, cfg: Config, i: nat, x: Index, u: VectorId, v: VectorId)
    requires i in KeptOf(s, job, cfg) && i < |job.drafts|
    requires u in x && v in x && x[u] == cfg.embed(job.drafts[i].text)
    requires (v in s.index && x[v] == s.index[v])
             || exists j :: (j in KeptOf(s, job, cfg) && j != i && j < |job.drafts|
                             && x[v] == cfg.embed(job.drafts[j].text))
    ensures Dot(x[u], x[v]) <= cfg.threshold && Dot(x[v], x[u]) <= cfg.threshold
  {
    DotSymmetric(x[u], x[v]);
    DraftIsNew(s, job, cfg, i);
    if !(v in s.index && x[v] == s.index[v]) {
      var j :| j in KeptOf(s, job, cfg) && j != i && j < |job.drafts| && x[v] == cfg.embed(job.drafts[j].text);
      DraftIsNew(s, job, cfg, j);
    }
  }

  lemma NewVectorIs(s: State, d: DocId, job: Job, cfg: Config, u: VectorId) returns (i: nat)
    requires Consistent(s, cfg.threshold) && Fits(s, job)
    requires u in VectorsOf(BatchOf(s, d, job, cfg).recs)
    ensures i < |KeptOf(s, job, cfg)| && BatchOf(s, d, job, cfg).recs[i].vid == u
    ensures VectorsOf(BatchOf(s, d, job, cfg).recs)[u] == cfg.embed(job.drafts[KeptOf(s, job, cfg)[i]].text)
  {
    var recs := BatchOf(s, d, job, cfg).recs;
    AllocatedIdsAreFresh(s, d, job, cfg);
    RecordKeys(recs);
    i :| 0 <= i < |recs| && recs[i].vid == u;
    RecordAt(recs, i);
  }

  lemma BatchVectorsSeparated(s: State, d: DocId, job: Job, cfg: Config)
    requires Consistent(s, cfg.threshold) && Fits(s, job)
    ensures Separated(s.index + VectorsOf(BatchOf(s, d, job, cfg).recs), cfg.threshold)
  {
    var kept := KeptOf(s, job, cfg);
    var new' := VectorsOf(BatchOf(s, d, job, cfg).recs);
    var x := s.index + new';
    forall u, v | u in x && v in x && u != v ensures Dot(x[u], x[v]) <= cfg.threshold {
      if u in new' {
        var i := NewVectorIs(s, d, job, cfg, u);
        if v in new' {
          var j := NewVectorIs(s, d, job, cfg, v);
          assert kept[j] in kept;
        }
        assert kept[i] in kept;
        NewVectorCase(s, job, cfg, kept[i], x, u, v);
      } else if v in new' {
        var j := NewVectorIs(s, d, job, cfg, v);
        assert kept[j] in kept;
        NewVectorCase(s, job, cfg, kept[j], x, v, u);
      }
    }
  }

  lemma NewRowsAre(s: State, d: DocId, job: Job, kept: seq<nat>, base: int)
    requires Fits(s, job) && base >= -1
    ensures var rows := NewRows(d, job, kept);
            && (forall c :: c in rows ==> c !in s.rows && rows[c].doc == d && rows[c].vid == None)
            && (forall c :: c in NewIds(job, kept, base) <==> c in rows && !rows[c].dup)
            && NewTexts(job, kept) == NonDuplicates(rows)
  {
  }

  lemma BatchRowsGood(s: State, d: DocId, job: Job, cfg: Config)
    requires Consistent(s, cfg.threshold) && Fits(s, job)
    ensures GoodRows(s, d, BatchOf(s, d, job, cfg))
  {
    NewRowsAre(s, d, job, KeptOf(s, job, cfg), MaxVid(s.rows + NewRows(d, job, KeptOf(s, job, cfg))));
    BatchHashesDiffer(s, d, job, cfg);
  }

  lemma BatchRecordsGood(s: State, d: DocId, job: Job, cfg: Config)
    requires Consistent(s, cfg.threshold) && Fits(s, job)
    ensures GoodRecords(s, d, BatchOf(s, d, job, cfg))
  {
    var kept, b := KeptOf(s, job, cfg), BatchOf(s, d, job, cfg);
    AllocatedIdsAreFresh(s, d, job, cfg);
    RecordsMatchIds(d, job, kept, MaxVid(s.rows + b.rows), cfg.embed);
  }

  lemma BatchIsGood(s: State, d: DocId, job: Job, cfg: Config)
    requires Consistent(s, cfg.threshold) && Fits(s, job)
    ensures GoodBatch(s, d, BatchOf(s, d, job, cfg), cfg.threshold)
  {
    BatchRowsGood(s, d, job, cfg);
    BatchRecordsGood(s, d, job, cfg);
    BatchVectorsSeparated(s, d, job, cfg);
  }
}
