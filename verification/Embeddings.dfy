/** Which vector a chunk has: at every point, an id that a row carries stands for the embedding of that row's text. */
module Embeddings {
  import opened Values
  import opened World
  import opened Invariants
  import opened Pipeline
  import opened PipelineProof
  import opened Recovery
  import opened Runs

  /** The index holds every row's id, and under it the embedding of the row's text. */
  predicate HoldsEmbeddings(rows: Rows, index: Index, embed: string -> Vector) {
    forall c :: c in rows && rows[c].vid.Some? ==>
      rows[c].vid.value in index && index[rows[c].vid.value] == embed(rows[c].text)
  }

  /** Wherever the index holds a row's id, it holds the embedding of the row's text under it. */
  predicate Embeds(rows: Rows, index: Index, embed: string -> Vector) {
    forall c :: c in rows && rows[c].vid.Some? && rows[c].vid.value in index ==>
      index[rows[c].vid.value] == embed(rows[c].text)
  }

  /** The index in memory and the one on disk. */
  predicate EmbedsBoth(s: State, embed: string -> Vector) {
    Embeds(s.rows, s.index, embed) && Embeds(s.rows, s.file, embed)
  }

  // ---- single writes

  /** Writes that give no row an id and no id a vector. */
  predicate Neutral(e: Effect) {
    !e.InsertRows? && !e.AssignIds? && !e.AddVectors?
  }

  lemma FewerRows(rows: Rows, few: Rows, index: Index, embed: string -> Vector)
    requires Embeds(rows, index, embed) && forall c :: c in few ==> c in rows && few[c] == rows[c]
    ensures Embeds(few, index, embed)
  {
  }

  lemma FewerVectors(rows: Rows, index: Index, few: Index, embed: string -> Vector)
    requires Embeds(rows, index, embed) && forall v :: v in few ==> v in index && few[v] == index[v]
    ensures Embeds(rows, few, embed)
  {
  }

  lemma NeutralRows(s: State, e: Effect)
    requires Neutral(e)
    ensures forall c :: c in Apply(s, e).rows ==> c in s.rows && Apply(s, e).rows[c] == s.rows[c]
  {
  }

  lemma NeutralStore(s: State, e: Effect)
    requires Neutral(e)
    ensures var t := Apply(s, e);
            && (forall v :: v in t.index ==> v in s.index && t.index[v] == s.index[v])
            && (t.file == s.file || (t.file == s.index && t.index == s.index))
  {
  }

  lemma NeutralKeeps(s: State, e: Effect, embed: string -> Vector)
    requires EmbedsBoth(s, embed) && Neutral(e)
    ensures EmbedsBoth(Apply(s, e), embed)
  {
    var t := Apply(s, e);
    NeutralRows(s, e);
    NeutralStore(s, e);
    FewerRows(s.rows, t.rows, s.index, embed);
    FewerRows(s.rows, t.rows, s.file, embed);
    FewerVectors(t.rows, s.index, t.index, embed);
  }

  lemma {:induction false} NeutralRunKeeps(s: State, es: seq<Effect>, embed: string -> Vector)
    requires EmbedsBoth(s, embed) && forall i :: 0 <= i < |es| ==> Neutral(es[i])
    ensures EmbedsBoth(Replay(s, es), embed)
  {
    if es == [] {
    } else {
      NeutralRunKeeps(s, es[..|es| - 1], embed);
      NeutralKeeps(Replay(s, es[..|es| - 1]), es[|es| - 1], embed);
    }
  }

  lemma InsertKeeps(rows: Rows, new': Rows, index: Index, embed: string -> Vector)
    requires Embeds(rows, index, embed) && forall c :: c in new' ==> new'[c].vid.None?
    ensures Embeds(rows + new', index, embed)
  {
  }

  lemma AssignKeeps(rows: Rows, ids: map<ChunkId, VectorId>, index: Index, embed: string -> Vector)
    requires Embeds(rows, index, embed) && forall c :: c in ids ==> ids[c] !in index
    ensures Embeds(WithIds(rows, ids), index, embed)
  {
  }

  // ---- a run

  /** Each record carries the embedding of the text of the row it is for. */
  predicate RecordsEmbed(b: Batch, embed: string -> Vector) {
    forall i :: 0 <= i < |b.recs| ==> b.recs[i].chunk in b.rows && b.recs[i].vec == embed(b.rows[b.recs[i].chunk].text)
  }

  lemma BatchEmbeds(s: State, d: DocId, job: Job, cfg: Config)
    requires Fits(s, job)
    ensures RecordsEmbed(BatchOf(s, d, job, cfg), cfg.embed)
  {
    var b, kept := BatchOf(s, d, job, cfg), KeptOf(s, job, cfg);
    forall j | 0 <= j < |b.recs|
      ensures b.recs[j].chunk in b.rows && b.recs[j].vec == cfg.embed(b.rows[b.recs[j].chunk].text)
    {
      assert IndexOf(job.ids, job.ids[kept[j]]) == kept[j];
    }
  }

  lemma NewVectorIs(s: State, d: DocId, b: Batch, threshold: real, embed: string -> Vector, c: ChunkId)
    requires Ready(s, d, b, threshold) && RecordsEmbed(b, embed) && c in b.ids
    ensures c in b.rows && b.ids[c] in VectorsOf(b.recs) && VectorsOf(b.recs)[b.ids[c]] == embed(b.rows[c].text)
  {
    var i :| 0 <= i < |b.recs| && b.recs[i].chunk == c;
    RecordAt(b.recs, i);
  }

  lemma OldVectorStays(s: State, d: DocId, b: Batch, threshold: real, c: ChunkId)
    requires Ready(s, d, b, threshold) && c in s.rows && s.rows[c].vid.Some?
    ensures var v := s.rows[c].vid.value; v in s.index && Vectors(s, b)[v] == s.index[v]
  {
    ReadyIds(s, d, b, threshold);
    assert s.rows[c].vid.value in s.chunkOf;
  }

  lemma JoinedHold(old': Rows, new': Rows, ids: map<ChunkId, VectorId>, d: DocId, x: Index, embed: string -> Vector)
    requires Joins(old', new', ids, d) && HoldsEmbeddings(old', x, embed)
    requires forall c :: c in ids ==> ids[c] in x && x[ids[c]] == embed(new'[c].text)
    ensures HoldsEmbeddings(WithIds(old' + new', ids), x, embed)
  {
    var rows := WithIds(old' + new', ids);
    forall c | c in rows && rows[c].vid.Some?
      ensures rows[c].vid.value in x && x[rows[c].vid.value] == embed(rows[c].text)
    {
      JoinedAt(old', new', ids, d, c);
    }
  }

  lemma OldVectorsStay(s: State, d: DocId, b: Batch, threshold: real, embed: string -> Vector)
    requires Ready(s, d, b, threshold) && Embeds(s.rows, s.index, embed)
    ensures HoldsEmbeddings(s.rows, Vectors(s, b), embed)
  {
    forall c | c in s.rows && s.rows[c].vid.Some?
      ensures s.rows[c].vid.value in Vectors(s, b) &&
              Vectors(s, b)[s.rows[c].vid.value] == embed(s.rows[c].text)
    {
      OldVectorStays(s, d, b, threshold, c);
    }
  }

  lemma UpsertKeeps(s: State, d: DocId, b: Batch, threshold: real, embed: string -> Vector)
    requires Ready(s, d, b, threshold) && RecordsEmbed(b, embed) && Embeds(s.rows, s.index, embed)
    ensures Embeds(Indexed(s, b), Vectors(s, b), embed)
  {
    ReadyJoins(s, d, b, threshold);
    OldVectorsStay(s, d, b, threshold, embed);
    forall c | c in b.ids ensures b.ids[c] in Vectors(s, b) && Vectors(s, b)[b.ids[c]] == embed(b.rows[c].text) {
      NewVectorIs(s, d, b, threshold, embed, c);
    }
    JoinedHold(s.rows, b.rows, b.ids, d, Vectors(s, b), embed);
  }

  lemma IndexedKeeps(s: State, d: DocId, b: Batch, threshold: real, embed: string -> Vector)
    requires Ready(s, d, b, threshold) && Embeds(s.rows, s.index, embed)
    ensures Embeds(Inserted(s, b), s.index, embed) && Embeds(Indexed(s, b), s.index, embed)
  {
    InsertKeeps(s.rows, b.rows, s.index, embed);
    AssignKeeps(Inserted(s, b), b.ids, s.index, embed);
  }

  /** At every point of the happy path. */
  lemma PrefixEmbeds(s: State, d: DocId, b: Batch, threshold: real, embed: string -> Vector, k: nat)
    requires Ready(s, d, b, threshold) && RecordsEmbed(b, embed) && EmbedsBoth(s, embed) && k <= PIPELINE_LENGTH
    ensures EmbedsBoth(At(s, d, b, k), embed)
  {
    UpsertKeeps(s, d, b, threshold, embed);
    IndexedKeeps(s, d, b, threshold, embed);
  }

  lemma CleanupIsNeutral(t: State, d: DocId, m: nat)
    requires m <= CLEANUP_LENGTH
    ensures forall i :: 0 <= i < m ==> Neutral(CleanupEffects(t, d)[..m][i])
  {
  }

  lemma PipelineCutEmbeds(s: State, d: DocId, b: Batch, threshold: real, embed: string -> Vector, k: nat)
    requires Ready(s, d, b, threshold) && RecordsEmbed(b, embed) && EmbedsBoth(s, embed) && k <= PIPELINE_LENGTH
    ensures EmbedsBoth(Replay(s, PipelineEffects(d, b)[..k]), embed)
  {
    PipelineReaches(s, d, b, k);
    PrefixEmbeds(s, d, b, threshold, embed, k);
  }

  lemma CleaningCutEmbeds(s: State, es: seq<Effect>, d: DocId, t: State, embed: string -> Vector, m: nat)
    requires EmbedsBoth(Replay(s, es), embed) && m <= CLEANUP_LENGTH
    ensures EmbedsBoth(Replay(s, es + CleanupEffects(t, d)[..m]), embed)
  {
    var cleanup := CleanupEffects(t, d)[..m];
    ReplayConcat(s, es, cleanup);
    CleanupIsNeutral(t, d, m);
    NeutralRunKeeps(Replay(s, es), cleanup, embed);
  }

  lemma HandlerCutEmbeds(s: State, d: DocId, b: Batch, threshold: real, embed: string -> Vector, n: nat, m: nat)
    requires Ready(s, d, b, threshold) && RecordsEmbed(b, embed) && EmbedsBoth(s, embed) && CanRaise(Some(n))
    requires m <= CLEANUP_LENGTH
    ensures EmbedsBoth(Replay(s, PipelineEffects(d, b)[..n] + CleanupEffects(At(s, d, b, n), d)[..m]), embed)
  {
    PipelineCutEmbeds(s, d, b, threshold, embed, n);
    CleaningCutEmbeds(s, PipelineEffects(d, b)[..n], d, At(s, d, b, n), embed, m);
  }

  lemma FailedCutEmbeds(s: State, d: DocId, b: Batch, threshold: real, embed: string -> Vector, n: nat, k: nat)
    requires Ready(s, d, b, threshold) && RecordsEmbed(b, embed) && EmbedsBoth(s, embed) && CanRaise(Some(n))
    requires k <= n + CLEANUP_LENGTH
    ensures EmbedsBoth(Replay(s, (PipelineEffects(d, b)[..n] + CleanupEffects(At(s, d, b, n), d))[..k]), embed)
  {
    PrefixOfConcat(PipelineEffects(d, b), n, CleanupEffects(At(s, d, b, n), d), k);
    if k <= n {
      PipelineCutEmbeds(s, d, b, threshold, embed, k);
    } else {
      HandlerCutEmbeds(s, d, b, threshold, embed, n, k - n);
    }
  }

  lemma RunCutEmbeds(s: State, d: DocId, b: Batch, threshold: real, embed: string -> Vector, raise: Option<nat>, k: nat)
    requires Ready(s, d, b, threshold) && RecordsEmbed(b, embed) && EmbedsBoth(s, embed) && CanRaise(raise)
    requires k <= |RunEffects(s, d, b, raise)|
    ensures EmbedsBoth(Replay(s, RunEffects(s, d, b, raise)[..k]), embed)
  {
    match raise
    case None => PipelineCutEmbeds(s, d, b, threshold, embed, k);
    case Some(n) =>
      FailedRunEffects(s, d, b, n);
      FailedCutEmbeds(s, d, b, threshold, embed, n, k);
  }

  // ---- operations and histories

  lemma DequeuedRunEmbeds(s: State, d: DocId, b: Batch, threshold: real, embed: string -> Vector, raise: Option<nat>,
                          k: nat)
    requires Ready(Apply(s, Dequeue), d, b, threshold) && RecordsEmbed(b, embed)
    requires EmbedsBoth(Apply(s, Dequeue), embed)
    requires CanRaise(raise) && 1 <= k <= |RunEffects(Apply(s, Dequeue), d, b, raise)| + 1
    ensures EmbedsBoth(Replay(s, ([Dequeue] + RunEffects(Apply(s, Dequeue), d, b, raise))[..k]), embed)
  {
    var after := Apply(s, Dequeue);
    AfterDequeue(s, RunEffects(after, d, b, raise), k);
    RunCutEmbeds(after, d, b, threshold, embed, raise, k - 1);
  }

  lemma DequeuedAloneEmbeds(s: State, embed: string -> Vector, k: nat)
    requires EmbedsBoth(s, embed) && k == 1
    ensures EmbedsBoth(Replay(s, ([Dequeue] + [])[..k]), embed)
  {
    AfterDequeue(s, [], k);
    NeutralKeeps(s, Dequeue, embed);
  }

  lemma WorkCutEmbeds(s: State, job: Job, raise: Option<nat>, cfg: Config, k: nat)
    requires Agree(s, cfg.threshold) && Enabled(s, Work(job, raise)) && EmbedsBoth(s, cfg.embed)
    requires 1 <= k <= |WorkEffects(s, job, raise, cfg)|
    ensures EmbedsBoth(Replay(s, WorkEffects(s, job, raise, cfg)[..k]), cfg.embed)
  {
    var d, after := s.queue[0], Apply(s, Dequeue);
    if d in s.docs {
      WorkIsReady(s, job, cfg);
      BatchEmbeds(after, d, job, cfg);
      NeutralKeeps(s, Dequeue, cfg.embed);
      DequeuedRunEmbeds(s, d, BatchOf(after, d, job, cfg), cfg.threshold, cfg.embed, raise, k);
    } else {
      DequeuedAloneEmbeds(s, cfg.embed, k);
    }
  }

  lemma OthersAreNeutral(s: State, op: Op, cfg: Config)
    requires !op.Work?
    ensures Enabled(s, op) ==> forall i :: 0 <= i < |EffectsOf(s, op, cfg)| ==> Neutral(EffectsOf(s, op, cfg)[i])
  {
  }

  lemma CutEmbeds(s: State, op: Op, cfg: Config, k: nat)
    requires Agree(s, cfg.threshold) && Enabled(s, op) && EmbedsBoth(s, cfg.embed) && k <= |EffectsOf(s, op, cfg)|
    ensures EmbedsBoth(Replay(s, EffectsOf(s, op, cfg)[..k]), cfg.embed)
  {
    if k == 0 {
      assert EffectsOf(s, op, cfg)[..0] == [];
    } else if op.Work? {
      WorkCutEmbeds(s, op.job, op.raise, cfg, k);
    } else {
      OthersAreNeutral(s, op, cfg);
      NeutralRunKeeps(s, EffectsOf(s, op, cfg)[..k], cfg.embed);
    }
  }

  lemma DownedEmbeds(s: State, how: Down, embed: string -> Vector)
    requires EmbedsBoth(s, embed)
    ensures EmbedsBoth(Downed(s, how), embed)
  {
  }

  lemma RestartEmbeds(s: State, t: State, embed: string -> Vector)
    requires EmbedsBoth(s, embed) && Restarted(s, t)
    ensures EmbedsBoth(t, embed)
  {
    FewerRows(s.rows, t.rows, s.file, embed);
    FewerVectors(t.rows, s.file, t.file, embed);
  }

  lemma StepEmbeds(s: State, e: Event, t: State, cfg: Config)
    requires Agree(s, cfg.threshold) && Step(s, e, t, cfg) && EmbedsBoth(s, cfg.embed)
    ensures EmbedsBoth(t, cfg.embed)
  {
    var es := EffectsOf(s, e.op, cfg);
    match e
    case Complete(op) =>
      CutEmbeds(s, op, cfg, |es|);
      assert es[..|es|] == es;
    case Cut(op, k, how) =>
      CutEmbeds(s, op, cfg, k);
      DownedEmbeds(Replay(s, es[..k]), how, cfg.embed);
      RestartEmbeds(Downed(Replay(s, es[..k]), how), t, cfg.embed);
  }

  lemma HistoryStepEmbeds(states: seq<State>, events: seq<Event>, cfg: Config, i: nat)
    requires History(states, events, cfg) && 0 < i < |states| && Agree(states[i - 1], cfg.threshold)
    requires EmbedsBoth(states[i - 1], cfg.embed)
    ensures EmbedsBoth(states[i], cfg.embed)
  {
    var before, e, after := states[i - 1], events[i - 1], states[i];
    assert Step(before, e, after, cfg) by { assert states[i - 1 + 1] == after; }
    StepEmbeds(before, e, after, cfg);
  }

  lemma {:induction false} HistoryEmbeds(states: seq<State>, events: seq<Event>, cfg: Config, i: nat)
    requires History(states, events, cfg) && Agree(states[0], cfg.threshold) && EmbedsBoth(states[0], cfg.embed)
    requires i < |states|
    ensures EmbedsBoth(states[i], cfg.embed)
  {
    if i == 0 {
    } else {
      HistoryEmbeds(states, events, cfg, i - 1);
      EveryHistoryAgrees(states, events, cfg, i - 1);
      HistoryStepEmbeds(states, events, cfg, i);
    }
  }

  lemma AgreeingHolds(s: State, cfg: Config)
    requires Agree(s, cfg.threshold) && EmbedsBoth(s, cfg.embed)
    ensures HoldsEmbeddings(s.rows, s.index, cfg.embed) && HoldsEmbeddings(s.rows, s.file, cfg.embed)
  {
  }

  /** Over every history that starts with an empty installation, whatever was cut and restarted: between any two
      operations every assigned id stands, in memory and on disk, for the embedding of its own row's text. */
  lemma EveryVectorIsItsText(states: seq<State>, events: seq<Event>, cfg: Config, i: nat)
    requires History(states, events, cfg) && i < |states|
    requires states[0] == State(map[], map[], map[], map[], map[], map[], map[], map[], [])
    ensures HoldsEmbeddings(states[i].rows, states[i].index, cfg.embed)
    ensures HoldsEmbeddings(states[i].rows, states[i].file, cfg.embed)
  {
    EmptyAgrees(cfg.threshold);
    EveryHistoryAgrees(states, events, cfg, i);
    HistoryEmbeds(states, events, cfg, i);
    AgreeingHolds(states[i], cfg);
  }
}
