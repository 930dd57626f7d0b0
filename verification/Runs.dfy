/** Whole histories: uploads, worker runs, deletes, and restarts that cut any of them anywhere. */
module Runs {
  import opened Values
  import opened World
  import opened FaissStore
  import opened Dedup
  import opened Invariants
  import opened Pipeline
  import opened PipelineProof
  import opened Recovery

  datatype Op =
    | Upload(doc: DocId, created: nat)
    | Work(job: Job, raise: Option<nat>)
    | Delete(victim: DocId)

  /** Deletes do not overlap runs. Uploads draw an id nothing has used; the worker has something to take. */
  ghost predicate Enabled(s: State, op: Op) {
    match op
    case Upload(d, _) => d !in s.docs && d !in s.queue
    case Work(job, raise) => s.queue != [] && Fits(s, job) && CanRaise(raise)
    case Delete(_) => true
  }

  const DELETE_LENGTH := 6

  /** SQL first, so that search can never be asked for rows that still have vectors; then the store,
      its file, and BM25. */
  function DeleteEffects(s: State, d: DocId): (es: seq<Effect>)
    ensures d in s.docs ==> |es| == DELETE_LENGTH
  {
    var vids := VidsOf(s.vidsOf, d);
    if d !in s.docs then []
    else [DeleteDoc(d), ForgetDoc(d), RemoveVectors(vids), UnmapVectors(vids), Persist,
          RemoveTexts(ChunksOfDoc(s.rows, d))]
  }

  /** The worker takes an id; a document deleted while it waited is not an error. */
  ghost function WorkEffects(s: State, job: Job, raise: Option<nat>, cfg: Config): seq<Effect>
    requires s.queue != [] && Fits(s, job) && CanRaise(raise)
  {
    var d, after := s.queue[0], Apply(s, Dequeue);
    [Dequeue] + if d in s.docs then RunEffects(after, d, BatchOf(after, d, job, cfg), raise) else []
  }

  ghost function EffectsOf(s: State, op: Op, cfg: Config): seq<Effect>
    requires Enabled(s, op)
  {
    match op
    case Upload(d, created) => [AddDoc(d, created), Enqueue(d)]
    case Work(job, raise) => WorkEffects(s, job, raise, cfg)
    case Delete(d) => DeleteEffects(s, d)
  }

  // ---- deletes

  function DeletingAt(s: State, d: DocId, k: nat): State
    requires k <= DELETE_LENGTH
  {
    var vids := VidsOf(s.vidsOf, d);
    State(
      if k < 1 then s.docs else s.docs - {d},
      if k < 1 then s.rows else Others(s.rows, d),
      if k < 5 then s.file else s.index - vids,
      if k < 3 then s.index else s.index - vids,
      if k < 4 then s.chunkOf else s.chunkOf - vids,
      if k < 4 then s.docOf else s.docOf - vids,
      if k < 2 then s.vidsOf else s.vidsOf - {d},
      if k < DELETE_LENGTH then s.corpus else s.corpus - ChunksOfDoc(s.rows, d),
      s.queue)
  }

  lemma TableDeleteStep(s: State, d: DocId, k: nat)
    requires d in s.docs && 1 <= k <= 3
    ensures Apply(DeletingAt(s, d, k - 1), DeleteEffects(s, d)[k - 1]) == DeletingAt(s, d, k)
  {
  }

  lemma StoreDeleteStep(s: State, d: DocId, k: nat)
    requires d in s.docs && 4 <= k <= DELETE_LENGTH
    ensures Apply(DeletingAt(s, d, k - 1), DeleteEffects(s, d)[k - 1]) == DeletingAt(s, d, k)
  {
  }

  lemma {:induction false} DeleteReaches(s: State, d: DocId, k: nat)
    requires d in s.docs && k <= DELETE_LENGTH
    ensures Replay(s, DeleteEffects(s, d)[..k]) == DeletingAt(s, d, k)
  {
    if k == 0 {
    } else {
      DeleteReaches(s, d, k - 1);
      ReplayOneMore(s, DeleteEffects(s, d), k);
      if k <= 3 { TableDeleteStep(s, d, k); } else { StoreDeleteStep(s, d, k); }
    }
  }

  lemma IdsOfDocument(s: State, d: DocId, threshold: real)
    requires Consistent(s, threshold)
    ensures VidsOf(s.vidsOf, d) == OwnedIds(s.rows, {d})
  {
    forall v ensures v in VidsOf(s.vidsOf, d) <==> v in OwnedIds(s.rows, {d}) {
      assert v in VidsOf(s.vidsOf, d) <==> v in s.docOf && s.docOf[v] == d;
      if v in s.docOf && s.docOf[v] == d {
        var c := s.chunkOf[v];
        assert c in Mapped(s.rows) && Mapped(s.rows)[c] == v;
      }
      if v in OwnedIds(s.rows, {d}) {
        var c :| c in Mapped(s.rows) && s.rows[c].doc in {d} && Mapped(s.rows)[c] == v;
      }
    }
  }

  lemma OthersMapped(s: State, d: DocId, threshold: real)
    requires Consistent(s, threshold)
    ensures Mapped(Others(s.rows, d)).Values == (s.index - VidsOf(s.vidsOf, d)).Keys <= s.index.Keys
  {
    assert Others(s.rows, d) == Without(s.rows, {d});
    IdsOfDocument(s, d, threshold);
    BijectionCoversIndex(s.rows, s.chunkOf, s.docOf);
    SweptIndexMatches(s.rows, {d}, s.index);
  }

  lemma DeletedRowsReady(docs: map<DocId, Doc>, rows: Rows, d: DocId)
    requires VidsUnique(rows) && CanonicalHashesDiffer(rows)
    requires forall c :: c in rows ==> rows[c].doc in docs && docs[rows[c].doc].status == Done
    requires forall c :: c in rows ==> (rows[c].dup <==> rows[c].vid.None?)
    ensures var rest := Others(rows, d);
            RowsReady(docs - {d}, rest) && VidsUnique(rest) && CanonicalHashesDiffer(rest)
  {
  }

  lemma DeleteIsRecoverable(s: State, d: DocId, threshold: real, k: nat)
    requires Consistent(s, threshold) && 1 <= k <= DELETE_LENGTH
    ensures Recoverable(DeletingAt(s, d, k), threshold)
  {
    OthersMapped(s, d, threshold);
    DeletedRowsReady(s.docs, s.rows, d);
  }

  lemma DeletedTables(s: State, d: DocId, threshold: real)
    requires Consistent(s, threshold)
    ensures var t := DeletingAt(s, d, DELETE_LENGTH);
            && (forall e :: e in t.docs ==> Resting(t.docs[e].status))
            && (forall c :: c in t.rows ==> t.rows[c].doc in t.docs && t.docs[t.rows[c].doc].status == Done)
            && (forall c :: c in t.rows ==> (t.rows[c].dup <==> t.rows[c].vid.None?))
            && VidsUnique(t.rows) && CanonicalHashesDiffer(t.rows)
  {
    DeletedRowsReady(s.docs, s.rows, d);
  }

  lemma DeletedStore(s: State, d: DocId, threshold: real)
    requires Consistent(s, threshold)
    ensures var t := DeletingAt(s, d, DELETE_LENGTH);
            && MapsAgree(t.chunkOf, t.docOf, t.vidsOf) && t.index.Keys == t.chunkOf.Keys && t.file == t.index
            && Separated(t.index, threshold)
  {
    MapsAgreeAfterDelete(s.chunkOf, s.docOf, s.vidsOf, d);
    FewerSeparated(s.index, VidsOf(s.vidsOf, d), threshold);
  }

  lemma FewerSeparated(index: Index, vids: set<VectorId>, threshold: real)
    requires Separated(index, threshold)
    ensures Separated(index - vids, threshold)
  {
    assert forall v :: v in index - vids ==> v in index && (index - vids)[v] == index[v];
  }

  lemma DeleteIsConsistent(s: State, d: DocId, threshold: real)
    requires Consistent(s, threshold)
    ensures Consistent(DeletingAt(s, d, DELETE_LENGTH), threshold)
  {
    DeletedTables(s, d, threshold);
    DeletedStore(s, d, threshold);
    DeletedBijection(s, d, threshold);
    DeletedCorpus(s.rows, d);
  }

  lemma DeletedCorpus(rows: Rows, d: DocId)
    ensures Tokenized(NonDuplicates(rows)) - ChunksOfDoc(rows, d) == Tokenized(NonDuplicates(Others(rows, d)))
  {
  }

  lemma DeletedBijection(s: State, d: DocId, threshold: real)
    requires Consistent(s, threshold)
    ensures var vids := VidsOf(s.vidsOf, d); Bijection(Others(s.rows, d), s.chunkOf - vids, s.docOf - vids)
  {
    var vids := VidsOf(s.vidsOf, d);
    forall v | v in s.chunkOf ensures v in vids <==> s.rows[s.chunkOf[v]].doc == d {
      assert v in VidsOf(s.vidsOf, d) <==> v in s.docOf && s.docOf[v] == d;
    }
  }

  // ---- worker runs

  lemma WorkIsReady(s: State, job: Job, cfg: Config)
    requires Agree(s, cfg.threshold) && s.queue != [] && s.queue[0] in s.docs && Fits(s, job)
    ensures var after := Apply(s, Dequeue);
            Fits(after, job) && Ready(after, s.queue[0], BatchOf(after, s.queue[0], job, cfg), cfg.threshold)
  {
    var after := Apply(s, Dequeue);
    assert s.queue[0] in s.queue;
    assert Consistent(after, cfg.threshold);
    BatchIsGood(after, s.queue[0], job, cfg);
  }

  lemma PipelinePrefixIsSafe(s: State, d: DocId, b: Batch, threshold: real, k: nat, cut: seq<Effect>)
    requires Ready(s, d, b, threshold) && k <= PIPELINE_LENGTH && cut == PipelineEffects(d, b)[..k]
    ensures Recoverable(Replay(s, cut), threshold)
  {
    PipelineReaches(s, d, b, k);
    PrefixIsRecoverable(s, d, b, threshold, k);
  }

  lemma CleanupPrefixIsSafe(s: State, d: DocId, b: Batch, threshold: real, n: nat, k: nat, cut: seq<Effect>)
    requires Ready(s, d, b, threshold) && CanRaise(Some(n)) && k <= |CleanupEffects(At(s, d, b, n), d)|
    requires cut == PipelineEffects(d, b)[..n] + CleanupEffects(At(s, d, b, n), d)[..k]
    ensures Recoverable(Replay(s, cut), threshold)
  {
    var t := At(s, d, b, n);
    PipelineReaches(s, d, b, n);
    ReplayConcat(s, PipelineEffects(d, b)[..n], CleanupEffects(t, d)[..k]);
    CleanupReaches(t, d, k);
    CleanupIsRecoverable(s, d, b, threshold, n, k);
  }

  /** A cut through two stretches is a cut of the first, or all of it and a cut of the second. */
  lemma PrefixOfConcat(es: seq<Effect>, n: nat, b: seq<Effect>, k: nat)
    requires n <= |es| && k <= n + |b|
    ensures (es[..n] + b)[..k] == if k <= n then es[..k] else es[..n] + b[..k - n]
  {
  }

  lemma FailedRunEffects(s: State, d: DocId, b: Batch, n: nat)
    requires CanRaise(Some(n))
    ensures RunEffects(s, d, b, Some(n)) == PipelineEffects(d, b)[..n] + CleanupEffects(At(s, d, b, n), d)
  {
    PipelineReaches(s, d, b, n);
  }

  lemma FailedRunIsSafe(s: State, d: DocId, b: Batch, threshold: real, n: nat, k: nat, all: seq<Effect>)
    requires Ready(s, d, b, threshold) && CanRaise(Some(n))
    requires all == PipelineEffects(d, b)[..n] + CleanupEffects(At(s, d, b, n), d) && k <= |all|
    ensures Recoverable(Replay(s, all[..k]), threshold)
  {
    PrefixOfConcat(PipelineEffects(d, b), n, CleanupEffects(At(s, d, b, n), d), k);
    if k <= n {
      PipelinePrefixIsSafe(s, d, b, threshold, k, all[..k]);
    } else {
      CleanupPrefixIsSafe(s, d, b, threshold, n, k - n, all[..k]);
    }
  }

  /** Every prefix of a run is recoverable, and the whole run is consistent. */
  lemma RunIsSafe(s: State, d: DocId, b: Batch, threshold: real, raise: Option<nat>, k: nat)
    requires Ready(s, d, b, threshold) && CanRaise(raise) && k <= |RunEffects(s, d, b, raise)|
    ensures Recoverable(Replay(s, RunEffects(s, d, b, raise)[..k]), threshold)
  {
    match raise
    case None => PipelinePrefixIsSafe(s, d, b, threshold, k, PipelineEffects(d, b)[..k]);
    case Some(n) =>
      FailedRunEffects(s, d, b, n);
      FailedRunIsSafe(s, d, b, threshold, n, k, RunEffects(s, d, b, raise));
  }

  ghost function RunEnd(s: State, d: DocId, b: Batch, raise: Option<nat>): State
    requires CanRaise(raise)
  {
    if raise.None? then At(s, d, b, PIPELINE_LENGTH) else CleaningAt(At(s, d, b, raise.value), d, CLEANUP_LENGTH)
  }

  lemma RunEndsThere(s: State, d: DocId, b: Batch, raise: Option<nat>)
    requires CanRaise(raise)
    ensures Replay(s, RunEffects(s, d, b, raise)) == RunEnd(s, d, b, raise)
  {
    var es := PipelineEffects(d, b);
    assert es[..PIPELINE_LENGTH] == es;
    PipelineReaches(s, d, b, PIPELINE_LENGTH);
    if raise.Some? {
      PipelineReaches(s, d, b, raise.value);
      var t := At(s, d, b, raise.value);
      var cleanup := CleanupEffects(t, d);
      assert cleanup[..CLEANUP_LENGTH] == cleanup;
      ReplayConcat(s, es[..raise.value], cleanup);
      CleanupReaches(t, d, CLEANUP_LENGTH);
    }
  }

  lemma RunEndIs(s: State, d: DocId, b: Batch, threshold: real, raise: Option<nat>)
    requires Ready(s, d, b, threshold) && CanRaise(raise)
    ensures var t := RunEnd(s, d, b, raise);
            && Consistent(t, threshold) && t.queue == s.queue
            && t.docs == WithStatus(s.docs, d, if raise.None? then Done else Failed)
  {
    if raise.None? {
      SuccessIsConsistent(s, d, b, threshold);
    } else {
      FailureIsConsistent(s, d, b, threshold, raise.value);
      FailureRestores(s, d, b, threshold, raise.value);
    }
  }

  lemma WaitingAfterRun(docs: map<DocId, Doc>, queue: seq<DocId>, st: Status)
    requires Waiting(docs, queue) && queue != [] && (st == Done || st == Failed)
    ensures Waiting(WithStatus(docs, queue[0], st), queue[1..])
  {
    assert queue == [queue[0]] + queue[1..];
  }

  lemma WorkKeepsAgreement(s: State, job: Job, raise: Option<nat>, cfg: Config)
    requires Agree(s, cfg.threshold) && Enabled(s, Work(job, raise))
    ensures Agree(Replay(s, WorkEffects(s, job, raise, cfg)), cfg.threshold)
  {
    var d, after := s.queue[0], Apply(s, Dequeue);
    WaitingAfterRun(s.docs, s.queue, if raise.None? then Done else Failed);
    assert Replay(s, [Dequeue]) == after by { assert [Dequeue][..0] == []; }
    if d in s.docs {
      WorkIsReady(s, job, cfg);
      var b := BatchOf(after, d, job, cfg);
      ReplayConcat(s, [Dequeue], RunEffects(after, d, b, raise));
      RunEndsThere(after, d, b, raise);
      RunEndIs(after, d, b, cfg.threshold, raise);
    } else {
      assert Consistent(after, cfg.threshold);
      assert [Dequeue] + [] == [Dequeue];
    }
  }

  lemma WorkIsRecoverable(s: State, job: Job, raise: Option<nat>, cfg: Config, k: nat)
    requires Agree(s, cfg.threshold) && Enabled(s, Work(job, raise))
    requires 1 <= k <= |WorkEffects(s, job, raise, cfg)|
    ensures Recoverable(Replay(s, WorkEffects(s, job, raise, cfg)[..k]), cfg.threshold)
  {
    var d, after := s.queue[0], Apply(s, Dequeue);
    if d in s.docs {
      WorkIsReady(s, job, cfg);
      DequeuedRunIsRecoverable(s, d, BatchOf(after, d, job, cfg), cfg.threshold, raise, k);
    } else {
      AfterDequeue(s, [], k);
      assert Consistent(after, cfg.threshold);
      ConsistentIsRecoverable(after, cfg.threshold);
    }
  }

  lemma DequeuedRunIsRecoverable(s: State, d: DocId, b: Batch, threshold: real, raise: Option<nat>, k: nat)
    requires Ready(Apply(s, Dequeue), d, b, threshold) && CanRaise(raise)
    requires 1 <= k <= |RunEffects(Apply(s, Dequeue), d, b, raise)| + 1
    ensures Recoverable(Replay(s, ([Dequeue] + RunEffects(Apply(s, Dequeue), d, b, raise))[..k]), threshold)
  {
    var after := Apply(s, Dequeue);
    AfterDequeue(s, RunEffects(after, d, b, raise), k);
    RunIsSafe(after, d, b, threshold, raise, k - 1);
  }

  lemma AfterDequeue(s: State, run: seq<Effect>, k: nat)
    requires 1 <= k <= |run| + 1
    ensures Replay(s, ([Dequeue] + run)[..k]) == Replay(Apply(s, Dequeue), run[..k - 1])
  {
    assert Replay(s, [Dequeue]) == Apply(s, Dequeue) by { assert [Dequeue][..0] == []; }
    assert ([Dequeue] + run)[..k] == [Dequeue] + run[..k - 1];
    ReplayConcat(s, [Dequeue], run[..k - 1]);
  }

  // ---- any operation

  lemma UploadKeepsConsistent(s: State, d: DocId, created: nat, threshold: real)
    requires Consistent(s, threshold) && d !in s.docs
    ensures Consistent(Apply(s, AddDoc(d, created)), threshold)
    ensures Consistent(Apply(Apply(s, AddDoc(d, created)), Enqueue(d)), threshold)
  {
  }

  lemma UploadSteps(s: State, d: DocId, created: nat)
    ensures var es := [AddDoc(d, created), Enqueue(d)];
            && Replay(s, es[..1]) == Apply(s, AddDoc(d, created))
            && Replay(s, es) == Apply(Apply(s, AddDoc(d, created)), Enqueue(d))
  {
    var es := [AddDoc(d, created), Enqueue(d)];
    assert es[..1] == [AddDoc(d, created)];
    assert es[..1][..0] == [];
    assert Replay(s, es[..1]) == Apply(s, AddDoc(d, created));
  }

  /** The cut lemma: wherever an operation is cut, what is left can be repaired. */
  lemma CutIsRecoverable(s: State, op: Op, cfg: Config, k: nat)
    requires Agree(s, cfg.threshold) && Enabled(s, op) && k <= |EffectsOf(s, op, cfg)|
    ensures Recoverable(Replay(s, EffectsOf(s, op, cfg)[..k]), cfg.threshold)
  {
    var es := EffectsOf(s, op, cfg);
    if k == 0 {
      assert es[..0] == [];
      ConsistentIsRecoverable(s, cfg.threshold);
    } else {
      match op
      case Upload(d, created) =>
        UploadSteps(s, d, created);
        UploadKeepsConsistent(s, d, created, cfg.threshold);
        assert es[..2] == es;
        ConsistentIsRecoverable(Replay(s, es[..k]), cfg.threshold);
      case Work(job, raise) =>
        WorkIsRecoverable(s, job, raise, cfg, k);
      case Delete(d) =>
        DeleteReaches(s, d, k);
        DeleteIsRecoverable(s, d, cfg.threshold, k);
    }
  }

  /** An operation that completes keeps agreement. */
  lemma OperationKeepsAgreement(s: State, op: Op, cfg: Config)
    requires Agree(s, cfg.threshold) && Enabled(s, op)
    ensures Agree(Replay(s, EffectsOf(s, op, cfg)), cfg.threshold)
  {
    match op
    case Upload(d, created) =>
      UploadSteps(s, d, created);
      UploadKeepsConsistent(s, d, created, cfg.threshold);
    case Work(job, raise) =>
      WorkKeepsAgreement(s, job, raise, cfg);
    case Delete(d) =>
      if d in s.docs {
        var es := DeleteEffects(s, d);
        assert es[..DELETE_LENGTH] == es;
        DeleteReaches(s, d, DELETE_LENGTH);
        DeleteIsConsistent(s, d, cfg.threshold);
      }
  }

  // ---- histories

  /** How the process goes down: killed, killed with the index file lost, or a shutdown that cancels
      the worker and persists whatever is in memory. */
  datatype Down = Crash | FileLost | Shutdown

  function Downed(s: State, how: Down): State {
    match how
    case Crash => s
    case FileLost => s.(file := map[])
    case Shutdown => Apply(s, Persist)
  }

  datatype Event = Complete(op: Op) | Cut(op: Op, at: nat, how: Down)

  ghost predicate Step(s: State, e: Event, t: State, cfg: Config) {
    && Enabled(s, e.op)
    && match e
       case Complete(op) => t == Replay(s, EffectsOf(s, op, cfg))
       case Cut(op, k, how) =>
         k <= |EffectsOf(s, op, cfg)| && Restarted(Downed(Replay(s, EffectsOf(s, op, cfg)[..k]), how), t)
  }

  ghost predicate History(states: seq<State>, events: seq<Event>, cfg: Config) {
    && |states| == |events| + 1
    && forall i :: 0 <= i < |events| ==> Step(states[i], events[i], states[i + 1], cfg)
  }

  lemma StepKeepsAgreement(s: State, e: Event, t: State, cfg: Config)
    requires Agree(s, cfg.threshold) && Step(s, e, t, cfg)
    ensures Agree(t, cfg.threshold)
  {
    match e
    case Complete(op) =>
      OperationKeepsAgreement(s, op, cfg);
    case Cut(op, k, how) =>
      CutIsRecoverable(s, op, cfg, k);
      var u := Replay(s, EffectsOf(s, op, cfg)[..k]);
      ShutdownKeepsRecoverable(u, cfg.threshold);
      LostFileKeepsRecoverable(u, cfg.threshold);
      RestartRestoresAgreement(Downed(u, how), t, cfg.threshold);
  }

  lemma HistoryStepAgrees(states: seq<State>, events: seq<Event>, cfg: Config, i: nat)
    requires History(states, events, cfg) && 0 < i < |states| && Agree(states[i - 1], cfg.threshold)
    ensures Agree(states[i], cfg.threshold)
  {
    var before, e, after := states[i - 1], events[i - 1], states[i];
    assert Step(before, e, after, cfg) by { assert states[i - 1 + 1] == after; }
    StepKeepsAgreement(before, e, after, cfg);
  }

  /** Over every history of completed and cut operations, agreement holds between any two of them. */
  lemma {:induction false} EveryHistoryAgrees(states: seq<State>, events: seq<Event>, cfg: Config, i: nat)
    requires History(states, events, cfg) && Agree(states[0], cfg.threshold) && i < |states|
    ensures Agree(states[i], cfg.threshold)
  {
    if i == 0 {
    } else {
      EveryHistoryAgrees(states, events, cfg, i - 1);
      HistoryStepAgrees(states, events, cfg, i);
    }
  }

  /** An empty installation agrees with itself. */
  lemma EmptyAgrees(threshold: real)
    ensures Agree(State(map[], map[], map[], map[], map[], map[], map[], map[], []), threshold)
  {
  }
}
