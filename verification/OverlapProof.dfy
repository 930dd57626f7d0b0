/** A delete of the very document being ingested: what both threads keep at every point, and what they leave. */
module OverlapProof {
  import opened Values
  import opened World
  import opened FaissStore
  import opened Invariants
  import opened Pipeline
  import opened PipelineProof
  import opened Overlap

  // ---- a run that lost its row

  /** A run whose document went before its last write never finishes. */
  predicate Stopped(r: Race) {
    RowGone(r) && r.worker.Run? && r.worker.p == PIPELINE_LENGTH ==> r.goneAt == PIPELINE_LENGTH
  }

  /** Without its row in time a run with rows to insert never inserts them. */
  predicate Stuck(r: Race, b: Batch) {
    RowGone(r) && r.goneAt <= 4 && b.rows != map[] ==> Reached(r) <= 4
  }

  lemma StepKeepsStop(r: Race, r': Race, d: DocId, b: Batch)
    requires Places(r) && Stopped(r) && Stuck(r, b) && RaceStep(r, r', d, d, b)
    ensures Stopped(r') && Stuck(r', b)
  {
  }

  // ---- SQL

  ghost predicate DocsInv(r: Race, s: State, d: DocId) {
    r.s.docs - {d} == s.docs - {d} && (RowGone(r) ==> r.s.docs == s.docs - {d})
  }

  predicate Wiped(r: Race) {
    RowGone(r) || Place(r.worker) >= ROWS_WIPED
  }

  predicate RowsInv(r: Race, s: State, b: Batch) {
    r.s.rows == if Wiped(r) then s.rows else RowsAt(s.rows, b, Reached(r))
  }

  lemma StatusElsewhere(docs: map<DocId, Doc>, d: DocId, st: Status)
    ensures WithStatus(docs, d, st) - {d} == docs - {d}
    ensures d !in docs ==> WithStatus(docs, d, st) == docs
  {
  }

  lemma GoneTwice(docs: map<DocId, Doc>, d: DocId)
    ensures docs - {d} - {d} == docs - {d} && d !in docs - {d}
  {
  }

  lemma StepKeepsDocs(r: Race, r': Race, s: State, d: DocId, b: Batch)
    requires DocsInv(r, s, d) && RaceStep(r, r', d, d, b)
    ensures DocsInv(r', s, d)
  {
    GoneTwice(r.s.docs, d);
    if WriteStep(r, r', d, d, b) {
      StatusElsewhere(r.s.docs, d, StatusAt(r.worker.p + 1));
    } else {
      StatusElsewhere(r.s.docs, d, Failed);
    }
  }

  lemma WriteKeepsRows(r: Race, r': Race, s: State, d: DocId, b: Batch)
    requires RowsInv(r, s, b) && OwnRows(s.rows, d, b) && WriteStep(r, r', d, d, b)
    ensures RowsInv(r', s, b)
  {
  }

  lemma CleanKeepsRows(r: Race, r': Race, s: State, d: DocId, b: Batch)
    requires RowsInv(r, s, b) && OwnRows(s.rows, d, b) && CleanStep(r, r', d)
    ensures RowsInv(r', s, b)
  {
    OwnRowsAt(s.rows, d, b, Reached(r));
  }

  lemma DeleteKeepsRows(r: Race, r': Race, s: State, d: DocId, b: Batch)
    requires RowsInv(r, s, b) && OwnRows(s.rows, d, b) && DeleteStep(r, r', d, d)
    ensures RowsInv(r', s, b)
  {
    OwnRowsAt(s.rows, d, b, Reached(r));
  }

  lemma StepKeepsRows(r: Race, r': Race, s: State, d: DocId, b: Batch)
    requires RowsInv(r, s, b) && OwnRows(s.rows, d, b) && RaceStep(r, r', d, d, b)
    ensures RowsInv(r', s, b)
  {
    if WriteStep(r, r', d, d, b) {
      WriteKeepsRows(r, r', s, d, b);
    } else if CleanStep(r, r', d) {
      CleanKeepsRows(r, r', s, d, b);
    } else if DeleteStep(r, r', d, d) {
      DeleteKeepsRows(r, r', s, d, b);
    }
  }

  // ---- the store

  predicate Bare(t: State, s: State) {
    t.index == s.index && t.chunkOf == s.chunkOf && t.docOf == s.docOf
  }

  predicate Filled(t: State, s: State, b: Batch) {
    t.index == Vectors(s, b) && t.chunkOf == s.chunkOf + ChunksOf(b.recs) && t.docOf == s.docOf + OwnersOf(b.recs)
  }

  /** The new ids are in the store, or taken by one of the two and about to leave it, or gone. */
  predicate HolderInv(r: Race, s: State, d: DocId, b: Batch) {
    var own := VidsOf(r.s.vidsOf, d);
    match r.holder
    case Nobody =>
      && Reached(r) <= MID_UPSERT && own == {} && r.s.chunkOf == s.chunkOf && r.s.docOf == s.docOf
      && r.s.index == if Locked(r) then Vectors(s, b) else s.index
    case InMap =>
      && Reached(r) > MID_UPSERT && own == b.ids.Values && Filled(r.s, s, b)
      && (r.worker.Handle? ==> r.worker.h == 0) && (r.stage >= 3 ==> r.goneAt <= MID_UPSERT)
    case WithDeleter =>
      Reached(r) > MID_UPSERT && own == {} && Filled(r.s, s, b) && r.stage == 3 && r.taken == b.ids.Values
    case WithWorker =>
      Reached(r) > MID_UPSERT && own == {} && Filled(r.s, s, b) && r.worker == Handle(1) && r.vids == b.ids.Values
    case Out => Reached(r) > MID_UPSERT && own == {} && Bare(r.s, s)
  }

  predicate HandsInv(r: Race) {
    && (r.stage == 3 && !r.holder.WithDeleter? ==> r.taken == {})
    && (r.worker == Handle(1) && !r.holder.WithWorker? ==> r.vids == {})
  }

  ghost predicate OthersInv(r: Race, s: State, d: DocId) {
    forall e :: e != d ==> VidsOf(r.s.vidsOf, e) == VidsOf(s.vidsOf, e)
  }

  ghost predicate StoreInv(r: Race, s: State, d: DocId, b: Batch) {
    HolderInv(r, s, d, b) && HandsInv(r) && OthersInv(r, s, d) && FileInv(r)
  }

  /** What the proofs need to know of the batch's vectors. */
  ghost predicate OwnVectors(s: State, d: DocId, b: Batch) {
    && (forall i :: 0 <= i < |b.recs| ==> b.recs[i].doc == d) && RecordIds(b.recs) == b.ids.Values
    && Vectors(s, b) - b.ids.Values == s.index
    && s.chunkOf + ChunksOf(b.recs) - b.ids.Values == s.chunkOf
    && s.docOf + OwnersOf(b.recs) - b.ids.Values == s.docOf
  }

  lemma OwnVectorsHold(s: State, d: DocId, b: Batch, threshold: real)
    requires Ready(s, d, b, threshold)
    ensures OwnVectors(s, d, b)
  {
    ReadyIds(s, d, b, threshold);
    MapMinusAdded(s.index, VectorsOf(b.recs), b.ids.Values);
    MapMinusAdded(s.chunkOf, ChunksOf(b.recs), b.ids.Values);
    MapMinusAdded(s.docOf, OwnersOf(b.recs), b.ids.Values);
  }

  lemma OwnDropped(t: State, u: State, s: State, d: DocId, b: Batch)
    requires OwnVectors(s, d, b) && Filled(t, s, b) && Drops(t, u, d, b.ids.Values, false)
    ensures Bare(u, s)
  {
  }

  lemma StepKeepsOthers(r: Race, r': Race, s: State, d: DocId, b: Batch)
    requires OthersInv(r, s, d) && HolderInv(r, s, d, b) && OwnVectors(s, d, b) && RaceStep(r, r', d, d, b)
    ensures OthersInv(r', s, d)
  {
    if WriteStep(r, r', d, d, b) && r.worker.p == MID_UPSERT { NewIdsMapped(r.s, d, b); }
  }

  lemma WriteKeepsStore(r: Race, r': Race, s: State, d: DocId, b: Batch)
    requires Places(r) && HolderInv(r, s, d, b) && OwnVectors(s, d, b) && WriteStep(r, r', d, d, b)
    ensures HolderInv(r', s, d, b)
  {
    if r.worker.p == MID_UPSERT { NewIdsMapped(r.s, d, b); }
  }

  lemma CleanKeepsStore(r: Race, r': Race, s: State, d: DocId, b: Batch)
    requires Places(r) && HolderInv(r, s, d, b) && HandsInv(r) && OwnVectors(s, d, b) && CleanStep(r, r', d)
    ensures HolderInv(r', s, d, b)
  {
    if r.worker.h == 1 && r.holder.WithWorker? {
      OwnDropped(r.s, r'.s, s, d, b);
    } else {
      NoneDropped(r.s, r'.s, d, r.worker.h == 0);
    }
  }

  lemma DeleteKeepsStore(r: Race, r': Race, s: State, d: DocId, b: Batch)
    requires Places(r) && HolderInv(r, s, d, b) && HandsInv(r) && OwnVectors(s, d, b) && DeleteStep(r, r', d, d)
    ensures HolderInv(r', s, d, b)
  {
    if r.stage == 3 && r.holder.WithDeleter? {
      OwnDropped(r.s, r'.s, s, d, b);
    } else {
      NoneDropped(r.s, r'.s, d, r.stage == 2);
    }
  }

  lemma StepKeepsHands(r: Race, r': Race, s: State, d: DocId, b: Batch)
    requires Places(r) && HolderInv(r, s, d, b) && HandsInv(r) && RaceStep(r, r', d, d, b)
    ensures HandsInv(r')
  {
  }

  // ---- the search index

  /** The delete found the rows, and cleared the texts once they were there. */
  predicate ClearedByDelete(r: Race) {
    r.stage == DELETE_STEPS && 5 <= r.listedAt < ROWS_WIPED && r.clearedAt >= 10
  }

  /** The failure handler found the rows, and has cleared the texts. */
  predicate ClearedByHandler(r: Race) {
    r.worker.Handle? && r.worker.h >= 6 && (!RowGone(r) || r.goneAt >= ROWS_LISTED)
  }

  predicate TextsIn(r: Race) {
    Reached(r) >= 10 && !ClearedByDelete(r) && !ClearedByHandler(r)
  }

  predicate ListsInv(r: Race, b: Batch) {
    && (r.stage >= 1 ==>
          r.listed == if 5 <= r.listedAt < ROWS_WIPED && Reached(r) >= 5 then b.rows.Keys else {})
    && (r.worker.Handle? && r.worker.h >= 4 ==>
          r.rows == if (!RowGone(r) || r.goneAt >= ROWS_LISTED) && r.stop >= 5 then b.rows.Keys else {})
  }

  predicate CorpusInv(r: Race, s: State, b: Batch) {
    r.s.corpus == s.corpus + Texts(b, TextsIn(r))
  }

  /** What the proofs need to know of the batch's texts. */
  predicate OwnTexts(s: State, b: Batch) {
    Tokenized(b.texts).Keys <= b.rows.Keys && s.corpus.Keys !! b.rows.Keys
  }

  lemma OwnTextsHold(s: State, d: DocId, b: Batch, threshold: real)
    requires Ready(s, d, b, threshold)
    ensures OwnTexts(s, b)
  {
  }

  lemma TextsCleared(s: State, b: Batch, there: bool)
    requires OwnTexts(s, b)
    ensures s.corpus + Texts(b, there) - b.rows.Keys == s.corpus + map[]
    ensures s.corpus + Texts(b, there) - {} == s.corpus + Texts(b, there)
  {
  }

  lemma TextsAdded(s: State, b: Batch, there: bool)
    ensures s.corpus + Texts(b, there) + Tokenized(b.texts) == s.corpus + Texts(b, true)
  {
  }

  lemma WriteKeepsTexts(r: Race, r': Race, s: State, d: DocId, b: Batch)
    requires Places(r) && ListsInv(r, b) && CorpusInv(r, s, b) && WriteStep(r, r', d, d, b)
    ensures ListsInv(r', b) && CorpusInv(r', s, b)
  {
    TextsAdded(s, b, TextsIn(r));
  }

  lemma RaiseKeepsTexts(r: Race, r': Race, s: State, b: Batch)
    requires Places(r) && ListsInv(r, b) && CorpusInv(r, s, b) && RaiseStep(r, r')
    ensures ListsInv(r', b) && CorpusInv(r', s, b)
  {
  }

  lemma CleanKeepsLists(r: Race, r': Race, s: State, d: DocId, b: Batch)
    requires Places(r) && ListsInv(r, b) && RowsInv(r, s, b) && OwnRows(s.rows, d, b) && CleanStep(r, r', d)
    ensures ListsInv(r', b)
  {
    OwnRowsAt(s.rows, d, b, Reached(r));
  }

  lemma CleanKeepsCorpus(r: Race, r': Race, s: State, d: DocId, b: Batch)
    requires Places(r) && ListsInv(r, b) && CorpusInv(r, s, b) && OwnTexts(s, b) && CleanStep(r, r', d)
    ensures CorpusInv(r', s, b)
  {
    TextsCleared(s, b, TextsIn(r));
  }

  lemma DeleteKeepsLists(r: Race, r': Race, s: State, d: DocId, b: Batch)
    requires Places(r) && ListsInv(r, b) && RowsInv(r, s, b) && OwnRows(s.rows, d, b) && DeleteStep(r, r', d, d)
    ensures ListsInv(r', b)
  {
    OwnRowsAt(s.rows, d, b, Reached(r));
  }

  lemma DeleteKeepsCorpus(r: Race, r': Race, s: State, d: DocId, b: Batch)
    requires Places(r) && ListsInv(r, b) && CorpusInv(r, s, b) && OwnTexts(s, b) && DeleteStep(r, r', d, d)
    ensures CorpusInv(r', s, b)
  {
    TextsCleared(s, b, TextsIn(r));
  }

  lemma StepKeepsTexts(r: Race, r': Race, s: State, d: DocId, b: Batch)
    requires Places(r) && ListsInv(r, b) && CorpusInv(r, s, b) && RowsInv(r, s, b) && RaceStep(r, r', d, d, b)
    requires OwnRows(s.rows, d, b) && OwnTexts(s, b)
    ensures ListsInv(r', b) && CorpusInv(r', s, b)
  {
    if WriteStep(r, r', d, d, b) {
      WriteKeepsTexts(r, r', s, d, b);
    } else if RaiseStep(r, r') {
      RaiseKeepsTexts(r, r', s, b);
    } else if CleanStep(r, r', d) {
      CleanKeepsLists(r, r', s, d, b);
      CleanKeepsCorpus(r, r', s, d, b);
    } else {
      DeleteKeepsLists(r, r', s, d, b);
      DeleteKeepsCorpus(r, r', s, d, b);
    }
  }

  // ---- every reachable point

  ghost predicate Own(s: State, d: DocId, b: Batch) {
    OwnRows(s.rows, d, b) && OwnVectors(s, d, b) && OwnTexts(s, b)
  }

  ghost predicate TablesInv(r: Race, s: State, d: DocId, b: Batch) {
    DocsInv(r, s, d) && RowsInv(r, s, b) && ListsInv(r, b) && CorpusInv(r, s, b) && r.s.queue == s.queue
  }

  ghost predicate Inv(r: Race, s: State, d: DocId, b: Batch) {
    && Places(r) && Stopped(r) && Stuck(r, b)
    && TablesInv(r, s, d, b) && StoreInv(r, s, d, b)
  }

  lemma StepKeepsStore(r: Race, r': Race, s: State, d: DocId, b: Batch)
    requires Places(r) && StoreInv(r, s, d, b) && OwnVectors(s, d, b) && RaceStep(r, r', d, d, b)
    ensures StoreInv(r', s, d, b)
  {
    StepKeepsOthers(r, r', s, d, b);
    StepKeepsHands(r, r', s, d, b);
    StepKeepsFile(r, r', d, d, b);
    StepKeepsHolder(r, r', s, d, b);
  }

  lemma StepKeepsHolder(r: Race, r': Race, s: State, d: DocId, b: Batch)
    requires Places(r) && HolderInv(r, s, d, b) && HandsInv(r) && OwnVectors(s, d, b) && RaceStep(r, r', d, d, b)
    ensures HolderInv(r', s, d, b)
  {
    if WriteStep(r, r', d, d, b) {
      WriteKeepsStore(r, r', s, d, b);
    } else if RaiseStep(r, r') {
      RaiseKeepsStore(r, r', s, d, b);
    } else if CleanStep(r, r', d) {
      CleanKeepsStore(r, r', s, d, b);
    } else {
      DeleteKeepsStore(r, r', s, d, b);
    }
  }

  lemma RaiseKeepsStore(r: Race, r': Race, s: State, d: DocId, b: Batch)
    requires Places(r) && HolderInv(r, s, d, b) && RaiseStep(r, r')
    ensures HolderInv(r', s, d, b)
  {
  }

  lemma StepKeepsInv(r: Race, r': Race, s: State, d: DocId, b: Batch)
    requires Inv(r, s, d, b) && Own(s, d, b) && RaceStep(r, r', d, d, b)
    ensures Inv(r', s, d, b)
  {
    StepKeepsPlaces(r, r', d, d, b);
    StepKeepsStop(r, r', d, b);
    StepKeepsDocs(r, r', s, d, b);
    StepKeepsRows(r, r', s, d, b);
    StepKeepsTexts(r, r', s, d, b);
    StepKeepsStore(r, r', s, d, b);
    StepKeepsQueue(r, r', d, d, b);
  }

  lemma StartKeepsInv(s: State, d: DocId, b: Batch)
    requires VidsOf(s.vidsOf, d) == {} && s.file == s.index
    ensures Inv(Start(s), s, d, b)
  {
    StartTables(s, d, b);
    StartStore(s, d, b);
  }

  lemma StartTables(s: State, d: DocId, b: Batch)
    ensures TablesInv(Start(s), s, d, b)
  {
    assert s.corpus + map[] == s.corpus;
  }

  lemma StartStore(s: State, d: DocId, b: Batch)
    requires VidsOf(s.vidsOf, d) == {} && s.file == s.index
    ensures StoreInv(Start(s), s, d, b)
  {
  }

  lemma ReadyStart(s: State, d: DocId, b: Batch, threshold: real)
    requires Ready(s, d, b, threshold)
    ensures Inv(Start(s), s, d, b)
  {
    NoIdsBefore(s, d, threshold);
    StartKeepsInv(s, d, b);
  }

  lemma OwnHolds(s: State, d: DocId, b: Batch, threshold: real)
    requires Ready(s, d, b, threshold)
    ensures Own(s, d, b)
  {
    ReadyJoins(s, d, b, threshold);
    OwnRowsHold(s.rows, d, b);
    OwnVectorsHold(s, d, b, threshold);
    OwnTextsHold(s, d, b, threshold);
  }

  lemma NextKeepsInv(r: Race, a: Action, s: State, d: DocId, b: Batch)
    requires Inv(r, s, d, b) && Own(s, d, b) && CanAct(r, a, d, d, b)
    ensures Inv(Next(r, a, d, d, b), s, d, b)
  {
    NextIsStep(r, a, d, d, b);
    StepKeepsInv(r, Next(r, a, d, d, b), s, d, b);
  }

  lemma {:induction false} ScheduleKeepsInv(races: seq<Race>, actions: seq<Action>, s: State, d: DocId, b: Batch,
                                            i: nat)
    requires Inv(Start(s), s, d, b) && Own(s, d, b) && Schedule(races, actions, s, d, d, b) && i <= |actions|
    ensures Inv(races[i], s, d, b)
  {
    if i == 0 {
    } else {
      ScheduleKeepsInv(races, actions, s, d, b, i - 1);
      NextKeepsInv(races[i - 1], actions[i - 1], s, d, b);
    }
  }

  lemma ScheduledInv(r: Race, s: State, d: DocId, b: Batch, threshold: real)
    requires Ready(s, d, b, threshold) && Scheduled(r, s, d, d, b)
    ensures Inv(r, s, d, b)
  {
    var races, actions :| Schedule(races, actions, s, d, d, b) && races[|actions|] == r;
    ReadyStart(s, d, b, threshold);
    OwnHolds(s, d, b, threshold);
    ScheduleKeepsInv(races, actions, s, d, b, |actions|);
  }

  // ---- what both leave

  /** The run indexed the texts, the failure handler did not find the rows, and the delete did not find them or
      was through with the search index by then. */
  predicate Stale(r: Race) {
    && Reached(r) >= 10
    && !(r.worker.Handle? && r.goneAt >= ROWS_LISTED)
    && !(r.listedAt >= 5 && r.clearedAt >= 10)
  }

  /** As if the document had never been, but for its texts if `stale`. */
  ghost predicate Leaves(t: State, s: State, d: DocId, b: Batch, stale: bool) {
    && t.docs == s.docs - {d} && t.rows == s.rows && t.queue == s.queue
    && t.index == t.file == s.index && t.chunkOf == s.chunkOf && t.docOf == s.docOf
    && (forall e :: VidsOf(t.vidsOf, e) == if e == d then {} else VidsOf(s.vidsOf, e))
    && t.corpus == s.corpus + Texts(b, stale)
  }

  lemma OverStore(r: Race, s: State, d: DocId, b: Batch)
    requires Over(r) && Places(r) && Stopped(r) && StoreInv(r, s, d, b)
    ensures Bare(r.s, s) && r.s.file == r.s.index && VidsOf(r.s.vidsOf, d) == {}
  {
  }

  lemma OverTexts(r: Race)
    requires Over(r) && Places(r)
    ensures TextsIn(r) <==> Stale(r)
  {
  }

  lemma OverLeaves(r: Race, s: State, d: DocId, b: Batch)
    requires Over(r) && Inv(r, s, d, b)
    ensures Leaves(r.s, s, d, b, Stale(r))
  {
    OverStore(r, s, d, b);
    OverTexts(r);
  }

  /** Whatever the order, rows, ids, vectors, file and maps end as if the document had never been uploaded. The
      search index ends so too unless nobody took the texts out of it after they went in: then the deleted
      document's texts stay. */
  lemma OvertakenRunLeaves(r: Race, s: State, d: DocId, b: Batch, threshold: real)
    requires Ready(s, d, b, threshold) && Scheduled(r, s, d, d, b) && Over(r)
    ensures Leaves(r.s, s, d, b, Stale(r))
  {
    ScheduledInv(r, s, d, b, threshold);
    OverLeaves(r, s, d, b);
  }

  lemma MapsWithoutDoc(t: State, s: State, d: DocId, b: Batch, stale: bool)
    requires Leaves(t, s, d, b, stale) && VidsOf(s.vidsOf, d) == {} && MapsAgree(s.chunkOf, s.docOf, s.vidsOf)
    ensures MapsAgree(t.chunkOf, t.docOf, t.vidsOf)
  {
    SameVidsAgree(s.chunkOf, s.docOf, s.vidsOf, t.vidsOf);
  }

  lemma WithoutQueued(t: State, s: State, d: DocId, threshold: real)
    requires Consistent(s, threshold) && (d in s.docs ==> s.docs[d].status == Queued) && t.docs == s.docs - {d}
    requires t.rows == s.rows && t.index == t.file == s.index && t.chunkOf == s.chunkOf && t.docOf == s.docOf
    requires MapsAgree(t.chunkOf, t.docOf, t.vidsOf) && t.corpus == s.corpus
    ensures Consistent(t, threshold)
  {
  }

  lemma NothingStale(t: State, s: State, d: DocId, b: Batch, threshold: real, stale: bool)
    requires Ready(s, d, b, threshold) && Leaves(t, s, d, b, stale) && (stale ==> b.texts == map[])
    ensures Consistent(t, threshold)
  {
    NoIdsBefore(s, d, threshold);
    MapsWithoutDoc(t, s, d, b, stale);
    NoTexts(s.corpus, b, stale);
    WithoutQueued(t, s, d, threshold);
  }

  lemma NoTexts(corpus: map<ChunkId, seq<string>>, b: Batch, stale: bool)
    requires stale ==> b.texts == map[]
    ensures corpus + Texts(b, stale) == corpus
  {
  }

  lemma StaleTextsDisagree(t: State, s: State, d: DocId, b: Batch, threshold: real)
    requires Ready(s, d, b, threshold) && Leaves(t, s, d, b, true) && b.texts != map[]
    ensures !Consistent(t, threshold)
  {
    var c :| c in b.texts;
    assert c in s.corpus + Tokenized(b.texts) && c !in Tokenized(NonDuplicates(s.rows));
  }

  /** A delete of the document being ingested is as harmless as the code holds it to be exactly when there were no
      texts to index or somebody took them out again. */
  lemma OvertakenRunIsConsistentExactly(r: Race, s: State, d: DocId, b: Batch, threshold: real)
    requires Ready(s, d, b, threshold) && Scheduled(r, s, d, d, b) && Over(r)
    ensures Consistent(r.s, threshold) <==> !(Stale(r) && b.texts != map[])
  {
    OvertakenRunLeaves(r, s, d, b, threshold);
    if Stale(r) && b.texts != map[] {
      StaleTextsDisagree(r.s, s, d, b, threshold);
    } else {
      NothingStale(r.s, s, d, b, threshold, Stale(r));
    }
  }

  /** The run raised, if it did, because its document's row was gone. */
  predicate RaisedByDelete(r: Race, b: Batch) {
    r.worker.Handle? ==> r.goneAt <= r.stop < PIPELINE_LENGTH && NeedsRow(b, r.stop)
  }

  lemma StaleExactly(r: Race, b: Batch)
    requires Over(r) && Places(r) && Stopped(r) && Stuck(r, b) && RaisedByDelete(r, b) && b.rows != map[]
    ensures Stale(r) <==> r.goneAt >= 5 && !(r.listedAt >= 5 && r.clearedAt >= 10)
  {
  }

  /** For a run that nothing else disturbs, by the three points of the delete alone: the texts stay exactly when
      the row went after the rows were in, and the chunks were listed before that or their texts taken out before
      they were in. */
  lemma UndisturbedRunIsConsistentExactly(r: Race, s: State, d: DocId, b: Batch, threshold: real)
    requires Ready(s, d, b, threshold) && Scheduled(r, s, d, d, b) && Over(r)
    requires RaisedByDelete(r, b) && b.texts != map[]
    ensures Consistent(r.s, threshold) <==> !(r.goneAt >= 5 && !(r.listedAt >= 5 && r.clearedAt >= 10))
  {
    ScheduledInv(r, s, d, b, threshold);
    OvertakenRunIsConsistentExactly(r, s, d, b, threshold);
    TextsNeedRows(s, d, b);
    StaleExactly(r, b);
  }

  lemma TextsNeedRows(s: State, d: DocId, b: Batch)
    requires GoodRows(s, d, b) && b.texts != map[]
    ensures b.rows != map[]
  {
  }

  /** The chunks are listed and the row goes before write `i`, the texts are taken out before write `j`, and the run
      raises at its last write, for which it needs the row. */
  lemma DeletedBetween(i: nat, j: nat, s: State, d: DocId, b: Batch) returns (r: Race)
    requires 5 <= i <= j <= 10 && i != MID_UPSERT && j != MID_UPSERT
    ensures Scheduled(r, s, d, d, b) && Over(r) && r.stop == 10 && r.listedAt == r.goneAt == i && r.clearedAt == j
  {
    ScheduledStart(s, d, d, b);
    r := WriteOn(Start(s), i, s, d, d, b);
    r := DeleteOn(r, DELETE_STEPS - 1, s, d, d, b);
    r := WriteOn(r, j, s, d, d, b);
    r := DeleteOn(r, DELETE_STEPS, s, d, d, b);
    r := WriteOn(r, 10, s, d, d, b);
    ScheduledNext(r, Raise, s, d, d, b);
    r := CleanOn(Next(r, Raise, d, d, b), s, d, d, b);
  }

  lemma DeletedBetweenExactly(i: nat, j: nat, s: State, d: DocId, b: Batch, threshold: real) returns (r: Race)
    requires Ready(s, d, b, threshold) && b.texts != map[]
    requires 5 <= i <= j <= 10 && i != MID_UPSERT && j != MID_UPSERT
    ensures Scheduled(r, s, d, d, b) && Over(r) && r.goneAt == i && r.clearedAt == j
    ensures Consistent(r.s, threshold) <==> j == 10
  {
    r := DeletedBetween(i, j, s, d, b);
    UndisturbedRunIsConsistentExactly(r, s, d, b, threshold);
  }
}
