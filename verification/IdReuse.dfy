/** A delete of another document, and the ids that the worker gives out meanwhile. */
module IdReuse {
  import opened Values
  import opened World
  import opened Dedup
  import opened Invariants
  import opened Pipeline
  import opened PipelineProof
  import opened Runs
  import opened Overlap

  /** Agreement, another document `e`, and a batch that is good for the corpus without `e`. */
  ghost predicate Woven(s: State, d: DocId, e: DocId, b: Batch, threshold: real) {
    && Consistent(s, threshold) && d != e && e in s.docs
    && Ready(DeletingAt(s, e, DELETE_LENGTH), d, b, threshold)
    && forall c :: c in b.rows ==> c !in s.rows
  }

  /** The corpus without `e`. */
  function Without(s: State, e: DocId): State {
    DeletingAt(s, e, DELETE_LENGTH)
  }

  // ---- SQL

  function DocsAt(docs: map<DocId, Doc>, d: DocId, p: nat): map<DocId, Doc> {
    if 0 < p <= PIPELINE_LENGTH then WithStatus(docs, d, StatusAt(p)) else docs
  }

  predicate DocsInv(r: Race, s: State, d: DocId, e: DocId) {
    var docs := if RowGone(r) then s.docs - {e} else s.docs;
    r.s.docs == if r.worker == Handle(HANDLER_STEPS) then WithStatus(docs, d, Failed) else DocsAt(docs, d, Reached(r))
  }

  lemma StatusWithout(docs: map<DocId, Doc>, d: DocId, e: DocId, st: Status)
    requires d != e
    ensures WithStatus(docs, d, st) - {e} == WithStatus(docs - {e}, d, st)
  {
  }

  lemma DocsWithout(docs: map<DocId, Doc>, d: DocId, e: DocId, p: nat)
    requires d != e
    ensures DocsAt(docs, d, p) - {e} == DocsAt(docs - {e}, d, p)
    ensures WithStatus(docs, d, Failed) - {e} == WithStatus(docs - {e}, d, Failed)
  {
    StatusWithout(docs, d, e, Failed);
    if 0 < p <= PIPELINE_LENGTH { StatusWithout(docs, d, e, StatusAt(p)); }
  }

  lemma WrittenDocs(docs: map<DocId, Doc>, d: DocId, p: nat)
    requires p < PIPELINE_LENGTH
    ensures DocsAt(docs, d, p + 1) ==
            if p < 4 || p == 10 then WithStatus(DocsAt(docs, d, p), d, StatusAt(p + 1)) else DocsAt(docs, d, p)
  {
    if p > 0 { StatusOverwritten(docs, d, StatusAt(p), StatusAt(p + 1)); }
  }

  lemma FailedDocs(docs: map<DocId, Doc>, d: DocId, p: nat)
    ensures WithStatus(DocsAt(docs, d, p), d, Failed) == WithStatus(docs, d, Failed)
  {
    if 0 < p <= PIPELINE_LENGTH { StatusOverwritten(docs, d, StatusAt(p), Failed); }
  }

  lemma StepKeepsDocs(r: Race, r': Race, s: State, d: DocId, e: DocId, b: Batch)
    requires d != e && DocsInv(r, s, d, e) && RaceStep(r, r', d, e, b)
    ensures DocsInv(r', s, d, e)
  {
    var docs := if RowGone(r) then s.docs - {e} else s.docs;
    if WriteStep(r, r', d, e, b) {
      WrittenDocs(docs, d, r.worker.p);
    } else if CleanStep(r, r', d) {
      FailedDocs(docs, d, Reached(r));
    } else if DeleteStep(r, r', d, e) {
      DocsWithout(s.docs, d, e, Reached(r));
    }
  }

  /** The rows the run's rows join. */
  function BaseRows(r: Race, s: State, e: DocId): Rows {
    if RowGone(r) then Others(s.rows, e) else s.rows
  }

  predicate RowsInv(r: Race, s: State, e: DocId, b: Batch) {
    var rows := BaseRows(r, s, e);
    r.s.rows == if Place(r.worker) >= ROWS_WIPED then rows else RowsAt(rows, b, Reached(r))
  }

  lemma InsertOfOther(rows: Rows, new': Rows, e: DocId)
    requires forall c :: c in new' ==> new'[c].doc != e && c !in rows
    ensures Others(rows, e) + new' == Others(rows + new', e)
  {
  }

  lemma AssignOfOther(rows: Rows, ids: map<ChunkId, VectorId>, e: DocId)
    ensures WithIds(Others(rows, e), ids) == Others(WithIds(rows, ids), e)
  {
  }

  lemma RowsWithout(rows: Rows, e: DocId, b: Batch, p: nat)
    requires forall c :: c in b.rows ==> b.rows[c].doc != e && c !in rows
    ensures Others(RowsAt(rows, b, p), e) == RowsAt(Others(rows, e), b, p)
  {
    InsertOfOther(rows, b.rows, e);
    AssignOfOther(rows + b.rows, b.ids, e);
  }

  lemma ChunksWithout(rows: Rows, e: DocId, b: Batch, p: nat)
    requires forall c :: c in b.rows ==> b.rows[c].doc != e && c !in rows
    ensures ChunksOfDoc(RowsAt(rows, b, p), e) == ChunksOfDoc(rows, e)
  {
  }

  /** What the proofs need to know of the batch's rows. */
  predicate RowsApart(rows: Rows, d: DocId, e: DocId, b: Batch) {
    && OwnRows(rows, d, b) && OwnRows(Others(rows, e), d, b)
    && forall c :: c in b.rows ==> b.rows[c].doc != e && c !in rows
  }

  lemma RunKeepsRows(r: Race, r': Race, s: State, d: DocId, e: DocId, b: Batch)
    requires RowsInv(r, s, e, b) && (WriteStep(r, r', d, e, b) || RaiseStep(r, r'))
    ensures RowsInv(r', s, e, b)
  {
  }

  lemma CleanKeepsRows(r: Race, r': Race, s: State, d: DocId, e: DocId, b: Batch)
    requires RowsInv(r, s, e, b) && RowsApart(s.rows, d, e, b) && CleanStep(r, r', d)
    ensures RowsInv(r', s, e, b)
  {
    OwnRowsAt(BaseRows(r, s, e), d, b, Reached(r));
  }

  lemma DeleteKeepsRows(r: Race, r': Race, s: State, d: DocId, e: DocId, b: Batch)
    requires RowsInv(r, s, e, b) && RowsApart(s.rows, d, e, b) && DeleteStep(r, r', d, e)
    ensures RowsInv(r', s, e, b)
  {
    RowsWithout(s.rows, e, b, Reached(r));
  }

  // ---- the search index

  predicate TextsIn(r: Race) {
    Reached(r) >= 10 && !(r.worker.Handle? && r.worker.h >= 6)
  }

  predicate ListsInv(r: Race, s: State, e: DocId, b: Batch) {
    && (r.stage >= 1 ==> r.listed == ChunksOfDoc(s.rows, e))
    && (r.worker.Handle? && r.worker.h >= 4 ==> r.rows == if r.stop >= 5 then b.rows.Keys else {})
  }

  function CorpusBase(r: Race, s: State, e: DocId): map<ChunkId, seq<string>> {
    if r.stage == DELETE_STEPS then s.corpus - ChunksOfDoc(s.rows, e) else s.corpus
  }

  predicate CorpusInv(r: Race, s: State, e: DocId, b: Batch) {
    r.s.corpus == CorpusBase(r, s, e) + Texts(b, TextsIn(r))
  }

  predicate TextsApart(s: State, e: DocId, b: Batch) {
    && Tokenized(b.texts).Keys <= b.rows.Keys && s.corpus.Keys !! b.rows.Keys
    && b.rows.Keys !! ChunksOfDoc(s.rows, e)
  }

  lemma TextsCleared(corpus: map<ChunkId, seq<string>>, b: Batch, there: bool)
    requires Tokenized(b.texts).Keys <= b.rows.Keys && corpus.Keys !! b.rows.Keys
    ensures corpus + Texts(b, there) - b.rows.Keys == corpus + map[]
    ensures corpus + Texts(b, there) - {} == corpus + Texts(b, there)
  {
  }

  lemma TextsPurged(corpus: map<ChunkId, seq<string>>, b: Batch, there: bool, chunks: set<ChunkId>)
    requires Tokenized(b.texts).Keys <= b.rows.Keys && b.rows.Keys !! chunks
    ensures corpus + Texts(b, there) - chunks == corpus - chunks + Texts(b, there)
  {
  }

  lemma TextsAdded(corpus: map<ChunkId, seq<string>>, b: Batch)
    ensures corpus + map[] + Tokenized(b.texts) == corpus + Texts(b, true)
  {
  }

  lemma RunKeepsLists(r: Race, r': Race, s: State, d: DocId, e: DocId, b: Batch)
    requires Places(r) && ListsInv(r, s, e, b) && (WriteStep(r, r', d, e, b) || RaiseStep(r, r'))
    ensures ListsInv(r', s, e, b)
  {
  }

  lemma CleanKeepsLists(r: Race, r': Race, s: State, d: DocId, e: DocId, b: Batch)
    requires ListsInv(r, s, e, b) && RowsInv(r, s, e, b) && RowsApart(s.rows, d, e, b) && CleanStep(r, r', d)
    ensures ListsInv(r', s, e, b)
  {
    OwnRowsAt(BaseRows(r, s, e), d, b, Reached(r));
  }

  lemma DeleteKeepsLists(r: Race, r': Race, s: State, d: DocId, e: DocId, b: Batch)
    requires ListsInv(r, s, e, b) && RowsInv(r, s, e, b) && RowsApart(s.rows, d, e, b) && DeleteStep(r, r', d, e)
    ensures ListsInv(r', s, e, b)
  {
    ChunksWithout(s.rows, e, b, Reached(r));
  }

  lemma RunKeepsCorpus(r: Race, r': Race, s: State, d: DocId, e: DocId, b: Batch)
    requires CorpusInv(r, s, e, b) && (WriteStep(r, r', d, e, b) || RaiseStep(r, r'))
    ensures CorpusInv(r', s, e, b)
  {
    TextsAdded(CorpusBase(r, s, e), b);
  }

  lemma CleanKeepsCorpus(r: Race, r': Race, s: State, d: DocId, e: DocId, b: Batch)
    requires ListsInv(r, s, e, b) && CorpusInv(r, s, e, b) && TextsApart(s, e, b) && CleanStep(r, r', d)
    ensures CorpusInv(r', s, e, b)
  {
    TextsCleared(CorpusBase(r, s, e), b, TextsIn(r));
  }

  lemma DeleteKeepsCorpus(r: Race, r': Race, s: State, d: DocId, e: DocId, b: Batch)
    requires ListsInv(r, s, e, b) && CorpusInv(r, s, e, b) && TextsApart(s, e, b) && DeleteStep(r, r', d, e)
    ensures CorpusInv(r', s, e, b)
  {
    TextsPurged(s.corpus, b, TextsIn(r), ChunksOfDoc(s.rows, e));
  }

  // ---- the store

  /** The run's part of a map of the store: not there yet, there, or taken out by the failure handler. */
  datatype Part = Before | Inside | After

  /** A map of the store with the run's `own` entries, and with the deleted document's ids `gone` taken out if
      `purged`: after the run's entries had come in if `late`. */
  function Held<V>(m: map<VectorId, V>, own: map<VectorId, V>, gone: set<VectorId>, part: Part, purged: bool,
                   late: bool): map<VectorId, V>
  {
    match part
    case Before => if purged then m - gone else m
    case Inside => if !purged then m + own else if late then m + own - gone else m - gone + own
    case After => if purged then m - gone - own.Keys else m - own.Keys
  }

  lemma HeldAdded<V>(m: map<VectorId, V>, own: map<VectorId, V>, gone: set<VectorId>, purged: bool, late: bool)
    requires purged ==> !late
    ensures Held(m, own, gone, Before, purged, late) + own == Held(m, own, gone, Inside, purged, late)
  {
  }

  lemma HeldCleaned<V>(m: map<VectorId, V>, own: map<VectorId, V>, gone: set<VectorId>, purged: bool, late: bool)
    ensures Held(m, own, gone, Inside, purged, late) - own.Keys == Held(m, own, gone, After, purged, late)
  {
  }

  lemma HeldPurged<V>(m: map<VectorId, V>, own: map<VectorId, V>, gone: set<VectorId>, part: Part, late: bool)
    requires part == Inside && !late ==> gone == {}
    ensures Held(m, own, gone, part, false, late) - gone == Held(m, own, gone, part, true, late)
  {
  }

  function MapPart(r: Race): Part {
    match r.holder
    case Nobody => Before
    case Out => After
    case _ => Inside
  }

  function IndexPart(r: Race): Part {
    if Locked(r) then Inside else MapPart(r)
  }

  predicate Purged(r: Race) {
    r.stage >= 4
  }

  predicate Late(r: Race) {
    r.purgedAt > MID_UPSERT
  }

  predicate HolderInv(r: Race) {
    match r.holder
    case Nobody => Reached(r) <= MID_UPSERT
    case InMap => Reached(r) > MID_UPSERT && (r.worker.Handle? ==> r.worker.h == 0)
    case WithDeleter => false
    case WithWorker => r.worker == Handle(1)
    case Out => r.worker.Handle? && r.worker.h >= 2
  }

  predicate HandsInv(r: Race, s: State, e: DocId, b: Batch) {
    && (r.stage >= 3 ==> r.taken == VidsOf(s.vidsOf, e))
    && (r.worker == Handle(1) ==> r.vids == if r.holder.WithWorker? then b.ids.Values else {})
  }

  ghost predicate VidsInv(r: Race, s: State, d: DocId, e: DocId, b: Batch) {
    && VidsOf(r.s.vidsOf, d) == (if r.holder.InMap? then b.ids.Values else {})
    && VidsOf(r.s.vidsOf, e) == (if r.stage >= 3 then {} else VidsOf(s.vidsOf, e))
    && forall x :: x != d && x != e ==> VidsOf(r.s.vidsOf, x) == VidsOf(s.vidsOf, x)
  }

  function HeldFor<V>(r: Race, s: State, e: DocId, m: map<VectorId, V>, own: map<VectorId, V>, part: Part)
    : map<VectorId, V>
  {
    Held(m, own, VidsOf(s.vidsOf, e), part, Purged(r), Late(r))
  }

  predicate StoreInv(r: Race, s: State, e: DocId, b: Batch) {
    && r.s.index == HeldFor(r, s, e, s.index, VectorsOf(b.recs), IndexPart(r))
    && r.s.chunkOf == HeldFor(r, s, e, s.chunkOf, ChunksOf(b.recs), MapPart(r))
    && r.s.docOf == HeldFor(r, s, e, s.docOf, OwnersOf(b.recs), MapPart(r))
  }

  /** What the proofs need to know of the batch's vectors. */
  predicate Recorded(d: DocId, b: Batch) {
    && (forall i :: 0 <= i < |b.recs| ==> b.recs[i].doc == d)
    && RecordIds(b.recs) == b.ids.Values == VectorsOf(b.recs).Keys == ChunksOf(b.recs).Keys == OwnersOf(b.recs).Keys
  }

  lemma StepKeepsHolder(r: Race, r': Race, d: DocId, e: DocId, b: Batch)
    requires d != e && Places(r) && HolderInv(r) && RaceStep(r, r', d, e, b)
    ensures HolderInv(r')
  {
  }

  lemma StepKeepsHands(r: Race, r': Race, s: State, d: DocId, e: DocId, b: Batch)
    requires d != e && Places(r) && HolderInv(r) && HandsInv(r, s, e, b) && VidsInv(r, s, d, e, b)
    requires RaceStep(r, r', d, e, b)
    ensures HandsInv(r', s, e, b)
  {
  }

  lemma WriteKeepsVids(r: Race, r': Race, s: State, d: DocId, e: DocId, b: Batch)
    requires d != e && HolderInv(r) && VidsInv(r, s, d, e, b) && Recorded(d, b) && WriteStep(r, r', d, e, b)
    ensures VidsInv(r', s, d, e, b)
  {
    if r.worker.p == MID_UPSERT { NewIdsMapped(r.s, d, b); }
  }

  lemma OthersKeepVids(r: Race, r': Race, s: State, d: DocId, e: DocId, b: Batch)
    requires d != e && HolderInv(r) && VidsInv(r, s, d, e, b)
    requires RaiseStep(r, r') || CleanStep(r, r', d) || DeleteStep(r, r', d, e)
    ensures VidsInv(r', s, d, e, b)
  {
  }

  lemma StepKeepsVids(r: Race, r': Race, s: State, d: DocId, e: DocId, b: Batch)
    requires d != e && HolderInv(r) && VidsInv(r, s, d, e, b) && Recorded(d, b) && RaceStep(r, r', d, e, b)
    ensures VidsInv(r', s, d, e, b)
  {
    if WriteStep(r, r', d, e, b) {
      WriteKeepsVids(r, r', s, d, e, b);
    } else {
      OthersKeepVids(r, r', s, d, e, b);
    }
  }

  lemma WriteKeepsStore(r: Race, r': Race, s: State, d: DocId, e: DocId, b: Batch)
    requires Places(r) && HolderInv(r) && StoreInv(r, s, e, b) && WriteStep(r, r', d, e, b)
    ensures StoreInv(r', s, e, b)
  {
    var gone := VidsOf(s.vidsOf, e);
    if r.worker.p == 6 {
      HeldAdded(s.index, VectorsOf(b.recs), gone, Purged(r), Late(r));
    } else if r.worker.p == MID_UPSERT {
      HeldAdded(s.chunkOf, ChunksOf(b.recs), gone, Purged(r), Late(r));
      HeldAdded(s.docOf, OwnersOf(b.recs), gone, Purged(r), Late(r));
    }
  }

  lemma RaiseKeepsStore(r: Race, r': Race, s: State, e: DocId, b: Batch)
    requires StoreInv(r, s, e, b) && RaiseStep(r, r')
    ensures StoreInv(r', s, e, b)
  {
  }

  lemma HeldTaken(r: Race, r': Race, s: State, d: DocId, e: DocId, b: Batch)
    requires Drops(r.s, r'.s, d, b.ids.Values, false) && StoreInv(r, s, e, b) && SameDelete(r, r')
    requires IndexPart(r) == MapPart(r) == Inside && IndexPart(r') == MapPart(r') == After
    requires b.ids.Values == VectorsOf(b.recs).Keys == ChunksOf(b.recs).Keys == OwnersOf(b.recs).Keys
    ensures StoreInv(r', s, e, b)
  {
    var gone := VidsOf(s.vidsOf, e);
    HeldCleaned(s.index, VectorsOf(b.recs), gone, Purged(r), Late(r));
    HeldCleaned(s.chunkOf, ChunksOf(b.recs), gone, Purged(r), Late(r));
    HeldCleaned(s.docOf, OwnersOf(b.recs), gone, Purged(r), Late(r));
  }

  lemma HeldStays(r: Race, r': Race, s: State, e: DocId, b: Batch)
    requires StoreInv(r, s, e, b) && IndexPart(r') == IndexPart(r) && MapPart(r') == MapPart(r) && SameDelete(r, r')
    requires r'.s.index == r.s.index && r'.s.chunkOf == r.s.chunkOf && r'.s.docOf == r.s.docOf
    ensures StoreInv(r', s, e, b)
  {
  }

  lemma HandlerTakes(r: Race, r': Race, s: State, d: DocId, e: DocId, b: Batch)
    requires HandsInv(r, s, e, b) && StoreInv(r, s, e, b) && Recorded(d, b) && CleanStep(r, r', d)
    requires r.worker.h == 1 && r.holder.WithWorker?
    ensures StoreInv(r', s, e, b)
  {
    HeldTaken(r, r', s, d, e, b);
  }

  lemma HandlerLeaves(r: Race, r': Race, s: State, d: DocId, e: DocId, b: Batch)
    requires HolderInv(r) && HandsInv(r, s, e, b) && StoreInv(r, s, e, b) && CleanStep(r, r', d)
    requires r.worker.h != 1 || !r.holder.WithWorker?
    ensures StoreInv(r', s, e, b)
  {
    NoneDropped(r.s, r'.s, d, r.worker.h == 0);
    HeldStays(r, r', s, e, b);
  }

  lemma CleanKeepsStore(r: Race, r': Race, s: State, d: DocId, e: DocId, b: Batch)
    requires HolderInv(r) && HandsInv(r, s, e, b) && StoreInv(r, s, e, b) && Recorded(d, b) && CleanStep(r, r', d)
    ensures StoreInv(r', s, e, b)
  {
    if r.worker.h == 1 && r.holder.WithWorker? {
      HandlerTakes(r, r', s, d, e, b);
    } else {
      HandlerLeaves(r, r', s, d, e, b);
    }
  }

  lemma DeleteKeepsStore(r: Race, r': Race, s: State, d: DocId, e: DocId, b: Batch)
    requires d != e && Places(r) && HolderInv(r) && HandsInv(r, s, e, b) && StoreInv(r, s, e, b)
    requires DeleteStep(r, r', d, e)
    ensures StoreInv(r', s, e, b)
  {
    var gone := VidsOf(s.vidsOf, e);
    if r.stage == 3 {
      HeldPurged(s.index, VectorsOf(b.recs), gone, IndexPart(r), Late(r'));
      HeldPurged(s.chunkOf, ChunksOf(b.recs), gone, MapPart(r), Late(r'));
      HeldPurged(s.docOf, OwnersOf(b.recs), gone, MapPart(r), Late(r'));
    } else {
      NoneDropped(r.s, r'.s, e, r.stage == 2);
    }
  }

  // ---- every reachable point

  ghost predicate Apart(s: State, d: DocId, e: DocId, b: Batch) {
    d != e && RowsApart(s.rows, d, e, b) && TextsApart(s, e, b) && Recorded(d, b)
  }

  predicate TablesInv(r: Race, s: State, d: DocId, e: DocId, b: Batch) {
    && DocsInv(r, s, d, e) && RowsInv(r, s, e, b) && ListsInv(r, s, e, b) && CorpusInv(r, s, e, b)
    && r.s.queue == s.queue
  }

  ghost predicate VectorsInv(r: Race, s: State, d: DocId, e: DocId, b: Batch) {
    HolderInv(r) && HandsInv(r, s, e, b) && VidsInv(r, s, d, e, b) && StoreInv(r, s, e, b)
  }

  ghost predicate Inv(r: Race, s: State, d: DocId, e: DocId, b: Batch) {
    Places(r) && FileInv(r) && TablesInv(r, s, d, e, b) && VectorsInv(r, s, d, e, b)
  }

  lemma StepKeepsTables(r: Race, r': Race, s: State, d: DocId, e: DocId, b: Batch)
    requires Places(r) && TablesInv(r, s, d, e, b) && Apart(s, d, e, b) && RaceStep(r, r', d, e, b)
    ensures TablesInv(r', s, d, e, b)
  {
    StepKeepsDocs(r, r', s, d, e, b);
    StepKeepsQueue(r, r', d, e, b);
    if CleanStep(r, r', d) {
      CleanKeepsRows(r, r', s, d, e, b);
      CleanKeepsLists(r, r', s, d, e, b);
      CleanKeepsCorpus(r, r', s, d, e, b);
    } else if DeleteStep(r, r', d, e) {
      DeleteKeepsRows(r, r', s, d, e, b);
      DeleteKeepsLists(r, r', s, d, e, b);
      DeleteKeepsCorpus(r, r', s, d, e, b);
    } else {
      RunKeepsRows(r, r', s, d, e, b);
      RunKeepsLists(r, r', s, d, e, b);
      RunKeepsCorpus(r, r', s, d, e, b);
    }
  }

  lemma StepKeepsStore(r: Race, r': Race, s: State, d: DocId, e: DocId, b: Batch)
    requires d != e && Places(r) && HolderInv(r) && HandsInv(r, s, e, b) && StoreInv(r, s, e, b) && Recorded(d, b)
    requires RaceStep(r, r', d, e, b)
    ensures StoreInv(r', s, e, b)
  {
    if WriteStep(r, r', d, e, b) {
      WriteKeepsStore(r, r', s, d, e, b);
    } else if RaiseStep(r, r') {
      RaiseKeepsStore(r, r', s, e, b);
    } else if CleanStep(r, r', d) {
      CleanKeepsStore(r, r', s, d, e, b);
    } else {
      DeleteKeepsStore(r, r', s, d, e, b);
    }
  }

  lemma StepKeepsVectors(r: Race, r': Race, s: State, d: DocId, e: DocId, b: Batch)
    requires d != e && Places(r) && VectorsInv(r, s, d, e, b) && Recorded(d, b) && RaceStep(r, r', d, e, b)
    ensures VectorsInv(r', s, d, e, b)
  {
    StepKeepsHolder(r, r', d, e, b);
    StepKeepsHands(r, r', s, d, e, b);
    StepKeepsVids(r, r', s, d, e, b);
    StepKeepsStore(r, r', s, d, e, b);
  }

  lemma NextKeepsInv(r: Race, a: Action, s: State, d: DocId, e: DocId, b: Batch)
    requires Inv(r, s, d, e, b) && Apart(s, d, e, b) && CanAct(r, a, d, e, b)
    ensures Inv(Next(r, a, d, e, b), s, d, e, b)
  {
    var r' := Next(r, a, d, e, b);
    NextIsStep(r, a, d, e, b);
    StepKeepsPlaces(r, r', d, e, b);
    StepKeepsFile(r, r', d, e, b);
    StepKeepsTables(r, r', s, d, e, b);
    StepKeepsVectors(r, r', s, d, e, b);
  }

  lemma StartTables(s: State, d: DocId, e: DocId, b: Batch)
    ensures TablesInv(Start(s), s, d, e, b)
  {
    assert s.corpus + map[] == s.corpus;
  }

  lemma StartVectors(s: State, d: DocId, e: DocId, b: Batch)
    requires VidsOf(s.vidsOf, d) == {}
    ensures VectorsInv(Start(s), s, d, e, b)
  {
  }

  lemma {:induction false} ScheduleKeepsInv(races: seq<Race>, actions: seq<Action>, s: State, d: DocId, e: DocId,
                                            b: Batch, i: nat)
    requires VidsOf(s.vidsOf, d) == {} && s.file == s.index && Apart(s, d, e, b)
    requires Schedule(races, actions, s, d, e, b) && i <= |actions|
    ensures Inv(races[i], s, d, e, b)
  {
    if i == 0 {
      StartTables(s, d, e, b);
      StartVectors(s, d, e, b);
    } else {
      ScheduleKeepsInv(races, actions, s, d, e, b, i - 1);
      NextKeepsInv(races[i - 1], actions[i - 1], s, d, e, b);
    }
  }

  lemma WovenIsQueued(s: State, d: DocId, e: DocId, b: Batch, threshold: real)
    requires Woven(s, d, e, b, threshold)
    ensures d in s.docs && s.docs[d].status == Queued
  {
  }

  lemma WovenJoins(s: State, d: DocId, e: DocId, b: Batch, threshold: real)
    requires Woven(s, d, e, b, threshold)
    ensures Joins(s.rows, b.rows, b.ids, d) && Joins(Others(s.rows, e), b.rows, b.ids, d)
  {
    WovenIsQueued(s, d, e, b, threshold);
  }

  lemma WovenTexts(s: State, d: DocId, e: DocId, b: Batch, threshold: real)
    requires Woven(s, d, e, b, threshold)
    ensures TextsApart(s, e, b) && forall c :: c in b.rows ==> b.rows[c].doc != e && c !in s.rows
  {
  }

  lemma WovenIsApart(s: State, d: DocId, e: DocId, b: Batch, threshold: real)
    requires Woven(s, d, e, b, threshold)
    ensures Apart(s, d, e, b)
  {
    WovenJoins(s, d, e, b, threshold);
    WovenTexts(s, d, e, b, threshold);
    OwnRowsHold(s.rows, d, b);
    OwnRowsHold(Others(s.rows, e), d, b);
    ReadyIds(Without(s, e), d, b, threshold);
  }

  lemma ScheduledInv(r: Race, s: State, d: DocId, e: DocId, b: Batch, threshold: real)
    requires Woven(s, d, e, b, threshold) && Scheduled(r, s, d, e, b)
    ensures Inv(r, s, d, e, b)
  {
    var races, actions :| Schedule(races, actions, s, d, e, b) && races[|actions|] == r;
    WovenIsApart(s, d, e, b, threshold);
    WovenIsQueued(s, d, e, b, threshold);
    NoIdsBefore(s, d, threshold);
    ScheduleKeepsInv(races, actions, s, d, e, b, |actions|);
  }

  // ---- what both leave

  /** Equal, but for documents that the store maps to no ids. */
  ghost predicate Same(t: State, u: State) {
    && t.docs == u.docs && t.rows == u.rows && t.file == u.file && t.index == u.index && t.chunkOf == u.chunkOf
    && t.docOf == u.docOf && t.corpus == u.corpus && t.queue == u.queue
    && forall x :: VidsOf(t.vidsOf, x) == VidsOf(u.vidsOf, x)
  }

  /** The run came to its end after the purge, so the purge took the deleted document's ids out of the new
      vectors, too. */
  function Robbed(t: State, vids: set<VectorId>, s: State, b: Batch): State {
    t.(index := Vectors(s, b) - vids, file := Vectors(s, b) - vids,
       chunkOf := s.chunkOf + ChunksOf(b.recs) - vids, docOf := s.docOf + OwnersOf(b.recs) - vids)
  }

  /** Where both end. */
  ghost function Outcome(r: Race, s: State, d: DocId, e: DocId, b: Batch): State {
    var t := Without(s, e);
    if r.worker.Handle? then t.(docs := WithStatus(t.docs, d, Failed))
    else if Late(r) then Robbed(At(t, d, b, PIPELINE_LENGTH), VidsOf(s.vidsOf, e), s, b)
    else At(t, d, b, PIPELINE_LENGTH)
  }

  lemma FinishedTables(t: State, d: DocId, b: Batch)
    ensures var u := At(t, d, b, PIPELINE_LENGTH);
            && u.docs == WithStatus(t.docs, d, Done) && u.rows == RowsAt(t.rows, b, PIPELINE_LENGTH)
            && u.corpus == t.corpus + Texts(b, true) && u.queue == t.queue
  {
  }

  lemma WithoutTables(s: State, e: DocId)
    ensures var t := Without(s, e);
            && t.docs == s.docs - {e} && t.rows == Others(s.rows, e)
            && t.corpus == s.corpus - ChunksOfDoc(s.rows, e) && t.queue == s.queue
    ensures Without(s, e).corpus + map[] == Without(s, e).corpus
  {
  }

  lemma OutcomeTables(r: Race, s: State, d: DocId, e: DocId, b: Batch)
    ensures var t, u, w := Outcome(r, s, d, e, b), Without(s, e), r.worker;
            && t.docs == WithStatus(u.docs, d, if w.Handle? then Failed else Done)
            && t.rows == RowsAt(u.rows, b, if w.Handle? then 0 else PIPELINE_LENGTH)
            && t.corpus == u.corpus + Texts(b, w.Run?) && t.queue == u.queue
  {
    WithoutTables(s, e);
    FinishedTables(Without(s, e), d, b);
  }

  lemma OverTables(r: Race, s: State, d: DocId, e: DocId, b: Batch)
    requires Over(r) && Places(r) && TablesInv(r, s, d, e, b)
    ensures && r.s.docs == WithStatus(s.docs - {e}, d, if r.worker.Handle? then Failed else Done)
            && r.s.rows == RowsAt(Others(s.rows, e), b, if r.worker.Handle? then 0 else PIPELINE_LENGTH)
            && r.s.corpus == s.corpus - ChunksOfDoc(s.rows, e) + Texts(b, r.worker.Run?) && r.s.queue == s.queue
  {
  }

  lemma OverHolder(r: Race)
    requires Over(r) && Places(r) && HolderInv(r)
    ensures if r.worker.Run? then r.holder.InMap? else r.holder.Nobody? || r.holder.Out?
  {
  }

  lemma KeysApart<V>(m: map<VectorId, V>, own: map<VectorId, V>, gone: set<VectorId>)
    requires (m - gone).Keys !! own.Keys
    ensures m - gone - own.Keys == m - gone
  {
  }

  lemma OverStore(r: Race, s: State, d: DocId, e: DocId, b: Batch)
    requires Over(r) && Places(r) && FileInv(r) && HolderInv(r) && StoreInv(r, s, e, b)
    requires var vids := VidsOf(s.vidsOf, e);
             && (s.index - vids).Keys !! VectorsOf(b.recs).Keys && (s.chunkOf - vids).Keys !! ChunksOf(b.recs).Keys
             && (s.docOf - vids).Keys !! OwnersOf(b.recs).Keys
    ensures var t := Outcome(r, s, d, e, b);
            r.s.index == t.index && r.s.file == t.file && r.s.chunkOf == t.chunkOf && r.s.docOf == t.docOf
  {
    OverHolder(r);
    var vids := VidsOf(s.vidsOf, e);
    KeysApart(s.index, VectorsOf(b.recs), vids);
    KeysApart(s.chunkOf, ChunksOf(b.recs), vids);
    KeysApart(s.docOf, OwnersOf(b.recs), vids);
  }

  lemma OutcomeVids(r: Race, s: State, d: DocId, e: DocId, b: Batch)
    ensures Outcome(r, s, d, e, b).vidsOf ==
            if r.worker.Handle? then s.vidsOf - {e} else WithVids(s.vidsOf - {e}, b.recs)
  {
  }

  lemma OverVids(r: Race, s: State, d: DocId, e: DocId, b: Batch, x: DocId)
    requires d != e && Over(r) && Places(r) && HolderInv(r) && VidsInv(r, s, d, e, b) && Recorded(d, b)
    requires VidsOf(s.vidsOf, d) == {}
    ensures VidsOf(r.s.vidsOf, x) ==
            VidsOf(if r.worker.Handle? then s.vidsOf - {e} else WithVids(s.vidsOf - {e}, b.recs), x)
  {
    OverHolder(r);
    RecordVids(s.vidsOf - {e}, b.recs, d, x);
  }

  /** Whatever the order, both end as if the delete had come first and the run after it, but for vectors that a
      purge after the upsert took from a run that finished. */
  lemma WovenLeaves(r: Race, s: State, d: DocId, e: DocId, b: Batch, threshold: real)
    requires Woven(s, d, e, b, threshold) && Scheduled(r, s, d, e, b) && Over(r)
    ensures Same(r.s, Outcome(r, s, d, e, b))
  {
    ScheduledInv(r, s, d, e, b, threshold);
    WovenIsApart(s, d, e, b, threshold);
    WovenIsQueued(s, d, e, b, threshold);
    NoIdsBefore(s, d, threshold);
    OverTables(r, s, d, e, b);
    OutcomeTables(r, s, d, e, b);
    WithoutTables(s, e);
    ReadyIds(Without(s, e), d, b, threshold);
    OverStore(r, s, d, e, b);
    forall x ensures VidsOf(r.s.vidsOf, x) == VidsOf(Outcome(r, s, d, e, b).vidsOf, x) {
      OverVids(r, s, d, e, b, x);
      OutcomeVids(r, s, d, e, b);
    }
  }

  lemma SameConsistent(t: State, u: State, threshold: real)
    requires Same(t, u) && Consistent(u, threshold)
    ensures Consistent(t, threshold)
  {
    SameVidsAgree(u.chunkOf, u.docOf, u.vidsOf, t.vidsOf);
  }

  lemma FailedIsConsistent(s: State, d: DocId, threshold: real)
    requires Consistent(s, threshold) && d in s.docs && s.docs[d].status == Queued
    ensures Consistent(s.(docs := WithStatus(s.docs, d, Failed)), threshold)
  {
  }

  lemma RestWithout<V>(m: map<VectorId, V>, added: map<VectorId, V>, vids: set<VectorId>)
    requires added.Keys !! vids
    ensures (m + added) - vids == (m - vids) + added
  {
  }

  /** With no id in both hands the late purge takes nothing from the run. */
  lemma NothingRobbed(s: State, d: DocId, e: DocId, b: Batch, threshold: real)
    requires Woven(s, d, e, b, threshold) && b.ids.Values !! VidsOf(s.vidsOf, e)
    ensures var t := At(Without(s, e), d, b, PIPELINE_LENGTH); Robbed(t, VidsOf(s.vidsOf, e), s, b) == t
  {
    var vids := VidsOf(s.vidsOf, e);
    ReadyIds(Without(s, e), d, b, threshold);
    RestWithout(s.index, VectorsOf(b.recs), vids);
    RestWithout(s.chunkOf, ChunksOf(b.recs), vids);
    RestWithout(s.docOf, OwnersOf(b.recs), vids);
  }

  lemma HarmlessIsConsistent(r: Race, s: State, d: DocId, e: DocId, b: Batch, threshold: real)
    requires Woven(s, d, e, b, threshold) && (r.worker.Handle? || !Late(r) || b.ids.Values !! VidsOf(s.vidsOf, e))
    ensures Consistent(Outcome(r, s, d, e, b), threshold)
  {
    if r.worker.Handle? {
      FailedIsConsistent(Without(s, e), d, threshold);
    } else {
      SuccessIsConsistent(Without(s, e), d, b, threshold);
      if Late(r) { NothingRobbed(s, d, e, b, threshold); }
    }
  }

  lemma NewRowStays(rows: Rows, new': Rows, ids: map<ChunkId, VectorId>, c: ChunkId)
    requires c in ids && c in new'
    ensures c in WithIds(rows + new', ids) && WithIds(rows + new', ids)[c].vid == Some(ids[c])
  {
    assert c in rows + new' && (rows + new')[c] == new'[c];
  }

  lemma UnmappedRow(t: State, c: ChunkId, threshold: real)
    requires c in t.rows && t.rows[c].vid.Some? && t.rows[c].vid.value !in t.chunkOf
    ensures !Consistent(t, threshold)
  {
  }

  lemma RobbedRow(s: State, d: DocId, e: DocId, b: Batch, c: ChunkId)
    requires c in b.ids && c in b.rows && b.ids[c] in VidsOf(s.vidsOf, e)
    ensures var t := Robbed(At(Without(s, e), d, b, PIPELINE_LENGTH), VidsOf(s.vidsOf, e), s, b);
            && c in t.rows && t.rows[c].vid == Some(b.ids[c])
            && b.ids[c] !in t.index && b.ids[c] !in t.file && b.ids[c] !in t.chunkOf
  {
    NewRowStays(Without(s, e).rows, b.rows, b.ids, c);
  }

  /** An id in both hands is lost to a run that finishes before the purge: its new row has neither vector nor
      mapping. */
  lemma SharedIdIsLost(r: Race, s: State, d: DocId, e: DocId, b: Batch, threshold: real, c: ChunkId)
    requires Woven(s, d, e, b, threshold) && Scheduled(r, s, d, e, b) && Over(r) && r.worker.Run? && Late(r)
    requires c in b.ids && b.ids[c] in VidsOf(s.vidsOf, e)
    ensures c in r.s.rows && r.s.rows[c].vid == Some(b.ids[c])
    ensures b.ids[c] !in r.s.index && b.ids[c] !in r.s.file && b.ids[c] !in r.s.chunkOf
    ensures !Consistent(r.s, threshold)
  {
    WovenLeaves(r, s, d, e, b, threshold);
    RobbedRow(s, d, e, b, c);
    UnmappedRow(r.s, c, threshold);
  }

  /** A run and a delete of another document end in a consistent state exactly when the run fails, or the store was
      purged before the upsert, or none of the run's ids were the deleted document's. */
  lemma WovenIsConsistentExactly(r: Race, s: State, d: DocId, e: DocId, b: Batch, threshold: real)
    requires Woven(s, d, e, b, threshold) && Scheduled(r, s, d, e, b) && Over(r)
    ensures Consistent(r.s, threshold)
            <==> r.worker.Handle? || r.purgedAt <= MID_UPSERT || b.ids.Values !! VidsOf(s.vidsOf, e)
  {
    if r.worker.Handle? || r.purgedAt <= MID_UPSERT || b.ids.Values !! VidsOf(s.vidsOf, e) {
      WovenLeaves(r, s, d, e, b, threshold);
      HarmlessIsConsistent(r, s, d, e, b, threshold);
      SameConsistent(r.s, Outcome(r, s, d, e, b), threshold);
    } else {
      var v :| v in b.ids.Values && v in VidsOf(s.vidsOf, e);
      var c :| c in b.ids && b.ids[c] == v;
      SharedIdIsLost(r, s, d, e, b, threshold, c);
    }
  }

  // ---- when ids are reused

  /** Ids allocated while the document's rows are there are not its own. */
  lemma AllocatedWithRows(s: State, d: DocId, e: DocId, job: Job, cfg: Config)
    requires Consistent(s, cfg.threshold) && Fits(s, job)
    ensures BatchOf(s, d, job, cfg).ids.Values !! VidsOf(s.vidsOf, e)
  {
    AllocatedIdsAreFresh(s, d, job, cfg);
    forall v | v in VidsOf(s.vidsOf, e) ensures v in s.index {
      assert v in s.docOf;
    }
  }

  lemma FewerHashes(rows: Rows, new': Rows, e: DocId)
    requires CanonicalHashesDiffer(rows + new') && forall c :: c in new' ==> c !in rows
    ensures CanonicalHashesDiffer(Others(rows, e) + new')
  {
    var few, all := Others(rows, e) + new', rows + new';
    assert forall c :: c in few ==> c in all && few[c] == all[c];
  }

  lemma FewerVectors(index: Index, own: Index, vids: set<VectorId>, threshold: real)
    requires Separated(index + own, threshold)
    ensures Separated(index - vids + own, threshold)
  {
    var few, all := index - vids + own, index + own;
    assert forall v :: v in few ==> v in all && few[v] == all[v];
  }

  lemma GoodWithout(s: State, d: DocId, e: DocId, b: Batch, threshold: real)
    requires GoodBatch(s, d, b, threshold)
    ensures GoodBatch(Without(s, e), d, b, threshold)
  {
    FewerHashes(s.rows, b.rows, e);
    FewerVectors(s.index, VectorsOf(b.recs), VidsOf(s.vidsOf, e), threshold);
  }

  /** A batch computed while the document's rows are there is as good without them. */
  lemma ReadyIsWoven(s: State, d: DocId, e: DocId, b: Batch, threshold: real)
    requires Ready(s, d, b, threshold) && d != e && e in s.docs
    ensures Woven(s, d, e, b, threshold)
  {
    DeleteIsConsistent(s, e, threshold);
    GoodWithout(s, d, e, b, threshold);
  }

  /** So a run whose ids were given out before the row went ends consistent whatever the order of the rest. */
  lemma EarlyIdsAreSafe(r: Race, s: State, d: DocId, e: DocId, job: Job, cfg: Config)
    requires Consistent(s, cfg.threshold) && Fits(s, job) && d in s.docs && s.docs[d].status == Queued
    requires d != e && e in s.docs && Scheduled(r, s, d, e, BatchOf(s, d, job, cfg)) && Over(r)
    ensures Consistent(r.s, cfg.threshold)
  {
    var b := BatchOf(s, d, job, cfg);
    BatchIsGood(s, d, job, cfg);
    ReadyIsWoven(s, d, e, b, cfg.threshold);
    AllocatedWithRows(s, d, e, job, cfg);
    WovenIsConsistentExactly(r, s, d, e, b, cfg.threshold);
  }

  lemma NewIdValues(job: Job, kept: seq<nat>, base: int, v: int)
    requires base >= -1 && |job.ids| == |job.drafts| && Distinct(job.ids) && IncreasingBelow(kept, |job.drafts|)
    ensures v in NewIds(job, kept, base).Values <==> base < v <= base + |kept|
  {
    var ids := NewIds(job, kept, base);
    if base < v <= base + |kept| {
      var j := v - base - 1;
      var c := job.ids[kept[j]];
      assert c in job.ids && IndexOf(job.ids, c) == kept[j] && kept[j] in kept && IndexOf(kept, kept[j]) == j;
      assert c in ids && ids[c] == v;
    }
    if v in ids.Values {
      var c :| c in ids && ids[c] == v;
    }
  }

  /** Ids allocated above `base` are some of the document's exactly when it had one of the next numbers. */
  lemma ReusedExactly(job: Job, kept: seq<nat>, base: int, vids: set<VectorId>)
    requires base >= -1 && |job.ids| == |job.drafts| && Distinct(job.ids) && IncreasingBelow(kept, |job.drafts|)
    ensures NewIds(job, kept, base).Values !! vids <==> forall v :: v in vids ==> v <= base || v > base + |kept|
  {
    forall v | v in vids ensures v in NewIds(job, kept, base).Values <==> base < v <= base + |kept| {
      NewIdValues(job, kept, base, v);
    }
  }
}
