/** A worker's run on one document and a delete of the same or of another, step by step: every interleaving,
    whether or not the run fails for another reason. */
module Overlap {
  import opened Values
  import opened World
  import opened Pipeline
  import opened PipelineProof

  /** Before its write `p`, or before step `h` of its failure handler. */
  datatype Worker = Run(p: nat) | Handle(h: nat)

  /** Who could still take the new vectors out of the store. */
  datatype Holder = Nobody | InMap | WithDeleter | WithWorker | Out

  /** `stop` is the write before which the run raised; `vids` and `rows` are what the handler took hold of. The
      delete has finished `stage` of its steps, `listed` and `taken` are what it took hold of, and `listedAt`,
      `goneAt`, `purgedAt` and `clearedAt` say where the worker was when it listed the chunks, deleted the row, and
      took the vectors out of the store and the texts out of the search index. */
  datatype Race = Race(s: State, worker: Worker, stop: nat, vids: set<VectorId>, rows: set<ChunkId>,
                       stage: nat, listed: set<ChunkId>, taken: set<VectorId>,
                       listedAt: nat, goneAt: nat, purgedAt: nat, clearedAt: nat, holder: Holder)

  const HANDLER := PIPELINE_LENGTH + 1
  const HANDLER_STEPS := 7
  const DELETE_STEPS := 6
  const ROWS_LISTED := HANDLER + 4
  const ROWS_WIPED := HANDLER + 5

  function Place(w: Worker): nat {
    if w.Run? then w.p else HANDLER + w.h
  }

  /** How far the run came. */
  function Reached(r: Race): nat {
    if r.worker.Run? then r.worker.p else r.stop
  }

  predicate RowGone(r: Race) {
    r.stage >= 2
  }

  /** `d` is the document of the run and `e` that of the delete. */
  predicate Overtaken(r: Race, d: DocId, e: DocId) {
    d == e && RowGone(r)
  }

  /** With its document gone, a run raises at the next write that names the document by foreign key: a status
      change logs an event, and rows belong to their document. */
  predicate Stops(e: Effect) {
    match e
    case SetStatus(_, _) => true
    case InsertRows(rows) => rows != map[]
    case _ => false
  }

  datatype Action = Write | Raise | Clean | Delete

  /** An upsert holds the store's lock between its halves. */
  predicate Locked(r: Race) {
    r.worker == Run(MID_UPSERT)
  }

  /** The delete writes the file under that lock, and removes vectors under it if there are any to remove. */
  predicate NeedsLock(r: Race) {
    r.stage == 4 || (r.stage == 3 && r.taken != {})
  }

  predicate CanAct(r: Race, a: Action, d: DocId, e: DocId, b: Batch) {
    match a
    case Write =>
      && r.worker.Run? && r.worker.p < PIPELINE_LENGTH
      && !(Overtaken(r, d, e) && Stops(PipelineEffects(d, b)[r.worker.p]))
    case Raise => r.worker.Run? && r.worker.p <= PIPELINE_LENGTH && !Locked(r)
    case Clean => r.worker.Handle? && r.worker.h < HANDLER_STEPS
    case Delete => r.stage < DELETE_STEPS && !(Locked(r) && NeedsLock(r))
  }

  function Written(r: Race, d: DocId, b: Batch): Race
    requires r.worker.Run? && r.worker.p < PIPELINE_LENGTH
  {
    var p := r.worker.p;
    r.(s := Apply(r.s, PipelineEffects(d, b)[p]), worker := Run(p + 1),
       holder := if p == MID_UPSERT then InMap else r.holder)
  }

  /** The failure handler: vectors and file, then rows, texts and status. */
  function Cleaned(r: Race, d: DocId): Race
    requires r.worker.Handle? && r.worker.h < HANDLER_STEPS
  {
    var h, s := r.worker.h, r.s;
    var r' := r.(worker := Handle(h + 1));
    if h == 0 then
      r'.(vids := VidsOf(s.vidsOf, d), s := Apply(s, ForgetDoc(d)),
          holder := if r.holder.InMap? then WithWorker else r.holder)
    else if h == 1 then
      r'.(s := Apply(Apply(s, RemoveVectors(r.vids)), UnmapVectors(r.vids)),
          holder := if r.holder.WithWorker? then Out else r.holder)
    else if h == 2 then r'.(s := Apply(s, Persist))
    else if h == 3 then r'.(rows := ChunksOfDoc(s.rows, d))
    else if h == 4 then r'.(s := Apply(s, DeleteRows(d)))
    else if h == 5 then r'.(s := Apply(s, RemoveTexts(r.rows)))
    else r'.(s := Apply(s, SetStatus(d, Failed)))
  }

  /** The delete: list the chunks, delete the row, forget, remove and persist, and last the texts. */
  function Deleted(r: Race, d: DocId, e: DocId): Race
    requires r.stage < DELETE_STEPS
  {
    var s := r.s;
    var r' := r.(stage := r.stage + 1);
    if r.stage == 0 then r'.(listed := ChunksOfDoc(s.rows, e), listedAt := Place(r.worker))
    else if r.stage == 1 then r'.(s := Apply(s, DeleteDoc(e)), goneAt := Place(r.worker))
    else if r.stage == 2 then
      r'.(taken := VidsOf(s.vidsOf, e), s := Apply(s, ForgetDoc(e)),
          holder := if d == e && r.holder.InMap? then WithDeleter else r.holder)
    else if r.stage == 3 then
      r'.(s := Apply(Apply(s, RemoveVectors(r.taken)), UnmapVectors(r.taken)), purgedAt := Place(r.worker),
          holder := if r.holder.WithDeleter? then Out else r.holder)
    else if r.stage == 4 then r'.(s := Apply(s, Persist))
    else r'.(s := Apply(s, RemoveTexts(r.listed)), clearedAt := Place(r.worker))
  }

  function Next(r: Race, a: Action, d: DocId, e: DocId, b: Batch): Race
    requires CanAct(r, a, d, e, b)
  {
    match a
    case Write => Written(r, d, b)
    case Raise => r.(worker := Handle(0), stop := r.worker.p)
    case Clean => Cleaned(r, d)
    case Delete => Deleted(r, d, e)
  }

  function Start(s: State): Race {
    Race(s, Run(0), 0, {}, {}, 0, {}, {}, 0, 0, 0, 0, Nobody)
  }

  ghost predicate Schedule(races: seq<Race>, actions: seq<Action>, s: State, d: DocId, e: DocId, b: Batch) {
    && |races| == |actions| + 1 && races[0] == Start(s)
    && forall i :: 0 <= i < |actions| ==>
         CanAct(races[i], actions[i], d, e, b) && races[i + 1] == Next(races[i], actions[i], d, e, b)
  }

  /** A point that some schedule reaches. */
  ghost predicate Scheduled(r: Race, s: State, d: DocId, e: DocId, b: Batch) {
    exists races, actions :: Schedule(races, actions, s, d, e, b) && races[|actions|] == r
  }

  /** Both are through: the run to its end or to the end of its failure handler. */
  predicate Over(r: Race) {
    r.stage == DELETE_STEPS && (r.worker == Run(PIPELINE_LENGTH) || r.worker == Handle(HANDLER_STEPS))
  }

  // ---- the steps, part by part

  predicate Writes(t: State, u: State, d: DocId, b: Batch, p: nat) {
    && u.docs == (if p < 4 || p == 10 then WithStatus(t.docs, d, StatusAt(p + 1)) else t.docs)
    && u.rows == (if p == 4 then t.rows + b.rows else if p == 5 then WithIds(t.rows, b.ids) else t.rows)
    && u.index == (if p == 6 then t.index + VectorsOf(b.recs) else t.index)
    && u.chunkOf == (if p == MID_UPSERT then t.chunkOf + ChunksOf(b.recs) else t.chunkOf)
    && u.docOf == (if p == MID_UPSERT then t.docOf + OwnersOf(b.recs) else t.docOf)
    && u.vidsOf == (if p == MID_UPSERT then WithVids(t.vidsOf, b.recs) else t.vidsOf)
    && u.file == (if p == 8 then t.index else t.file)
    && u.corpus == (if p == 9 then t.corpus + Tokenized(b.texts) else t.corpus)
    && u.queue == t.queue
  }

  predicate NeedsRow(b: Batch, p: nat) {
    p < 4 || p == 10 || (p == 4 && b.rows != map[])
  }

  lemma WriteParts(t: State, d: DocId, b: Batch, p: nat)
    requires p < PIPELINE_LENGTH
    ensures Writes(t, Apply(t, PipelineEffects(d, b)[p]), d, b, p)
    ensures Stops(PipelineEffects(d, b)[p]) <==> NeedsRow(b, p)
  {
    if p < 4 || p == 10 {
      StatusParts(t, d, b, p);
    } else if p < 6 {
      RowParts(t, d, b, p);
    } else if p < 8 {
      VectorParts(t, d, b, p);
    } else {
      LastParts(t, d, b, p);
    }
  }

  lemma StatusParts(t: State, d: DocId, b: Batch, p: nat)
    requires p < 4 || p == 10
    ensures Writes(t, Apply(t, PipelineEffects(d, b)[p]), d, b, p) && Stops(PipelineEffects(d, b)[p])
  {
    assert PipelineEffects(d, b)[p] == SetStatus(d, StatusAt(p + 1));
  }

  lemma RowParts(t: State, d: DocId, b: Batch, p: nat)
    requires 4 <= p < 6
    ensures Writes(t, Apply(t, PipelineEffects(d, b)[p]), d, b, p)
    ensures Stops(PipelineEffects(d, b)[p]) <==> NeedsRow(b, p)
  {
    assert PipelineEffects(d, b)[p] == if p == 4 then InsertRows(b.rows) else AssignIds(b.ids);
  }

  lemma VectorParts(t: State, d: DocId, b: Batch, p: nat)
    requires 6 <= p < 8
    ensures Writes(t, Apply(t, PipelineEffects(d, b)[p]), d, b, p) && !Stops(PipelineEffects(d, b)[p])
  {
    assert PipelineEffects(d, b)[p] == if p == 6 then AddVectors(b.recs) else MapVectors(b.recs);
  }

  lemma LastParts(t: State, d: DocId, b: Batch, p: nat)
    requires 8 <= p < 10
    ensures Writes(t, Apply(t, PipelineEffects(d, b)[p]), d, b, p) && !Stops(PipelineEffects(d, b)[p])
  {
    assert PipelineEffects(d, b)[p] == if p == 8 then Persist else AddTexts(b.texts);
  }

  predicate Cleans(t: State, u: State, d: DocId, vids: set<VectorId>, rows: set<ChunkId>, h: nat) {
    && u.docs == (if h == 6 then WithStatus(t.docs, d, Failed) else t.docs)
    && u.rows == (if h == 4 then Others(t.rows, d) else t.rows)
    && Drops(t, u, d, if h == 1 then vids else {}, h == 0)
    && u.file == (if h == 2 then t.index else t.file)
    && u.corpus == (if h == 5 then t.corpus - rows else t.corpus)
    && u.queue == t.queue
  }

  predicate Deletes(t: State, u: State, d: DocId, vids: set<VectorId>, rows: set<ChunkId>, stage: nat) {
    && u.docs == (if stage == 1 then t.docs - {d} else t.docs)
    && u.rows == (if stage == 1 then Others(t.rows, d) else t.rows)
    && Drops(t, u, d, if stage == 3 then vids else {}, stage == 2)
    && u.file == (if stage == 4 then t.index else t.file)
    && u.corpus == (if stage == 5 then t.corpus - rows else t.corpus)
    && u.queue == t.queue
  }

  /** What leaves the store. */
  predicate Drops(t: State, u: State, d: DocId, vids: set<VectorId>, forget: bool) {
    && u.index == t.index - vids && u.chunkOf == t.chunkOf - vids && u.docOf == t.docOf - vids
    && u.vidsOf == (if forget then t.vidsOf - {d} else t.vidsOf)
  }

  lemma NothingDropped(t: State, d: DocId)
    ensures Drops(t, t, d, {}, false)
    ensures Drops(t, Apply(t, ForgetDoc(d)), d, {}, true)
  {
    NothingLess(t.index);
    NothingLess(t.chunkOf);
    NothingLess(t.docOf);
  }

  lemma NothingLess<V>(m: map<VectorId, V>)
    ensures m - {} == m
  {
  }

  lemma NoneDropped(t: State, u: State, d: DocId, forget: bool)
    requires Drops(t, u, d, {}, forget)
    ensures u.index == t.index && u.chunkOf == t.chunkOf && u.docOf == t.docOf
  {
    NothingLess(t.index);
    NothingLess(t.chunkOf);
    NothingLess(t.docOf);
  }

  predicate SameDelete(r: Race, r': Race) {
    && r'.stage == r.stage && r'.listed == r.listed && r'.taken == r.taken
    && r'.listedAt == r.listedAt && r'.goneAt == r.goneAt && r'.purgedAt == r.purgedAt && r'.clearedAt == r.clearedAt
  }

  predicate SameWork(r: Race, r': Race) {
    r'.worker == r.worker && r'.stop == r.stop && r'.vids == r.vids && r'.rows == r.rows
  }

  predicate WriteStep(r: Race, r': Race, d: DocId, e: DocId, b: Batch) {
    && r.worker.Run? && r.worker.p < PIPELINE_LENGTH && !(Overtaken(r, d, e) && NeedsRow(b, r.worker.p))
    && r'.worker == Run(r.worker.p + 1) && r'.stop == r.stop && r'.vids == r.vids && r'.rows == r.rows
    && SameDelete(r, r') && r'.holder == (if r.worker.p == MID_UPSERT then InMap else r.holder)
    && Writes(r.s, r'.s, d, b, r.worker.p)
  }

  predicate RaiseStep(r: Race, r': Race) {
    && r.worker.Run? && r.worker.p <= PIPELINE_LENGTH && r.worker.p != MID_UPSERT
    && r'.worker == Handle(0) && r'.stop == r.worker.p && r'.vids == r.vids && r'.rows == r.rows
    && SameDelete(r, r') && r'.holder == r.holder && r'.s == r.s
  }

  predicate CleanStep(r: Race, r': Race, d: DocId) {
    && r.worker.Handle? && r.worker.h < HANDLER_STEPS
    && r'.worker == Handle(r.worker.h + 1) && r'.stop == r.stop && SameDelete(r, r')
    && r'.vids == (if r.worker.h == 0 then VidsOf(r.s.vidsOf, d) else r.vids)
    && r'.rows == (if r.worker.h == 3 then ChunksOfDoc(r.s.rows, d) else r.rows)
    && r'.holder == (if r.worker.h == 0 && r.holder.InMap? then WithWorker
                     else if r.worker.h == 1 && r.holder.WithWorker? then Out else r.holder)
    && Cleans(r.s, r'.s, d, r.vids, r.rows, r.worker.h)
  }

  predicate DeleteStep(r: Race, r': Race, d: DocId, e: DocId) {
    && r.stage < DELETE_STEPS && !(Locked(r) && NeedsLock(r))
    && r'.stage == r.stage + 1 && SameWork(r, r')
    && r'.listed == (if r.stage == 0 then ChunksOfDoc(r.s.rows, e) else r.listed)
    && r'.taken == (if r.stage == 2 then VidsOf(r.s.vidsOf, e) else r.taken)
    && r'.listedAt == (if r.stage == 0 then Place(r.worker) else r.listedAt)
    && r'.goneAt == (if r.stage == 1 then Place(r.worker) else r.goneAt)
    && r'.purgedAt == (if r.stage == 3 then Place(r.worker) else r.purgedAt)
    && r'.clearedAt == (if r.stage == 5 then Place(r.worker) else r.clearedAt)
    && r'.holder == (if r.stage == 2 && d == e && r.holder.InMap? then WithDeleter
                     else if r.stage == 3 && r.holder.WithDeleter? then Out else r.holder)
    && Deletes(r.s, r'.s, e, r.taken, r.listed, r.stage)
  }

  lemma WriteIsStep(r: Race, d: DocId, e: DocId, b: Batch)
    requires CanAct(r, Write, d, e, b)
    ensures WriteStep(r, Written(r, d, b), d, e, b)
  {
    WriteParts(r.s, d, b, r.worker.p);
  }

  lemma CleanIsStep(r: Race, d: DocId)
    requires r.worker.Handle? && r.worker.h < HANDLER_STEPS
    ensures CleanStep(r, Cleaned(r, d), d)
  {
    if r.worker.h <= 2 { StoreCleanIsStep(r, d); } else { TableCleanIsStep(r, d); }
  }

  lemma StoreCleanIsStep(r: Race, d: DocId)
    requires r.worker.Handle? && r.worker.h <= 2
    ensures CleanStep(r, Cleaned(r, d), d)
  {
    NothingDropped(r.s, d);
  }

  lemma TableCleanIsStep(r: Race, d: DocId)
    requires r.worker.Handle? && 2 < r.worker.h < HANDLER_STEPS
    ensures CleanStep(r, Cleaned(r, d), d)
  {
    NothingDropped(r.s, d);
  }

  lemma DeleteIsStep(r: Race, d: DocId, e: DocId)
    requires r.stage < DELETE_STEPS && !(Locked(r) && NeedsLock(r))
    ensures DeleteStep(r, Deleted(r, d, e), d, e)
  {
    if 2 <= r.stage <= 3 { StoreDeleteIsStep(r, d, e); } else { TableDeleteIsStep(r, d, e); }
  }

  lemma StoreDeleteIsStep(r: Race, d: DocId, e: DocId)
    requires 2 <= r.stage <= 3 && !(Locked(r) && NeedsLock(r))
    ensures DeleteStep(r, Deleted(r, d, e), d, e)
  {
    NothingDropped(r.s, e);
  }

  lemma TableDeleteIsStep(r: Race, d: DocId, e: DocId)
    requires (r.stage < 2 || 3 < r.stage < DELETE_STEPS) && !(Locked(r) && NeedsLock(r))
    ensures DeleteStep(r, Deleted(r, d, e), d, e)
  {
    NothingDropped(r.s, e);
  }

  predicate RaceStep(r: Race, r': Race, d: DocId, e: DocId, b: Batch) {
    WriteStep(r, r', d, e, b) || RaiseStep(r, r') || CleanStep(r, r', d) || DeleteStep(r, r', d, e)
  }

  lemma NextIsStep(r: Race, a: Action, d: DocId, e: DocId, b: Batch)
    requires CanAct(r, a, d, e, b)
    ensures RaceStep(r, Next(r, a, d, e, b), d, e, b)
  {
    match a
    case Write => WriteIsStep(r, d, e, b);
    case Raise =>
    case Clean => CleanIsStep(r, d);
    case Delete => DeleteIsStep(r, d, e);
  }

  lemma StepKeepsQueue(r: Race, r': Race, d: DocId, e: DocId, b: Batch)
    requires RaceStep(r, r', d, e, b)
    ensures r'.s.queue == r.s.queue
  {
  }

  // ---- where everybody is

  predicate Places(r: Race) {
    && (if r.worker.Run? then r.worker.p <= PIPELINE_LENGTH
        else r.worker.h <= HANDLER_STEPS && r.stop <= PIPELINE_LENGTH && r.stop != MID_UPSERT)
    && r.stage <= DELETE_STEPS
    && (r.stage >= 1 ==> r.listedAt <= Place(r.worker))
    && (r.stage >= 2 ==> r.listedAt <= r.goneAt <= Place(r.worker))
    && (r.stage >= 4 ==> r.goneAt <= r.purgedAt <= Place(r.worker))
    && (r.stage == DELETE_STEPS ==> r.purgedAt <= r.clearedAt <= Place(r.worker))
  }

  lemma StepKeepsPlaces(r: Race, r': Race, d: DocId, e: DocId, b: Batch)
    requires Places(r) && RaceStep(r, r', d, e, b)
    ensures Places(r')
  {
  }

  /** The file is behind the index only until whoever changed the index persists it. */
  predicate FileInv(r: Race) {
    || r.s.file == r.s.index || r.stage == 4
    || (r.worker.Run? && MID_UPSERT <= r.worker.p <= 8) || (r.worker.Handle? && r.worker.h <= 2)
  }

  lemma StepKeepsFile(r: Race, r': Race, d: DocId, e: DocId, b: Batch)
    requires Places(r) && FileInv(r) && RaceStep(r, r', d, e, b)
    ensures FileInv(r')
  {
    NothingLess(r.s.index);
  }

  // ---- what the run adds

  function RowsAt(rows: Rows, b: Batch, p: nat): Rows {
    if p < 5 then rows else if p < 6 then rows + b.rows else WithIds(rows + b.rows, b.ids)
  }

  /** What the proofs need to know of the batch's rows. */
  predicate OwnRows(rows: Rows, d: DocId, b: Batch) {
    && ChunksOfDoc(rows, d) == {} && Others(rows, d) == rows
    && Others(rows + b.rows, d) == rows && Others(WithIds(rows + b.rows, b.ids), d) == rows
    && ChunksOfDoc(rows + b.rows, d) == b.rows.Keys == ChunksOfDoc(WithIds(rows + b.rows, b.ids), d)
    && WithIds(rows, b.ids) == rows && rows + map[] == rows
  }

  lemma OwnRowsHold(rows: Rows, d: DocId, b: Batch)
    requires Joins(rows, b.rows, b.ids, d)
    ensures OwnRows(rows, d, b)
  {
    JoinedOwn(rows, b.rows, b.ids, d);
    JoinedWithoutDoc(rows, b.rows, b.ids, d);
    IdsOfNewRows(rows, b.ids, b.rows);
  }

  lemma IdsOfNewRows(rows: Rows, ids: map<ChunkId, VectorId>, new': Rows)
    requires forall c :: c in ids ==> c in new'
    requires forall c :: c in new' ==> c !in rows
    ensures WithIds(rows, ids) == rows && rows + map[] == rows
  {
  }

  lemma OwnRowsAt(rows: Rows, d: DocId, b: Batch, p: nat)
    requires OwnRows(rows, d, b)
    ensures Others(RowsAt(rows, b, p), d) == rows
    ensures ChunksOfDoc(RowsAt(rows, b, p), d) == if p < 5 then {} else b.rows.Keys
  {
  }

  function Texts(b: Batch, there: bool): map<ChunkId, seq<string>> {
    if there then Tokenized(b.texts) else map[]
  }

  lemma NewIdsMapped(t: State, d: DocId, b: Batch)
    requires (forall i :: 0 <= i < |b.recs| ==> b.recs[i].doc == d) && RecordIds(b.recs) == b.ids.Values
    requires VidsOf(t.vidsOf, d) == {}
    ensures VidsOf(WithVids(t.vidsOf, b.recs), d) == b.ids.Values
    ensures forall e :: e != d ==> VidsOf(WithVids(t.vidsOf, b.recs), e) == VidsOf(t.vidsOf, e)
  {
    forall e
      ensures VidsOf(WithVids(t.vidsOf, b.recs), e) == VidsOf(t.vidsOf, e) + if e == d then b.ids.Values else {}
    {
      RecordVids(t.vidsOf, b.recs, d, e);
    }
  }

  // ---- schedules

  lemma ScheduledNext(r: Race, a: Action, s: State, d: DocId, e: DocId, b: Batch)
    requires Scheduled(r, s, d, e, b) && CanAct(r, a, d, e, b)
    ensures Scheduled(Next(r, a, d, e, b), s, d, e, b)
  {
    var races, actions :| Schedule(races, actions, s, d, e, b) && races[|actions|] == r;
    var r' := Next(r, a, d, e, b);
    assert Schedule(races + [r'], actions + [a], s, d, e, b);
    assert (races + [r'])[|actions + [a]|] == r';
  }

  lemma ScheduledStart(s: State, d: DocId, e: DocId, b: Batch)
    ensures Scheduled(Start(s), s, d, e, b)
  {
    assert Schedule([Start(s)], [], s, d, e, b);
  }

  /** The run goes on to its write `p`. */
  lemma {:induction false} WriteOn(r: Race, p: nat, s: State, d: DocId, e: DocId, b: Batch) returns (r': Race)
    requires Scheduled(r, s, d, e, b) && r.worker.Run? && r.worker.p <= p <= PIPELINE_LENGTH
    requires Overtaken(r, d, e) ==> 5 <= r.worker.p && p <= 10
    ensures Scheduled(r', s, d, e, b) && r'.worker == Run(p) && SameDelete(r, r')
    decreases p - r.worker.p
  {
    r' := r;
    if r.worker.p < p {
      WriteParts(r.s, d, b, r.worker.p);
      ScheduledNext(r, Write, s, d, e, b);
      r' := WriteOn(Written(r, d, b), p, s, d, e, b);
    }
  }

  /** The delete goes on to its step `stage`, while the worker stands still. */
  lemma {:induction false} DeleteOn(r: Race, stage: nat, s: State, d: DocId, e: DocId, b: Batch) returns (r': Race)
    requires Scheduled(r, s, d, e, b) && !Locked(r) && r.stage <= stage <= DELETE_STEPS
    ensures Scheduled(r', s, d, e, b) && r'.worker == r.worker && r'.stop == r.stop && r'.stage == stage
    ensures r'.listedAt == if r.stage == 0 < stage then Place(r.worker) else r.listedAt
    ensures r'.goneAt == if r.stage < 2 <= stage then Place(r.worker) else r.goneAt
    ensures r'.purgedAt == if r.stage < 4 <= stage then Place(r.worker) else r.purgedAt
    ensures r'.clearedAt == if r.stage < DELETE_STEPS == stage then Place(r.worker) else r.clearedAt
    decreases stage - r.stage
  {
    r' := r;
    if r.stage < stage {
      ScheduledNext(r, Action.Delete, s, d, e, b);
      r' := DeleteOn(Deleted(r, d, e), stage, s, d, e, b);
    }
  }

  lemma {:induction false} CleanOn(r: Race, s: State, d: DocId, e: DocId, b: Batch) returns (r': Race)
    requires Scheduled(r, s, d, e, b) && r.worker.Handle? && r.worker.h <= HANDLER_STEPS
    ensures Scheduled(r', s, d, e, b) && r'.worker == Handle(HANDLER_STEPS) && r'.stop == r.stop && SameDelete(r, r')
    decreases HANDLER_STEPS - r.worker.h
  {
    r' := r;
    if r.worker.h < HANDLER_STEPS {
      ScheduledNext(r, Clean, s, d, e, b);
      r' := CleanOn(Cleaned(r, d), s, d, e, b);
    }
  }
}
