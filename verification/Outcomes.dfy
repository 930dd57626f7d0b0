/** What each operation leaves, told from the tables, the index and the corpus alone. */
module Outcomes {
  import opened Values
  import opened World
  import opened Sql
  import opened Dedup
  import opened Invariants
  import opened Pipeline
  import opened PipelineProof
  import opened Recovery
  import opened Runs

  // ---- one document's status, and nothing else about documents

  predicate OnlyStatus(before: map<DocId, Doc>, after: map<DocId, Doc>, d: DocId, st: Status) {
    && after.Keys == before.Keys
    && (d in before ==> after[d] == Doc(st, before[d].created))
    && forall e :: e in before && e != d ==> after[e] == before[e]
  }

  /** Rows, vectors on both sides, and BM25 texts. */
  predicate SameContent(s: State, t: State) {
    t.rows == s.rows && t.index == s.index && t.file == s.file && t.corpus == s.corpus
  }

  // ---- what a finished run stores

  /** The row a draft became. */
  function RowAt(rows: Rows, job: Job, i: nat): Row
    requires i < |job.ids| && job.ids[i] in rows
  {
    rows[job.ids[i]]
  }

  predicate AllStored(rows: Rows, job: Job) {
    |job.ids| == |job.drafts| && forall i :: 0 <= i < |job.ids| ==> job.ids[i] in rows
  }

  /** Why a draft is not indexed: its hash is stored or came earlier in the document, or its vector is too close to
      a stored one or to an earlier one that was indexed. */
  ghost predicate Repeats(s: State, rows: Rows, job: Job, cfg: Config, i: nat)
    requires AllStored(rows, job) && i < |job.drafts|
  {
    var x := job.drafts[i];
    || (exists c :: c in s.rows && !s.rows[c].dup && s.rows[c].hash == x.hash)
    || (exists j :: 0 <= j < i && job.drafts[j].hash == x.hash)
    || (exists v :: v in s.index && Dot(s.index[v], cfg.embed(x.text)) > cfg.threshold)
    || exists j :: 0 <= j < i && !RowAt(rows, job, j).dup
                   && Dot(cfg.embed(job.drafts[j].text), cfg.embed(x.text)) > cfg.threshold
  }

  /** The draft's own row: place, text and hash, whether it repeats, and an id exactly if it does not. */
  ghost predicate IsRowOf(s: State, rows: Rows, d: DocId, job: Job, cfg: Config, i: nat)
    requires AllStored(rows, job) && i < |job.drafts|
  {
    var r := RowAt(rows, job, i);
    && r.doc == d && r.index == i && r.text == job.drafts[i].text && r.hash == job.drafts[i].hash
    && (r.dup <==> Repeats(s, rows, job, cfg, i))
    && (r.vid.None? <==> r.dup)
  }

  /** Ids go up by one from the largest there was, in the order of the drafts. */
  ghost predicate NextIds(before: Rows, rows: Rows, job: Job)
    requires AllStored(rows, job)
  {
    && (forall i, j :: 0 <= i < j < |job.ids| && RowAt(rows, job, i).vid.Some? && RowAt(rows, job, j).vid.Some? ==>
          RowAt(rows, job, i).vid.value < RowAt(rows, job, j).vid.value)
    && forall i :: 0 <= i < |job.ids| && RowAt(rows, job, i).vid.Some? ==>
         IsNext(before, rows, job, i, RowAt(rows, job, i).vid.value)
  }

  ghost predicate IsNext(before: Rows, rows: Rows, job: Job, i: nat, v: VectorId)
    requires AllStored(rows, job) && i <= |job.ids|
  {
    || IsMaxVid(before, v - 1)
    || exists j :: 0 <= j < i && RowAt(rows, job, j).vid.Some? && RowAt(rows, job, j).vid.value == v - 1
  }

  ghost predicate OldRowsKept(before: Rows, after: Rows, ids: seq<ChunkId>) {
    && (forall c :: c in after <==> c in before || c in ids)
    && forall c :: c in before ==> after[c] == before[c]
  }

  /** Old vectors stay, and the new ones are those of the new rows. */
  predicate VectorsJoin(before: Index, after: Index, rows: Rows, job: Job)
    requires AllStored(rows, job)
  {
    && (forall v :: v in before ==> v in after && after[v] == before[v])
    && forall v :: v in after && v !in before ==>
         exists i :: 0 <= i < |job.ids| && RowAt(rows, job, i).vid == Some(v)
  }

  /** The row of draft `i`, given which drafts were kept and the largest id before. */
  function DraftRow(d: DocId, job: Job, kept: seq<nat>, base: int, i: nat): Row
    requires base >= -1 && i < |job.drafts|
  {
    var x := job.drafts[i];
    Row(d, i, x.text, x.hash, i !in kept, if i in kept then Some(base + 1 + IndexOf(kept, i)) else None)
  }

  lemma InsertedRowIs(old': Rows, d: DocId, job: Job, kept: seq<nat>, i: nat)
    requires |job.ids| == |job.drafts| && Distinct(job.ids) && i < |job.ids|
    ensures var rows, c := old' + NewRows(d, job, kept), job.ids[i]; c in rows && rows[c] == NewRow(d, job, kept, i)
  {
    assert IndexOf(job.ids, job.ids[i]) == i;
  }

  lemma IdOfDraft(job: Job, kept: seq<nat>, base: int, i: nat)
    requires base >= -1 && Distinct(job.ids) && i < |job.ids|
    ensures var ids, c := NewIds(job, kept, base), job.ids[i];
            (c in ids <==> i in kept) && (i in kept ==> ids[c] == base + 1 + IndexOf(kept, i))
  {
    assert IndexOf(job.ids, job.ids[i]) == i;
  }

  lemma RowIs(old': Rows, d: DocId, job: Job, kept: seq<nat>, base: int, i: nat)
    requires base >= -1 && |job.ids| == |job.drafts| && Distinct(job.ids) && i < |job.ids|
    ensures var rows, c := WithIds(old' + NewRows(d, job, kept), NewIds(job, kept, base)), job.ids[i];
            c in rows && rows[c] == DraftRow(d, job, kept, base, i)
  {
    InsertedRowIs(old', d, job, kept, i);
    IdOfDraft(job, kept, base, i);
  }

  lemma RepeatsExactly(s: State, job: Job, cfg: Config, i: nat)
    requires Fits(s, job) && i < |job.drafts|
    ensures var kept, x := KeptOf(s, job, cfg), job.drafts[i];
            i !in kept <==>
            || (exists c :: c in s.rows && !s.rows[c].dup && s.rows[c].hash == x.hash)
            || (exists j :: 0 <= j < i && job.drafts[j].hash == x.hash)
            || (exists v :: v in s.index && Dot(s.index[v], cfg.embed(x.text)) > cfg.threshold)
            || exists j :: 0 <= j < i && j in kept
                           && Dot(cfg.embed(job.drafts[j].text), cfg.embed(x.text)) > cfg.threshold
  {
    KeptExactly(job.drafts, CanonicalHashes(s.rows), s.index, cfg.embed, cfg.threshold, |job.drafts|, i);
    assert job.drafts[i].hash in CanonicalHashes(s.rows) <==>
           exists c :: c in s.rows && !s.rows[c].dup && s.rows[c].hash == job.drafts[i].hash;
  }

  lemma PlaceInKept(kept: seq<nat>, n: nat, i: nat, j: nat)
    requires IncreasingBelow(kept, n) && i in kept && j in kept && i < j
    ensures IndexOf(kept, i) < IndexOf(kept, j)
  {
  }

  lemma PlaceBefore(kept: seq<nat>, n: nat, i: nat) returns (j: nat)
    requires IncreasingBelow(kept, n) && i in kept && IndexOf(kept, i) > 0
    ensures j < i && j in kept && IndexOf(kept, j) == IndexOf(kept, i) - 1
  {
    j := kept[IndexOf(kept, i) - 1];
  }

  /** All rows at once: the tables after a run, from the kept places and the largest id. */
  ghost predicate RowsAre(rows: Rows, d: DocId, job: Job, kept: seq<nat>, base: int)
    requires base >= -1
  {
    && AllStored(rows, job)
    && forall i :: 0 <= i < |job.ids| ==>
         RowAt(rows, job, i) == DraftRow(d, job, kept, base, i)
  }

  lemma AllRowsAre(old': Rows, d: DocId, job: Job, kept: seq<nat>, base: int)
    requires base >= -1 && |job.ids| == |job.drafts| && Distinct(job.ids)
    ensures RowsAre(WithIds(old' + NewRows(d, job, kept), NewIds(job, kept, base)), d, job, kept, base)
  {
    var rows := WithIds(old' + NewRows(d, job, kept), NewIds(job, kept, base));
    forall i | 0 <= i < |job.ids| ensures job.ids[i] in rows && rows[job.ids[i]] == DraftRow(d, job, kept, base, i) {
      RowIs(old', d, job, kept, base, i);
    }
  }

  lemma RowsInOrder(before: Rows, rows: Rows, d: DocId, job: Job, kept: seq<nat>, base: int)
    requires IsMaxVid(before, base) && RowsAre(rows, d, job, kept, base) && IncreasingBelow(kept, |job.ids|)
    ensures NextIds(before, rows, job)
  {
    forall i, j | 0 <= i < j < |job.ids| && i in kept && j in kept
      ensures RowAt(rows, job, i).vid.value < RowAt(rows, job, j).vid.value
    {
      PlaceInKept(kept, |job.ids|, i, j);
    }
    forall i | 0 <= i < |job.ids| && i in kept ensures IsNext(before, rows, job, i, RowAt(rows, job, i).vid.value) {
      if IndexOf(kept, i) > 0 {
        var j := PlaceBefore(kept, |job.ids|, i);
        assert RowAt(rows, job, j).vid == Some(RowAt(rows, job, i).vid.value - 1);
      }
    }
  }

  lemma RowOfDraft(s: State, rows: Rows, d: DocId, job: Job, cfg: Config, base: int, i: nat)
    requires Fits(s, job) && base >= -1 && RowsAre(rows, d, job, KeptOf(s, job, cfg), base) && i < |job.ids|
    ensures IsRowOf(s, rows, d, job, cfg, i)
  {
    var kept := KeptOf(s, job, cfg);
    RepeatsExactly(s, job, cfg, i);
    assert forall j :: 0 <= j < i ==> (RowAt(rows, job, j).dup <==> j !in kept);
  }

  lemma OldRowsStay(s: State, d: DocId, job: Job, cfg: Config)
    requires Fits(s, job) && Ready(s, d, BatchOf(s, d, job, cfg), cfg.threshold)
    ensures OldRowsKept(s.rows, Indexed(s, BatchOf(s, d, job, cfg)), job.ids)
  {
    var b := BatchOf(s, d, job, cfg);
    ReadyJoins(s, d, b, cfg.threshold);
    forall c
      ensures c in Indexed(s, b) <==> c in s.rows || c in job.ids
      ensures c in s.rows ==> Indexed(s, b)[c] == s.rows[c]
    {
      JoinedAt(s.rows, b.rows, b.ids, d, c);
    }
  }

  lemma NewVectorHasRow(rows: Rows, d: DocId, job: Job, kept: seq<nat>, base: int, v: VectorId)
    requires base >= -1 && RowsAre(rows, d, job, kept, base) && v in NewIds(job, kept, base).Values
    ensures exists i :: 0 <= i < |job.ids| && RowAt(rows, job, i).vid == Some(v)
  {
    var ids := NewIds(job, kept, base);
    var c :| c in ids && ids[c] == v;
    var i := IndexOf(job.ids, c);
    assert RowAt(rows, job, i) == DraftRow(d, job, kept, base, i);
  }

  lemma VectorsAreJoined(s: State, d: DocId, job: Job, cfg: Config, base: int)
    requires Fits(s, job) && Ready(s, d, BatchOf(s, d, job, cfg), cfg.threshold)
    requires base == MaxVid(s.rows + NewRows(d, job, KeptOf(s, job, cfg))) >= -1
    requires RowsAre(Indexed(s, BatchOf(s, d, job, cfg)), d, job, KeptOf(s, job, cfg), base)
    ensures var b := BatchOf(s, d, job, cfg); VectorsJoin(s.index, Vectors(s, b), Indexed(s, b), job)
  {
    var b := BatchOf(s, d, job, cfg);
    ReadyIds(s, d, b, cfg.threshold);
    forall v | v in Vectors(s, b) && v !in s.index
      ensures exists i :: 0 <= i < |job.ids| && RowAt(Indexed(s, b), job, i).vid == Some(v)
    {
      NewVectorHasRow(Indexed(s, b), d, job, KeptOf(s, job, cfg), base, v);
    }
  }

  /** Rows and vectors of a run that ended well. */
  ghost predicate Stored(s: State, t: State, d: DocId, job: Job, cfg: Config) {
    && AllStored(t.rows, job)
    && OldRowsKept(s.rows, t.rows, job.ids)
    && (forall i :: 0 <= i < |job.ids| ==> IsRowOf(s, t.rows, d, job, cfg, i))
    && NextIds(s.rows, t.rows, job)
    && VectorsJoin(s.index, t.index, t.rows, job) && t.file == t.index
  }

  lemma SameMax(old': Rows, d: DocId, job: Job, kept: seq<nat>)
    requires |job.ids| == |job.drafts| && forall i :: 0 <= i < |job.ids| ==> job.ids[i] !in old'
    ensures IsMaxVid(old', MaxVid(old' + NewRows(d, job, kept)))
  {
    var new' := NewRows(d, job, kept);
    var m := MaxVid(old' + new');
    assert IsMaxVid(old' + new', m);
    assert forall c :: c in old' ==> c in old' + new' && (old' + new')[c] == old'[c];
    assert forall c :: c in new' ==> new'[c].vid == None;
    if m >= 0 {
      var c :| c in old' + new' && (old' + new')[c].vid == Some(m);
      assert c in old';
    }
  }

  lemma RunStores(s: State, t: State, d: DocId, job: Job, cfg: Config)
    requires Fits(s, job) && Ready(s, d, BatchOf(s, d, job, cfg), cfg.threshold)
    requires var b := BatchOf(s, d, job, cfg);
             t.rows == Indexed(s, b) && t.index == t.file == Vectors(s, b)
    ensures Stored(s, t, d, job, cfg)
  {
    var b, kept := BatchOf(s, d, job, cfg), KeptOf(s, job, cfg);
    var base := MaxVid(s.rows + NewRows(d, job, kept));
    SameMax(s.rows, d, job, kept);
    AllRowsAre(s.rows, d, job, kept, base);
    OldRowsStay(s, d, job, cfg);
    VectorsAreJoined(s, d, job, cfg, base);
    RowsInOrder(s.rows, t.rows, d, job, kept, base);
    forall i | 0 <= i < |job.ids| ensures IsRowOf(s, t.rows, d, job, cfg, i) {
      RowOfDraft(s, t.rows, d, job, cfg, base, i);
    }
  }

  // ---- the worker

  lemma WorkEnds(s: State, job: Job, raise: Option<nat>, cfg: Config)
    requires s.queue != [] && Fits(s, job) && CanRaise(raise)
    ensures var d, after := s.queue[0], Apply(s, Dequeue);
            Replay(s, WorkEffects(s, job, raise, cfg)) ==
            if d in s.docs then RunEnd(after, d, BatchOf(after, d, job, cfg), raise) else after
  {
    var d, after := s.queue[0], Apply(s, Dequeue);
    assert Replay(s, [Dequeue]) == after by { assert [Dequeue][..0] == []; }
    if d in s.docs {
      var b := BatchOf(after, d, job, cfg);
      ReplayConcat(s, [Dequeue], RunEffects(after, d, b, raise));
      RunEndsThere(after, d, b, raise);
    } else {
      assert [Dequeue] + [] == [Dequeue];
    }
  }

  lemma StatusOnly(docs: map<DocId, Doc>, d: DocId, st: Status)
    ensures OnlyStatus(docs, WithStatus(docs, d, st), d, st)
  {
  }

  lemma RunEndParts(s: State, d: DocId, b: Batch)
    ensures var t := RunEnd(s, d, b, None);
            && t.rows == Indexed(s, b) && t.index == t.file == Vectors(s, b) && t.queue == s.queue
            && t.docs == WithStatus(s.docs, d, Done)
  {
  }

  lemma RunEndStores(s: State, t: State, d: DocId, job: Job, cfg: Config)
    requires Fits(s, job) && Ready(s, d, BatchOf(s, d, job, cfg), cfg.threshold)
    requires t == RunEnd(s, d, BatchOf(s, d, job, cfg), None)
    ensures Stored(s, t, d, job, cfg) && OnlyStatus(s.docs, t.docs, d, Done) && t.queue == s.queue
  {
    RunEndParts(s, d, BatchOf(s, d, job, cfg));
    StatusOnly(s.docs, d, Done);
    RunStores(s, t, d, job, cfg);
  }

  /** A run that ends well takes the oldest waiting document, marks it done, adds a row for each of its drafts and a
      vector for each that repeats nothing, and touches no other document, row or vector. */
  lemma FinishedRun(s: State, job: Job, cfg: Config)
    requires Agree(s, cfg.threshold) && Enabled(s, Work(job, None)) && s.queue[0] in s.docs
    ensures var t := Replay(s, EffectsOf(s, Work(job, None), cfg));
            && Stored(s, t, s.queue[0], job, cfg)
            && OnlyStatus(s.docs, t.docs, s.queue[0], Done)
            && t.queue == s.queue[1..]
  {
    var d, after, t := s.queue[0], Apply(s, Dequeue), Replay(s, EffectsOf(s, Work(job, None), cfg));
    WorkEnds(s, job, None, cfg);
    WorkIsReady(s, job, cfg);
    RunEndStores(after, t, d, job, cfg);
    QueueAside(s, after, t, d, job, cfg);
  }

  lemma QueueAside(s: State, s': State, t: State, d: DocId, job: Job, cfg: Config)
    requires s.rows == s'.rows && s.index == s'.index && Stored(s', t, d, job, cfg)
    ensures Stored(s, t, d, job, cfg)
  {
    forall i | 0 <= i < |job.ids| ensures IsRowOf(s, t.rows, d, job, cfg, i) {
      assert IsRowOf(s', t.rows, d, job, cfg, i);
    }
  }

  /** A run that raises, wherever it does, leaves nothing of itself but the failed status. */
  lemma FailedRun(s: State, job: Job, n: nat, cfg: Config)
    requires Agree(s, cfg.threshold) && Enabled(s, Work(job, Some(n))) && s.queue[0] in s.docs
    ensures var t := Replay(s, EffectsOf(s, Work(job, Some(n)), cfg));
            && SameContent(s, t)
            && OnlyStatus(s.docs, t.docs, s.queue[0], Failed)
            && t.queue == s.queue[1..]
  {
    var d, after := s.queue[0], Apply(s, Dequeue);
    WorkEnds(s, job, Some(n), cfg);
    WorkIsReady(s, job, cfg);
    FailureRestores(after, d, BatchOf(after, d, job, cfg), cfg.threshold, n);
    StatusOnly(s.docs, d, Failed);
  }

  /** An id whose document is gone is taken off and nothing else happens. */
  lemma SkippedRun(s: State, job: Job, raise: Option<nat>, cfg: Config)
    requires Enabled(s, Work(job, raise)) && s.queue[0] !in s.docs
    ensures Replay(s, EffectsOf(s, Work(job, raise), cfg)) == s.(queue := s.queue[1..])
  {
    WorkEnds(s, job, raise, cfg);
  }

  // ---- uploads and deletes

  /** An upload adds one waiting document at the end of the line. */
  lemma UploadLeaves(s: State, d: DocId, created: nat, cfg: Config)
    requires Enabled(s, Upload(d, created))
    ensures var t := Replay(s, EffectsOf(s, Upload(d, created), cfg));
            && SameContent(s, t) && t.queue == s.queue + [d]
            && t.docs.Keys == s.docs.Keys + {d} && t.docs[d] == Doc(Queued, created)
            && forall e :: e in s.docs ==> t.docs[e] == s.docs[e]
  {
    UploadSteps(s, d, created);
  }

  /** A delete takes away the document, its rows, exactly their vectors, and nothing of any other document. */
  ghost predicate Deleted(s: State, t: State, d: DocId) {
    && (forall e :: e in t.docs <==> e in s.docs && e != d) && (forall e :: e in t.docs ==> t.docs[e] == s.docs[e])
    && (forall c :: c in t.rows <==> c in s.rows && s.rows[c].doc != d)
    && (forall c :: c in t.rows ==> t.rows[c] == s.rows[c])
    && (forall v :: v in t.index <==> v in s.index && !OwnsVector(s.rows, d, v))
    && (forall v :: v in t.index ==> t.index[v] == s.index[v])
    && t.file == t.index && t.queue == s.queue
    && (forall c :: c in t.corpus <==> c in s.corpus && !(c in s.rows && s.rows[c].doc == d))
    && (forall c :: c in t.corpus ==> t.corpus[c] == s.corpus[c])
  }

  ghost predicate OwnsVector(rows: Rows, d: DocId, v: VectorId) {
    exists c :: c in rows && rows[c].doc == d && rows[c].vid == Some(v)
  }

  lemma OwnedVectors(s: State, d: DocId, threshold: real, v: VectorId)
    requires Consistent(s, threshold)
    ensures v in VidsOf(s.vidsOf, d) <==> OwnsVector(s.rows, d, v)
  {
    IdsOfDocument(s, d, threshold);
    if OwnsVector(s.rows, d, v) {
      var c :| c in s.rows && s.rows[c].doc == d && s.rows[c].vid == Some(v);
      assert c in Mapped(s.rows) && Mapped(s.rows)[c] == v;
    }
  }

  lemma IndexWithout(s: State, d: DocId, threshold: real)
    requires Consistent(s, threshold)
    ensures forall v :: v in s.index - VidsOf(s.vidsOf, d) <==> v in s.index && !OwnsVector(s.rows, d, v)
  {
    forall v ensures v in s.index - VidsOf(s.vidsOf, d) <==> v in s.index && !OwnsVector(s.rows, d, v) {
      OwnedVectors(s, d, threshold, v);
    }
  }

  lemma DeleteEnds(s: State, d: DocId, threshold: real)
    requires Consistent(s, threshold) && d in s.docs
    ensures Deleted(s, DeletingAt(s, d, DELETE_LENGTH), d)
  {
    IndexWithout(s, d, threshold);
  }

  lemma NothingToDelete(s: State, d: DocId)
    requires forall c :: c in s.rows ==> s.rows[c].doc != d
    requires d !in s.docs && s.file == s.index
    ensures Deleted(s, s, d)
  {
  }

  lemma DeleteLeaves(s: State, d: DocId, cfg: Config)
    requires Agree(s, cfg.threshold)
    ensures Deleted(s, Replay(s, EffectsOf(s, Delete(d), cfg)), d)
  {
    if d in s.docs {
      assert DeleteEffects(s, d)[..DELETE_LENGTH] == DeleteEffects(s, d);
      DeleteReaches(s, d, DELETE_LENGTH);
      DeleteEnds(s, d, cfg.threshold);
    } else {
      NothingToDelete(s, d);
    }
  }

  // ---- first come, first served

  /** The documents uploaded by the first `n` events, in order. */
  function Uploads(events: seq<Event>, n: nat): seq<DocId>
    requires n <= |events|
  {
    if n == 0 then []
    else
      var e := events[n - 1];
      Uploads(events, n - 1) + if e.op.Upload? then [e.op.doc] else []
  }

  function Turns(events: seq<Event>, n: nat): nat
    requires n <= |events|
  {
    if n == 0 then 0 else Turns(events, n - 1) + if events[n - 1].op.Work? then 1 else 0
  }

  predicate AllComplete(events: seq<Event>) {
    forall i :: 0 <= i < |events| ==> events[i].Complete?
  }

  function QueueAfter(queue: seq<DocId>, op: Op): seq<DocId>
    requires op.Work? ==> queue != []
  {
    match op
    case Upload(d, _) => queue + [d]
    case Work(_, _) => queue[1..]
    case Delete(_) => queue
  }

  lemma WorkTakesFirst(s: State, job: Job, raise: Option<nat>, cfg: Config)
    requires Agree(s, cfg.threshold) && Enabled(s, Work(job, raise))
    ensures var t := Replay(s, EffectsOf(s, Work(job, raise), cfg));
            && t.queue == s.queue[1..]
            && OnlyStatus(s.docs, t.docs, s.queue[0], if raise.None? then Done else Failed)
  {
    if s.queue[0] !in s.docs {
      SkippedRun(s, job, raise, cfg);
    } else if raise.None? {
      FinishedRun(s, job, cfg);
    } else {
      FailedRun(s, job, raise.value, cfg);
    }
  }

  lemma QueueStep(s: State, op: Op, cfg: Config)
    requires Agree(s, cfg.threshold) && Enabled(s, op)
    ensures Replay(s, EffectsOf(s, op, cfg)).queue == QueueAfter(s.queue, op)
  {
    match op
    case Upload(d, created) => UploadLeaves(s, d, created, cfg);
    case Delete(d) => DeleteLeaves(s, d, cfg);
    case Work(job, raise) => WorkTakesFirst(s, job, raise, cfg);
  }

  lemma HistoryQueueStep(states: seq<State>, events: seq<Event>, cfg: Config, i: nat)
    requires History(states, events, cfg) && Agree(states[0], cfg.threshold)
    requires i < |events| && events[i].Complete?
    ensures events[i].op.Work? ==> states[i].queue != []
    ensures states[i + 1].queue == QueueAfter(states[i].queue, events[i].op)
  {
    EveryHistoryAgrees(states, events, cfg, i);
    assert Step(states[i], events[i], states[i + 1], cfg);
    QueueStep(states[i], events[i].op, cfg);
  }

  lemma LineStep(first: seq<DocId>, events: seq<Event>, n: nat, queue: seq<DocId>)
    requires 0 < n <= |events| && (events[n - 1].op.Work? ==> queue != []) && InOrder(first, events, n - 1, queue)
    ensures InOrder(first, events, n, QueueAfter(queue, events[n - 1].op))
  {
    var before, e := first + Uploads(events, n - 1), events[n - 1];
    if e.op.Upload? { assert first + Uploads(events, n) == before + [e.op.doc]; }
  }

  /** What waits is the line of all that ever waited, less one for each turn of the worker. */
  predicate InOrder(first: seq<DocId>, events: seq<Event>, n: nat, queue: seq<DocId>)
    requires n <= |events|
  {
    var line := first + Uploads(events, n);
    Turns(events, n) <= |line| && queue == line[Turns(events, n)..]
  }

  predicate QueuesFollow(queues: seq<seq<DocId>>, events: seq<Event>) {
    && |queues| == |events| + 1
    && forall i :: 0 <= i < |events| ==>
         (events[i].op.Work? ==> queues[i] != []) && queues[i + 1] == QueueAfter(queues[i], events[i].op)
  }

  lemma {:induction false} QueuesInOrder(queues: seq<seq<DocId>>, events: seq<Event>, n: nat)
    requires QueuesFollow(queues, events) && n <= |events|
    ensures InOrder(queues[0], events, n, queues[n])
  {
    if n == 0 {
    } else {
      QueuesInOrder(queues, events, n - 1);
      assert queues[n - 1 + 1] == QueueAfter(queues[n - 1], events[n - 1].op);
      LineStep(queues[0], events, n, queues[n - 1]);
    }
  }

  lemma TheLine(states: seq<State>, events: seq<Event>, cfg: Config, n: nat)
    requires History(states, events, cfg) && Agree(states[0], cfg.threshold) && AllComplete(events) && n <= |events|
    ensures InOrder(states[0].queue, events, n, states[n].queue)
  {
    var queues := seq(|states|, i requires 0 <= i < |states| => states[i].queue);
    forall i | 0 <= i < |events|
      ensures (events[i].op.Work? ==> queues[i] != []) && queues[i + 1] == QueueAfter(queues[i], events[i].op)
    {
      HistoryQueueStep(states, events, cfg, i);
    }
    QueuesInOrder(queues, events, n);
  }

  /** The worker's n-th turn decides the n-th document in line, and no other: between restarts, whoever came first
      is served first. */
  lemma FirstComeFirstServed(states: seq<State>, events: seq<Event>, cfg: Config, n: nat)
    requires History(states, events, cfg) && Agree(states[0], cfg.threshold) && AllComplete(events)
    requires n < |events| && events[n].op.Work?
    ensures var line, turn := states[0].queue + Uploads(events, n), Turns(events, n);
            && turn < |line|
            && OnlyStatus(states[n].docs, states[n + 1].docs, line[turn],
                          if events[n].op.raise.None? then Done else Failed)
  {
    TheLine(states, events, cfg, n);
    EveryHistoryAgrees(states, events, cfg, n);
    HistoryQueueStep(states, events, cfg, n);
    assert Step(states[n], events[n], states[n + 1], cfg);
    WorkTakesFirst(states[n], events[n].op.job, events[n].op.raise, cfg);
  }

  // ---- a restart

  /** The count check: vectors on disk against rows that say they have one. */
  predicate CountsDiffer(s: State) {
    |s.file| != |set c | c in s.rows && !s.rows[c].dup && s.rows[c].vid.Some?|
  }

  /** Whether a document is worked on again: it was interrupted, or finished and the counts differ. */
  predicate StartsAgain(s: State, d: DocId) {
    d in s.docs && match s.docs[d].status
                   case Queued => false
                   case Failed => false
                   case Done => CountsDiffer(s)
                   case _ => true
  }

  predicate Waits(st: Status) {
    st.Queued? || st.Done?
  }

  /** The line after a restart: documents no run had touched, then those a run had taken furthest last; older ones
      first. */
  predicate InLine(a: Doc, b: Doc) {
    match b.status
    case Parsing => Waits(a.status) || (a.status.Parsing? && a.created <= b.created)
    case Chunking => Waits(a.status) || a.status.Parsing? || (a.status.Chunking? && a.created <= b.created)
    case Embedding => !a.status.Indexing? && (a.status.Embedding? ==> a.created <= b.created)
    case Indexing => a.status.Indexing? ==> a.created <= b.created
    case _ => Waits(a.status) && a.created <= b.created
  }

  /** Every document stays; those that start again are queued and lose their rows and vectors, the others keep
      status, rows and vectors; and the queue is the queued documents in line. */
  ghost predicate Resumed(s: State, t: State) {
    && t.docs.Keys == s.docs.Keys
    && (forall d :: d in s.docs ==>
          t.docs[d] == Doc(if StartsAgain(s, d) then Queued else s.docs[d].status, s.docs[d].created))
    && (forall c :: c in t.rows <==> c in s.rows && !StartsAgain(s, s.rows[c].doc))
    && (forall c :: c in t.rows ==> t.rows[c] == s.rows[c])
  }

  ghost predicate ResumedIndex(s: State, t: State) {
    && t.file == t.index
    && (CountsDiffer(s) ==> t.index == map[])
    && (!CountsDiffer(s) ==>
          forall v :: v in t.index <==> v in s.file && !exists c :: StaleId(s, c, v))
    && (forall v :: v in t.index ==> t.index[v] == s.file[v])
  }

  /** An id of a non-duplicate of a document that starts again. */
  predicate StaleId(s: State, c: ChunkId, v: VectorId) {
    c in s.rows && !s.rows[c].dup && s.rows[c].vid == Some(v) && StartsAgain(s, s.rows[c].doc)
  }

  ghost predicate ResumedQueue(s: State, t: State) {
    && Distinct(t.queue)
    && (forall d :: d in t.queue <==> d in s.docs && (s.docs[d].status.Queued? || StartsAgain(s, d)))
    && forall i, j :: 0 <= i < j < |t.queue| ==> InLine(s.docs[t.queue[i]], s.docs[t.queue[j]])
  }

  lemma CountsAre(s: State)
    ensures CountsDiffer(s) <==> NeedsReset(s)
  {
    assert Mapped(s.rows).Keys == set c | c in s.rows && !s.rows[c].dup && s.rows[c].vid.Some?;
    assert |Mapped(s.rows)| == |Mapped(s.rows).Keys|;
  }

  lemma DroppedAre(s: State, d: DocId)
    ensures d in Dropped(s.docs, NeedsReset(s)) <==> StartsAgain(s, d)
  {
    CountsAre(s);
  }

  lemma ResumedTables(s: State, t: State)
    requires Restarted(s, t)
    ensures Resumed(s, t)
  {
    forall d ensures d in Dropped(s.docs, NeedsReset(s)) <==> StartsAgain(s, d) { DroppedAre(s, d); }
  }

  lemma StaleIds(s: State, v: VectorId)
    ensures v in OwnedIds(s.rows, Dropped(s.docs, NeedsReset(s))) <==> exists c :: StaleId(s, c, v)
  {
    var ds := Dropped(s.docs, NeedsReset(s));
    forall d ensures d in ds <==> StartsAgain(s, d) { DroppedAre(s, d); }
    if v in OwnedIds(s.rows, ds) {
      var c :| c in Mapped(s.rows) && s.rows[c].doc in ds && Mapped(s.rows)[c] == v;
      assert StaleId(s, c, v);
    }
    if c :| StaleId(s, c, v) {
      assert c in Mapped(s.rows) && Mapped(s.rows)[c] == v;
    }
  }

  lemma ResumedVectors(s: State, t: State)
    requires Restarted(s, t)
    ensures ResumedIndex(s, t)
  {
    CountsAre(s);
    forall v ensures v in OwnedIds(s.rows, Dropped(s.docs, NeedsReset(s))) <==> exists c :: StaleId(s, c, v) {
      StaleIds(s, v);
    }
  }

  lemma QueuedAre(s: State, queue: seq<DocId>)
    requires SweepOrder(AfterReset(s.docs, NeedsReset(s)), queue)
    ensures forall d :: d in queue <==> d in s.docs && (s.docs[d].status.Queued? || StartsAgain(s, d))
  {
    CountsAre(s);
    var docs := AfterReset(s.docs, NeedsReset(s));
    forall d ensures d in queue <==> d in s.docs && (s.docs[d].status.Queued? || StartsAgain(s, d)) {
      assert d in queue <==> d in docs && Rank(docs[d].status) < 5;
    }
  }

  lemma SoonerIsInLine(docs: map<DocId, Doc>, reset: bool, a: DocId, b: DocId)
    requires a in docs && b in docs
    requires var after := AfterReset(docs, reset);
             Rank(after[a].status) < 5 && Rank(after[b].status) < 5 && Sooner(after[a], after[b])
    ensures InLine(docs[a], docs[b])
  {
  }

  lemma ResumedLine(s: State, t: State)
    requires Restarted(s, t)
    ensures ResumedQueue(s, t)
  {
    var docs := AfterReset(s.docs, NeedsReset(s));
    QueuedAre(s, t.queue);
    forall i, j | 0 <= i < j < |t.queue| ensures InLine(s.docs[t.queue[i]], s.docs[t.queue[j]]) {
      assert t.queue[i] in t.queue && t.queue[j] in t.queue;
      SoonerIsInLine(s.docs, NeedsReset(s), t.queue[i], t.queue[j]);
    }
  }

  /** What a completed startup makes of any durable state. */
  lemma RestartLeaves(s: State, t: State)
    requires Restarted(s, t)
    ensures Resumed(s, t) && ResumedIndex(s, t) && ResumedQueue(s, t)
  {
    ResumedTables(s, t);
    ResumedVectors(s, t);
    ResumedLine(s, t);
  }
}
