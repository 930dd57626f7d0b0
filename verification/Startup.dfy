/** Startup: load the index, compare two counts, reset or not, sweep what a cut left, rebuild BM25. */
module Startup {
  import opened Values
  import opened World
  import opened FaissStore
  import opened Sql
  import opened Bm25
  import opened Recovery
  import opened ResetLoop
  import opened Service

  /** The documents with one status, oldest first. */
  ghost predicate OldestFirst(docs: map<DocId, Doc>, st: Status, ds: seq<DocId>) {
    && Distinct(ds)
    && (forall d :: d in ds <==> d in docs && docs[d].status == st)
    && forall i, j :: 0 <= i < j < |ds| ==> docs[ds[i]].created <= docs[ds[j]].created
  }

  ghost predicate ByAge(docs: map<DocId, Doc>, ds: seq<DocId>) {
    && (forall i :: 0 <= i < |ds| ==> ds[i] in docs)
    && forall i, j :: 0 <= i < j < |ds| ==> docs[ds[i]].created <= docs[ds[j]].created
  }

  method PlaceByAge(docs: map<DocId, Doc>, ds: seq<DocId>, d: DocId) returns (at: nat)
    requires ByAge(docs, ds) && d in docs
    ensures at <= |ds| && ByAge(docs, ds[..at] + [d] + ds[at..])
  {
    at := 0;
    while at < |ds| && docs[ds[at]].created <= docs[d].created
      invariant at <= |ds| && forall i :: 0 <= i < at ==> docs[ds[i]].created <= docs[d].created
    {
      at := at + 1;
    }
  }

  method ListOldestFirst(db: Database, st: Status) returns (ds: seq<DocId>)
    ensures OldestFirst(db.docs, st, ds)
  {
    ds := [];
    var left := set d | d in db.docs && db.docs[d].status == st;
    ghost var all := left;
    while left != {}
      invariant left <= all
      invariant Distinct(ds) && ByAge(db.docs, ds)
      invariant forall d :: d in ds <==> d in all && d !in left
      decreases left
    {
      var d :| d in left;
      left := left - {d};
      var at := PlaceByAge(db.docs, ds, d);
      InsertedOnce(ds, d, at);
      ds := ds[..at] + [d] + ds[at..];
    }
  }

  // ---- the reset branch

  ghost predicate Newest(docs: map<DocId, Doc>, ds: seq<DocId>) {
    && (forall i :: 0 <= i < |ds| ==> ds[i] in docs)
    && forall i, j :: 0 <= i < j < |ds| ==> docs[ds[i]].created >= docs[ds[j]].created
  }

  method PlaceByNewest(docs: map<DocId, Doc>, ds: seq<DocId>, d: DocId) returns (at: nat)
    requires Newest(docs, ds) && d in docs
    ensures at <= |ds| && Newest(docs, ds[..at] + [d] + ds[at..])
  {
    at := 0;
    while at < |ds| && docs[ds[at]].created >= docs[d].created
      invariant at <= |ds| && forall i :: 0 <= i < at ==> docs[ds[i]].created >= docs[d].created
    {
      at := at + 1;
    }
  }

  /** The repository's own order, newest first. */
  method ListNewestFirst(db: Database, st: Status) returns (ds: seq<DocId>)
    ensures NewestFirst(db.docs, st, ds)
  {
    ds := [];
    var left := set d | d in db.docs && db.docs[d].status == st;
    ghost var all := left;
    while left != {}
      invariant left <= all
      invariant Distinct(ds) && Newest(db.docs, ds)
      invariant forall d :: d in ds <==> d in all && d !in left
      decreases left
    {
      var d :| d in left;
      left := left - {d};
      var at := PlaceByNewest(db.docs, ds, d);
      InsertedOnce(ds, d, at);
      ds := ds[..at] + [d] + ds[at..];
    }
  }

  /** Every finished document loses its rows and is queued again, newest first; `journal` lists the writes. */
  method ResetDone(db: Database) returns (ghost order: seq<DocId>, ghost journal: seq<Effect>)
    modifies db
    ensures NewestFirst(old(db.docs), Done, order) && journal == ResetEffects(order)
    ensures var done := set d | d in old(db.docs) && old(db.docs)[d].status == Done;
            db.docs == Requeue(old(db.docs), done) && db.rows == Without(old(db.rows), done)
  {
    var ds := ListNewestFirst(db, Done);
    ghost var docs, rows := db.docs, db.rows;
    order, journal := ds, [];
    NothingDropped(docs, rows);
    for i := 0 to |ds|
      invariant journal == ResetEffects(ds[..i])
      invariant db.docs == Requeue(docs, FirstOf(ds, i)) && db.rows == Without(rows, FirstOf(ds, i))
    {
      RequeueOne(docs, FirstOf(ds, i), ds[i]);
      DropOne(rows, FirstOf(ds, i), ds[i]);
      assert FirstOf(ds, i + 1) == FirstOf(ds, i) + {ds[i]};
      assert ds[..i + 1][..i] == ds[..i];
      var removed := db.DeleteByDocument(ds[i]);
      db.UpdateStatus(ds[i], Queued);
      journal := journal + [DeleteRows(ds[i]), SetStatus(ds[i], Queued)];
    }
    assert ds[..|ds|] == ds;
    assert FirstOf(ds, |ds|) == set d | d in docs && docs[d].status == Done;
  }

  // ---- loading

  lemma LoadedFromRows(rows: Rows, recs: seq<Record>)
    requires VidsUnique(rows)
    requires forall i, j :: 0 <= i < j < |recs| ==> recs[i].chunk != recs[j].chunk
    requires forall i :: 0 <= i < |recs| ==>
               var r := recs[i]; r.chunk in Mapped(rows) && r.vid == Mapped(rows)[r.chunk] && r.doc == rows[r.chunk].doc
    requires forall c :: c in Mapped(rows) ==> exists i :: 0 <= i < |recs| && recs[i].chunk == c
    requires MapsAgree(ChunksOf(recs), OwnersOf(recs), WithVids(map[], recs))
    ensures Loaded(rows, ChunksOf(recs), OwnersOf(recs), WithVids(map[], recs))
  {
    RecordKeys(recs);
    forall v | v in ChunksOf(recs)
      ensures var c := ChunksOf(recs)[v]; c in Mapped(rows) && Mapped(rows)[c] == v && OwnersOf(recs)[v] == rows[c].doc
    {
      var i :| 0 <= i < |recs| && recs[i].vid == v;
      RecordAt(recs, i);
    }
    forall c | c in Mapped(rows)
      ensures Mapped(rows)[c] in ChunksOf(recs) && ChunksOf(recs)[Mapped(rows)[c]] == c
    {
      var i :| 0 <= i < |recs| && recs[i].chunk == c;
      RecordAt(recs, i);
    }
  }

  lemma LoadedAfterDelete(rows: Rows, chunkOf: map<VectorId, ChunkId>, docOf: map<VectorId, DocId>,
                          vidsOf: map<DocId, set<VectorId>>, d: DocId)
    requires Loaded(rows, chunkOf, docOf, vidsOf)
    ensures var vids := VidsOf(vidsOf, d);
            && Loaded(Others(rows, d), chunkOf - vids, docOf - vids, vidsOf - {d})
            && vids == OwnedIds(rows, {d})
  {
    var vids := VidsOf(vidsOf, d);
    MapsAgreeAfterDelete(chunkOf, docOf, vidsOf, d);
    forall v ensures v in vids <==> v in docOf && docOf[v] == d {}
    forall v ensures v in vids <==> v in OwnedIds(rows, {d}) {
      if v in vids { assert chunkOf[v] in Mapped(rows); }
    }
    LoadedWithout(rows, chunkOf, docOf, d, vids);
  }

  lemma LoadedWithout(rows: Rows, chunkOf: map<VectorId, ChunkId>, docOf: map<VectorId, DocId>, d: DocId,
                      vids: set<VectorId>)
    requires chunkOf.Keys == docOf.Keys && forall v :: v in vids <==> v in docOf && docOf[v] == d
    requires forall v :: v in chunkOf ==>
               chunkOf[v] in Mapped(rows) && Mapped(rows)[chunkOf[v]] == v && docOf[v] == rows[chunkOf[v]].doc
    requires forall c :: c in Mapped(rows) ==> Mapped(rows)[c] in chunkOf && chunkOf[Mapped(rows)[c]] == c
    ensures var rest, left := Mapped(Others(rows, d)), chunkOf - vids;
            && (forall v :: v in left ==>
                  left[v] in rest && rest[left[v]] == v && docOf[v] == Others(rows, d)[left[v]].doc)
            && forall c :: c in rest ==> rest[c] in left && left[rest[c]] == c
  {
    var rest := Mapped(Others(rows, d));
    forall c ensures c in rest <==> c in Mapped(rows) && rows[c].doc != d {}
    forall c | c in rest ensures rest[c] == Mapped(rows)[c] {}
  }

  // ---- the sweep

  function InFlightBelow(docs: map<DocId, Doc>, rank: nat): set<DocId> {
    set d | d in docs && MidFlight(docs[d].status) && Rank(docs[d].status) < rank
  }

  lemma OwnedSplit(rows: Rows, ds: set<DocId>, d: DocId)
    ensures OwnedIds(rows, ds + {d}) == OwnedIds(rows, ds) + OwnedIds(Without(rows, ds), {d})
  {
    forall v ensures v in OwnedIds(rows, ds + {d}) <==> v in OwnedIds(rows, ds) + OwnedIds(Without(rows, ds), {d}) {
      if v in OwnedIds(rows, ds + {d}) {
        var c :| c in Mapped(rows) && rows[c].doc in ds + {d} && Mapped(rows)[c] == v;
        if rows[c].doc !in ds { assert c in Mapped(Without(rows, ds)); }
      }
      if v in OwnedIds(Without(rows, ds), {d}) {
        var c :| c in Mapped(Without(rows, ds)) && Without(rows, ds)[c].doc in {d} && Mapped(Without(rows, ds))[c] == v;
        assert c in Mapped(rows);
      }
    }
  }

  /** Where the sweep stands once the documents `ds` are dropped: SQL, index and maps. `mapped` says
      whether the maps were loaded from SQL or emptied by a reset. */
  ghost predicate Swept(docs: map<DocId, Doc>, rows: Rows, index: Index, mapped: bool, ds: set<DocId>,
                        db: Database, store: FaissVectorStore)
    reads db, store
  {
    && db.docs == Requeue(docs, ds)
    && db.rows == Without(rows, ds)
    && if mapped then
         store.index == index - OwnedIds(rows, ds) && Loaded(db.rows, store.chunkOf, store.docOf, store.vidsOf)
       else
         store.index == map[] && store.chunkOf == map[] && store.docOf == map[] && store.vidsOf == map[]
  }

  lemma SweptIndexStep(rows: Rows, index: Index, ds: set<DocId>, d: DocId, vids: set<VectorId>)
    requires vids == OwnedIds(Without(rows, ds), {d})
    ensures index - OwnedIds(rows, ds) - vids == index - OwnedIds(rows, ds + {d})
  {
    OwnedSplit(rows, ds, d);
  }

  method SweepStore(store: FaissVectorStore, d: DocId, ghost rows: Rows, ghost index: Index, ghost mapped: bool,
                    ghost ds: set<DocId>)
    requires if mapped then
               store.index == index - OwnedIds(rows, ds)
               && Loaded(Without(rows, ds), store.chunkOf, store.docOf, store.vidsOf)
             else
               store.index == map[] && store.chunkOf == map[] && store.docOf == map[] && store.vidsOf == map[]
    modifies store
    ensures if mapped then
               store.index == index - OwnedIds(rows, ds + {d})
               && Loaded(Without(rows, ds + {d}), store.chunkOf, store.docOf, store.vidsOf)
             else
               store.index == map[] && store.chunkOf == map[] && store.docOf == map[] && store.vidsOf == map[]
  {
    DropOne(rows, ds, d);
    if mapped {
      LoadedAfterDelete(Without(rows, ds), store.chunkOf, store.docOf, store.vidsOf, d);
      SweptIndexStep(rows, index, ds, d, VidsOf(store.vidsOf, d));
    }
    var removed := store.DeleteByDocument(d);
  }

  /** One interrupted document loses what it had derived and is queued again. */
  method SweepOne(db: Database, store: FaissVectorStore, d: DocId, ghost docs: map<DocId, Doc>, ghost rows: Rows,
                  ghost index: Index, ghost mapped: bool, ghost ds: set<DocId>)
    requires Swept(docs, rows, index, mapped, ds, db, store)
    modifies db, store
    ensures Swept(docs, rows, index, mapped, ds + {d}, db, store)
  {
    RequeueOne(docs, ds, d);
    DropOne(rows, ds, d);
    SweepStore(store, d, rows, index, mapped, ds);
    var removed := db.DeleteByDocument(d);
    db.UpdateStatus(d, Queued);
  }

  /** The ids enqueued so far: every document below `rank`, by status, oldest first. */
  ghost predicate Enqueued(docs: map<DocId, Doc>, rank: nat, queue: seq<DocId>) {
    && Distinct(queue)
    && (forall d :: d in queue <==> d in docs && Rank(docs[d].status) < rank)
    && forall i, j :: 0 <= i < j < |queue| ==> Before(docs, queue[i], queue[j])
  }

  ghost predicate Before(docs: map<DocId, Doc>, a: DocId, b: DocId) {
    a in docs && b in docs
    && (Rank(docs[a].status) < Rank(docs[b].status)
        || (docs[a].status == docs[b].status && docs[a].created <= docs[b].created))
  }

  lemma EnqueuedStatus(docs: map<DocId, Doc>, queue: seq<DocId>, st: Status, ds: seq<DocId>)
    requires Enqueued(docs, Rank(st), queue) && OldestFirst(docs, st, ds)
    ensures Enqueued(docs, Rank(st) + 1, queue + ds)
  {
    var all := queue + ds;
    forall i, j | 0 <= i < j < |all| ensures all[i] != all[j] && Before(docs, all[i], all[j]) {
      assert all[i] == if i < |queue| then queue[i] else ds[i - |queue|];
      assert all[j] == if j < |queue| then queue[j] else ds[j - |queue|];
      if i < |queue| { assert queue[i] in queue; }
      if j >= |queue| { assert ds[j - |queue|] in ds; }
      if i >= |queue| { assert ds[i - |queue|] in ds; }
    }
    forall d ensures d in all <==> d in docs && Rank(docs[d].status) < Rank(st) + 1 {
      RankInjective(st, if d in docs then docs[d].status else st);
    }
  }

  lemma RankInjective(a: Status, b: Status)
    ensures Rank(a) == Rank(b) ==> a == b
  {
  }

  lemma ListedAtRank(docs: map<DocId, Doc>, st: Status, ds: seq<DocId>)
    requires OldestFirst(Requeue(docs, InFlightBelow(docs, Rank(st))), st, ds)
    requires Rank(st) < 5
    ensures OldestFirst(docs, st, ds)
    ensures MidFlight(st) ==> InFlightBelow(docs, Rank(st) + 1) == InFlightBelow(docs, Rank(st)) + FirstOf(ds, |ds|)
    ensures !MidFlight(st) ==> InFlightBelow(docs, Rank(st) + 1) == InFlightBelow(docs, Rank(st))
  {
    var before := InFlightBelow(docs, Rank(st));
    forall d | d in docs ensures Rank(docs[d].status) == Rank(st) ==> docs[d].status == st {
      RankInjective(docs[d].status, st);
    }
    if st == Queued { assert before == {}; }
    forall d
      ensures d in Requeue(docs, before) && Requeue(docs, before)[d].status == st <==> d in docs && docs[d].status == st
    {
    }
    forall d ensures d in FirstOf(ds, |ds|) <==> d in ds {}
  }

  /** The documents with one status: the queued ones just wait again, the others are dropped first. */
  method SweepStatus(db: Database, store: FaissVectorStore, st: Status, queue: seq<DocId>, ghost docs: map<DocId, Doc>,
                     ghost rows: Rows, ghost index: Index, ghost mapped: bool) returns (queue': seq<DocId>)
    requires Rank(st) < 5
    requires Swept(docs, rows, index, mapped, InFlightBelow(docs, Rank(st)), db, store)
    requires Enqueued(docs, Rank(st), queue)
    modifies db, store
    ensures Swept(docs, rows, index, mapped, InFlightBelow(docs, Rank(st) + 1), db, store)
    ensures Enqueued(docs, Rank(st) + 1, queue')
  {
    var ds := ListOldestFirst(db, st);
    ghost var before := InFlightBelow(docs, Rank(st));
    ListedAtRank(docs, st, ds);
    EnqueuedStatus(docs, queue, st, ds);
    queue' := SweepList(db, store, ds, st != Queued, queue, docs, rows, index, mapped, before);
    assert before + {} == before;
  }

  method SweepList(db: Database, store: FaissVectorStore, ds: seq<DocId>, drop: bool, queue: seq<DocId>,
                   ghost docs: map<DocId, Doc>, ghost rows: Rows, ghost index: Index, ghost mapped: bool,
                   ghost before: set<DocId>) returns (queue': seq<DocId>)
    requires Swept(docs, rows, index, mapped, before, db, store)
    modifies db, store
    ensures Swept(docs, rows, index, mapped, before + if drop then FirstOf(ds, |ds|) else {}, db, store)
    ensures queue' == queue + ds
  {
    queue' := queue;
    assert before + {} == before && FirstOf(ds, 0) == {};
    for i := 0 to |ds|
      invariant Swept(docs, rows, index, mapped, before + if drop then FirstOf(ds, i) else {}, db, store)
      invariant queue' == queue + ds[..i]
    {
      if drop {
        assert before + FirstOf(ds, i + 1) == before + FirstOf(ds, i) + {ds[i]};
        SweepOne(db, store, ds[i], docs, rows, index, mapped, before + FirstOf(ds, i));
      }
      queue' := queue' + [ds[i]];
    }
  }

  function NthStatus(r: nat): (st: Status)
    requires r < 5
    ensures Rank(st) == r
  {
    [Queued, Parsing, Chunking, Embedding, Indexing][r]
  }

  /** Statuses in pipeline order, so a document turned into a queued one is not met again. */
  method Sweep(db: Database, store: FaissVectorStore, ghost docs: map<DocId, Doc>, ghost rows: Rows, ghost index: Index,
               ghost mapped: bool) returns (queue: seq<DocId>)
    requires Swept(docs, rows, index, mapped, {}, db, store)
    modifies db, store
    ensures Swept(docs, rows, index, mapped, InFlightBelow(docs, 5), db, store)
    ensures Enqueued(docs, 5, queue)
  {
    queue := [];
    assert InFlightBelow(docs, 0) == {};
    for r := 0 to 5
      invariant Swept(docs, rows, index, mapped, InFlightBelow(docs, r), db, store)
      invariant Enqueued(docs, r, queue)
    {
      queue := SweepStatus(db, store, NthStatus(r), queue, docs, rows, index, mapped);
    }
  }

  method LoadStore(db: Database, file: Index) returns (store: FaissVectorStore, mapped: nat)
    requires VidsUnique(db.rows)
    ensures fresh(store) && store.file == store.index == file
    ensures Loaded(db.rows, store.chunkOf, store.docOf, store.vidsOf)
    ensures mapped == |Mapped(db.rows)|
  {
    store := new FaissVectorStore(file);
    var recs := db.ListMapped();
    store.Load(recs);
    LoadedFromRows(db.rows, recs);
    mapped := |recs|;
  }

  lemma RequeueTwice(docs: map<DocId, Doc>, reset: bool)
    ensures var first := AfterReset(docs, reset);
            Requeue(first, InFlightBelow(first, 5)) == Requeue(docs, Dropped(docs, reset))
  {
  }

  lemma WithoutTwice(docs: map<DocId, Doc>, rows: Rows, reset: bool)
    requires forall c :: c in rows ==> rows[c].doc in docs
    ensures Without(Without(rows, FinishedIf(docs, reset)), InFlightBelow(AfterReset(docs, reset), 5))
            == Without(rows, Dropped(docs, reset))
  {
  }

  /** The count check and the reset it decides. */
  method Reconcile(db: Database, store: FaissVectorStore, mapped: nat) returns (reset: bool)
    modifies db, store
    ensures reset == (|old(store.index)| != mapped)
    ensures store.file == old(store.file)
    ensures db.docs == AfterReset(old(db.docs), reset)
    ensures db.rows == Without(old(db.rows), FinishedIf(old(db.docs), reset))
    ensures if reset then
              store.index == map[] && store.chunkOf == map[] && store.docOf == map[] && store.vidsOf == map[]
            else
              store.index == old(store.index) && store.chunkOf == old(store.chunkOf)
              && store.docOf == old(store.docOf) && store.vidsOf == old(store.vidsOf)
  {
    var count := store.Count();
    reset := count != mapped;
    NothingDropped(db.docs, db.rows);
    if reset {
      store.Reset();
      ghost var order, journal := ResetDone(db);
    }
  }

  /** The state after the sweep of all statuses, `docs` and `rows` being what the count check left. */
  ghost predicate SweptTo(docs: map<DocId, Doc>, rows: Rows, file: Index, reset: bool, t: State) {
    var ds := InFlightBelow(docs, 5);
    && t.docs == Requeue(docs, ds) && t.rows == Without(rows, ds)
    && (if reset then t.index == map[] && t.chunkOf == map[] && t.docOf == map[] && t.vidsOf == map[]
        else t.index == file - OwnedIds(rows, ds) && Loaded(t.rows, t.chunkOf, t.docOf, t.vidsOf))
    && Enqueued(docs, 5, t.queue)
  }

  ghost function FinishedIf(docs: map<DocId, Doc>, reset: bool): set<DocId> {
    if reset then set d | d in docs && docs[d].status == Done else {}
  }

  lemma RestartedFromSweep(docs: map<DocId, Doc>, rows: Rows, file: Index, reset: bool, t: State)
    requires forall c :: c in rows ==> rows[c].doc in docs
    requires reset == (|file| != |Mapped(rows)|)
    requires SweptTo(AfterReset(docs, reset), Without(rows, FinishedIf(docs, reset)), file, reset, t)
    requires t.file == t.index && t.corpus == Tokenized(NonDuplicates(t.rows))
    ensures Restarted(State(docs, rows, file, file, map[], map[], map[], map[], []), t)
  {
    RequeueTwice(docs, reset);
    WithoutTwice(docs, rows, reset);
    EnqueuedIsSweepOrder(AfterReset(docs, reset), t.queue);
    if !reset { NotReset(docs, rows); }
  }

  /** Without a reset the sweep drops the interrupted documents and nothing else. */
  lemma NotReset(docs: map<DocId, Doc>, rows: Rows)
    ensures AfterReset(docs, false) == docs && Without(rows, FinishedIf(docs, false)) == rows
    ensures InFlightBelow(docs, 5) == Dropped(docs, false)
  {
    NothingDropped(docs, rows);
  }

  lemma NothingSweptYet(docs: map<DocId, Doc>, rows: Rows, file: Index, reset: bool)
    ensures Requeue(docs, {}) == docs && Without(rows, {}) == rows && file - OwnedIds(rows, {}) == file
    ensures !reset ==> Without(rows, FinishedIf(docs, reset)) == rows
  {
    NothingDropped(docs, rows);
    assert OwnedIds(rows, {}) == {};
  }

  /** Load the index and compare the counts. */
  method CheckCounts(docs: map<DocId, Doc>, rows: Rows, file: Index)
    returns (db: Database, store: FaissVectorStore, reset: bool)
    requires VidsUnique(rows)
    ensures fresh(db) && fresh(store)
    ensures reset == (|file| != |Mapped(rows)|)
    ensures Swept(AfterReset(docs, reset), Without(rows, FinishedIf(docs, reset)), file, !reset, {}, db, store)
  {
    db := new Database(docs, rows);
    var mapped;
    store, mapped := LoadStore(db, file);
    reset := Reconcile(db, store, mapped);
    NothingSweptYet(docs, rows, file, reset);
    NothingSweptYet(db.docs, db.rows, file, reset);
  }

  /** Load, count check, reset, sweep. */
  method Recover(docs: map<DocId, Doc>, rows: Rows, file: Index)
    returns (db: Database, store: FaissVectorStore, queue: seq<DocId>, ghost reset: bool)
    requires VidsUnique(rows)
    ensures fresh(db) && fresh(store)
    ensures reset == (|file| != |Mapped(rows)|)
    ensures Swept(AfterReset(docs, reset), Without(rows, FinishedIf(docs, reset)), file, !reset,
                  InFlightBelow(AfterReset(docs, reset), 5), db, store)
    ensures Enqueued(AfterReset(docs, reset), 5, queue)
  {
    var discard;
    db, store, discard := CheckCounts(docs, rows, file);
    reset := discard;
    queue := Sweep(db, store, AfterReset(docs, reset), Without(rows, FinishedIf(docs, reset)), file, !reset);
  }

  /** Persist, rebuild BM25, and go into service. */
  method Serve(db: Database, store: FaissVectorStore, queue: seq<DocId>) returns (server: Server)
    modifies store`file
    ensures fresh(server) && server.Valid() && server.journal == []
    ensures server.View() == State(db.docs, db.rows, store.index, store.index, store.chunkOf, store.docOf, store.vidsOf,
                                   Tokenized(NonDuplicates(db.rows)), queue)
  {
    store.Persist();
    var bm25 := new BM25Index();
    bm25.Rebuild(NonDuplicates(db.rows));
    server := new Server(db, store, bm25, queue);
  }

  /** The lifespan's startup half. The tables' constraints hold of what it is given; nothing else does. */
  method Start(docs: map<DocId, Doc>, rows: Rows, file: Index) returns (server: Server)
    requires VidsUnique(rows) && forall c :: c in rows ==> rows[c].doc in docs
    ensures fresh(server) && server.Valid() && server.journal == []
    ensures Restarted(State(docs, rows, file, file, map[], map[], map[], map[], []), server.View())
  {
    var db, store, queue;
    ghost var reset;
    db, store, queue, reset := Recover(docs, rows, file);
    ghost var t := State(db.docs, db.rows, store.index, store.index, store.chunkOf, store.docOf, store.vidsOf,
                         Tokenized(NonDuplicates(db.rows)), queue);
    assert SweptTo(AfterReset(docs, reset), Without(rows, FinishedIf(docs, reset)), file, reset, t);
    RestartedFromSweep(docs, rows, file, reset, t);
    server := Serve(db, store, queue);
  }

  lemma EnqueuedIsSweepOrder(docs: map<DocId, Doc>, queue: seq<DocId>)
    requires Enqueued(docs, 5, queue)
    ensures SweepOrder(docs, queue)
  {
    forall i, j | 0 <= i < j < |queue|
      ensures Before(docs, queue[i], queue[j])
    {
    }
  }
}
