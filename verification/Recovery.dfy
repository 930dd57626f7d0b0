/** What startup makes of the durable state a crash or a shutdown left. */
module Recovery {
  import opened Values
  import opened World
  import opened FaissStore
  import opened Dedup
  import opened Invariants

  predicate MidFlight(st: Status) {
    st.Parsing? || st.Chunking? || st.Embedding? || st.Indexing?
  }

  /** The whole test: two counts. */
  predicate NeedsReset(s: State) {
    |s.file| != |Mapped(s.rows)|
  }

  /** The documents whose derived state startup throws away. */
  function Dropped(docs: map<DocId, Doc>, reset: bool): set<DocId> {
    set d | d in docs && (MidFlight(docs[d].status) || (reset && docs[d].status == Done))
  }

  function Requeue(docs: map<DocId, Doc>, ds: set<DocId>): map<DocId, Doc> {
    map d | d in docs :: if d in ds then docs[d].(status := Queued) else docs[d]
  }

  function Without(rows: Rows, ds: set<DocId>): Rows {
    map c | c in rows && rows[c].doc !in ds :: rows[c]
  }

  function OwnedIds(rows: Rows, ds: set<DocId>): set<VectorId> {
    set c | c in Mapped(rows) && rows[c].doc in ds :: Mapped(rows)[c]
  }

  /** The store's maps are exactly what SQL says about the mapped rows. */
  ghost predicate Loaded(rows: Rows, chunkOf: map<VectorId, ChunkId>, docOf: map<VectorId, DocId>,
                         vidsOf: map<DocId, set<VectorId>>) {
    && MapsAgree(chunkOf, docOf, vidsOf)
    && (forall v :: v in chunkOf ==>
          chunkOf[v] in Mapped(rows) && Mapped(rows)[chunkOf[v]] == v && docOf[v] == rows[chunkOf[v]].doc)
    && forall c :: c in Mapped(rows) ==> Mapped(rows)[c] in chunkOf && chunkOf[Mapped(rows)[c]] == c
  }

  function Rank(st: Status): nat {
    match st
    case Queued => 0
    case Parsing => 1
    case Chunking => 2
    case Embedding => 3
    case Indexing => 4
    case Done => 5
    case Failed => 6
  }

  /** The order in which the sweep enqueues: by status, oldest first within a status, each document
      once. `docs` is the table as the sweep finds it, after a reset if there was one. */
  ghost predicate SweepOrder(docs: map<DocId, Doc>, queue: seq<DocId>) {
    && Distinct(queue)
    && (forall d :: d in queue <==> d in docs && Rank(docs[d].status) < 5)
    && forall i, j :: 0 <= i < j < |queue| ==>
         var a, b := docs[queue[i]], docs[queue[j]];
         Rank(a.status) < Rank(b.status) || (a.status == b.status && a.created <= b.created)
  }

  function AfterReset(docs: map<DocId, Doc>, reset: bool): map<DocId, Doc> {
    Requeue(docs, if reset then set d | d in docs && docs[d].status == Done else {})
  }

  /** What a completed startup leaves, as a relation: only ties in creation time are open. */
  ghost predicate Restarted(s: State, t: State) {
    var reset := NeedsReset(s);
    var dropped := Dropped(s.docs, reset);
    && t.docs == Requeue(s.docs, dropped)
    && t.rows == Without(s.rows, dropped)
    && t.index == (if reset then map[] else s.file - OwnedIds(s.rows, dropped))
    && t.file == t.index
    && (if reset then t.chunkOf == map[] && t.docOf == map[] && t.vidsOf == map[]
        else Loaded(t.rows, t.chunkOf, t.docOf, t.vidsOf))
    && t.corpus == Tokenized(NonDuplicates(t.rows))
    && SweepOrder(AfterReset(s.docs, reset), t.queue)
  }

  // ---- startup always completes

  /** The order of the sweep. */
  predicate Sooner(a: Doc, b: Doc) {
    Rank(a.status) < Rank(b.status) || (a.status == b.status && a.created <= b.created)
  }

  predicate Swept(docs: map<DocId, Doc>, ds: seq<DocId>) {
    && (forall i :: 0 <= i < |ds| ==> ds[i] in docs)
    && forall i, j :: 0 <= i < j < |ds| ==> Sooner(docs[ds[i]], docs[ds[j]])
  }

  lemma SweptWithOneMore(docs: map<DocId, Doc>, ds: seq<DocId>, d: DocId, at: nat)
    requires Swept(docs, ds) && d in docs && at <= |ds|
    requires forall i :: 0 <= i < at ==> Sooner(docs[ds[i]], docs[d])
    requires at < |ds| ==> !Sooner(docs[ds[at]], docs[d])
    ensures Swept(docs, ds[..at] + [d] + ds[at..])
  {
    forall j | at <= j < |ds| ensures Sooner(docs[d], docs[ds[j]]) {
      assert Sooner(docs[d], docs[ds[at]]) && (at < j ==> Sooner(docs[ds[at]], docs[ds[j]]));
    }
  }

  lemma SweepPlace(docs: map<DocId, Doc>, ds: seq<DocId>, d: DocId) returns (at: nat)
    requires Swept(docs, ds) && d in docs
    ensures at <= |ds| && Swept(docs, ds[..at] + [d] + ds[at..])
  {
    at := 0;
    while at < |ds| && Sooner(docs[ds[at]], docs[d])
      invariant at <= |ds| && forall i :: 0 <= i < at ==> Sooner(docs[ds[i]], docs[d])
    {
      at := at + 1;
    }
    SweptWithOneMore(docs, ds, d, at);
  }

  lemma {:induction false} SweepOf(docs: map<DocId, Doc>, all: set<DocId>) returns (ds: seq<DocId>)
    requires all <= docs.Keys
    ensures Distinct(ds) && Swept(docs, ds) && forall d :: d in ds <==> d in all
  {
    ds := [];
    if all != {} {
      var d :| d in all;
      var rest := SweepOf(docs, all - {d});
      var at := SweepPlace(docs, rest, d);
      InsertedOnce(rest, d, at);
      ds := rest[..at] + [d] + rest[at..];
    }
  }

  lemma SweepExists(docs: map<DocId, Doc>) returns (queue: seq<DocId>)
    ensures SweepOrder(docs, queue)
  {
    queue := SweepOf(docs, set d | d in docs && Rank(docs[d].status) < 5);
    assert forall i, j :: 0 <= i < j < |queue| ==> Sooner(docs[queue[i]], docs[queue[j]]);
  }

  predicate Injective(m: map<ChunkId, VectorId>) {
    forall a, c :: a in m && c in m && m[a] == m[c] ==> a == c
  }

  function ChunkByVid(m: map<ChunkId, VectorId>): map<VectorId, ChunkId>
    requires Injective(m)
  {
    map c | c in m :: m[c] := c
  }

  function OwnerByVid(m: map<ChunkId, VectorId>, owner: map<ChunkId, DocId>): map<VectorId, DocId>
    requires Injective(m) && m.Keys <= owner.Keys
  {
    map c | c in m :: m[c] := owner[c]
  }

  function VidsByOwner(docOf: map<VectorId, DocId>): map<DocId, set<VectorId>> {
    map d | d in docOf.Values :: set v | v in docOf && docOf[v] == d
  }

  lemma GroupedAgree(chunkOf: map<VectorId, ChunkId>, docOf: map<VectorId, DocId>)
    requires chunkOf.Keys == docOf.Keys
    ensures MapsAgree(chunkOf, docOf, VidsByOwner(docOf))
  {
  }

  lemma Inverted(m: map<ChunkId, VectorId>, owner: map<ChunkId, DocId>)
    requires Injective(m) && m.Keys <= owner.Keys
    ensures var chunkOf, docOf := ChunkByVid(m), OwnerByVid(m, owner);
            && chunkOf.Keys == docOf.Keys
            && (forall v :: v in chunkOf ==> chunkOf[v] in m && m[chunkOf[v]] == v && docOf[v] == owner[chunkOf[v]])
            && forall c :: c in m ==> m[c] in chunkOf && chunkOf[m[c]] == c
  {
  }

  lemma LoadExists(rows: Rows)
    returns (chunkOf: map<VectorId, ChunkId>, docOf: map<VectorId, DocId>, vidsOf: map<DocId, set<VectorId>>)
    requires VidsUnique(rows)
    ensures Loaded(rows, chunkOf, docOf, vidsOf)
  {
    var m, owner := Mapped(rows), map c | c in rows :: rows[c].doc;
    chunkOf, docOf := ChunkByVid(m), OwnerByVid(m, owner);
    vidsOf := VidsByOwner(docOf);
    Inverted(m, owner);
    GroupedAgree(chunkOf, docOf);
  }

  /** From every durable state with unique ids some completed startup is possible. */
  lemma RestartExists(s: State) returns (t: State)
    requires VidsUnique(s.rows)
    ensures Restarted(s, t)
  {
    var reset := NeedsReset(s);
    var dropped := Dropped(s.docs, reset);
    var docs, rows := Requeue(s.docs, dropped), Without(s.rows, dropped);
    var index: Index := if reset then map[] else s.file - OwnedIds(s.rows, dropped);
    var chunkOf, docOf, vidsOf := LoadExists(rows);
    if reset { chunkOf, docOf, vidsOf := map[], map[], map[]; }
    var queue := SweepExists(AfterReset(s.docs, reset));
    t := State(docs, rows, index, index, chunkOf, docOf, vidsOf, Tokenized(NonDuplicates(rows)), queue);
  }

  lemma SweepWaits(docs: map<DocId, Doc>, reset: bool, queue: seq<DocId>)
    requires SweepOrder(AfterReset(docs, reset), queue)
    ensures Waiting(Requeue(docs, Dropped(docs, reset)), queue)
  {
    var swept, after := AfterReset(docs, reset), Requeue(docs, Dropped(docs, reset));
    forall d | d in after ensures after[d].status == Queued <==> d in queue {
      assert d in swept;
    }
  }

  lemma EveryQueuedDocumentWaits(s: State, t: State)
    requires Restarted(s, t)
    ensures Waiting(t.docs, t.queue)
  {
    SweepWaits(s.docs, NeedsReset(s), t.queue);
  }

  lemma KeptRowsAreDone(s: State, t: State)
    requires RowsReady(s.docs, s.rows) && Restarted(s, t)
    ensures forall c :: c in t.rows ==>
              && c in s.rows && t.rows[c] == s.rows[c]
              && t.rows[c].doc in t.docs && t.docs[t.rows[c].doc].status == Done && !NeedsReset(s)
              && (t.rows[c].dup <==> t.rows[c].vid.None?)
  {
  }

  lemma WithoutMapped(rows: Rows, ds: set<DocId>, v: VectorId)
    requires VidsUnique(rows)
    ensures v in Mapped(Without(rows, ds)).Values <==> v in Mapped(rows).Values && v !in OwnedIds(rows, ds)
  {
    var rest := Without(rows, ds);
    MappedValues(rest, v);
    MappedValues(rows, v);
    if v in OwnedIds(rows, ds) {
      var c :| c in Mapped(rows) && rows[c].doc in ds && Mapped(rows)[c] == v;
    } else if c :| c in rows && !rows[c].dup && rows[c].vid == Some(v) {
      assert c in Mapped(rows) && Mapped(rows)[c] == v;
      assert c in rest && rest[c].vid == Some(v);
    }
  }

  lemma SweptIndexMatches(rows: Rows, ds: set<DocId>, file: Index)
    requires VidsUnique(rows) && file.Keys == Mapped(rows).Values
    ensures (file - OwnedIds(rows, ds)).Keys == Mapped(Without(rows, ds)).Values
  {
    forall v ensures v in file - OwnedIds(rows, ds) <==> v in Mapped(Without(rows, ds)).Values {
      WithoutMapped(rows, ds, v);
    }
  }

  lemma LoadedKeys(rows: Rows, chunkOf: map<VectorId, ChunkId>, docOf: map<VectorId, DocId>,
                   vidsOf: map<DocId, set<VectorId>>)
    requires Loaded(rows, chunkOf, docOf, vidsOf)
    ensures chunkOf.Keys == Mapped(rows).Values
  {
  }

  lemma LoadedBijection(rows: Rows, chunkOf: map<VectorId, ChunkId>, docOf: map<VectorId, DocId>,
                        vidsOf: map<DocId, set<VectorId>>)
    requires Loaded(rows, chunkOf, docOf, vidsOf)
    requires forall c :: c in rows ==> (rows[c].dup <==> rows[c].vid.None?)
    ensures Bijection(rows, chunkOf, docOf)
  {
    forall c | c in rows && rows[c].vid.Some?
      ensures rows[c].vid.value in chunkOf && chunkOf[rows[c].vid.value] == c
    {
      assert c in Mapped(rows);
    }
  }

  lemma RequeuedStatuses(docs: map<DocId, Doc>, reset: bool)
    ensures var after := Requeue(docs, Dropped(docs, reset));
            && (forall d :: d in after ==> Resting(after[d].status))
            && (reset ==> forall d :: d in after ==> !after[d].status.Done?)
  {
  }

  /** All that a startup needs: sound rows, and a count check that can be trusted. */
  ghost predicate Repairable(s: State, threshold: real) {
    && RowsReady(s.docs, s.rows) && VidsUnique(s.rows) && CanonicalHashesDiffer(s.rows)
    && Separated(s.file, threshold)
    && (!NeedsReset(s) ==> s.file.Keys == Mapped(s.rows).Values)
  }

  lemma RestartedStore(s: State, t: State, threshold: real)
    requires Repairable(s, threshold) && Restarted(s, t)
    requires forall c :: c in t.rows ==> (t.rows[c].dup <==> t.rows[c].vid.None?)
    requires NeedsReset(s) ==> t.rows == map[]
    ensures t.index.Keys == t.chunkOf.Keys
    ensures Bijection(t.rows, t.chunkOf, t.docOf) && MapsAgree(t.chunkOf, t.docOf, t.vidsOf)
  {
    if !NeedsReset(s) {
      SweptIndexMatches(s.rows, Dropped(s.docs, false), s.file);
      LoadedKeys(t.rows, t.chunkOf, t.docOf, t.vidsOf);
      LoadedBijection(t.rows, t.chunkOf, t.docOf, t.vidsOf);
    }
  }

  lemma RestartedRows(s: State, t: State, threshold: real)
    requires Repairable(s, threshold) && Restarted(s, t)
    ensures VidsUnique(t.rows) && CanonicalHashesDiffer(t.rows) && Separated(t.index, threshold)
  {
  }

  lemma RepairableIsRepaired(s: State, t: State, threshold: real)
    requires Repairable(s, threshold) && Restarted(s, t)
    ensures Agree(t, threshold)
  {
    EveryQueuedDocumentWaits(s, t);
    KeptRowsAreDone(s, t);
    RestartedStore(s, t, threshold);
    RestartedRows(s, t, threshold);
    RequeuedStatuses(s.docs, NeedsReset(s));
  }

  /** A completed startup restores agreement from everything a cut can leave. */
  lemma RestartRestoresAgreement(s: State, t: State, threshold: real)
    requires Recoverable(s, threshold) && Restarted(s, t)
    ensures Agree(t, threshold)
  {
    CountCheckSound(s, threshold);
    RepairableIsRepaired(s, t, threshold);
  }

  lemma OwnedOnlyByOwner(rows: Rows, ds: set<DocId>, c: ChunkId)
    requires VidsUnique(rows) && c in rows && rows[c].vid.Some? && rows[c].doc !in ds
    ensures rows[c].vid.value !in OwnedIds(rows, ds)
  {
    forall x | x in Mapped(rows) && rows[x].doc in ds ensures Mapped(rows)[x] != rows[c].vid.value {
    }
  }

  lemma IdIsStored(s: State, threshold: real, c: ChunkId)
    requires Recoverable(s, threshold) && !NeedsReset(s)
    requires c in s.rows && s.docs[s.rows[c].doc].status == Done && !s.rows[c].dup
    ensures s.rows[c].vid.Some? && s.rows[c].vid.value in s.file
  {
    CountCheckSound(s, threshold);
    MappedValues(s.rows, s.rows[c].vid.value);
  }

  /** When the counts agree, finished documents keep everything: rows, ids and vectors. */
  lemma RestartKeepsFinishedWork(s: State, t: State, threshold: real, c: ChunkId)
    requires Recoverable(s, threshold) && Restarted(s, t) && !NeedsReset(s)
    requires c in s.rows && s.docs[s.rows[c].doc].status == Done
    ensures c in t.rows && t.rows[c] == s.rows[c]
    ensures !s.rows[c].dup ==>
              && s.rows[c].vid.Some?
              && var v := s.rows[c].vid.value;
                 v in s.file && v in t.index && t.index[v] == s.file[v]
  {
    if !s.rows[c].dup {
      IdIsStored(s, threshold, c);
      VectorStays(s.rows, s.file, Dropped(s.docs, false), c);
    }
  }

  lemma VectorStays(rows: Rows, file: Index, ds: set<DocId>, c: ChunkId)
    requires VidsUnique(rows) && c in rows && rows[c].vid.Some? && rows[c].doc !in ds && rows[c].vid.value in file
    ensures var v := rows[c].vid.value; v in file - OwnedIds(rows, ds) && (file - OwnedIds(rows, ds))[v] == file[v]
  {
    OwnedOnlyByOwner(rows, ds, c);
  }

  /** When they differ, nothing derived survives and every document that had not failed is queued. */
  lemma RestartAfterMismatch(s: State, t: State, threshold: real)
    requires Recoverable(s, threshold) && Restarted(s, t) && NeedsReset(s)
    ensures t.rows == map[] && t.index == map[]
    ensures forall d :: d in s.docs ==>
            d in t.docs && t.docs[d].status == if s.docs[d].status == Failed then Failed else Queued
  {
    NoRowsKept(s, t, threshold);
    MismatchStatuses(s.docs);
  }

  lemma MismatchStatuses(docs: map<DocId, Doc>)
    ensures var after := Requeue(docs, Dropped(docs, true));
            forall d :: d in docs ==>
              d in after && after[d].status == if docs[d].status == Failed then Failed else Queued
  {
    RequeuedStatuses(docs, true);
  }

  lemma NoRowsKept(s: State, t: State, threshold: real)
    requires Recoverable(s, threshold) && Restarted(s, t) && NeedsReset(s)
    ensures t.rows == map[]
  {
    KeptRowsAreDone(s, t);
  }

  lemma FewerRows(rows: Rows, docs: map<DocId, Doc>, dropped: set<DocId>, requeued: set<DocId>)
    requires RowsReady(docs, rows) && VidsUnique(rows) && CanonicalHashesDiffer(rows) && requeued <= dropped
    ensures var rest := Without(rows, dropped);
            && RowsReady(Requeue(docs, requeued), rest) && VidsUnique(rest) && CanonicalHashesDiffer(rest)
  {
  }

  /** A crash inside a sweep is repairable as long as no assigned id was missing from the file: any set
      of documents may have lost its rows, and any of those may already be queued again. */
  lemma CrashInsideSweepIsRecoverable(s: State, threshold: real, dropped: set<DocId>, requeued: set<DocId>)
    requires Recoverable(s, threshold) && Mapped(s.rows).Values <= s.file.Keys
    requires requeued <= dropped
    ensures Recoverable(s.(docs := Requeue(s.docs, requeued), rows := Without(s.rows, dropped), index := s.file),
            threshold)
  {
    FewerRows(s.rows, s.docs, dropped, requeued);
    forall v | v in Mapped(Without(s.rows, dropped)).Values ensures v in Mapped(s.rows).Values {
      WithoutMapped(s.rows, dropped, v);
    }
  }

  // ---- the round trip

  lemma NoneDropped(docs: map<DocId, Doc>, rows: Rows, file: Index)
    requires forall d :: d in docs ==> Resting(docs[d].status)
    ensures Dropped(docs, false) == {}
    ensures Requeue(docs, {}) == docs && Without(rows, {}) == rows && file - OwnedIds(rows, {}) == file
  {
    assert OwnedIds(rows, {}) == {};
  }

  lemma LoadedIsTheSame(rows: Rows, chunkOf: map<VectorId, ChunkId>, docOf: map<VectorId, DocId>,
                        chunkOf': map<VectorId, ChunkId>, docOf': map<VectorId, DocId>,
                        vidsOf': map<DocId, set<VectorId>>)
    requires VidsUnique(rows) && Bijection(rows, chunkOf, docOf) && Loaded(rows, chunkOf', docOf', vidsOf')
    requires forall c :: c in rows ==> (rows[c].dup <==> rows[c].vid.None?)
    ensures chunkOf' == chunkOf && docOf' == docOf
  {
    BijectionCoversIndex(rows, chunkOf, docOf);
    LoadedKeys(rows, chunkOf', docOf', vidsOf');
    forall v | v in chunkOf ensures chunkOf'[v] == chunkOf[v] {
      assert rows[chunkOf'[v]].vid == Some(v) == rows[chunkOf[v]].vid;
    }
  }

  lemma SameVids(chunkOf: map<VectorId, ChunkId>, docOf: map<VectorId, DocId>, vidsOf: map<DocId, set<VectorId>>,
                 vidsOf': map<DocId, set<VectorId>>, d: DocId)
    requires MapsAgree(chunkOf, docOf, vidsOf) && MapsAgree(chunkOf, docOf, vidsOf')
    ensures VidsOf(vidsOf', d) == VidsOf(vidsOf, d)
  {
    forall v ensures v in VidsOf(vidsOf', d) <==> v in VidsOf(vidsOf, d) {
      assert v in VidsOf(vidsOf, d) <==> v in docOf && docOf[v] == d;
    }
  }

  lemma SameWaiting(docs: map<DocId, Doc>, a: seq<DocId>, b: seq<DocId>)
    requires Waiting(docs, a) && Waiting(docs, b) && forall d :: d in a ==> d in docs
    ensures forall d :: d in a <==> d in b && d in docs
  {
  }

  lemma PersistedTables(u: State, t: State, threshold: real)
    requires Consistent(u, threshold) && Restarted(u, t)
    ensures !NeedsReset(u) && t.docs == u.docs && t.rows == u.rows && t.index == t.file == u.index
    ensures t.corpus == u.corpus
  {
    ConsistentIsRecoverable(u, threshold);
    CountCheckSound(u, threshold);
    BijectionCoversIndex(u.rows, u.chunkOf, u.docOf);
    NoneDropped(u.docs, u.rows, u.file);
  }

  lemma PersistedMaps(u: State, t: State, threshold: real)
    requires Consistent(u, threshold) && Restarted(u, t) && !NeedsReset(u) && t.rows == u.rows
    ensures t.chunkOf == u.chunkOf && t.docOf == u.docOf && forall d :: VidsOf(t.vidsOf, d) == VidsOf(u.vidsOf, d)
  {
    LoadedIsTheSame(u.rows, u.chunkOf, u.docOf, t.chunkOf, t.docOf, t.vidsOf);
    forall d ensures VidsOf(t.vidsOf, d) == VidsOf(u.vidsOf, d) { SameVids(u.chunkOf, u.docOf, u.vidsOf, t.vidsOf, d); }
  }

  lemma QueueOfDocs(s: State, t: State)
    requires Restarted(s, t)
    ensures forall d :: d in t.queue ==> d in t.docs
  {
  }

  lemma PersistedQueue(u: State, t: State)
    requires Waiting(u.docs, u.queue) && Restarted(u, t) && t.docs == u.docs
    ensures forall d :: d in t.queue <==> d in u.queue && d in u.docs
  {
    EveryQueuedDocumentWaits(u, t);
    QueueOfDocs(u, t);
    SameWaiting(u.docs, t.queue, u.queue);
  }

  /** `t` has everything of `s` that outlives a restart. */
  ghost predicate Returns(s: State, t: State) {
    && t.docs == s.docs && t.rows == s.rows && t.index == t.file == s.index && t.corpus == s.corpus
    && t.chunkOf == s.chunkOf && t.docOf == s.docOf && (forall d :: VidsOf(t.vidsOf, d) == VidsOf(s.vidsOf, d))
    && forall d :: d in t.queue <==> d in s.queue && d in s.docs
  }

  lemma AgreeingReturns(u: State, t: State, threshold: real)
    requires Agree(u, threshold) && Restarted(u, t)
    ensures Returns(u, t)
  {
    PersistedTables(u, t, threshold);
    PersistedMaps(u, t, threshold);
    PersistedQueue(u, t);
  }

  lemma FileAside(s: State, t: State)
    requires Returns(Apply(s, Persist), t)
    ensures Returns(s, t)
  {
  }

  /** What `persist` is for: once the index is on disk, stopping and starting again gives back every table, the
      index and its maps, the BM25 corpus and the waiting documents. */
  lemma PersistedStateReturns(s: State, t: State, threshold: real)
    requires Agree(Apply(s, Persist), threshold) && Restarted(Apply(s, Persist), t)
    ensures Returns(s, t)
  {
    AgreeingReturns(Apply(s, Persist), t, threshold);
    FileAside(s, t);
  }
}
