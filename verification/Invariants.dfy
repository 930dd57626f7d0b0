/** What holds between jobs, and what holds at every point a crash or a shutdown can cut. */
module Invariants {
  import opened Values
  import opened World
  import opened FaissStore
  import opened Dedup

  /** The FAISS-mapped chunks and the rows that carry a vector id are in bijection. */
  predicate Bijection(rows: Rows, chunkOf: map<VectorId, ChunkId>, docOf: map<VectorId, DocId>) {
    && chunkOf.Keys == docOf.Keys
    && (forall v :: v in chunkOf ==>
          chunkOf[v] in rows && rows[chunkOf[v]].vid == Some(v) && docOf[v] == rows[chunkOf[v]].doc)
    && forall c :: c in rows && rows[c].vid.Some? ==>
         rows[c].vid.value in chunkOf && chunkOf[rows[c].vid.value] == c
  }

  predicate Resting(st: Status) {
    st.Queued? || st.Done? || st.Failed?
  }

  /** SQL, the index in memory, the index on disk and the BM25 corpus tell one story, and every row
      belongs to a finished document. */
  ghost predicate Consistent(s: State, threshold: real) {
    && (forall d :: d in s.docs ==> Resting(s.docs[d].status))
    && (forall c :: c in s.rows ==> s.rows[c].doc in s.docs && s.docs[s.rows[c].doc].status == Done)
    && (forall c :: c in s.rows ==> (s.rows[c].dup <==> s.rows[c].vid.None?))
    && VidsUnique(s.rows)
    && MapsAgree(s.chunkOf, s.docOf, s.vidsOf)
    && Bijection(s.rows, s.chunkOf, s.docOf)
    && s.index.Keys == s.chunkOf.Keys
    && s.file == s.index
    && s.corpus == Tokenized(NonDuplicates(s.rows))
    && CanonicalHashesDiffer(s.rows)
    && Separated(s.index, threshold)
  }

  /** The documents waiting in the queue are the queued ones, each once; ids of documents deleted
      while waiting may still be there. */
  predicate Waiting(docs: map<DocId, Doc>, queue: seq<DocId>) {
    Distinct(queue) && forall d :: d in docs ==> (docs[d].status == Queued <==> d in queue)
  }

  /** What holds between jobs. */
  ghost predicate Agree(s: State, threshold: real) {
    Consistent(s, threshold) && Waiting(s.docs, s.queue)
  }

  /** A queued or failed document owns no rows, and a finished one's non-duplicates all have ids. */
  predicate RowsReady(docs: map<DocId, Doc>, rows: Rows) {
    forall c :: c in rows ==>
      && rows[c].doc in docs
      && !docs[rows[c].doc].status.Queued? && !docs[rows[c].doc].status.Failed?
      && (rows[c].dup ==> rows[c].vid.None?)
      && (docs[rows[c].doc].status == Done && !rows[c].dup ==> rows[c].vid.Some?)
  }

  /** At every cut: enough for startup to repair. The assigned ids and the stored ids are ordered by
      inclusion, for the file a crash leaves and for the file a shutdown would write. */
  ghost predicate Recoverable(s: State, threshold: real) {
    && RowsReady(s.docs, s.rows)
    && VidsUnique(s.rows)
    && Comparable(Mapped(s.rows).Values, s.file.Keys)
    && Comparable(Mapped(s.rows).Values, s.index.Keys)
    && CanonicalHashesDiffer(s.rows)
    && Separated(s.file, threshold)
    && Separated(s.index, threshold)
  }

  lemma MappedValues(rows: Rows, v: VectorId)
    ensures v in Mapped(rows).Values <==> exists c :: c in rows && !rows[c].dup && rows[c].vid == Some(v)
  {
    if c :| c in rows && !rows[c].dup && rows[c].vid == Some(v) {
      assert c in Mapped(rows) && Mapped(rows)[c] == v;
    }
    if v in Mapped(rows).Values {
      var c :| c in Mapped(rows) && Mapped(rows)[c] == v;
    }
  }

  lemma BijectionCoversIndex(rows: Rows, chunkOf: map<VectorId, ChunkId>, docOf: map<VectorId, DocId>)
    requires Bijection(rows, chunkOf, docOf)
    requires forall c :: c in rows ==> (rows[c].dup <==> rows[c].vid.None?)
    ensures Mapped(rows).Values == chunkOf.Keys
  {
    forall v ensures v in Mapped(rows).Values <==> v in chunkOf {
      MappedValues(rows, v);
    }
  }

  /** The count check is sound: equal counts at a cut mean equal sets. */
  lemma CountCheckSound(s: State, threshold: real)
    requires Recoverable(s, threshold)
    ensures |s.file| == |Mapped(s.rows)| <==> s.file.Keys == Mapped(s.rows).Values
  {
    var m := Mapped(s.rows);
    InjectiveImageSize(m);
    assert |s.file.Keys| == |s.file|;
    if |s.file| == |m| {
      if m.Values <= s.file.Keys {
        SubsetOfEqualSize(m.Values, s.file.Keys);
      } else {
        SubsetOfEqualSize(s.file.Keys, m.Values);
      }
    }
  }

  /** The same check would be sound on the file a graceful shutdown writes. */
  lemma ShutdownKeepsRecoverable(s: State, threshold: real)
    requires Recoverable(s, threshold)
    ensures Recoverable(Apply(s, Persist), threshold)
  {
  }

  /** Losing the index file keeps the state repairable. */
  lemma LostFileKeepsRecoverable(s: State, threshold: real)
    requires Recoverable(s, threshold)
    ensures Recoverable(s.(file := map[]), threshold)
  {
  }

  lemma ConsistentIsRecoverable(s: State, threshold: real)
    requires Consistent(s, threshold)
    ensures Recoverable(s, threshold)
  {
    BijectionCoversIndex(s.rows, s.chunkOf, s.docOf);
  }
}
