/** The whole persistent and in-memory state of the ingestion side, and the atomic effects that
    change it. A crash or a cancellation can fall between any two effects, never inside one. */
module World {
  import opened Values

  datatype Status = Queued | Parsing | Chunking | Embedding | Indexing | Done | Failed
  datatype Doc = Doc(status: Status, created: nat)

  /** One row of the chunks table, keyed by chunk id. */
  datatype Row = Row(doc: DocId, index: nat, text: string, hash: string, dup: bool, vid: Option<VectorId>)
  type Rows = map<ChunkId, Row>

  /** A FAISS index with an id map: what `reconstruct` returns for each id. */
  type Index = map<VectorId, Vector>
  datatype Record = Record(chunk: ChunkId, doc: DocId, vid: VectorId, vec: Vector)

  datatype State = State(
    docs: map<DocId, Doc>, rows: Rows,                                    // SQL
    file: Index,                                                          // FAISS file; absent means empty
    index: Index, chunkOf: map<VectorId, ChunkId>, docOf: map<VectorId, DocId>,
    vidsOf: map<DocId, set<VectorId>>,                                    // FAISS store in memory
    corpus: map<ChunkId, seq<string>>,                                    // BM25 in memory
    queue: seq<DocId>)                                                    // worker queue in memory

  datatype Effect =
    | AddDoc(doc: DocId, created: nat)
    | Enqueue(doc: DocId)
    | Dequeue
    | SetStatus(doc: DocId, status: Status)
    | InsertRows(rows: Rows)
    | AssignIds(ids: map<ChunkId, VectorId>)
    | DeleteRows(doc: DocId)
    | DeleteDoc(doc: DocId)
    | AddVectors(recs: seq<Record>)
    | MapVectors(recs: seq<Record>)
    | ForgetDoc(doc: DocId)
    | RemoveVectors(vids: set<VectorId>)
    | UnmapVectors(vids: set<VectorId>)
    | Persist
    | AddTexts(items: map<ChunkId, string>)
    | RemoveTexts(chunks: set<ChunkId>)

  function Apply(s: State, e: Effect): State {
    match e
    case AddDoc(d, created) => s.(docs := s.docs[d := Doc(Queued, created)])
    case Enqueue(d) => s.(queue := s.queue + [d])
    case Dequeue => if s.queue == [] then s else s.(queue := s.queue[1..])
    case SetStatus(d, st) => s.(docs := WithStatus(s.docs, d, st))
    case InsertRows(rows) => s.(rows := s.rows + rows)
    case AssignIds(ids) => s.(rows := WithIds(s.rows, ids))
    case DeleteRows(d) => s.(rows := Others(s.rows, d))
    case DeleteDoc(d) => s.(docs := s.docs - {d}, rows := Others(s.rows, d))
    case AddVectors(recs) => s.(index := s.index + VectorsOf(recs))
    case MapVectors(recs) => s.(chunkOf := s.chunkOf + ChunksOf(recs), docOf := s.docOf + OwnersOf(recs),
                                vidsOf := WithVids(s.vidsOf, recs))
    case ForgetDoc(d) => s.(vidsOf := s.vidsOf - {d})
    case RemoveVectors(vids) => s.(index := s.index - vids)
    case UnmapVectors(vids) => s.(chunkOf := s.chunkOf - vids, docOf := s.docOf - vids)
    case Persist => s.(file := s.index)
    case AddTexts(items) => s.(corpus := s.corpus + Tokenized(items))
    case RemoveTexts(ids) => s.(corpus := s.corpus - ids)
  }

  function Replay(s: State, es: seq<Effect>): State {
    if es == [] then s else Apply(Replay(s, es[..|es| - 1]), es[|es| - 1])
  }

  lemma ReplayStep(s: State, es: seq<Effect>, e: Effect)
    ensures Replay(s, es + [e]) == Apply(Replay(s, es), e)
  {
    assert (es + [e])[..|es|] == es;
  }

  lemma ReplayTwo(s: State, es: seq<Effect>, a: Effect, b: Effect)
    ensures Replay(s, es + [a, b]) == Apply(Apply(Replay(s, es), a), b)
  {
    assert es + [a, b] == (es + [a]) + [b];
    ReplayStep(s, es, a);
    ReplayStep(s, es + [a], b);
  }

  lemma ReplayThree(s: State, es: seq<Effect>, a: Effect, b: Effect, c: Effect)
    ensures Replay(s, es + [a, b, c]) == Apply(Apply(Apply(Replay(s, es), a), b), c)
  {
    assert es + [a, b, c] == (es + [a, b]) + [c];
    ReplayTwo(s, es, a, b);
    ReplayStep(s, es + [a, b], c);
  }

  lemma {:induction false} ReplayConcat(s: State, a: seq<Effect>, b: seq<Effect>)
    ensures Replay(s, a + b) == Replay(Replay(s, a), b)
  {
    if b == [] {
      assert a + b == a;
    } else {
      assert (a + b)[..|a + b| - 1] == a + b[..|b| - 1];
      ReplayConcat(s, a, b[..|b| - 1]);
    }
  }

  // ---- SQL

  function WithStatus(docs: map<DocId, Doc>, d: DocId, st: Status): map<DocId, Doc> {
    if d in docs then docs[d := docs[d].(status := st)] else docs
  }

  function WithIds(rows: Rows, ids: map<ChunkId, VectorId>): Rows {
    map c | c in rows :: if c in ids then rows[c].(vid := Some(ids[c])) else rows[c]
  }

  function Others(rows: Rows, d: DocId): Rows {
    map c | c in rows && rows[c].doc != d :: rows[c]
  }

  function ChunksOfDoc(rows: Rows, d: DocId): set<ChunkId> {
    set c | c in rows && rows[c].doc == d
  }

  /** The rows the startup check maps: non-duplicates that carry a vector id. */
  function Mapped(rows: Rows): map<ChunkId, VectorId> {
    map c | c in rows && !rows[c].dup && rows[c].vid.Some? :: rows[c].vid.value
  }

  function NonDuplicates(rows: Rows): map<ChunkId, string> {
    map c | c in rows && !rows[c].dup :: rows[c].text
  }

  /** The unique index on `vector_id`. */
  predicate VidsUnique(rows: Rows) {
    forall a, b :: a in rows && b in rows && a != b && rows[a].vid.Some? && rows[b].vid.Some? ==>
      rows[a].vid != rows[b].vid
  }

  /** The foreign key of `chunks`: every row's document exists. */
  predicate OwnersExist(docs: map<DocId, Doc>, rows: Rows) {
    forall c :: c in rows ==> rows[c].doc in docs
  }

  // ---- FAISS

  function VectorsOf(recs: seq<Record>): Index {
    if recs == [] then map[]
    else var r := recs[|recs| - 1]; VectorsOf(recs[..|recs| - 1])[r.vid := r.vec]
  }

  function ChunksOf(recs: seq<Record>): map<VectorId, ChunkId> {
    if recs == [] then map[]
    else var r := recs[|recs| - 1]; ChunksOf(recs[..|recs| - 1])[r.vid := r.chunk]
  }

  function OwnersOf(recs: seq<Record>): map<VectorId, DocId> {
    if recs == [] then map[]
    else var r := recs[|recs| - 1]; OwnersOf(recs[..|recs| - 1])[r.vid := r.doc]
  }

  /** `_vids_by_doc` is a defaultdict: a missing document reads as the empty set. */
  function VidsOf(vidsOf: map<DocId, set<VectorId>>, d: DocId): set<VectorId> {
    if d in vidsOf then vidsOf[d] else {}
  }

  function WithVids(vidsOf: map<DocId, set<VectorId>>, recs: seq<Record>): map<DocId, set<VectorId>> {
    if recs == [] then vidsOf
    else
      var r, before := recs[|recs| - 1], WithVids(vidsOf, recs[..|recs| - 1]);
      before[r.doc := VidsOf(before, r.doc) + {r.vid}]
  }

  lemma {:induction false} RecordKeys(recs: seq<Record>)
    ensures VectorsOf(recs).Keys == ChunksOf(recs).Keys == OwnersOf(recs).Keys == RecordIds(recs)
  {
    if recs == [] {
    } else {
      var n := |recs| - 1;
      var init := recs[..n];
      RecordKeys(init);
      assert RecordIds(recs) == RecordIds(init) + {recs[n].vid} by {
        assert forall i :: 0 <= i < n ==> init[i] == recs[i];
      }
    }
  }

  /** What the recursive definitions above come to when the ids of the records are distinct. */
  lemma {:induction false} RecordAt(recs: seq<Record>, i: nat)
    requires i < |recs|
    requires forall j, k :: 0 <= j < k < |recs| ==> recs[j].vid != recs[k].vid
    ensures recs[i].vid in VectorsOf(recs) && VectorsOf(recs)[recs[i].vid] == recs[i].vec
    ensures recs[i].vid in ChunksOf(recs) && ChunksOf(recs)[recs[i].vid] == recs[i].chunk
    ensures recs[i].vid in OwnersOf(recs) && OwnersOf(recs)[recs[i].vid] == recs[i].doc
  {
    if i == |recs| - 1 {
    } else {
      RecordAt(recs[..|recs| - 1], i);
    }
  }

  function RecordIds(recs: seq<Record>): set<VectorId> {
    set i | 0 <= i < |recs| :: recs[i].vid
  }

  lemma {:induction false} RecordVids(vidsOf: map<DocId, set<VectorId>>, recs: seq<Record>, owner: DocId, d: DocId)
    requires forall i :: 0 <= i < |recs| ==> recs[i].doc == owner
    ensures VidsOf(WithVids(vidsOf, recs), d) == VidsOf(vidsOf, d) + if d == owner then RecordIds(recs) else {}
  {
    if recs == [] {
    } else {
      var n := |recs| - 1;
      var init := recs[..n];
      RecordVids(vidsOf, init, owner, d);
      RecordVids(vidsOf, init, owner, owner);
      assert forall i :: 0 <= i < n ==> init[i] == recs[i];
      assert RecordIds(recs) == RecordIds(init) + {recs[n].vid};
    }
  }

  // ---- BM25

  function Lower(c: char): char {
    if 'A' <= c <= 'Z' then c - 'A' + 'a' else c
  }

  predicate IsTokenChar(c: char) {
    'a' <= c <= 'z' || '0' <= c <= '9'
  }

  /** Lower-case alphanumeric runs; `run` is the run being read. */
  function TokensFrom(s: string, run: string): seq<string>
    decreases |s|
  {
    var flushed := if run == [] then [] else [run];
    if s == [] then flushed
    else if IsTokenChar(Lower(s[0])) then TokensFrom(s[1..], run + [Lower(s[0])])
    else flushed + TokensFrom(s[1..], [])
  }

  function Tokenize(s: string): seq<string> {
    TokensFrom(s, [])
  }

  function Tokenized(items: map<ChunkId, string>): map<ChunkId, seq<string>> {
    map c | c in items :: Tokenize(items[c])
  }
}
