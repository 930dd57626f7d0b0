/** Two crashes that startup does not repair, on the smallest installation where they can happen. */
module ResetExample {
  import opened Values
  import opened World
  import opened FaissStore
  import opened Sql
  import opened Dedup
  import opened Invariants
  import opened Pipeline
  import opened Recovery
  import opened Runs
  import opened ResetLoop

  predicate IsDocs(docs: map<DocId, Doc>) {
    docs.Keys == {1, 2, 3} && docs[1] == Doc(Done, 0) && docs[2] == Doc(Done, 1) && docs[3] == Doc(Queued, 2)
  }

  predicate IsRows(rows: Rows) {
    && rows.Keys == {10, 20}
    && rows[10] == Row(1, 0, "a", "a", false, Some(0)) && rows[20] == Row(2, 0, "b", "b", false, Some(1))
  }

  predicate IsStore(s: State) {
    && s.index.Keys == s.chunkOf.Keys == s.docOf.Keys == {0, 1} && s.index[0] == s.index[1] == []
    && s.chunkOf[0] == 10 && s.chunkOf[1] == 20 && s.docOf[0] == 1 && s.docOf[1] == 2
    && s.vidsOf.Keys == {1, 2} && s.vidsOf[1] == {0} && s.vidsOf[2] == {1}
  }

  /** Two finished documents with one vector each, and a third waiting. */
  predicate IsExample(s: State) {
    && IsDocs(s.docs) && IsRows(s.rows) && IsStore(s) && s.file == s.index
    && s.corpus == Tokenized(NonDuplicates(s.rows)) && s.queue == [3]
  }

  const EXAMPLE_CONFIG := Config((text: string) => [], 0.0)
  const EXAMPLE_JOB := Job([Draft("c", "c")], [30])

  lemma RowsDiffer(rows: Rows)
    requires IsRows(rows)
    ensures VidsUnique(rows) && CanonicalHashesDiffer(rows)
  {
    assert rows[10].hash[0] == 'a' && rows[20].hash[0] == 'b';
  }

  lemma StoreAgrees(s: State)
    requires IsStore(s)
    ensures MapsAgree(s.chunkOf, s.docOf, s.vidsOf)
  {
  }

  lemma StoreMatches(s: State)
    requires IsStore(s) && IsRows(s.rows)
    ensures Bijection(s.rows, s.chunkOf, s.docOf)
  {
  }

  lemma RowsOfDone(docs: map<DocId, Doc>, rows: Rows)
    requires IsDocs(docs) && IsRows(rows)
    ensures forall d :: d in docs ==> Resting(docs[d].status)
    ensures forall c :: c in rows ==> rows[c].doc in docs && docs[rows[c].doc].status == Done
    ensures forall c :: c in rows ==> (rows[c].dup <==> rows[c].vid.None?)
  {
  }

  lemma OneWaits(docs: map<DocId, Doc>)
    requires IsDocs(docs)
    ensures Waiting(docs, [3])
  {
    assert 3 in [3];
  }

  lemma OneSpot(index: Index)
    requires index.Keys == {0, 1} && index[0] == index[1] == []
    ensures Separated(index, 0.0)
  {
  }

  lemma ExampleConsistent(s: State)
    requires IsExample(s)
    ensures Consistent(s, 0.0)
  {
    RowsDiffer(s.rows);
    StoreAgrees(s);
    StoreMatches(s);
    RowsOfDone(s.docs, s.rows);
    OneSpot(s.index);
  }

  lemma ExampleAgrees(s: State)
    requires IsExample(s)
    ensures Agree(s, 0.0)
  {
    ExampleConsistent(s);
    OneWaits(s.docs);
  }

  lemma OwnedByNewest(rows: Rows)
    requires IsRows(rows)
    ensures OwnedIds(rows, {2}) == {1}
  {
    assert Mapped(rows)[20] == 1;
  }

  lemma NewText(rows: Rows)
    requires IsRows(rows)
    ensures "c" !in CanonicalHashes(rows)
  {
    assert "c"[0] == 'c' && rows[10].hash[0] == 'a' && rows[20].hash[0] == 'b';
  }

  lemma OneKept(s: State)
    requires "c" !in CanonicalHashes(s.rows) && forall v :: v in s.index ==> s.index[v] == []
    ensures KeptOf(s, EXAMPLE_JOB, EXAMPLE_CONFIG) == [0]
  {
    var drafts: seq<Draft>, existing := EXAMPLE_JOB.drafts, CanonicalHashes(s.rows);
    assert drafts[0].hash == "c";
    assert !ExactDup(drafts, existing, 0);
    assert Kept(drafts, existing, s.index, EXAMPLE_CONFIG.embed, 0.0, 0) == [];
  }

  lemma OneId(base: int)
    requires base >= -1
    ensures NewIds(EXAMPLE_JOB, [0], base).Keys == {30}
  {
  }

  lemma OneIdAssigned(s: State)
    requires IsRows(s.rows) && IsStore(s) && s.queue != [] && Fits(s, EXAMPLE_JOB)
    ensures WorkBatch(s, EXAMPLE_JOB, EXAMPLE_CONFIG).ids.Keys == {30}
  {
    NewText(s.rows);
    OneKept(Apply(s, Dequeue));
    OneId(MaxVid(s.rows + NewRows(s.queue[0], EXAMPLE_JOB, [0])));
  }

  lemma OneForOne(rows: Rows, b: Batch)
    requires IsRows(rows) && b.ids.Keys == {30}
    ensures DoubleCrash(rows, b, 6, {2})
  {
    OwnedByNewest(rows);
    assert |b.ids| == |b.ids.Keys|;
  }

  lemma NewestIsFirst()
    ensures FirstOf([2, 1], (2 + 1) / 2) == {2}
  {
    assert (2 + 1) / 2 == 1 && [2, 1][0] == 2;
  }

  /** Killed once the third document's id is assigned, and again once the newest finished document has lost its
      row and is queued: the next startup counts two vectors and two ids, and leaves the wrong ones. */
  lemma TwoCrashesDisagree(s: State, t: State)
    requires IsExample(s) && CutTwice(s, EXAMPLE_JOB, EXAMPLE_CONFIG, 6, [2, 1], 2, t)
    ensures Agree(s, 0.0) && !Agree(t, 0.0)
  {
    ExampleAgrees(s);
    ExampleCanHappen(s);
    OneIdAssigned(s);
    OneForOne(s.rows, WorkBatch(s, EXAMPLE_JOB, EXAMPLE_CONFIG));
    NewestIsFirst();
    TwoCrashesExactly(s, EXAMPLE_JOB, EXAMPLE_CONFIG, 6, [2, 1], 2, t);
  }

  /** The worker may take the third document, and the loop lists 2 before 1. */
  lemma ExampleCanHappen(s: State)
    requires IsExample(s)
    ensures Enabled(s, Work(EXAMPLE_JOB, None)) && s.queue == [3] && 3 in s.docs && Fits(s, EXAMPLE_JOB)
    ensures NewestFirst(s.docs, Done, [2, 1])
  {
  }

  lemma ExampleOrder(s: State)
    requires IsExample(s) && Enabled(s, Work(EXAMPLE_JOB, None))
    ensures NewestFirst(Replay(s, EffectsOf(s, Work(EXAMPLE_JOB, None), EXAMPLE_CONFIG)[..6 + 1]).docs, Done, [2, 1])
  {
    ExampleCanHappen(s);
    OrderAtCut(s, EXAMPLE_JOB, EXAMPLE_CONFIG, 6, [2, 1]);
  }

  function ExampleState(): State {
    var rows: Rows := map[10 := Row(1, 0, "a", "a", false, Some(0)), 20 := Row(2, 0, "b", "b", false, Some(1))];
    var index: Index := map[0 := [], 1 := []];
    State(
      map[1 := Doc(Done, 0), 2 := Doc(Done, 1), 3 := Doc(Queued, 2)], rows,
      index, index, map[0 := 10, 1 := 20], map[0 := 1, 1 := 2], map[1 := {0}, 2 := {1}],
      Tokenized(NonDuplicates(rows)), [3])
  }

  lemma ExampleExists()
    ensures IsExample(ExampleState())
  {
  }

  lemma EffectsReach(s: State)
    requires IsExample(s) && Enabled(s, Work(EXAMPLE_JOB, None))
    ensures 6 + 1 <= |EffectsOf(s, Work(EXAMPLE_JOB, None), EXAMPLE_CONFIG)|
  {
  }

  /** The two crashes, from a state that exists to one that startup may leave. */
  lemma TwoCrashesCanDisagree() returns (s: State, t: State)
    ensures Agree(s, 0.0) && CutTwice(s, EXAMPLE_JOB, EXAMPLE_CONFIG, 6, [2, 1], 2, t) && !Agree(t, 0.0)
  {
    s := ExampleState();
    ExampleExists();
    ExampleAgrees(s);
    ExampleCanHappen(s);
    ExampleOrder(s);
    EffectsReach(s);
    t := TwoCrashesExist(s, EXAMPLE_JOB, EXAMPLE_CONFIG, 6, [2, 1], 2);
    TwoCrashesDisagree(s, t);
  }
}
