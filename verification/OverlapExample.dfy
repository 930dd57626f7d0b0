/** Two deletes that fall into a run and are not as harmless as they look. */
module OverlapExample {
  import opened Values
  import opened World
  import opened Sql
  import opened Invariants
  import opened Pipeline
  import opened PipelineProof
  import opened Runs
  import opened ResetExample
  import opened Overlap
  import opened OverlapProof
  import opened IdReuse

  ghost predicate Fitting(s: State) {
    Fits(s, EXAMPLE_JOB)
  }

  ghost function ExampleBatch(s: State): Batch
    requires Fitting(s)
  {
    BatchOf(s, 3, EXAMPLE_JOB, EXAMPLE_CONFIG)
  }

  lemma ExampleReady(s: State)
    requires Consistent(s, 0.0) && Fitting(s) && 3 in s.docs && s.docs[3].status == Queued
    ensures Ready(s, 3, ExampleBatch(s), 0.0)
  {
    BatchIsGood(s, 3, EXAMPLE_JOB, EXAMPLE_CONFIG);
  }

  lemma OneText(s: State)
    requires IsRows(s.rows) && IsStore(s) && Fitting(s)
    ensures 30 in ExampleBatch(s).texts
  {
    NewText(s.rows);
    OneKept(s);
  }

  lemma StaleTexts(s: State) returns (stale: Race, clean: Race)
    requires IsExample(s) && Fitting(s)
    ensures Agree(s, 0.0) && Scheduled(stale, s, 3, 3, ExampleBatch(s)) && Scheduled(clean, s, 3, 3, ExampleBatch(s))
    ensures Over(stale) && stale.goneAt == 8 && !Consistent(stale.s, 0.0)
    ensures Over(clean) && clean.goneAt == 8 && Consistent(clean.s, 0.0)
  {
    ExampleAgrees(s);
    ExampleReady(s);
    OneText(s);
    stale := DeletedBetweenExactly(8, 8, s, 3, ExampleBatch(s), 0.0);
    clean := DeletedBetweenExactly(8, 10, s, 3, ExampleBatch(s), 0.0);
  }

  // ---- an id in both hands

  /** The corpus without the second document. */
  function WithoutTwo(s: State): State {
    DeletingAt(s, 2, DELETE_LENGTH)
  }

  lemma WhatIsLeft(s: State)
    requires IsExample(s)
    ensures var t := WithoutTwo(s);
            && t.rows.Keys == {10} && t.rows[10] == s.rows[10] && t.index.Keys == {0} && t.index[0] == []
            && 3 in t.docs && t.docs[3].status == Queued && VidsOf(s.vidsOf, 2) == {1}
  {
  }

  lemma StillNewText(rows: Rows)
    requires rows.Keys == {10} && rows[10].hash == "a"
    ensures "c" !in CanonicalHashes(rows)
  {
    assert "c"[0] == 'c' && rows[10].hash[0] == 'a';
  }

  lemma LargestIsZero(rows: Rows, new': Rows)
    requires rows.Keys == {10} && rows[10].vid == Some(0) && new'.Keys == {30} && new'[30].vid == None
    ensures MaxVid(rows + new') == 0
  {
    assert (rows + new')[10].vid == Some(0);
    MaxVidUnique(rows + new', 0);
  }

  lemma SecondIdAgain(s: State)
    requires IsExample(s) && Fitting(WithoutTwo(s))
    ensures 30 in ExampleBatch(WithoutTwo(s)).ids && ExampleBatch(WithoutTwo(s)).ids[30] == 1
  {
    var t := WithoutTwo(s);
    WhatIsLeft(s);
    StillNewText(t.rows);
    OneKept(t);
    LargestIsZero(t.rows, NewRows(3, EXAMPLE_JOB, [0]));
    NewIdIsOne();
  }

  lemma NewIdIsOne()
    ensures 30 in NewIds(EXAMPLE_JOB, [0], 0) && NewIds(EXAMPLE_JOB, [0], 0)[30] == 1
  {
  }

  lemma ExampleIsWoven(s: State)
    requires IsExample(s) && Fitting(WithoutTwo(s))
    ensures Woven(s, 3, 2, ExampleBatch(WithoutTwo(s)), 0.0)
  {
    ExampleConsistent(s);
    DeleteIsConsistent(s, 2, 0.0);
    WhatIsLeft(s);
    ExampleReady(WithoutTwo(s));
  }

  /** The row goes before the run's first write, the rest of the delete comes after its last. */
  lemma PurgedLast(s: State, d: DocId, e: DocId, b: Batch) returns (r: Race)
    requires d != e
    ensures Scheduled(r, s, d, e, b) && Over(r) && r.worker == Run(PIPELINE_LENGTH)
    ensures r.goneAt == 0 && r.purgedAt == PIPELINE_LENGTH
  {
    ScheduledStart(s, d, e, b);
    r := DeleteOn(Start(s), 2, s, d, e, b);
    r := WriteOn(r, PIPELINE_LENGTH, s, d, e, b);
    r := DeleteOn(r, DELETE_STEPS, s, d, e, b);
  }

  lemma ReusedId(s: State) returns (r: Race)
    requires IsExample(s) && Fitting(WithoutTwo(s))
    ensures Agree(s, 0.0) && Scheduled(r, s, 3, 2, ExampleBatch(WithoutTwo(s)))
    ensures Over(r) && r.worker.Run? && !Consistent(r.s, 0.0)
  {
    var b := ExampleBatch(WithoutTwo(s));
    ExampleAgrees(s);
    ExampleIsWoven(s);
    SecondIdAgain(s);
    WhatIsLeft(s);
    r := PurgedLast(s, 3, 2, b);
    assert 1 in b.ids.Values by { assert b.ids[30] == 1; }
    WovenIsConsistentExactly(r, s, 3, 2, b, 0.0);
  }

  // ---- on a state that exists

  lemma ExampleFits()
    ensures IsExample(ExampleState()) && Fitting(ExampleState()) && Fitting(WithoutTwo(ExampleState()))
  {
    ExampleExists();
    JobFits(ExampleState());
    WhatIsLeft(ExampleState());
    JobFits(WithoutTwo(ExampleState()));
  }

  lemma JobFits(s: State)
    requires 30 !in s.rows
    ensures Fitting(s)
  {
  }

  /** The document being ingested is deleted while its vectors are stored. If the delete is through with the search
      index before the run adds the one text to it, the text stays, of a document that no longer exists; if it comes
      to the search index last, everything ends as if the document had never been. */
  lemma StaleTextExample() returns (s: State, b: Batch, stale: Race, clean: Race)
    ensures Agree(s, 0.0) && Fitting(s) && b == ExampleBatch(s)
    ensures Scheduled(stale, s, 3, 3, b) && Over(stale) && stale.goneAt == 8 && !Consistent(stale.s, 0.0)
    ensures Scheduled(clean, s, 3, 3, b) && Over(clean) && clean.goneAt == 8 && Consistent(clean.s, 0.0)
  {
    ExampleFits();
    s := ExampleState();
    b := ExampleBatch(s);
    stale, clean := StaleTexts(s);
  }

  /** The second document's row is gone when the worker allocates, so its id 1 is given out again; the delete then
      takes 1 out of the store, and with it the new document's only vector. */
  lemma ReusedIdExample() returns (s: State, b: Batch, r: Race)
    ensures Agree(s, 0.0) && Fitting(WithoutTwo(s)) && b == ExampleBatch(WithoutTwo(s))
    ensures Scheduled(r, s, 3, 2, b) && Over(r) && r.worker.Run? && !Consistent(r.s, 0.0)
  {
    ExampleFits();
    s := ExampleState();
    b := ExampleBatch(WithoutTwo(s));
    r := ReusedId(s);
  }
}
