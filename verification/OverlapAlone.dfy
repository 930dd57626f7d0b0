/** Left to itself, each side of the race does what it does without the other: the machine's steps are the writes of
    the delete and of the failure handler, in their order. */
module OverlapAlone {
  import opened Values
  import opened World
  import opened Pipeline
  import opened PipelineProof
  import opened Runs
  import opened Overlap

  /** After `k` steps of the delete and nothing else. */
  function Deletions(r: Race, d: DocId, e: DocId, k: nat): (r': Race)
    requires r.stage == 0 && k <= DELETE_STEPS
    ensures r'.stage == k
  {
    if k == 0 then r else Deleted(Deletions(r, d, e, k - 1), d, e)
  }

  /** Listing the chunks writes nothing, and taking the vectors out of the store is two writes. */
  function DeleteWrites(k: nat): nat {
    if k <= 1 then 0 else if k <= 3 then k - 1 else k
  }

  predicate Deleting(s: State, r: Race, e: DocId, k: nat)
    requires k <= DELETE_STEPS
  {
    && r.stage == k && r.s == DeletingAt(s, e, DeleteWrites(k))
    && (k >= 1 ==> r.listed == ChunksOfDoc(s.rows, e)) && (k >= 3 ==> r.taken == VidsOf(s.vidsOf, e))
  }

  lemma TablesDeleted(s: State, r: Race, d: DocId, e: DocId, k: nat)
    requires e in s.docs && k < 3 && Deleting(s, r, e, k)
    ensures Deleting(s, Deleted(r, d, e), e, k + 1)
  {
  }

  lemma StoreDeleted(s: State, r: Race, d: DocId, e: DocId, k: nat)
    requires e in s.docs && 3 <= k < DELETE_STEPS && Deleting(s, r, e, k)
    ensures Deleting(s, Deleted(r, d, e), e, k + 1)
  {
  }

  lemma {:induction false} DeletionsAre(s: State, d: DocId, e: DocId, k: nat)
    requires e in s.docs && k <= DELETE_STEPS
    ensures Deleting(s, Deletions(Start(s), d, e, k), e, k)
  {
    if k > 0 {
      var r := Deletions(Start(s), d, e, k - 1);
      DeletionsAre(s, d, e, k - 1);
      if k <= 3 { TablesDeleted(s, r, d, e, k - 1); } else { StoreDeleted(s, r, d, e, k - 1); }
    }
  }

  /** The delete alone is the listed writes of a delete, step by step. */
  lemma DeleteAlone(s: State, d: DocId, e: DocId, k: nat)
    requires e in s.docs && k <= DELETE_STEPS
    ensures Deletions(Start(s), d, e, k).s == Replay(s, DeleteEffects(s, e)[..DeleteWrites(k)])
  {
    DeletionsAre(s, d, e, k);
    DeleteReaches(s, e, DeleteWrites(k));
  }

  /** After `h` steps of the failure handler and nothing else. */
  function Handled(r: Race, d: DocId, h: nat): (r': Race)
    requires r.worker == Handle(0) && h <= HANDLER_STEPS
    ensures r'.worker == Handle(h)
  {
    if h == 0 then r else Cleaned(Handled(r, d, h - 1), d)
  }

  function HandlerWrites(h: nat): nat {
    if h <= 1 then h else if h <= 3 then h + 1 else h
  }

  predicate Handling(t: State, r: Race, d: DocId, h: nat)
    requires h <= HANDLER_STEPS
  {
    && r.worker == Handle(h) && r.s == CleaningAt(t, d, HandlerWrites(h))
    && (h >= 1 ==> r.vids == VidsOf(t.vidsOf, d)) && (h >= 4 ==> r.rows == ChunksOfDoc(t.rows, d))
  }

  lemma StoreHandled(t: State, r: Race, d: DocId, h: nat)
    requires h < 3 && Handling(t, r, d, h)
    ensures Handling(t, Cleaned(r, d), d, h + 1)
  {
  }

  lemma TablesHandled(t: State, r: Race, d: DocId, h: nat)
    requires 3 <= h < HANDLER_STEPS && Handling(t, r, d, h)
    ensures Handling(t, Cleaned(r, d), d, h + 1)
  {
  }

  lemma {:induction false} HandledIs(r: Race, d: DocId, h: nat)
    requires r.worker == Handle(0) && h <= HANDLER_STEPS
    ensures Handling(r.s, Handled(r, d, h), d, h)
  {
    if h > 0 {
      HandledIs(r, d, h - 1);
      var before := Handled(r, d, h - 1);
      if h <= 3 { StoreHandled(r.s, before, d, h - 1); } else { TablesHandled(r.s, before, d, h - 1); }
    }
  }

  /** The handler alone is the listed writes of a clean-up, from whatever state the exception left. */
  lemma HandlerAlone(r: Race, d: DocId, h: nat)
    requires r.worker == Handle(0) && h <= HANDLER_STEPS
    ensures Handled(r, d, h).s == Replay(r.s, CleanupEffects(r.s, d)[..HandlerWrites(h)])
  {
    HandledIs(r, d, h);
    CleanupReaches(r.s, d, HandlerWrites(h));
  }

  /** After `p` writes of the run and nothing else. */
  function Writings(r: Race, d: DocId, b: Batch, p: nat): (r': Race)
    requires r.worker == Run(0) && p <= PIPELINE_LENGTH
    ensures r'.worker == Run(p)
  {
    if p == 0 then r else Written(Writings(r, d, b, p - 1), d, b)
  }

  lemma {:induction false} RunAlone(s: State, d: DocId, b: Batch, p: nat)
    requires p <= PIPELINE_LENGTH
    ensures Writings(Start(s), d, b, p).s == Replay(s, PipelineEffects(d, b)[..p])
  {
    if p > 0 {
      RunAlone(s, d, b, p - 1);
      ReplayOneMore(s, PipelineEffects(d, b), p);
    }
  }
}
