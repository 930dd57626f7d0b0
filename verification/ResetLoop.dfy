/** What a startup that is cut itself leaves behind: rows of some documents gone, some of those queued again,
    the index file as it was. Exactly which cuts the next startup does not repair. */
module ResetLoop {
  import opened Values
  import opened World
  import opened Invariants
  import opened Pipeline
  import opened PipelineProof
  import opened Recovery
  import opened Runs

  // ---- any cut startup

  /** Assigned ids that the index file does not hold. */
  function Missing(s: State): set<VectorId> {
    Mapped(s.rows).Values - s.file.Keys
  }

  /** A startup writes nothing but SQL until its last step. */
  function CutStartup(s: State, dropped: set<DocId>, requeued: set<DocId>): State {
    s.(docs := Requeue(s.docs, requeued), rows := Without(s.rows, dropped), index := s.file)
  }

  /** The dropped documents owned as many ids as the file lacked, and not the same ones. */
  predicate Masks(s: State, dropped: set<DocId>) {
    |OwnedIds(s.rows, dropped)| == |Missing(s)| && OwnedIds(s.rows, dropped) != Missing(s)
  }

  lemma DifferenceSize<T>(a: set<T>, b: set<T>)
    requires b <= a
    ensures |a - b| == |a| - |b|
  {
    assert a == b + (a - b);
  }

  /** Taking `owned` away from `assigned` gives another set of the same size as `stored` exactly when `owned`
      is as large as what `stored` lacked, and something else. */
  lemma SameSizeOtherSet<T>(stored: set<T>, taken: set<T>, owned: set<T>)
    requires owned <= taken && (taken <= stored || stored <= taken)
    ensures |stored| == |taken - owned| && stored != taken - owned
            <==> |owned| == |taken - stored| && owned != taken - stored
  {
    DifferenceSize(taken, owned);
    if stored <= taken {
      DifferenceSize(taken, stored);
      if owned == taken - stored { assert taken - owned == stored; }
      if stored == taken - owned { assert taken - stored == owned; }
    } else {
      assert taken - stored == {};
      if |stored| == |taken - owned| { SubsetOfEqualSize(taken - owned, stored); }
    }
  }

  lemma CountOfMapped(rows: Rows)
    requires VidsUnique(rows)
    ensures |Mapped(rows)| == |Mapped(rows).Values|
  {
    InjectiveImageSize(Mapped(rows));
  }

  lemma RestMapped(rows: Rows, ds: set<DocId>)
    requires VidsUnique(rows)
    ensures Mapped(Without(rows, ds)).Values == Mapped(rows).Values - OwnedIds(rows, ds)
    ensures OwnedIds(rows, ds) <= Mapped(rows).Values && VidsUnique(Without(rows, ds))
  {
    forall v ensures v in Mapped(Without(rows, ds)).Values <==> v in Mapped(rows).Values - OwnedIds(rows, ds) {
      WithoutMapped(rows, ds, v);
    }
  }

  lemma KeyCount(file: Index)
    ensures |file| == |file.Keys|
  {
  }

  /** The count check passes wrong sets exactly at these cuts. */
  lemma CountCheckFooledExactly(s: State, threshold: real, dropped: set<DocId>, requeued: set<DocId>)
    requires Recoverable(s, threshold)
    ensures var cut := CutStartup(s, dropped, requeued);
            !NeedsReset(cut) && cut.file.Keys != Mapped(cut.rows).Values <==> Masks(s, dropped)
  {
    RestMapped(s.rows, dropped);
    CountOfMapped(Without(s.rows, dropped));
    KeyCount(s.file);
    SameSizeOtherSet(s.file.Keys, Mapped(s.rows).Values, OwnedIds(s.rows, dropped));
  }

  lemma StrayVector(a: set<VectorId>, b: set<VectorId>) returns (v: VectorId)
    requires |a| == |b| && a != b
    ensures v in a && v !in b
  {
    if a <= b { SubsetOfEqualSize(a, b); }
    v :| v in a && v !in b;
  }

  /** Once fooled, a startup leaves a vector in the index that no row owns. */
  lemma FooledStartup(s: State, t: State, threshold: real)
    requires VidsUnique(s.rows) && Restarted(s, t) && !NeedsReset(s) && s.file.Keys != Mapped(s.rows).Values
    ensures !Agree(t, threshold)
  {
    CountOfMapped(s.rows);
    assert |s.file| == |s.file.Keys|;
    var v := StrayVector(s.file.Keys, Mapped(s.rows).Values);
    var dropped := Dropped(s.docs, false);
    RestMapped(s.rows, dropped);
    LoadedKeys(t.rows, t.chunkOf, t.docOf, t.vidsOf);
    assert v in t.index && v !in t.chunkOf;
  }

  lemma CutStartupRows(s: State, threshold: real, dropped: set<DocId>, requeued: set<DocId>)
    requires Recoverable(s, threshold) && requeued <= dropped && !Masks(s, dropped)
    ensures Repairable(CutStartup(s, dropped, requeued), threshold)
  {
    FewerRows(s.rows, s.docs, dropped, requeued);
    CountCheckFooledExactly(s, threshold, dropped, requeued);
  }

  /** Two crashes: from whatever the first can leave, with the startup after it cut wherever it may be, the next
      startup restores agreement if and only if the ids lost with the dropped rows do not make up in number for
      the ids that the file lacked. */
  lemma SecondStartupExactly(s: State, threshold: real, dropped: set<DocId>, requeued: set<DocId>, t: State)
    requires Recoverable(s, threshold) && requeued <= dropped && Restarted(CutStartup(s, dropped, requeued), t)
    ensures Agree(t, threshold) <==> !Masks(s, dropped)
  {
    var cut := CutStartup(s, dropped, requeued);
    if Masks(s, dropped) {
      CountCheckFooledExactly(s, threshold, dropped, requeued);
      RestMapped(s.rows, dropped);
      FooledStartup(cut, t, threshold);
    } else {
      CutStartupRows(s, threshold, dropped, requeued);
      RepairableIsRepaired(cut, t, threshold);
    }
  }

  // ---- the reset loop

  lemma RequeueOne(docs: map<DocId, Doc>, ds: set<DocId>, d: DocId)
    ensures WithStatus(Requeue(docs, ds), d, Queued) == Requeue(docs, ds + {d})
  {
  }

  lemma DropOne(rows: Rows, ds: set<DocId>, d: DocId)
    ensures Others(Without(rows, ds), d) == Without(rows, ds + {d})
  {
  }

  function FirstOf(ds: seq<DocId>, n: nat): set<DocId>
    requires n <= |ds|
  {
    set i | 0 <= i < n :: ds[i]
  }

  lemma NothingDropped(docs: map<DocId, Doc>, rows: Rows)
    ensures Requeue(docs, {}) == docs && Without(rows, {}) == rows
  {
  }

  /** The documents with one status, newest first, as the repository lists them. */
  ghost predicate NewestFirst(docs: map<DocId, Doc>, st: Status, ds: seq<DocId>) {
    && Distinct(ds)
    && (forall d :: d in ds <==> d in docs && docs[d].status == st)
    && forall i, j :: 0 <= i < j < |ds| ==> docs[ds[i]].created >= docs[ds[j]].created
  }

  /** Rows first, then the status. */
  function ResetEffects(order: seq<DocId>): (es: seq<Effect>)
    ensures |es| == 2 * |order|
  {
    if order == [] then []
    else
      var d := order[|order| - 1];
      ResetEffects(order[..|order| - 1]) + [DeleteRows(d), SetStatus(d, Queued)]
  }

  lemma FirstOfPrefix(order: seq<DocId>, m: nat, n: nat)
    requires n <= m <= |order|
    ensures FirstOf(order[..m], n) == FirstOf(order, n)
  {
  }

  lemma FirstOfNext(order: seq<DocId>, n: nat)
    requires n < |order|
    ensures FirstOf(order, n + 1) == FirstOf(order, n) + {order[n]}
  {
  }

  function ResetTo(s: State, dropped: set<DocId>, requeued: set<DocId>): State {
    s.(docs := Requeue(s.docs, requeued), rows := Without(s.rows, dropped))
  }

  lemma DropNext(s: State, ds: set<DocId>, d: DocId)
    ensures Apply(ResetTo(s, ds, ds), DeleteRows(d)) == ResetTo(s, ds + {d}, ds)
    ensures Apply(ResetTo(s, ds + {d}, ds), SetStatus(d, Queued)) == ResetTo(s, ds + {d}, ds + {d})
  {
    DropOne(s.rows, ds, d);
    RequeueOne(s.docs, ds, d);
  }

  lemma {:induction false} ResetAll(s: State, order: seq<DocId>)
    ensures Replay(s, ResetEffects(order)) == ResetTo(s, FirstOf(order, |order|), FirstOf(order, |order|))
  {
    if order == [] {
      NothingDropped(s.docs, s.rows);
      assert FirstOf(order, 0) == {};
    } else {
      var n := |order| - 1;
      ResetAll(s, order[..n]);
      FirstOfPrefix(order, n, n);
      FirstOfNext(order, n);
      ReplayTwo(s, ResetEffects(order[..n]), DeleteRows(order[n]), SetStatus(order[n], Queued));
      DropNext(s, FirstOf(order, n), order[n]);
    }
  }

  lemma {:induction false} ResetPrefix(order: seq<DocId>, n: nat)
    requires n <= |order|
    ensures ResetEffects(order)[..2 * n] == ResetEffects(order[..n])
    ensures n < |order| ==> ResetEffects(order)[..2 * n + 1] == ResetEffects(order[..n]) + [DeleteRows(order[n])]
  {
    if n == |order| {
      assert order[..n] == order;
    } else if n == |order| - 1 {
    } else {
      var init := order[..|order| - 1];
      ResetPrefix(init, n);
      assert init[..n] == order[..n] && init[n] == order[n];
    }
  }

  lemma ResetEven(s: State, order: seq<DocId>, n: nat)
    requires n <= |order|
    ensures Replay(s, ResetEffects(order)[..2 * n]) == ResetTo(s, FirstOf(order, n), FirstOf(order, n))
  {
    ResetPrefix(order, n);
    ResetAll(s, order[..n]);
    FirstOfPrefix(order, n, n);
  }

  lemma ResetOdd(s: State, order: seq<DocId>, n: nat)
    requires n < |order|
    ensures Replay(s, ResetEffects(order)[..2 * n + 1]) == ResetTo(s, FirstOf(order, n + 1), FirstOf(order, n))
  {
    ResetEven(s, order, n);
    ResetPrefix(order, n);
    ReplayStep(s, ResetEffects(order)[..2 * n], DeleteRows(order[n]));
    DropNext(s, FirstOf(order, n), order[n]);
    FirstOfNext(order, n);
  }

  lemma ResetReaches(s: State, order: seq<DocId>, k: nat)
    requires k <= 2 * |order|
    ensures Replay(s, ResetEffects(order)[..k]) == ResetTo(s, FirstOf(order, (k + 1) / 2), FirstOf(order, k / 2))
  {
    var n := k / 2;
    if k == 2 * n {
      assert (k + 1) / 2 == n;
      ResetEven(s, order, n);
    } else {
      assert k == 2 * n + 1 && (k + 1) / 2 == n + 1;
      ResetOdd(s, order, n);
    }
  }

  /** Wherever the reset loop is cut, what it leaves is a startup cut in the sense above. */
  lemma ResetCutIsCutStartup(s: State, order: seq<DocId>, k: nat)
    requires k <= 2 * |order| && s.index == s.file
    ensures Replay(s, ResetEffects(order)[..k]) == CutStartup(s, FirstOf(order, (k + 1) / 2), FirstOf(order, k / 2))
    ensures FirstOf(order, k / 2) <= FirstOf(order, (k + 1) / 2)
  {
    ResetReaches(s, order, k);
  }

  // ---- after a worker run was cut

  lemma NothingMissing(s: State, threshold: real)
    requires Consistent(s, threshold)
    ensures Mapped(s.rows).Values == s.file.Keys
  {
    BijectionCoversIndex(s.rows, s.chunkOf, s.docOf);
  }

  lemma MissingWithoutIds(s: State, d: DocId, b: Batch, threshold: real, k: nat)
    requires Ready(s, d, b, threshold) && k < 6
    ensures Missing(At(s, d, b, k)) == {}
  {
    NothingMissing(s, threshold);
    UnmappedJoin(s.rows, b.rows);
  }

  lemma MissingWithIds(s: State, d: DocId, b: Batch, threshold: real, k: nat)
    requires Ready(s, d, b, threshold) && 6 <= k <= PIPELINE_LENGTH
    ensures Missing(At(s, d, b, k)) == if k < 9 then b.ids.Values else {}
  {
    ReadyJoins(s, d, b, threshold);
    ReadyIds(s, d, b, threshold);
    JoinedMappedValues(s.rows, b.rows, b.ids, d);
    assert Vectors(s, b).Keys == s.index.Keys + b.ids.Values;
  }

  lemma JoinedOwned(old': Rows, new': Rows, ids: map<ChunkId, VectorId>, d: DocId, done: set<DocId>)
    requires Joins(old', new', ids, d) && d !in done
    ensures OwnedIds(WithIds(old' + new', ids), done) == OwnedIds(old', done)
  {
    var rows := WithIds(old' + new', ids);
    forall v ensures v in OwnedIds(rows, done) <==> v in OwnedIds(old', done) {
      if v in OwnedIds(rows, done) {
        var c :| c in Mapped(rows) && rows[c].doc in done && Mapped(rows)[c] == v;
        JoinedAt(old', new', ids, d, c);
        assert c in Mapped(old');
      }
      if v in OwnedIds(old', done) {
        var c :| c in Mapped(old') && old'[c].doc in done && Mapped(old')[c] == v;
        JoinedAt(old', new', ids, d, c);
        assert c in Mapped(rows);
      }
    }
  }

  lemma UnmappedOwned(old': Rows, new': Rows, done: set<DocId>)
    requires forall c :: c in new' ==> c !in old' && new'[c].vid == None
    ensures OwnedIds(old' + new', done) == OwnedIds(old', done)
  {
    UnmappedJoin(old', new');
    assert forall c :: c in Mapped(old') ==> (old' + new')[c] == old'[c];
  }

  /** Finished documents own none of the ids the run has just assigned. */
  lemma OwnedBefore(s: State, d: DocId, b: Batch, threshold: real, k: nat, done: set<DocId>)
    requires Ready(s, d, b, threshold) && k <= PIPELINE_LENGTH && d !in done
    ensures OwnedIds(At(s, d, b, k).rows, done) == OwnedIds(s.rows, done)
  {
    ReadyJoins(s, d, b, threshold);
    if k >= 6 { JoinedOwned(s.rows, b.rows, b.ids, d, done); } else { UnmappedOwned(s.rows, b.rows, done); }
  }

  lemma OwnedAreOld(s: State, d: DocId, b: Batch, threshold: real, done: set<DocId>)
    requires Ready(s, d, b, threshold)
    ensures OwnedIds(s.rows, done) !! b.ids.Values
  {
    ReadyIds(s, d, b, threshold);
    RestMapped(s.rows, done);
  }

  lemma IdsCount(s: State, d: DocId, b: Batch)
    requires GoodRecords(s, d, b)
    ensures |b.ids.Values| == |b.ids|
  {
    InjectiveImageSize(b.ids);
  }

  /** A run that was cut with ids assigned but not in the file, and then a reset loop that has dropped documents
      owning as many vectors. */
  predicate DoubleCrash(rows: Rows, b: Batch, k: nat, dropped: set<DocId>) {
    6 <= k < 9 && b.ids != map[] && |OwnedIds(rows, dropped)| == |b.ids|
  }

  lemma RunMasks(s: State, d: DocId, b: Batch, threshold: real, k: nat, dropped: set<DocId>)
    requires Ready(s, d, b, threshold) && k < 9 && d !in dropped
    ensures Masks(At(s, d, b, k), dropped) <==> DoubleCrash(s.rows, b, k, dropped)
  {
    OwnedBefore(s, d, b, threshold, k, dropped);
    OwnedAreOld(s, d, b, threshold, dropped);
    IdsCount(s, d, b);
    if k < 6 { MissingWithoutIds(s, d, b, threshold, k); } else { MissingWithIds(s, d, b, threshold, k); }
  }

  lemma StoredNeverMasks(s: State, d: DocId, b: Batch, threshold: real, k: nat, dropped: set<DocId>)
    requires Ready(s, d, b, threshold) && 9 <= k <= PIPELINE_LENGTH
    ensures !Masks(At(s, d, b, k), dropped)
  {
    MissingWithIds(s, d, b, threshold, k);
  }

  lemma RunMasksExactly(s: State, d: DocId, b: Batch, threshold: real, k: nat, order: seq<DocId>, n: nat)
    requires Ready(s, d, b, threshold) && k <= PIPELINE_LENGTH && n <= |order|
    requires NewestFirst(At(s, d, b, k).docs, Done, order)
    ensures Masks(At(s, d, b, k), FirstOf(order, n)) <==> DoubleCrash(s.rows, b, k, FirstOf(order, n))
  {
    if k < 9 {
      assert d in At(s, d, b, k).docs && At(s, d, b, k).docs[d].status != Done;
      RunMasks(s, d, b, threshold, k, FirstOf(order, n));
    } else {
      StoredNeverMasks(s, d, b, threshold, k, FirstOf(order, n));
    }
  }

  ghost function WorkBatch(s: State, job: Job, cfg: Config): Batch
    requires s.queue != [] && Fits(s, job)
  {
    BatchOf(Apply(s, Dequeue), s.queue[0], job, cfg)
  }

  lemma DequeueKeepsTables(s: State)
    ensures Apply(s, Dequeue).docs == s.docs && Apply(s, Dequeue).rows == s.rows
  {
  }

  lemma CutOfWork(s: State, job: Job, cfg: Config, k: nat)
    requires Enabled(s, Work(job, None)) && s.queue[0] in s.docs && k <= PIPELINE_LENGTH
    ensures Replay(s, EffectsOf(s, Work(job, None), cfg)[..k + 1]) ==
            At(Apply(s, Dequeue), s.queue[0], WorkBatch(s, job, cfg), k)
  {
    var d, b := s.queue[0], WorkBatch(s, job, cfg);
    AfterDequeue(s, PipelineEffects(d, b), k + 1);
    PipelineReaches(Apply(s, Dequeue), d, b, k);
  }

  lemma OrderStays(docs: map<DocId, Doc>, d: DocId, st: Status, order: seq<DocId>)
    requires NewestFirst(docs, Done, order) && d in docs && docs[d].status != Done && st != Done
    ensures NewestFirst(WithStatus(docs, d, st), Done, order)
  {
  }

  lemma OrderAt(s: State, d: DocId, b: Batch, k: nat, order: seq<DocId>)
    requires NewestFirst(s.docs, Done, order) && d in s.docs && s.docs[d].status != Done && k < PIPELINE_LENGTH
    ensures NewestFirst(At(s, d, b, k).docs, Done, order)
  {
    if k > 0 { OrderStays(s.docs, d, StatusAt(k), order); }
  }

  /** Until it finishes, a run does not change what the reset loop lists. */
  lemma OrderAtCut(s: State, job: Job, cfg: Config, k: nat, order: seq<DocId>)
    requires Enabled(s, Work(job, None)) && s.queue[0] in s.docs && s.docs[s.queue[0]].status != Done
    requires NewestFirst(s.docs, Done, order) && k < PIPELINE_LENGTH
    ensures NewestFirst(Replay(s, EffectsOf(s, Work(job, None), cfg)[..k + 1]).docs, Done, order)
  {
    CutOfWork(s, job, cfg, k);
    DequeueKeepsTables(s);
    OrderAt(Apply(s, Dequeue), s.queue[0], WorkBatch(s, job, cfg), k, order);
  }

  /** A worker run killed after `k` of its writes, a startup killed after `m` writes of its reset loop over the
      finished documents, newest first, and then a startup that ends in `t`. */
  ghost predicate CutTwice(s: State, job: Job, cfg: Config, k: nat, order: seq<DocId>, m: nat, t: State) {
    && Enabled(s, Work(job, None)) && k + 1 <= |EffectsOf(s, Work(job, None), cfg)| && m <= 2 * |order|
    && var cut := Replay(s, EffectsOf(s, Work(job, None), cfg)[..k + 1]);
       && NewestFirst(cut.docs, Done, order)
       && Restarted(Replay(cut.(index := cut.file), ResetEffects(order)[..m]), t)
  }

  lemma ReadyTwoCrashes(s: State, d: DocId, b: Batch, threshold: real, k: nat, order: seq<DocId>, m: nat, t: State)
    requires Ready(s, d, b, threshold) && k <= PIPELINE_LENGTH && m <= 2 * |order|
    requires NewestFirst(At(s, d, b, k).docs, Done, order)
    requires var cut := At(s, d, b, k); Restarted(Replay(cut.(index := cut.file), ResetEffects(order)[..m]), t)
    ensures Agree(t, threshold) <==> !DoubleCrash(s.rows, b, k, FirstOf(order, (m + 1) / 2))
  {
    var cut := At(s, d, b, k);
    PrefixIsRecoverable(s, d, b, threshold, k);
    ResetCutIsCutStartup(cut.(index := cut.file), order, m);
    SecondStartupExactly(cut, threshold, FirstOf(order, (m + 1) / 2), FirstOf(order, m / 2), t);
    RunMasksExactly(s, d, b, threshold, k, order, (m + 1) / 2);
  }

  /** Agreement is restored unless the run had assigned ids that the file lacked and the documents reset so far
      owned exactly as many vectors. */
  lemma TwoCrashesExactly(s: State, job: Job, cfg: Config, k: nat, order: seq<DocId>, m: nat, t: State)
    requires Agree(s, cfg.threshold) && s.queue != [] && Fits(s, job) && s.queue[0] in s.docs
    requires CutTwice(s, job, cfg, k, order, m, t)
    ensures Agree(t, cfg.threshold) <==> !DoubleCrash(s.rows, WorkBatch(s, job, cfg), k, FirstOf(order, (m + 1) / 2))
  {
    CutOfWork(s, job, cfg, k);
    WorkIsReady(s, job, cfg);
    var d, after := s.queue[0], Apply(s, Dequeue);
    DequeueKeepsTables(s);
    ReadyTwoCrashes(after, d, WorkBatch(s, job, cfg), cfg.threshold, k, order, m, t);
  }

  lemma FewerRowsUnique(rows: Rows, ds: set<DocId>)
    requires VidsUnique(rows)
    ensures VidsUnique(Without(rows, ds))
  {
  }

  lemma UniqueAfterReset(s: State, order: seq<DocId>, m: nat)
    requires VidsUnique(s.rows) && m <= 2 * |order|
    ensures VidsUnique(Replay(s, ResetEffects(order)[..m]).rows)
  {
    ResetReaches(s, order, m);
    FewerRowsUnique(s.rows, FirstOf(order, (m + 1) / 2));
  }

  /** Every two such crashes have an outcome. */
  lemma TwoCrashesExist(s: State, job: Job, cfg: Config, k: nat, order: seq<DocId>, m: nat) returns (t: State)
    requires Agree(s, cfg.threshold) && Enabled(s, Work(job, None)) && m <= 2 * |order|
    requires k + 1 <= |EffectsOf(s, Work(job, None), cfg)|
    requires NewestFirst(Replay(s, EffectsOf(s, Work(job, None), cfg)[..k + 1]).docs, Done, order)
    ensures CutTwice(s, job, cfg, k, order, m, t)
  {
    var cut := Replay(s, EffectsOf(s, Work(job, None), cfg)[..k + 1]);
    CutIsRecoverable(s, Work(job, None), cfg, k + 1);
    UniqueAfterReset(cut.(index := cut.file), order, m);
    t := RestartExists(Replay(cut.(index := cut.file), ResetEffects(order)[..m]));
  }
}
