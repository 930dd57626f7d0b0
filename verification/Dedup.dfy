/** Duplicate detection in front of indexing: exact repeats by content hash, near repeats by cosine. */
module Dedup {
  import opened Values
  import opened World
  import opened FaissStore
  import opened Sql

  /** The parts of a draft chunk that indexing looks at. */
  datatype Draft = Draft(text: string, hash: string)

  predicate ExactDup(drafts: seq<Draft>, existing: set<string>, i: nat)
    requires i < |drafts|
  {
    drafts[i].hash in existing || exists j :: 0 <= j < i && drafts[j].hash == drafts[i].hash
  }

  predicate NearIndexed(index: Index, v: Vector, threshold: real) {
    exists k :: k in index && Dot(index[k], v) > threshold
  }

  predicate NearKept(drafts: seq<Draft>, kept: seq<nat>, embed: string -> Vector, v: Vector, threshold: real) {
    exists j :: j in kept && j < |drafts| && Dot(embed(drafts[j].text), v) > threshold
  }

  /** The drafts among the first `n` that will be indexed, in order. */
  function Kept(drafts: seq<Draft>, existing: set<string>, index: Index, embed: string -> Vector,
                threshold: real, n: nat): seq<nat>
    requires n <= |drafts|
  {
    if n == 0 then []
    else
      var kept := Kept(drafts, existing, index, embed, threshold, n - 1);
      var v := embed(drafts[n - 1].text);
      if ExactDup(drafts, existing, n - 1) || NearIndexed(index, v, threshold)
         || NearKept(drafts, kept, embed, v, threshold)
      then kept else kept + [n - 1]
  }

  predicate IncreasingBelow(kept: seq<nat>, n: nat) {
    (forall a :: 0 <= a < |kept| ==> kept[a] < n) && forall a, b :: 0 <= a < b < |kept| ==> kept[a] < kept[b]
  }

  lemma {:induction false} KeptIncreasing(drafts: seq<Draft>, existing: set<string>, index: Index,
                                          embed: string -> Vector, threshold: real, n: nat)
    requires n <= |drafts|
    ensures IncreasingBelow(Kept(drafts, existing, index, embed, threshold, n), n)
  {
    if n == 0 {
    } else {
      KeptIncreasing(drafts, existing, index, embed, threshold, n - 1);
    }
  }

  /** A draft is indexed exactly when its hash is new (to the corpus and to the batch so far) and it
      is within the threshold of every indexed vector and of every earlier kept draft. */
  lemma {:induction false} KeptExactly(drafts: seq<Draft>, existing: set<string>, index: Index,
                                       embed: string -> Vector, threshold: real, n: nat, i: nat)
    requires i < n <= |drafts|
    ensures var kept := Kept(drafts, existing, index, embed, threshold, n);
            i in kept <==>
            && drafts[i].hash !in existing
            && (forall j :: 0 <= j < i ==> drafts[j].hash != drafts[i].hash)
            && (forall k :: k in index ==> Dot(index[k], embed(drafts[i].text)) <= threshold)
            && (forall j :: j in kept && j < i ==> Dot(embed(drafts[j].text), embed(drafts[i].text)) <= threshold)
  {
    var kept, before := Kept(drafts, existing, index, embed, threshold, n),
      Kept(drafts, existing, index, embed, threshold, n - 1);
    KeptIncreasing(drafts, existing, index, embed, threshold, n);
    KeptIncreasing(drafts, existing, index, embed, threshold, n - 1);
    assert kept == before || kept == before + [n - 1];
    if i < n - 1 {
      KeptExactly(drafts, existing, index, embed, threshold, n - 1, i);
      assert i in kept <==> i in before;
      assert forall j :: j < i ==> (j in kept <==> j in before);
    } else {
      assert forall j :: j < i ==> (j in kept <==> j in before);
      assert i !in before;
      if i in kept {
        assert kept == before + [i];
      }
      forall j | j in kept && j < i ensures j in before && j < |drafts| {}
      forall j | j in before ensures j in kept && j < i {}
    }
  }

  predicate Separated(index: Index, threshold: real) {
    forall u, v :: u in index && v in index && u != v ==> Dot(index[u], index[v]) <= threshold
  }

  predicate CanonicalHashesDiffer(rows: Rows) {
    forall a, b :: a in rows && b in rows && a != b && !rows[a].dup && !rows[b].dup ==> rows[a].hash != rows[b].hash
  }

  /** `best` of the kept vectors against a candidate: np.max(np.stack(kept_vecs) @ vec). */
  method MaxSimilarity(kept: seq<Vector>, v: Vector) returns (best: real)
    requires kept != []
    ensures forall i :: 0 <= i < |kept| ==> Dot(kept[i], v) <= best
    ensures exists i :: 0 <= i < |kept| && best == Dot(kept[i], v)
  {
    best := Dot(kept[0], v);
    for i := 1 to |kept|
      invariant forall j :: 0 <= j < i ==> Dot(kept[j], v) <= best
      invariant exists j :: 0 <= j < i && best == Dot(kept[j], v)
    {
      if Dot(kept[i], v) > best {
        best := Dot(kept[i], v);
      }
    }
  }

  /** Asks the store for its best hit only, which decides the question because the store's maps
      match its index. */
  method IsNearIndexed(store: FaissVectorStore, v: Vector, threshold: real) returns (near: bool)
    requires store.Valid()
    ensures near == NearIndexed(store.index, v, threshold)
  {
    var hits := store.Query(v, 1, None);
    ghost var ranking :| store.SelectsFrom(ranking, hits, v, 1, None);
    QueryIsPrefixOfRestrictedRanking(ranking, store.chunkOf, store.docOf, 1, None);
    near := hits != [] && hits[0].score > threshold;
    assert ranking == [] ==> store.index == map[] by {
      if k :| k in store.index { assert k in ranking; }
    }
    if k :| k in store.index && Dot(store.index[k], v) > threshold {
      assert k in ranking;
    }
    if hits != [] {
      assert ranking[0] in store.index;
      assert store.IsHit(ranking[0], v, hits[0]);
    }
  }

  method ExactFlags(drafts: seq<Draft>, existing: set<string>) returns (flags: seq<bool>)
    ensures |flags| == |drafts| && forall i :: 0 <= i < |flags| ==> flags[i] == ExactDup(drafts, existing, i)
  {
    flags := [];
    var seen: set<string> := {};
    for i := 0 to |drafts|
      invariant |flags| == i && forall j :: 0 <= j < i ==> flags[j] == ExactDup(drafts, existing, j)
      invariant forall h :: h in seen ==> exists j :: 0 <= j < i && drafts[j].hash == h
      invariant forall j :: 0 <= j < i ==> drafts[j].hash in seen || drafts[j].hash in existing
    {
      var dup := drafts[i].hash in existing || drafts[i].hash in seen;
      if !dup {
        seen := seen + {drafts[i].hash};
      }
      flags := flags + [dup];
    }
  }

  /** The hashes already stored, looked up once, then the flags. */
  method FlagExact(drafts: seq<Draft>, db: Database) returns (flags: seq<bool>)
    ensures |flags| == |drafts|
    ensures forall i :: 0 <= i < |flags| ==> flags[i] == ExactDup(drafts, CanonicalHashes(db.rows), i)
  {
    var hashes := set i | 0 <= i < |drafts| :: drafts[i].hash;
    var existing := db.ExistingContentHashes(hashes);
    flags := ExactFlags(drafts, existing);
    assert forall i :: 0 <= i < |drafts| ==> drafts[i].hash in hashes;
    assert forall h :: h in existing <==> h in hashes && h in CanonicalHashes(db.rows);
    assert forall i :: 0 <= i < |drafts| ==> flags[i] == ExactDup(drafts, CanonicalHashes(db.rows), i);
  }

  /** One draft: flagged already, near something, or kept. */
  method DecideDraft(drafts: seq<Draft>, store: FaissVectorStore, embed: string -> Vector, threshold: real, i: nat,
                     flags: seq<bool>, kept: seq<nat>, vectors: seq<Vector>, ghost existing: set<string>)
    returns (flags': seq<bool>, kept': seq<nat>, vectors': seq<Vector>)
    requires store.Valid() && i < |drafts| && kept == Kept(drafts, existing, store.index, embed, threshold, i)
    requires FlagsAfter(flags, kept, drafts, existing, i) && AreVectorsOf(vectors, kept, drafts, i, embed)
    ensures kept' == Kept(drafts, existing, store.index, embed, threshold, i + 1)
    ensures FlagsAfter(flags', kept', drafts, existing, i + 1) && AreVectorsOf(vectors', kept', drafts, i + 1, embed)
  {
    flags', kept', vectors' := flags, kept, vectors;
    FlagsStep(flags, kept, drafts, existing, i);
    if !flags[i] {
      var v := embed(drafts[i].text);
      var near := IsNear(store, drafts, kept, vectors, v, embed, threshold);
      if near {
        flags' := flags[i := true];
      } else {
        kept', vectors' := kept + [i], vectors + [v];
      }
    }
  }

  /** Exact duplicates first, then one pass for near duplicates: against the index, then against the
      vectors kept so far. `embed` stands for the embedding model. */
  method DedupAndEmbed(drafts: seq<Draft>, db: Database, store: FaissVectorStore, embed: string -> Vector,
                       threshold: real)
    returns (flags: seq<bool>, kept: seq<nat>, vectors: seq<Vector>)
    requires store.Valid()
    ensures kept == Kept(drafts, CanonicalHashes(db.rows), store.index, embed, threshold, |drafts|)
    ensures |flags| == |drafts| && forall i :: 0 <= i < |flags| ==> flags[i] == (i !in kept)
    ensures AreVectorsOf(vectors, kept, drafts, |drafts|, embed)
  {
    ghost var canonical := CanonicalHashes(db.rows);
    flags := FlagExact(drafts, db);
    kept, vectors := [], [];
    for i := 0 to |drafts|
      invariant kept == Kept(drafts, canonical, store.index, embed, threshold, i)
      invariant FlagsAfter(flags, kept, drafts, canonical, i)
      invariant AreVectorsOf(vectors, kept, drafts, i, embed)
    {
      flags, kept, vectors := DecideDraft(drafts, store, embed, threshold, i, flags, kept, vectors, canonical);
    }
  }

  /** Final for the first `n` drafts, exact repeats only for the rest. */
  ghost predicate FlagsAfter(flags: seq<bool>, kept: seq<nat>, drafts: seq<Draft>, existing: set<string>, n: nat)
    requires n <= |drafts|
  {
    && |flags| == |drafts|
    && (forall j :: 0 <= j < |kept| ==> kept[j] < n)
    && (forall j :: 0 <= j < n ==> flags[j] == (j !in kept))
    && forall j :: n <= j < |drafts| ==> flags[j] == ExactDup(drafts, existing, j)
  }

  lemma FlagsStep(flags: seq<bool>, kept: seq<nat>, drafts: seq<Draft>, existing: set<string>, i: nat)
    requires i < |drafts| && FlagsAfter(flags, kept, drafts, existing, i)
    ensures flags[i] ==> FlagsAfter(flags, kept, drafts, existing, i + 1)
    ensures !flags[i] ==> FlagsAfter(flags[i := true], kept, drafts, existing, i + 1)
    ensures !flags[i] ==> FlagsAfter(flags, kept + [i], drafts, existing, i + 1)
  {
    assert i !in kept;
    assert forall j :: j in kept + [i] <==> j in kept || j == i;
  }

  ghost predicate AreVectorsOf(vectors: seq<Vector>, kept: seq<nat>, drafts: seq<Draft>, n: nat,
                               embed: string -> Vector)
    requires n <= |drafts|
  {
    && |vectors| == |kept|
    && (forall j :: 0 <= j < |kept| ==> kept[j] < n)
    && forall j :: 0 <= j < |kept| ==> vectors[j] == embed(drafts[kept[j]].text)
  }

  method IsNear(store: FaissVectorStore, drafts: seq<Draft>, ghost kept: seq<nat>, vectors: seq<Vector>, v: Vector,
                embed: string -> Vector, threshold: real) returns (near: bool)
    requires store.Valid()
    requires AreVectorsOf(vectors, kept, drafts, |drafts|, embed)
    ensures near == (NearIndexed(store.index, v, threshold) || NearKept(drafts, kept, embed, v, threshold))
  {
    near := IsNearIndexed(store, v, threshold);
    if !near && vectors != [] {
      var best := MaxSimilarity(vectors, v);
      near := best > threshold;
      if near {
        var j :| 0 <= j < |vectors| && best == Dot(vectors[j], v);
        assert kept[j] in kept;
      }
    }
  }
}
