/** The FAISS vector store: an index with external ids, its three id maps, and the index file. */
module FaissStore {
  import opened Values
  import opened World

  /** The three maps agree with each other; true even before the startup check has compared them
      with the index. */
  ghost predicate MapsAgree(chunkOf: map<VectorId, ChunkId>, docOf: map<VectorId, DocId>,
                            vidsOf: map<DocId, set<VectorId>>) {
    && chunkOf.Keys == docOf.Keys
    && forall d, v :: v in VidsOf(vidsOf, d) <==> v in docOf && docOf[v] == d
  }

  lemma MapsAgreeAfterMapping(chunkOf: map<VectorId, ChunkId>, docOf: map<VectorId, DocId>,
                              vidsOf: map<DocId, set<VectorId>>, r: Record)
    requires MapsAgree(chunkOf, docOf, vidsOf) && r.vid !in docOf
    ensures MapsAgree(chunkOf[r.vid := r.chunk], docOf[r.vid := r.doc],
                      vidsOf[r.doc := VidsOf(vidsOf, r.doc) + {r.vid}])
  {
    var docOf', vidsOf' := docOf[r.vid := r.doc], vidsOf[r.doc := VidsOf(vidsOf, r.doc) + {r.vid}];
    forall d, v ensures v in VidsOf(vidsOf', d) <==> v in docOf' && docOf'[v] == d {
      assert v in VidsOf(vidsOf, d) <==> v in docOf && docOf[v] == d;
    }
  }

  predicate FreshIds(recs: seq<Record>, taken: set<VectorId>) {
    && (forall i, j :: 0 <= i < j < |recs| ==> recs[i].vid != recs[j].vid)
    && forall i :: 0 <= i < |recs| ==> recs[i].vid !in taken
  }

  lemma AddOneMore(chunkOf: map<VectorId, ChunkId>, docOf: map<VectorId, DocId>,
                   vidsOf: map<DocId, set<VectorId>>, recs: seq<Record>, i: nat)
    requires i < |recs|
    ensures var r, w := recs[i], WithVids(vidsOf, recs[..i]);
            && chunkOf + ChunksOf(recs[..i + 1]) == (chunkOf + ChunksOf(recs[..i]))[r.vid := r.chunk]
            && docOf + OwnersOf(recs[..i + 1]) == (docOf + OwnersOf(recs[..i]))[r.vid := r.doc]
            && WithVids(vidsOf, recs[..i + 1]) == w[r.doc := VidsOf(w, r.doc) + {r.vid}]
  {
    assert recs[..i + 1][..i] == recs[..i];
  }

  lemma FreshIdsStep(recs: seq<Record>, docOf: map<VectorId, DocId>)
    requires recs != [] && FreshIds(recs, docOf.Keys)
    ensures var init := recs[..|recs| - 1];
            FreshIds(init, docOf.Keys) && recs[|recs| - 1].vid !in docOf + OwnersOf(init)
  {
    RecordKeys(recs[..|recs| - 1]);
  }

  lemma {:induction false} MapsAgreeAfterAdd(chunkOf: map<VectorId, ChunkId>, docOf: map<VectorId, DocId>,
                                             vidsOf: map<DocId, set<VectorId>>, recs: seq<Record>)
    requires MapsAgree(chunkOf, docOf, vidsOf) && FreshIds(recs, docOf.Keys)
    ensures MapsAgree(chunkOf + ChunksOf(recs), docOf + OwnersOf(recs), WithVids(vidsOf, recs))
  {
    if recs == [] {
      assert chunkOf + ChunksOf(recs) == chunkOf && docOf + OwnersOf(recs) == docOf;
    } else {
      var init, r := recs[..|recs| - 1], recs[|recs| - 1];
      FreshIdsStep(recs, docOf);
      MapsAgreeAfterAdd(chunkOf, docOf, vidsOf, init);
      AddOneMore(chunkOf, docOf, vidsOf, recs, |init|);
      assert recs[..|recs|] == recs;
      MapsAgreeAfterMapping(chunkOf + ChunksOf(init), docOf + OwnersOf(init), WithVids(vidsOf, init), r);
    }
  }

  lemma MapsAgreeAfterDelete(chunkOf: map<VectorId, ChunkId>, docOf: map<VectorId, DocId>,
                             vidsOf: map<DocId, set<VectorId>>, d: DocId)
    requires MapsAgree(chunkOf, docOf, vidsOf)
    ensures var vids := VidsOf(vidsOf, d); MapsAgree(chunkOf - vids, docOf - vids, vidsOf - {d})
  {
    var vids := VidsOf(vidsOf, d);
    var docOf', vidsOf' := docOf - vids, vidsOf - {d};
    forall e, v ensures v in VidsOf(vidsOf', e) <==> v in docOf' && docOf'[v] == e {
      assert v in VidsOf(vidsOf, e) <==> v in docOf && docOf[v] == e;
      assert v in VidsOf(vidsOf, d) <==> v in docOf && docOf[v] == d;
    }
  }

  // ---- queries

  datatype Hit = Hit(chunk: ChunkId, score: real)

  /** What an exact inner-product search over the whole index returns: every id once, best first. */
  ghost predicate IsRanking(index: Index, q: Vector, ranking: seq<VectorId>) {
    && Distinct(ranking)
    && (forall v :: v in ranking <==> v in index)
    && forall i, j :: 0 <= i < j < |ranking| ==> Dot(index[ranking[i]], q) >= Dot(index[ranking[j]], q)
  }

  predicate Allowed(chunkOf: map<VectorId, ChunkId>, docOf: map<VectorId, DocId>, filter: Option<set<DocId>>,
                    v: VectorId) {
    v in chunkOf && (filter.None? || (v in docOf && docOf[v] in filter.value))
  }

  /** The allowed ids of a ranking, in ranking order. */
  function Matching(ranking: seq<VectorId>, chunkOf: map<VectorId, ChunkId>, docOf: map<VectorId, DocId>,
                    filter: Option<set<DocId>>): (m: seq<VectorId>)
    ensures |m| <= |ranking|
    ensures forall v :: v in m <==> v in ranking && Allowed(chunkOf, docOf, filter, v)
  {
    if ranking == [] then []
    else
      var n := |ranking| - 1;
      assert ranking == ranking[..n] + [ranking[n]];
      Matching(ranking[..n], chunkOf, docOf, filter) +
      if Allowed(chunkOf, docOf, filter, ranking[n]) then [ranking[n]] else []
  }

  function Take<T>(s: seq<T>, n: nat): seq<T> {
    if |s| <= n then s else s[..n]
  }

  function FetchCount(total: nat, topK: nat, filter: Option<set<DocId>>): nat {
    var wanted := topK * if filter.Some? then 4 else 1;
    if total <= wanted then total else wanted
  }

  function HitIds(ranking: seq<VectorId>, chunkOf: map<VectorId, ChunkId>, docOf: map<VectorId, DocId>,
                  topK: nat, filter: Option<set<DocId>>): seq<VectorId> {
    Take(Matching(ranking[..FetchCount(|ranking|, topK, filter)], chunkOf, docOf, filter), topK)
  }

  lemma {:induction false} MatchingPrefix(ranking: seq<VectorId>, n: nat, chunkOf: map<VectorId, ChunkId>,
                                          docOf: map<VectorId, DocId>, filter: Option<set<DocId>>)
    requires n <= |ranking|
    ensures Matching(ranking[..n], chunkOf, docOf, filter) <= Matching(ranking, chunkOf, docOf, filter)
  {
    if n < |ranking| {
      var init := ranking[..|ranking| - 1];
      assert init[..n] == ranking[..n];
      MatchingPrefix(init, n, chunkOf, docOf, filter);
    } else {
      assert ranking[..n] == ranking;
    }
  }

  lemma {:induction false} MatchingAll(ranking: seq<VectorId>, chunkOf: map<VectorId, ChunkId>,
                                       docOf: map<VectorId, DocId>)
    requires forall v :: v in ranking ==> v in chunkOf
    ensures Matching(ranking, chunkOf, docOf, None) == ranking
  {
    if ranking == [] {
    } else {
      var n := |ranking| - 1;
      assert ranking == ranking[..n] + [ranking[n]];
      MatchingAll(ranking[..n], chunkOf, docOf);
    }
  }

  lemma TakeOfPrefix<T>(a: seq<T>, b: seq<T>, n: nat)
    requires a <= b
    ensures Take(a, n) <= b && |Take(a, n)| <= n && (Take(a, n) != Take(b, n) <==> |a| < n && a != b)
  {
  }

  /** A query never reorders or skips: its hits are a prefix of the full ranking restricted to the
      allowed documents. It is the whole top k when four times k covers the index, and falls short
      exactly when the over-fetched window holds fewer allowed vectors than the index does. */
  lemma QueryIsPrefixOfRestrictedRanking(ranking: seq<VectorId>, chunkOf: map<VectorId, ChunkId>,
                                         docOf: map<VectorId, DocId>, topK: nat, filter: Option<set<DocId>>)
    ensures var hits := HitIds(ranking, chunkOf, docOf, topK, filter);
            var full := Matching(ranking, chunkOf, docOf, filter);
            var fetched := Matching(ranking[..FetchCount(|ranking|, topK, filter)], chunkOf, docOf, filter);
            && hits <= full
            && |hits| <= topK
            && (filter.Some? && |ranking| <= 4 * topK ==> hits == Take(full, topK))
            && (hits != Take(full, topK) <==> |fetched| < topK && fetched != full)
    ensures filter.None? && (forall v :: v in ranking ==> v in chunkOf) ==>
              HitIds(ranking, chunkOf, docOf, topK, filter) == Take(ranking, topK)
  {
    var n := FetchCount(|ranking|, topK, filter);
    MatchingPrefix(ranking, n, chunkOf, docOf, filter);
    TakeOfPrefix(Matching(ranking[..n], chunkOf, docOf, filter), Matching(ranking, chunkOf, docOf, filter), topK);
    if filter.Some? && |ranking| <= 4 * topK {
      assert ranking[..n] == ranking;
    }
    if filter.None? && (forall v :: v in ranking ==> v in chunkOf) {
      MatchingAll(ranking[..n], chunkOf, docOf);
      MatchingAll(ranking, chunkOf, docOf);
    }
  }

  /** Which places of a ranking hold allowed ids. */
  function AllowedPlaces(ranking: seq<VectorId>, chunkOf: map<VectorId, ChunkId>, docOf: map<VectorId, DocId>,
                         filter: Option<set<DocId>>): seq<bool> {
    seq(|ranking|, i requires 0 <= i < |ranking| => Allowed(chunkOf, docOf, filter, ranking[i]))
  }

  function CountBefore(flags: seq<bool>, i: nat): nat
    requires i <= |flags|
  {
    if i == 0 then 0 else CountBefore(flags, i - 1) + if flags[i - 1] then 1 else 0
  }

  /** `picked[n]` is what the flags pick among the first `n`. */
  predicate Picks(ranking: seq<VectorId>, flags: seq<bool>, picked: seq<seq<VectorId>>) {
    && |flags| == |ranking| && |picked| == |ranking| + 1 && picked[0] == []
    && forall n :: 0 <= n < |ranking| ==> picked[n + 1] == picked[n] + if flags[n] then [ranking[n]] else []
  }

  lemma {:induction false} PickedSize(ranking: seq<VectorId>, flags: seq<bool>, picked: seq<seq<VectorId>>, n: nat)
    requires Picks(ranking, flags, picked) && n <= |ranking|
    ensures |picked[n]| == CountBefore(flags, n)
  {
    if n > 0 {
      PickedSize(ranking, flags, picked, n - 1);
      assert picked[n - 1 + 1] == picked[n - 1] + if flags[n - 1] then [ranking[n - 1]] else [];
    }
  }

  lemma {:induction false} PickedAt(ranking: seq<VectorId>, flags: seq<bool>, picked: seq<seq<VectorId>>, n: nat,
                                    i: nat)
    requires Picks(ranking, flags, picked) && i < n <= |ranking| && flags[i]
    ensures CountBefore(flags, i) < |picked[n]| && picked[n][CountBefore(flags, i)] == ranking[i]
    decreases n
  {
    assert picked[n - 1 + 1] == picked[n - 1] + if flags[n - 1] then [ranking[n - 1]] else [];
    if i < n - 1 {
      PickedAt(ranking, flags, picked, n - 1, i);
    } else {
      PickedSize(ranking, flags, picked, i);
    }
  }

  lemma {:induction false} PlaceOfPicked(ranking: seq<VectorId>, flags: seq<bool>, picked: seq<seq<VectorId>>, n: nat,
                                         k: nat) returns (i: nat)
    requires Picks(ranking, flags, picked) && n <= |ranking| && k < |picked[n]|
    ensures i < n && flags[i] && ranking[i] == picked[n][k] && CountBefore(flags, i) == k
    decreases n
  {
    assert picked[n - 1 + 1] == picked[n - 1] + if flags[n - 1] then [ranking[n - 1]] else [];
    if k < |picked[n - 1]| {
      i := PlaceOfPicked(ranking, flags, picked, n - 1, k);
    } else {
      i := n - 1;
      PickedSize(ranking, flags, picked, i);
    }
  }

  lemma MatchingStep(ranking: seq<VectorId>, chunkOf: map<VectorId, ChunkId>, docOf: map<VectorId, DocId>,
                     filter: Option<set<DocId>>, n: nat)
    requires n < |ranking|
    ensures Matching(ranking[..n + 1], chunkOf, docOf, filter) == Matching(ranking[..n], chunkOf, docOf, filter) +
            if Allowed(chunkOf, docOf, filter, ranking[n]) then [ranking[n]] else []
  {
    assert ranking[..n + 1][..n] == ranking[..n];
  }

  lemma MatchingPicks(ranking: seq<VectorId>, chunkOf: map<VectorId, ChunkId>, docOf: map<VectorId, DocId>,
                      filter: Option<set<DocId>>) returns (picked: seq<seq<VectorId>>)
    ensures Picks(ranking, AllowedPlaces(ranking, chunkOf, docOf, filter), picked)
    ensures forall n :: 0 <= n <= |ranking| ==> picked[n] == Matching(ranking[..n], chunkOf, docOf, filter)
  {
    picked := seq(|ranking| + 1, n requires 0 <= n <= |ranking| => Matching(ranking[..n], chunkOf, docOf, filter));
    forall n | 0 <= n < |ranking|
      ensures picked[n + 1] == picked[n] + if Allowed(chunkOf, docOf, filter, ranking[n]) then [ranking[n]] else []
    {
      MatchingStep(ranking, chunkOf, docOf, filter, n);
    }
  }

  /** Place `i` of the ranking holds the k-th hit: an allowed id within the window, with k of them before it. */
  predicate HitAt(ranking: seq<VectorId>, chunkOf: map<VectorId, ChunkId>, docOf: map<VectorId, DocId>, topK: nat,
                  filter: Option<set<DocId>>, i: nat, k: nat) {
    var flags := AllowedPlaces(ranking, chunkOf, docOf, filter);
    && i < |ranking| && i < (if filter.Some? then 4 * topK else topK) && k < topK
    && flags[i] && CountBefore(flags, i) == k
  }

  lemma WindowIs(total: nat, topK: nat, filter: Option<set<DocId>>, i: nat)
    ensures i < FetchCount(total, topK, filter) <==> i < total && i < if filter.Some? then 4 * topK else topK
  {
  }

  lemma TakenAt<T>(s: seq<T>, n: nat, k: nat)
    ensures k < |Take(s, n)| <==> k < n && k < |s|
    ensures k < |Take(s, n)| ==> Take(s, n)[k] == s[k]
  {
  }

  lemma PlaceInMatching(ranking: seq<VectorId>, chunkOf: map<VectorId, ChunkId>, docOf: map<VectorId, DocId>,
                        filter: Option<set<DocId>>, n: nat, k: nat) returns (i: nat)
    requires n <= |ranking| && k < |Matching(ranking[..n], chunkOf, docOf, filter)|
    ensures var flags := AllowedPlaces(ranking, chunkOf, docOf, filter);
            i < n && flags[i] && CountBefore(flags, i) == k
    ensures ranking[i] == Matching(ranking[..n], chunkOf, docOf, filter)[k]
  {
    var picked := MatchingPicks(ranking, chunkOf, docOf, filter);
    i := PlaceOfPicked(ranking, AllowedPlaces(ranking, chunkOf, docOf, filter), picked, n, k);
  }

  lemma MatchingAtPlace(ranking: seq<VectorId>, chunkOf: map<VectorId, ChunkId>, docOf: map<VectorId, DocId>,
                        filter: Option<set<DocId>>, n: nat, i: nat)
    requires i < n <= |ranking| && AllowedPlaces(ranking, chunkOf, docOf, filter)[i]
    ensures var m, k := Matching(ranking[..n], chunkOf, docOf, filter),
                        CountBefore(AllowedPlaces(ranking, chunkOf, docOf, filter), i);
            k < |m| && m[k] == ranking[i]
  {
    var picked := MatchingPicks(ranking, chunkOf, docOf, filter);
    PickedAt(ranking, AllowedPlaces(ranking, chunkOf, docOf, filter), picked, n, i);
  }

  lemma HitHasPlace(ranking: seq<VectorId>, chunkOf: map<VectorId, ChunkId>, docOf: map<VectorId, DocId>, topK: nat,
                    filter: Option<set<DocId>>, k: nat) returns (i: nat)
    requires k < |HitIds(ranking, chunkOf, docOf, topK, filter)|
    ensures HitAt(ranking, chunkOf, docOf, topK, filter, i, k)
    ensures HitIds(ranking, chunkOf, docOf, topK, filter)[k] == ranking[i]
  {
    var n := FetchCount(|ranking|, topK, filter);
    TakenAt(Matching(ranking[..n], chunkOf, docOf, filter), topK, k);
    i := PlaceInMatching(ranking, chunkOf, docOf, filter, n, k);
    WindowIs(|ranking|, topK, filter, i);
  }

  lemma PlaceIsHit(ranking: seq<VectorId>, chunkOf: map<VectorId, ChunkId>, docOf: map<VectorId, DocId>, topK: nat,
                   filter: Option<set<DocId>>, i: nat, k: nat)
    requires HitAt(ranking, chunkOf, docOf, topK, filter, i, k)
    ensures var hits := HitIds(ranking, chunkOf, docOf, topK, filter); k < |hits| && hits[k] == ranking[i]
  {
    var n := FetchCount(|ranking|, topK, filter);
    WindowIs(|ranking|, topK, filter, i);
    MatchingAtPlace(ranking, chunkOf, docOf, filter, n, i);
    TakenAt(Matching(ranking[..n], chunkOf, docOf, filter), topK, k);
  }

  /** The k-th hit stands in the ranking behind exactly k allowed ids, and every allowed id within the window that
      has fewer than `topK` allowed ids before it is a hit. */
  lemma HitsExactly(ranking: seq<VectorId>, chunkOf: map<VectorId, ChunkId>, docOf: map<VectorId, DocId>, topK: nat,
                    filter: Option<set<DocId>>, v: VectorId, k: nat)
    ensures var hits := HitIds(ranking, chunkOf, docOf, topK, filter);
            k < |hits| && hits[k] == v
            <==> exists i: nat :: HitAt(ranking, chunkOf, docOf, topK, filter, i, k) && ranking[i] == v
  {
    if k < |HitIds(ranking, chunkOf, docOf, topK, filter)| {
      var i := HitHasPlace(ranking, chunkOf, docOf, topK, filter, k);
    }
    if i: nat :| HitAt(ranking, chunkOf, docOf, topK, filter, i, k) && ranking[i] == v {
      PlaceIsHit(ranking, chunkOf, docOf, topK, filter, i, k);
    }
  }

  class FaissVectorStore {
    var file: Index
    var index: Index
    var chunkOf: map<VectorId, ChunkId>
    var docOf: map<VectorId, DocId>
    var vidsOf: map<DocId, set<VectorId>>

    /** The representation invariant. */
    ghost predicate Valid()
      reads this
    {
      MapsAgree(chunkOf, docOf, vidsOf) && index.Keys == chunkOf.Keys
    }

    /** `stored` is what the index file holds; an absent file holds nothing. */
    constructor (stored: Index)
      ensures file == stored && index == map[] && chunkOf == map[] && docOf == map[] && vidsOf == map[]
    {
      file := stored;
      index, chunkOf, docOf, vidsOf := map[], map[], map[], map[];
    }

    /** Index from the file, maps from SQL; the vectors in `mappings` are not looked at. The two may
        disagree here: startup compares the counts next. */
    method Load(mappings: seq<Record>)
      requires forall i, j :: 0 <= i < j < |mappings| ==> mappings[i].vid != mappings[j].vid
      modifies this
      ensures index == file == old(file)
      ensures chunkOf == ChunksOf(mappings) && docOf == OwnersOf(mappings)
      ensures vidsOf == WithVids(map[], mappings)
      ensures MapsAgree(chunkOf, docOf, vidsOf)
    {
      index := file;
      chunkOf, docOf, vidsOf := map[], map[], map[];
      for i := 0 to |mappings|
        invariant file == old(file) && index == file
        invariant chunkOf == ChunksOf(mappings[..i]) && docOf == OwnersOf(mappings[..i])
        invariant vidsOf == WithVids(map[], mappings[..i])
        invariant MapsAgree(chunkOf, docOf, vidsOf)
      {
        assert mappings[..i + 1][..i] == mappings[..i];
        RecordKeys(mappings[..i]);
        var m := mappings[i];
        MapsAgreeAfterMapping(chunkOf, docOf, vidsOf, m);
        chunkOf := chunkOf[m.vid := m.chunk];
        docOf := docOf[m.vid := m.doc];
        vidsOf := vidsOf[m.doc := VidsOf(vidsOf, m.doc) + {m.vid}];
      }
      assert mappings[..|mappings|] == mappings;
    }

    method Reset()
      modifies this
      ensures index == map[] && chunkOf == map[] && docOf == map[] && vidsOf == map[] && file == old(file)
      ensures Valid()
    {
      index, chunkOf, docOf, vidsOf := map[], map[], map[], map[];
    }

    /** Vectors first, mappings after the add succeeded. Ids that are new keep the invariant. */
    method Upsert(records: seq<Record>)
      modifies this
      ensures file == old(file)
      ensures index == old(index) + VectorsOf(records)
      ensures chunkOf == old(chunkOf) + ChunksOf(records)
      ensures docOf == old(docOf) + OwnersOf(records)
      ensures vidsOf == WithVids(old(vidsOf), records)
      ensures old(Valid()) && FreshIds(records, old(index).Keys) ==> Valid()
    {
      if records == [] { return; }
      index := index + VectorsOf(records);
      MapRecords(records);
      if old(Valid()) && FreshIds(records, old(index).Keys) {
        RecordKeys(records);
        MapsAgreeAfterAdd(old(chunkOf), old(docOf), old(vidsOf), records);
      }
    }

    /** The mapping half of an upsert. */
    method MapRecords(records: seq<Record>)
      modifies this
      ensures file == old(file) && index == old(index)
      ensures chunkOf == old(chunkOf) + ChunksOf(records)
      ensures docOf == old(docOf) + OwnersOf(records)
      ensures vidsOf == WithVids(old(vidsOf), records)
    {
      for i := 0 to |records|
        invariant file == old(file) && index == old(index)
        invariant chunkOf == old(chunkOf) + ChunksOf(records[..i])
        invariant docOf == old(docOf) + OwnersOf(records[..i])
        invariant vidsOf == WithVids(old(vidsOf), records[..i])
      {
        AddOneMore(old(chunkOf), old(docOf), old(vidsOf), records, i);
        var r := records[i];
        chunkOf := chunkOf[r.vid := r.chunk];
        docOf := docOf[r.vid := r.doc];
        vidsOf := vidsOf[r.doc := VidsOf(vidsOf, r.doc) + {r.vid}];
      }
      assert records[..|records|] == records;
    }

    predicate Descending(ranking: seq<VectorId>, q: Vector)
      reads this
    {
      && (forall v :: v in ranking ==> v in index)
      && forall i, j :: 0 <= i < j < |ranking| ==> Dot(index[ranking[i]], q) >= Dot(index[ranking[j]], q)
    }

    method PlaceOf(ranking: seq<VectorId>, v: VectorId, q: Vector) returns (at: nat)
      requires v in index && Descending(ranking, q)
      ensures at <= |ranking| && Descending(ranking[..at] + [v] + ranking[at..], q)
    {
      at := 0;
      while at < |ranking| && Dot(index[ranking[at]], q) >= Dot(index[v], q)
        invariant at <= |ranking|
        invariant forall i :: 0 <= i < at ==> Dot(index[ranking[i]], q) >= Dot(index[v], q)
      {
        at := at + 1;
      }
    }

    /** FAISS's exact search, restated: all ids sorted by inner product, best first. */
    method Search(q: Vector) returns (ranking: seq<VectorId>)
      ensures IsRanking(index, q, ranking)
    {
      ranking := [];
      var left := index.Keys;
      while left != {}
        invariant left <= index.Keys && Distinct(ranking) && Descending(ranking, q)
        invariant forall v :: v in ranking <==> v in index && v !in left
        decreases left
      {
        var v :| v in left;
        left := left - {v};
        var at := PlaceOf(ranking, v, q);
        InsertedOnce(ranking, v, at);
        ranking := ranking[..at] + [v] + ranking[at..];
      }
    }

    ghost predicate IsHit(v: VectorId, q: Vector, hit: Hit)
      reads this
    {
      v in index && v in chunkOf && hit == Hit(chunkOf[v], Dot(index[v], q))
    }

    /** The hits are chunk and score of the ids selected from this full ranking of the index. */
    ghost predicate SelectsFrom(ranking: seq<VectorId>, hits: seq<Hit>, q: Vector, topK: nat,
                                filter: Option<set<DocId>>)
      reads this
    {
      var ids := HitIds(ranking, chunkOf, docOf, topK, filter);
      && IsRanking(index, q, ranking)
      && |hits| == |ids|
      && forall i :: 0 <= i < |hits| ==> IsHit(ids[i], q, hits[i])
    }

    /** A flat index cannot pre-filter by document: over-fetch fourfold, then filter and cut. */
    method Query(q: Vector, topK: nat, filter: Option<set<DocId>>) returns (hits: seq<Hit>)
      requires MapsAgree(chunkOf, docOf, vidsOf)
      ensures exists ranking :: SelectsFrom(ranking, hits, q, topK, filter)
    {
      var found := Search(q);
      if |found| == 0 {
        assert SelectsFrom(found, [], q, topK, filter);
        return [];
      }
      var fetched := found[..FetchCount(|found|, topK, filter)];
      hits := HitsFor(fetched, q, filter);
      hits := Take(hits, topK);
      assert SelectsFrom(found, hits, q, topK, filter);
    }

    method HitsFor(fetched: seq<VectorId>, q: Vector, filter: Option<set<DocId>>) returns (hits: seq<Hit>)
      requires chunkOf.Keys == docOf.Keys
      requires forall v :: v in fetched ==> v in index
      ensures var ids := Matching(fetched, chunkOf, docOf, filter);
              |hits| == |ids| && forall i :: 0 <= i < |hits| ==> IsHit(ids[i], q, hits[i])
    {
      ghost var ids: seq<VectorId> := [];
      hits := [];
      for i := 0 to |fetched|
        invariant ids == Matching(fetched[..i], chunkOf, docOf, filter)
        invariant |hits| == |ids|
        invariant forall j :: 0 <= j < |ids| ==> IsHit(ids[j], q, hits[j])
      {
        assert fetched[..i + 1][..i] == fetched[..i];
        var v := fetched[i];
        if Allowed(chunkOf, docOf, filter, v) {
          ids := ids + [v];
          hits := hits + [Hit(chunkOf[v], Dot(index[v], q))];
        }
      }
      assert fetched[..|fetched|] == fetched;
    }

    lemma NothingToDelete(vids: set<VectorId>)
      requires vids == {}
      ensures index - vids == index && chunkOf - vids == chunkOf && docOf - vids == docOf
    {
    }

    method DeleteByDocument(d: DocId) returns (removed: nat)
      requires MapsAgree(chunkOf, docOf, vidsOf)
      modifies this
      ensures file == old(file)
      ensures var vids := VidsOf(old(vidsOf), d);
              && index == old(index) - vids
              && chunkOf == old(chunkOf) - vids && docOf == old(docOf) - vids
              && vidsOf == old(vidsOf) - {d}
              && removed == |vids * old(index).Keys|
      ensures MapsAgree(chunkOf, docOf, vidsOf)
      ensures old(Valid()) ==> Valid()
    {
      MapsAgreeAfterDelete(chunkOf, docOf, vidsOf, d);
      var vids := VidsOf(vidsOf, d);
      vidsOf := vidsOf - {d};
      if vids == {} {
        NothingToDelete(vids);
        return 0;
      }
      removed := |vids * index.Keys|;
      index := index - vids;
      chunkOf := chunkOf - vids;
      docOf := docOf - vids;
    }

    /** Written to a temporary file and renamed: the old file or the new one, never a mix. */
    method Persist()
      modifies this`file
      ensures file == index
    {
      file := index;
    }

    method Count() returns (n: nat)
      ensures n == |index|
    {
      n := |index|;
    }
  }
}
