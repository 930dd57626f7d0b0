/** Reciprocal rank fusion of a dense and a sparse ranking. */
module Fusion {
  import opened Values

  /** Best first; an id may repeat. */
  type Ranking = seq<(ChunkId, real)>

  datatype FusedHit = FusedHit(id: ChunkId, score: real, denseRank: Option<nat>, denseScore: Option<real>,
                               sparseRank: Option<nat>, sparseScore: Option<real>)

  // ---- definition

  predicate Lists(ranking: Ranking, id: ChunkId) {
    exists i :: 0 <= i < |ranking| && ranking[i].0 == id
  }

  /** 1-based rank of the first, and so best, occurrence. */
  function BestRank(ranking: Ranking, id: ChunkId): (r: Option<nat>)
    ensures r.Some? <==> Lists(ranking, id)
    ensures r.Some? ==> 1 <= r.value <= |ranking| && ranking[r.value - 1].0 == id
    ensures r.Some? ==> forall i :: 0 <= i < r.value - 1 ==> ranking[i].0 != id
  {
    if ranking == [] then None
    else
      var n := |ranking| - 1;
      var r := BestRank(ranking[..n], id);
      assert r.Some? ==> ranking[r.value - 1] == ranking[..n][r.value - 1];
      if r.Some? then r else if ranking[n].0 == id then Some(n + 1) else None
  }

  function ScoreAt(ranking: Ranking, id: ChunkId): Option<real> {
    var r := BestRank(ranking, id);
    if r.Some? then Some(ranking[r.value - 1].1) else None
  }

  function Term(k: nat, weight: real, rank: Option<nat>): real {
    if rank.Some? && rank.value > 0 then weight / (k + rank.value) as real else 0.0
  }

  function HitFor(id: ChunkId, dense: Ranking, sparse: Ranking, k: nat, w: real): FusedHit {
    var d, s := BestRank(dense, id), BestRank(sparse, id);
    FusedHit(id, Term(k, w, d) + Term(k, 1.0 - w, s), d, ScoreAt(dense, id), s, ScoreAt(sparse, id))
  }

  predicate Precedes(a: FusedHit, b: FusedHit) {
    a.score > b.score || (a.score == b.score && a.id < b.id)
  }

  predicate InOrder(hits: seq<FusedHit>) {
    forall i, j :: 0 <= i < j < |hits| ==> Precedes(hits[i], hits[j])
  }

  /** Each id of either list once, with its own ranks and score, in the sort order. */
  ghost predicate IsFusion(hits: seq<FusedHit>, dense: Ranking, sparse: Ranking, k: nat, w: real) {
    && InOrder(hits)
    && forall h :: h in hits <==> (Lists(dense, h.id) || Lists(sparse, h.id)) && h == HitFor(h.id, dense, sparse, k, w)
  }

  // ---- the loops

  lemma BestRankPush(ranking: Ranking, n: nat, id: ChunkId)
    requires n < |ranking|
    ensures BestRank(ranking[..n + 1], id) ==
              if BestRank(ranking[..n], id).Some? then BestRank(ranking[..n], id)
              else if ranking[n].0 == id then Some(n + 1) else None
  {
    assert ranking[..n + 1][..n] == ranking[..n];
  }

  lemma BestRanksPush(ranking: Ranking, n: nat)
    requires n < |ranking|
    ensures forall id :: BestRank(ranking[..n + 1], id) ==
              if BestRank(ranking[..n], id).Some? then BestRank(ranking[..n], id)
              else if ranking[n].0 == id then Some(n + 1) else None
  {
    forall id { BestRankPush(ranking, n, id); }
  }

  method ByRank(ranking: Ranking) returns (out: map<ChunkId, (nat, real)>)
    ensures forall id :: id in out <==> Lists(ranking, id)
    ensures forall id :: id in out ==>
            Some(out[id].0) == BestRank(ranking, id) && Some(out[id].1) == ScoreAt(ranking, id)
  {
    out := map[];
    for n := 0 to |ranking|
      invariant forall id :: id in out <==> BestRank(ranking[..n], id).Some?
      invariant forall id :: id in out ==>
                Some(out[id].0) == BestRank(ranking[..n], id) && out[id].1 == ranking[out[id].0 - 1].1
    {
      BestRanksPush(ranking, n);
      if ranking[n].0 !in out {
        out := out[ranking[n].0 := (n + 1, ranking[n].1)];
      }
    }
    assert ranking[..|ranking|] == ranking;
  }

  lemma InsertedInOrder(hits: seq<FusedHit>, h: FusedHit, i: nat)
    requires InOrder(hits) && i <= |hits|
    requires forall j :: 0 <= j < i ==> Precedes(hits[j], h)
    requires forall j :: i <= j < |hits| ==> Precedes(h, hits[j])
    ensures InOrder(hits[..i] + [h] + hits[i..])
  {
  }

  lemma InsertedMembers(hits: seq<FusedHit>, h: FusedHit, i: nat)
    requires i <= |hits|
    ensures forall g :: g in hits[..i] + [h] + hits[i..] <==> g in hits || g == h
  {
    assert hits == hits[..i] + hits[i..];
  }

  method Insert(hits: seq<FusedHit>, h: FusedHit) returns (out: seq<FusedHit>)
    requires InOrder(hits) && forall g :: g in hits ==> g.id != h.id
    ensures InOrder(out) && forall g :: g in out <==> g in hits || g == h
  {
    var i := 0;
    while i < |hits| && Precedes(hits[i], h)
      invariant i <= |hits| && forall j :: 0 <= j < i ==> Precedes(hits[j], h)
    {
      i := i + 1;
    }
    out := hits[..i] + [h] + hits[i..];
    forall j | i <= j < |hits| ensures Precedes(h, hits[j]) {
      assert hits[i] in hits;
    }
    InsertedInOrder(hits, h, i);
    InsertedMembers(hits, h, i);
  }

  method HitOf(id: ChunkId, denseById: map<ChunkId, (nat, real)>, sparseById: map<ChunkId, (nat, real)>,
               k: nat, w: real, ghost dense: Ranking, ghost sparse: Ranking) returns (h: FusedHit)
    requires forall i :: i in denseById <==> Lists(dense, i)
    requires forall i :: i in denseById ==>
             Some(denseById[i].0) == BestRank(dense, i) && Some(denseById[i].1) == ScoreAt(dense, i)
    requires forall i :: i in sparseById <==> Lists(sparse, i)
    requires forall i :: i in sparseById ==>
             Some(sparseById[i].0) == BestRank(sparse, i) && Some(sparseById[i].1) == ScoreAt(sparse, i)
    ensures h == HitFor(id, dense, sparse, k, w)
  {
    var fused := 0.0;
    var d, dScore, s, sScore := None, None, None, None;
    if id in denseById {
      d, dScore := Some(denseById[id].0), Some(denseById[id].1);
      fused := fused + w / (k + denseById[id].0) as real;
    }
    if id in sparseById {
      s, sScore := Some(sparseById[id].0), Some(sparseById[id].1);
      fused := fused + (1.0 - w) / (k + sparseById[id].0) as real;
    }
    h := FusedHit(id, fused, d, dScore, s, sScore);
  }

  /** The union of the key sets is walked in any order. */
  method RrfFuse(dense: Ranking, sparse: Ranking, k: nat, w: real) returns (hits: seq<FusedHit>)
    ensures IsFusion(hits, dense, sparse, k, w)
  {
    var denseById := ByRank(dense);
    var sparseById := ByRank(sparse);
    hits := [];
    var all := denseById.Keys + sparseById.Keys;
    var left := all;
    while left != {}
      invariant left <= all && InOrder(hits)
      invariant forall h :: h in hits <==> h.id in all - left && h == HitFor(h.id, dense, sparse, k, w)
      decreases left
    {
      var id :| id in left;
      left := left - {id};
      var h := HitOf(id, denseById, sparseById, k, w, dense, sparse);
      hits := Insert(hits, h);
    }
  }

  // ---- the order does not depend on how the set was walked

  lemma {:induction false} SortedListsEqual(a: seq<FusedHit>, b: seq<FusedHit>)
    requires InOrder(a) && InOrder(b) && forall h :: h in a <==> h in b
    ensures a == b
  {
    if b != [] { assert b[0] in a; }
    if a == [] {
    } else {
      assert a[0] in b && (b != [] ==> b[0] in a);
      HeadsEqual(a, b);
      TailMembers(a);
      TailMembers(b);
      SortedListsEqual(a[1..], b[1..]);
    }
  }

  lemma HeadsEqual(a: seq<FusedHit>, b: seq<FusedHit>)
    requires InOrder(a) && InOrder(b) && a != [] && b != [] && a[0] in b && b[0] in a
    ensures a[0] == b[0]
  {
    var i :| 0 <= i < |b| && b[i] == a[0];
    var j :| 0 <= j < |a| && a[j] == b[0];
    assert i == 0 || Precedes(b[0], b[i]);
    assert j == 0 || Precedes(a[0], a[j]);
  }

  lemma TailMembers(a: seq<FusedHit>)
    requires InOrder(a) && a != []
    ensures forall h :: h in a[1..] <==> h in a && h != a[0]
  {
    forall h | h in a && h != a[0] ensures h in a[1..] {
      var i :| 0 <= i < |a| && a[i] == h;
      assert a[1..][i - 1] == h;
    }
    forall h | h in a[1..] ensures h != a[0] {
      var i :| 0 <= i < |a[1..]| && a[1..][i] == h;
      assert Precedes(a[0], a[i + 1]);
    }
  }

  /** Fully deterministic: a function of the two rankings, `k` and the weight. */
  lemma FusionUnique(a: seq<FusedHit>, b: seq<FusedHit>, dense: Ranking, sparse: Ranking, k: nat, w: real)
    requires IsFusion(a, dense, sparse, k, w) && IsFusion(b, dense, sparse, k, w)
    ensures a == b
  {
    SortedListsEqual(a, b);
  }

  /** No id twice, and none left out. */
  lemma EachIdOnce(hits: seq<FusedHit>, dense: Ranking, sparse: Ranking, k: nat, w: real, id: ChunkId)
    requires IsFusion(hits, dense, sparse, k, w)
    ensures Lists(dense, id) || Lists(sparse, id) <==> exists i :: 0 <= i < |hits| && hits[i].id == id
    ensures forall i, j :: 0 <= i < |hits| && 0 <= j < |hits| && hits[i].id == hits[j].id ==> i == j
  {
    if Lists(dense, id) || Lists(sparse, id) {
      assert HitFor(id, dense, sparse, k, w) in hits;
    }
    forall i, j | 0 <= i < |hits| && 0 <= j < |hits| && hits[i].id == hits[j].id ensures i == j {
      assert hits[i] in hits && hits[j] in hits;
      assert hits[i] == hits[j];
      assert !Precedes(hits[i], hits[j]) && !Precedes(hits[j], hits[i]);
    }
  }

  // ---- what a hit says

  /** `rank` is the 1-based place where the ranking first lists the id, and `score` the raw score there. */
  predicate FirstListed(ranking: Ranking, id: ChunkId, rank: Option<nat>, score: Option<real>) {
    && (rank.None? ==> score.None? && forall i :: 0 <= i < |ranking| ==> ranking[i].0 != id)
    && (rank.Some? ==>
          && 1 <= rank.value <= |ranking| && score.Some? && ranking[rank.value - 1] == (id, score.value)
          && forall i :: 0 <= i < rank.value - 1 ==> ranking[i].0 != id)
  }

  lemma ShareIs(weight: real, n: nat)
    requires n > 0
    ensures weight / n as real * n as real == weight
  {
  }

  lemma SharesAdd(x: real, y: real, a: real, b: real, score: real, w: real)
    requires x * a == w && y * b == 1.0 - w && score == x + y
    ensures score * a * b == w * b + (1.0 - w) * a
  {
    assert score * a * b == x * a * b + y * b * a;
  }

  lemma FirstListedIs(ranking: Ranking, id: ChunkId)
    ensures FirstListed(ranking, id, BestRank(ranking, id), ScoreAt(ranking, id))
  {
  }

  /** The weighted sum of the reciprocals of `k` plus the ranks, an absent rank adding nothing. */
  predicate IsFused(score: real, k: nat, w: real, d: Option<nat>, s: Option<nat>) {
    && (d.Some? && s.Some? ==>
          var a, b := (k + d.value) as real, (k + s.value) as real; score * a * b == w * b + (1.0 - w) * a)
    && (d.Some? && s.None? ==> score * (k + d.value) as real == w)
    && (d.None? && s.Some? ==> score * (k + s.value) as real == 1.0 - w)
    && (d.None? && s.None? ==> score == 0.0)
  }

  predicate IsRank(r: Option<nat>) {
    r.Some? ==> r.value >= 1
  }

  lemma TermsFuse(k: nat, w: real, d: Option<nat>, s: Option<nat>)
    requires IsRank(d) && IsRank(s)
    ensures IsFused(Term(k, w, d) + Term(k, 1.0 - w, s), k, w, d, s)
  {
    if d.Some? { ShareIs(w, k + d.value); }
    if s.Some? { ShareIs(1.0 - w, k + s.value); }
    if d.Some? && s.Some? {
      SharesAdd(Term(k, w, d), Term(k, 1.0 - w, s), (k + d.value) as real, (k + s.value) as real,
                Term(k, w, d) + Term(k, 1.0 - w, s), w);
    }
  }

  /** Each hit carries its first rank and raw score in either list, and the score fused from the ranks. */
  lemma HitSays(hits: seq<FusedHit>, dense: Ranking, sparse: Ranking, k: nat, w: real, h: FusedHit)
    requires IsFusion(hits, dense, sparse, k, w) && h in hits
    ensures FirstListed(dense, h.id, h.denseRank, h.denseScore)
    ensures FirstListed(sparse, h.id, h.sparseRank, h.sparseScore)
    ensures (h.denseRank.Some? || h.sparseRank.Some?) && IsFused(h.score, k, w, h.denseRank, h.sparseRank)
  {
    FirstListedIs(dense, h.id);
    FirstListedIs(sparse, h.id);
    TermsFuse(k, w, h.denseRank, h.sparseRank);
  }

  // ---- what the order means

  /** An absent id ranks below every present one. */
  predicate NoWorse(a: Option<nat>, b: Option<nat>) {
    b.None? || (a.Some? && a.value <= b.value)
  }

  predicate Better(a: Option<nat>, b: Option<nat>) {
    a.Some? && (b.None? || a.value < b.value)
  }

  lemma ReciprocalDecreases(w: real, m: nat, n: nat)
    requires w >= 0.0 && 1 <= m <= n
    ensures 0.0 <= w / n as real <= w / m as real
    ensures w > 0.0 ==> 0.0 < w / n as real && (m < n ==> w / n as real < w / m as real)
  {
    var x, y := w / m as real, w / n as real;
    assert x * m as real == w && y * n as real == w;
    assert y >= 0.0;
    assert (x - y) * m as real == y * (n - m) as real;
  }

  lemma TermDecreases(k: nat, w: real, a: Option<nat>, b: Option<nat>)
    requires w >= 0.0 && IsRank(a) && IsRank(b) && NoWorse(a, b)
    ensures Term(k, w, a) >= Term(k, w, b)
    ensures Better(a, b) && w > 0.0 ==> Term(k, w, a) > Term(k, w, b)
  {
    if b.Some? {
      ReciprocalDecreases(w, k + a.value, k + b.value);
    } else if a.Some? {
      ReciprocalDecreases(w, k + a.value, k + a.value);
    }
  }

  /** No worse in both lists and better in one that carries weight: it comes first. */
  lemma Dominates(hits: seq<FusedHit>, dense: Ranking, sparse: Ranking, k: nat, w: real, i: nat, j: nat)
    requires IsFusion(hits, dense, sparse, k, w) && 0.0 <= w <= 1.0 && i < |hits| && j < |hits|
    requires NoWorse(hits[i].denseRank, hits[j].denseRank) && NoWorse(hits[i].sparseRank, hits[j].sparseRank)
    requires (Better(hits[i].denseRank, hits[j].denseRank) && w > 0.0)
          || (Better(hits[i].sparseRank, hits[j].sparseRank) && w < 1.0)
    ensures i < j
  {
    var a, b := hits[i], hits[j];
    assert a in hits && b in hits;
    TermDecreases(k, w, a.denseRank, b.denseRank);
    TermDecreases(k, 1.0 - w, a.sparseRank, b.sparseRank);
    assert a.score > b.score;
    assert !Precedes(b, a);
  }

  /** Ranks rise, then come the ids the ranking does not list, ascending. */
  predicate FollowsRanking(before: Option<nat>, idBefore: ChunkId, after: Option<nat>, idAfter: ChunkId) {
    && (after.Some? ==> before.Some? && before.value < after.value)
    && (before.None? && after.None? ==> idBefore < idAfter)
  }

  lemma ZeroWeight(k: nat, rank: Option<nat>)
    ensures Term(k, 0.0, rank) == 0.0
  {
  }

  lemma OneListDecides(k: nat, a: Option<nat>, idA: ChunkId, b: Option<nat>, idB: ChunkId)
    requires IsRank(a) && IsRank(b) && (a.Some? && a == b ==> idA == idB)
    requires Term(k, 1.0, a) > Term(k, 1.0, b) || (Term(k, 1.0, a) == Term(k, 1.0, b) && idA < idB)
    ensures FollowsRanking(a, idA, b, idB)
  {
    if NoWorse(b, a) { TermDecreases(k, 1.0, b, a); }
  }

  /** Weight one is the dense order, then the rest by id; weight zero the sparse order. */
  lemma ExtremeWeights(hits: seq<FusedHit>, dense: Ranking, sparse: Ranking, k: nat, w: real, i: nat, j: nat)
    requires IsFusion(hits, dense, sparse, k, w) && i < j < |hits|
    ensures w == 1.0 ==> FollowsRanking(hits[i].denseRank, hits[i].id, hits[j].denseRank, hits[j].id)
    ensures w == 0.0 ==> FollowsRanking(hits[i].sparseRank, hits[i].id, hits[j].sparseRank, hits[j].id)
  {
    var a, b := hits[i], hits[j];
    assert a in hits && b in hits && Precedes(a, b);
    if w == 1.0 {
      ZeroWeight(k, a.sparseRank);
      ZeroWeight(k, b.sparseRank);
      OneListDecides(k, a.denseRank, a.id, b.denseRank, b.id);
    } else if w == 0.0 {
      ZeroWeight(k, a.denseRank);
      ZeroWeight(k, b.denseRank);
      OneListDecides(k, a.sparseRank, a.id, b.sparseRank, b.id);
    }
  }
}
