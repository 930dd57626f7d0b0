/** `semantic_overlaps` itself: one stacked similarity matrix, sliced into a block per pair of documents,
    flattened, selected from and unravelled again. */
module SemanticMatrix {
  import opened Values
  import opened Sums
  import opened GraphRecompute
  import opened Semantic

  // ---- selection on a flat array

  /** `k` distinct indices, best value first, and no index left out beats one of them. */
  ghost predicate IsArgTop(flat: seq<real>, top: seq<nat>, k: nat) {
    && |top| == k && Distinct(top)
    && (forall t :: 0 <= t < |top| ==> top[t] < |flat|)
    && (forall s, t :: 0 <= s < t < |top| ==> flat[top[s]] >= flat[top[t]])
    && forall p, t :: 0 <= p < |flat| && p !in top && 0 <= t < |top| ==> flat[p] <= flat[top[t]]
  }

  method BestOf(flat: seq<real>, rest: seq<nat>) returns (m: nat)
    requires rest != [] && forall t :: 0 <= t < |rest| ==> rest[t] < |flat|
    ensures m < |rest| && forall t :: 0 <= t < |rest| ==> flat[rest[t]] <= flat[rest[m]]
  {
    m := 0;
    for i := 1 to |rest|
      invariant m < |rest| && forall t :: 0 <= t < i ==> flat[rest[t]] <= flat[rest[m]]
    {
      if flat[rest[i]] > flat[rest[m]] { m := i; }
    }
  }

  /** What is chosen and what is left are, together, all indices once. */
  ghost predicate Splits(n: nat, top: seq<nat>, rest: seq<nat>) {
    && |top| + |rest| == n && Distinct(top + rest)
    && (forall t :: 0 <= t < |rest| ==> rest[t] < n)
    && forall p :: 0 <= p < n ==> p in top || p in rest
  }

  lemma MoveKeepsSplit(n: nat, top: seq<nat>, rest: seq<nat>, m: nat)
    requires Splits(n, top, rest) && m < |rest|
    ensures Splits(n, top + [rest[m]], rest[..m] + rest[m + 1..])
  {
    var top', rest' := top + [rest[m]], rest[..m] + rest[m + 1..];
    var all, all' := top + rest, top' + rest';
    forall i, j | 0 <= i < j < |all'| ensures all'[i] != all'[j] {
      var i' := if i < |top| then i else if i == |top| then |top| + m else if i <= |top| + m then i - 1 else i;
      var j' := if j < |top| then j else if j == |top| then |top| + m else if j <= |top| + m then j - 1 else j;
      assert all'[i] == all[i'] && all'[j] == all[j'];
    }
    forall p | 0 <= p < n ensures p in top' || p in rest' {
      if p in rest {
        var t :| 0 <= t < |rest| && rest[t] == p;
        if t < m { assert rest'[t] == p; } else if t > m { assert rest'[t - 1] == p; } else { assert top'[|top|] == p; }
      } else {
        assert p in top;
      }
    }
  }

  ghost predicate Above(flat: seq<real>, top: seq<nat>, rest: seq<nat>) {
    && (forall t :: 0 <= t < |top| ==> top[t] < |flat|)
    && (forall t :: 0 <= t < |rest| ==> rest[t] < |flat|)
    && (forall s, t :: 0 <= s < t < |top| ==> flat[top[s]] >= flat[top[t]])
    && forall s, t :: 0 <= s < |top| && 0 <= t < |rest| ==> flat[rest[t]] <= flat[top[s]]
  }

  lemma MoveKeepsAbove(flat: seq<real>, top: seq<nat>, rest: seq<nat>, m: nat)
    requires Above(flat, top, rest) && m < |rest|
    requires forall t :: 0 <= t < |rest| ==> flat[rest[t]] <= flat[rest[m]]
    ensures Above(flat, top + [rest[m]], rest[..m] + rest[m + 1..])
  {
  }

  lemma SplitIsArgTop(flat: seq<real>, top: seq<nat>, rest: seq<nat>)
    requires Splits(|flat|, top, rest) && Above(flat, top, rest)
    ensures IsArgTop(flat, top, |top|)
  {
    var all := top + rest;
    forall s, t | 0 <= s < t < |top| ensures top[s] != top[t] { assert all[s] == top[s] && all[t] == top[t]; }
    forall p, t | 0 <= p < |flat| && p !in top && 0 <= t < |top| ensures flat[p] <= flat[top[t]] {
      var u :| 0 <= u < |rest| && rest[u] == p;
    }
  }

  method ArgTop(flat: seq<real>, k: nat) returns (top: seq<nat>)
    requires k <= |flat|
    ensures IsArgTop(flat, top, k)
  {
    top := [];
    var rest: seq<nat> := seq(|flat|, (i: nat) => i);
    assert top + rest == rest;
    assert forall p :: 0 <= p < |flat| ==> rest[p] == p;
    assert forall p :: 0 <= p < |flat| ==> p in rest by {
      forall p | 0 <= p < |flat| ensures p in rest { assert rest[p] == p; }
    }
    while |top| < k
      invariant |top| <= k && Splits(|flat|, top, rest) && Above(flat, top, rest)
      decreases k - |top|
    {
      var m := BestOf(flat, rest);
      MoveKeepsSplit(|flat|, top, rest, m);
      MoveKeepsAbove(flat, top, rest, m);
      top, rest := top + [rest[m]], rest[..m] + rest[m + 1..];
    }
    SplitIsArgTop(flat, top, rest);
  }

  // ---- flat index and cell

  function Unravel(p: nat, nb: nat): Cell
    requires nb > 0
  {
    (p / nb, p % nb)
  }

  lemma UnravelInRange(p: nat, na: nat, nb: nat)
    requires p < na * nb && nb > 0
    ensures Unravel(p, nb).0 < na && Unravel(p, nb).1 < nb
    ensures Unravel(p, nb).0 * nb + Unravel(p, nb).1 == p
  {
    if p / nb >= na {
      assert (p / nb) * nb >= na * nb;
    }
  }

  lemma MultipleAtLeast(d: int, nb: nat)
    requires d >= 1
    ensures d * nb >= nb
  {
    assert (d - 1) * nb >= 0;
  }

  /** Division undoes the flattening `x * nb + y`. */
  lemma DivisionUndoes(x: nat, y: nat, q: nat, r: nat, nb: nat)
    requires y < nb && r < nb && x * nb + y == q * nb + r
    ensures x == q && y == r
  {
    assert (q - x) * nb == q * nb - x * nb;
    assert (x - q) * nb == x * nb - q * nb;
    if x < q {
      MultipleAtLeast(q - x, nb);
    } else if q < x {
      MultipleAtLeast(x - q, nb);
    }
  }

  lemma FlatIndexInRange(x: nat, y: nat, na: nat, nb: nat)
    requires x < na && y < nb
    ensures x * nb + y < na * nb
  {
    MultipleAtLeast(na - x, nb);
    assert (na - x) * nb == na * nb - x * nb;
  }

  lemma QuotientAndRemainder(p: nat, nb: nat)
    requires nb > 0
    ensures p == (p / nb) * nb + p % nb && 0 <= p / nb && 0 <= p % nb < nb
  {
  }

  lemma UnravelInverts(x: nat, y: nat, nb: nat)
    requires y < nb
    ensures Unravel(x * nb + y, nb) == (x, y)
  {
    var p := x * nb + y;
    QuotientAndRemainder(p, nb);
    var q, r := p / nb, p % nb;
    DivisionUndoes(x, y, q, r, nb);
  }

  function UnravelAll(top: seq<nat>, nb: nat): seq<Cell>
    requires nb > 0
  {
    seq(|top|, t requires 0 <= t < |top| => Unravel(top[t], nb))
  }

  /** The flat array of a block, as similarities of the pair's chunks. */
  ghost predicate IsFlatBlock(a: DocVectors, b: DocVectors, flat: seq<real>) {
    && |flat| == |a.rows| * |b.rows|
    && (|b.rows| > 0 ==> forall p :: 0 <= p < |flat| ==> flat[p] == Sim(a, b, Unravel(p, |b.rows|)))
  }

  lemma UnravelledInRange(a: DocVectors, b: DocVectors, flat: seq<real>, top: seq<nat>, k: nat)
    requires IsFlatBlock(a, b, flat) && IsArgTop(flat, top, k) && |b.rows| > 0
    ensures InRange(a, b, UnravelAll(top, |b.rows|)) && Distinct(UnravelAll(top, |b.rows|))
  {
    var nb := |b.rows|;
    forall t | 0 <= t < |top|
      ensures var c := Unravel(top[t], nb); c.0 < |a.rows| && c.1 < nb && c.0 * nb + c.1 == top[t]
    {
      UnravelInRange(top[t], |a.rows|, nb);
    }
  }

  lemma UnravelledBest(a: DocVectors, b: DocVectors, flat: seq<real>, top: seq<nat>, k: nat)
    requires IsFlatBlock(a, b, flat) && IsArgTop(flat, top, k) && |b.rows| > 0
    ensures Best(Cells(a, b), Chosen(UnravelAll(top, |b.rows|)), Sims(a, b))
  {
    var nb := |b.rows|;
    var cells := UnravelAll(top, nb);
    UnravelledInRange(a, b, flat, top, k);
    forall x, y | x in Chosen(cells) && y in Cells(a, b) - Chosen(cells) ensures Sims(a, b)(y) <= Sims(a, b)(x) {
      var t :| 0 <= t < |cells| && cells[t] == x;
      var p := y.0 * nb + y.1;
      UnravelInverts(y.0, y.1, nb);
      FlatIndexInRange(y.0, y.1, |a.rows|, nb);
      forall u | 0 <= u < |top| ensures top[u] != p {
        assert cells[u] == Unravel(top[u], nb) && cells[u] in cells;
      }
      assert flat[p] <= flat[top[t]];
    }
  }

  lemma UnravelledTop(a: DocVectors, b: DocVectors, flat: seq<real>, top: seq<nat>, topK: nat)
    requires IsFlatBlock(a, b, flat) && IsArgTop(flat, top, Selected(topK, |flat|)) && |b.rows| > 0
    ensures TopCells(a, b, UnravelAll(top, |b.rows|), topK)
  {
    UnravelledInRange(a, b, flat, top, Selected(topK, |flat|));
    UnravelledBest(a, b, flat, top, Selected(topK, |flat|));
  }

  function Total(xs: seq<real>): real {
    if xs == [] then 0.0 else Total(xs[..|xs| - 1]) + xs[|xs| - 1]
  }

  lemma {:induction false} TotalIsSum(a: DocVectors, b: DocVectors, cells: seq<Cell>, values: seq<real>)
    requires Distinct(cells) && |values| == |cells|
    requires forall t :: 0 <= t < |cells| ==> values[t] == Sim(a, b, cells[t])
    ensures Total(values) == Sum(Chosen(cells), Sims(a, b))
  {
    if cells == [] {
    } else {
      var n := |cells| - 1;
      TotalIsSum(a, b, cells[..n], values[..n]);
      assert Chosen(cells) == Chosen(cells[..n]) + {cells[n]};
      SumTakesOut(Chosen(cells), Sims(a, b), cells[n]);
      assert Chosen(cells) - {cells[n]} == Chosen(cells[..n]);
    }
  }

  // ---- the matrix

  function Gram(m: seq<Vector>): seq<seq<real>> {
    seq(|m|, r requires 0 <= r < |m| => seq(|m|, c requires 0 <= c < |m| => Dot(m[r], m[c])))
  }

  /** Document `i` occupies the rows from `offsets[i]` to `offsets[i + 1]`. */
  ghost predicate IsStack(docs: seq<DocVectors>, stacked: seq<Vector>, offsets: seq<nat>) {
    && |offsets| == |docs| + 1
    && forall i :: 0 <= i < |docs| ==> Occupies(docs[i], stacked, offsets[i], offsets[i + 1])
  }

  ghost predicate Occupies(d: DocVectors, stacked: seq<Vector>, start: nat, end: nat) {
    && end == start + |d.rows| <= |stacked|
    && forall x :: 0 <= x < |d.rows| ==> stacked[start + x] == d.rows[x].1
  }

  method Stack(docs: seq<DocVectors>) returns (stacked: seq<Vector>, offsets: seq<nat>)
    ensures IsStack(docs, stacked, offsets)
  {
    stacked, offsets := [], [0];
    for i := 0 to |docs|
      invariant |offsets| == i + 1 && offsets[i] == |stacked|
      invariant forall j :: 0 <= j < i ==> Occupies(docs[j], stacked, offsets[j], offsets[j + 1])
    {
      ghost var before := stacked;
      stacked := stacked + seq(|docs[i].rows|, x requires 0 <= x < |docs[i].rows| => docs[i].rows[x].1);
      offsets := offsets + [|stacked|];
      forall j | 0 <= j < i ensures Occupies(docs[j], stacked, offsets[j], offsets[j + 1]) {
        assert Occupies(docs[j], before, offsets[j], offsets[j + 1]);
      }
    }
  }

  function Block(sims: seq<seq<real>>, r0: nat, r1: nat, c0: nat, c1: nat): seq<seq<real>>
    requires r0 <= r1 <= |sims| && c0 <= c1 && forall r :: r0 <= r < r1 ==> c1 <= |sims[r]|
  {
    seq(r1 - r0, x requires 0 <= x < r1 - r0 => sims[r0 + x][c0..c1])
  }

  /** Row-major flattening. */
  function Ravel(block: seq<seq<real>>): seq<real> {
    if block == [] then [] else Ravel(block[..|block| - 1]) + block[|block| - 1]
  }

  lemma {:induction false} RavelAt(block: seq<seq<real>>, nb: nat)
    requires nb > 0 && forall x :: 0 <= x < |block| ==> |block[x]| == nb
    ensures |Ravel(block)| == |block| * nb
    ensures forall p :: 0 <= p < |Ravel(block)| ==>
            p / nb < |block| && p % nb < nb && Ravel(block)[p] == block[p / nb][p % nb]
  {
    if block == [] {
    } else {
      var n := |block| - 1;
      RavelAt(block[..n], nb);
      var flat := Ravel(block);
      assert |flat| == n * nb + nb == |block| * nb;
      forall p | 0 <= p < |flat| ensures p / nb < |block| && flat[p] == block[p / nb][p % nb] {
        if p >= n * nb {
          UnravelInverts(n, p - n * nb, nb);
        } else {
          assert flat[p] == Ravel(block[..n])[p];
        }
      }
    }
  }

  ghost predicate IsPairBlock(a: DocVectors, b: DocVectors, block: seq<seq<real>>) {
    && |block| == |a.rows|
    && (forall x :: 0 <= x < |block| ==> |block[x]| == |b.rows|)
    && forall x, y :: 0 <= x < |block| && 0 <= y < |block[x]| ==> block[x][y] == Sim(a, b, (x, y))
  }

  lemma BlockIsPair(docs: seq<DocVectors>, stacked: seq<Vector>, offsets: seq<nat>, i: nat, j: nat)
    requires IsStack(docs, stacked, offsets) && i < |docs| && j < |docs|
    ensures offsets[i] <= offsets[i + 1] <= |stacked| && offsets[j] <= offsets[j + 1] <= |stacked|
    ensures IsPairBlock(docs[i], docs[j], Block(Gram(stacked), offsets[i], offsets[i + 1], offsets[j], offsets[j + 1]))
  {
    assert Occupies(docs[i], stacked, offsets[i], offsets[i + 1]);
    assert Occupies(docs[j], stacked, offsets[j], offsets[j + 1]);
  }

  lemma BlockIsFlat(a: DocVectors, b: DocVectors, block: seq<seq<real>>)
    requires |b.rows| > 0 && IsPairBlock(a, b, block)
    ensures IsFlatBlock(a, b, Ravel(block))
  {
    RavelAt(block, |b.rows|);
  }

  lemma SelectionIsOverlap(a: DocVectors, b: DocVectors, flat: seq<real>, top: seq<nat>, raw: real,
                           topK: nat, floor: real, ceil: real)
    requires floor < ceil && IsFlatBlock(a, b, flat) && IsArgTop(flat, top, Selected(topK, |flat|))
    requires a.rows != [] && b.rows != []
    requires IsMean(raw, |top|, Total(Picked(flat, top)))
    ensures var cells := UnravelAll(top, |b.rows|);
            && InRange(a, b, cells)
            && IsOverlap(a, b, topK, floor, ceil,
              SemanticOverlap(Calibrate(raw, floor, ceil), raw, Evidence(a, b, cells)))
  {
    var cells := UnravelAll(top, |b.rows|);
    UnravelledTop(a, b, flat, top, topK);
    TotalIsSum(a, b, cells, Picked(flat, top));
    assert IsOverlapOf(a, b, cells, floor, ceil,
           SemanticOverlap(Calibrate(raw, floor, ceil), raw, Evidence(a, b, cells)));
  }

  function Picked(flat: seq<real>, top: seq<nat>): seq<real>
    requires forall t :: 0 <= t < |top| ==> top[t] < |flat|
  {
    seq(|top|, t requires 0 <= t < |top| => flat[top[t]])
  }

  /** One turn of the pair loop, from the block's flat array. */
  method OverlapOfBlock(a: DocVectors, b: DocVectors, flat: seq<real>, topK: nat, floor: real, ceil: real)
      returns (o: SemanticOverlap)
    requires floor < ceil && IsFlatBlock(a, b, flat) && a.rows != [] && b.rows != []
    ensures IsOverlap(a, b, topK, floor, ceil, o)
  {
    assert |a.rows| * |b.rows| > 0;
    var top := ArgTop(flat, Selected(topK, |flat|));
    var raw := Total(Picked(flat, top)) / |top| as real;
    SelectionIsOverlap(a, b, flat, top, raw, topK, floor, ceil);
    o := SemanticOverlap(Calibrate(raw, floor, ceil), raw, Evidence(a, b, UnravelAll(top, |b.rows|)));
  }

  method OverlapOfPair(docs: seq<DocVectors>, stacked: seq<Vector>, offsets: seq<nat>, i: nat, j: nat,
                       topK: nat, floor: real, ceil: real) returns (o: SemanticOverlap)
    requires floor < ceil && IsStack(docs, stacked, offsets) && i < j < |docs|
    ensures IsOverlap(docs[i], docs[j], topK, floor, ceil, o)
  {
    BlockIsPair(docs, stacked, offsets, i, j);
    var block := Block(Gram(stacked), offsets[i], offsets[i + 1], offsets[j], offsets[j + 1]);
    if |docs[j].rows| == 0 || |block| == 0 {
      return SemanticOverlap(0.0, 0.0, []);
    }
    BlockIsFlat(docs[i], docs[j], block);
    o := OverlapOfBlock(docs[i], docs[j], Ravel(block), topK, floor, ceil);
  }

  ghost predicate DistinctDocs(docs: seq<DocVectors>) {
    forall i, j :: 0 <= i < j < |docs| ==> docs[i].doc != docs[j].doc
  }

  ghost predicate HasOverlap(out: map<Pair, SemanticOverlap>, a: DocVectors, b: DocVectors, topK: nat, floor: real,
                             ceil: real)
    requires floor < ceil
  {
    (a.doc, b.doc) in out && IsOverlap(a, b, topK, floor, ceil, out[(a.doc, b.doc)])
  }

  /** The inner loop: one document against all later ones. */
  method OverlapsOf(docs: seq<DocVectors>, stacked: seq<Vector>, offsets: seq<nat>, i: nat,
                    topK: nat, floor: real, ceil: real) returns (row: map<Pair, SemanticOverlap>)
    requires floor < ceil && DistinctDocs(docs) && IsStack(docs, stacked, offsets) && i < |docs|
    ensures forall j :: i < j < |docs| ==> HasOverlap(row, docs[i], docs[j], topK, floor, ceil)
    ensures forall p :: p in row ==> p.0 == docs[i].doc && exists j :: i < j < |docs| && p.1 == docs[j].doc
  {
    row := map[];
    for j := i + 1 to |docs|
      invariant forall t :: i < t < j ==> HasOverlap(row, docs[i], docs[t], topK, floor, ceil)
      invariant forall p :: p in row ==> p.0 == docs[i].doc && exists t :: i < t < |docs| && p.1 == docs[t].doc
    {
      var o := OverlapOfPair(docs, stacked, offsets, i, j, topK, floor, ceil);
      row := row[(docs[i].doc, docs[j].doc) := o];
    }
  }

  /** All documents before `i` are done with. */
  ghost predicate PairsDone(out: map<Pair, SemanticOverlap>, docs: seq<DocVectors>, i: nat, topK: nat, floor: real,
                            ceil: real)
    requires floor < ceil && i <= |docs|
  {
    forall s, t :: 0 <= s < i && s < t < |docs| ==> HasOverlap(out, docs[s], docs[t], topK, floor, ceil)
  }

  /** No entry is for anything but a pair of documents in input order, the first before `i`. */
  ghost predicate OnlyPairs(out: map<Pair, SemanticOverlap>, docs: seq<DocVectors>, i: nat)
    requires i <= |docs|
  {
    forall p :: p in out ==> exists s, t :: 0 <= s < i && s < t < |docs| && p.0 == docs[s].doc && p.1 == docs[t].doc
  }

  lemma OthersKept(out: map<Pair, SemanticOverlap>, row: map<Pair, SemanticOverlap>, a: DocVectors, b: DocVectors,
                   topK: nat, floor: real, ceil: real)
    requires floor < ceil && HasOverlap(out, a, b, topK, floor, ceil) && (a.doc, b.doc) !in row
    ensures HasOverlap(out + row, a, b, topK, floor, ceil)
  {
    var p := (a.doc, b.doc);
    assert (out + row)[p] == out[p];
  }

  lemma NewTaken(out: map<Pair, SemanticOverlap>, row: map<Pair, SemanticOverlap>, a: DocVectors, b: DocVectors,
                 topK: nat, floor: real, ceil: real)
    requires floor < ceil && HasOverlap(row, a, b, topK, floor, ceil)
    ensures HasOverlap(out + row, a, b, topK, floor, ceil)
  {
    var p := (a.doc, b.doc);
    assert (out + row)[p] == row[p];
  }

  lemma RowExtends(out: map<Pair, SemanticOverlap>, row: map<Pair, SemanticOverlap>, docs: seq<DocVectors>, i: nat,
                   s: nat, t: nat, topK: nat, floor: real, ceil: real)
    requires floor < ceil && s <= i < |docs| && s < t < |docs| && DistinctDocs(docs)
    requires if s < i then HasOverlap(out, docs[s], docs[t], topK, floor, ceil)
             else HasOverlap(row, docs[s], docs[t], topK, floor, ceil)
    requires forall p :: p in row ==> p.0 == docs[i].doc
    ensures HasOverlap(out + row, docs[s], docs[t], topK, floor, ceil)
  {
    if s < i {
      OthersKept(out, row, docs[s], docs[t], topK, floor, ceil);
    } else {
      NewTaken(out, row, docs[s], docs[t], topK, floor, ceil);
    }
  }

  lemma RowsExtend(out: map<Pair, SemanticOverlap>, row: map<Pair, SemanticOverlap>, docs: seq<DocVectors>, i: nat,
                   topK: nat, floor: real, ceil: real)
    requires floor < ceil && i < |docs| && DistinctDocs(docs) && PairsDone(out, docs, i, topK, floor, ceil)
    requires forall j :: i < j < |docs| ==> HasOverlap(row, docs[i], docs[j], topK, floor, ceil)
    requires forall p :: p in row ==> p.0 == docs[i].doc
    ensures PairsDone(out + row, docs, i + 1, topK, floor, ceil)
  {
    forall s, t | 0 <= s <= i && s < t < |docs| ensures HasOverlap(out + row, docs[s], docs[t], topK, floor, ceil) {
      RowExtends(out, row, docs, i, s, t, topK, floor, ceil);
    }
  }

  lemma KeysExtend(out: map<Pair, SemanticOverlap>, row: map<Pair, SemanticOverlap>, docs: seq<DocVectors>, i: nat)
    requires i < |docs| && OnlyPairs(out, docs, i)
    requires forall p :: p in row ==> p.0 == docs[i].doc && exists j :: i < j < |docs| && p.1 == docs[j].doc
    ensures OnlyPairs(out + row, docs, i + 1)
  {
  }

  /** Every pair, in input order, gets the overlap of its two documents. */
  method SemanticOverlaps(docs: seq<DocVectors>, topK: nat, floor: real, ceil: real)
    returns (out: map<Pair, SemanticOverlap>)
    requires floor < ceil && DistinctDocs(docs)
    ensures forall i, j :: 0 <= i < j < |docs| ==> HasOverlap(out, docs[i], docs[j], topK, floor, ceil)
    ensures OnlyPairs(out, docs, |docs|)
  {
    out := map[];
    var stacked, offsets := Stack(docs);
    for i := 0 to |docs|
      invariant PairsDone(out, docs, i, topK, floor, ceil) && OnlyPairs(out, docs, i)
    {
      var row := OverlapsOf(docs, stacked, offsets, i, topK, floor, ceil);
      RowsExtend(out, row, docs, i, topK, floor, ceil);
      KeysExtend(out, row, docs, i);
      out := out + row;
    }
  }

  // ---- every pair has an overlap

  lemma {:induction false} SomeBest(flat: seq<real>, rest: seq<nat>) returns (m: nat)
    requires rest != [] && forall t :: 0 <= t < |rest| ==> rest[t] < |flat|
    ensures m < |rest| && forall t :: 0 <= t < |rest| ==> flat[rest[t]] <= flat[rest[m]]
  {
    var n := |rest| - 1;
    if n == 0 {
      m := 0;
    } else {
      m := SomeBest(flat, rest[..n]);
      forall t | 0 <= t < n ensures flat[rest[t]] <= flat[rest[m]] { assert rest[..n][t] == rest[t]; }
      if flat[rest[n]] > flat[rest[m]] { m := n; }
    }
  }

  lemma {:induction false} SomeSplit(flat: seq<real>, k: nat) returns (top: seq<nat>, rest: seq<nat>)
    requires k <= |flat|
    ensures |top| == k && Splits(|flat|, top, rest) && Above(flat, top, rest)
  {
    if k == 0 {
      top, rest := [], seq(|flat|, (i: nat) => i);
      assert top + rest == rest;
      forall p | 0 <= p < |flat| ensures p in rest { assert rest[p] == p; }
    } else {
      var top', rest' := SomeSplit(flat, k - 1);
      var m := SomeBest(flat, rest');
      MoveKeepsSplit(|flat|, top', rest', m);
      MoveKeepsAbove(flat, top', rest', m);
      top, rest := top' + [rest'[m]], rest'[..m] + rest'[m + 1..];
    }
  }

  lemma MeanExists(n: nat, total: real) returns (mean: real)
    requires n > 0
    ensures IsMean(mean, n, total)
  {
    mean := total / n as real;
  }

  lemma SelectionExists(flat: seq<real>, k: nat) returns (top: seq<nat>, raw: real)
    requires 0 < k <= |flat|
    ensures IsArgTop(flat, top, k) && IsMean(raw, |top|, Total(Picked(flat, top)))
  {
    var rest;
    top, rest := SomeSplit(flat, k);
    SplitIsArgTop(flat, top, rest);
    raw := MeanExists(k, Total(Picked(flat, top)));
  }

  lemma FlatBlockExists(a: DocVectors, b: DocVectors) returns (flat: seq<real>)
    requires a.rows != [] && b.rows != []
    ensures IsFlatBlock(a, b, flat) && |flat| > 0
  {
    var nb := |b.rows|;
    assert |a.rows| * nb > 0;
    flat := seq(|a.rows| * nb, (p: nat) => Sim(a, b, Unravel(p, nb)));
  }

  lemma OverlapExists(a: DocVectors, b: DocVectors, topK: nat, floor: real, ceil: real) returns (o: SemanticOverlap)
    requires floor < ceil
    ensures IsOverlap(a, b, topK, floor, ceil, o)
  {
    if a.rows == [] || b.rows == [] {
      o := SemanticOverlap(0.0, 0.0, []);
    } else {
      var flat := FlatBlockExists(a, b);
      var top, raw := SelectionExists(flat, Selected(topK, |flat|));
      SelectionIsOverlap(a, b, flat, top, raw, topK, floor, ceil);
      o := SemanticOverlap(Calibrate(raw, floor, ceil), raw, Evidence(a, b, UnravelAll(top, |b.rows|)));
    }
  }
}
