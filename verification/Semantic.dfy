/** Semantic overlap of two documents: the mean of the best cross-document chunk similarities. The matrix
    code (stack, slice a block, ravel, select, unravel) is proved against a definition on pairs of chunks. */
module Semantic {
  import opened Values
  import opened Sums
  import opened GraphRecompute

  /** A chunk of the first document and one of the second, by row. */
  type Cell = (nat, nat)

  datatype TopPair = TopPair(a: ChunkId, b: ChunkId, sim: real)

  datatype SemanticOverlap = SemanticOverlap(score: real, raw: real, pairs: seq<TopPair>)

  function Calibrate(raw: real, floor: real, ceil: real): real
    requires floor < ceil
  {
    var x := (raw - floor) / (ceil - floor);
    var y := if 0.0 < x then x else 0.0;
    if y < 1.0 then y else 1.0
  }

  lemma SignOfProduct(x: real, y: real)
    requires y > 0.0
    ensures x * y >= 0.0 <==> x >= 0.0
  {
    if x < 0.0 { assert -x * y > 0.0; }
  }

  lemma CalibrateMeaning(raw: real, more: real, floor: real, ceil: real)
    requires floor < ceil && raw <= more
    ensures 0.0 <= Calibrate(raw, floor, ceil) <= Calibrate(more, floor, ceil) <= 1.0
    ensures Calibrate(raw, floor, ceil) == 0.0 <==> raw <= floor
    ensures Calibrate(raw, floor, ceil) == 1.0 <==> raw >= ceil
    ensures floor <= raw <= ceil ==> Calibrate(raw, floor, ceil) * (ceil - floor) == raw - floor
  {
    var width := ceil - floor;
    var x, y := (raw - floor) / width, (more - floor) / width;
    assert x * width == raw - floor && y * width == more - floor;
    assert (y - x) * width == more - raw;
    SignOfProduct(y - x, width);
    assert x <= 0.0 <==> raw <= floor;
    assert (x - 1.0) * width == raw - ceil;
    SignOfProduct(x - 1.0, width);
  }

  // ---- the definition

  ghost function Cells(a: DocVectors, b: DocVectors): set<Cell> {
    set x, y | 0 <= x < |a.rows| && 0 <= y < |b.rows| :: (x, y)
  }

  function Sim(a: DocVectors, b: DocVectors, c: Cell): real {
    if c.0 < |a.rows| && c.1 < |b.rows| then Dot(a.rows[c.0].1, b.rows[c.1].1) else 0.0
  }

  ghost function Sims(a: DocVectors, b: DocVectors): Cell -> real {
    (c: Cell) => Sim(a, b, c)
  }

  predicate InRange(a: DocVectors, b: DocVectors, cells: seq<Cell>) {
    forall c :: c in cells ==> c.0 < |a.rows| && c.1 < |b.rows|
  }

  function Evidence(a: DocVectors, b: DocVectors, cells: seq<Cell>): seq<TopPair>
    requires InRange(a, b, cells)
  {
    seq(|cells|, t requires 0 <= t < |cells| =>
      TopPair(a.rows[cells[t].0].0, b.rows[cells[t].1].0, Sim(a, b, cells[t])))
  }

  ghost function Chosen(cells: seq<Cell>): set<Cell> {
    set c | c in cells
  }

  /** `[-k:]` of an array of `size`, with `k = min(top_k, size)`; a `top_k` of 0 therefore selects all. */
  function Selected(topK: nat, size: nat): nat {
    if topK == 0 || size < topK then size else topK
  }

  /** The cells listed, best first, are a best choice of the number asked for. */
  ghost predicate TopCells(a: DocVectors, b: DocVectors, cells: seq<Cell>, topK: nat) {
    && |cells| == Selected(topK, |a.rows| * |b.rows|)
    && Distinct(cells)
    && InRange(a, b, cells)
    && (forall s, t :: 0 <= s < t < |cells| ==> Sim(a, b, cells[s]) >= Sim(a, b, cells[t]))
    && Best(Cells(a, b), Chosen(cells), Sims(a, b))
  }

  ghost predicate IsOverlap(a: DocVectors, b: DocVectors, topK: nat, floor: real, ceil: real, o: SemanticOverlap)
    requires floor < ceil
  {
    if a.rows == [] || b.rows == [] then o == SemanticOverlap(0.0, 0.0, [])
    else exists cells :: TopCells(a, b, cells, topK) && IsOverlapOf(a, b, cells, floor, ceil, o)
  }

  predicate IsMean(mean: real, n: nat, total: real) {
    mean * n as real == total
  }

  ghost predicate IsOverlapOf(a: DocVectors, b: DocVectors, cells: seq<Cell>, floor: real, ceil: real,
                              o: SemanticOverlap)
    requires floor < ceil
  {
    && InRange(a, b, cells)
    && o.pairs == Evidence(a, b, cells)
    && IsMean(o.raw, |cells|, Sum(Chosen(cells), Sims(a, b)))
    && o.score == Calibrate(o.raw, floor, ceil)
  }

  // ---- the score belongs to the unordered pair

  function FlipCell(c: Cell): Cell {
    (c.1, c.0)
  }

  function FlipCells(cells: seq<Cell>): seq<Cell> {
    seq(|cells|, t requires 0 <= t < |cells| => FlipCell(cells[t]))
  }

  function FlipPairs(pairs: seq<TopPair>): seq<TopPair> {
    seq(|pairs|, t requires 0 <= t < |pairs| => TopPair(pairs[t].b, pairs[t].a, pairs[t].sim))
  }

  function Flip(o: SemanticOverlap): SemanticOverlap {
    o.(pairs := FlipPairs(o.pairs))
  }

  lemma SimFlips(a: DocVectors, b: DocVectors, c: Cell)
    ensures Sim(b, a, FlipCell(c)) == Sim(a, b, c)
  {
    if c.0 < |a.rows| && c.1 < |b.rows| {
      DotSymmetric(a.rows[c.0].1, b.rows[c.1].1);
    }
  }

  lemma ChosenFlips(cells: seq<Cell>, c: Cell)
    ensures c in Chosen(cells) <==> FlipCell(c) in Chosen(FlipCells(cells))
  {
    var flipped := FlipCells(cells);
    if c in cells {
      var t :| 0 <= t < |cells| && cells[t] == c;
      assert flipped[t] == FlipCell(c);
    }
    if FlipCell(c) in flipped {
      var t :| 0 <= t < |flipped| && flipped[t] == FlipCell(c);
      assert cells[t] == c;
    }
  }

  lemma BestFlips(a: DocVectors, b: DocVectors, cells: seq<Cell>)
    requires Best(Cells(a, b), Chosen(cells), Sims(a, b))
    ensures Best(Cells(b, a), Chosen(FlipCells(cells)), Sims(b, a))
  {
    forall c | c in Chosen(FlipCells(cells)) ensures c in Cells(b, a) && FlipCell(c) in Chosen(cells) {
      ChosenFlips(cells, FlipCell(c));
      assert FlipCell(c) in Cells(a, b);
    }
    forall x, y | x in Chosen(FlipCells(cells)) && y in Cells(b, a) - Chosen(FlipCells(cells))
      ensures Sims(b, a)(y) <= Sims(b, a)(x)
    {
      ChosenFlips(cells, FlipCell(y));
      SimFlips(a, b, FlipCell(x));
      SimFlips(a, b, FlipCell(y));
      assert FlipCell(y) in Cells(a, b) - Chosen(cells);
      assert Sims(a, b)(FlipCell(y)) <= Sims(a, b)(FlipCell(x));
    }
  }

  lemma FlipCellsOrdered(a: DocVectors, b: DocVectors, cells: seq<Cell>, s: nat, t: nat)
    requires s < t < |cells| && Distinct(cells) && Sim(a, b, cells[s]) >= Sim(a, b, cells[t])
    ensures FlipCells(cells)[s] != FlipCells(cells)[t]
    ensures Sim(b, a, FlipCells(cells)[s]) >= Sim(b, a, FlipCells(cells)[t])
  {
    SimFlips(a, b, cells[s]);
    SimFlips(a, b, cells[t]);
  }

  lemma TopCellsFlip(a: DocVectors, b: DocVectors, cells: seq<Cell>, topK: nat)
    requires TopCells(a, b, cells, topK)
    ensures TopCells(b, a, FlipCells(cells), topK)
  {
    BestFlips(a, b, cells);
    assert |a.rows| * |b.rows| == |b.rows| * |a.rows|;
    var flipped := FlipCells(cells);
    forall c | c in flipped ensures c.0 < |b.rows| && c.1 < |a.rows| {
      ChosenFlips(cells, FlipCell(c));
      assert FlipCell(c) in cells;
    }
    forall s, t | 0 <= s < t < |flipped|
      ensures flipped[s] != flipped[t] && Sim(b, a, flipped[s]) >= Sim(b, a, flipped[t])
    {
      FlipCellsOrdered(a, b, cells, s, t);
    }
  }

  lemma SumFlips(a: DocVectors, b: DocVectors, cells: seq<Cell>)
    ensures Sum(Chosen(FlipCells(cells)), Sims(b, a)) == Sum(Chosen(cells), Sims(a, b))
  {
    forall c | c in Chosen(cells)
      ensures FlipCell(c) in Chosen(FlipCells(cells)) && Sims(b, a)(FlipCell(c)) == Sims(a, b)(c)
    {
      ChosenFlips(cells, c);
      SimFlips(a, b, c);
    }
    forall c | c in Chosen(FlipCells(cells)) ensures exists d :: d in Chosen(cells) && FlipCell(d) == c {
      ChosenFlips(cells, FlipCell(c));
      assert FlipCell(FlipCell(c)) == c;
    }
    SumTransfers(Chosen(cells), Sims(a, b), Chosen(FlipCells(cells)), Sims(b, a), FlipCell);
  }

  lemma OverlapOfFlips(a: DocVectors, b: DocVectors, cells: seq<Cell>, floor: real, ceil: real, o: SemanticOverlap)
    requires floor < ceil && IsOverlapOf(a, b, cells, floor, ceil, o)
    requires InRange(b, a, FlipCells(cells))
    ensures IsOverlapOf(b, a, FlipCells(cells), floor, ceil, Flip(o))
  {
    SumFlips(a, b, cells);
    EvidenceFlips(a, b, cells);
  }

  /** Read in the other direction, an overlap is the overlap of the swapped documents with its evidence
      turned round. */
  lemma OverlapFlips(a: DocVectors, b: DocVectors, topK: nat, floor: real, ceil: real, o: SemanticOverlap)
    requires floor < ceil && IsOverlap(a, b, topK, floor, ceil, o)
    ensures IsOverlap(b, a, topK, floor, ceil, Flip(o))
  {
    if a.rows != [] && b.rows != [] {
      var cells :| TopCells(a, b, cells, topK) && IsOverlapOf(a, b, cells, floor, ceil, o);
      TopCellsFlip(a, b, cells, topK);
      OverlapOfFlips(a, b, cells, floor, ceil, o);
    }
  }

  lemma EvidenceFlips(a: DocVectors, b: DocVectors, cells: seq<Cell>)
    requires InRange(a, b, cells)
    requires InRange(b, a, FlipCells(cells))
    ensures Evidence(b, a, FlipCells(cells)) == FlipPairs(Evidence(a, b, cells))
  {
    forall t | 0 <= t < |cells| ensures Evidence(b, a, FlipCells(cells))[t] == FlipPairs(Evidence(a, b, cells))[t] {
      SimFlips(a, b, cells[t]);
    }
  }

  lemma {:induction false} ChosenSize(cells: seq<Cell>)
    requires Distinct(cells)
    ensures |Chosen(cells)| == |cells|
  {
    if cells == [] {
    } else {
      var n := |cells| - 1;
      ChosenSize(cells[..n]);
      assert Chosen(cells) == Chosen(cells[..n]) + {cells[n]};
    }
  }

  lemma BestCellsAgree(a: DocVectors, b: DocVectors, topK: nat, c: seq<Cell>, d: seq<Cell>)
    requires TopCells(a, b, c, topK) && TopCells(a, b, d, topK)
    ensures |c| == |d| && Sum(Chosen(c), Sims(a, b)) == Sum(Chosen(d), Sims(a, b))
  {
    ChosenSize(c);
    ChosenSize(d);
    BestTotalsAgree(Cells(a, b), Chosen(c), Chosen(d), Sims(a, b));
  }

  lemma SameMean(x: real, y: real, n: nat, total: real)
    requires n > 0 && IsMean(x, n, total) && IsMean(y, n, total)
    ensures x == y
  {
    assert (x - y) * n as real == 0.0;
  }

  lemma EvidencePerCell(a: DocVectors, b: DocVectors, cells: seq<Cell>, floor: real, ceil: real, o: SemanticOverlap)
    requires floor < ceil && IsOverlapOf(a, b, cells, floor, ceil, o)
    ensures |o.pairs| == |cells|
  {
  }

  lemma SameTotalSameScore(a: DocVectors, b: DocVectors, floor: real, ceil: real, c: seq<Cell>, d: seq<Cell>,
                           o: SemanticOverlap, p: SemanticOverlap)
    requires floor < ceil && |c| == |d| > 0 && Sum(Chosen(c), Sims(a, b)) == Sum(Chosen(d), Sims(a, b))
    requires IsOverlapOf(a, b, c, floor, ceil, o) && IsOverlapOf(a, b, d, floor, ceil, p)
    ensures o.score == p.score && o.raw == p.raw && |o.pairs| == |p.pairs|
  {
    SameMean(o.raw, p.raw, |c|, Sum(Chosen(c), Sims(a, b)));
    EvidencePerCell(a, b, c, floor, ceil, o);
    EvidencePerCell(a, b, d, floor, ceil, p);
  }

  /** Ties may change the evidence but never the score. */
  lemma OverlapScoreUnique(a: DocVectors, b: DocVectors, topK: nat, floor: real, ceil: real, o: SemanticOverlap,
                           p: SemanticOverlap)
    requires floor < ceil && IsOverlap(a, b, topK, floor, ceil, o) && IsOverlap(a, b, topK, floor, ceil, p)
    ensures o.score == p.score && o.raw == p.raw && |o.pairs| == |p.pairs|
  {
    if a.rows != [] && b.rows != [] {
      var c :| TopCells(a, b, c, topK) && IsOverlapOf(a, b, c, floor, ceil, o);
      var d :| TopCells(a, b, d, topK) && IsOverlapOf(a, b, d, floor, ceil, p);
      BestCellsAgree(a, b, topK, c, d);
      assert |a.rows| * |b.rows| > 0;
      SameTotalSameScore(a, b, floor, ceil, c, d, o, p);
    }
  }
}
