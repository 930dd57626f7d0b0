/** Where chunks begin and end, in terms of the document's own blocks and sentences: headings are walls, a chunk ends
    only where the next unit would not fit, and a sentence that fits the budget is never cut. */
module ChunkLayout {
  import opened Values
  import opened Text
  import opened Extract
  import opened Sentences
  import opened Units
  import opened UnitLayout
  import opened Packing
  import opened Chunker

  // ---- headings

  /** Section `s` starts the document or starts with a heading, and holds no other heading. */
  lemma {:induction false} CutAtHeadings(blocks: seq<Block>, s: nat)
    requires s < |Sections(blocks)|
    ensures var part := Sections(blocks)[s];
            part != [] && (s > 0 ==> part[0].isHeading) && forall j :: 0 < j < |part| ==> !part[j].isHeading
  {
    var init, b := blocks[..|blocks| - 1], blocks[|blocks| - 1];
    var before := Sections(init);
    if s < |before| { CutAtHeadings(init, s); }
  }

  /** The consecutive blocks that make up section `s`. */
  lemma SectionBlocks(blocks: seq<Block>, s: nat) returns (a: nat, b: nat)
    requires s < |Sections(blocks)|
    ensures a < b <= |blocks| && Sections(blocks)[s] == blocks[a..b]
    ensures a == Offset(Sections(blocks), s) && b == Offset(Sections(blocks), s + 1)
    ensures a == 0 || blocks[a].isHeading
    ensures forall j :: a < j < b ==> !blocks[j].isHeading
    ensures b < |blocks| ==> blocks[b].isHeading
  {
    a, b := SectionIsSlice(blocks, s);
    CutAtHeadings(blocks, s);
    var part := blocks[a..b];
    assert part[0] == blocks[a];
    forall j | a < j < b ensures !blocks[j].isHeading { assert part[j - a] == blocks[j]; }
    if s == 0 { FirstOffset(Sections(blocks)); }
    if b < |blocks| { SectionAfter(blocks, s, b); }
  }

  lemma FirstOffset<T>(parts: seq<seq<T>>)
    ensures Offset(parts, 0) == 0
  {
    assert parts[..0] == [];
  }

  lemma WholeOffset<T>(parts: seq<seq<T>>)
    ensures Offset(parts, |parts|) == |Flatten(parts)|
  {
    assert parts[..|parts|] == parts;
  }

  lemma SectionAfter(blocks: seq<Block>, s: nat, b: nat)
    requires s < |Sections(blocks)| && b == Offset(Sections(blocks), s + 1) && b < |blocks|
    ensures blocks[b].isHeading
  {
    SectionsPartition(blocks);
    WholeOffset(Sections(blocks));
    var a, c := SectionIsSlice(blocks, s + 1);
    CutAtHeadings(blocks, s + 1);
    assert blocks[a..c][0] == blocks[a];
  }

  lemma BlocksInOrder(full: string, blocks: seq<Block>, i: nat, j: nat)
    requires Tiles(full, BlockSpans(blocks), 0, |full|) && i < j < |blocks|
    ensures blocks[i].end <= blocks[j].start && blocks[i].start < blocks[i].end && blocks[j].start < blocks[j].end
  {
    TilesOrdered(full, BlockSpans(blocks), 0, |full|, i, j);
    TilesBounds(full, BlockSpans(blocks), 0, |full|, i);
    TilesBounds(full, BlockSpans(blocks), 0, |full|, j);
  }

  // ---- a chunk's section

  /** `c` lies within the blocks `a..b`, which only the first may head. */
  ghost predicate LiesIn(c: Chunk, blocks: seq<Block>, a: nat, b: nat) {
    && a < b <= |blocks| && blocks[a].start <= c.start < c.end <= blocks[b - 1].end
    && c.section == blocks[a].section
    && (a == 0 || blocks[a].isHeading) && (forall j :: a < j < b ==> !blocks[j].isHeading)
    && (b < |blocks| ==> blocks[b].isHeading)
  }

  lemma SectionChunkAt(sections: seq<seq<Block>>, full: string, p: Params, s: nat)
    requires ValidRatio(p) && (forall t :: 0 <= t < |sections| ==> sections[t] != []) && s < |sections|
    ensures AllSectionChunks(sections, full, p)[s] == SectionChunks(sections[s], full, p)
  {
  }

  /** The place of chunk `c` of the document: the `k`-th of section `s`. */
  lemma PlaceOfChunk(doc: Doc, p: Params, c: nat) returns (s: nat, k: nat)
    requires ValidRatio(p) && c < |Chunks(doc, p)|
    ensures s < |Sections(doc.blocks)| && Sections(doc.blocks)[s] != []
    ensures k < |SectionChunks(Sections(doc.blocks)[s], doc.fullText, p)|
    ensures Chunks(doc, p)[c] == SectionChunks(Sections(doc.blocks)[s], doc.fullText, p)[k]
    ensures c == Offset(ChunksBySection(doc, p), s) + k
    ensures ChunksBySection(doc, p)[s] == SectionChunks(Sections(doc.blocks)[s], doc.fullText, p)
  {
    SectionsPartition(doc.blocks);
    s, k := Locate(ChunksBySection(doc, p), c);
    SectionChunkAt(Sections(doc.blocks), doc.fullText, p, s);
  }

  lemma SliceLiesIn(c: Chunk, blocks: seq<Block>, a: nat, b: nat)
    requires a < b <= |blocks| && (a == 0 || blocks[a].isHeading) && (forall j :: a < j < b ==> !blocks[j].isHeading)
    requires b < |blocks| ==> blocks[b].isHeading
    requires var part := blocks[a..b];
             part[0].start <= c.start < c.end <= part[|part| - 1].end && c.section == part[0].section
    ensures LiesIn(c, blocks, a, b)
  {
  }

  lemma SectionChunkLiesIn(doc: Doc, p: Params, s: nat, k: nat, c: Chunk) returns (a: nat, b: nat)
    requires ValidDoc(doc.fullText, doc.blocks) && ValidRatio(p) && s < |Sections(doc.blocks)|
    requires Sections(doc.blocks)[s] != [] && k < |SectionChunks(Sections(doc.blocks)[s], doc.fullText, p)|
    requires c == SectionChunks(Sections(doc.blocks)[s], doc.fullText, p)[k]
    ensures LiesIn(c, doc.blocks, a, b) && Sections(doc.blocks)[s] == doc.blocks[a..b]
  {
    a, b := SectionBlocks(doc.blocks, s);
    ChunkIsSlice(doc, p, s, k);
    SliceLiesIn(c, doc.blocks, a, b);
  }

  lemma ChunkLiesIn(doc: Doc, p: Params, c: nat) returns (a: nat, b: nat)
    requires ValidDoc(doc.fullText, doc.blocks) && ValidRatio(p) && c < |Chunks(doc, p)|
    ensures LiesIn(Chunks(doc, p)[c], doc.blocks, a, b)
  {
    var s, k := PlaceOfChunk(doc, p, c);
    a, b := SectionChunkLiesIn(doc, p, s, k, Chunks(doc, p)[c]);
  }

  predicate Crosses(c: Chunk, pos: nat) {
    c.start < pos < c.end
  }

  lemma NotAcross(full: string, blocks: seq<Block>, c: Chunk, a: nat, b: nat, h: nat)
    requires Tiles(full, BlockSpans(blocks), 0, |full|) && LiesIn(c, blocks, a, b)
    requires h < |blocks| && blocks[h].isHeading
    ensures !Crosses(c, blocks[h].start)
  {
    if h < a { BlocksInOrder(full, blocks, h, a); }
    if b <= h { BlocksInOrder(full, blocks, b - 1, h); }
  }

  /** A heading is a hard wall: no chunk begins before it and ends after its start. */
  lemma HeadingsAreWalls(doc: Doc, p: Params, c: Chunk, h: Block)
    requires ValidDoc(doc.fullText, doc.blocks) && ValidRatio(p)
    requires c in Chunks(doc, p) && h in doc.blocks && h.isHeading
    ensures !Crosses(c, h.start)
  {
    var i :| 0 <= i < |Chunks(doc, p)| && Chunks(doc, p)[i] == c;
    var j :| 0 <= j < |doc.blocks| && doc.blocks[j] == h;
    var a, b := ChunkLiesIn(doc, p, i);
    NotAcross(doc.fullText, doc.blocks, c, a, b, j);
  }

  /** Block `h` heads the stretch of the document that `pos` lies in. */
  ghost predicate Heads(blocks: seq<Block>, h: nat, pos: nat) {
    && h < |blocks| && blocks[h].start <= pos && (h == 0 || blocks[h].isHeading)
    && forall j :: h < j < |blocks| && blocks[j].isHeading ==> pos < blocks[j].start
  }

  lemma FirstBlockHeads(full: string, blocks: seq<Block>, c: Chunk, a: nat, b: nat)
    requires Tiles(full, BlockSpans(blocks), 0, |full|) && LiesIn(c, blocks, a, b)
    ensures Heads(blocks, a, c.start)
  {
    forall j | a < j < |blocks| && blocks[j].isHeading ensures c.start < blocks[j].start {
      BlocksInOrder(full, blocks, b - 1, j);
    }
  }

  /** A chunk carries the section of the last heading at or before its start, or of the first block if there is no
      such heading. */
  lemma SectionOfChunk(doc: Doc, p: Params, c: Chunk) returns (h: nat)
    requires ValidDoc(doc.fullText, doc.blocks) && ValidRatio(p) && c in Chunks(doc, p)
    ensures Heads(doc.blocks, h, c.start) && c.section == doc.blocks[h].section
  {
    var i :| 0 <= i < |Chunks(doc, p)| && Chunks(doc, p)[i] == c;
    var a, b := ChunkLiesIn(doc, p, i);
    FirstBlockHeads(doc.fullText, doc.blocks, c, a, b);
    h := a;
  }

  // ---- no chunk ends early

  lemma NextInSection(parts: seq<seq<Chunk>>, s: nat, k: nat, t: nat, l: nat)
    requires s < |parts| && t < |parts| && k < |parts[s]| && l < |parts[t]|
    requires Offset(parts, t) + l == Offset(parts, s) + k + 1
    ensures (t == s && l == k + 1) || t > s
  {
    FlattenSlice(parts, s);
    FlattenSlice(parts, t);
    if t < s { OffsetsGrow(parts, t + 1, s); }
  }

  predicate HeadingBetween(blocks: seq<Block>, from: nat, to: nat) {
    exists h :: 0 <= h < |blocks| && blocks[h].isHeading && from < blocks[h].start <= to
  }

  lemma LaterSectionIsWalled(full: string, blocks: seq<Block>, c: Chunk, d: Chunk, s: nat, t: nat)
    requires Tiles(full, BlockSpans(blocks), 0, |full|) && s < t < |Sections(blocks)|
    requires Sections(blocks)[s] != [] && Sections(blocks)[t] != []
    requires var part := Sections(blocks)[s]; c.start < c.end <= part[|part| - 1].end
    requires Sections(blocks)[t][0].start <= d.start
    ensures HeadingBetween(blocks, c.start, d.start)
  {
    var a, b := SectionBlocks(blocks, s);
    var a', b' := SectionBlocks(blocks, t);
    OffsetsGrow(Sections(blocks), s + 1, t);
    BlocksInOrder(full, blocks, b - 1, a');
    assert blocks[a..b][b - a - 1] == blocks[b - 1] && blocks[a'..b'][0] == blocks[a'];
  }

  lemma SameSection(doc: Doc, p: Params, c: nat) returns (s: nat, k: nat)
    requires ValidDoc(doc.fullText, doc.blocks) && ValidRatio(p) && c + 1 < |Chunks(doc, p)|
    requires !HeadingBetween(doc.blocks, Chunks(doc, p)[c].start, Chunks(doc, p)[c + 1].start)
    ensures s < |Sections(doc.blocks)| && Sections(doc.blocks)[s] != []
    ensures k + 1 < |SectionChunks(Sections(doc.blocks)[s], doc.fullText, p)|
    ensures Chunks(doc, p)[c] == SectionChunks(Sections(doc.blocks)[s], doc.fullText, p)[k]
  {
    s, k := PlaceOfChunk(doc, p, c);
    var t, l := PlaceOfChunk(doc, p, c + 1);
    NextInSection(ChunksBySection(doc, p), s, k, t, l);
    ChunkIsSlice(doc, p, s, k);
    ChunkIsSlice(doc, p, t, l);
    if t > s { LaterSectionIsWalled(doc.fullText, doc.blocks, Chunks(doc, p)[c], Chunks(doc, p)[c + 1], s, t); }
  }

  lemma FullRun(us: seq<Unit>, target: nat, budget: nat, k: nat)
    requires k + 1 < |SectionRuns(us, target, budget)|
    ensures var r := SectionRuns(us, target, budget)[k];
            r.from < r.to < |us| && Cost(us, r.from, r.to) + us[r.to].tokens > target
  {
    RunsWithinBudget(us, target, budget, k);
    RunsWithinBudget(us, target, budget, k + 1);
    SectionRunsAreGood(us, target, budget);
    RunAt(us, SectionRuns(us, target, budget), 0, 0, target, budget, k);
  }

  /** `c` took the units `r` of `us`, and the next one would not have fitted. */
  predicate TookAllThatFit(c: Chunk, us: seq<Unit>, r: Run, full: string, p: Params) {
    MadeFrom(c, us, r, full, p) && r.to < |us| && Cost(us, r.from, r.to) + us[r.to].tokens > p.target
  }

  /** A chunk that is not followed by a heading ends only where the next unit of its section did not fit. */
  lemma EndsOnlyWhenFull(doc: Doc, p: Params, c: nat) returns (a: nat, b: nat, r: Run)
    requires ValidDoc(doc.fullText, doc.blocks) && ValidRatio(p) && c + 1 < |Chunks(doc, p)|
    requires !HeadingBetween(doc.blocks, Chunks(doc, p)[c].start, Chunks(doc, p)[c + 1].start)
    ensures a < b <= |doc.blocks|
    ensures TookAllThatFit(Chunks(doc, p)[c], UnitsOf(doc.blocks[a..b], doc.fullText, p), r, doc.fullText, p)
  {
    var s, k := SameSection(doc, p, c);
    a, b := SectionBlocks(doc.blocks, s);
    var part := doc.blocks[a..b];
    ChunkAt(part, doc.fullText, p, k);
    r := RunsOf(part, doc.fullText, p)[k];
    FullRun(UnitsOf(part, doc.fullText, p), p.target, OverlapBudget(p), k);
  }

  // ---- no sentence, heading or word that fits is cut

  lemma NoCutInTile(full: string, us: seq<Unit>, lo: nat, hi: nat, r: Run, v: Unit)
    requires lo <= hi <= |full| && Tiles(full, UnitSpans(us), lo, hi) && r.from < r.to <= |us| && v in us
    ensures !Inside(SpanOfUnit(v), us[r.from].start) && !Inside(SpanOfUnit(v), us[r.to - 1].end)
  {
    var y :| 0 <= y < |us| && us[y] == v;
    EndsOutside(full, us, lo, hi, r.from, y);
    EndsOutside(full, us, lo, hi, r.to - 1, y);
  }

  lemma EndsOutside(full: string, us: seq<Unit>, lo: nat, hi: nat, x: nat, y: nat)
    requires lo <= hi <= |full| && Tiles(full, UnitSpans(us), lo, hi) && x < |us| && y < |us|
    ensures !Inside(SpanOfUnit(us[y]), us[x].start) && !Inside(SpanOfUnit(us[y]), us[x].end)
  {
    TilesBounds(full, UnitSpans(us), lo, hi, x);
    TilesBounds(full, UnitSpans(us), lo, hi, y);
    if x < y { TilesOrdered(full, UnitSpans(us), lo, hi, x, y); }
    if y < x { TilesOrdered(full, UnitSpans(us), lo, hi, y, x); }
  }

  /** Neither end of the chunk is inside the span. */
  predicate Keeps(c: Chunk, s: Span) {
    !Inside(s, c.start) && !Inside(s, c.end)
  }

  lemma MadeFromKeeps(c: Chunk, us: seq<Unit>, r: Run, full: string, p: Params, lo: nat, hi: nat, v: Unit)
    requires lo <= hi <= |full| && Tiles(full, UnitSpans(us), lo, hi) && MadeFrom(c, us, r, full, p) && v in us
    ensures Keeps(c, SpanOfUnit(v))
  {
    NoCutInTile(full, us, lo, hi, r, v);
  }

  lemma OwnUnitKept(full: string, part: seq<Block>, p: Params, k: nat, v: Unit)
    requires IsSection(full, part) && ValidRatio(p) && k < |SectionChunks(part, full, p)| && v in UnitsOf(part, full, p)
    ensures Keeps(SectionChunks(part, full, p)[k], SpanOfUnit(v))
  {
    var us, c := UnitsOf(part, full, p), SectionChunks(part, full, p)[k];
    UnitsTileSection(full, part, p);
    ChunkAt(part, full, p, k);
    MadeFromKeeps(c, us, RunsOf(part, full, p)[k], full, p, part[0].start, part[|part| - 1].end, v);
  }

  /** What lies in a block outside the chunk's own cannot be cut by it. */
  lemma OtherBlockKept(full: string, blocks: seq<Block>, c: Chunk, a: nat, b: nat, g: nat, s: Span)
    requires Tiles(full, BlockSpans(blocks), 0, |full|) && LiesIn(c, blocks, a, b) && g < |blocks| && (g < a || b <= g)
    requires blocks[g].start <= s.start <= s.end <= blocks[g].end
    ensures Keeps(c, s)
  {
    if g < a { BlocksInOrder(full, blocks, g, a); } else { BlocksInOrder(full, blocks, b - 1, g); }
  }

  /** The span of a unit that block `g` contributes wherever it is. */
  ghost predicate UnitOfBlock(full: string, blocks: seq<Block>, p: Params, g: nat, v: Unit) {
    && g < |blocks| && blocks[g].start <= v.start <= v.end <= blocks[g].end
    && forall a, b :: 0 <= a <= g < b <= |blocks| ==> v in UnitsOf(blocks[a..b], full, p)
  }

  lemma UnitOfBlockKept(doc: Doc, p: Params, c: Chunk, g: nat, v: Unit)
    requires ValidDoc(doc.fullText, doc.blocks) && ValidRatio(p) && c in Chunks(doc, p)
    requires UnitOfBlock(doc.fullText, doc.blocks, p, g, v)
    ensures Keeps(c, SpanOfUnit(v))
  {
    var i :| 0 <= i < |Chunks(doc, p)| && Chunks(doc, p)[i] == c;
    var s, k := PlaceOfChunk(doc, p, i);
    var a, b := SectionChunkLiesIn(doc, p, s, k, c);
    if a <= g < b {
      SectionsAreSections(doc, s);
      OwnUnitKept(doc.fullText, Sections(doc.blocks)[s], p, k, v);
    } else {
      OtherBlockKept(doc.fullText, doc.blocks, c, a, b, g, SpanOfUnit(v));
    }
  }

  lemma SentenceOfUnit(doc: Doc, p: Params, g: nat, i: nat)
    requires ValidDoc(doc.fullText, doc.blocks) && g < |doc.blocks| && !doc.blocks[g].isHeading
    requires i < |SentenceSpans(doc.blocks[g].text)|
    requires SliceCost(doc.blocks[g].text, SentenceSpans(doc.blocks[g].text)[i], p.count) <= p.target
    ensures UnitOfBlock(doc.fullText, doc.blocks, p, g,
              SentenceUnit(doc.blocks[g], SentenceSpans(doc.blocks[g].text)[i], p.count))
  {
    var b := doc.blocks[g];
    SentenceIs(b.text, i);
    forall x, y | 0 <= x <= g < y <= |doc.blocks|
      ensures SentenceUnit(b, SentenceSpans(b.text)[i], p.count) in UnitsOf(doc.blocks[x..y], doc.fullText, p)
    {
      assert doc.blocks[x..y][g - x] == b;
      SentenceIsUnit(doc.blocks[x..y], doc.fullText, p.target, p.count, g - x, i);
    }
  }

  /** A sentence within the budget is never cut. */
  lemma SentencesStayWhole(doc: Doc, p: Params, c: Chunk, g: nat, i: nat)
    requires ValidDoc(doc.fullText, doc.blocks) && ValidRatio(p) && c in Chunks(doc, p)
    requires g < |doc.blocks| && !doc.blocks[g].isHeading && i < |SentenceSpans(doc.blocks[g].text)|
    requires SliceCost(doc.blocks[g].text, SentenceSpans(doc.blocks[g].text)[i], p.count) <= p.target
    ensures var b, s := doc.blocks[g], SentenceSpans(doc.blocks[g].text)[i];
            Keeps(c, Span(b.start + s.start, b.start + s.end))
  {
    SentenceOfUnit(doc, p, g, i);
    UnitOfBlockKept(doc, p, c, g, SentenceUnit(doc.blocks[g], SentenceSpans(doc.blocks[g].text)[i], p.count));
  }

  /** Nor is a heading. */
  lemma HeadingsStayWhole(doc: Doc, p: Params, c: Chunk, g: nat)
    requires ValidDoc(doc.fullText, doc.blocks) && ValidRatio(p) && c in Chunks(doc, p)
    requires g < |doc.blocks| && doc.blocks[g].isHeading && p.count(doc.blocks[g].text) <= p.target
    ensures Keeps(c, Span(doc.blocks[g].start, doc.blocks[g].end))
  {
    var b := doc.blocks[g];
    HeadingOfUnit(doc, p, g);
    UnitOfBlockKept(doc, p, c, g, Unit(b.start, b.end, b.page, p.count(b.text)));
  }

  lemma HeadingOfUnit(doc: Doc, p: Params, g: nat)
    requires ValidDoc(doc.fullText, doc.blocks) && g < |doc.blocks|
    requires doc.blocks[g].isHeading && p.count(doc.blocks[g].text) <= p.target
    ensures var b := doc.blocks[g];
            UnitOfBlock(doc.fullText, doc.blocks, p, g, Unit(b.start, b.end, b.page, p.count(b.text)))
  {
    var b := doc.blocks[g];
    forall x, y | 0 <= x <= g < y <= |doc.blocks|
      ensures Unit(b.start, b.end, b.page, p.count(b.text)) in UnitsOf(doc.blocks[x..y], doc.fullText, p)
    {
      assert doc.blocks[x..y][g - x] == b;
      HeadingIsUnit(doc.blocks[x..y], doc.fullText, p.target, p.count, g - x);
    }
  }

  lemma EndsKeepWord(c: Chunk, us: seq<Unit>, r: Run, full: string, p: Params, w: Span)
    requires MadeFrom(c, us, r, full, p) && KeepsWord(UnitSpans(us), w)
    ensures Keeps(c, w)
  {
    assert UnitSpans(us)[r.from].start == us[r.from].start && UnitSpans(us)[r.to - 1].end == us[r.to - 1].end;
  }

  /** A word within the budget, of block `g` of the section. */
  predicate IsFittingWord(full: string, blocks: seq<Block>, p: Params, g: nat, w: Span) {
    g < |blocks| && IsWord(full, w, blocks[g].start, blocks[g].end) && p.count(full[w.start..w.end]) <= p.target
  }

  lemma OwnWordKept(full: string, part: seq<Block>, p: Params, k: nat, g: nat, w: Span)
    requires IsSection(full, part) && ValidRatio(p) && k < |SectionChunks(part, full, p)|
    requires IsFittingWord(full, part, p, g, w)
    ensures Keeps(SectionChunks(part, full, p)[k], w)
  {
    ChunkAt(part, full, p, k);
    UnitsKeepWord(full, part, p, g, w);
    EndsKeepWord(SectionChunks(part, full, p)[k], UnitsOf(part, full, p), RunsOf(part, full, p)[k], full, p, w);
  }

  lemma UnitsKeepWord(full: string, part: seq<Block>, p: Params, g: nat, w: Span)
    requires IsSection(full, part) && IsFittingWord(full, part, p, g, w)
    ensures KeepsWord(UnitSpans(UnitsOf(part, full, p)), w)
  {
    SectionKeepsWord(part, full, p.target, p.count, part[0].start, part[|part| - 1].end, g, w);
  }

  lemma WordInSlice(full: string, blocks: seq<Block>, p: Params, a: nat, b: nat, g: nat, w: Span)
    requires IsFittingWord(full, blocks, p, g, w) && a <= g < b <= |blocks|
    ensures IsFittingWord(full, blocks[a..b], p, g - a, w)
  {
    assert blocks[a..b][g - a] == blocks[g];
  }

  lemma SliceKeepsWord(full: string, blocks: seq<Block>, part: seq<Block>, p: Params, a: nat, b: nat, k: nat, g: nat,
                       w: Span)
    requires ValidRatio(p) && a <= g < b <= |blocks| && part == blocks[a..b] && IsSection(full, part)
    requires k < |SectionChunks(part, full, p)| && IsFittingWord(full, blocks, p, g, w)
    ensures Keeps(SectionChunks(part, full, p)[k], w)
  {
    WordInSlice(full, blocks, p, a, b, g, w);
    OwnWordKept(full, part, p, k, g - a, w);
  }

  lemma WordKept(doc: Doc, p: Params, c: Chunk, s: nat, k: nat, g: nat, w: Span)
    requires ValidDoc(doc.fullText, doc.blocks) && ValidRatio(p) && s < |Sections(doc.blocks)|
    requires Sections(doc.blocks)[s] != [] && k < |SectionChunks(Sections(doc.blocks)[s], doc.fullText, p)|
    requires c == SectionChunks(Sections(doc.blocks)[s], doc.fullText, p)[k]
    requires IsFittingWord(doc.fullText, doc.blocks, p, g, w)
    ensures Keeps(c, w)
  {
    var a, b := SectionChunkLiesIn(doc, p, s, k, c);
    SectionsAreSections(doc, s);
    if a <= g < b {
      SliceKeepsWord(doc.fullText, doc.blocks, Sections(doc.blocks)[s], p, a, b, k, g, w);
    } else {
      OtherWordKept(doc.fullText, doc.blocks, p, c, a, b, g, w);
    }
  }

  lemma OtherWordKept(full: string, blocks: seq<Block>, p: Params, c: Chunk, a: nat, b: nat, g: nat, w: Span)
    requires Tiles(full, BlockSpans(blocks), 0, |full|) && LiesIn(c, blocks, a, b)
    requires IsFittingWord(full, blocks, p, g, w) && (g < a || b <= g)
    ensures Keeps(c, w)
  {
    OtherBlockKept(full, blocks, c, a, b, g, w);
  }

  /** Nor, whatever the sentence's length, is a word within the budget. */
  lemma WordsStayWhole(doc: Doc, p: Params, c: Chunk, g: nat, w: Span)
    requires ValidDoc(doc.fullText, doc.blocks) && ValidRatio(p) && c in Chunks(doc, p)
    requires IsFittingWord(doc.fullText, doc.blocks, p, g, w)
    ensures Keeps(c, w)
  {
    var i :| 0 <= i < |Chunks(doc, p)| && Chunks(doc, p)[i] == c;
    var s, k := PlaceOfChunk(doc, p, i);
    WordKept(doc, p, c, s, k, g, w);
  }

  // ---- overlap

  predicate WithinRatio(n: nat, p: Params) {
    n as real <= p.target as real * p.ratio
  }

  lemma BudgetIsFloor(p: Params, n: nat)
    requires ValidRatio(p)
    ensures n <= OverlapBudget(p) <==> WithinRatio(n, p)
  {
  }

  /** The second run starts with the longest tail of the first one's new units that is within the ratio of the target
      and leaves room for the next unit. */
  predicate CarriesLongest(us: seq<Unit>, r: Run, s: Run, p: Params) {
    && r.first < s.from <= s.first == r.to < |us|
    && WithinRatio(Cost(us, s.from, s.first), p)
    && forall g :: r.first < g < s.from ==>
         !WithinRatio(Cost(us, g, s.first), p) || Cost(us, g, s.first) + us[s.first].tokens > p.target
  }

  lemma OverlapByRatio(full: string, part: seq<Block>, p: Params, k: nat)
    requires ValidRatio(p) && part != [] && k + 1 < |SectionChunks(part, full, p)|
    ensures CarriesLongest(UnitsOf(part, full, p), RunsOf(part, full, p)[k], RunsOf(part, full, p)[k + 1], p)
  {
    var us, budget := UnitsOf(part, full, p), OverlapBudget(p);
    var runs := SectionRuns(us, p.target, budget);
    SectionRunsAreGood(us, p.target, budget);
    RunAt(us, runs, 0, 0, p.target, budget, k);
    var r, s := runs[k], runs[k + 1];
    BudgetIsFloor(p, Cost(us, s.from, s.first));
    forall g | r.first < g < s.from
      ensures !WithinRatio(Cost(us, g, s.first), p) || Cost(us, g, s.first) + us[s.first].tokens > p.target
    {
      BudgetIsFloor(p, Cost(us, g, s.first));
    }
  }

  // ---- pages

  predicate HasPage(us: seq<Unit>, page: Option<int>) {
    exists i :: 0 <= i < |us| && us[i].page == page
  }

  predicate NoneBelow(us: seq<Unit>, lo: Option<int>) {
    forall i :: 0 <= i < |us| && us[i].page.Some? ==> lo.Some? && lo.value <= us[i].page.value
  }

  predicate NoneAbove(us: seq<Unit>, hi: Option<int>) {
    forall i :: 0 <= i < |us| && us[i].page.Some? ==> hi.Some? && us[i].page.value <= hi.value
  }

  lemma HasPageStill(us: seq<Unit>, page: Option<int>)
    requires us != [] && HasPage(us[..|us| - 1], page)
    ensures HasPage(us, page)
  {
    var i :| 0 <= i < |us| - 1 && us[..|us| - 1][i].page == page;
    assert us[i].page == page;
  }

  lemma {:induction false} LeastPage(us: seq<Unit>)
    ensures NoneBelow(us, MinPage(us)) && (MinPage(us).Some? ==> HasPage(us, MinPage(us)))
  {
    if us == [] {
    } else {
      var n := |us| - 1;
      LeastPage(us[..n]);
      assert forall i :: 0 <= i < n ==> us[i] == us[..n][i];
      if MinPage(us) == us[n].page { assert HasPage(us, us[n].page); } else { HasPageStill(us, MinPage(us)); }
    }
  }

  lemma {:induction false} GreatestPage(us: seq<Unit>)
    ensures NoneAbove(us, MaxPage(us)) && (MaxPage(us).Some? ==> HasPage(us, MaxPage(us)))
  {
    if us == [] {
    } else {
      var n := |us| - 1;
      GreatestPage(us[..n]);
      assert forall i :: 0 <= i < n ==> us[i] == us[..n][i];
      if MaxPage(us) == us[n].page { assert HasPage(us, us[n].page); } else { HasPageStill(us, MaxPage(us)); }
    }
  }

  /** The chunk and the block have text in common. */
  predicate Overlaps(c: Chunk, b: Block) {
    c.start < b.end && b.start < c.end
  }

  predicate OverlapsPage(c: Chunk, blocks: seq<Block>, page: Option<int>) {
    exists g :: 0 <= g < |blocks| && Overlaps(c, blocks[g]) && blocks[g].page == page
  }

  predicate InSomeBlock(u: Unit, part: seq<Block>) {
    exists g :: 0 <= g < |part| && Within(u, part[g].start, part[g].end, part[g].page)
  }

  /** Units that cover a stretch of blocks, each inside one of them and on its page. */
  ghost predicate Paged(full: string, part: seq<Block>, us: seq<Unit>, lo: nat, hi: nat) {
    && lo <= hi <= |full| && Tiles(full, BlockSpans(part), lo, hi) && Tiles(full, UnitSpans(us), lo, hi)
    && AllExact(full, part) && forall i :: 0 <= i < |us| ==> InSomeBlock(us[i], part)
  }

  predicate EndsAt(c: Chunk, us: seq<Unit>, r: Run) {
    r.from < r.to <= |us| && c.start == us[r.from].start && c.end == us[r.to - 1].end
  }

  lemma SectionIsPaged(full: string, part: seq<Block>, p: Params)
    requires IsSection(full, part)
    ensures Paged(full, part, UnitsOf(part, full, p), part[0].start, part[|part| - 1].end)
  {
    var us := UnitsOf(part, full, p);
    UnitsTileSection(full, part, p);
    forall i | 0 <= i < |us| ensures InSomeBlock(us[i], part) {
      var g := UnitFrom(part, full, p.target, p.count, i);
    }
  }

  lemma UnitInChunk(full: string, us: seq<Unit>, lo: nat, hi: nat, r: Run, i: nat)
    requires lo <= hi <= |full| && Tiles(full, UnitSpans(us), lo, hi) && r.from <= i < r.to <= |us|
    ensures us[r.from].start <= us[i].start < us[i].end <= us[r.to - 1].end
  {
    TilesBounds(full, UnitSpans(us), lo, hi, i);
    if r.from < i { TilesOrdered(full, UnitSpans(us), lo, hi, r.from, i); }
    if i < r.to - 1 { TilesOrdered(full, UnitSpans(us), lo, hi, i, r.to - 1); }
    TilesBounds(full, UnitSpans(us), lo, hi, r.from);
    TilesBounds(full, UnitSpans(us), lo, hi, r.to - 1);
  }

  lemma PagedUnit(us: seq<Unit>, r: Run, page: Option<int>) returns (i: nat)
    requires r.from <= r.to <= |us| && HasPage(us[r.from..r.to], page)
    ensures r.from <= i < r.to && us[i].page == page
  {
    var own := us[r.from..r.to];
    var j :| 0 <= j < |own| && own[j].page == page;
    i := r.from + j;
  }

  lemma BlockOfUnit(part: seq<Block>, u: Unit, c: Chunk)
    requires InSomeBlock(u, part) && c.start <= u.start < u.end <= c.end
    ensures OverlapsPage(c, part, u.page)
  {
    var g :| 0 <= g < |part| && Within(u, part[g].start, part[g].end, part[g].page);
    assert Overlaps(c, part[g]);
  }

  /** A page that one of the chunk's units is on is a page of a block the chunk overlaps. */
  lemma PageOfBlock(full: string, part: seq<Block>, us: seq<Unit>, lo: nat, hi: nat, c: Chunk, r: Run,
                    page: Option<int>)
    requires Paged(full, part, us, lo, hi) && EndsAt(c, us, r) && HasPage(us[r.from..r.to], page)
    ensures OverlapsPage(c, part, page)
  {
    var i := PagedUnit(us, r, page);
    UnitInChunk(full, us, lo, hi, r, i);
    BlockOfUnit(part, us[i], c);
  }

  lemma StartsWithText(full: string, b: Block)
    requires Exact(full, b)
    ensures !IsSpace(full[b.start])
  {
    assert full[b.start..b.end][0] == full[b.start];
  }

  lemma UnitAtBlockStart(full: string, part: seq<Block>, us: seq<Unit>, lo: nat, hi: nat, r: Run, g: nat)
    returns (i: nat)
    requires Paged(full, part, us, lo, hi) && r.from < r.to <= |us| && g < |part|
    requires us[r.from].start <= part[g].start < us[r.to - 1].end
    ensures r.from <= i < r.to && us[i].start <= part[g].start < us[i].end
  {
    PartInOrder(full, part, lo, hi, g, g);
    StartsWithText(full, part[g]);
    i := UnitAround(full, us, lo, hi, r, part[g].start);
  }

  lemma UnitAround(full: string, us: seq<Unit>, lo: nat, hi: nat, r: Run, pos: nat) returns (i: nat)
    requires lo <= pos < hi <= |full| && Tiles(full, UnitSpans(us), lo, hi) && !IsSpace(full[pos])
    requires r.from < r.to <= |us| && us[r.from].start <= pos < us[r.to - 1].end
    ensures r.from <= i < r.to && us[i].start <= pos < us[i].end
  {
    i := SpanOf(full, UnitSpans(us), lo, hi, pos);
    SpanBetween(full, UnitSpans(us), lo, hi, r.from, r.to, i, pos);
  }

  lemma PartInOrder(full: string, part: seq<Block>, lo: nat, hi: nat, i: nat, j: nat)
    requires lo <= hi <= |full| && Tiles(full, BlockSpans(part), lo, hi) && i <= j < |part|
    ensures lo <= part[i].start < part[i].end <= hi && (i < j ==> part[i].end <= part[j].start)
  {
    SpanAt(part, i);
    SpanAt(part, j);
    TilesBounds(full, BlockSpans(part), lo, hi, i);
    if i < j { TilesOrdered(full, BlockSpans(part), lo, hi, i, j); }
  }

  /** The unit and the block have text in common. */
  predicate Touches(u: Unit, b: Block) {
    b.start <= u.start < b.end || u.start <= b.start < u.end
  }

  /** A unit of the chunk that touches the block. */
  lemma UnitInBlock(full: string, part: seq<Block>, us: seq<Unit>, lo: nat, hi: nat, c: Chunk, r: Run, g: nat)
    returns (i: nat)
    requires Paged(full, part, us, lo, hi) && EndsAt(c, us, r) && g < |part| && Overlaps(c, part[g])
    ensures r.from <= i < r.to && Touches(us[i], part[g])
  {
    if c.start <= part[g].start { i := UnitAtBlockStart(full, part, us, lo, hi, r, g); } else { i := r.from; }
  }

  lemma SharedBlock(full: string, part: seq<Block>, lo: nat, hi: nat, u: Unit, g: nat, h: nat)
    requires lo <= hi <= |full| && Tiles(full, BlockSpans(part), lo, hi) && g < |part| && h < |part|
    requires part[h].start <= u.start < u.end <= part[h].end && Touches(u, part[g])
    ensures g == h
  {
    if g < h { PartInOrder(full, part, lo, hi, g, h); }
    if h < g { PartInOrder(full, part, lo, hi, h, g); }
  }

  lemma TouchedPage(full: string, part: seq<Block>, lo: nat, hi: nat, u: Unit, g: nat)
    requires lo <= hi <= |full| && Tiles(full, BlockSpans(part), lo, hi) && g < |part|
    requires InSomeBlock(u, part) && Touches(u, part[g])
    ensures u.page == part[g].page
  {
    var h :| 0 <= h < |part| && Within(u, part[h].start, part[h].end, part[h].page);
    SharedBlock(full, part, lo, hi, u, g, h);
  }

  lemma PageOfUnit(full: string, part: seq<Block>, us: seq<Unit>, lo: nat, hi: nat, c: Chunk, r: Run, g: nat)
    requires Paged(full, part, us, lo, hi) && EndsAt(c, us, r) && g < |part| && Overlaps(c, part[g])
    ensures HasPage(us[r.from..r.to], part[g].page)
  {
    var i := UnitInBlock(full, part, us, lo, hi, c, r, g);
    TouchedPage(full, part, lo, hi, us[i], g);
    HasItsPage(us, r, i);
  }

  lemma HasItsPage(us: seq<Unit>, r: Run, i: nat)
    requires r.from <= i < r.to <= |us|
    ensures HasPage(us[r.from..r.to], us[i].page)
  {
    assert us[r.from..r.to][i - r.from] == us[i];
  }

  /** `lo` and `hi` are the least and the greatest of the pages of the blocks the chunk overlaps, if any has one. */
  predicate IsPageRange(c: Chunk, blocks: seq<Block>, lo: Option<int>, hi: Option<int>) {
    && (forall g :: 0 <= g < |blocks| && Overlaps(c, blocks[g]) && blocks[g].page.Some? ==>
          lo.Some? && hi.Some? && lo.value <= blocks[g].page.value <= hi.value)
    && (lo.Some? ==> OverlapsPage(c, blocks, lo)) && (hi.Some? ==> OverlapsPage(c, blocks, hi))
  }

  lemma WithinRange(own: seq<Unit>, page: Option<int>)
    requires HasPage(own, page) && page.Some?
    ensures MinPage(own).Some? && MaxPage(own).Some? && MinPage(own).value <= page.value <= MaxPage(own).value
  {
    LeastPage(own);
    GreatestPage(own);
    var i :| 0 <= i < |own| && own[i].page == page;
  }

  lemma PagesOfRun(full: string, part: seq<Block>, us: seq<Unit>, lo: nat, hi: nat, c: Chunk, r: Run)
    requires Paged(full, part, us, lo, hi) && EndsAt(c, us, r)
    ensures IsPageRange(c, part, MinPage(us[r.from..r.to]), MaxPage(us[r.from..r.to]))
  {
    var own := us[r.from..r.to];
    LeastPage(own);
    GreatestPage(own);
    if MinPage(own).Some? { PageOfBlock(full, part, us, lo, hi, c, r, MinPage(own)); }
    if MaxPage(own).Some? { PageOfBlock(full, part, us, lo, hi, c, r, MaxPage(own)); }
    forall g | 0 <= g < |part| && Overlaps(c, part[g]) && part[g].page.Some?
      ensures MinPage(own).Some? && MaxPage(own).Some?
      ensures MinPage(own).value <= part[g].page.value <= MaxPage(own).value
    {
      PageOfUnit(full, part, us, lo, hi, c, r, g);
      WithinRange(own, part[g].page);
    }
  }

  lemma SectionPages(full: string, part: seq<Block>, p: Params, k: nat)
    requires IsSection(full, part) && ValidRatio(p) && k < |SectionChunks(part, full, p)|
    ensures var c := SectionChunks(part, full, p)[k]; IsPageRange(c, part, c.pageStart, c.pageEnd)
  {
    var us, r := UnitsOf(part, full, p), RunsOf(part, full, p)[k];
    ChunkAt(part, full, p, k);
    GoodRunsInRange(us, p.target, OverlapBudget(p));
    SectionIsPaged(full, part, p);
    PagesOfRun(full, part, us, part[0].start, part[|part| - 1].end, SectionChunks(part, full, p)[k], r);
  }

  lemma OnlyOwnBlocks(full: string, blocks: seq<Block>, c: Chunk, a: nat, b: nat, lo: Option<int>, hi: Option<int>)
    requires Tiles(full, BlockSpans(blocks), 0, |full|) && LiesIn(c, blocks, a, b)
    requires IsPageRange(c, blocks[a..b], lo, hi)
    ensures IsPageRange(c, blocks, lo, hi)
  {
    var part := blocks[a..b];
    forall g | 0 <= g < |blocks| && Overlaps(c, blocks[g]) ensures a <= g < b && part[g - a] == blocks[g] {
      if g < a { BlocksInOrder(full, blocks, g, a); }
      if b <= g { BlocksInOrder(full, blocks, b - 1, g); }
    }
    forall page | OverlapsPage(c, part, page) ensures OverlapsPage(c, blocks, page) {
      var g :| 0 <= g < |part| && Overlaps(c, part[g]) && part[g].page == page;
      assert blocks[a + g] == part[g];
    }
  }

  /** A chunk's pages are the least and the greatest page of the blocks it overlaps. */
  lemma PagesOfChunk(doc: Doc, p: Params, c: Chunk)
    requires ValidDoc(doc.fullText, doc.blocks) && ValidRatio(p) && c in Chunks(doc, p)
    ensures IsPageRange(c, doc.blocks, c.pageStart, c.pageEnd)
  {
    var i :| 0 <= i < |Chunks(doc, p)| && Chunks(doc, p)[i] == c;
    var s, k := PlaceOfChunk(doc, p, i);
    var a, b := SectionChunkLiesIn(doc, p, s, k, c);
    SectionsAreSections(doc, s);
    SectionPages(doc.fullText, Sections(doc.blocks)[s], p, k);
    OnlyOwnBlocks(doc.fullText, doc.blocks, c, a, b, c.pageStart, c.pageEnd);
  }
}
