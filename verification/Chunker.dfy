/** Whole documents: sections, their units, their chunks, and what chunking promises end to end. */
module Chunker {
  import opened Values
  import opened Text
  import opened Extract
  import opened Units
  import opened Packing

  datatype Chunk = Chunk(text: string, tokenCount: nat, start: nat, end: nat, pageStart: Option<int>,
                         pageEnd: Option<int>,
                         section: Option<string>, contentHash: string)

  /** The settings and the two model functions: the token counter and the content hash. */
  datatype Params = Params(target: nat, ratio: real, count: string -> nat, hash: string -> string)

  predicate ValidRatio(p: Params) {
    0.0 <= p.ratio < 0.5
  }

  function OverlapBudget(p: Params): nat
    requires ValidRatio(p)
  {
    (p.target as real * p.ratio).Floor
  }

  // ---- sections

  /** Cut before every heading; blocks before the first heading form a section of their own. */
  function Sections(blocks: seq<Block>): seq<seq<Block>> {
    if blocks == [] then []
    else
      var before, b := Sections(blocks[..|blocks| - 1]), blocks[|blocks| - 1];
      if b.isHeading || before == [] then before + [[b]]
      else before[|before| - 1 := before[|before| - 1] + [b]]
  }

  function Flatten<T>(parts: seq<seq<T>>): seq<T> {
    if parts == [] then [] else Flatten(parts[..|parts| - 1]) + parts[|parts| - 1]
  }

  function Offset<T>(parts: seq<seq<T>>, s: nat): nat
    requires s <= |parts|
  {
    |Flatten(parts[..s])|
  }

  lemma {:induction false} FlattenSlice<T>(parts: seq<seq<T>>, s: nat)
    requires s < |parts|
    ensures Offset(parts, s + 1) == Offset(parts, s) + |parts[s]| <= |Flatten(parts)|
    ensures Flatten(parts)[Offset(parts, s)..Offset(parts, s) + |parts[s]|] == parts[s]
  {
    assert parts[..s + 1][..s] == parts[..s];
    FlattenPrefix(parts, s + 1);
  }

  lemma {:induction false} FlattenPrefix<T>(parts: seq<seq<T>>, s: nat)
    requires s <= |parts|
    ensures Flatten(parts[..s]) <= Flatten(parts)
  {
    if s < |parts| {
      var init := parts[..|parts| - 1];
      assert init[..s] == parts[..s];
      FlattenPrefix(init, s);
    } else {
      assert parts[..s] == parts;
    }
  }

  lemma {:induction false} OffsetsGrow<T>(parts: seq<seq<T>>, s: nat, t: nat)
    requires s <= t <= |parts|
    ensures Offset(parts, s) <= Offset(parts, t)
  {
    assert parts[..t][..s] == parts[..s];
    FlattenPrefix(parts[..t], s);
  }

  /** The part an element of the flattened sequence comes from. */
  lemma {:induction false} Locate<T>(parts: seq<seq<T>>, c: nat) returns (s: nat, k: nat)
    requires c < |Flatten(parts)|
    ensures s < |parts| && k < |parts[s]| && c == Offset(parts, s) + k && Flatten(parts)[c] == parts[s][k]
  {
    var n := |parts| - 1;
    if c < |Flatten(parts[..n])| {
      s, k := Locate(parts[..n], c);
      assert parts[..n][..s] == parts[..s];
    } else {
      s, k := n, c - |Flatten(parts[..n])|;
    }
  }

  lemma {:induction false} SectionsPartition(blocks: seq<Block>)
    ensures Flatten(Sections(blocks)) == blocks
    ensures forall s :: 0 <= s < |Sections(blocks)| ==> Sections(blocks)[s] != []
  {
    if blocks == [] {
    } else {
      var init, b := blocks[..|blocks| - 1], blocks[|blocks| - 1];
      SectionsPartition(init);
      var before, after := Sections(init), Sections(blocks);
      assert after[..|after| - 1] == if b.isHeading || before == [] then before else before[..|before| - 1];
    }
  }

  /** Section `s` is a run of consecutive blocks. */
  lemma SectionIsSlice(blocks: seq<Block>, s: nat) returns (a: nat, b: nat)
    requires s < |Sections(blocks)|
    ensures a < b <= |blocks| && Sections(blocks)[s] == blocks[a..b]
    ensures a == Offset(Sections(blocks), s) && b == Offset(Sections(blocks), s + 1)
  {
    SectionsPartition(blocks);
    FlattenSlice(Sections(blocks), s);
    a, b := Offset(Sections(blocks), s), Offset(Sections(blocks), s + 1);
  }

  // ---- chunks

  function MinPage(us: seq<Unit>): Option<int> {
    if us == [] then None
    else
      var m, p := MinPage(us[..|us| - 1]), us[|us| - 1].page;
      if p.None? then m else if m.None? || p.value < m.value then p else m
  }

  function MaxPage(us: seq<Unit>): Option<int> {
    if us == [] then None
    else
      var m, p := MaxPage(us[..|us| - 1]), us[|us| - 1].page;
      if p.None? then m else if m.None? || p.value > m.value then p else m
  }

  /** A chunk is the slice of the text from its first unit to its last, recounted. */
  function ChunkOf(us: seq<Unit>, r: Run, full: string, section: Option<string>, p: Params): Chunk
    requires r.from < r.to <= |us|
  {
    var start, end := us[r.from].start, us[r.to - 1].end;
    var text := if start <= end <= |full| then full[start..end] else "";
    Chunk(text, p.count(text), start, end, MinPage(us[r.from..r.to]), MaxPage(us[r.from..r.to]), section, p.hash(text))
  }

  predicate RunsInRange(us: seq<Unit>, runs: seq<Run>) {
    forall k :: 0 <= k < |runs| ==> runs[k].from < runs[k].to <= |us|
  }

  function ChunksOfRuns(us: seq<Unit>, runs: seq<Run>, full: string, section: Option<string>,
                        p: Params): (cs: seq<Chunk>)
    requires RunsInRange(us, runs)
    ensures |cs| == |runs|
  {
    seq(|runs|, k requires 0 <= k < |runs| => ChunkOf(us, runs[k], full, section, p))
  }

  lemma GoodRunsInRange(us: seq<Unit>, target: nat, budget: nat)
    ensures RunsInRange(us, SectionRuns(us, target, budget))
  {
    SectionRunsAreGood(us, target, budget);
    var runs := SectionRuns(us, target, budget);
    forall k | 0 <= k < |runs| ensures runs[k].from < runs[k].to <= |us| {
      RunAt(us, runs, 0, 0, target, budget, k);
    }
  }

  function UnitsOf(blocks: seq<Block>, full: string, p: Params): seq<Unit> {
    SectionUnits(blocks, full, p.target, p.count)
  }

  function RunsOf(blocks: seq<Block>, full: string, p: Params): seq<Run>
    requires ValidRatio(p)
  {
    SectionRuns(UnitsOf(blocks, full, p), p.target, OverlapBudget(p))
  }

  function SectionChunks(blocks: seq<Block>, full: string, p: Params): (cs: seq<Chunk>)
    requires ValidRatio(p) && blocks != []
    ensures |cs| == |RunsOf(blocks, full, p)|
  {
    var us := UnitsOf(blocks, full, p);
    GoodRunsInRange(us, p.target, OverlapBudget(p));
    ChunksOfRuns(us, RunsOf(blocks, full, p), full, blocks[0].section, p)
  }

  function AllSectionChunks(sections: seq<seq<Block>>, full: string, p: Params): (r: seq<seq<Chunk>>)
    requires ValidRatio(p) && forall s :: 0 <= s < |sections| ==> sections[s] != []
    ensures |r| == |sections|
  {
    seq(|sections|, s requires 0 <= s < |sections| => SectionChunks(sections[s], full, p))
  }

  function ChunksBySection(doc: Doc, p: Params): seq<seq<Chunk>>
    requires ValidRatio(p)
  {
    SectionsPartition(doc.blocks);
    AllSectionChunks(Sections(doc.blocks), doc.fullText, p)
  }

  function Chunks(doc: Doc, p: Params): seq<Chunk>
    requires ValidRatio(p)
  {
    if AllSpace(doc.fullText, 0, |doc.fullText|) then [] else Flatten(ChunksBySection(doc, p))
  }

  predicate InChunk(c: Chunk, p: nat) {
    c.start <= p < c.end
  }

  // ---- one section

  /** What every section of an extracted document satisfies. */
  ghost predicate IsSection(full: string, blocks: seq<Block>) {
    && blocks != []
    && AllExact(full, blocks)
    && blocks[0].start <= blocks[|blocks| - 1].end <= |full|
    && Tiles(full, BlockSpans(blocks), blocks[0].start, blocks[|blocks| - 1].end)
  }

  lemma SpanAt(blocks: seq<Block>, i: nat)
    requires i < |blocks|
    ensures BlockSpans(blocks)[i].start == blocks[i].start && BlockSpans(blocks)[i].end == blocks[i].end
  {
  }

  lemma SliceTiles(full: string, blocks: seq<Block>, a: nat, b: nat)
    requires Tiles(full, BlockSpans(blocks), 0, |full|) && a < b <= |blocks|
    ensures blocks[a].start <= blocks[b - 1].end <= |full|
    ensures Tiles(full, BlockSpans(blocks[a..b]), blocks[a].start, blocks[b - 1].end)
  {
    SpanAt(blocks, a);
    SpanAt(blocks, b - 1);
    TilesSlice(full, BlockSpans(blocks), 0, |full|, a, b);
    SpansOfSlice(blocks, a, b);
  }

  lemma SliceIsSection(full: string, blocks: seq<Block>, a: nat, b: nat)
    requires ValidDoc(full, blocks) && a < b <= |blocks|
    ensures IsSection(full, blocks[a..b])
  {
    SliceTiles(full, blocks, a, b);
    SpansOfSlice(blocks, a, b);
    SliceIsExact(full, blocks, a, b);
  }

  lemma SpansOfSlice(blocks: seq<Block>, a: nat, b: nat)
    requires a < b <= |blocks|
    ensures BlockSpans(blocks)[a..b] == BlockSpans(blocks[a..b])
    ensures blocks[a..b][0] == blocks[a] && blocks[a..b][b - a - 1] == blocks[b - 1]
  {
  }

  lemma SliceIsExact(full: string, blocks: seq<Block>, a: nat, b: nat)
    requires AllExact(full, blocks) && a < b <= |blocks|
    ensures AllExact(full, blocks[a..b])
  {
  }

  lemma SectionsAreSections(doc: Doc, s: nat)
    requires ValidDoc(doc.fullText, doc.blocks) && s < |Sections(doc.blocks)|
    ensures IsSection(doc.fullText, Sections(doc.blocks)[s])
  {
    var a, b := SectionIsSlice(doc.blocks, s);
    SliceIsSection(doc.fullText, doc.blocks, a, b);
  }

  lemma UnitsTileSection(full: string, blocks: seq<Block>, p: Params)
    requires IsSection(full, blocks)
    ensures Tiles(full, UnitSpans(UnitsOf(blocks, full, p)), blocks[0].start, blocks[|blocks| - 1].end)
  {
    SectionUnitsTile(blocks, full, p.target, p.count, blocks[0].start, blocks[|blocks| - 1].end);
  }

  lemma SpanBetween(text: string, spans: seq<Span>, lo: nat, hi: nat, a: nat, b: nat, u: nat, pos: nat)
    requires lo <= hi <= |text| && Tiles(text, spans, lo, hi)
    requires a < b <= |spans| && u < |spans| && spans[u].start <= pos < spans[u].end
    ensures spans[a].start <= pos < spans[b - 1].end <==> a <= u < b
  {
    TilesBounds(text, spans, lo, hi, u);
    TilesBounds(text, spans, lo, hi, a);
    TilesBounds(text, spans, lo, hi, b - 1);
    if u < a { TilesOrdered(text, spans, lo, hi, u, a); }
    if a < u { TilesOrdered(text, spans, lo, hi, a, u); }
    if u < b - 1 { TilesOrdered(text, spans, lo, hi, u, b - 1); }
    if b - 1 < u { TilesOrdered(text, spans, lo, hi, b - 1, u); }
  }

  /** A non-whitespace character lies in a chunk exactly when the chunk holds its unit. */
  lemma InChunkIffUnitHeld(full: string, us: seq<Unit>, lo: nat, hi: nat, r: Run, section: Option<string>, p: Params,
                           pos: nat, u: nat)
    requires lo <= hi <= |full| && Tiles(full, UnitSpans(us), lo, hi)
    requires r.from < r.to <= |us| && u < |us| && us[u].start <= pos < us[u].end
    ensures InChunk(ChunkOf(us, r, full, section, p), pos) <==> Holds(r, u)
  {
    SpanBetween(full, UnitSpans(us), lo, hi, r.from, r.to, u, pos);
  }

  lemma ChunkInsideSection(full: string, us: seq<Unit>, lo: nat, hi: nat, r: Run, section: Option<string>, p: Params)
    requires lo <= hi <= |full| && Tiles(full, UnitSpans(us), lo, hi) && r.from < r.to <= |us|
    ensures var c := ChunkOf(us, r, full, section, p);
            lo <= c.start < c.end <= hi && c.text == full[c.start..c.end] &&
              c.tokenCount == p.count(full[c.start..c.end])
  {
    var spans := UnitSpans(us);
    TilesBounds(full, spans, lo, hi, r.from);
    TilesBounds(full, spans, lo, hi, r.to - 1);
    if r.from < r.to - 1 { TilesOrdered(full, spans, lo, hi, r.from, r.to - 1); }
  }

  lemma SectionChunkIsSlice(full: string, blocks: seq<Block>, p: Params, k: nat)
    requires IsSection(full, blocks) && ValidRatio(p) && k < |SectionChunks(blocks, full, p)|
    ensures var c := SectionChunks(blocks, full, p)[k];
            && blocks[0].start <= c.start < c.end <= blocks[|blocks| - 1].end <= |full|
            && c.text == full[c.start..c.end] && c.tokenCount == p.count(c.text) && c.contentHash == p.hash(c.text)
            && c.section == blocks[0].section
  {
    var us := UnitsOf(blocks, full, p);
    UnitsTileSection(full, blocks, p);
    GoodRunsInRange(us, p.target, OverlapBudget(p));
    ChunkInsideSection(full, us, blocks[0].start, blocks[|blocks| - 1].end, RunsOf(blocks, full, p)[k],
      blocks[0].section, p);
  }

  /** Exact provenance: a chunk is the slice of the text its offsets name, and lies within its section. */
  lemma ChunkIsSlice(doc: Doc, p: Params, s: nat, k: nat)
    requires ValidDoc(doc.fullText, doc.blocks) && ValidRatio(p) && s < |Sections(doc.blocks)|
    requires Sections(doc.blocks)[s] != [] && k < |SectionChunks(Sections(doc.blocks)[s], doc.fullText, p)|
    ensures var blocks := Sections(doc.blocks)[s]; var c := SectionChunks(blocks, doc.fullText, p)[k];
            && blocks[0].start <= c.start < c.end <= blocks[|blocks| - 1].end <= |doc.fullText|
            && c.text == doc.fullText[c.start..c.end] && c.tokenCount == p.count(c.text) &&
              c.contentHash == p.hash(c.text)
            && c.section == blocks[0].section
  {
    SectionsAreSections(doc, s);
    SectionChunkIsSlice(doc.fullText, Sections(doc.blocks)[s], p, k);
  }

  // ---- nothing is lost

  lemma SliceHoldsSpan(text: string, spans: seq<Span>, a: nat, b: nat, g: nat, p: nat)
    requires Tiles(text, spans, 0, |text|) && a < b <= |spans|
    requires g < |spans| && spans[g].start <= p < spans[g].end && p < |text| && !IsSpace(text[p])
    ensures a <= g < b <==> spans[a].start <= p < spans[b - 1].end
  {
    TilesSlice(text, spans, 0, |text|, a, b);
    if spans[a].start <= p < spans[b - 1].end {
      var j := SpanOf(text, spans[a..b], spans[a].start, spans[b - 1].end, p);
      OneSpanOnly(text, spans, 0, |text|, p, g, a + j);
    }
    if a <= g < b { SpanInSlice(text, spans, a, b, g); }
  }

  lemma SpanInSlice(text: string, spans: seq<Span>, a: nat, b: nat, g: nat)
    requires Tiles(text, spans, 0, |text|) && a <= g < b <= |spans|
    ensures spans[a].start <= spans[g].start && spans[g].end <= spans[b - 1].end
  {
    TilesBounds(text, spans, 0, |text|, a);
    TilesBounds(text, spans, 0, |text|, b - 1);
    if a < g { TilesOrdered(text, spans, 0, |text|, a, g); }
    if g < b - 1 { TilesOrdered(text, spans, 0, |text|, g, b - 1); }
  }

  lemma SliceHoldsBlock(full: string, blocks: seq<Block>, a: nat, b: nat, g: nat, p: nat)
    requires Tiles(full, BlockSpans(blocks), 0, |full|) && a < b <= |blocks|
    requires g < |blocks| && blocks[g].start <= p < blocks[g].end && p < |full| && !IsSpace(full[p])
    ensures var part := blocks[a..b]; part[0].start <= p < part[|part| - 1].end <==> a <= g < b
  {
    SliceHoldsSpan(full, BlockSpans(blocks), a, b, g, p);
    assert blocks[a..b][0] == blocks[a] && blocks[a..b][b - a - 1] == blocks[b - 1];
  }

  /** A character of block `g` lies between the ends of section `s` exactly when `g` is one of its blocks. */
  lemma SectionHoldsBlock(doc: Doc, s: nat, g: nat, p: nat)
    requires ValidDoc(doc.fullText, doc.blocks) && s < |Sections(doc.blocks)|
    requires g < |doc.blocks| && doc.blocks[g].start <= p < doc.blocks[g].end && p < |doc.fullText|
    requires !IsSpace(doc.fullText[p])
    ensures var blocks := Sections(doc.blocks)[s];
            && blocks != []
            && (blocks[0].start <= p < blocks[|blocks| - 1].end <==>
                Offset(Sections(doc.blocks), s) <= g < Offset(Sections(doc.blocks), s + 1))
  {
    var a, b := SectionIsSlice(doc.blocks, s);
    SliceHoldsBlock(doc.fullText, doc.blocks, a, b, g, p);
  }

  lemma PartsDisjoint<T>(parts: seq<seq<T>>, s: nat, t: nat, g: nat)
    requires s < |parts| && t < |parts| && s != t && Offset(parts, s) <= g < Offset(parts, s + 1)
    ensures !(Offset(parts, t) <= g < Offset(parts, t + 1))
  {
    if t < s { OffsetsGrow(parts, t + 1, s); } else { OffsetsGrow(parts, s + 1, t); }
  }

  /** The one section a non-whitespace character belongs to. */
  lemma SectionOf(doc: Doc, p: nat) returns (s: nat)
    requires ValidDoc(doc.fullText, doc.blocks) && p < |doc.fullText| && !IsSpace(doc.fullText[p])
    ensures s < |Sections(doc.blocks)|
    ensures var blocks := Sections(doc.blocks)[s]; blocks != [] && blocks[0].start <= p < blocks[|blocks| - 1].end
    ensures forall t :: 0 <= t < |Sections(doc.blocks)| && t != s ==>
              var blocks := Sections(doc.blocks)[t]; blocks != [] && !(blocks[0].start <= p < blocks[|blocks| - 1].end)
  {
    var spans := BlockSpans(doc.blocks);
    var g := SpanOf(doc.fullText, spans, 0, |doc.fullText|, p);
    SectionsPartition(doc.blocks);
    var k;
    s, k := Locate(Sections(doc.blocks), g);
    FlattenSlice(Sections(doc.blocks), s);
    SectionHoldsBlock(doc, s, g, p);
    forall t | 0 <= t < |Sections(doc.blocks)| && t != s
      ensures var blocks := Sections(doc.blocks)[t]; blocks != [] && !(blocks[0].start <= p < blocks[|blocks| - 1].end)
    {
      SectionHoldsBlock(doc, t, g, p);
      PartsDisjoint(Sections(doc.blocks), s, t, g);
    }
  }

  lemma CharInRuns(full: string, us: seq<Unit>, lo: nat, hi: nat, section: Option<string>, p: Params, pos: nat)
    returns (k: nat)
    requires ValidRatio(p) && lo <= pos < hi <= |full| && !IsSpace(full[pos])
    requires Tiles(full, UnitSpans(us), lo, hi) && RunsInRange(us, SectionRuns(us, p.target, OverlapBudget(p)))
    ensures var cs := ChunksOfRuns(us, SectionRuns(us, p.target, OverlapBudget(p)), full, section, p);
            && k < |cs| && InChunk(cs[k], pos)
            && forall j :: 0 <= j < |cs| && InChunk(cs[j], pos) ==> j == k || j == k + 1
  {
    var runs := SectionRuns(us, p.target, OverlapBudget(p));
    var u := SpanOf(full, UnitSpans(us), lo, hi, pos);
    k := UnitInOneOrTwoChunks(us, p.target, OverlapBudget(p), u);
    SectionRunsAreGood(us, p.target, OverlapBudget(p));
    RunAt(us, runs, 0, 0, p.target, OverlapBudget(p), k);
    forall j | 0 <= j < |runs|
      ensures InChunk(ChunkOf(us, runs[j], full, section, p), pos) <==> Holds(runs[j], u)
    {
      InChunkIffUnitHeld(full, us, lo, hi, runs[j], section, p, pos, u);
    }
  }

  /** Within its section the character lies in one chunk, or in two consecutive ones. */
  lemma CharInSectionChunks(doc: Doc, p: Params, s: nat, pos: nat) returns (k: nat)
    requires ValidDoc(doc.fullText, doc.blocks) && ValidRatio(p) && s < |Sections(doc.blocks)|
    requires pos < |doc.fullText| && !IsSpace(doc.fullText[pos])
    requires var blocks := Sections(doc.blocks)[s]; blocks != [] && blocks[0].start <= pos < blocks[|blocks| - 1].end
    ensures var cs := SectionChunks(Sections(doc.blocks)[s], doc.fullText, p);
            && k < |cs| && InChunk(cs[k], pos)
            && forall j :: 0 <= j < |cs| && InChunk(cs[j], pos) ==> j == k || j == k + 1
  {
    SectionsAreSections(doc, s);
    var blocks := Sections(doc.blocks)[s];
    var us := UnitsOf(blocks, doc.fullText, p);
    UnitsTileSection(doc.fullText, blocks, p);
    GoodRunsInRange(us, p.target, OverlapBudget(p));
    k := CharInRuns(doc.fullText, us, blocks[0].start, blocks[|blocks| - 1].end, blocks[0].section, p, pos);
  }

  /** Chunking loses nothing and mixes nothing: every non-whitespace character is in exactly one
      section's chunks, and there in one chunk or in two consecutive ones. */
  lemma ChunkingLosesNothing(doc: Doc, p: Params, pos: nat) returns (s: nat, k: nat)
    requires ValidDoc(doc.fullText, doc.blocks) && ValidRatio(p)
    requires pos < |doc.fullText| && !IsSpace(doc.fullText[pos])
    ensures var parts := ChunksBySection(doc, p);
            && s < |parts| && k < |parts[s]| && InChunk(parts[s][k], pos)
            && forall t, j :: 0 <= t < |parts| && 0 <= j < |parts[t]| && InChunk(parts[t][j], pos) ==>
                 t == s && (j == k || j == k + 1)
  {
    s := SectionOf(doc, pos);
    k := CharInSectionChunks(doc, p, s, pos);
    var parts := ChunksBySection(doc, p);
    SectionsPartition(doc.blocks);
    forall t, j | 0 <= t < |parts| && 0 <= j < |parts[t]| && InChunk(parts[t][j], pos)
      ensures t == s && (j == k || j == k + 1)
    {
      ChunkIsSlice(doc, p, t, j);
    }
  }

  /** A place found in the parts is found in the flattened list, and the next one is next there too. */
  lemma PlaceInFlattened(parts: seq<seq<Chunk>>, s: nat, k: nat, pos: nat) returns (c: nat)
    requires s < |parts| && k < |parts[s]| && InChunk(parts[s][k], pos)
    requires forall t, j :: 0 <= t < |parts| && 0 <= j < |parts[t]| && InChunk(parts[t][j], pos) ==>
               t == s && (j == k || j == k + 1)
    ensures c < |Flatten(parts)| && InChunk(Flatten(parts)[c], pos)
    ensures forall d :: 0 <= d < |Flatten(parts)| && InChunk(Flatten(parts)[d], pos) ==> d == c || d == c + 1
  {
    FlattenSlice(parts, s);
    c := Offset(parts, s) + k;
    assert Flatten(parts)[c] == parts[s][k] by {
      assert Flatten(parts)[Offset(parts, s)..Offset(parts, s) + |parts[s]|][k] == parts[s][k];
    }
    forall d | 0 <= d < |Flatten(parts)| && InChunk(Flatten(parts)[d], pos) ensures d == c || d == c + 1 {
      var t, j := Locate(parts, d);
    }
  }

  /** The same, on the list of chunks the document becomes. */
  lemma CharInOneOrTwoChunks(doc: Doc, p: Params, pos: nat) returns (c: nat)
    requires ValidDoc(doc.fullText, doc.blocks) && ValidRatio(p)
    requires pos < |doc.fullText| && !IsSpace(doc.fullText[pos])
    ensures var cs := Chunks(doc, p);
            && c < |cs| && InChunk(cs[c], pos)
            && forall d :: 0 <= d < |cs| && InChunk(cs[d], pos) ==> d == c || d == c + 1
  {
    var s, k := ChunkingLosesNothing(doc, p, pos);
    c := PlaceInFlattened(ChunksBySection(doc, p), s, k, pos);
  }

  // ---- budgets and order, section by section

  lemma RunsWithinBudget(us: seq<Unit>, target: nat, budget: nat, k: nat)
    requires k < |SectionRuns(us, target, budget)|
    ensures var r := SectionRuns(us, target, budget)[k];
            && r.from <= r.first < r.to <= |us|
            && Cost(us, r.from, r.first) <= budget
            && Maximal(us, r, target)
            && ((forall i :: 0 <= i < |us| ==> us[i].tokens <= target) ==> Cost(us, r.from, r.to) <= target)
  {
    SectionRunsAreGood(us, target, budget);
    RunAt(us, SectionRuns(us, target, budget), 0, 0, target, budget, k);
  }

  predicate MadeFrom(c: Chunk, us: seq<Unit>, r: Run, full: string, p: Params) {
    && r.from <= r.first < r.to <= |us|
    && c.start == us[r.from].start && c.end == us[r.to - 1].end
    && (c.start <= c.end <= |full| ==> c.tokenCount == p.count(full[c.start..c.end]))
  }

  /** The units behind a chunk. */
  lemma ChunkAt(blocks: seq<Block>, full: string, p: Params, k: nat)
    requires ValidRatio(p) && blocks != [] && k < |SectionChunks(blocks, full, p)|
    ensures MadeFrom(SectionChunks(blocks, full, p)[k], UnitsOf(blocks, full, p), RunsOf(blocks, full, p)[k], full, p)
  {
    RunsWithinBudget(UnitsOf(blocks, full, p), p.target, OverlapBudget(p), k);
  }

  /** If every character fits, the units of every chunk fit together. */
  lemma ChunksWithinBudget(full: string, blocks: seq<Block>, p: Params, k: nat)
    requires IsSection(full, blocks) && ValidRatio(p) && CharsFit(full, p.target, p.count)
    requires k < |SectionChunks(blocks, full, p)|
    ensures var us, r := UnitsOf(blocks, full, p), RunsOf(blocks, full, p)[k];
            r.from < r.to <= |us| && Cost(us, r.from, r.to) <= p.target
  {
    UnitsWithinBudget(blocks, full, p.target, p.count);
    RunsWithinBudget(UnitsOf(blocks, full, p), p.target, OverlapBudget(p), k);
  }

  predicate RecountFits(full: string, us: seq<Unit>, r: Run, p: Params) {
    && r.from < r.to <= |us| && us[r.from].start <= us[r.to - 1].end <= |full|
    && p.count(full[us[r.from].start..us[r.to - 1].end]) <= Cost(us, r.from, r.to)
  }

  lemma ChunkRecount(c: Chunk, us: seq<Unit>, r: Run, full: string, p: Params)
    requires MadeFrom(c, us, r, full, p) && RecountFits(full, us, r, p)
    ensures c.tokenCount <= Cost(us, r.from, r.to)
  {
  }

  lemma ChunksInOrder(c: Chunk, d: Chunk, us: seq<Unit>, r: Run, s: Run, full: string, p: Params)
    requires MadeFrom(c, us, r, full, p) && MadeFrom(d, us, s, full, p) && EndsBefore(us, r, s)
    ensures c.start < d.start && c.end < d.end
  {
  }

  lemma TiledRecountFits(full: string, us: seq<Unit>, lo: nat, hi: nat, p: Params, r: Run)
    requires r.from < r.to <= |us| && lo <= hi <= |full| && Tiles(full, UnitSpans(us), lo, hi)
    requires Subadditive(p.count) && forall k :: 0 <= k < |us| ==> Covers(full, us[k], p.count)
    ensures RecountFits(full, us, r, p)
  {
    RecountWithinSum(full, us, r.from, r.to, lo, hi, p.count);
  }

  lemma RunRecount(full: string, blocks: seq<Block>, p: Params, r: Run)
    requires IsSection(full, blocks) && Subadditive(p.count)
    requires r.from < r.to <= |UnitsOf(blocks, full, p)|
    ensures RecountFits(full, UnitsOf(blocks, full, p), r, p)
  {
    UnitsCover(blocks, full, p.target, p.count);
    UnitsTileSection(full, blocks, p);
    TiledRecountFits(full, UnitsOf(blocks, full, p), blocks[0].start, blocks[|blocks| - 1].end, p, r);
  }

  lemma RecountWithinUnits(full: string, blocks: seq<Block>, p: Params, k: nat)
    requires IsSection(full, blocks) && ValidRatio(p) && Subadditive(p.count)
    requires k < |SectionChunks(blocks, full, p)|
    ensures var us, r := UnitsOf(blocks, full, p), RunsOf(blocks, full, p)[k];
            r.from < r.to <= |us| && SectionChunks(blocks, full, p)[k].tokenCount <= Cost(us, r.from, r.to)
  {
    var us, r, c := UnitsOf(blocks, full, p), RunsOf(blocks, full, p)[k], SectionChunks(blocks, full, p)[k];
    ChunkAt(blocks, full, p, k);
    RunRecount(full, blocks, p, r);
    ChunkRecount(c, us, r, full, p);
  }

  /** With a subadditive counter the recount of a chunk's text, the number the embedding model sees, is
      at most what its units were charged, hence within the target too. */
  lemma RecountWithinBudget(full: string, blocks: seq<Block>, p: Params, k: nat)
    requires IsSection(full, blocks) && ValidRatio(p) && Subadditive(p.count)
    requires k < |SectionChunks(blocks, full, p)|
    ensures var us, r := UnitsOf(blocks, full, p), RunsOf(blocks, full, p)[k];
            r.from < r.to <= |us| && SectionChunks(blocks, full, p)[k].tokenCount <= Cost(us, r.from, r.to)
    ensures CharsFit(full, p.target, p.count) ==> SectionChunks(blocks, full, p)[k].tokenCount <= p.target
  {
    RecountWithinUnits(full, blocks, p, k);
    if CharsFit(full, p.target, p.count) {
      ChunksWithinBudget(full, blocks, p, k);
    }
  }

  lemma RunsIncrease(us: seq<Unit>, target: nat, budget: nat, k: nat)
    requires k + 1 < |SectionRuns(us, target, budget)|
    ensures var a, b := SectionRuns(us, target, budget)[k], SectionRuns(us, target, budget)[k + 1];
            a.from < b.from < b.to <= |us| && a.from < a.to < b.to
  {
    SectionRunsAreGood(us, target, budget);
    RunAt(us, SectionRuns(us, target, budget), 0, 0, target, budget, k);
  }

  predicate EndsBefore(us: seq<Unit>, r: Run, s: Run) {
    && r.from < r.to <= |us| && s.from < s.to <= |us|
    && us[r.from].start < us[s.from].start && us[r.to - 1].end < us[s.to - 1].end
  }

  lemma RunEndsIncrease(full: string, us: seq<Unit>, lo: nat, hi: nat, target: nat, budget: nat, k: nat)
    requires lo <= hi <= |full| && Tiles(full, UnitSpans(us), lo, hi)
    requires k + 1 < |SectionRuns(us, target, budget)|
    ensures EndsBefore(us, SectionRuns(us, target, budget)[k], SectionRuns(us, target, budget)[k + 1])
  {
    var r, s := SectionRuns(us, target, budget)[k], SectionRuns(us, target, budget)[k + 1];
    RunsIncrease(us, target, budget, k);
    UnitsIncrease(full, us, lo, hi, r.from, s.from);
    UnitsIncrease(full, us, lo, hi, r.to - 1, s.to - 1);
  }

  /** Chunk starts and ends both strictly increase. */
  lemma OffsetsIncrease(full: string, blocks: seq<Block>, p: Params, k: nat)
    requires IsSection(full, blocks) && ValidRatio(p) && k + 1 < |SectionChunks(blocks, full, p)|
    ensures var cs := SectionChunks(blocks, full, p);
            cs[k].start < cs[k + 1].start && cs[k].end < cs[k + 1].end
  {
    var us, runs, cs := UnitsOf(blocks, full, p), RunsOf(blocks, full, p), SectionChunks(blocks, full, p);
    UnitsTileSection(full, blocks, p);
    RunEndsIncrease(full, us, blocks[0].start, blocks[|blocks| - 1].end, p.target, OverlapBudget(p), k);
    ChunkAt(blocks, full, p, k);
    ChunkAt(blocks, full, p, k + 1);
    ChunksInOrder(cs[k], cs[k + 1], us, runs[k], runs[k + 1], full, p);
  }

  lemma UnitsIncrease(full: string, us: seq<Unit>, lo: nat, hi: nat, i: nat, j: nat)
    requires lo <= hi <= |full| && Tiles(full, UnitSpans(us), lo, hi) && i < j < |us|
    ensures us[i].start < us[j].start && us[i].end < us[j].end
  {
    TilesOrdered(full, UnitSpans(us), lo, hi, i, j);
    TilesBounds(full, UnitSpans(us), lo, hi, i);
    TilesBounds(full, UnitSpans(us), lo, hi, j);
  }

  /** A section has chunks, and all of them together cost at most its units plus one overlap budget per
      chunk after the first. */
  lemma SectionCostBounded(full: string, blocks: seq<Block>, p: Params)
    requires IsSection(full, blocks) && ValidRatio(p)
    ensures var us, runs := UnitsOf(blocks, full, p), RunsOf(blocks, full, p);
            && us != [] && runs != []
            && Cost(us, 0, |us|) <= TotalCost(us, runs) <= Cost(us, 0, |us|) + (|runs| - 1) * OverlapBudget(p)
  {
    var us := UnitsOf(blocks, full, p);
    var lo, hi := blocks[0].start, blocks[|blocks| - 1].end;
    UnitsTileSection(full, blocks, p);
    assert Exact(full, blocks[0]) && full[lo] == blocks[0].text[0];
    TilesBounds(full, BlockSpans(blocks), lo, hi, 0);
    var u := SpanOf(full, UnitSpans(us), lo, hi, lo);
    OverlapIsBounded(us, p.target, OverlapBudget(p));
  }

  // ---- the loops

  method AddToSections(sections: seq<seq<Block>>, b: Block) returns (r: seq<seq<Block>>)
    ensures r == if b.isHeading || sections == [] then sections + [[b]]
                 else sections[|sections| - 1 := sections[|sections| - 1] + [b]]
  {
    r := sections;
    if b.isHeading || sections == [] {
      r := r + [[]];
      assert r[|sections|] + [b] == [b];
    }
    r := r[|r| - 1 := r[|r| - 1] + [b]];
  }

  method GroupSections(blocks: seq<Block>) returns (sections: seq<seq<Block>>)
    ensures sections == Sections(blocks)
  {
    sections := [];
    for i := 0 to |blocks|
      invariant sections == Sections(blocks[..i])
    {
      assert blocks[..i + 1][..i] == blocks[..i];
      sections := AddToSections(sections, blocks[i]);
    }
    assert blocks[..|blocks|] == blocks;
  }

  /** Shed carried units from the front until the first new one fits beside the rest. */
  method ShedLoop(us: seq<Unit>, overlap: seq<Unit>, ghost a: nat, i: nat, target: nat)
    returns (carried: seq<Unit>, total: nat)
    requires a <= i < |us| && overlap == us[a..i]
    ensures var f := Shed(us, a, i, target); carried == us[f..i] && total == Cost(us, f, i)
  {
    ghost var f := a;
    carried := overlap;
    total := SumTokens(overlap, us, a);
    while carried != [] && total + us[i].tokens > target
      invariant a <= f <= i && carried == us[f..i] && total == Cost(us, f, i)
      invariant Shed(us, a, i, target) == Shed(us, f, i, target)
      decreases |carried|
    {
      CostFront(us, f, i);
      total := total - carried[0].tokens;
      carried := carried[1..];
      f := f + 1;
    }
  }

  method SumTokens(some: seq<Unit>, ghost us: seq<Unit>, ghost a: nat) returns (total: nat)
    requires a + |some| <= |us| && some == us[a..a + |some|]
    ensures total == Cost(us, a, a + |some|)
  {
    total := 0;
    for j := 0 to |some|
      invariant total == Cost(us, a, a + j)
    {
      total := total + some[j].tokens;
    }
  }

  /** The carried suffix, collected from the end of the new units. */
  method CarryLoop(us: seq<Unit>, first: nat, to: nat, budget: nat) returns (carried: seq<Unit>)
    requires first < to <= |us|
    ensures carried == us[Carry(us, first, to, to, budget)..to]
  {
    carried := [];
    var tokens := 0;
    var j := to;
    while j - 1 > first
      invariant first < j <= to && carried == us[j..to] && tokens == Cost(us, j, to)
      invariant Carry(us, first, to, to, budget) == Carry(us, first, j, to, budget)
      decreases j
    {
      CostFront(us, j - 1, to);
      if tokens + us[j - 1].tokens > budget { return; }
      j := j - 1;
      carried := [us[j]] + carried;
      tokens := tokens + us[j].tokens;
    }
  }

  /** Always one new unit, then as many more as fit. */
  method FillLoop(us: seq<Unit>, carried: seq<Unit>, carriedTotal: nat, ghost from: nat, first: nat, target: nat)
    returns (chunkUnits: seq<Unit>, i: nat)
    requires from <= first < |us| && carried == us[from..first] && carriedTotal == Cost(us, from, first)
    ensures i == Fill(us, from, first + 1, target) && chunkUnits == us[from..i]
  {
    chunkUnits := carried + [us[first]];
    var total := carriedTotal + us[first].tokens;
    i := first + 1;
    while i < |us| && total + us[i].tokens <= target
      invariant first < i <= |us| && chunkUnits == us[from..i] && total == Cost(us, from, i)
      invariant Fill(us, from, first + 1, target) == Fill(us, from, i, target)
    {
      chunkUnits := chunkUnits + [us[i]];
      total := total + us[i].tokens;
      i := i + 1;
    }
  }

  lemma RunsStep(us: seq<Unit>, done: seq<Run>, a: nat, i: nat, target: nat, budget: nat)
    requires a <= i < |us|
    ensures var r := NextRun(us, a, i, target);
            done + Runs(us, a, i, target, budget) ==
              done + [r] + Runs(us, NextCarry(us, r, budget), r.to, target, budget)
  {
  }

  lemma ChunksOfOneMore(us: seq<Unit>, done: seq<Run>, r: Run, full: string, section: Option<string>, p: Params)
    requires RunsInRange(us, done) && r.from < r.to <= |us|
    ensures RunsInRange(us, done + [r])
    ensures ChunksOfRuns(us, done + [r], full, section, p) ==
            ChunksOfRuns(us, done, full, section, p) + [ChunkOf(us, r, full, section, p)]
  {
  }

  predicate SlicesInText(us: seq<Unit>, full: string) {
    forall i, j :: 0 <= i <= j < |us| ==> us[i].start <= us[j].end <= |full|
  }

  method PackSection(us: seq<Unit>, full: string, section: Option<string>, p: Params, budget: nat)
    returns (chunks: seq<Chunk>)
    requires RunsInRange(us, SectionRuns(us, p.target, budget)) && SlicesInText(us, full)
    ensures chunks == ChunksOfRuns(us, SectionRuns(us, p.target, budget), full, section, p)
  {
    chunks := [];
    var overlap: seq<Unit> := [];
    var i := 0;
    ghost var a: nat, done: seq<Run> := 0, [];
    ghost var runs := SectionRuns(us, p.target, budget);
    while i < |us|
      invariant a <= i <= |us| && overlap == us[a..i]
      invariant runs == done + Runs(us, a, i, p.target, budget)
      invariant RunsInRange(us, done) && chunks == ChunksOfRuns(us, done, full, section, p)
      decreases |us| - i
    {
      ghost var r := NextRun(us, a, i, p.target);
      RunsStep(us, done, a, i, p.target, budget);
      ChunksOfOneMore(us, done, r, full, section, p);
      var c;
      c, i, overlap := PackOne(us, overlap, a, i, full, section, p, budget);
      chunks := chunks + [c];
      done := done + [r];
      a := NextCarry(us, r, budget);
    }
  }

  /** One turn of the packing loop: the chunk, the next unit to read, and what is carried over to it. */
  method PackOne(us: seq<Unit>, overlap: seq<Unit>, ghost a: nat, first: nat, full: string, section: Option<string>,
                 p: Params, budget: nat) returns (c: Chunk, i: nat, overlap': seq<Unit>)
    requires a <= first < |us| && overlap == us[a..first] && SlicesInText(us, full)
    ensures var r := NextRun(us, a, first, p.target);
            && i == r.to && c == ChunkOf(us, r, full, section, p)
            && overlap' == us[NextCarry(us, r, budget)..i]
  {
    ghost var r := NextRun(us, a, first, p.target);
    var carried, total := ShedLoop(us, overlap, a, first, p.target);
    var chunkUnits;
    chunkUnits, i := FillLoop(us, carried, total, r.from, first, p.target);
    c := MakeChunk(chunkUnits, us, r, full, section, p);
    if i < |us| {
      overlap' := CarryLoop(us, first, i, budget);
    } else {
      overlap' := [];
    }
  }

  method MakeChunk(chunkUnits: seq<Unit>, ghost us: seq<Unit>, ghost r: Run, full: string, section: Option<string>,
                   p: Params)
    returns (c: Chunk)
    requires r.from < r.to <= |us| && chunkUnits == us[r.from..r.to]
    requires us[r.from].start <= us[r.to - 1].end <= |full|
    ensures c == ChunkOf(us, r, full, section, p)
  {
    var start, end := chunkUnits[0].start, chunkUnits[|chunkUnits| - 1].end;
    var text := full[start..end];
    c := Chunk(text, p.count(text), start, end, MinPage(chunkUnits), MaxPage(chunkUnits), section, p.hash(text));
  }

  /** The whole chunker, on any document the builder can build. */
  method ChunkDocument(doc: Doc, p: Params) returns (chunks: seq<Chunk>)
    requires ValidDoc(doc.fullText, doc.blocks) && ValidRatio(p)
    ensures chunks == Chunks(doc, p)
  {
    if AllSpace(doc.fullText, 0, |doc.fullText|) { return []; }
    var sections := GroupSections(doc.blocks);
    SectionsPartition(doc.blocks);
    ghost var parts := ChunksBySection(doc, p);
    chunks := [];
    for s := 0 to |sections|
      invariant chunks == Flatten(parts[..s])
    {
      FlattenOneMore(parts, s);
      SectionsAreSections(doc, s);
      var own := ChunkSection(doc.fullText, sections[s], p);
      chunks := chunks + own;
    }
    assert parts[..|sections|] == parts;
  }

  lemma FlattenOneMore<T>(parts: seq<seq<T>>, s: nat)
    requires s < |parts|
    ensures Flatten(parts[..s + 1]) == Flatten(parts[..s]) + parts[s]
  {
    assert parts[..s + 1][..s] == parts[..s];
  }

  lemma UnitsInText(full: string, us: seq<Unit>, lo: nat, hi: nat)
    requires lo <= hi <= |full| && Tiles(full, UnitSpans(us), lo, hi)
    ensures SlicesInText(us, full)
  {
    forall i, j | 0 <= i <= j < |us| ensures us[i].start <= us[j].end <= |full| {
      TilesBounds(full, UnitSpans(us), lo, hi, i);
      TilesBounds(full, UnitSpans(us), lo, hi, j);
      if i < j { TilesOrdered(full, UnitSpans(us), lo, hi, i, j); }
    }
  }

  method ChunkSection(full: string, blocks: seq<Block>, p: Params) returns (own: seq<Chunk>)
    requires IsSection(full, blocks) && ValidRatio(p)
    ensures own == SectionChunks(blocks, full, p)
  {
    var units := MakeSectionUnits(blocks, full, p.target, p.count);
    UnitsTileSection(full, blocks, p);
    UnitsInText(full, units, blocks[0].start, blocks[|blocks| - 1].end);
    GoodRunsInRange(units, p.target, OverlapBudget(p));
    own := PackSection(units, full, blocks[0].section, p, OverlapBudget(p));
  }
}
