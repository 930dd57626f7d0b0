/** Where packing units begin and end: sentences and headings that fit are kept whole, longer ones are cut between
    words, and a word is cut only if it is over the budget by itself. */
module UnitLayout {
  import opened Values
  import opened Text
  import opened Extract
  import opened Sentences
  import opened Units

  // ---- what fits is kept

  lemma LastUnits(blocks: seq<Block>, count: string -> nat, own: seq<Unit>, u: Unit)
    requires blocks != [] && own == BlockUnits(blocks[|blocks| - 1], count) && u in own
    ensures u in RawUnits(blocks, count)
  {
    InEither(RawUnits(blocks[..|blocks| - 1], count), own, u);
  }

  lemma EarlierUnits(blocks: seq<Block>, count: string -> nat, u: Unit)
    requires blocks != [] && u in RawUnits(blocks[..|blocks| - 1], count)
    ensures u in RawUnits(blocks, count)
  {
    InEither(RawUnits(blocks[..|blocks| - 1], count), BlockUnits(blocks[|blocks| - 1], count), u);
  }

  lemma {:induction false} RawUnitsHave(blocks: seq<Block>, count: string -> nat, g: nat, own: seq<Unit>, u: Unit)
    requires g < |blocks| && own == BlockUnits(blocks[g], count) && u in own
    ensures u in RawUnits(blocks, count)
  {
    if g == |blocks| - 1 {
      LastUnits(blocks, count, own, u);
    } else {
      RawUnitsHave(blocks[..|blocks| - 1], count, g, own, u);
      EarlierUnits(blocks, count, u);
    }
  }

  lemma InEither<T>(a: seq<T>, b: seq<T>, x: T)
    ensures x in a + b <==> x in a || x in b
  {
  }

  lemma {:induction false} FittingUnitsStay(us: seq<Unit>, text: string, target: nat, count: string -> nat, u: Unit)
    requires u in us && u.tokens <= target
    ensures u in FitAll(us, text, target, count)
  {
    var n := |us| - 1;
    if u in us[..n] {
      FittingUnitsStay(us[..n], text, target, count, u);
    } else {
      assert us == us[..n] + [us[n]];
    }
  }

  function SentenceUnit(b: Block, s: Span, count: string -> nat): Unit {
    Unit(b.start + s.start, b.start + s.end, b.page, SliceCost(b.text, s, count))
  }

  lemma SentenceOfBlock(b: Block, count: string -> nat, i: nat)
    requires !b.isHeading && i < |SentenceSpans(b.text)|
    ensures SentenceUnit(b, SentenceSpans(b.text)[i], count) in BlockUnits(b, count)
  {
    assert BlockUnits(b, count)[i] == SentenceUnit(b, SentenceSpans(b.text)[i], count);
  }

  /** A sentence of a block within the budget is a unit. */
  lemma SentenceIsUnit(blocks: seq<Block>, text: string, target: nat, count: string -> nat, g: nat, i: nat)
    requires g < |blocks| && !blocks[g].isHeading && i < |SentenceSpans(blocks[g].text)|
    requires SliceCost(blocks[g].text, SentenceSpans(blocks[g].text)[i], count) <= target
    ensures SentenceUnit(blocks[g], SentenceSpans(blocks[g].text)[i], count)
            in SectionUnits(blocks, text, target, count)
  {
    var u := SentenceUnit(blocks[g], SentenceSpans(blocks[g].text)[i], count);
    SentenceOfBlock(blocks[g], count, i);
    RawUnitsHave(blocks, count, g, BlockUnits(blocks[g], count), u);
    FittingUnitsStay(RawUnits(blocks, count), text, target, count, u);
  }

  lemma HeadingIsUnit(blocks: seq<Block>, text: string, target: nat, count: string -> nat, g: nat)
    requires g < |blocks| && blocks[g].isHeading && count(blocks[g].text) <= target
    ensures var b := blocks[g]; Unit(b.start, b.end, b.page, count(b.text)) in SectionUnits(blocks, text, target, count)
  {
    var u := BlockUnits(blocks[g], count)[0];
    RawUnitsHave(blocks, count, g, BlockUnits(blocks[g], count), u);
    FittingUnitsStay(RawUnits(blocks, count), text, target, count, u);
  }

  // ---- pieces are as long as they can be

  /** Some fragment starts where `u` does and would have put `before` over the budget. */
  predicate StartsOver(text: string, before: Unit, u: Unit, frags: seq<Span>, target: nat, count: string -> nat) {
    exists k :: 0 <= k < |frags| && frags[k].start == u.start && frags[k].start <= frags[k].end <= |text|
      && before.tokens + count(text[frags[k].start..frags[k].end]) > target
  }

  lemma MoreFragments(text: string, before: Unit, u: Unit, frags: seq<Span>, target: nat, count: string -> nat)
    requires frags != [] && StartsOver(text, before, u, frags[1..], target, count)
    ensures StartsOver(text, before, u, frags, target, count)
  {
    var k :| 0 <= k < |frags[1..]| && frags[1..][k].start == u.start
             && frags[1..][k].start <= frags[1..][k].end <= |text|
             && before.tokens + count(text[frags[1..][k].start..frags[1..][k].end]) > target;
    assert frags[k + 1] == frags[1..][k];
  }

  lemma {:induction false} GrowKeepsStart(text: string, cur: Unit, rest: seq<Span>, target: nat, count: string -> nat)
    requires InText(text, rest)
    ensures Grow(text, cur, rest, target, count)[0].start == cur.start
    decreases |rest|
  {
    if rest == [] {
    } else {
      var w := rest[0];
      var tokens := count(text[w.start..w.end]);
      if cur.tokens + tokens <= target {
        GrowKeepsStart(text, cur.(end := w.end, tokens := cur.tokens + tokens), rest[1..], target, count);
      }
    }
  }

  /** A piece of an oversized unit ends only before a fragment that would not have fitted. */
  lemma {:induction false} GrowIsGreedy(text: string, cur: Unit, rest: seq<Span>, target: nat, count: string -> nat,
                                        i: nat)
    requires InText(text, rest) && i + 1 < |Grow(text, cur, rest, target, count)|
    ensures var us := Grow(text, cur, rest, target, count); StartsOver(text, us[i], us[i + 1], rest, target, count)
    decreases |rest|
  {
    var us := Grow(text, cur, rest, target, count);
    var w := rest[0];
    var tokens := count(text[w.start..w.end]);
    if cur.tokens + tokens > target {
      var next := Unit(w.start, w.end, cur.page, tokens);
      if i == 0 {
        GrowKeepsStart(text, next, rest[1..], target, count);
        assert us[1].start == rest[0].start;
      } else {
        GrowIsGreedy(text, next, rest[1..], target, count, i - 1);
        MoreFragments(text, us[i], us[i + 1], rest, target, count);
      }
    } else {
      GrowIsGreedy(text, cur.(end := w.end, tokens := cur.tokens + tokens), rest[1..], target, count, i);
      MoreFragments(text, us[i], us[i + 1], rest, target, count);
    }
  }

  // ---- words

  /** A maximal stretch without whitespace between `lo` and `hi`. */
  predicate IsWord(text: string, w: Span, lo: nat, hi: nat) {
    && lo <= w.start < w.end <= hi <= |text|
    && (forall q :: w.start <= q < w.end ==> !IsSpace(text[q]))
    && (w.start > lo ==> IsSpace(text[w.start - 1])) && (w.end < hi ==> IsSpace(text[w.end]))
  }

  predicate Inside(w: Span, pos: nat) {
    w.start < pos < w.end
  }

  lemma {:induction false} WordEndIs(text: string, i: nat, hi: nat)
    requires i <= hi <= |text|
    ensures var e := WordEnd(text, i, hi);
            (forall q :: i <= q < e ==> !IsSpace(text[q])) && (e < hi ==> IsSpace(text[e]))
    decreases hi - i
  {
    if i < hi && !IsSpace(text[i]) {
      WordEndIs(text, i + 1, hi);
    }
  }

  /** No word is cut by the ends of the spans. */
  predicate KeepsWord(spans: seq<Span>, w: Span) {
    forall k :: 0 <= k < |spans| ==> !Inside(w, spans[k].start) && !Inside(w, spans[k].end)
  }

  lemma KeepsWordConcat(a: seq<Span>, b: seq<Span>, w: Span)
    requires KeepsWord(a, w) && KeepsWord(b, w)
    ensures KeepsWord(a + b, w)
  {
  }

  /** What `WordEnd` and `SkipSpace` find is a word, and any word is that one, or past it. */
  lemma WordFound(text: string, lo: nat, hi: nat, w: Span)
    requires lo <= hi <= |text| && IsWord(text, w, lo, hi)
    ensures var s := SkipSpace(text, lo, hi);
            s < hi && (w == Span(s, WordEnd(text, s, hi)) || WordEnd(text, s, hi) < w.start)
  {
    var s := SkipSpace(text, lo, hi);
    assert !IsSpace(text[w.start]);
    WordEndIs(text, s, hi);
  }

  lemma {:induction false} FragmentsKeepWord(text: string, lo: nat, hi: nat, target: nat, count: string -> nat, w: Span)
    requires lo <= hi <= |text| && IsWord(text, w, lo, hi) && count(text[w.start..w.end]) <= target
    ensures KeepsWord(Fragments(text, Words(text, lo, hi), target, count), w)
    decreases hi - lo
  {
    var s := SkipSpace(text, lo, hi);
    WordFound(text, lo, hi, w);
    var e := WordEnd(text, s, hi);
    var first, rest := Span(s, e), Words(text, e, hi);
    assert Words(text, lo, hi)[1..] == rest;
    var halves := CharHalves(text, s, e, target, count);
    if w == first {
      assert halves == [w];
      WordsTile(text, e, hi);
      FragmentsTile(text, rest, e, hi, target, count);
      PastWord(text, Fragments(text, rest, target, count), e, hi, w);
    } else {
      FragmentsKeepWord(text, e, hi, target, count, w);
      HalvesPartitionTheWord(text, s, e, target, count);
      PartitionTiles(text, halves, s, e);
      BeforeWord(text, halves, s, e, w);
    }
    KeepsWordConcat(halves, Fragments(text, rest, target, count), w);
  }

  lemma PastWord(text: string, spans: seq<Span>, lo: nat, hi: nat, w: Span)
    requires lo <= hi <= |text| && Tiles(text, spans, lo, hi) && w.end <= lo
    ensures KeepsWord(spans, w)
  {
    forall k | 0 <= k < |spans| ensures !Inside(w, spans[k].start) && !Inside(w, spans[k].end) {
      TilesBounds(text, spans, lo, hi, k);
    }
  }

  lemma BeforeWord(text: string, spans: seq<Span>, lo: nat, hi: nat, w: Span)
    requires lo <= hi <= |text| && Tiles(text, spans, lo, hi) && hi <= w.start
    ensures KeepsWord(spans, w)
  {
    forall k | 0 <= k < |spans| ensures !Inside(w, spans[k].start) && !Inside(w, spans[k].end) {
      TilesBounds(text, spans, lo, hi, k);
    }
  }

  lemma {:induction false} GrowKeepsWord(text: string, cur: Unit, rest: seq<Span>, target: nat, count: string -> nat,
                                         w: Span)
    requires InText(text, rest) && KeepsWord(rest, w) && KeepsWord([SpanOfUnit(cur)], w)
    ensures KeepsWord(UnitSpans(Grow(text, cur, rest, target, count)), w)
    decreases |rest|
  {
    assert UnitSpans([cur]) == [SpanOfUnit(cur)];
    if rest == [] {
    } else {
      var f := rest[0];
      var tokens := count(text[f.start..f.end]);
      if cur.tokens + tokens > target {
        var next := Unit(f.start, f.end, cur.page, tokens);
        NextFragment(rest, w, next);
        GrowKeepsWord(text, next, rest[1..], target, count, w);
        UnitSpansConcat([cur], Grow(text, next, rest[1..], target, count));
        KeepsWordConcat(UnitSpans([cur]), UnitSpans(Grow(text, next, rest[1..], target, count)), w);
      } else {
        var longer := cur.(end := f.end, tokens := cur.tokens + tokens);
        LongerUnit(rest, w, cur, longer);
        GrowKeepsWord(text, longer, rest[1..], target, count, w);
      }
    }
  }

  lemma NextFragment(rest: seq<Span>, w: Span, next: Unit)
    requires rest != [] && KeepsWord(rest, w) && SpanOfUnit(next) == rest[0]
    ensures KeepsWord([SpanOfUnit(next)], w) && KeepsWord(rest[1..], w)
  {
  }

  lemma LongerUnit(rest: seq<Span>, w: Span, cur: Unit, longer: Unit)
    requires rest != [] && KeepsWord(rest, w) && KeepsWord([SpanOfUnit(cur)], w)
    requires longer.start == cur.start && longer.end == rest[0].end
    ensures KeepsWord([SpanOfUnit(longer)], w) && KeepsWord(rest[1..], w)
  {
    assert [SpanOfUnit(cur)][0].start == cur.start;
  }

  /** The pieces of a unit cut none of its words that fit the budget. */
  lemma PiecesKeepWord(u: Unit, text: string, target: nat, count: string -> nat, w: Span)
    requires u.start < u.end <= |text| && IsWord(text, w, u.start, u.end) && count(text[w.start..w.end]) <= target
    ensures KeepsWord(UnitSpans(Fitted(u, text, target, count)), w)
  {
    if u.tokens > target {
      var frags := FragmentsOf(u, text, target, count);
      FragmentsKeepWord(text, u.start, u.end, target, count, w);
      if frags != [] {
        InTextRest(text, frags);
        var f := frags[0];
        var first := Unit(f.start, f.end, u.page, count(text[f.start..f.end]));
        NextFragment(frags, w, first);
        GrowKeepsWord(text, first, frags[1..], target, count, w);
      }
    }
  }

  /** A word of one unit, the other units on either side of it: no piece cuts it. */
  lemma {:induction false} FitAllKeepsWord(us: seq<Unit>, text: string, target: nat, count: string -> nat, w: Span)
    requires forall k :: 0 <= k < |us| ==> us[k].start < us[k].end <= |text| && ClearOf(us[k], text, w)
    requires w.start <= w.end <= |text| && count(text[w.start..w.end]) <= target
    ensures KeepsWord(UnitSpans(FitAll(us, text, target, count)), w)
  {
    if us == [] {
    } else {
      var n := |us| - 1;
      var u := us[n];
      FitAllKeepsWord(us[..n], text, target, count, w);
      OneKeepsWord(u, text, target, count, w);
      UnitSpansConcat(FitAll(us[..n], text, target, count), Fitted(u, text, target, count));
      KeepsWordConcat(UnitSpans(FitAll(us[..n], text, target, count)), UnitSpans(Fitted(u, text, target, count)), w);
    }
  }

  /** The word is one of the unit's or lies outside it. */
  predicate ClearOf(u: Unit, text: string, w: Span) {
    IsWord(text, w, u.start, u.end) || u.end <= w.start || w.end <= u.start
  }

  lemma OneKeepsWord(u: Unit, text: string, target: nat, count: string -> nat, w: Span)
    requires u.start < u.end <= |text| && ClearOf(u, text, w)
    requires w.start <= w.end <= |text| && count(text[w.start..w.end]) <= target
    ensures KeepsWord(UnitSpans(Fitted(u, text, target, count)), w)
  {
    if IsWord(text, w, u.start, u.end) {
      PiecesKeepWord(u, text, target, count, w);
    } else {
      FittedTiles(u, text, target, count);
      var spans := UnitSpans(Fitted(u, text, target, count));
      if u.end <= w.start {
        BeforeWord(text, spans, u.start, u.end, w);
      } else {
        PastWord(text, spans, u.start, u.end, w);
      }
    }
  }

  // ---- sentences end between words

  predicate EndsAtSpace(text: string, e: nat) {
    e < |text| ==> IsSpace(text[e])
  }

  lemma PieceEnds(text: string, start: nat, end: nat)
    requires start <= end <= |text| && EndsAtSpace(text, end)
    ensures forall k :: 0 <= k < |Piece(text, start, end)| ==> EndsAtSpace(text, Piece(text, start, end)[k].end)
  {
  }

  lemma {:induction false} PiecesEnd(text: string, start: nat, cuts: seq<nat>, i: nat)
    requires start <= |text| && Sentences.Increasing(cuts, start, |text|) && i < |Pieces(text, start, cuts)|
    requires forall k :: 0 <= k < |cuts| ==> EndsAtSpace(text, cuts[k])
    ensures EndsAtSpace(text, Pieces(text, start, cuts)[i].end)
    decreases |cuts|
  {
    var first := Piece(text, start, cuts[0]);
    PieceEnds(text, start, cuts[0]);
    if i >= |first| { PiecesEnd(text, cuts[0], cuts[1..], i - |first|); }
  }

  lemma SentenceEnds(text: string, i: nat)
    requires i < |SentenceSpans(text)|
    ensures EndsAtSpace(text, SentenceSpans(text)[i].end)
  {
    var cuts := Sentences.Cuts(text);
    forall k | 0 <= k < |cuts| ensures EndsAtSpace(text, cuts[k]) {
      if k < |cuts| - 1 {
        assert cuts[k] in Boundaries(text, 0);
        BoundaryExactly(text, cuts[k]);
      }
    }
    PiecesEnd(text, 0, cuts, i);
  }

  /** A word of a text is a word of one of its sentences. */
  lemma WordOfSentence(text: string, w: Span) returns (i: nat)
    requires IsWord(text, w, 0, |text|)
    ensures i < |SentenceSpans(text)|
    ensures IsWord(text, w, SentenceSpans(text)[i].start, SentenceSpans(text)[i].end)
  {
    SentencesLoseNothing(text);
    assert !IsSpace(text[w.start]);
    i := SpanOf(text, SentenceSpans(text), 0, |text|, w.start);
    SentenceEnds(text, i);
    TilesBounds(text, SentenceSpans(text), 0, |text|, i);
  }

  lemma ShiftedWord(full: string, b: Block, w: Span, lo: nat, hi: nat)
    requires Exact(full, b) && b.start <= w.start <= w.end <= b.end
    requires IsWord(b.text, Span(w.start - b.start, w.end - b.start), lo, hi)
    ensures IsWord(full, w, b.start + lo, b.start + hi)
  {
    forall q | b.start <= q < b.end ensures full[q] == b.text[q - b.start] {
      assert full[b.start..b.end][q - b.start] == full[q];
    }
  }

  lemma UnshiftedWord(full: string, b: Block, w: Span)
    requires Exact(full, b) && IsWord(full, w, b.start, b.end)
    ensures IsWord(b.text, Span(w.start - b.start, w.end - b.start), 0, |b.text|)
  {
    forall q | 0 <= q < |b.text| ensures full[b.start + q] == b.text[q] {
      assert full[b.start..b.end][q] == full[b.start + q];
    }
  }

  /** A word of a block is a word of one of the units the block contributes. */
  lemma WordOfUnit(full: string, b: Block, count: string -> nat, w: Span) returns (u: Unit)
    requires Exact(full, b) && IsWord(full, w, b.start, b.end)
    ensures u in BlockUnits(b, count) && IsWord(full, w, u.start, u.end)
  {
    if b.isHeading {
      u := BlockUnits(b, count)[0];
    } else {
      UnshiftedWord(full, b, w);
      var w' := Span(w.start - b.start, w.end - b.start);
      var i := WordOfSentence(b.text, w');
      var s := SentenceSpans(b.text)[i];
      ShiftedWord(full, b, w, s.start, s.end);
      u := SentenceUnit(b, s, count);
      SentenceOfBlock(b, count, i);
    }
  }

  /** No unit of a section cuts a word of its blocks that fits the budget. */
  lemma SectionKeepsWord(blocks: seq<Block>, full: string, target: nat, count: string -> nat, lo: nat, hi: nat, g: nat,
                         w: Span)
    requires lo <= hi <= |full| && Tiles(full, BlockSpans(blocks), lo, hi) && AllExact(full, blocks)
    requires g < |blocks| && IsWord(full, w, blocks[g].start, blocks[g].end) && count(full[w.start..w.end]) <= target
    ensures KeepsWord(UnitSpans(SectionUnits(blocks, full, target, count)), w)
  {
    var raw := RawUnits(blocks, count);
    RawUnitsTile(blocks, full, count, lo, hi);
    var u := WordOfUnit(full, blocks[g], count, w);
    RawUnitsHave(blocks, count, g, BlockUnits(blocks[g], count), u);
    var y :| 0 <= y < |raw| && raw[y] == u;
    forall k | 0 <= k < |raw| ensures raw[k].start < raw[k].end <= |full| && ClearOf(raw[k], full, w) {
      TilesBounds(full, UnitSpans(raw), lo, hi, k);
      if k < y { TilesOrdered(full, UnitSpans(raw), lo, hi, k, y); }
      if y < k { TilesOrdered(full, UnitSpans(raw), lo, hi, y, k); }
    }
    FitAllKeepsWord(raw, full, target, count, w);
  }

  // ---- where a unit comes from

  /** `u` lies in `[lo, hi]` and is on `page`. */
  predicate Within(u: Unit, lo: nat, hi: nat, page: Option<int>) {
    lo <= u.start < u.end <= hi && u.page == page
  }

  lemma {:induction false} GrowKeepsPage(text: string, cur: Unit, rest: seq<Span>, target: nat, count: string -> nat,
                                         i: nat)
    requires InText(text, rest) && i < |Grow(text, cur, rest, target, count)|
    ensures Grow(text, cur, rest, target, count)[i].page == cur.page
    decreases |rest|
  {
    if rest == [] {
    } else {
      var w := rest[0];
      var tokens := count(text[w.start..w.end]);
      if cur.tokens + tokens <= target {
        GrowKeepsPage(text, cur.(end := w.end, tokens := cur.tokens + tokens), rest[1..], target, count, i);
      } else if i > 0 {
        GrowKeepsPage(text, Unit(w.start, w.end, cur.page, tokens), rest[1..], target, count, i - 1);
      }
    }
  }

  lemma PieceWithin(u: Unit, text: string, target: nat, count: string -> nat, i: nat)
    requires u.start < u.end <= |text| && i < |Fitted(u, text, target, count)|
    ensures Within(Fitted(u, text, target, count)[i], u.start, u.end, u.page)
  {
    FittedTiles(u, text, target, count);
    TilesBounds(text, UnitSpans(Fitted(u, text, target, count)), u.start, u.end, i);
    if u.tokens > target {
      var frags := FragmentsOf(u, text, target, count);
      if frags != [] {
        InTextRest(text, frags);
        var f := frags[0];
        GrowKeepsPage(text, Unit(f.start, f.end, u.page, count(text[f.start..f.end])), frags[1..], target, count, i);
      }
    }
  }

  lemma {:induction false} FittedFrom(us: seq<Unit>, text: string, target: nat, count: string -> nat, i: nat)
    returns (k: nat)
    requires (forall j :: 0 <= j < |us| ==> us[j].start < us[j].end <= |text|) && i < |FitAll(us, text, target, count)|
    ensures k < |us| && Within(FitAll(us, text, target, count)[i], us[k].start, us[k].end, us[k].page)
  {
    var n := |us| - 1;
    var before := FitAll(us[..n], text, target, count);
    if i < |before| {
      k := FittedFrom(us[..n], text, target, count, i);
    } else {
      k := n;
      PieceWithin(us[n], text, target, count, i - |before|);
    }
  }

  lemma BlockUnitWithin(b: Block, full: string, count: string -> nat, i: nat)
    requires Exact(full, b) && i < |BlockUnits(b, count)|
    ensures Within(BlockUnits(b, count)[i], b.start, b.end, b.page)
  {
    BlockUnitsTile(b, full, count);
    TilesBounds(full, UnitSpans(BlockUnits(b, count)), b.start, b.end, i);
  }

  lemma {:induction false} RawFrom(blocks: seq<Block>, full: string, count: string -> nat, i: nat) returns (g: nat)
    requires AllExact(full, blocks) && i < |RawUnits(blocks, count)|
    ensures g < |blocks| && Within(RawUnits(blocks, count)[i], blocks[g].start, blocks[g].end, blocks[g].page)
  {
    var n := |blocks| - 1;
    var before := RawUnits(blocks[..n], count);
    if i < |before| {
      g := RawFrom(blocks[..n], full, count, i);
    } else {
      g := n;
      BlockUnitWithin(blocks[n], full, count, i - |before|);
    }
  }

  /** Every unit of a section lies in one of its blocks and is on its page. */
  lemma UnitFrom(blocks: seq<Block>, full: string, target: nat, count: string -> nat, i: nat) returns (g: nat)
    requires AllExact(full, blocks) && i < |SectionUnits(blocks, full, target, count)|
    ensures g < |blocks|
    ensures Within(SectionUnits(blocks, full, target, count)[i], blocks[g].start, blocks[g].end, blocks[g].page)
  {
    var raw := RawUnits(blocks, count);
    forall j | 0 <= j < |raw| ensures raw[j].start < raw[j].end <= |full| {
      var h := RawFrom(blocks, full, count, j);
    }
    var k := FittedFrom(raw, full, target, count, i);
    g := RawFrom(blocks, full, count, k);
  }
}
