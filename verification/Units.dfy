/** Packing units: sentences and headings, with anything over the budget split at words, and words over
    the budget split by halving. The token counter is a parameter. */
module Units {
  import opened Values
  import opened Text
  import opened Extract
  import opened Sentences

  datatype Unit = Unit(start: nat, end: nat, page: Option<int>, tokens: nat)

  function SpanOfUnit(u: Unit): Span { Span(u.start, u.end) }

  function UnitSpans(us: seq<Unit>): (r: seq<Span>)
    ensures |r| == |us|
  {
    seq(|us|, i requires 0 <= i < |us| => SpanOfUnit(us[i]))
  }

  lemma UnitSpansConcat(a: seq<Unit>, b: seq<Unit>)
    ensures UnitSpans(a + b) == UnitSpans(a) + UnitSpans(b)
  {
  }

  // ---- words and halves

  function WordEnd(text: string, i: nat, hi: nat): (e: nat)
    requires i <= hi <= |text|
    ensures i <= e <= hi
    ensures i < hi && !IsSpace(text[i]) ==> i < e
    decreases hi - i
  {
    if i < hi && !IsSpace(text[i]) then WordEnd(text, i + 1, hi) else i
  }

  function Words(text: string, lo: nat, hi: nat): seq<Span>
    requires lo <= hi <= |text|
    decreases hi - lo
  {
    var s := SkipSpace(text, lo, hi);
    if s == hi then [] else var e := WordEnd(text, s, hi); [Span(s, e)] + Words(text, e, hi)
  }

  /** The spans follow each other without gaps. */
  predicate Partition(spans: seq<Span>, lo: nat, hi: nat) {
    if spans == [] then lo == hi
    else spans[0].start == lo < spans[0].end && Partition(spans[1..], spans[0].end, hi)
  }

  lemma {:induction false} PartitionConcat(a: seq<Span>, b: seq<Span>, lo: nat, mid: nat, hi: nat)
    requires Partition(a, lo, mid) && Partition(b, mid, hi)
    ensures Partition(a + b, lo, hi)
  {
    if a == [] {
      assert a + b == b;
    } else {
      PartitionConcat(a[1..], b, a[0].end, mid, hi);
      assert (a + b)[1..] == a[1..] + b;
    }
  }

  lemma {:induction false} PartitionTiles(text: string, spans: seq<Span>, lo: nat, hi: nat)
    requires lo <= hi <= |text| && Partition(spans, lo, hi)
    ensures Tiles(text, spans, lo, hi)
  {
    if spans == [] {
    } else {
      PartitionOrdered(spans, lo, hi);
      PartitionTiles(text, spans[1..], spans[0].end, hi);
    }
  }

  lemma {:induction false} PartitionOrdered(spans: seq<Span>, lo: nat, hi: nat)
    requires Partition(spans, lo, hi)
    ensures lo <= hi && (spans != [] ==> spans[0].end <= hi)
  {
    if spans == [] {
    } else {
      PartitionOrdered(spans[1..], spans[0].end, hi);
    }
  }

  /** Within the budget, or a single character. */
  predicate Fits(text: string, s: Span, target: nat, count: string -> nat) {
    s.start <= s.end <= |text| && (count(text[s.start..s.end]) <= target || s.end - s.start <= 1)
  }

  function CharHalves(text: string, start: nat, end: nat, target: nat, count: string -> nat): seq<Span>
    requires start <= end <= |text|
    decreases end - start
  {
    if count(text[start..end]) <= target || end - start <= 1 then [Span(start, end)]
    else
      var mid := start + (end - start) / 2;
      CharHalves(text, start, mid, target, count) + CharHalves(text, mid, end, target, count)
  }

  /** Halving partitions its word. */
  lemma {:induction false} HalvesPartitionTheWord(text: string, start: nat, end: nat, target: nat, count: string -> nat)
    requires start < end <= |text|
    ensures Partition(CharHalves(text, start, end, target, count), start, end)
    decreases end - start
  {
    if count(text[start..end]) <= target || end - start <= 1 {
      assert [Span(start, end)][1..] == [];
    } else {
      var mid := start + (end - start) / 2;
      HalvesPartitionTheWord(text, start, mid, target, count);
      HalvesPartitionTheWord(text, mid, end, target, count);
      PartitionConcat(CharHalves(text, start, mid, target, count), CharHalves(text, mid, end, target, count), start,
        mid, end);
    }
  }

  predicate AllFit(text: string, spans: seq<Span>, target: nat, count: string -> nat) {
    forall i :: 0 <= i < |spans| ==> Fits(text, spans[i], target, count)
  }

  lemma AllFitConcat(text: string, a: seq<Span>, b: seq<Span>, target: nat, count: string -> nat)
    requires AllFit(text, a, target, count) && AllFit(text, b, target, count)
    ensures AllFit(text, a + b, target, count)
  {
  }

  /** It stops only at pieces that fit. */
  lemma {:induction false} HalvesFit(text: string, start: nat, end: nat, target: nat, count: string -> nat)
    requires start < end <= |text|
    ensures AllFit(text, CharHalves(text, start, end, target, count), target, count)
    decreases end - start
  {
    if count(text[start..end]) <= target || end - start <= 1 {
    } else {
      var mid := start + (end - start) / 2;
      HalvesFit(text, start, mid, target, count);
      HalvesFit(text, mid, end, target, count);
      AllFitConcat(text, CharHalves(text, start, mid, target, count), CharHalves(text, mid, end, target, count),
        target, count);
    }
  }

  /** `piece` is one half of a stretch within the span that did not fit. */
  predicate HalfOf(text: string, piece: Span, from: nat, to: nat, target: nat, count: string -> nat) {
    && from + 1 < to <= |text| && count(text[from..to]) > target
    && var mid := from + (to - from) / 2; piece == Span(from, mid) || piece == Span(mid, to)
  }

  /** A span is cut only where it has to be, and always in the middle. */
  lemma {:induction false} HalvedOnlyIfTooLong(text: string, start: nat, end: nat, target: nat, count: string -> nat,
                                               piece: Span)
    requires start < end <= |text| && piece in CharHalves(text, start, end, target, count)
    ensures piece == Span(start, end)
            || exists from: nat, to: nat :: start <= from && to <= end && HalfOf(text, piece, from, to, target, count)
    decreases end - start
  {
    if !(count(text[start..end]) <= target || end - start <= 1) {
      var mid := start + (end - start) / 2;
      assert HalfOf(text, Span(start, mid), start, end, target, count);
      assert HalfOf(text, Span(mid, end), start, end, target, count);
      if piece in CharHalves(text, start, mid, target, count) {
        HalvedOnlyIfTooLong(text, start, mid, target, count, piece);
      } else {
        HalvedOnlyIfTooLong(text, mid, end, target, count, piece);
      }
    }
  }

  /** The words of a stretch of text, those over the budget in halves. */
  function Fragments(text: string, words: seq<Span>, target: nat, count: string -> nat): seq<Span> {
    if words == [] then []
    else
      (if words[0].start <= words[0].end <= |text| then
        CharHalves(text, words[0].start, words[0].end, target, count) else [])
      + Fragments(text, words[1..], target, count)
  }

  lemma {:induction false} WordsTile(text: string, lo: nat, hi: nat)
    requires lo <= hi <= |text|
    ensures Tiles(text, Words(text, lo, hi), lo, hi)
    decreases hi - lo
  {
    var s := SkipSpace(text, lo, hi);
    if s >= hi {
    } else {
      var e := WordEnd(text, s, hi);
      WordsTile(text, e, hi);
      assert Words(text, lo, hi)[1..] == Words(text, e, hi);
    }
  }

  lemma {:induction false} FragmentsTile(text: string, words: seq<Span>, lo: nat, hi: nat, target: nat,
                                         count: string -> nat)
    requires lo <= hi <= |text| && Tiles(text, words, lo, hi)
    ensures Tiles(text, Fragments(text, words, target, count), lo, hi)
  {
    if words == [] {
    } else {
      var w := words[0];
      var halves := CharHalves(text, w.start, w.end, target, count);
      FragmentsTile(text, words[1..], w.end, hi, target, count);
      HalvesPartitionTheWord(text, w.start, w.end, target, count);
      PartitionTiles(text, halves, w.start, w.end);
      TilesWiden(text, halves, lo, w.start, w.end, w.end);
      TilesConcat(text, halves, Fragments(text, words[1..], target, count), lo, w.end, hi);
    }
  }

  lemma {:induction false} FragmentsFit(text: string, words: seq<Span>, lo: nat, hi: nat, target: nat,
                                        count: string -> nat)
    requires lo <= hi <= |text| && Tiles(text, words, lo, hi)
    ensures AllFit(text, Fragments(text, words, target, count), target, count)
  {
    if words == [] {
    } else {
      HalvesFit(text, words[0].start, words[0].end, target, count);
      FragmentsFit(text, words[1..], words[0].end, hi, target, count);
      AllFitConcat(text, CharHalves(text, words[0].start, words[0].end, target, count),
                   Fragments(text, words[1..], target, count), target, count);
    }
  }

  // ---- greedy packing of fragments

  predicate InText(text: string, spans: seq<Span>) {
    forall i :: 0 <= i < |spans| ==> spans[i].start <= spans[i].end <= |text|
  }

  /** The piece `cur` grows with each next fragment until one does not fit any more. */
  function Grow(text: string, cur: Unit, rest: seq<Span>, target: nat, count: string -> nat): (us: seq<Unit>)
    requires InText(text, rest)
    ensures us != []
    decreases |rest|
  {
    if rest == [] then [cur]
    else
      var w := rest[0];
      var tokens := count(text[w.start..w.end]);
      if cur.tokens + tokens > target
      then [cur] + Grow(text, Unit(w.start, w.end, cur.page, tokens), rest[1..], target, count)
      else Grow(text, cur.(end := w.end, tokens := cur.tokens + tokens), rest[1..], target, count)
  }

  function PackFragments(text: string, frags: seq<Span>, page: Option<int>, target: nat,
                         count: string -> nat): seq<Unit>
    requires InText(text, frags)
  {
    if frags == [] then []
    else
      var w := frags[0];
      Grow(text, Unit(w.start, w.end, page, count(text[w.start..w.end])), frags[1..], target, count)
  }

  lemma {:induction false} TilesInText(text: string, spans: seq<Span>, lo: nat, hi: nat)
    requires lo <= hi <= |text| && Tiles(text, spans, lo, hi)
    ensures InText(text, spans)
  {
    forall i | 0 <= i < |spans| ensures spans[i].start <= spans[i].end <= |text| {
      TilesBounds(text, spans, lo, hi, i);
    }
  }

  lemma {:induction false} GrowTiles(text: string, cur: Unit, rest: seq<Span>, hi: nat, target: nat,
                                     count: string -> nat)
    requires cur.start < cur.end <= hi <= |text| && InText(text, rest) && Tiles(text, rest, cur.end, hi)
    ensures Tiles(text, UnitSpans(Grow(text, cur, rest, target, count)), cur.start, hi)
    decreases |rest|
  {
    if rest == [] {
      assert UnitSpans([cur])[1..] == [];
    } else {
      var w := rest[0];
      var tokens := count(text[w.start..w.end]);
      if cur.tokens + tokens > target {
        var next := Grow(text, Unit(w.start, w.end, cur.page, tokens), rest[1..], target, count);
        GrowTiles(text, Unit(w.start, w.end, cur.page, tokens), rest[1..], hi, target, count);
        assert UnitSpans([cur] + next)[1..] == UnitSpans(next);
        TilesWiden(text, UnitSpans(next), cur.end, w.start, hi, hi);
      } else {
        GrowTiles(text, cur.(end := w.end, tokens := cur.tokens + tokens), rest[1..], hi, target, count);
      }
    }
  }

  /** A counter that never charges more for two texts joined by whitespace than for the two. */
  ghost predicate Subadditive(count: string -> nat) {
    forall x, w, y :: AllSpace(w, 0, |w|) ==> count(x + w + y) <= count(x) + count(y)
  }

  lemma JoinedCost(text: string, count: string -> nat, a: nat, b: nat, c: nat, d: nat)
    requires Subadditive(count) && a <= b <= c <= d <= |text| && AllSpace(text, b, c)
    ensures count(text[a..d]) <= count(text[a..b]) + count(text[c..d])
  {
    var w := text[b..c];
    assert AllSpace(w, 0, |w|);
    assert text[a..d] == text[a..b] + w + text[c..d];
  }

  /** A unit's recorded tokens cover what its text costs. */
  predicate Covers(text: string, u: Unit, count: string -> nat) {
    u.start <= u.end <= |text| && count(text[u.start..u.end]) <= u.tokens
  }

  lemma {:induction false} GrowCovers(text: string, cur: Unit, rest: seq<Span>, hi: nat, target: nat,
                                      count: string -> nat)
    requires cur.start < cur.end <= hi <= |text| && InText(text, rest) && Tiles(text, rest, cur.end, hi)
    requires Subadditive(count) && Covers(text, cur, count)
    ensures forall i :: 0 <= i < |Grow(text, cur, rest, target, count)| ==>
              Covers(text, Grow(text, cur, rest, target, count)[i], count)
    decreases |rest|
  {
    if rest == [] {
    } else {
      var w := rest[0];
      var tokens := count(text[w.start..w.end]);
      if cur.tokens + tokens > target {
        GrowCovers(text, Unit(w.start, w.end, cur.page, tokens), rest[1..], hi, target, count);
      } else {
        JoinedCost(text, count, cur.start, cur.end, w.start, w.end);
        GrowCovers(text, cur.(end := w.end, tokens := cur.tokens + tokens), rest[1..], hi, target, count);
      }
    }
  }

  lemma {:induction false} GrowWithinBudget(text: string, cur: Unit, rest: seq<Span>, target: nat, count: string -> nat)
    requires InText(text, rest) && cur.tokens <= target
    requires forall i :: 0 <= i < |rest| ==> count(text[rest[i].start..rest[i].end]) <= target
    ensures forall i :: 0 <= i < |Grow(text, cur, rest, target, count)| ==>
              Grow(text, cur, rest, target, count)[i].tokens <= target
    decreases |rest|
  {
    if rest == [] {
    } else {
      var w := rest[0];
      var tokens := count(text[w.start..w.end]);
      if cur.tokens + tokens > target {
        GrowWithinBudget(text, Unit(w.start, w.end, cur.page, tokens), rest[1..], target, count);
      } else {
        GrowWithinBudget(text, cur.(end := w.end, tokens := cur.tokens + tokens), rest[1..], target, count);
      }
    }
  }

  /** Every single character costs at most the target. */
  predicate CharsFit(text: string, target: nat, count: string -> nat) {
    forall p :: 0 <= p < |text| ==> count([text[p]]) <= target
  }

  // ---- one unit

  function FragmentsOf(u: Unit, text: string, target: nat, count: string -> nat): (frags: seq<Span>)
    requires u.start < u.end <= |text|
    ensures InText(text, frags) && Tiles(text, frags, u.start, u.end)
    ensures AllFit(text, frags, target, count)
  {
    var words := Words(text, u.start, u.end);
    WordsTile(text, u.start, u.end);
    FragmentsTile(text, words, u.start, u.end, target, count);
    FragmentsFit(text, words, u.start, u.end, target, count);
    TilesInText(text, Fragments(text, words, target, count), u.start, u.end);
    Fragments(text, words, target, count)
  }

  /** A unit over the budget becomes pieces; one without a word (it cannot be over) stays. */
  function Fitted(u: Unit, text: string, target: nat, count: string -> nat): seq<Unit>
    requires u.start < u.end <= |text|
  {
    if u.tokens <= target then [u]
    else
      var pieces := PackFragments(text, FragmentsOf(u, text, target, count), u.page, target, count);
      if pieces == [] then [u] else pieces
  }

  lemma FittedTiles(u: Unit, text: string, target: nat, count: string -> nat)
    requires u.start < u.end <= |text|
    ensures Tiles(text, UnitSpans(Fitted(u, text, target, count)), u.start, u.end)
  {
    var frags := FragmentsOf(u, text, target, count);
    assert UnitSpans([u])[1..] == [];
    if u.tokens > target && frags != [] {
      var w := frags[0];
      GrowTiles(text, Unit(w.start, w.end, u.page, count(text[w.start..w.end])), frags[1..], u.end, target, count);
      var pieces := UnitSpans(PackFragments(text, frags, u.page, target, count));
      TilesWiden(text, pieces, u.start, w.start, u.end, u.end);
    }
  }

  lemma FittedWithinBudget(u: Unit, text: string, target: nat, count: string -> nat)
    requires u.start < u.end <= |text| && !IsSpace(text[u.start]) && CharsFit(text, target, count)
    ensures forall i :: 0 <= i < |Fitted(u, text, target, count)| ==> Fitted(u, text, target, count)[i].tokens <= target
  {
    if u.tokens > target {
      var frags := FragmentsOf(u, text, target, count);
      forall i | 0 <= i < |frags| ensures count(text[frags[i].start..frags[i].end]) <= target {
        TilesBounds(text, frags, u.start, u.end, i);
        assert Fits(text, frags[i], target, count);
        var p := frags[i].start;
        assert text[p..p + 1] == [text[p]];
      }
      var w := frags[0];
      GrowWithinBudget(text, Unit(w.start, w.end, u.page, count(text[w.start..w.end])), frags[1..], target, count);
    }
  }

  lemma FittedCovers(u: Unit, text: string, target: nat, count: string -> nat)
    requires u.start < u.end <= |text| && Subadditive(count) && Covers(text, u, count)
    ensures forall i :: 0 <= i < |Fitted(u, text, target, count)| ==>
            Covers(text, Fitted(u, text, target, count)[i], count)
  {
    if u.tokens > target {
      var frags := FragmentsOf(u, text, target, count);
      if frags != [] {
        var w := frags[0];
        GrowCovers(text, Unit(w.start, w.end, u.page, count(text[w.start..w.end])), frags[1..], u.end, target, count);
      }
    }
  }

  // ---- the units of a section

  function BlockUnits(b: Block, count: string -> nat): seq<Unit> {
    if b.isHeading then [Unit(b.start, b.end, b.page, count(b.text))]
    else UnitsAt(b, SentenceSpans(b.text), count)
  }

  /** Spans relative to the block become units in the whole text. */
  function UnitsAt(b: Block, spans: seq<Span>, count: string -> nat): (us: seq<Unit>)
    ensures |us| == |spans|
  {
    seq(|spans|, i requires 0 <= i < |spans| =>
      Unit(b.start + spans[i].start, b.start + spans[i].end, b.page, SliceCost(b.text, spans[i], count)))
  }

  function SliceCost(text: string, s: Span, count: string -> nat): nat {
    if s.start <= s.end <= |text| then count(text[s.start..s.end]) else 0
  }

  function RawUnits(blocks: seq<Block>, count: string -> nat): seq<Unit> {
    if blocks == [] then [] else RawUnits(blocks[..|blocks| - 1], count) + BlockUnits(blocks[|blocks| - 1], count)
  }

  function FitAll(us: seq<Unit>, text: string, target: nat, count: string -> nat): seq<Unit> {
    if us == [] then []
    else
      var u := us[|us| - 1];
      FitAll(us[..|us| - 1], text, target, count) +
      if u.start < u.end <= |text| then Fitted(u, text, target, count) else [u]
  }

  /** Blocks of one section to units that fit. */
  function SectionUnits(blocks: seq<Block>, text: string, target: nat, count: string -> nat): seq<Unit> {
    FitAll(RawUnits(blocks, count), text, target, count)
  }

  predicate Start(text: string, u: Unit) {
    u.start < u.end <= |text| && !IsSpace(text[u.start])
  }

  lemma UnitsAtTile(b: Block, full: string, spans: seq<Span>, count: string -> nat)
    requires Exact(full, b) && Tiles(b.text, spans, 0, |b.text|)
    ensures Tiles(full, UnitSpans(UnitsAt(b, spans, count)), b.start, b.end)
  {
    TilesShift(b.text, spans, 0, full, b.start);
    assert UnitSpans(UnitsAt(b, spans, count)) == Shift(spans, b.start);
  }

  lemma BlockUnitsTile(b: Block, full: string, count: string -> nat)
    requires Exact(full, b)
    ensures Tiles(full, UnitSpans(BlockUnits(b, count)), b.start, b.end)
  {
    if b.isHeading {
      assert UnitSpans(BlockUnits(b, count))[1..] == [];
    } else {
      SentencesLoseNothing(b.text);
      UnitsAtTile(b, full, SentenceSpans(b.text), count);
    }
  }

  lemma UnitAtStarts(b: Block, full: string, s: Span, count: string -> nat)
    requires Exact(full, b) && s.start < s.end <= |b.text| && !IsSpace(b.text[s.start])
    ensures var u := Unit(b.start + s.start, b.start + s.end, b.page, SliceCost(b.text, s, count));
            && Start(full, u) && Covers(full, u, count)
            && full[u.start..u.end] == b.text[s.start..s.end]
  {
    assert full[b.start + s.start] == b.text[s.start];
    assert full[b.start + s.start..b.start + s.end] == b.text[s.start..s.end];
  }

  lemma HeadingStarts(b: Block, full: string, count: string -> nat)
    requires Exact(full, b)
    ensures var u := Unit(b.start, b.end, b.page, count(b.text)); Start(full, u) && Covers(full, u, count)
  {
    assert full[b.start] == b.text[0];
  }

  lemma SentenceUnitStarts(b: Block, full: string, count: string -> nat, i: nat)
    requires Exact(full, b) && i < |SentenceSpans(b.text)|
    ensures var u := UnitsAt(b, SentenceSpans(b.text), count)[i]; Start(full, u) && Covers(full, u, count)
  {
    SentenceIs(b.text, i);
    UnitAtStarts(b, full, SentenceSpans(b.text)[i], count);
  }

  lemma BlockUnitsStart(b: Block, full: string, count: string -> nat, i: nat)
    requires Exact(full, b) && i < |BlockUnits(b, count)|
    ensures Start(full, BlockUnits(b, count)[i]) && Covers(full, BlockUnits(b, count)[i], count)
  {
    if b.isHeading {
      HeadingStarts(b, full, count);
    } else {
      SentenceUnitStarts(b, full, count, i);
    }
  }

  lemma SentenceIs(text: string, i: nat)
    requires i < |SentenceSpans(text)|
    ensures var s := SentenceSpans(text)[i]; s.start < s.end <= |text| && !IsSpace(text[s.start])
  {
    SentencesLoseNothing(text);
    assert IsSentence(text, Cuts(text), SentenceSpans(text)[i]);
  }

  /** The last block's units tile the rest of the text, the blocks before it end where it starts. */
  lemma LastBlockTiles(blocks: seq<Block>, full: string, count: string -> nat, lo: nat, hi: nat)
    requires blocks != [] && lo <= hi <= |full| && Tiles(full, BlockSpans(blocks), lo, hi) && AllExact(full, blocks)
    ensures var n := |blocks| - 1; var b := blocks[n];
            && lo <= b.start <= hi && Tiles(full, BlockSpans(blocks[..n]), lo, b.start)
            && Tiles(full, UnitSpans(BlockUnits(b, count)), b.start, hi)
  {
    var n := |blocks| - 1;
    var spans := BlockSpans(blocks);
    BlockUnitsTile(blocks[n], full, count);
    TilesSuffix(full, spans, lo, hi, n);
    assert spans[n..] == [spans[n]] && [spans[n]][1..] == [];
    TilesBounds(full, spans, lo, hi, n);
    TilesInit(full, spans, lo, hi);
    assert BlockSpans(blocks[..n]) == spans[..n];
    TilesWiden(full, UnitSpans(BlockUnits(blocks[n], count)), spans[n].start, spans[n].start, spans[n].end, hi);
  }

  lemma {:induction false} RawUnitsTile(blocks: seq<Block>, full: string, count: string -> nat, lo: nat, hi: nat)
    requires lo <= hi <= |full| && Tiles(full, BlockSpans(blocks), lo, hi)
    requires AllExact(full, blocks)
    ensures Tiles(full, UnitSpans(RawUnits(blocks, count)), lo, hi)
  {
    if blocks == [] {
    } else {
      var n := |blocks| - 1;
      LastBlockTiles(blocks, full, count, lo, hi);
      RawUnitsTile(blocks[..n], full, count, lo, blocks[n].start);
      var before, last := RawUnits(blocks[..n], count), BlockUnits(blocks[n], count);
      TilesConcat(full, UnitSpans(before), UnitSpans(last), lo, blocks[n].start, hi);
      UnitSpansConcat(before, last);
    }
  }

  lemma {:induction false} RawUnitsStart(blocks: seq<Block>, full: string, count: string -> nat, i: nat)
    requires forall k :: 0 <= k < |blocks| ==> Exact(full, blocks[k])
    requires i < |RawUnits(blocks, count)|
    ensures Start(full, RawUnits(blocks, count)[i]) && Covers(full, RawUnits(blocks, count)[i], count)
  {
    var n := |blocks| - 1;
    var before := RawUnits(blocks[..n], count);
    if i < |before| {
      RawUnitsStart(blocks[..n], full, count, i);
    } else {
      BlockUnitsStart(blocks[n], full, count, i - |before|);
    }
  }

  lemma {:induction false} FitAllTile(us: seq<Unit>, full: string, target: nat, count: string -> nat, lo: nat, hi: nat)
    requires lo <= hi <= |full| && Tiles(full, UnitSpans(us), lo, hi)
    ensures Tiles(full, UnitSpans(FitAll(us, full, target, count)), lo, hi)
  {
    if us == [] {
    } else {
      var n := |us| - 1;
      var u, spans := us[n], UnitSpans(us);
      TilesSuffix(full, spans, lo, hi, n);
      assert spans[n..] == [spans[n]] && [spans[n]][1..] == [];
      TilesBounds(full, spans, lo, hi, n);
      TilesInit(full, spans, lo, hi);
      assert UnitSpans(us[..n]) == spans[..n];
      FitAllTile(us[..n], full, target, count, lo, u.start);
      FittedTiles(u, full, target, count);
      var last := UnitSpans(Fitted(u, full, target, count));
      TilesWiden(full, last, u.start, u.start, u.end, hi);
      TilesConcat(full, UnitSpans(FitAll(us[..n], full, target, count)), last, lo, u.start, hi);
      UnitSpansConcat(FitAll(us[..n], full, target, count), Fitted(u, full, target, count));
    }
  }

  lemma {:induction false} FitAllWithinBudget(us: seq<Unit>, full: string, target: nat, count: string -> nat, i: nat)
    requires forall k :: 0 <= k < |us| ==> Start(full, us[k])
    requires CharsFit(full, target, count) && i < |FitAll(us, full, target, count)|
    ensures FitAll(us, full, target, count)[i].tokens <= target
  {
    var n := |us| - 1;
    var before := FitAll(us[..n], full, target, count);
    if i < |before| {
      FitAllWithinBudget(us[..n], full, target, count, i);
    } else {
      FittedWithinBudget(us[n], full, target, count);
    }
  }

  lemma {:induction false} FitAllCovers(us: seq<Unit>, full: string, target: nat, count: string -> nat, i: nat)
    requires forall k :: 0 <= k < |us| ==> Start(full, us[k]) && Covers(full, us[k], count)
    requires Subadditive(count) && i < |FitAll(us, full, target, count)|
    ensures Covers(full, FitAll(us, full, target, count)[i], count)
  {
    var n := |us| - 1;
    var before := FitAll(us[..n], full, target, count);
    if i < |before| {
      FitAllCovers(us[..n], full, target, count, i);
    } else {
      FittedCovers(us[n], full, target, count);
    }
  }

  /** The units of a section lose only whitespace of it. */
  lemma SectionUnitsTile(blocks: seq<Block>, full: string, target: nat, count: string -> nat, lo: nat, hi: nat)
    requires lo <= hi <= |full| && Tiles(full, BlockSpans(blocks), lo, hi)
    requires AllExact(full, blocks)
    ensures Tiles(full, UnitSpans(SectionUnits(blocks, full, target, count)), lo, hi)
  {
    RawUnitsTile(blocks, full, count, lo, hi);
    FitAllTile(RawUnits(blocks, count), full, target, count, lo, hi);
  }

  /** If every single character fits, so does every unit. */
  lemma UnitsWithinBudget(blocks: seq<Block>, full: string, target: nat, count: string -> nat)
    requires AllExact(full, blocks)
    requires CharsFit(full, target, count)
    ensures forall i :: 0 <= i < |SectionUnits(blocks, full, target, count)| ==>
              SectionUnits(blocks, full, target, count)[i].tokens <= target
  {
    var raw := RawUnits(blocks, count);
    forall k | 0 <= k < |raw| ensures Start(full, raw[k]) { RawUnitsStart(blocks, full, count, k); }
    forall i | 0 <= i < |FitAll(raw, full, target, count)|
      ensures FitAll(raw, full, target, count)[i].tokens <= target
    {
      FitAllWithinBudget(raw, full, target, count, i);
    }
  }

  lemma UnitsCover(blocks: seq<Block>, full: string, target: nat, count: string -> nat)
    requires AllExact(full, blocks)
    requires Subadditive(count)
    ensures forall i :: 0 <= i < |SectionUnits(blocks, full, target, count)| ==>
              Covers(full, SectionUnits(blocks, full, target, count)[i], count)
  {
    var raw := RawUnits(blocks, count);
    forall k | 0 <= k < |raw| ensures Start(full, raw[k]) && Covers(full, raw[k], count) {
      RawUnitsStart(blocks, full, count, k);
    }
    forall i | 0 <= i < |FitAll(raw, full, target, count)|
      ensures Covers(full, FitAll(raw, full, target, count)[i], count)
    {
      FitAllCovers(raw, full, target, count, i);
    }
  }

  // ---- the loops

  method FindFragments(u: Unit, text: string, target: nat, count: string -> nat) returns (frags: seq<Span>)
    requires u.start < u.end <= |text|
    ensures frags == FragmentsOf(u, text, target, count)
  {
    frags := [];
    var i := u.start;
    ghost var words := Words(text, u.start, u.end);
    while true
      invariant i <= u.end
      invariant frags + Fragments(text, Words(text, i, u.end), target, count) == Fragments(text, words, target, count)
      decreases u.end - i
    {
      var s := SkipSpace(text, i, u.end);
      if s == u.end {
        assert frags + [] == frags;
        break;
      }
      var e := WordEnd(text, s, u.end);
      var halves := CharHalves(text, s, e, target, count);
      assert Words(text, i, u.end)[1..] == Words(text, e, u.end);
      assert frags + (halves + Fragments(text, Words(text, e, u.end), target, count)) ==
             frags + halves + Fragments(text, Words(text, e, u.end), target, count);
      frags := frags + halves;
      i := e;
    }
  }

  /** Words are packed left to right; a word that no longer fits starts the next piece. */
  method SplitOversized(u: Unit, text: string, target: nat, count: string -> nat) returns (pieces: seq<Unit>)
    requires u.start < u.end <= |text|
    ensures u.tokens > target ==> pieces == Fitted(u, text, target, count)
  {
    var frags := FindFragments(u, text, target, count);
    pieces := PackLoop(text, frags, u.page, target, count);
    if pieces == [] {
      pieces := [u];
    }
  }

  lemma InTextRest(text: string, spans: seq<Span>)
    requires spans != [] && InText(text, spans)
    ensures InText(text, spans[1..])
  {
  }

  /** What one more fragment does to the piece being grown. */
  lemma GrowStep(text: string, cur: Unit, rest: seq<Span>, target: nat, count: string -> nat)
    requires rest != [] && InText(text, rest) && InText(text, rest[1..])
    ensures var w := rest[0]; var t := count(text[w.start..w.end]);
            Grow(text, cur, rest, target, count) ==
              if cur.tokens + t > target then
                [cur] + Grow(text, Unit(w.start, w.end, cur.page, t), rest[1..], target, count)
              else Grow(text, cur.(end := w.end, tokens := cur.tokens + t), rest[1..], target, count)
  {
  }

  /** Pieces cut off so far, the one being grown, and what it will grow into. */
  ghost predicate PackedSoFar(pieces: seq<Unit>, open: Option<Unit>, left: seq<Span>, text: string, page: Option<int>,
                              target: nat, count: string -> nat, all: seq<Unit>)
    requires InText(text, left)
  {
    if open.None? then pieces == [] && all == PackFragments(text, left, page, target, count)
    else open.value.page == page && all == pieces + Grow(text, open.value, left, target, count)
  }

  /** One turn of the packing loop. */
  method PackFragment(before: seq<Unit>, cur: Option<Unit>, left: seq<Span>, text: string, page: Option<int>,
                      target: nat,
                      count: string -> nat, ghost all: seq<Unit>) returns (pieces: seq<Unit>, open: Option<Unit>)
    requires left != [] && InText(text, left) && PackedSoFar(before, cur, left, text, page, target, count, all)
    ensures InText(text, left[1..]) && PackedSoFar(pieces, open, left[1..], text, page, target, count, all)
    ensures open.Some?
  {
    InTextRest(text, left);
    var w := left[0];
    var tokens := count(text[w.start..w.end]);
    pieces := before;
    if cur.None? {
      open := Some(Unit(w.start, w.end, page, tokens));
      assert pieces + all == all;
      return;
    }
    GrowStep(text, cur.value, left, target, count);
    if cur.value.tokens + tokens > target {
      pieces := pieces + [cur.value];
      open := Some(Unit(w.start, w.end, page, tokens));
    } else {
      open := Some(cur.value.(end := w.end, tokens := cur.value.tokens + tokens));
    }
  }

  method PackLoop(text: string, frags: seq<Span>, page: Option<int>, target: nat, count: string -> nat)
    returns (pieces: seq<Unit>)
    requires InText(text, frags)
    ensures pieces == PackFragments(text, frags, page, target, count)
  {
    ghost var all := PackFragments(text, frags, page, target, count);
    pieces := [];
    var open: Option<Unit> := None;
    var left := frags;
    while left != []
      invariant InText(text, left) && PackedSoFar(pieces, open, left, text, page, target, count, all)
      decreases |left|
    {
      pieces, open := PackFragment(pieces, open, left, text, page, target, count, all);
      left := left[1..];
    }
    if open.Some? {
      pieces := pieces + [open.value];
    }
  }

  method UnitsOfBody(b: Block, text: string, spans: seq<Span>, count: string -> nat) returns (own: seq<Unit>)
    requires Exact(text, b)
    requires forall i :: 0 <= i < |spans| ==>
             spans[i].start < spans[i].end <= |b.text| && !IsSpace(b.text[spans[i].start])
    ensures own == UnitsAt(b, spans, count)
  {
    own := [];
    for i := 0 to |spans|
      invariant own == UnitsAt(b, spans, count)[..i]
    {
      UnitAtStarts(b, text, spans[i], count);
      var start, end := b.start + spans[i].start, b.start + spans[i].end;
      own := own + [Unit(start, end, b.page, count(text[start..end]))];
    }
  }

  method FindUnits(blocks: seq<Block>, text: string, count: string -> nat) returns (units: seq<Unit>)
    requires AllExact(text, blocks)
    ensures units == RawUnits(blocks, count)
  {
    units := [];
    for k := 0 to |blocks|
      invariant units == RawUnits(blocks[..k], count)
    {
      assert blocks[..k + 1][..k] == blocks[..k];
      var b := blocks[k];
      if b.isHeading {
        units := units + [Unit(b.start, b.end, b.page, count(b.text))];
      } else {
        var sentences := SplitSentences(b.text);
        forall i | 0 <= i < |sentences|
          ensures sentences[i].start < sentences[i].end <= |b.text| && !IsSpace(b.text[sentences[i].start])
        {
          SentenceIs(b.text, i);
        }
        var own := UnitsOfBody(b, text, sentences, count);
        units := units + own;
      }
    }
    assert blocks[..|blocks|] == blocks;
  }

  method FitUnits(units: seq<Unit>, text: string, target: nat, count: string -> nat) returns (fitted: seq<Unit>)
    requires forall k :: 0 <= k < |units| ==> Start(text, units[k])
    ensures fitted == FitAll(units, text, target, count)
  {
    fitted := [];
    for k := 0 to |units|
      invariant fitted == FitAll(units[..k], text, target, count)
    {
      assert units[..k + 1][..k] == units[..k];
      if units[k].tokens > target {
        var pieces := SplitOversized(units[k], text, target, count);
        fitted := fitted + pieces;
      } else {
        fitted := fitted + [units[k]];
      }
    }
    assert units[..|units|] == units;
  }

  method MakeSectionUnits(blocks: seq<Block>, text: string, target: nat, count: string -> nat)
    returns (fitted: seq<Unit>)
    requires AllExact(text, blocks)
    ensures fitted == SectionUnits(blocks, text, target, count)
  {
    var units := FindUnits(blocks, text, count);
    forall k | 0 <= k < |units| ensures Start(text, units[k]) { RawUnitsStart(blocks, text, count, k); }
    fitted := FitUnits(units, text, target, count);
  }
}
