/** What every extractor builds: a text, blocks with exact offsets into it, and section paths. */
module Extract {
  import opened Values
  import opened Text

  datatype Block = Block(text: string, start: nat, end: nat, page: Option<int>, section: Option<string>,
                         isHeading: bool, headingLevel: Option<nat>)

  datatype Doc = Doc(fullText: string, blocks: seq<Block>, pageCount: Option<int>, title: Option<string>)

  function BlockSpans(blocks: seq<Block>): seq<Span> {
    seq(|blocks|, i requires 0 <= i < |blocks| => Span(blocks[i].start, blocks[i].end))
  }

  /** A block is exactly its slice of the text, with no whitespace at either end. */
  predicate Exact(full: string, b: Block) {
    && b.start < b.end <= |full| && full[b.start..b.end] == b.text
    && !IsSpace(b.text[0]) && !IsSpace(b.text[|b.text| - 1])
  }

  /** The load-bearing invariant of extraction: exact blocks, in order, and only whitespace between. */
  ghost predicate ValidDoc(full: string, blocks: seq<Block>) {
    Tiles(full, BlockSpans(blocks), 0, |full|) && AllExact(full, blocks)
  }

  predicate AllExact(full: string, blocks: seq<Block>) {
    forall i :: 0 <= i < |blocks| ==> Exact(full, blocks[i])
  }

  function Join(parts: seq<string>): string {
    if parts == [] then "" else Join(parts[..|parts| - 1]) + parts[|parts| - 1]
  }

  lemma JoinOne(parts: seq<string>, s: string)
    ensures Join(parts + [s]) == Join(parts) + s
  {
    assert (parts + [s])[..|parts|] == parts;
  }

  lemma {:induction false} TilesLonger(text: string, tail: string, spans: seq<Span>, lo: nat, hi: nat)
    requires lo <= hi <= |text| && Tiles(text, spans, lo, hi)
    ensures Tiles(text + tail, spans, lo, hi)
  {
    if spans == [] {
    } else {
      TilesLonger(text, tail, spans[1..], spans[0].end, hi);
    }
  }

  lemma AppendSpan(full: string, spans: seq<Span>, sep: string, text: string)
    requires Tiles(full, spans, 0, |full|) && AllSpace(sep, 0, |sep|) && text != []
    ensures var longer := full + sep + text;
            Tiles(longer, spans + [Span(|full| + |sep|, |longer|)], 0, |longer|)
  {
    var longer, at := full + sep + text, |full| + |sep|;
    assert longer == full + (sep + text);
    TilesLonger(full, sep + text, spans, 0, |full|);
    forall p | |full| <= p < at ensures IsSpace(longer[p]) { assert longer[p] == sep[p - |full|]; }
    var one := [Span(at, |longer|)];
    assert one[1..] == [];
    TilesConcat(longer, spans, one, 0, |full|, |longer|);
  }

  lemma StaysExact(full: string, tail: string, b: Block)
    requires Exact(full, b)
    ensures Exact(full + tail, b)
  {
    assert (full + tail)[b.start..b.end] == full[b.start..b.end];
  }

  lemma AppendExact(full: string, blocks: seq<Block>, sep: string, b: Block)
    requires AllExact(full, blocks)
    requires b.text != [] && !IsSpace(b.text[0]) && !IsSpace(b.text[|b.text| - 1])
    requires b.start == |full| + |sep| && b.end == b.start + |b.text|
    ensures AllExact(full + sep + b.text, blocks + [b])
  {
    var longer := full + sep + b.text;
    assert longer == full + (sep + b.text);
    forall i | 0 <= i < |blocks| ensures Exact(longer, blocks[i]) {
      StaysExact(full, sep + b.text, blocks[i]);
    }
    assert longer[b.start..b.end] == b.text;
  }

  lemma AppendBlock(full: string, blocks: seq<Block>, sep: string, b: Block)
    requires ValidDoc(full, blocks) && AllSpace(sep, 0, |sep|)
    requires b.text != [] && !IsSpace(b.text[0]) && !IsSpace(b.text[|b.text| - 1])
    requires b.start == |full| + |sep| && b.end == b.start + |b.text|
    ensures ValidDoc(full + sep + b.text, blocks + [b])
  {
    AppendSpan(full, BlockSpans(blocks), sep, b.text);
    AppendExact(full, blocks, sep, b);
    assert BlockSpans(blocks + [b]) == BlockSpans(blocks) + [Span(b.start, b.end)];
  }

  /** Separators live between blocks and belong to none. */
  function Separator(blocks: seq<Block>): string {
    if blocks == [] then "" else "\n\n"
  }

  /** The parts after one more block. */
  function Extended(parts: seq<string>, s: string): seq<string> {
    (if parts == [] then parts else parts + ["\n\n"]) + [s]
  }

  lemma ExtendedText(parts: seq<string>, blocks: seq<Block>, s: string)
    requires parts == [] <==> blocks == []
    ensures Join(Extended(parts, s)) == Join(parts) + Separator(blocks) + s
  {
    if parts == [] {
      JoinOne(parts, s);
    } else {
      JoinOne(parts, "\n\n");
      JoinOne(parts + ["\n\n"], s);
    }
  }

  /** Texts with a blank line between any two. */
  function Spaced(texts: seq<string>): string {
    if texts == [] then "" else if |texts| == 1 then texts[0] else texts[0] + "\n\n" + Spaced(texts[1..])
  }

  function TextsOf(blocks: seq<Block>): seq<string> {
    seq(|blocks|, i requires 0 <= i < |blocks| => blocks[i].text)
  }

  lemma {:induction false} SpacedOneMore(texts: seq<string>, s: string)
    ensures Spaced(texts + [s]) == Spaced(texts) + (if texts == [] then "" else "\n\n") + s
  {
    if |texts| > 0 {
      assert (texts + [s])[1..] == texts[1..] + [s];
      SpacedOneMore(texts[1..], s);
      if |texts| == 1 { assert texts[1..] == []; }
    }
  }

  lemma TextsOneMore(blocks: seq<Block>, b: Block)
    ensures TextsOf(blocks + [b]) == TextsOf(blocks) + [b.text]
  {
  }

  ghost predicate Built(parts: seq<string>, blocks: seq<Block>, pos: nat) {
    pos == |Join(parts)| && ValidDoc(Join(parts), blocks) && (parts == [] <==> blocks == [])
  }

  predicate SpacedOut(parts: seq<string>, blocks: seq<Block>) {
    Join(parts) == Spaced(TextsOf(blocks))
  }

  lemma OneMoreSpaced(parts: seq<string>, blocks: seq<Block>, b: Block)
    requires SpacedOut(parts, blocks) && (parts == [] <==> blocks == [])
    ensures SpacedOut(Extended(parts, b.text), blocks + [b])
  {
    ExtendedText(parts, blocks, b.text);
    TextsOneMore(blocks, b);
    SpacedOneMore(TextsOf(blocks), b.text);
  }

  lemma OneMoreBuilt(parts: seq<string>, blocks: seq<Block>, pos: nat, b: Block)
    requires Built(parts, blocks, pos)
    requires b.text != [] && !IsSpace(b.text[0]) && !IsSpace(b.text[|b.text| - 1])
    requires b.start == pos + |Separator(blocks)| && b.end == b.start + |b.text|
    ensures Built(Extended(parts, b.text), blocks + [b], b.end)
    ensures Join(Extended(parts, b.text)) == Join(parts) + Separator(blocks) + b.text
  {
    ExtendedText(parts, blocks, b.text);
    AppendBlock(Join(parts), blocks, Separator(blocks), b);
  }

  class DocBuilder {
    var parts: seq<string>
    var blocks: seq<Block>
    var pos: nat

    ghost predicate Valid()
      reads this
    {
      Built(parts, blocks, pos) && SpacedOut(parts, blocks)
    }

    constructor ()
      ensures Valid() && parts == [] && blocks == []
    {
      parts, blocks, pos := [], [], 0;
    }

    /** The only normalization is one strip, done before any offset is taken. */
    method Add(text: string, page: Option<int>, section: Option<string>, isHeading: bool, level: Option<nat>)
      requires Valid()
      modifies this
      ensures Valid()
      ensures Strip(text) == [] ==> parts == old(parts) && blocks == old(blocks)
      ensures Strip(text) != [] ==>
                var sep := Separator(old(blocks));
                var at := |Join(old(parts))| + |sep|;
                && Join(parts) == Join(old(parts)) + sep + Strip(text)
                && blocks == old(blocks) + [Block(Strip(text), at, at + |Strip(text)|, page, section, isHeading, level)]
    {
      var stripped := Strip(text);
      if stripped == [] { return; }
      ghost var was, had, end := parts, blocks, pos;
      var block := Push(stripped, page, section, isHeading, level);
      OneMoreBuilt(was, had, end, block);
      OneMoreSpaced(was, had, block);
    }

    /** The assignments of `add`, once the text is known not to be empty. */
    method Push(s: string, page: Option<int>, section: Option<string>, isHeading: bool, level: Option<nat>)
      returns (block: Block)
      modifies this
      ensures parts == Extended(old(parts), s) && blocks == old(blocks) + [block] && pos == block.end
      ensures var at := old(pos) + if old(parts) == [] then 0 else 2;
              block == Block(s, at, at + |s|, page, section, isHeading, level)
    {
      if parts != [] {
        parts := parts + ["\n\n"];
        pos := pos + 2;
      }
      block := Block(s, pos, pos + |s|, page, section, isHeading, level);
      parts := parts + [s];
      pos := pos + |s|;
      blocks := blocks + [block];
    }

    method Build(pageCount: Option<int>, title: Option<string>) returns (doc: Doc)
      requires Valid()
      ensures doc == Doc(Join(parts), blocks, pageCount, title) && ValidDoc(doc.fullText, doc.blocks)
      ensures doc.fullText == Spaced(TextsOf(doc.blocks))
    {
      var text := "";
      for i := 0 to |parts|
        invariant text == Join(parts[..i])
      {
        assert parts[..i + 1][..i] == parts[..i];
        text := text + parts[i];
      }
      assert parts[..|parts|] == parts;
      doc := Doc(text, blocks, pageCount, title);
    }
  }

  // ---- section paths

  datatype Heading = Heading(level: nat, text: string)

  predicate IncreasingLevels(stack: seq<Heading>) {
    forall i, j :: 0 <= i < j < |stack| ==> stack[i].level < stack[j].level
  }

  /** The loop: drop from the top while the level is not smaller. */
  function PopTo(stack: seq<Heading>, level: nat): seq<Heading> {
    if stack != [] && stack[|stack| - 1].level >= level then PopTo(stack[..|stack| - 1], level) else stack
  }

  function StackAfter(headings: seq<Heading>): seq<Heading> {
    if headings == [] then []
    else
      var h := headings[|headings| - 1];
      PopTo(StackAfter(headings[..|headings| - 1]), h.level) + [h]
  }

  /** The headings still open: those no later heading of the same or a smaller level closes. */
  function Open(headings: seq<Heading>): seq<Heading> {
    if headings == [] then []
    else
      IfOpen(headings) + Open(headings[1..])
  }

  predicate StaysOpen(headings: seq<Heading>)
    requires headings != []
  {
    forall j :: 0 < j < |headings| ==> headings[j].level > headings[0].level
  }

  lemma StaysOpenOneMore(headings: seq<Heading>, h: Heading)
    requires headings != []
    ensures StaysOpen(headings + [h]) <==> StaysOpen(headings) && h.level > headings[0].level
  {
    var all := headings + [h];
    assert all[|headings|] == h;
    assert forall j :: 0 < j < |headings| ==> all[j] == headings[j];
  }

  function Below(stack: seq<Heading>, level: nat): seq<Heading> {
    if stack == [] then [] else (if stack[0].level < level then [stack[0]] else []) + Below(stack[1..], level)
  }

  lemma {:induction false} BelowConcat(a: seq<Heading>, b: seq<Heading>, level: nat)
    ensures Below(a + b, level) == Below(a, level) + Below(b, level)
  {
    if a == [] {
      assert a + b == b;
    } else {
      assert (a + b)[1..] == a[1..] + b;
      BelowConcat(a[1..], b, level);
    }
  }

  lemma BelowOne(h: Heading, level: nat)
    ensures Below([h], level) == if h.level < level then [h] else []
  {
    assert [h][1..] == [];
  }

  function IfOpen(headings: seq<Heading>): seq<Heading>
    requires headings != []
  {
    if StaysOpen(headings) then [headings[0]] else []
  }

  lemma FirstOneMore(headings: seq<Heading>, h: Heading)
    requires headings != []
    ensures IfOpen(headings + [h]) == Below(IfOpen(headings), h.level)
  {
    StaysOpenOneMore(headings, h);
    BelowOne(headings[0], h.level);
  }

  lemma {:induction false} OpenOneMore(headings: seq<Heading>, h: Heading)
    ensures Open(headings + [h]) == Below(Open(headings), h.level) + [h]
  {
    if headings == [] {
      assert ([] + [h])[1..] == [];
    } else {
      assert (headings + [h])[1..] == headings[1..] + [h];
      OpenOneMore(headings[1..], h);
      FirstOneMore(headings, h);
      BelowConcat(IfOpen(headings), Open(headings[1..]), h.level);
    }
  }

  lemma {:induction false} PopIsBelow(stack: seq<Heading>, level: nat)
    requires IncreasingLevels(stack)
    ensures PopTo(stack, level) == Below(stack, level)
    ensures PopTo(stack, level) <= stack
    ensures forall i :: 0 <= i < |PopTo(stack, level)| ==> PopTo(stack, level)[i].level < level
  {
    if stack == [] {
    } else {
      var init, last := stack[..|stack| - 1], stack[|stack| - 1];
      PopIsBelow(init, level);
      BelowConcat(init, [last], level);
      assert stack == init + [last];
      assert [last][1..] == [];
      if last.level < level {
        AllBelow(stack, level);
      }
    }
  }

  lemma {:induction false} AllBelow(stack: seq<Heading>, level: nat)
    requires forall i :: 0 <= i < |stack| ==> stack[i].level < level
    ensures Below(stack, level) == stack
  {
    if stack == [] {
    } else {
      AllBelow(stack[1..], level);
    }
  }

  lemma PushedIsOpen(headings: seq<Heading>, h: Heading)
    requires StackAfter(headings) == Open(headings) && IncreasingLevels(StackAfter(headings))
    ensures var stack := PopTo(StackAfter(headings), h.level) + [h];
            stack == Open(headings + [h]) && IncreasingLevels(stack)
  {
    PopIsBelow(StackAfter(headings), h.level);
    OpenOneMore(headings, h);
  }

  lemma WithoutLast(headings: seq<Heading>)
    requires headings != []
    ensures headings == headings[..|headings| - 1] + [headings[|headings| - 1]]
  {
  }

  /** After any headings the stack is exactly the open ones, in order, with strictly increasing levels. */
  lemma {:induction false} StackIsOpenPath(headings: seq<Heading>)
    ensures StackAfter(headings) == Open(headings) && IncreasingLevels(StackAfter(headings))
  {
    if headings == [] {
    } else {
      WithoutLast(headings);
      StackIsOpenPath(headings[..|headings| - 1]);
      PushedIsOpen(headings[..|headings| - 1], headings[|headings| - 1]);
    }
  }

  function JoinPath(texts: seq<string>): string {
    if texts == [] then "" else if |texts| == 1 then texts[0]
    else JoinPath(texts[..|texts| - 1]) + " > " + texts[|texts| - 1]
  }

  /** Outermost first, with " > " between. */
  lemma {:induction false} PathFromOutside(first: string, rest: seq<string>)
    ensures JoinPath([first]) == first
    ensures rest != [] ==> JoinPath([first] + rest) == first + " > " + JoinPath(rest)
  {
    if rest != [] {
      var n := |rest| - 1;
      assert ([first] + rest)[..n + 1] == [first] + rest[..n];
      PathFromOutside(first, rest[..n]);
      if n == 0 { assert [first] + rest[..0] == [first]; }
    }
  }

  class SectionTracker {
    var stack: seq<Heading>
    ghost var seen: seq<Heading>

    ghost predicate Valid()
      reads this
    {
      stack == StackAfter(seen)
    }

    constructor ()
      ensures Valid() && seen == []
    {
      stack, seen := [], [];
    }

    method OnHeading(level: nat, text: string)
      requires Valid()
      modifies this
      ensures Valid() && seen == old(seen) + [Heading(level, text)]
      ensures stack == Open(seen) && IncreasingLevels(stack)
    {
      while stack != [] && stack[|stack| - 1].level >= level
        invariant PopTo(stack, level) == PopTo(old(stack), level)
        invariant seen == old(seen)
        decreases |stack|
      {
        stack := stack[..|stack| - 1];
      }
      stack := stack + [Heading(level, text)];
      seen := seen + [Heading(level, text)];
      assert seen[..|seen| - 1] == old(seen);
      StackIsOpenPath(seen);
    }

    method Path() returns (path: Option<string>)
      requires Valid()
      ensures var joined := JoinPath(seq(|stack|, i requires 0 <= i < |stack| reads this => stack[i].text));
              path == if joined == "" then None else Some(joined)
    {
      ghost var texts := seq(|stack|, i requires 0 <= i < |stack| reads this => stack[i].text);
      var joined := "";
      for i := 0 to |stack|
        invariant joined == JoinPath(texts[..i])
      {
        assert texts[..i + 1][..i] == texts[..i];
        joined := if i == 0 then stack[i].text else joined + " > " + stack[i].text;
      }
      assert texts[..|stack|] == texts;
      path := if joined == "" then None else Some(joined);
    }
  }
}
