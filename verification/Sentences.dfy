/** Sentence splitting: where the boundaries are, and the trimmed spans between them. */
module Sentences {
  import opened Text

  const ABBREVIATIONS: set<string> :=
    {"e.g", "i.e", "etc", "vs", "cf", "fig", "eq", "al", "dr", "mr", "mrs", "ms", "prof", "no"}

  predicate IsTerminal(c: char) {
    c == '.' || c == '!' || c == '?'
  }

  /** The end of the run of terminal punctuation that `i` is in. */
  function RunEnd(text: string, i: nat): (e: nat)
    requires i <= |text|
    ensures i <= e <= |text|
    ensures i < |text| && IsTerminal(text[i]) ==> i < e
    decreases |text| - i
  {
    if i < |text| && IsTerminal(text[i]) then RunEnd(text, i + 1) else i
  }

  function WordStart(text: string, end: nat): (s: nat)
    requires end <= |text|
    ensures s <= end
  {
    if end > 0 && !IsSpace(text[end - 1]) then WordStart(text, end - 1) else end
  }

  /** The last whitespace-separated word of `text[..end]`, empty if there is none. */
  function LastWord(text: string, end: nat): string
    requires end <= |text|
  {
    var e := TrimEnd(text, 0, end);
    text[WordStart(text, e)..e]
  }

  function LowerAll(s: string): string {
    seq(|s|, i requires 0 <= i < |s| => if IsUpper(s[i]) then s[i] - 'A' + 'a' else s[i])
  }

  function StripDots(s: string): string {
    if s == [] then s
    else if s[0] == '.' then StripDots(s[1..])
    else if s[|s| - 1] == '.' then StripDots(s[..|s| - 1])
    else s
  }

  /** A run that is punctuation inside a sentence: after an abbreviation, after a single initial, or
      before a lower-case letter. */
  predicate Suppressed(text: string, start: nat, end: nat)
    requires start <= end <= |text|
  {
    var prev := LastWord(text, start);
    var next := SkipSpace(text, end, |text|);
    || StripDots(LowerAll(prev)) in ABBREVIATIONS
    || (text[start..end] == "." && |prev| == 1 && IsUpper(prev[0]))
    || (next < |text| && IsLower(text[next]))
  }

  predicate IsBoundary(text: string, start: nat, end: nat)
    requires start <= end <= |text|
  {
    end < |text| && IsSpace(text[end]) && !Suppressed(text, start, end)
  }

  /** Ends of the runs that are boundaries, from position `i` on. */
  function Boundaries(text: string, i: nat): (bs: seq<nat>)
    requires i <= |text|
    ensures forall k :: 0 <= k < |bs| ==> i < bs[k] < |text|
    ensures forall k, l :: 0 <= k < l < |bs| ==> bs[k] < bs[l]
    decreases |text| - i
  {
    if i == |text| then []
    else if IsTerminal(text[i]) then
      var e := RunEnd(text, i);
      (if IsBoundary(text, i, e) then [e] else []) + Boundaries(text, e)
    else Boundaries(text, i + 1)
  }

  // ---- which positions those are

  /** All the terminal punctuation there is at one place. */
  predicate WholeRun(text: string, start: nat, end: nat) {
    && start < end <= |text| && (forall k :: start <= k < end ==> IsTerminal(text[k]))
    && (start > 0 ==> !IsTerminal(text[start - 1])) && (end < |text| ==> !IsTerminal(text[end]))
  }

  /** A whole run of terminal punctuation, whitespace after it, and no reason to read on. */
  predicate EndsSentence(text: string, start: nat, end: nat) {
    WholeRun(text, start, end) && end < |text| && IsSpace(text[end]) && !Suppressed(text, start, end)
  }

  lemma {:induction false} RunEndIsWhole(text: string, i: nat)
    requires i < |text| && IsTerminal(text[i])
    ensures var e := RunEnd(text, i);
            (forall k :: i <= k < e ==> IsTerminal(text[k])) && (e < |text| ==> !IsTerminal(text[e]))
    decreases |text| - i
  {
    if i + 1 < |text| && IsTerminal(text[i + 1]) {
      RunEndIsWhole(text, i + 1);
    } else {
      assert RunEnd(text, i) == RunEnd(text, i + 1) == i + 1;
    }
  }

  predicate BetweenRuns(text: string, i: nat) {
    0 < i < |text| ==> !(IsTerminal(text[i - 1]) && IsTerminal(text[i]))
  }

  /** From a run on, the next run is that one or begins past its end. */
  lemma RunOrLater(text: string, i: nat, s: nat, b: nat)
    requires i < |text| && IsTerminal(text[i]) && i <= s && WholeRun(text, s, b)
    ensures (s == i && b == RunEnd(text, i)) || RunEnd(text, i) <= s
  {
    RunEndIsWhole(text, i);
  }

  lemma {:induction false} BoundariesFrom(text: string, i: nat, b: nat)
    requires i <= |text| && BetweenRuns(text, i)
    ensures b in Boundaries(text, i) <==> exists s: nat :: i <= s && EndsSentence(text, s, b)
    decreases |text| - i
  {
    if i == |text| {
    } else if IsTerminal(text[i]) {
      var e := RunEnd(text, i);
      RunEndIsWhole(text, i);
      BoundariesFrom(text, e, b);
      forall s: nat | i <= s && EndsSentence(text, s, b)
        ensures (s == i && b == e) || e <= s
      {
        RunOrLater(text, i, s, b);
      }
      if b == e && IsBoundary(text, i, e) { assert EndsSentence(text, i, e); }
    } else {
      BoundariesFrom(text, i + 1, b);
    }
  }

  /** A position is a boundary exactly when a whole run of terminal punctuation ends there, whitespace follows,
      and none of the three exceptions applies. */
  lemma BoundaryExactly(text: string, b: nat)
    ensures b in Boundaries(text, 0) <==> exists s: nat :: EndsSentence(text, s, b)
  {
    BoundariesFrom(text, 0, b);
  }

  predicate Increasing(cuts: seq<nat>, lo: nat, hi: nat) {
    && (forall k :: 0 <= k < |cuts| ==> lo <= cuts[k] <= hi)
    && forall k, l :: 0 <= k < l < |cuts| ==> cuts[k] <= cuts[l]
  }

  /** The text between two cuts, without its outer whitespace; nothing if it is all whitespace. */
  function Piece(text: string, start: nat, end: nat): (r: seq<Span>)
    requires start <= end <= |text|
    ensures Tiles(text, r, start, end)
  {
    var s := SkipSpace(text, start, end);
    var e := TrimEnd(text, s, end);
    if s < e then [Span(s, e)] else []
  }

  function Pieces(text: string, start: nat, cuts: seq<nat>): seq<Span>
    requires start <= |text| && Increasing(cuts, start, |text|)
    decreases |cuts|
  {
    if cuts == [] then [] else Piece(text, start, cuts[0]) + Pieces(text, cuts[0], cuts[1..])
  }

  lemma {:induction false} PiecesTile(text: string, start: nat, cuts: seq<nat>)
    requires start <= |text| && cuts != [] && Increasing(cuts, start, |text|) && cuts[|cuts| - 1] == |text|
    ensures Tiles(text, Pieces(text, start, cuts), start, |text|)
    decreases |cuts|
  {
    if |cuts| == 1 {
      assert Pieces(text, cuts[0], cuts[1..]) == [];
      assert Pieces(text, start, cuts) == Piece(text, start, cuts[0]);
    } else {
      PiecesTile(text, cuts[0], cuts[1..]);
      TilesConcat(text, Piece(text, start, cuts[0]), Pieces(text, cuts[0], cuts[1..]), start, cuts[0], |text|);
    }
  }

  /** A sentence starts and ends with text and no boundary lies inside it. */
  ghost predicate IsSentence(text: string, cuts: seq<nat>, s: Span) {
    && s.start < s.end <= |text| && !IsSpace(text[s.start]) && !IsSpace(text[s.end - 1])
    && forall k :: 0 <= k < |cuts| ==> cuts[k] <= s.start || s.end <= cuts[k]
  }

  lemma LaterSentence(text: string, cuts: seq<nat>, s: Span)
    requires cuts != [] && IsSentence(text, cuts[1..], s) && cuts[0] <= s.start
    ensures IsSentence(text, cuts, s)
  {
    forall k | 0 <= k < |cuts| ensures cuts[k] <= s.start || s.end <= cuts[k] {
      if k > 0 { assert cuts[1..][k - 1] == cuts[k]; }
    }
  }

  lemma FirstSentence(text: string, start: nat, cuts: seq<nat>)
    requires start <= |text| && cuts != [] && Increasing(cuts, start, |text|) && Piece(text, start, cuts[0]) != []
    ensures IsSentence(text, cuts, Piece(text, start, cuts[0])[0]) && start <= Piece(text, start, cuts[0])[0].start
  {
  }

  lemma {:induction false} PiecesAreSentences(text: string, start: nat, cuts: seq<nat>, i: nat)
    requires start <= |text| && Increasing(cuts, start, |text|) && i < |Pieces(text, start, cuts)|
    ensures IsSentence(text, cuts, Pieces(text, start, cuts)[i]) && start <= Pieces(text, start, cuts)[i].start
    decreases |cuts|
  {
    var first := Piece(text, start, cuts[0]);
    if i < |first| {
      FirstSentence(text, start, cuts);
    } else {
      PiecesAreSentences(text, cuts[0], cuts[1..], i - |first|);
      LaterSentence(text, cuts, Pieces(text, cuts[0], cuts[1..])[i - |first|]);
    }
  }

  function Cuts(text: string): (cuts: seq<nat>)
    ensures cuts != [] && Increasing(cuts, 0, |text|) && cuts[|cuts| - 1] == |text|
  {
    Boundaries(text, 0) + [|text|]
  }

  function SentenceSpans(text: string): seq<Span> {
    Pieces(text, 0, Cuts(text))
  }

  /** Sentences are in order, disjoint, trimmed, free of inner boundaries, and lose only whitespace. */
  lemma SentencesLoseNothing(text: string)
    ensures Tiles(text, SentenceSpans(text), 0, |text|)
    ensures forall i :: 0 <= i < |SentenceSpans(text)| ==> IsSentence(text, Cuts(text), SentenceSpans(text)[i])
  {
    PiecesTile(text, 0, Cuts(text));
    forall i | 0 <= i < |SentenceSpans(text)| ensures IsSentence(text, Cuts(text), SentenceSpans(text)[i]) {
      PiecesAreSentences(text, 0, Cuts(text), i);
    }
  }

  method FindBoundaries(text: string) returns (bs: seq<nat>)
    ensures bs == Boundaries(text, 0)
  {
    bs := [];
    var i := 0;
    while i < |text|
      invariant i <= |text|
      invariant bs + Boundaries(text, i) == Boundaries(text, 0)
    {
      if IsTerminal(text[i]) {
        var e := RunEnd(text, i);
        if IsBoundary(text, i, e) {
          assert bs + ([e] + Boundaries(text, e)) == bs + [e] + Boundaries(text, e);
          bs := bs + [e];
        }
        i := e;
      } else {
        i := i + 1;
      }
    }
  }

  /** Trim the text between two cuts to its non-space extent; nothing if there is none. */
  method TrimPiece(text: string, from: nat, end: nat) returns (piece: seq<Span>)
    requires from <= end <= |text|
    ensures piece == Piece(text, from, end)
  {
    var start := from;
    while start < end && IsSpace(text[start])
      invariant from <= start <= end && SkipSpace(text, from, end) == SkipSpace(text, start, end)
    {
      start := start + 1;
    }
    var trimmed := end;
    while trimmed > start && IsSpace(text[trimmed - 1])
      invariant start <= trimmed <= end && TrimEnd(text, start, end) == TrimEnd(text, start, trimmed)
    {
      trimmed := trimmed - 1;
    }
    piece := if trimmed > start then [Span(start, trimmed)] else [];
  }

  method SplitSentences(text: string) returns (spans: seq<Span>)
    ensures spans == SentenceSpans(text)
  {
    var bs := FindBoundaries(text);
    spans := PiecesBetween(text, bs + [|text|]);
  }

  lemma PiecesStep(text: string, spans: seq<Span>, start: nat, cuts: seq<nat>)
    requires start <= |text| && cuts != [] && Increasing(cuts, start, |text|)
    ensures Increasing(cuts[1..], cuts[0], |text|)
    ensures spans + Pieces(text, start, cuts) == spans + Piece(text, start, cuts[0]) + Pieces(text, cuts[0], cuts[1..])
  {
  }

  method PiecesBetween(text: string, cuts: seq<nat>) returns (spans: seq<Span>)
    requires Increasing(cuts, 0, |text|)
    ensures spans == Pieces(text, 0, cuts)
  {
    spans := [];
    var start: nat := 0;
    var left := cuts;
    while left != []
      invariant start <= |text| && Increasing(left, start, |text|)
      invariant spans + Pieces(text, start, left) == Pieces(text, 0, cuts)
      decreases |left|
    {
      PiecesStep(text, spans, start, left);
      var piece := TrimPiece(text, start, left[0]);
      spans := spans + piece;
      start, left := left[0], left[1..];
    }
  }
}
