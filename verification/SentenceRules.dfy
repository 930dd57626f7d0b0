/** Where sentences end, said with positions of the text and nothing else. */
module SentenceRules {
  import opened Text
  import opened Sentences

  predicate AllDots(text: string, lo: nat, hi: nat)
    requires hi <= |text|
  {
    forall k :: lo <= k < hi ==> text[k] == '.'
  }

  /** The nearest word that ends at or before `pos`. */
  predicate WordBefore(text: string, lo: nat, hi: nat, pos: nat)
    requires pos <= |text|
  {
    && lo < hi <= pos && AllSpace(text, hi, pos)
    && (forall k :: lo <= k < hi ==> !IsSpace(text[k])) && (lo > 0 ==> IsSpace(text[lo - 1]))
  }

  /** `word` is what stands at `lo`, capitals aside. */
  predicate Reads(text: string, lo: nat, hi: nat, word: string)
    requires lo <= hi <= |text|
  {
    && |word| == hi - lo
    && forall k :: 0 <= k < |word| ==>
         word[k] == if IsUpper(text[lo + k]) then text[lo + k] - 'A' + 'a' else text[lo + k]
  }

  /** Between dots it is one of the abbreviations. */
  ghost predicate Abbreviates(text: string, lo: nat, hi: nat)
    requires lo <= hi <= |text|
  {
    exists a: nat, b: nat, word :: DottedCore(text, lo, hi, a, b) && word in ABBREVIATIONS && Reads(text, a, b, word)
  }

  predicate DottedCore(text: string, lo: nat, hi: nat, a: nat, b: nat)
    requires lo <= hi <= |text|
  {
    lo <= a <= b <= hi && AllDots(text, lo, a) && AllDots(text, b, hi)
  }

  ghost predicate AfterAbbreviation(text: string, pos: nat)
    requires pos <= |text|
  {
    exists lo: nat, hi: nat :: WordBefore(text, lo, hi, pos) && Abbreviates(text, lo, hi)
  }

  ghost predicate AfterInitial(text: string, pos: nat)
    requires pos <= |text|
  {
    exists lo: nat :: WordBefore(text, lo, lo + 1, pos) && IsUpper(text[lo])
  }

  predicate GoesOn(text: string, pos: nat, next: nat) {
    pos <= next < |text| && AllSpace(text, pos, next) && IsLower(text[next])
  }

  /** A whole run of terminal punctuation with whitespace after it, unless it follows an abbreviation, is the dot of
      a single initial, or the text goes on in lower case. */
  ghost predicate Ends(text: string, start: nat, end: nat) {
    && WholeRun(text, start, end) && end < |text| && IsSpace(text[end])
    && !AfterAbbreviation(text, start)
    && !(end == start + 1 && text[start] == '.' && AfterInitial(text, start))
    && !exists next: nat :: GoesOn(text, end, next)
  }

  // ---- the word before a place

  lemma {:induction false} WordStartIs(text: string, end: nat)
    requires end <= |text|
    ensures var s := WordStart(text, end);
            (forall k :: s <= k < end ==> !IsSpace(text[k])) && (s > 0 ==> IsSpace(text[s - 1]))
  {
    if end > 0 && !IsSpace(text[end - 1]) { WordStartIs(text, end - 1); }
  }

  lemma LastWordIs(text: string, pos: nat)
    requires pos <= |text|
    ensures var hi := TrimEnd(text, 0, pos); var lo := WordStart(text, hi);
            LastWord(text, pos) == text[lo..hi] && (hi > 0 ==> WordBefore(text, lo, hi, pos))
  {
    var hi := TrimEnd(text, 0, pos);
    WordStartIs(text, hi);
    if hi > 0 {
      assert !IsSpace(text[hi - 1]);
      assert WordStart(text, hi) == WordStart(text, hi - 1) < hi;
      assert AllSpace(text, hi, pos);
      assert WordBefore(text, WordStart(text, hi), hi, pos);
    }
  }

  lemma OneWordBefore(text: string, pos: nat, lo: nat, hi: nat)
    requires pos <= |text| && WordBefore(text, lo, hi, pos)
    ensures hi == TrimEnd(text, 0, pos) && lo == WordStart(text, hi)
  {
    assert !IsSpace(text[hi - 1]);
    assert TrimEnd(text, 0, pos) == hi;
    StartOfWord(text, lo, hi);
  }

  lemma {:induction false} StartOfWord(text: string, lo: nat, hi: nat)
    requires lo <= hi <= |text| && (lo > 0 ==> IsSpace(text[lo - 1]))
    requires forall k :: lo <= k < hi ==> !IsSpace(text[k])
    ensures WordStart(text, hi) == lo
  {
    if lo < hi { StartOfWord(text, lo, hi - 1); }
  }

  // ---- dots and capitals

  lemma {:induction false} StripDotsIs(s: string) returns (a: nat, b: nat)
    ensures a <= b <= |s| && StripDots(s) == s[a..b]
    ensures (forall k :: 0 <= k < a ==> s[k] == '.') && (forall k :: b <= k < |s| ==> s[k] == '.')
    ensures a < b ==> s[a] != '.' && s[b - 1] != '.'
    decreases |s|
  {
    if s == [] {
      a, b := 0, 0;
    } else if s[0] == '.' {
      var a', b' := StripDotsIs(s[1..]);
      a, b := a' + 1, b' + 1;
      assert s[1..][a'..b'] == s[a..b];
      forall k | 1 <= k < a || b <= k < |s| ensures s[k] == '.' { assert s[1..][k - 1] == s[k]; }
    } else if s[|s| - 1] == '.' {
      a, b := StripDotsIs(s[..|s| - 1]);
    } else {
      a, b := 0, |s|;
    }
  }

  lemma AbbreviationEnds(word: string)
    requires word in ABBREVIATIONS
    ensures word != [] && word[0] != '.' && word[|word| - 1] != '.'
  {
  }

  lemma CoreIsUnique(text: string, lo: nat, hi: nat, a: nat, b: nat, c: nat, d: nat)
    requires lo <= hi <= |text| && DottedCore(text, lo, hi, a, b) && DottedCore(text, lo, hi, c, d)
    requires a < b && text[a] != '.' && text[b - 1] != '.'
    requires c < d && text[c] != '.' && text[d - 1] != '.'
    ensures a == c && b == d
  {
  }

  lemma LoweredAt(text: string, lo: nat, hi: nat, k: nat)
    requires lo <= k < hi <= |text|
    ensures LowerAll(text[lo..hi])[k - lo] == if IsUpper(text[k]) then text[k] - 'A' + 'a' else text[k]
  {
  }

  lemma ReadsIsLowered(text: string, lo: nat, hi: nat, a: nat, b: nat, word: string)
    requires lo <= a <= b <= hi <= |text|
    ensures Reads(text, a, b, word) <==> LowerAll(text[lo..hi])[a - lo..b - lo] == word
  {
    var core := LowerAll(text[lo..hi])[a - lo..b - lo];
    forall k | 0 <= k < |core|
      ensures core[k] == if IsUpper(text[a + k]) then text[a + k] - 'A' + 'a' else text[a + k]
    {
      LoweredAt(text, lo, hi, a + k);
    }
    if Reads(text, a, b, word) {
      assert forall k :: 0 <= k < |word| ==> core[k] == word[k];
    }
  }

  lemma DotsOfLowered(text: string, lo: nat, hi: nat, k: nat)
    requires lo <= hi <= |text| && k < hi - lo
    ensures LowerAll(text[lo..hi])[k] == '.' <==> text[lo + k] == '.'
  {
  }

  lemma StrippedIsCore(text: string, lo: nat, hi: nat) returns (a: nat, b: nat)
    requires lo <= hi <= |text|
    ensures DottedCore(text, lo, hi, a, b) && (a < b ==> text[a] != '.' && text[b - 1] != '.')
    ensures StripDots(LowerAll(text[lo..hi])) == LowerAll(text[lo..hi])[a - lo..b - lo]
  {
    var low := LowerAll(text[lo..hi]);
    var a', b' := StripDotsIs(low);
    a, b := lo + a', lo + b';
    forall k | lo <= k < hi ensures low[k - lo] == '.' <==> text[k] == '.' { DotsOfLowered(text, lo, hi, k - lo); }
  }

  lemma AbbreviatesExactly(text: string, lo: nat, hi: nat)
    requires lo <= hi <= |text|
    ensures Abbreviates(text, lo, hi) <==> StripDots(LowerAll(text[lo..hi])) in ABBREVIATIONS
  {
    var a, b := StrippedIsCore(text, lo, hi);
    var core := StripDots(LowerAll(text[lo..hi]));
    ReadsIsLowered(text, lo, hi, a, b, core);
    if Abbreviates(text, lo, hi) {
      var c: nat, d: nat, word :| DottedCore(text, lo, hi, c, d) && word in ABBREVIATIONS && Reads(text, c, d, word);
      AbbreviationEnds(word);
      assert word[0] == (if IsUpper(text[c]) then text[c] - 'A' + 'a' else text[c]);
      CoreFound(text, lo, hi, a, b, c, d);
      ReadsIsLowered(text, lo, hi, a, b, word);
    }
  }

  /** The core between the dots, however it was found, if something stands there. */
  lemma CoreFound(text: string, lo: nat, hi: nat, a: nat, b: nat, c: nat, d: nat)
    requires lo <= hi <= |text| && DottedCore(text, lo, hi, a, b) && DottedCore(text, lo, hi, c, d)
    requires a < b ==> text[a] != '.' && text[b - 1] != '.'
    requires c < d && text[c] != '.' && text[d - 1] != '.'
    ensures a == c && b == d
  {
    if a < b { CoreIsUnique(text, lo, hi, a, b, c, d); }
  }

  // ---- the three exceptions

  lemma NoWordBefore(text: string, pos: nat)
    requires pos <= |text| && TrimEnd(text, 0, pos) == 0
    ensures LastWord(text, pos) == "" && forall lo: nat, hi: nat :: !WordBefore(text, lo, hi, pos)
  {
    forall lo: nat, hi: nat ensures !WordBefore(text, lo, hi, pos) {
      if WordBefore(text, lo, hi, pos) { OneWordBefore(text, pos, lo, hi); }
    }
  }

  lemma WordIsAbbreviation(text: string, pos: nat, lo: nat, hi: nat)
    requires pos <= |text| && WordBefore(text, lo, hi, pos)
    ensures Abbreviates(text, lo, hi) <==> AfterAbbreviation(text, pos)
  {
    OneWordBefore(text, pos, lo, hi);
    if a: nat, b: nat :| WordBefore(text, a, b, pos) && Abbreviates(text, a, b) { OneWordBefore(text, pos, a, b); }
  }

  predicate IsAbbreviation(word: string) {
    StripDots(LowerAll(word)) in ABBREVIATIONS
  }

  lemma WordTested(text: string, pos: nat, lo: nat, hi: nat)
    requires pos <= |text| && WordBefore(text, lo, hi, pos)
    ensures IsAbbreviation(text[lo..hi]) <==> AfterAbbreviation(text, pos)
  {
    AbbreviatesExactly(text, lo, hi);
    WordIsAbbreviation(text, pos, lo, hi);
  }

  lemma NothingAbbreviates(word: string)
    requires word == ""
    ensures !IsAbbreviation(word)
  {
    assert StripDots(LowerAll(word)) == "";
  }

  lemma AbbreviationExactly(text: string, pos: nat)
    requires pos <= |text|
    ensures IsAbbreviation(LastWord(text, pos)) <==> AfterAbbreviation(text, pos)
  {
    var hi := TrimEnd(text, 0, pos);
    if hi == 0 {
      NoWordBefore(text, pos);
      NothingAbbreviates(LastWord(text, pos));
    } else {
      LastWordIs(text, pos);
      WordTested(text, pos, WordStart(text, hi), hi);
    }
  }

  lemma WordIsInitial(text: string, pos: nat, lo: nat, hi: nat)
    requires pos <= |text| && WordBefore(text, lo, hi, pos)
    ensures hi == lo + 1 && IsUpper(text[lo]) <==> AfterInitial(text, pos)
  {
    OneWordBefore(text, pos, lo, hi);
    if a: nat :| WordBefore(text, a, a + 1, pos) && IsUpper(text[a]) { OneWordBefore(text, pos, a, a + 1); }
  }

  lemma InitialExactly(text: string, pos: nat)
    requires pos <= |text|
    ensures |LastWord(text, pos)| == 1 && IsUpper(LastWord(text, pos)[0]) <==> AfterInitial(text, pos)
  {
    var hi := TrimEnd(text, 0, pos);
    if hi == 0 {
      NoWordBefore(text, pos);
    } else {
      LastWordIs(text, pos);
      WordIsInitial(text, pos, WordStart(text, hi), hi);
    }
  }

  lemma GoesOnExactly(text: string, pos: nat)
    requires pos <= |text|
    ensures var next := SkipSpace(text, pos, |text|);
            next < |text| && IsLower(text[next]) <==> exists n: nat :: GoesOn(text, pos, n)
  {
    var next := SkipSpace(text, pos, |text|);
    if next < |text| && IsLower(text[next]) { assert GoesOn(text, pos, next); }
    if n: nat :| GoesOn(text, pos, n) {
      assert !IsSpace(text[n]);
      assert next == n;
    }
  }

  lemma RunIsDot(text: string, start: nat, end: nat)
    requires start < end <= |text|
    ensures text[start..end] == "." <==> end == start + 1 && text[start] == '.'
  {
    if end == start + 1 && text[start] == '.' { assert text[start..end] == [text[start]]; }
    if text[start..end] == "." { assert text[start..end][0] == '.'; }
  }

  lemma EndsExactly(text: string, start: nat, end: nat)
    ensures EndsSentence(text, start, end) <==> Ends(text, start, end)
  {
    if WholeRun(text, start, end) {
      AbbreviationExactly(text, start);
      InitialExactly(text, start);
      GoesOnExactly(text, end);
      RunIsDot(text, start, end);
    }
  }

  // ---- the spans

  ghost predicate SentenceEnd(text: string, end: nat) {
    exists start: nat :: Ends(text, start, end)
  }

  lemma BoundaryIsEnd(text: string, b: nat)
    ensures b in Boundaries(text, 0) <==> SentenceEnd(text, b)
  {
    BoundaryExactly(text, b);
    if s: nat :| EndsSentence(text, s, b) { EndsExactly(text, s, b); }
    if s: nat :| Ends(text, s, b) { EndsExactly(text, s, b); }
  }

  lemma TextBeforeEnd(text: string, b: nat)
    requires SentenceEnd(text, b)
    ensures 0 < b < |text| && !IsSpace(text[b - 1])
  {
  }

  /** A cut right after text is where the piece before it ends. */
  lemma PieceAtCut(text: string, start: nat, cut: nat)
    requires start < cut <= |text| && !IsSpace(text[cut - 1])
    ensures |Piece(text, start, cut)| == 1 && Piece(text, start, cut)[0].end == cut
  {
    var s := SkipSpace(text, start, cut);
    assert s <= cut - 1;
    assert TrimEnd(text, s, cut) == cut;
  }

  /** All cuts but the last come right after text, each past the one before. */
  predicate CutsAfterText(text: string, start: nat, cuts: seq<nat>) {
    && (forall k :: 0 <= k < |cuts| - 1 ==> start < cuts[k] <= |text| && !IsSpace(text[cuts[k] - 1]))
    && forall k, l :: 0 <= k < l < |cuts| - 1 ==> cuts[k] < cuts[l]
  }

  lemma OnePieceAtMost(text: string, start: nat, cuts: seq<nat>)
    requires start <= |text| && Increasing(cuts, start, |text|)
    ensures |cuts| <= 1 ==> |Pieces(text, start, cuts)| <= 1
  {
    if |cuts| == 1 { assert Pieces(text, cuts[0], cuts[1..]) == []; }
  }

  lemma FirstOfPieces(text: string, start: nat, cuts: seq<nat>)
    requires start <= |text| && Increasing(cuts, start, |text|) && CutsAfterText(text, start, cuts) && |cuts| > 1
    ensures Increasing(cuts[1..], cuts[0], |text|) && CutsAfterText(text, cuts[0], cuts[1..])
    ensures Pieces(text, start, cuts) == Piece(text, start, cuts[0]) + Pieces(text, cuts[0], cuts[1..])
    ensures |Piece(text, start, cuts[0])| == 1 && Piece(text, start, cuts[0])[0].end == cuts[0]
  {
    PieceAtCut(text, start, cuts[0]);
  }

  predicate CutBeforeLast(cuts: seq<nat>, pos: nat) {
    exists k :: 0 <= k < |cuts| - 1 && cuts[k] == pos
  }

  lemma {:induction false} PiecesEndAtCuts(text: string, start: nat, cuts: seq<nat>, i: nat)
    requires start <= |text| && Increasing(cuts, start, |text|) && CutsAfterText(text, start, cuts)
    requires i + 1 < |Pieces(text, start, cuts)|
    ensures CutBeforeLast(cuts, Pieces(text, start, cuts)[i].end)
    decreases |cuts|
  {
    OnePieceAtMost(text, start, cuts);
    FirstOfPieces(text, start, cuts);
    if i > 0 {
      var rest := cuts[1..];
      PiecesEndAtCuts(text, cuts[0], rest, i - 1);
      var k :| 0 <= k < |rest| - 1 && rest[k] == Pieces(text, cuts[0], rest)[i - 1].end;
      assert cuts[k + 1] == rest[k];
    }
  }

  lemma CutsFollowText(text: string)
    ensures CutsAfterText(text, 0, Cuts(text))
  {
    var bs := Boundaries(text, 0);
    forall k | 0 <= k < |bs| ensures !IsSpace(text[bs[k] - 1]) {
      assert bs[k] in bs;
      BoundaryIsEnd(text, bs[k]);
      TextBeforeEnd(text, bs[k]);
    }
  }

  lemma CutIsEnd(text: string, b: nat)
    requires CutBeforeLast(Cuts(text), b)
    ensures SentenceEnd(text, b)
  {
    var bs := Boundaries(text, 0);
    var k :| 0 <= k < |bs| && Cuts(text)[k] == b;
    assert bs[k] in bs;
    BoundaryIsEnd(text, b);
  }

  lemma NoEndInside(text: string, b: nat, i: nat)
    requires i < |SentenceSpans(text)| && SentenceEnd(text, b)
    ensures b <= SentenceSpans(text)[i].start || SentenceSpans(text)[i].end <= b
  {
    BoundaryIsEnd(text, b);
    SentencesLoseNothing(text);
    assert b in Cuts(text) && IsSentence(text, Cuts(text), SentenceSpans(text)[i]);
  }

  predicate Trimmed(text: string, s: Span) {
    s.start < s.end <= |text| && !IsSpace(text[s.start]) && !IsSpace(text[s.end - 1])
  }

  /** The sentences of a text: trimmed, in order and without loss; each but the last ends where the rules say a
      sentence ends; and none runs across such a place. */
  lemma SentencesExactly(text: string)
    ensures var spans := SentenceSpans(text);
            && Tiles(text, spans, 0, |text|)
            && (forall i :: 0 <= i < |spans| ==> Trimmed(text, spans[i]))
            && (forall i :: 0 <= i < |spans| - 1 ==> SentenceEnd(text, spans[i].end))
            && forall i, b: nat :: 0 <= i < |spans| && SentenceEnd(text, b) ==>
                 b <= spans[i].start || spans[i].end <= b
  {
    var spans, cuts := SentenceSpans(text), Cuts(text);
    SentencesLoseNothing(text);
    CutsFollowText(text);
    forall i | 0 <= i < |spans| - 1 ensures SentenceEnd(text, spans[i].end) {
      PiecesEndAtCuts(text, 0, cuts, i);
      CutIsEnd(text, spans[i].end);
    }
    forall i, b: nat | 0 <= i < |spans| && SentenceEnd(text, b) ensures b <= spans[i].start || spans[i].end <= b {
      NoEndInside(text, b, i);
    }
  }
}
