/** A verified answer verified again, and the inputs that slip through. */
module CitationRerun {
  import opened Values
  import opened Text
  import opened Markers
  import opened Citations
  import opened MarkerScan
  import opened CitationProof

  // ---- tidying up twice

  lemma {:induction false} RunHasNeighbours(t: string)
    requires BlankRun(t) >= 2
    ensures |t| >= 2 && IsBlank(t[0]) && IsBlank(t[1])
  {
    assert BlankRun(t) == 1 + BlankRun(t[1..]);
  }

  lemma TailIsTidy(t: string)
    requires Tidy(t) && t != ""
    ensures Tidy(t[1..])
  {
    forall i | 0 <= i < |t| - 2 && IsBlank(t[1..][i]) ensures !IsBlank(t[1..][i + 1]) && !IsStop(t[1..][i + 1]) {
      assert IsBlank(t[i + 1]);
    }
  }

  lemma {:induction false} TidyIsCollapsed(t: string)
    requires Tidy(t)
    ensures CollapseRuns(t) == t && DropBeforeStops(t) == t
    decreases |t|
  {
    var r := BlankRun(t);
    if t == "" {
    } else {
      TailIsTidy(t);
      TidyIsCollapsed(t[1..]);
      assert t == [t[0]] + t[1..];
      if r >= 2 { RunHasNeighbours(t); }
      if r == 1 {
        assert t[..1] == [t[0]];
        assert IsBlank(t[0]);
      }
    }
  }

  lemma StrippedStays(t: string)
    requires t != "" ==> !IsSpace(t[0]) && !IsSpace(t[|t| - 1])
    ensures Strip(t) == t
  {
    if t == "" {
    } else {
      assert SkipSpace(t, 0, |t|) == 0 && TrimEnd(t, 0, |t|) == |t|;
      assert t[0..|t|] == t;
    }
  }

  lemma TidyUpTwice(t: string)
    ensures TidyUp(TidyUp(t)) == TidyUp(t)
  {
    TidyUpMeaning(t);
    TidyIsCollapsed(TidyUp(t));
    StrippedStays(TidyUp(t));
  }

  // ---- a text of verified markers is rewritten to itself

  predicate SinglesInRange(cites: seq<seq<nat>>, max: nat) {
    forall i :: 0 <= i < |cites| ==> |cites[i]| == 1 && 1 <= cites[i][0] <= max
  }

  lemma KeptSingle(n: nat, max: nat)
    requires 1 <= n <= max
    ensures Kept([n], max) == [n] && Written([n]) == "[" + Dec(n) + "]"
  {
    assert [n][..0] == [];
    assert Written([n]) == Written([]) + ("[" + Dec(n) + "]");
  }

  lemma CanonicalRest(x: string, texts: seq<string>)
    requires Canonical([x] + texts)
    ensures IsCanonical(x) && Canonical(texts)
  {
    var all := [x] + texts;
    assert all[0] == x;
    assert forall i :: 0 <= i < |texts| ==> all[i + 1] == texts[i];
  }

  lemma InRangeRest(x: seq<nat>, cites: seq<seq<nat>>, max: nat)
    requires SinglesInRange([x] + cites, max)
    ensures |x| == 1 && 1 <= x[0] <= max && SinglesInRange(cites, max)
  {
    var all := [x] + cites;
    assert all[0] == x;
    assert forall i :: 0 <= i < |cites| ==> all[i + 1] == cites[i];
  }

  lemma {:induction false} RewrittenToItself(t: string, max: nat)
    requires SinglesInRange(Scan(t, false), max) && Canonical(MarkTexts(t))
    ensures Spell(PiecesOfAnswer(t, max)) == t && Singles(Marks(PiecesOfAnswer(t, max))) == Scan(t, false)
    decreases |t|, 1
  {
    if t == "" {
    } else if MarkerAt(t).Some? {
      MarkerToItself(t, max);
    } else {
      SingleIsMark(t);
      RewrittenToItself(t[1..], max);
      PiecesFromChar(t, max);
      assert t == [t[0]] + t[1..];
    }
  }

  lemma MarkerToItself(t: string, max: nat)
    requires MarkerAt(t).Some? && SinglesInRange(Scan(t, false), max) && Canonical(MarkTexts(t))
    ensures Spell(PiecesOfAnswer(t, max)) == t && Singles(Marks(PiecesOfAnswer(t, max))) == Scan(t, false)
    decreases |t|, 0
  {
    var m := MarkerAt(t).value;
    InRangeRest(m.numbers, Scan(m.rest, false), max);
    SingleIsMark(t);
    var n := m.numbers[0];
    assert m.numbers == [n];
    CanonicalRest(MarkText(t), MarkTexts(m.rest));
    RewrittenToItself(m.rest, max);
    PiecesFromMarker(t, max);
    KeptSingle(n, max);
    MarkIsText(t);
    assert t == t[..MarkAt(t)] + t[MarkAt(t)..];
    var rest := Marks(PiecesOfAnswer(m.rest, max));
    assert ([n] + rest)[1..] == rest;
  }

  lemma {:induction false} SinglesInjective(a: seq<nat>, b: seq<nat>)
    requires Singles(a) == Singles(b)
    ensures a == b
  {
    SinglesSize(a);
    SinglesSize(b);
    forall i | 0 <= i < |a| ensures a[i] == b[i] {
      assert Singles(a)[i] == [a[i]] && Singles(b)[i] == [b[i]];
    }
  }

  /** Verifying a verified answer changes neither text nor list, unless a stripped marker stood inside a
      bracket pair whose other characters make up a marker. */
  lemma SecondPassChangesNothing(answer: string, max: nat)
    requires !StrippedInside(answer, max, false)
    ensures var ps := PiecesOfAnswer(answer, max);
            var again := PiecesOfAnswer(TidyUp(Spell(ps)), max);
            TidyUp(Spell(again)) == TidyUp(Spell(ps)) && FirstSeen(Marks(again)) == FirstSeen(Marks(ps))
  {
    var ps := PiecesOfAnswer(answer, max);
    var cleaned := TidyUp(Spell(ps));
    CleanedMarkersExactly(answer, max);
    ScanIsTokens(cleaned);
    ClientConditionFollows(answer, max);
    CleanedMarksExactly(answer, max);
    ValuesOfDecs(Marks(ps));
    VerifiedInRange(answer, max);
    RewrittenToItself(cleaned, max);
    TidyUpTwice(Spell(ps));
    SinglesInjective(Marks(PiecesOfAnswer(cleaned, max)), Marks(ps));
  }

  lemma VerifiedInRange(answer: string, max: nat)
    ensures SinglesInRange(Singles(Marks(PiecesOfAnswer(answer, max))), max)
  {
    var ns := Marks(PiecesOfAnswer(answer, max));
    MarksInRange(Tokenize(answer), max);
    SinglesSize(ns);
    assert forall i :: 0 <= i < |ns| ==> ns[i] in ns;
  }

  // ---- inputs that slip through

  function Lits(cs: string): seq<Token> {
    if cs == "" then [] else [Lit(cs[0])] + Lits(cs[1..])
  }

  lemma {:induction false} PlainTokens(cs: string, rest: string)
    requires '[' !in cs
    ensures Tokenize(cs + rest) == Lits(cs) + Tokenize(rest)
  {
    if cs == "" {
      assert cs + rest == rest;
    } else {
      assert (cs + rest)[1..] == cs[1..] + rest;
      PlainTokens(cs[1..], rest);
      assert Tokenize(cs + rest) == [Lit(cs[0])] + Tokenize(cs[1..] + rest);
    }
  }

  lemma LitsFirst(cs: string, ts: seq<Token>)
    requires cs != ""
    ensures Lits(cs) + ts == [Lit(cs[0])] + (Lits(cs[1..]) + ts)
  {
    TokensFirst(Lit(cs[0]), Lits(cs[1..]), ts);
  }

  lemma TokensFirst(t: Token, us: seq<Token>, ts: seq<Token>)
    ensures [t] + us + ts == [t] + (us + ts)
  {
  }

  lemma LitIsSpelled(c: char, ts: seq<Token>, max: nat)
    ensures Spell(Pieces([Lit(c)] + ts, max)) == [c] + Spell(Pieces(ts, max))
    ensures Marks(Pieces([Lit(c)] + ts, max)) == Marks(Pieces(ts, max))
  {
    assert ([Lit(c)] + ts)[1..] == ts;
    PiecesOfLit([Lit(c)] + ts, max);
    assert ([Ch(c)] + Pieces(ts, max))[1..] == Pieces(ts, max);
  }

  lemma {:induction false} LitsAreSpelled(cs: string, ts: seq<Token>, max: nat)
    ensures Spell(Pieces(Lits(cs) + ts, max)) == cs + Spell(Pieces(ts, max))
    ensures Marks(Pieces(Lits(cs) + ts, max)) == Marks(Pieces(ts, max))
  {
    if cs == "" {
      assert Lits(cs) + ts == ts;
    } else {
      LitsFirst(cs, ts);
      LitsAreSpelled(cs[1..], ts, max);
      LitIsSpelled(cs[0], Lits(cs[1..]) + ts, max);
      HeadFirst(cs, Spell(Pieces(ts, max)));
    }
  }

  lemma LitIsText(c: char, ts: seq<Token>, max: nat)
    ensures TextOf([Lit(c)] + ts, max) == [c] + TextOf(ts, max)
  {
    assert ([Lit(c)] + ts)[1..] == ts;
  }

  lemma {:induction false} LitsAreText(cs: string, ts: seq<Token>, max: nat)
    ensures TextOf(Lits(cs) + ts, max) == cs + TextOf(ts, max)
  {
    if cs == "" {
      assert Lits(cs) + ts == ts;
    } else {
      LitsFirst(cs, ts);
      LitsAreText(cs[1..], ts, max);
      LitIsText(cs[0], Lits(cs[1..]) + ts, max);
      HeadFirst(cs, TextOf(ts, max));
    }
  }

  lemma {:induction false} DroppedAfterLits(cs: string, ts: seq<Token>, n: nat, max: nat)
    requires ts != [] && Dropped(ts[0], max) && n > |cs|
    ensures DroppedWithin(Lits(cs) + ts, n, max)
  {
    if cs == "" {
      assert Lits(cs) + ts == ts;
    } else {
      LitsFirst(cs, ts);
      DroppedAfterLits(cs[1..], ts, n - 1, max);
    }
  }

  lemma OneDigit(c: char, rest: string)
    requires IsDigit(c) && (rest == "" || !IsDigit(rest[0]))
    ensures var t := [c] + rest; DigitRun(t) == 1 && t[1..] == rest && Value(t[..1]) == DigitOf(c)
  {
    var t := [c] + rest;
    assert t[1..] == rest;
    assert t[..1] == [c] && [c][..0] == "";
  }

  lemma NineToken(rest: string)
    ensures Tokenize("[9]" + rest) == [Cite([9])] + Tokenize(rest) && Dropped(Cite([9]), 1)
  {
    var s := "[9]" + rest;
    OneDigit('9', "]" + rest);
    assert s[1..] == ['9'] + ("]" + rest);
    assert ("]" + rest)[1..] == rest;
    assert [9][..0] == [];
  }

  /** An opening bracket and a stripped `[9]` split a marker's inside in two. */
  lemma SplitTokens(before: string, after: string)
    requires '[' !in before && '[' !in after && ParseTail(before + ("[9]" + after)).None?
    ensures Tokenize("[" + (before + ("[9]" + after))) == [Lit('[')] + (Lits(before) + ([Cite([9])] + Lits(after)))
  {
    var inner := before + ("[9]" + after);
    assert ("[" + inner)[1..] == inner;
    PlainTokens(before, "[9]" + after);
    NineToken(after);
    PlainTokens(after, "");
    assert after + "" == after && Lits(after) + [] == Lits(after);
  }

  /** With one passage, `[9]` in the middle of a marker's text lets that marker through unverified. */
  lemma SplitMarkerSlips(before: string, after: string)
    requires '[' !in before && '[' !in after && ParseTail(before + ("[9]" + after)).None?
    requires after != "" && ParseTail(before + after).Some? && ParseTail(before + after).value.rest == ""
    ensures var answer := "[" + (before + ("[9]" + after));
            && StrippedInside(answer, 1, false)
            && Marks(PiecesOfAnswer(answer, 1)) == [] && Spell(PiecesOfAnswer(answer, 1)) == "[" + (before + after)
  {
    var tail := [Cite([9])] + Lits(after);
    var inner := Lits(before) + tail;
    SplitTokens(before, after);
    NineToken("");
    TailIsText(tail, after);
    LitsAreSpelled(before, tail, 1);
    LitIsSpelled('[', inner, 1);
    SplitIsFilled(before, after, tail);
    var ts := [Lit('[')] + inner;
    assert ts[0..] == ts;
  }

  lemma SplitIsFilled(before: string, after: string, tail: seq<Token>)
    requires tail != [] && Dropped(tail[0], 1) && TextOf(tail, 1) == after && after != ""
    requires ParseTail(before + after).Some? && ParseTail(before + after).value.rest == ""
    ensures FilledAt([Lit('[')] + (Lits(before) + tail), 1, false)
  {
    LitsAreText(before, tail, 1);
    DroppedAfterLits(before, tail, |before + after|, 1);
    assert ([Lit('[')] + (Lits(before) + tail))[1..] == Lits(before) + tail;
  }

  lemma TailIsText(tail: seq<Token>, after: string)
    requires tail == [Cite([9])] + Lits(after) && Dropped(Cite([9]), 1)
    ensures TextOf(tail, 1) == Spell(Pieces(tail, 1)) == after && Marks(Pieces(tail, 1)) == []
  {
    assert tail[1..] == Lits(after) == Lits(after) + [];
    PiecesOfDropped(tail, 1);
    LitsAreText(after, [], 1);
    LitsAreSpelled(after, [], 1);
  }

  lemma DigitCloses(c: char)
    requires IsDigit(c)
    ensures ParseTail([c] + "]") == Some(Match([DigitOf(c)], ""))
  {
    OneDigit(c, "]");
    var t, u := [c] + "]", "]";
    assert t[DigitRun(t)..] == u && u[1..] == "";
    assert Value(t[..DigitRun(t)]) == DigitOf(c);
  }

  lemma NextNumber(t: string)
    requires t != "" && !IsSpace(t[0])
    ensures PastComma(", " + t) == Some(t)
  {
    var u := ", " + t;
    assert SkipSpaces(t) == t;
    assert SkipSpaces(" " + t) == t by { assert (" " + t)[1..] == t; }
    assert SkipSpaces(u) == u && u[0] == ',' && u[1..] == " " + t;
  }

  lemma DigitsClose(c: char, d: char)
    requires IsDigit(c) && IsDigit(d)
    ensures ParseTail([c] + (", " + ([d] + "]"))) == Some(Match([DigitOf(c), DigitOf(d)], ""))
  {
    var u := [d] + "]";
    DigitCloses(d);
    NextNumber(u);
    OneDigit(c, ", " + u);
    var t := [c] + (", " + u);
    assert t[DigitRun(t)..] == ", " + u && Value(t[..DigitRun(t)]) == DigitOf(c);
    assert ParseTail(t) == Some(Match([DigitOf(c)] + [DigitOf(d)], ""));
    assert [DigitOf(c)] + [DigitOf(d)] == [DigitOf(c), DigitOf(d)];
  }

  lemma NestedTexts()
    ensures "" + (['1'] + "]") == ['1'] + "]" && "[" + (['1'] + "]") == "[1]"
    ensures "" + ("[9]" + (['1'] + "]")) == "[9]" + (['1'] + "]")
    ensures "[" + ("[9]" + (['1'] + "]")) == "[[9]1]"
  {
  }

  /** With one passage, `[[9]1]` leaves a marker `[1]` that the list does not have. */
  lemma NestedExample()
    ensures StrippedInside("[[9]1]", 1, false)
    ensures var ps := PiecesOfAnswer("[[9]1]", 1); Marks(ps) == [] && Spell(ps) == "[1]"
  {
    DigitCloses('1');
    NestedTexts();
    NoNumberHere("[9]" + (['1'] + "]"));
    SplitMarkerSlips("", ['1'] + "]");
  }

  lemma NoNumberHere(t: string)
    requires t != "" && t[0] == '['
    ensures ParseTail(t).None?
  {
    assert DigitRun(t) == 0;
  }

  lemma NoMarkerAfterDigit(c: char, rest: string)
    requires IsDigit(c) && rest != "" && rest[0] == '['
    ensures ParseTail([c] + rest).None?
  {
    OneDigit(c, rest);
  }

  lemma ListExampleGeneral(c: char, d: char)
    requires IsDigit(c) && IsDigit(d)
    ensures var answer := "[" + ([c] + ("[9]" + (", " + ([d] + "]"))));
            && StrippedInside(answer, 1, false) && Marks(PiecesOfAnswer(answer, 1)) == []
            && Spell(PiecesOfAnswer(answer, 1)) == "[" + ([c] + (", " + ([d] + "]")))
  {
    DigitsClose(c, d);
    NoMarkerAfterDigit(c, "[9]" + (", " + ([d] + "]")));
    SplitMarkerSlips([c], ", " + ([d] + "]"));
  }

  lemma ListTexts()
    ensures "[" + (['1'] + (", " + (['2'] + "]"))) == "[1, 2]"
    ensures "[" + (['1'] + ("[9]" + (", " + (['2'] + "]")))) == "[1[9], 2]"
  {
    assert "[" + (['1'] + (", " + (['2'] + "]"))) == ['[', '1', ',', ' ', '2', ']'];
    assert "[" + (['1'] + ("[9]" + (", " + (['2'] + "]")))) == ['[', '1', '[', '9', ']', ',', ' ', '2', ']'];
  }

  lemma ListIsMarker(c: char, d: char)
    requires IsDigit(c) && IsDigit(d)
    ensures MarkerAt("[" + ([c] + (", " + ([d] + "]")))) == Some(Match([DigitOf(c), DigitOf(d)], ""))
  {
    DigitsClose(c, d);
    var inner := [c] + (", " + ([d] + "]"));
    assert ("[" + inner)[1..] == inner;
  }

  /** With one passage, `[1[9], 2]` leaves `[1, 2]`, a marker in the server's grammar but not in the client's. */
  lemma ListExample()
    ensures StrippedInside("[1[9], 2]", 1, false)
    ensures var ps := PiecesOfAnswer("[1[9], 2]", 1); Marks(ps) == [] && Spell(ps) == "[1, 2]"
    ensures MarkerAt("[1, 2]") == Some(Match([1, 2], ""))
  {
    ListExampleGeneral('1', '2');
    ListIsMarker('1', '2');
    ListTexts();
  }
}
