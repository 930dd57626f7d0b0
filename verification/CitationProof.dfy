/** What a verified answer still holds as markers: exactly the verified ones, unless a stripped marker stood
    inside a bracket pair whose other characters make up a marker. */
module CitationProof {
  import opened Values
  import opened Text
  import opened Markers
  import opened Citations
  import opened MarkerScan

  // ---- pieces that spell a marker nobody verified

  /** The text of the leading characters, up to the first written marker. */
  function Plain(ps: seq<Piece>): string {
    if ps == [] || ps[0].Mark? then "" else [ps[0].c] + Plain(ps[1..])
  }

  /** The pieces begin with plain characters that make up a marker; `one` asks for a single number. */
  predicate FakeAt(ps: seq<Piece>, one: bool) {
    ps != [] && ps[0] == Ch('[') && Takes(ParseTail(Plain(ps[1..])), one)
  }

  predicate NoFake(ps: seq<Piece>, one: bool) {
    ps == [] || (!FakeAt(ps, one) && NoFake(ps[1..], one))
  }

  lemma {:induction false} NoFakeAtAll(ps: seq<Piece>)
    requires NoFake(ps, false)
    ensures NoFake(ps, true)
  {
    if ps == [] {
    } else {
      NoFakeAtAll(ps[1..]);
    }
  }

  function Decs(ns: seq<nat>): seq<string> {
    if ns == [] then [] else [Dec(ns[0])] + Decs(ns[1..])
  }

  lemma {:induction false} DecsSize(ns: seq<nat>)
    ensures |Decs(ns)| == |ns| && forall i :: 0 <= i < |ns| ==> Decs(ns)[i] == Dec(ns[i])
  {
    if ns == [] {
    } else {
      DecsSize(ns[1..]);
    }
  }

  /** The pieces from the first written marker on. */
  function AfterPlain(ps: seq<Piece>): seq<Piece> {
    if ps == [] || ps[0].Mark? then ps else AfterPlain(ps[1..])
  }

  /** The pieces without their leading characters but the last `n`. */
  function KeepLast(ps: seq<Piece>, n: nat): (rest: seq<Piece>)
    ensures |rest| <= |ps|
  {
    if |Plain(ps)| <= n then ps else KeepLast(ps[1..], n)
  }

  lemma {:induction false} SpelledPlain(ps: seq<Piece>)
    ensures Spell(ps) == Plain(ps) + Spell(AfterPlain(ps)) && Inert(Spell(AfterPlain(ps)))
  {
    if ps == [] || ps[0].Mark? {
    } else {
      SpelledPlain(ps[1..]);
    }
  }

  lemma NextSuffix(r: string, c: char, t: string)
    requires IsSuffix(r, [c] + t) && |r| <= |t|
    ensures IsSuffix(r, t)
  {
    assert ([c] + t)[|t| + 1 - |r|..] == t[|t| - |r|..];
  }

  /** Dropping leading characters from the pieces drops them from the text, and no marker. */
  lemma {:induction false} KeptIsSpelled(ps: seq<Piece>, r: string)
    requires IsSuffix(r, Plain(ps))
    ensures Spell(KeepLast(ps, |r|)) == r + Spell(AfterPlain(ps)) && Marks(KeepLast(ps, |r|)) == Marks(ps)
  {
    if |Plain(ps)| == |r| {
      assert r == Plain(ps);
      SpelledPlain(ps);
    } else {
      NextSuffix(r, ps[0].c, Plain(ps[1..]));
      KeptIsSpelled(ps[1..], r);
    }
  }

  /** The pieces after a faked marker. */
  function AfterFake(ps: seq<Piece>, one: bool): (rest: seq<Piece>)
    requires FakeAt(ps, one)
    ensures |rest| < |ps|
  {
    KeepLast(ps[1..], |ParseTail(Plain(ps[1..])).value.rest|)
  }

  lemma SpelledTail(ps: seq<Piece>)
    requires ps != [] && ps[0].Ch?
    ensures SameBefore(ParseTail(Plain(ps[1..])), Spell(AfterPlain(ps[1..])), ParseTail(Spell(ps)[1..]))
  {
    SpelledPlain(ps[1..]);
    assert Spell(ps)[1..] == Spell(ps[1..]);
    TailBefore(Plain(ps[1..]), Spell(AfterPlain(ps[1..])));
  }

  /** A spelled text begins with a marker in plain characters exactly when its pieces do. */
  lemma SpelledFake(ps: seq<Piece>, one: bool)
    requires ps != [] && ps[0].Ch?
    ensures Takes(MarkerAt(Spell(ps)), one) <==> FakeAt(ps, one)
    ensures FakeAt(ps, one) ==> MarkerAt(Spell(ps)).value.rest == Spell(AfterFake(ps, one))
    ensures FakeAt(ps, one) ==> Marks(AfterFake(ps, one)) == Marks(ps)
  {
    SpelledTail(ps);
    if FakeAt(ps, one) {
      TailRestIsSuffix(Plain(ps[1..]));
      KeptIsSpelled(ps[1..], ParseTail(Plain(ps[1..])).value.rest);
    }
  }

  lemma {:induction false} DigitsThen(ds: string, rest: string)
    requires (forall i :: 0 <= i < |ds| ==> IsDigit(ds[i])) && DigitRun(rest) == 0
    ensures DigitRun(ds + rest) == |ds|
  {
    if ds == "" {
      assert ds + rest == rest;
    } else {
      assert (ds + rest)[1..] == ds[1..] + rest;
      DigitsThen(ds[1..], rest);
    }
  }

  lemma BracketedMark(ds: string, tail: string)
    requires ds != "" && forall i :: 0 <= i < |ds| ==> IsDigit(ds[i])
    ensures var t := "[" + ds + "]" + tail; MarkAt(t) == |ds| + 2 && MarkText(t) == ds && t[|ds| + 2..] == tail
  {
    var t, rest := "[" + ds + "]" + tail, "]" + tail;
    assert t[1..] == ds + rest;
    DigitsThen(ds, rest);
    assert (ds + rest)[..|ds|] == ds && t[|ds| + 1] == ']';
  }

  lemma SpelledMark(ps: seq<Piece>)
    requires ps != [] && ps[0].Mark?
    ensures MarkTexts(Spell(ps)) == [Dec(ps[0].n)] + MarkTexts(Spell(ps[1..]))
    ensures MarkerAt(Spell(ps)) == Some(Match([ps[0].n], Spell(ps[1..])))
  {
    BracketedMark(Dec(ps[0].n), Spell(ps[1..]));
    SingleIsMark(Spell(ps));
    ValueOfDec(ps[0].n);
  }

  /** As many markers as verified ones, and more when the pieces fake one. */
  lemma {:induction false} FakesAddMarkers(ps: seq<Piece>, one: bool)
    ensures |Scan(Spell(ps), one)| >= |Marks(ps)|
    ensures !NoFake(ps, one) ==> |Scan(Spell(ps), one)| > |Marks(ps)|
    decreases |ps|
  {
    if ps == [] {
    } else if ps[0].Mark? {
      SpelledMark(ps);
      FakesAddMarkers(ps[1..], one);
    } else {
      SpelledFake(ps, one);
      if FakeAt(ps, one) {
        FakesAddMarkers(AfterFake(ps, one), one);
      } else {
        assert Spell(ps)[1..] == Spell(ps[1..]);
        FakesAddMarkers(ps[1..], one);
      }
    }
  }

  lemma {:induction false} OnlyVerifiedMarkers(ps: seq<Piece>, one: bool)
    requires NoFake(ps, one)
    ensures Scan(Spell(ps), one) == Singles(Marks(ps))
    decreases |ps|
  {
    if ps == [] {
    } else if ps[0].Mark? {
      SpelledMark(ps);
      OnlyVerifiedMarkers(ps[1..], one);
      assert Marks(ps) == [ps[0].n] + Marks(ps[1..]);
      assert Singles(Marks(ps)) == [[ps[0].n]] + Singles(Marks(ps[1..])) by {
        assert Marks(ps)[1..] == Marks(ps[1..]);
      }
    } else {
      SpelledFake(ps, one);
      assert Spell(ps)[1..] == Spell(ps[1..]);
      OnlyVerifiedMarkers(ps[1..], one);
      assert Marks(ps) == Marks(ps[1..]);
    }
  }

  lemma {:induction false} OnlyVerifiedTexts(ps: seq<Piece>)
    requires NoFake(ps, true)
    ensures MarkTexts(Spell(ps)) == Decs(Marks(ps))
    decreases |ps|
  {
    if ps == [] {
    } else if ps[0].Mark? {
      SpelledMark(ps);
      OnlyVerifiedTexts(ps[1..]);
      assert Marks(ps) == [ps[0].n] + Marks(ps[1..]);
    } else {
      SpelledFake(ps, true);
      SingleIsMark(Spell(ps));
      assert Spell(ps)[1..] == Spell(ps[1..]);
      OnlyVerifiedTexts(ps[1..]);
      assert Marks(ps) == Marks(ps[1..]);
    }
  }

  // ---- the same, seen in the answer

  predicate Dropped(t: Token, max: nat) {
    t.Cite? && Kept(t.numbers, max) == []
  }

  /** The characters up to the first kept marker, stripped ones skipped. */
  function TextOf(ts: seq<Token>, max: nat): string {
    if ts == [] then ""
    else if ts[0].Lit? then [ts[0].c] + TextOf(ts[1..], max)
    else if Dropped(ts[0], max) then TextOf(ts[1..], max)
    else ""
  }

  /** An opening bracket after which, stripped markers aside, a marker's inside and its end follow. */
  predicate PairAt(ts: seq<Token>, max: nat, one: bool) {
    ts != [] && ts[0] == Lit('[') && Takes(ParseTail(TextOf(ts[1..], max)), one)
  }

  /** A stripped marker comes before the first `n` characters are over. */
  predicate DroppedWithin(ts: seq<Token>, n: nat, max: nat) {
    n > 0 && ts != [] && (Dropped(ts[0], max) || (ts[0].Lit? && DroppedWithin(ts[1..], n - 1, max)))
  }

  predicate FilledAt(ts: seq<Token>, max: nat, one: bool) {
    PairAt(ts, max, one)
    && var text := TextOf(ts[1..], max); DroppedWithin(ts[1..], |text| - |ParseTail(text).value.rest|, max)
  }

  /** A stripped marker stands inside a bracket pair whose other characters make up a marker, as in `[[9]1]`
      or `[1[9], 2]`; with `one`, a marker of a single number. */
  predicate StrippedInside(answer: string, max: nat, one: bool) {
    exists k :: 0 <= k < |Tokenize(answer)| && FilledAt(Tokenize(answer)[k..], max, one)
  }

  lemma PiecesOfLit(ts: seq<Token>, max: nat)
    requires ts != [] && ts[0].Lit?
    ensures Pieces(ts, max) == [Ch(ts[0].c)] + Pieces(ts[1..], max)
  {
  }

  lemma PiecesOfDropped(ts: seq<Token>, max: nat)
    requires ts != [] && Dropped(ts[0], max)
    ensures Pieces(ts, max) == Pieces(ts[1..], max)
  {
    assert PiecesOf(ts[0], max) == [];
  }

  lemma {:induction false} MarksForAreMarks(ns: seq<nat>)
    ensures |MarksFor(ns)| == |ns| && forall i :: 0 <= i < |ns| ==> MarksFor(ns)[i] == Mark(ns[i])
  {
    if ns == [] {
    } else {
      MarksForAreMarks(ns[..|ns| - 1]);
    }
  }

  lemma {:induction false} PlainIsText(ts: seq<Token>, max: nat)
    ensures Plain(Pieces(ts, max)) == TextOf(ts, max)
  {
    if ts == [] {
    } else if ts[0].Lit? {
      PlainIsText(ts[1..], max);
      PiecesOfLit(ts, max);
      assert Pieces(ts, max)[1..] == Pieces(ts[1..], max);
    } else if Dropped(ts[0], max) {
      PlainIsText(ts[1..], max);
      PiecesOfDropped(ts, max);
    } else {
      MarksForAreMarks(Kept(ts[0].numbers, max));
    }
  }

  /** The pieces fake a marker exactly where the answer has such a pair. */
  lemma FakeIsPair(ts: seq<Token>, max: nat, one: bool)
    requires ts != [] && ts[0].Lit?
    ensures FakeAt(Pieces(ts, max), one) <==> PairAt(ts, max, one)
  {
    PiecesOfLit(ts, max);
    assert Pieces(ts, max)[1..] == Pieces(ts[1..], max);
    PlainIsText(ts[1..], max);
  }

  /** No bracket pair of the kind in any suffix. */
  predicate NoPair(ts: seq<Token>, max: nat, one: bool) {
    ts == [] || (!PairAt(ts, max, one) && NoPair(ts[1..], max, one))
  }

  lemma {:induction false} NoFakeOfMarks(ns: seq<nat>, rest: seq<Piece>, one: bool)
    ensures NoFake(MarksFor(ns) + rest, one) <==> NoFake(rest, one)
  {
    if ns == [] {
      assert MarksFor(ns) + rest == rest;
    } else {
      var l := |ns| - 1;
      var tail := [Mark(ns[l])] + rest;
      assert MarksFor(ns) + rest == MarksFor(ns[..l]) + tail;
      NoFakeOfMarks(ns[..l], tail, one);
      assert tail[1..] == rest;
    }
  }

  lemma {:induction false} NoFakeIsNoPair(ts: seq<Token>, max: nat, one: bool)
    ensures NoFake(Pieces(ts, max), one) <==> NoPair(ts, max, one)
  {
    if ts == [] {
    } else {
      NoFakeIsNoPair(ts[1..], max, one);
      if ts[0].Lit? {
        FakeIsPair(ts, max, one);
        PiecesOfLit(ts, max);
        assert Pieces(ts, max)[1..] == Pieces(ts[1..], max);
      } else {
        NoFakeOfMarks(Kept(ts[0].numbers, max), Pieces(ts[1..], max), one);
      }
    }
  }

  // ---- without a stripped marker inside, the expression would have matched

  lemma TokenizeLit(s: string)
    requires s != "" && Tokenize(s)[0].Lit?
    ensures MarkerAt(s).None? && Tokenize(s) == [Lit(s[0])] + Tokenize(s[1..])
  {
  }

  /** Characters with no stripped marker among them stand next to each other in the answer. */
  lemma {:induction false} TextIsPrefix(s: string, max: nat, n: nat)
    requires n <= |TextOf(Tokenize(s), max)| && !DroppedWithin(Tokenize(s), n, max)
    ensures n <= |s| && s[..n] == TextOf(Tokenize(s), max)[..n]
  {
    if n == 0 {
    } else {
      TokenizeLit(s);
      assert Tokenize(s)[1..] == Tokenize(s[1..]);
      var more := TextOf(Tokenize(s[1..]), max);
      assert TextOf(Tokenize(s), max) == [s[0]] + more;
      TextIsPrefix(s[1..], max, n - 1);
      assert s[..n] == [s[0]] + s[1..][..n - 1];
      assert ([s[0]] + more)[..n] == [s[0]] + more[..n - 1];
    }
  }

  // What a successful parse has consumed decides it; anything may follow.

  lemma {:induction false} SpacesFrame(u: string, r: string, x: string) returns (v: string)
    requires |SkipSpaces(u + r)| > |r|
    ensures v != "" && |v| <= |u| && SkipSpaces(u + r) == v + r && SkipSpaces(u + x) == v + x
  {
    if u == "" || !IsSpace(u[0]) {
      assert u == "" ==> u + r == r;
      v := u;
    } else {
      assert (u + r)[1..] == u[1..] + r && (u + x)[1..] == u[1..] + x;
      v := SpacesFrame(u[1..], r, x);
    }
  }

  lemma CommaFrame(u: string, r: string, x: string) returns (v: string)
    requires PastComma(u + r).Some? && |PastComma(u + r).value| > |r|
    ensures |v| < |u| && PastComma(u + r) == Some(v + r) && PastComma(u + x) == Some(v + x)
  {
    var a := SpacesFrame(u, r, x);
    assert (a + r)[1..] == a[1..] + r && (a + x)[1..] == a[1..] + x;
    v := SpacesFrame(a[1..], r, x);
  }

  lemma {:induction false} SameDigitRun(p: string, r: string, x: string)
    requires DigitRun(p + r) < |p|
    ensures DigitRun(p + x) == DigitRun(p + r)
  {
    if !IsDigit((p + r)[0]) {
    } else {
      assert (p + r)[1..] == p[1..] + r && (p + x)[1..] == p[1..] + x;
      SameDigitRun(p[1..], r, x);
    }
  }

  lemma DigitsFrame(p: string, r: string, x: string)
    requires DigitRun(p + r) < |p|
    ensures DigitRun(p + x) == DigitRun(p + r)
    ensures var d := DigitRun(p + r);
            && (p + r)[d..] == p[d..] + r && (p + x)[d..] == p[d..] + x && (p + r)[..d] == p[..d] == (p + x)[..d]
  {
    SameDigitRun(p, r, x);
    SplitBefore(p, r, DigitRun(p + r));
    SplitBefore(p, x, DigitRun(p + r));
  }

  lemma {:induction false} TailFrame(p: string, r: string, x: string)
    requires ParseTail(p + r).Some? && ParseTail(p + r).value.rest == r
    ensures ParseTail(p + x) == Some(Match(ParseTail(p + r).value.numbers, x))
    decreases |p|
  {
    var d := DigitRun(p + r);
    RestIsShorter(p + r);
    DigitsFrame(p, r, x);
    var u := p[d..];
    if u[0] == ']' {
      assert (u + r)[1..] == u[1..] + r && (u + x)[1..] == u[1..] + x;
      assert u[1..] == "";
    } else {
      RestIsShorter(PastComma(u + r).value);
      var v := CommaFrame(u, r, x);
      TailFrame(v, r, x);
    }
  }

  lemma RestIsShorter(t: string)
    requires ParseTail(t).Some?
    ensures DigitRun(t) + |ParseTail(t).value.rest| < |t|
  {
  }

  lemma UndroppedParses(s: string, max: nat)
    requires var text := TextOf(Tokenize(s), max);
             ParseTail(text).Some? && !DroppedWithin(Tokenize(s), |text| - |ParseTail(text).value.rest|, max)
    ensures ParseTail(s).Some?
  {
    var text := TextOf(Tokenize(s), max);
    var r := ParseTail(text).value.rest;
    var n := |text| - |r|;
    TextIsPrefix(s, max, n);
    TailRestIsSuffix(text);
    Halves(text, n);
    Halves(s, n);
    TailFrame(text[..n], r, s[n..]);
  }

  lemma Halves(t: string, n: nat)
    requires n <= |t|
    ensures t == t[..n] + t[n..]
  {
  }

  lemma PairHoldsStripped(s: string, max: nat, one: bool)
    requires PairAt(Tokenize(s), max, one)
    ensures FilledAt(Tokenize(s), max, one)
  {
    TokenizeLit(s);
    var rest := s[1..];
    assert Tokenize(s)[1..] == Tokenize(rest);
    var text := TextOf(Tokenize(rest), max);
    if !DroppedWithin(Tokenize(rest), |text| - |ParseTail(text).value.rest|, max) {
      UndroppedParses(rest, max);
    }
  }

  lemma {:induction false} SuffixIsTokenized(s: string, k: nat) returns (rest: string)
    requires k <= |Tokenize(s)|
    ensures Tokenize(s)[k..] == Tokenize(rest)
    decreases |s|
  {
    if k == 0 {
      rest := s;
    } else if MarkerAt(s).Some? {
      rest := SuffixIsTokenized(MarkerAt(s).value.rest, k - 1);
      assert Tokenize(s)[k..] == Tokenize(s)[1..][k - 1..];
    } else {
      rest := SuffixIsTokenized(s[1..], k - 1);
      assert Tokenize(s)[k..] == Tokenize(s)[1..][k - 1..];
    }
  }

  lemma {:induction false} SomePair(ts: seq<Token>, max: nat, one: bool) returns (k: nat)
    requires !NoPair(ts, max, one)
    ensures k < |ts| && PairAt(ts[k..], max, one)
  {
    if PairAt(ts, max, one) {
      k := 0;
      assert ts[0..] == ts;
    } else {
      k := SomePair(ts[1..], max, one);
      assert ts[1..][k..] == ts[k + 1..];
      k := k + 1;
    }
  }

  lemma {:induction false} NoPairAnywhere(ts: seq<Token>, max: nat, one: bool, k: nat)
    requires NoPair(ts, max, one) && k < |ts|
    ensures !PairAt(ts[k..], max, one)
  {
    if k == 0 {
      assert ts[0..] == ts;
    } else {
      assert ts[1..][k - 1..] == ts[k..];
      NoPairAnywhere(ts[1..], max, one, k - 1);
    }
  }

  lemma NoFakeExactly(answer: string, max: nat, one: bool)
    ensures NoFake(PiecesOfAnswer(answer, max), one) <==> !StrippedInside(answer, max, one)
  {
    var ts := Tokenize(answer);
    NoFakeIsNoPair(ts, max, one);
    if NoPair(ts, max, one) {
      forall k | 0 <= k < |ts| ensures !FilledAt(ts[k..], max, one) { NoPairAnywhere(ts, max, one, k); }
    } else {
      var k := SomePair(ts, max, one);
      var rest := SuffixIsTokenized(answer, k);
      PairHoldsStripped(rest, max, one);
      assert FilledAt(ts[k..], max, one);
    }
  }

  // ---- results

  /** Under the server's own grammar, the markers of the cleaned answer are single numbers, exactly the
      verified ones in order, if and only if no stripped marker stood inside a bracket pair whose other
      characters make up a marker. */
  lemma CleanedMarkersExactly(answer: string, max: nat)
    ensures var ps := PiecesOfAnswer(answer, max);
            CitesOf(Tokenize(TidyUp(Spell(ps)))) == Singles(Marks(ps)) <==> !StrippedInside(answer, max, false)
  {
    var ps := PiecesOfAnswer(answer, max);
    ScanIsTokens(TidyUp(Spell(ps)));
    TidyUpKeepsScan(Spell(ps), false);
    NoFakeExactly(answer, max, false);
    SinglesSize(Marks(ps));
    if NoFake(ps, false) { OnlyVerifiedMarkers(ps, false); } else { FakesAddMarkers(ps, false); }
  }

  /** The same for the markers the client splits at, with the condition on single numbers only. */
  lemma CleanedMarksExactly(answer: string, max: nat)
    ensures var ps := PiecesOfAnswer(answer, max);
            MarkTexts(TidyUp(Spell(ps))) == Decs(Marks(ps)) <==> !StrippedInside(answer, max, true)
  {
    var ps := PiecesOfAnswer(answer, max);
    TidyUpKeepsMarks(Spell(ps));
    NoFakeExactly(answer, max, true);
    if NoFake(ps, true) {
      OnlyVerifiedTexts(ps);
    } else {
      FakesAddMarkers(ps, true);
      ScanIsMarks(Spell(ps));
      SinglesSize(ValuesOf(MarkTexts(Spell(ps))));
      DecsSize(Marks(ps));
    }
  }

  /** What the server's condition shuts out includes what the client's does. */
  lemma ClientConditionFollows(answer: string, max: nat)
    requires !StrippedInside(answer, max, false)
    ensures !StrippedInside(answer, max, true)
  {
    NoFakeExactly(answer, max, false);
    NoFakeExactly(answer, max, true);
    NoFakeAtAll(PiecesOfAnswer(answer, max));
  }

  lemma {:induction false} MarksInRange(ts: seq<Token>, max: nat)
    ensures forall n :: n in Marks(Pieces(ts, max)) ==> 1 <= n <= max
  {
    if ts == [] {
    } else {
      MarksInRange(ts[1..], max);
      SpellConcat(PiecesOf(ts[0], max), Pieces(ts[1..], max));
      if ts[0].Cite? {
        WrittenIsSpelled(Kept(ts[0].numbers, max));
      } else {
        SpellSingle(Ch(ts[0].c));
      }
    }
  }

  lemma {:induction false} IndexInPrefix(ns: seq<nat>, n: nat)
    requires ns != [] && n in ns
    ensures var l := |ns| - 1;
            if n in ns[..l] then IndexOf(ns, n) == IndexOf(ns[..l], n) < l else IndexOf(ns, n) == l
  {
    var l := |ns| - 1;
    if ns[0] == n {
    } else {
      assert ns == [ns[0]] + ns[1..];
      IndexInPrefix(ns[1..], n);
      assert ns[1..][..l - 1] == ns[..l][1..];
    }
  }

  /** The returned list: distinct, all of the markers and nothing else, in order of first appearance. */
  lemma {:induction false} FirstSeenMeaning(ns: seq<nat>)
    ensures Distinct(FirstSeen(ns)) && forall n :: n in FirstSeen(ns) <==> n in ns
    ensures forall i, j :: 0 <= i < j < |FirstSeen(ns)| ==>
            IndexOf(ns, FirstSeen(ns)[i]) < IndexOf(ns, FirstSeen(ns)[j])
  {
    if ns == [] {
    } else {
      var l := |ns| - 1;
      FirstSeenMeaning(ns[..l]);
      assert ns == ns[..l] + [ns[l]];
      var seen := FirstSeen(ns);
      forall i | 0 <= i < |seen|
        ensures seen[i] in ns && (seen[i] in ns[..l] ==> IndexOf(ns, seen[i]) == IndexOf(ns[..l], seen[i]))
        ensures seen[i] !in ns[..l] ==> IndexOf(ns, seen[i]) == l
      {
        IndexInPrefix(ns, seen[i]);
      }
    }
  }

  lemma ValuesOfDecs(ns: seq<nat>)
    ensures ValuesOf(Decs(ns)) == ns && Canonical(Decs(ns))
  {
    DecsSize(ns);
    forall i | 0 <= i < |ns| ensures Value(Decs(ns)[i]) == ns[i] && IsCanonical(Decs(ns)[i]) {
      ValueOfDec(ns[i]);
    }
  }

  /** From the model's answer to the client's rendering. With no marker stripped out of a single-number pair,
      every marker shown names an included passage, the list is the distinct markers in order of first
      appearance, and rendering the segments gives the cleaned answer back character for character; with none
      stripped out of a pair at all, those are also all the markers the server's grammar finds. */
  method VerifyAndSplit(answer: string, max: nat) returns (cleaned: string, seen: seq<nat>, segments: seq<Segment>)
    ensures cleaned == TidyUp(Spell(PiecesOfAnswer(answer, max)))
    ensures !StrippedInside(answer, max, true) ==>
              && seen == FirstSeen(Cites(segments)) && Render(segments) == cleaned
              && forall n :: n in Cites(segments) ==> 1 <= n <= max
    ensures !StrippedInside(answer, max, false) ==> CitesOf(Tokenize(cleaned)) == Singles(Cites(segments))
  {
    cleaned, seen := ParseCitations(answer, max);
    segments := SplitAnswer(cleaned);
    CleanedMarksExactly(answer, max);
    CleanedMarkersExactly(answer, max);
    ValuesOfDecs(Marks(PiecesOfAnswer(answer, max)));
    MarksInRange(Tokenize(answer), max);
    if !StrippedInside(answer, max, false) { ClientConditionFollows(answer, max); }
  }
}
