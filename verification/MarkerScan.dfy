/** The markers a text carries, under the server's grammar and under the client's, and which edits of the
    text leave them alone. */
module MarkerScan {
  import opened Values
  import opened Text
  import opened Markers
  import opened Citations

  /** The server's grammar takes lists of numbers; the client's (`one`) single numbers only. */
  predicate Takes(m: Option<Match>, one: bool) {
    m.Some? && (one ==> |m.value.numbers| == 1)
  }

  /** The numbers of all markers, leftmost first. */
  function Scan(t: string, one: bool): seq<seq<nat>>
    decreases |t|
  {
    if t == "" then []
    else if Takes(MarkerAt(t), one) then [MarkerAt(t).value.numbers] + Scan(MarkerAt(t).value.rest, one)
    else Scan(t[1..], one)
  }

  function Singles(ns: seq<nat>): seq<seq<nat>> {
    if ns == [] then [] else [[ns[0]]] + Singles(ns[1..])
  }

  lemma {:induction false} SinglesSize(ns: seq<nat>)
    ensures |Singles(ns)| == |ns| && forall i :: 0 <= i < |ns| ==> Singles(ns)[i] == [ns[i]]
  {
    if ns == [] {
    } else {
      SinglesSize(ns[1..]);
    }
  }

  function CitesOf(ts: seq<Token>): seq<seq<nat>> {
    if ts == [] then [] else (if ts[0].Cite? then [ts[0].numbers] else []) + CitesOf(ts[1..])
  }

  /** Under the server's grammar these are the matches of its substitution. */
  lemma {:induction false} ScanIsTokens(t: string)
    ensures CitesOf(Tokenize(t)) == Scan(t, false)
    decreases |t|
  {
    if t == "" {
    } else if MarkerAt(t).Some? {
      ScanIsTokens(MarkerAt(t).value.rest);
      assert Tokenize(t)[1..] == Tokenize(MarkerAt(t).value.rest);
    } else {
      ScanIsTokens(t[1..]);
      assert Tokenize(t)[1..] == Tokenize(t[1..]);
    }
  }

  /** A single-number marker is one in both grammars. */
  lemma SingleIsMark(t: string)
    ensures MarkAt(t) > 0 <==> Takes(MarkerAt(t), true)
    ensures MarkAt(t) > 0 ==> MarkerAt(t).value == Match([Value(MarkText(t))], t[MarkAt(t)..])
  {
  }

  lemma ValuesOfPrepended(x: string, texts: seq<string>)
    ensures Singles(ValuesOf([x] + texts)) == [[Value(x)]] + Singles(ValuesOf(texts))
  {
    assert ValuesOf([x] + texts)[1..] == ValuesOf(texts);
  }

  /** Under the client's grammar they are the markers it splits at. */
  lemma {:induction false} ScanIsMarks(t: string)
    ensures Scan(t, true) == Singles(ValuesOf(MarkTexts(t)))
    decreases |t|
  {
    SingleIsMark(t);
    if t == "" {
    } else if MarkAt(t) > 0 {
      ScanIsMarks(t[MarkAt(t)..]);
      ValuesOfPrepended(MarkText(t), MarkTexts(t[MarkAt(t)..]));
    } else {
      ScanIsMarks(t[1..]);
    }
  }

  // ---- squeezing blanks

  /** Both texts are squeezed alike and begin alike as far as a comma goes. */
  predicate SameStart(t: string, c: string) {
    Squeezed(t, c) && (t != "" && t[0] == ',' <==> c != "" && c[0] == ',')
  }

  lemma {:induction false} SkipsRun(t: string, r: nat)
    requires r <= |t| && forall i :: 0 <= i < r ==> IsSpace(t[i])
    ensures SkipSpaces(t) == SkipSpaces(t[r..])
  {
    if r == 0 {
      assert t[0..] == t;
    } else {
      SkipsRun(t[1..], r - 1);
      assert t[1..][r - 1..] == t[r..];
    }
  }

  lemma {:induction false} SpacesSurvive(t: string, c: string)
    requires Squeezed(t, c)
    ensures SameStart(SkipSpaces(t), SkipSpaces(c))
    decreases |t|
  {
    var r, r' := BlankRun(t), BlankRun(c);
    if r > 0 {
      SpacesSurvive(t[r..], c[r'..]);
      SkipsRun(t, r);
      SkipsRun(c, r');
    } else if t != "" && IsSpace(t[0]) {
      SpacesSurvive(t[1..], c[1..]);
    }
  }

  lemma CommaSurvives(t: string, c: string)
    requires Squeezed(t, c)
    ensures PastComma(t).Some? <==> PastComma(c).Some?
    ensures PastComma(t).Some? ==> Squeezed(PastComma(t).value, PastComma(c).value)
  {
    SpacesSurvive(t, c);
    var u, v := SkipSpaces(t), SkipSpaces(c);
    if u != "" && u[0] == ',' {
      SpacesSurvive(u[1..], v[1..]);
    }
  }

  /** Both parses succeed alike and leave texts that are squeezed alike. */
  predicate SameMatch(m: Option<Match>, m': Option<Match>) {
    && (m.Some? <==> m'.Some?)
    && (m.Some? ==> m.value.numbers == m'.value.numbers && Squeezed(m.value.rest, m'.value.rest))
  }

  lemma {:induction false} TailSurvives(t: string, c: string)
    requires Squeezed(t, c)
    ensures SameMatch(ParseTail(t), ParseTail(c))
    decreases |t|
  {
    DigitsSurvive(t, c);
    var d := DigitRun(t);
    if d == 0 || (t[d..] != "" && t[d..][0] == ']') {
    } else {
      CommaSurvives(t[d..], c[d..]);
      if PastComma(t[d..]).Some? {
        TailSurvives(PastComma(t[d..]).value, PastComma(c[d..]).value);
      }
    }
  }

  lemma MarkerSurvives(t: string, c: string)
    requires Squeezed(t, c)
    ensures SameMatch(MarkerAt(t), MarkerAt(c))
  {
    if t != "" && t[0] == '[' {
      TailSurvives(t[1..], c[1..]);
    }
  }

  lemma {:induction false} SpacesHoldNoMarker(spaces: string, rest: string, one: bool)
    requires forall i :: 0 <= i < |spaces| ==> IsSpace(spaces[i])
    ensures Scan(spaces + rest, one) == Scan(rest, one)
  {
    if spaces == "" {
      assert spaces + rest == rest;
    } else {
      assert (spaces + rest)[1..] == spaces[1..] + rest;
      SpacesHoldNoMarker(spaces[1..], rest, one);
    }
  }

  lemma {:induction false} SqueezedKeepsScan(t: string, c: string, one: bool)
    requires Squeezed(t, c)
    ensures Scan(c, one) == Scan(t, one)
    decreases |t|
  {
    MarkerSurvives(t, c);
    var r, r' := BlankRun(t), BlankRun(c);
    if r > 0 {
      SqueezedKeepsScan(t[r..], c[r'..], one);
      assert t == t[..r] + t[r..] && c == c[..r'] + c[r'..];
      SpacesHoldNoMarker(t[..r], t[r..], one);
      SpacesHoldNoMarker(c[..r'], c[r'..], one);
    } else if Takes(MarkerAt(t), one) {
      SqueezedKeepsScan(MarkerAt(t).value.rest, MarkerAt(c).value.rest, one);
    } else if t != "" {
      SqueezedKeepsScan(t[1..], c[1..], one);
    }
  }

  // ---- what follows a marker does not matter

  /** Only whitespace up to the end or to an opening bracket: nothing that could complete a marker. */
  predicate Inert(rest: string) {
    SkipSpaces(rest) == "" || SkipSpaces(rest)[0] == '['
  }

  lemma {:induction false} DigitRunBefore(p: string, rest: string)
    requires Inert(rest)
    ensures DigitRun(p + rest) == DigitRun(p)
  {
    if p == "" {
      assert p + rest == rest;
    } else {
      assert (p + rest)[1..] == p[1..] + rest;
      DigitRunBefore(p[1..], rest);
    }
  }

  lemma SplitBefore(p: string, rest: string, d: nat)
    requires d <= |p|
    ensures (p + rest)[d..] == p[d..] + rest && (p + rest)[..d] == p[..d]
  {
  }

  lemma {:induction false} SpacesBefore(p: string, rest: string)
    ensures SkipSpaces(p + rest) == if SkipSpaces(p) == "" then SkipSpaces(rest) else SkipSpaces(p) + rest
  {
    if p == "" {
      assert p + rest == rest;
    } else {
      assert (p + rest)[1..] == p[1..] + rest;
      SpacesBefore(p[1..], rest);
    }
  }

  /** What a step past `p` finds when `rest` follows: the same, or only what comes after the whitespace of
      `rest`. */
  predicate Continues(found: string, rest: string, found': string) {
    if found == "" then found' == SkipSpaces(rest) else found' == found + rest
  }

  lemma CommaBefore(p: string, rest: string)
    requires Inert(rest)
    ensures PastComma(p + rest).Some? <==> PastComma(p).Some?
    ensures PastComma(p).Some? ==> Continues(PastComma(p).value, rest, PastComma(p + rest).value)
  {
    SpacesBefore(p, rest);
    var u := SkipSpaces(p);
    if u != "" && u[0] == ',' {
      assert (u + rest)[1..] == u[1..] + rest;
      SpacesBefore(u[1..], rest);
    }
  }

  /** The same match, with `rest` after what it left. */
  predicate SameBefore(m: Option<Match>, rest: string, m': Option<Match>) {
    && (m.Some? <==> m'.Some?)
    && (m.Some? ==> m'.value == Match(m.value.numbers, m.value.rest + rest))
  }

  lemma CloseBefore(u: string, rest: string)
    requires Inert(rest)
    ensures u != "" && u[0] == ']' <==> u + rest != "" && (u + rest)[0] == ']'
    ensures u != "" ==> (u + rest)[1..] == u[1..] + rest
  {
  }

  /** A parse never reaches into an inert rest. */
  lemma {:induction false} TailBefore(p: string, rest: string)
    requires Inert(rest)
    ensures SameBefore(ParseTail(p), rest, ParseTail(p + rest))
    decreases |p|
  {
    DigitRunBefore(p, rest);
    SplitBefore(p, rest, DigitRun(p));
    var u := p[DigitRun(p)..];
    CloseBefore(u, rest);
    if DigitRun(p) == 0 || (u != "" && u[0] == ']') {
    } else {
      CommaBefore(u, rest);
      if PastComma(u).Some? && PastComma(u).value != "" {
        TailBefore(PastComma(u).value, rest);
      }
    }
  }

  lemma MarkerBefore(p: string, rest: string)
    requires Inert(rest) && p != ""
    ensures SameBefore(MarkerAt(p), rest, MarkerAt(p + rest))
  {
    assert (p + rest)[1..] == p[1..] + rest;
    TailBefore(p[1..], rest);
  }

  lemma {:induction false} TrailingSpaceHoldsNoMarker(t: string, spaces: string, one: bool)
    requires forall i :: 0 <= i < |spaces| ==> IsSpace(spaces[i])
    ensures Scan(t + spaces, one) == Scan(t, one)
    decreases |t|
  {
    SkipsRun(spaces, |spaces|);
    if t == "" {
      assert t + spaces == spaces == spaces + "";
      SpacesHoldNoMarker(spaces, "", one);
    } else {
      MarkerBefore(t, spaces);
      if Takes(MarkerAt(t), one) {
        TrailingSpaceHoldsNoMarker(MarkerAt(t).value.rest, spaces, one);
      } else {
        assert (t + spaces)[1..] == t[1..] + spaces;
        TrailingSpaceHoldsNoMarker(t[1..], spaces, one);
      }
    }
  }

  lemma StripKeepsScan(t: string, one: bool)
    ensures Scan(Strip(t), one) == Scan(t, one)
  {
    var a := SkipSpace(t, 0, |t|);
    var b := TrimEnd(t, a, |t|);
    assert t == t[..a] + (t[a..b] + t[b..]);
    SpacesHoldNoMarker(t[..a], t[a..b] + t[b..], one);
    TrailingSpaceHoldsNoMarker(t[a..b], t[b..], one);
  }

  /** Tidying up blanks neither makes nor breaks a marker of either grammar. */
  lemma TidyUpKeepsScan(t: string, one: bool)
    ensures Scan(TidyUp(t), one) == Scan(t, one)
  {
    var u := DropBeforeStops(t);
    DropBeforeStopsSqueezes(t);
    SqueezedKeepsScan(t, u, one);
    CollapseRunsSqueezes(u);
    SqueezedKeepsScan(u, CollapseRuns(u), one);
    StripKeepsScan(CollapseRuns(u), one);
  }
}
