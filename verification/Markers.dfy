/** Single-number citation markers `[n]` in a text: where they are, splitting a text at them, and which
    edits of the text leave them alone. */
module Markers {
  import opened Text

  predicate IsDigit(c: char) {
    '0' <= c <= '9'
  }

  const DIGITS := "0123456789"

  function DigitOf(c: char): (d: nat)
    ensures d < 10 && (IsDigit(c) ==> DIGITS[d] == c)
  {
    if IsDigit(c) then c as int - '0' as int else 0
  }

  /** Decimal form, without leading zeros. */
  function Dec(n: nat): (s: string)
    ensures s != "" && forall i :: 0 <= i < |s| ==> IsDigit(s[i])
  {
    if n < 10 then [DIGITS[n]] else Dec(n / 10) + [DIGITS[n % 10]]
  }

  function Value(s: string): nat {
    if s == "" then 0 else 10 * Value(s[..|s| - 1]) + DigitOf(s[|s| - 1])
  }

  lemma {:induction false} ValueOfDec(n: nat)
    ensures Value(Dec(n)) == n
  {
    var s := Dec(n);
    if n < 10 {
      assert s[..0] == "" && s[0] == DIGITS[n];
    } else {
      ValueOfDec(n / 10);
      assert s[..|s| - 1] == Dec(n / 10) && s[|s| - 1] == DIGITS[n % 10];
    }
  }

  /** Length of the leading run of digits. */
  function DigitRun(t: string): (d: nat)
    ensures d <= |t| && (forall i :: 0 <= i < d ==> IsDigit(t[i])) && (d < |t| ==> !IsDigit(t[d]))
  {
    if t == "" || !IsDigit(t[0]) then 0 else 1 + DigitRun(t[1..])
  }

  /** Length of the marker the text begins with, or 0. */
  function MarkAt(t: string): (m: nat)
    ensures m <= |t| && (m > 0 ==> m >= 3)
  {
    if t == "" || t[0] != '[' then 0
    else
      var d := DigitRun(t[1..]);
      if d > 0 && d + 1 < |t| && t[d + 1] == ']' then d + 2 else 0
  }

  /** The digits of the marker the text begins with. */
  function MarkText(t: string): string
    requires MarkAt(t) > 0
  {
    t[1..][..DigitRun(t[1..])]
  }

  /** The digits of all markers, left to right. */
  function MarkTexts(t: string): seq<string>
    decreases |t|
  {
    if t == "" then []
    else if MarkAt(t) > 0 then [MarkText(t)] + MarkTexts(t[MarkAt(t)..])
    else MarkTexts(t[1..])
  }

  // ---- the client's segmentation

  datatype Segment = TextSegment(text: string) | CiteSegment(marker: nat)

  function RenderSegment(x: Segment): string {
    match x
    case TextSegment(text) => text
    case CiteSegment(n) => "[" + Dec(n) + "]"
  }

  function Render(xs: seq<Segment>): string {
    if xs == [] then "" else Render(xs[..|xs| - 1]) + RenderSegment(xs[|xs| - 1])
  }

  function Cites(xs: seq<Segment>): seq<nat> {
    if xs == [] then []
    else Cites(xs[..|xs| - 1]) + if xs[|xs| - 1].CiteSegment? then [xs[|xs| - 1].marker] else []
  }

  function ValuesOf(texts: seq<string>): seq<nat> {
    seq(|texts|, i requires 0 <= i < |texts| => Value(texts[i]))
  }

  /** Written the way `Dec` writes its number, that is, without leading zeros. */
  predicate IsCanonical(digits: string) {
    digits == Dec(Value(digits))
  }

  predicate Canonical(texts: seq<string>) {
    forall i :: 0 <= i < |texts| ==> IsCanonical(texts[i])
  }

  lemma RenderPush(xs: seq<Segment>, x: Segment)
    ensures Render(xs + [x]) == Render(xs) + RenderSegment(x)
    ensures Cites(xs + [x]) == Cites(xs) + if x.CiteSegment? then [x.marker] else []
  {
    assert (xs + [x])[..|xs|] == xs;
  }

  lemma ValuesPush(texts: seq<string>, digits: string)
    ensures ValuesOf(texts + [digits]) == ValuesOf(texts) + [Value(digits)]
    ensures Canonical(texts + [digits]) ==> Canonical(texts) && IsCanonical(digits)
  {
    var more := texts + [digits];
    assert forall i :: 0 <= i < |texts| ==> more[i] == texts[i];
    assert more[|texts|] == digits;
  }

  /** The segments pushed so far stand for the text up to `cursor`, whose markers are `done`. */
  ghost predicate SplitUpTo(segments: seq<Segment>, answer: string, cursor: nat, done: seq<string>) {
    && cursor <= |answer|
    && Cites(segments) == ValuesOf(done)
    && (Canonical(done) ==> Render(segments) == answer[..cursor])
    && forall x :: x in segments && x.TextSegment? ==> x.text != ""
  }

  lemma TextPushed(before: seq<Segment>, answer: string, cursor: nat, i: nat, done: seq<string>)
    requires cursor < i <= |answer| && SplitUpTo(before, answer, cursor, done)
    ensures SplitUpTo(before + [TextSegment(answer[cursor..i])], answer, i, done)
  {
    RenderPush(before, TextSegment(answer[cursor..i]));
    assert answer[..cursor] + answer[cursor..i] == answer[..i];
  }

  method PushText(before: seq<Segment>, answer: string, cursor: nat, i: nat, ghost done: seq<string>)
    returns (segments: seq<Segment>)
    requires cursor <= i <= |answer| && SplitUpTo(before, answer, cursor, done)
    ensures SplitUpTo(segments, answer, i, done)
  {
    segments := before;
    if i > cursor {
      TextPushed(segments, answer, cursor, i, done);
      segments := segments + [TextSegment(answer[cursor..i])];
    }
  }

  lemma MarkIsText(t: string)
    requires MarkAt(t) > 0
    ensures t[..MarkAt(t)] == "[" + MarkText(t) + "]"
  {
  }

  lemma CitePushed(before: seq<Segment>, answer: string, i: nat, next: nat, done: seq<string>, digits: string)
    requires i <= next <= |answer| && SplitUpTo(before, answer, i, done) && answer[i..next] == "[" + digits + "]"
    ensures SplitUpTo(before + [CiteSegment(Value(digits))], answer, next, done + [digits])
  {
    RenderPush(before, CiteSegment(Value(digits)));
    ValuesPush(done, digits);
    assert answer[..next] == answer[..i] + answer[i..next];
  }

  method PushCite(before: seq<Segment>, answer: string, i: nat, ghost done: seq<string>)
      returns (segments: seq<Segment>, next: nat, ghost found: seq<string>)
    requires i <= |answer| && MarkAt(answer[i..]) > 0 && SplitUpTo(before, answer, i, done)
    ensures next == i + MarkAt(answer[i..]) && found == done + [MarkText(answer[i..])]
    ensures SplitUpTo(segments, answer, next, found)
  {
    var m, digits := MarkAt(answer[i..]), MarkText(answer[i..]);
    MarkIsText(answer[i..]);
    segments := before + [CiteSegment(Value(digits))];
    next, found := i + m, done + [digits];
    assert answer[i..next] == answer[i..][..m];
    CitePushed(before, answer, i, next, done, digits);
  }

  lemma MarksFromMark(answer: string, i: nat, next: nat)
    requires i < |answer| && MarkAt(answer[i..]) > 0 && next == i + MarkAt(answer[i..])
    ensures next <= |answer| && MarkTexts(answer[i..]) == [MarkText(answer[i..])] + MarkTexts(answer[next..])
  {
    assert answer[i..][MarkAt(answer[i..])..] == answer[next..];
  }

  lemma MarksFromOther(answer: string, i: nat)
    requires i < |answer| && MarkAt(answer[i..]) == 0
    ensures MarkTexts(answer[i..]) == MarkTexts(answer[i + 1..])
  {
    assert answer[i..][1..] == answer[i + 1..];
  }

  /** Markers before position `i` are done with; the text since `cursor` has not been pushed. */
  ghost predicate Scanned(segments: seq<Segment>, answer: string, cursor: nat, i: nat, done: seq<string>) {
    && cursor <= i <= |answer|
    && MarkTexts(answer) == done + MarkTexts(answer[i..])
    && SplitUpTo(segments, answer, cursor, done)
  }

  lemma ScannedSkip(segments: seq<Segment>, answer: string, cursor: nat, i: nat, done: seq<string>)
    requires i < |answer| && MarkAt(answer[i..]) == 0 && Scanned(segments, answer, cursor, i, done)
    ensures Scanned(segments, answer, cursor, i + 1, done)
  {
    MarksFromOther(answer, i);
  }

  lemma Regroup(done: seq<string>, x: string, rest: seq<string>)
    ensures done + ([x] + rest) == (done + [x]) + rest
  {
  }

  lemma ScannedMark(answer: string, i: nat, done: seq<string>, next: nat, found: seq<string>)
    requires i < |answer| && MarkAt(answer[i..]) > 0 && MarkTexts(answer) == done + MarkTexts(answer[i..])
    requires next == i + MarkAt(answer[i..]) && found == done + [MarkText(answer[i..])]
    ensures next <= |answer| && MarkTexts(answer) == found + MarkTexts(answer[next..])
  {
    MarksFromMark(answer, i, next);
    Regroup(done, MarkText(answer[i..]), MarkTexts(answer[next..]));
  }

  /** One match of the marker expression: the text since the last one, then the citation. */
  method PushMatch(before: seq<Segment>, answer: string, cursor: nat, i: nat, ghost done: seq<string>)
      returns (segments: seq<Segment>, next: nat, ghost found: seq<string>)
    requires i < |answer| && MarkAt(answer[i..]) > 0 && Scanned(before, answer, cursor, i, done)
    ensures i < next && Scanned(segments, answer, next, next, found)
  {
    segments := PushText(before, answer, cursor, i, done);
    segments, next, found := PushCite(segments, answer, i, done);
    ScannedMark(answer, i, done, next, found);
  }

  /** Splits at every marker; rendering the segments gives the text back as long as no marker has leading
      zeros. */
  method SplitAnswer(answer: string) returns (segments: seq<Segment>)
    ensures Cites(segments) == ValuesOf(MarkTexts(answer))
    ensures Canonical(MarkTexts(answer)) ==> Render(segments) == answer
    ensures forall x :: x in segments && x.TextSegment? ==> x.text != ""
  {
    segments := [];
    var cursor: nat, i: nat := 0, 0;
    ghost var done: seq<string> := [];
    while i < |answer|
      invariant Scanned(segments, answer, cursor, i, done)
      decreases |answer| - i
    {
      if MarkAt(answer[i..]) > 0 {
        segments, i, done := PushMatch(segments, answer, cursor, i, done);
        cursor := i;
      } else {
        ScannedSkip(segments, answer, cursor, i, done);
        i := i + 1;
      }
    }
    assert done + [] == done;
    segments := PushText(segments, answer, cursor, |answer|, done);
    assert answer[..|answer|] == answer;
  }

  // ---- edits of blanks

  predicate IsBlank(c: char) {
    c == ' ' || c == '\t'
  }

  predicate IsStop(c: char) {
    c == '.' || c == ',' || c == ';' || c == ':' || c == '!' || c == '?'
  }

  /** Length of the leading run of blanks. */
  function BlankRun(t: string): (r: nat)
    ensures r <= |t| && (forall i :: 0 <= i < r ==> IsBlank(t[i])) && (r < |t| ==> !IsBlank(t[r]))
  {
    if t == "" || !IsBlank(t[0]) then 0 else 1 + BlankRun(t[1..])
  }

  /** `sub(r"[ \t]+([.,;:!?])", r"\1")`. */
  function DropBeforeStops(t: string): string
    decreases |t|
  {
    var r := BlankRun(t);
    if t == "" then ""
    else if r == 0 then [t[0]] + DropBeforeStops(t[1..])
    else if r < |t| && IsStop(t[r]) then DropBeforeStops(t[r..])
    else t[..r] + DropBeforeStops(t[r..])
  }

  /** `sub(r"[ \t]{2,}", " ")`. */
  function CollapseRuns(t: string): string
    decreases |t|
  {
    var r := BlankRun(t);
    if t == "" then ""
    else if r == 0 then [t[0]] + CollapseRuns(t[1..])
    else (if r >= 2 then " " else t[..r]) + CollapseRuns(t[r..])
  }

  /** `c` is `t` with each run of blanks replaced by some run of blanks, an empty one only at the end or
      before a stop. */
  predicate Squeezed(t: string, c: string)
    decreases |t|
  {
    var r, r' := BlankRun(t), BlankRun(c);
    if r == 0 then r' == 0 && (if t == "" then c == "" else c != "" && c[0] == t[0] && Squeezed(t[1..], c[1..]))
    else (r' == 0 ==> r == |t| || IsStop(t[r])) && Squeezed(t[r..], c[r'..])
  }

  lemma {:induction false} RunThenRest(blanks: string, rest: string)
    requires (forall i :: 0 <= i < |blanks| ==> IsBlank(blanks[i])) && BlankRun(rest) == 0
    ensures BlankRun(blanks + rest) == |blanks|
  {
    if blanks == "" {
      assert blanks + rest == rest;
    } else {
      assert (blanks + rest)[1..] == blanks[1..] + rest;
      RunThenRest(blanks[1..], rest);
    }
  }

  lemma {:induction false} DropBeforeStopsSqueezes(t: string)
    ensures Squeezed(t, DropBeforeStops(t))
    decreases |t|
  {
    var r := BlankRun(t);
    if t == "" {
    } else if r == 0 {
      DropBeforeStopsSqueezes(t[1..]);
      assert DropBeforeStops(t)[1..] == DropBeforeStops(t[1..]);
    } else {
      var rest := DropBeforeStops(t[r..]);
      DropBeforeStopsSqueezes(t[r..]);
      assert BlankRun(t[r..]) == 0;
      RunThenRest(t[..r], rest);
      assert (t[..r] + rest)[r..] == rest;
      assert rest[0..] == rest;
    }
  }

  lemma {:induction false} CollapseRunsSqueezes(t: string)
    ensures Squeezed(t, CollapseRuns(t))
    decreases |t|
  {
    var r := BlankRun(t);
    if t == "" {
    } else if r == 0 {
      CollapseRunsSqueezes(t[1..]);
      assert CollapseRuns(t)[1..] == CollapseRuns(t[1..]);
    } else {
      var rest := CollapseRuns(t[r..]);
      var run := if r >= 2 then " " else t[..r];
      CollapseRunsSqueezes(t[r..]);
      assert BlankRun(t[r..]) == 0;
      RunThenRest(run, rest);
      assert (run + rest)[|run|..] == rest;
    }
  }

  /** The first `d` characters are the same, and so is whether a closing bracket follows. */
  predicate SameUpTo(t: string, c: string, d: nat) {
    && d <= |t| && d <= |c| && t[..d] == c[..d] && Squeezed(t[d..], c[d..])
    && (d < |t| && t[d] == ']' <==> d < |c| && c[d] == ']')
  }

  lemma SameFromNext(t: string, c: string, d: nat)
    requires t != "" && c != "" && t[0] == c[0] && SameUpTo(t[1..], c[1..], d)
    ensures SameUpTo(t, c, d + 1)
  {
    assert t[1..][d..] == t[d + 1..] && c[1..][d..] == c[d + 1..];
    assert t[..d + 1] == [t[0]] + t[1..][..d] && c[..d + 1] == [c[0]] + c[1..][..d];
  }

  lemma {:induction false} DigitsSurvive(t: string, c: string)
    requires Squeezed(t, c)
    ensures DigitRun(c) == DigitRun(t) && SameUpTo(t, c, DigitRun(t))
    decreases |t|
  {
    if t != "" && IsDigit(t[0]) {
      DigitsSurvive(t[1..], c[1..]);
      SameFromNext(t, c, DigitRun(t[1..]));
    } else {
      NoDigitsFirst(t, c);
    }
  }

  lemma NoDigitsFirst(t: string, c: string)
    requires Squeezed(t, c) && (t == "" || !IsDigit(t[0]))
    ensures DigitRun(t) == 0 && DigitRun(c) == 0 && t[0..] == t && c[0..] == c
    ensures (t != "" && t[0] == ']') <==> (c != "" && c[0] == ']')
  {
    var r, r' := BlankRun(t), BlankRun(c);
    if r > 0 && r' == 0 && r < |t| {
      assert c[0..] == c && BlankRun(t[r..]) == 0;
    }
  }

  lemma CloseSurvives(t: string, c: string)
    requires Squeezed(t, c)
    ensures t != "" && t[0] == ']' <==> c != "" && c[0] == ']'
    ensures t != "" && t[0] == ']' ==> Squeezed(t[1..], c[1..])
  {
  }

  /** A marker in terms of what is left after its digits. */
  lemma MarkByRest(t: string)
    requires t != "" && t[0] == '['
    ensures var d := DigitRun(t[1..]); var u := t[1..][d..];
            && MarkAt(t) == (if d > 0 && u != "" && u[0] == ']' then d + 2 else 0)
            && (MarkAt(t) > 0 ==> t[MarkAt(t)..] == u[1..])
  {
  }

  lemma SqueezedMark(t: string, c: string)
    requires Squeezed(t, c)
    ensures MarkAt(c) == MarkAt(t)
    ensures MarkAt(t) > 0 ==> MarkText(c) == MarkText(t) && Squeezed(t[MarkAt(t)..], c[MarkAt(t)..])
  {
    if t != "" && t[0] == '[' {
      DigitsSurvive(t[1..], c[1..]);
      MarkByRest(t);
      MarkByRest(c);
      CloseSurvives(t[1..][DigitRun(t[1..])..], c[1..][DigitRun(c[1..])..]);
    }
  }

  lemma BlankHoldsNoMark(c: char, rest: string)
    requires IsSpace(c)
    ensures MarkTexts([c] + rest) == MarkTexts(rest)
  {
    assert ([c] + rest)[1..] == rest;
  }

  lemma {:induction false} BlanksHoldNoMark(blanks: string, rest: string)
    requires forall i :: 0 <= i < |blanks| ==> IsSpace(blanks[i])
    ensures MarkTexts(blanks + rest) == MarkTexts(rest)
  {
    if blanks == "" {
      assert blanks + rest == rest;
    } else {
      assert blanks + rest == [blanks[0]] + (blanks[1..] + rest);
      BlankHoldsNoMark(blanks[0], blanks[1..] + rest);
      BlanksHoldNoMark(blanks[1..], rest);
    }
  }

  /** Squeezing blanks neither makes nor breaks a marker. */
  lemma {:induction false} SqueezedKeepsMarks(t: string, c: string)
    requires Squeezed(t, c)
    ensures MarkTexts(c) == MarkTexts(t)
    decreases |t|
  {
    SqueezedMark(t, c);
    var r, r' := BlankRun(t), BlankRun(c);
    if r > 0 {
      SqueezedKeepsMarks(t[r..], c[r'..]);
      assert t == t[..r] + t[r..] && c == c[..r'] + c[r'..];
      BlanksHoldNoMark(t[..r], t[r..]);
      BlanksHoldNoMark(c[..r'], c[r'..]);
    } else if MarkAt(t) > 0 {
      SqueezedKeepsMarks(t[MarkAt(t)..], c[MarkAt(t)..]);
    } else if t != "" {
      SqueezedKeepsMarks(t[1..], c[1..]);
    }
  }

  lemma {:induction false} DigitRunOfPrefix(t: string, spaces: string)
    requires forall i :: 0 <= i < |spaces| ==> IsSpace(spaces[i])
    ensures DigitRun(t + spaces) == DigitRun(t)
  {
    if t == "" {
      assert t + spaces == spaces;
    } else {
      assert (t + spaces)[1..] == t[1..] + spaces;
      DigitRunOfPrefix(t[1..], spaces);
    }
  }

  lemma MarkAtOfPrefix(t: string, spaces: string)
    requires (forall i :: 0 <= i < |spaces| ==> IsSpace(spaces[i])) && t != ""
    ensures MarkAt(t + spaces) == MarkAt(t)
    ensures MarkAt(t) > 0 ==> MarkText(t + spaces) == MarkText(t)
  {
    assert (t + spaces)[1..] == t[1..] + spaces;
    DigitRunOfPrefix(t[1..], spaces);
    if MarkAt(t) > 0 {
      assert (t[1..] + spaces)[..DigitRun(t[1..])] == t[1..][..DigitRun(t[1..])];
    }
  }

  lemma {:induction false} TrailingSpaceHoldsNoMark(t: string, spaces: string)
    requires forall i :: 0 <= i < |spaces| ==> IsSpace(spaces[i])
    ensures MarkTexts(t + spaces) == MarkTexts(t)
    decreases |t|
  {
    if t == "" {
      assert t + spaces == spaces == spaces + "";
      BlanksHoldNoMark(spaces, "");
    } else {
      MarkAtOfPrefix(t, spaces);
      if MarkAt(t) > 0 {
        assert (t + spaces)[MarkAt(t)..] == t[MarkAt(t)..] + spaces;
        TrailingSpaceHoldsNoMark(t[MarkAt(t)..], spaces);
      } else {
        assert (t + spaces)[1..] == t[1..] + spaces;
        TrailingSpaceHoldsNoMark(t[1..], spaces);
      }
    }
  }

  lemma StripKeepsMarks(t: string)
    ensures MarkTexts(Strip(t)) == MarkTexts(t)
  {
    var a := SkipSpace(t, 0, |t|);
    var b := TrimEnd(t, a, |t|);
    assert t == t[..a] + (t[a..b] + t[b..]);
    BlanksHoldNoMark(t[..a], t[a..b] + t[b..]);
    TrailingSpaceHoldsNoMark(t[a..b], t[b..]);
  }

  /** The whitespace clean-up of a verified answer. */
  function TidyUp(t: string): string {
    Strip(CollapseRuns(DropBeforeStops(t)))
  }

  /** Tidying up blanks neither makes nor breaks a marker. */
  lemma TidyUpKeepsMarks(t: string)
    ensures MarkTexts(TidyUp(t)) == MarkTexts(t)
  {
    var u := DropBeforeStops(t);
    DropBeforeStopsSqueezes(t);
    SqueezedKeepsMarks(t, u);
    CollapseRunsSqueezes(u);
    SqueezedKeepsMarks(u, CollapseRuns(u));
    StripKeepsMarks(CollapseRuns(u));
  }

  // ---- what tidying up achieves

  /** No blank is followed by another blank or by a stop. */
  predicate Tidy(t: string) {
    forall i :: 0 <= i < |t| - 1 && IsBlank(t[i]) ==> !IsBlank(t[i + 1]) && !IsStop(t[i + 1])
  }

  predicate NoBlankBeforeStop(t: string) {
    forall i :: 0 <= i < |t| - 1 && IsBlank(t[i]) ==> !IsStop(t[i + 1])
  }

  /** The text without its whitespace. */
  function Dense(t: string): string {
    if t == "" then "" else (if IsSpace(t[0]) then "" else [t[0]]) + Dense(t[1..])
  }

  lemma {:induction false} DenseConcat(a: string, b: string)
    ensures Dense(a + b) == Dense(a) + Dense(b)
  {
    if a == "" {
      assert a + b == b;
    } else {
      assert (a + b)[1..] == a[1..] + b;
      DenseConcat(a[1..], b);
    }
  }

  lemma {:induction false} DenseOfSpace(t: string)
    requires forall i :: 0 <= i < |t| ==> IsSpace(t[i])
    ensures Dense(t) == ""
  {
    if t == "" {
    } else {
      DenseOfSpace(t[1..]);
    }
  }

  lemma DenseSkipsRun(t: string, r: nat)
    requires r <= |t| && forall i :: 0 <= i < r ==> IsSpace(t[i])
    ensures Dense(t) == Dense(t[r..])
  {
    assert t == t[..r] + t[r..];
    DenseConcat(t[..r], t[r..]);
    DenseOfSpace(t[..r]);
  }

  lemma {:induction false} SqueezedKeepsText(t: string, c: string)
    requires Squeezed(t, c)
    ensures Dense(c) == Dense(t)
    decreases |t|
  {
    var r, r' := BlankRun(t), BlankRun(c);
    if r > 0 {
      SqueezedKeepsText(t[r..], c[r'..]);
      DenseSkipsRun(t, r);
      DenseSkipsRun(c, r');
    } else if t != "" {
      SqueezedKeepsText(t[1..], c[1..]);
    }
  }

  lemma {:induction false} DroppedBeforeStops(t: string)
    ensures NoBlankBeforeStop(DropBeforeStops(t))
    ensures BlankRun(t) == 0 ==> t == "" || (DropBeforeStops(t) != "" && DropBeforeStops(t)[0] == t[0])
    decreases |t|
  {
    var r := BlankRun(t);
    if t == "" {
    } else if r == 0 {
      DroppedBeforeStops(t[1..]);
      var rest := DropBeforeStops(t[1..]);
      assert forall i :: 0 < i < |rest| + 1 ==> ([t[0]] + rest)[i] == rest[i - 1];
    } else {
      DroppedBeforeStops(t[r..]);
      assert BlankRun(t[r..]) == 0;
      if r == |t| || !IsStop(t[r]) {
        RunBeforeRest(t[..r], DropBeforeStops(t[r..]));
      }
    }
  }

  lemma RunBeforeRest(run: string, rest: string)
    requires NoBlankBeforeStop(rest) && (rest != "" ==> !IsStop(rest[0]))
    requires forall i :: 0 <= i < |run| ==> IsBlank(run[i])
    ensures NoBlankBeforeStop(run + rest)
  {
    forall i | 0 <= i < |run + rest| - 1 && IsBlank((run + rest)[i]) ensures !IsStop((run + rest)[i + 1]) {
      if i >= |run| { assert IsBlank(rest[i - |run|]); }
    }
  }

  lemma {:induction false} CollapsedIsTidy(t: string)
    requires NoBlankBeforeStop(t)
    ensures Tidy(CollapseRuns(t))
    ensures BlankRun(t) == 0 && t != "" ==> CollapseRuns(t) != "" && CollapseRuns(t)[0] == t[0]
    decreases |t|
  {
    var r := BlankRun(t);
    if t == "" {
    } else if r == 0 {
      CollapsedIsTidy(t[1..]);
      TidyAfter([t[0]], CollapseRuns(t[1..]));
    } else {
      CollapsedIsTidy(t[r..]);
      assert BlankRun(t[r..]) == 0;
      assert IsBlank(t[r - 1]);
      TidyAfter(if r >= 2 then " " else t[..r], CollapseRuns(t[r..]));
    }
  }

  lemma TidyAfter(one: string, rest: string)
    requires |one| == 1 && Tidy(rest)
    requires IsBlank(one[0]) && rest != "" ==> !IsBlank(rest[0]) && !IsStop(rest[0])
    ensures Tidy(one + rest)
  {
    forall i | 0 <= i < |one + rest| - 1 && IsBlank((one + rest)[i])
      ensures !IsBlank((one + rest)[i + 1]) && !IsStop((one + rest)[i + 1])
    {
      if i > 0 { assert IsBlank(rest[i - 1]); }
    }
  }

  lemma DenseMiddle(a: string, b: string, c: string)
    requires (forall i :: 0 <= i < |a| ==> IsSpace(a[i])) && forall i :: 0 <= i < |c| ==> IsSpace(c[i])
    ensures Dense(a + (b + c)) == Dense(b)
  {
    DenseConcat(a, b + c);
    DenseConcat(b, c);
    DenseOfSpace(a);
    DenseOfSpace(c);
    assert "" + (Dense(b) + "") == Dense(b);
  }

  lemma SliceIsTidy(t: string, a: nat, b: nat)
    requires a <= b <= |t| && Tidy(t)
    ensures Tidy(t[a..b])
  {
    forall i | 0 <= i < b - a - 1 && IsBlank(t[a..b][i]) ensures !IsBlank(t[a..b][i + 1]) && !IsStop(t[a..b][i + 1]) {
      assert IsBlank(t[a + i]);
    }
  }

  lemma StripKeeps(t: string)
    ensures Dense(Strip(t)) == Dense(t) && (Tidy(t) ==> Tidy(Strip(t)))
  {
    var a := SkipSpace(t, 0, |t|);
    var b := TrimEnd(t, a, |t|);
    assert t == t[..a] + (t[a..b] + t[b..]);
    DenseMiddle(t[..a], t[a..b], t[b..]);
    if Tidy(t) { SliceIsTidy(t, a, b); }
  }

  /** Tidying up loses nothing but whitespace, and leaves no double blank, no blank before a stop and no
      whitespace at either end. */
  lemma TidyUpMeaning(t: string)
    ensures Dense(TidyUp(t)) == Dense(t) && Tidy(TidyUp(t))
    ensures var c := TidyUp(t); c != "" ==> !IsSpace(c[0]) && !IsSpace(c[|c| - 1])
  {
    var u := DropBeforeStops(t);
    DropBeforeStopsSqueezes(t);
    SqueezedKeepsText(t, u);
    DroppedBeforeStops(t);
    CollapseRunsSqueezes(u);
    SqueezedKeepsText(u, CollapseRuns(u));
    CollapsedIsTidy(u);
    StripKeeps(CollapseRuns(u));
  }
}
