/** What a citation marker is, character by character, and what verification makes of an answer. */
module CitationMeaning {
  import opened Values
  import opened Text
  import opened Markers
  import opened Citations
  import opened MarkerScan
  import opened CitationProof

  // ---- the grammar of a marker

  predicate IsNumber(w: string) {
    w != "" && forall i :: 0 <= i < |w| ==> IsDigit(w[i])
  }

  predicate CommaAt(sep: string, k: nat) {
    k < |sep| && sep[k] == ',' && forall i :: 0 <= i < |sep| && i != k ==> IsSpace(sep[i])
  }

  /** One comma with whitespace around it. */
  predicate IsComma(sep: string) {
    exists k :: 0 <= k < |sep| && CommaAt(sep, k)
  }

  /** The numbers `ns`, separated by commas. */
  ghost predicate IsList(t: string, ns: seq<nat>)
    decreases |ns|
  {
    && ns != []
    && if |ns| == 1 then IsNumber(t) && Value(t) == ns[0]
       else exists i: nat, j: nat :: FirstOfList(t, i, j, ns[0]) && IsList(t[j..], ns[1..])
  }

  predicate FirstOfList(t: string, i: nat, j: nat, n: nat) {
    i < j <= |t| && IsNumber(t[..i]) && Value(t[..i]) == n && IsComma(t[i..j])
  }

  ghost predicate IsMarker(t: string, ns: seq<nat>) {
    |t| >= 2 && t[0] == '[' && t[|t| - 1] == ']' && IsList(t[1..|t| - 1], ns)
  }

  predicate Spaces(s: string) {
    forall i :: 0 <= i < |s| ==> IsSpace(s[i])
  }

  // ---- what parsing finds is a marker

  lemma {:induction false} SkippedSpaces(t: string) returns (sp: string)
    ensures t == sp + SkipSpaces(t) && Spaces(sp)
  {
    if t == "" || !IsSpace(t[0]) {
      sp := "";
    } else {
      var more := SkippedSpaces(t[1..]);
      sp := [t[0]] + more;
    }
  }

  lemma SpacedComma(a: string, b: string)
    requires Spaces(a) && Spaces(b)
    ensures IsComma(a + "," + b)
  {
    assert CommaAt(a + "," + b, |a|);
  }

  lemma Around(a: string, v: string, b: string, y: string)
    requires v != "" && v[0] == ',' && v[1..] == b + y
    ensures a + v == (a + "," + b) + y
  {
  }

  lemma PastCommaSkips(u: string) returns (sep: string)
    requires PastComma(u).Some?
    ensures u == sep + PastComma(u).value && IsComma(sep)
  {
    var v := SkipSpaces(u);
    var a := SkippedSpaces(u);
    var b := SkippedSpaces(v[1..]);
    Around(a, v, b, SkipSpaces(v[1..]));
    SpacedComma(a, b);
    sep := a + "," + b;
  }

  lemma ListOfMore(w: string, sep: string, t: string, ns: seq<nat>)
    requires IsNumber(w) && IsComma(sep) && IsList(t, ns)
    ensures IsList(w + sep + t, [Value(w)] + ns)
  {
    var all, list, i: nat, j: nat := w + sep + t, [Value(w)] + ns, |w|, |w| + |sep|;
    assert all[..i] == w && all[i..j] == sep && all[j..] == t;
    assert list[1..] == ns && list[0] == Value(w) && |list| > 1;
    assert FirstOfList(all, i, j, list[0]) && IsList(all[j..], list[1..]);
  }

  lemma Joined(w: string, sep: string, t: string, close: string)
    ensures w + (sep + (t + close)) == (w + sep + t) + close
  {
  }

  /** What parsing accepts is a list of numbers up to the closing bracket it stopped at. */
  lemma {:induction false} ParsedIsList(x: string) returns (t: string)
    requires ParseTail(x).Some?
    ensures x == t + ("]" + ParseTail(x).value.rest) && IsList(t, ParseTail(x).value.numbers)
    decreases |x|
  {
    var d, rest := DigitRun(x), ParseTail(x).value.rest;
    var w, u := x[..d], x[d..];
    assert x == w + u;
    if u != "" && u[0] == ']' {
      t := w;
      assert u == "]" + rest;
    } else {
      var y := PastComma(u).value;
      var sep := PastCommaSkips(u);
      var more := ParsedIsList(y);
      t := w + sep + more;
      Joined(w, sep, more, "]" + rest);
      ListOfMore(w, sep, more, ParseTail(y).value.numbers);
    }
  }

  // ---- every marker is found

  lemma PastCommaOf(sep: string, y: string)
    requires IsComma(sep) && (y != "" ==> !IsSpace(y[0]))
    ensures PastComma(sep + y) == Some(y)
  {
    var k :| 0 <= k < |sep| && CommaAt(sep, k);
    var u := sep + y;
    SkipsRun(u, k);
    var v := u[k..];
    assert v[0] == ',' && SkipSpaces(v) == v;
    SkipsRun(v[1..], |sep| - k - 1);
    assert v[1..][|sep| - k - 1..] == y;
  }

  lemma CommaIsNoDigit(sep: string, y: string)
    requires IsComma(sep)
    ensures sep != "" && !IsDigit((sep + y)[0]) && (sep + y)[0] != ']'
  {
  }

  lemma ListSplits(t: string, ns: seq<nat>) returns (w: string, sep: string, more: string)
    requires IsList(t, ns) && |ns| > 1
    ensures t == w + sep + more && IsNumber(w) && Value(w) == ns[0] && IsComma(sep) && IsList(more, ns[1..])
  {
    var i: nat, j: nat :| FirstOfList(t, i, j, ns[0]) && IsList(t[j..], ns[1..]);
    w, sep, more := t[..i], t[i..j], t[j..];
  }

  lemma ListStarts(t: string, ns: seq<nat>)
    requires IsList(t, ns)
    ensures t != "" && IsDigit(t[0])
  {
    if |ns| > 1 {
      var w, sep, more := ListSplits(t, ns);
      assert t[0] == w[0];
    }
  }

  lemma NumberThen(w: string, u: string)
    requires IsNumber(w) && DigitRun(u) == 0
    ensures DigitRun(w + u) == |w| && (w + u)[..|w|] == w && (w + u)[|w|..] == u
  {
    DigitsThen(w, u);
  }

  lemma ParseOne(w: string, rest: string)
    requires IsNumber(w)
    ensures ParseTail(w + ("]" + rest)) == Some(Match([Value(w)], rest))
  {
    NumberThen(w, "]" + rest);
    assert ("]" + rest)[1..] == rest;
  }

  lemma ParseMore(w: string, sep: string, y: string)
    requires IsNumber(w) && IsComma(sep) && (y != "" ==> !IsSpace(y[0])) && ParseTail(y).Some?
    ensures ParseTail(w + (sep + y)) == Some(Match([Value(w)] + ParseTail(y).value.numbers, ParseTail(y).value.rest))
  {
    CommaIsNoDigit(sep, y);
    NumberThen(w, sep + y);
    PastCommaOf(sep, y);
  }

  lemma ParseJoined(w: string, sep: string, more: string, ns: seq<nat>, rest: string)
    requires IsNumber(w) && IsComma(sep) && IsList(more, ns)
    requires ParseTail(more + ("]" + rest)) == Some(Match(ns, rest))
    ensures ParseTail((w + sep + more) + ("]" + rest)) == Some(Match([Value(w)] + ns, rest))
  {
    ListStarts(more, ns);
    ParseMore(w, sep, more + ("]" + rest));
    Joined(w, sep, more, "]" + rest);
  }

  lemma {:induction false} ListParses(t: string, ns: seq<nat>, rest: string)
    requires IsList(t, ns)
    ensures ParseTail(t + ("]" + rest)) == Some(Match(ns, rest))
    decreases |ns|
  {
    if |ns| == 1 {
      ParseOne(t, rest);
      assert ns == [ns[0]];
    } else {
      var w, sep, more := ListSplits(t, ns);
      ListParses(more, ns[1..], rest);
      ParseJoined(w, sep, more, ns[1..], rest);
      assert [ns[0]] + ns[1..] == ns;
    }
  }

  lemma InBrackets(t: string, rest: string)
    requires |t| >= 2 && t[0] == '[' && t[|t| - 1] == ']'
    ensures (t + rest)[0] == '[' && (t + rest)[1..] == t[1..|t| - 1] + ("]" + rest)
  {
  }

  lemma MarkerParses(t: string, ns: seq<nat>, rest: string)
    requires IsMarker(t, ns)
    ensures MarkerAt(t + rest) == Some(Match(ns, rest))
  {
    InBrackets(t, rest);
    ListParses(t[1..|t| - 1], ns, rest);
  }

  lemma Bracketed(inner: string, ns: seq<nat>)
    requires IsList(inner, ns)
    ensures IsMarker("[" + inner + "]", ns)
  {
    var t := "[" + inner + "]";
    assert t[1..|t| - 1] == inner;
  }

  lemma Opened(s: string, inner: string, rest: string)
    requires s != "" && s[0] == '[' && s[1..] == inner + ("]" + rest)
    ensures s == ("[" + inner + "]") + rest
  {
  }

  lemma ParsedIsMarker(s: string) returns (t: string)
    requires MarkerAt(s).Some?
    ensures s == t + MarkerAt(s).value.rest && IsMarker(t, MarkerAt(s).value.numbers)
  {
    var inner := ParsedIsList(s[1..]);
    Opened(s, inner, MarkerAt(s).value.rest);
    Bracketed(inner, MarkerAt(s).value.numbers);
    t := "[" + inner + "]";
  }

  /** A text begins with the marker that parsing finds, and with no other. */
  lemma MarkerExactly(t: string, ns: seq<nat>, rest: string)
    ensures IsMarker(t, ns) <==> MarkerAt(t + rest) == Some(Match(ns, rest))
  {
    if IsMarker(t, ns) { MarkerParses(t, ns, rest); }
    if MarkerAt(t + rest) == Some(Match(ns, rest)) {
      var u := ParsedIsMarker(t + rest);
      assert u == (t + rest)[..|t|] == t;
    }
  }

  // ---- the rewritten answer

  function Concat(parts: seq<string>): string {
    if parts == [] then "" else parts[0] + Concat(parts[1..])
  }

  /** The numbers of included passages among those of a marker. */
  function Valid(ns: seq<nat>, max: nat): seq<nat> {
    if ns == [] then [] else (if 1 <= ns[0] <= max then [ns[0]] else []) + Valid(ns[1..], max)
  }

  /** One marker each. */
  function Singly(ns: seq<nat>): string {
    if ns == [] then "" else "[" + Dec(ns[0]) + "]" + Singly(ns[1..])
  }

  ghost predicate NoMarkerAtStart(t: string) {
    forall k, ns :: 0 <= k <= |t| ==> !IsMarker(t[..k], ns)
  }

  /** A part of the answer, what it is replaced by and what it cites: a marker by the markers of its included
      passages, a character no marker starts at by itself. */
  ghost predicate IsReplaced(part: string, after: string, image: string, cited: seq<nat>, max: nat) {
    || (exists ns :: IsMarker(part, ns) && cited == Valid(ns, max) && image == Singly(cited))
    || (|part| == 1 && image == part && cited == [] && NoMarkerAtStart(part + after))
  }

  /** The answer cut into parts, left to right, with their images. */
  ghost predicate IsRewriting(parts: seq<string>, images: seq<string>, cited: seq<seq<nat>>, max: nat) {
    |images| == |cited| == |parts| && forall k :: 0 <= k < |parts| ==> ReplacedAt(parts, images, cited, max, k)
  }

  ghost predicate ReplacedAt(parts: seq<string>, images: seq<string>, cited: seq<seq<nat>>, max: nat, k: nat)
    requires |images| == |cited| == |parts| && k < |parts|
  {
    IsReplaced(parts[k], Concat(parts[k + 1..]), images[k], cited[k], max)
  }

  function AllOf(cited: seq<seq<nat>>): seq<nat> {
    if cited == [] then [] else cited[0] + AllOf(cited[1..])
  }

  lemma {:induction false} KeptFirst(ns: seq<nat>, max: nat)
    requires ns != []
    ensures Kept(ns, max) == (if 1 <= ns[0] <= max then [ns[0]] else []) + Kept(ns[1..], max)
  {
    var l := |ns| - 1;
    if l > 0 {
      KeptFirst(ns[..l], max);
      assert ns[..l][1..] == ns[1..][..l - 1];
    } else {
      assert ns[..l] == [] && ns[1..] == [];
    }
  }

  lemma {:induction false} KeptIsValid(ns: seq<nat>, max: nat)
    ensures Kept(ns, max) == Valid(ns, max)
  {
    if ns != [] {
      KeptFirst(ns, max);
      KeptIsValid(ns[1..], max);
    }
  }

  lemma {:induction false} WrittenFirst(ns: seq<nat>)
    requires ns != []
    ensures Written(ns) == "[" + Dec(ns[0]) + "]" + Written(ns[1..])
  {
    var l := |ns| - 1;
    if l > 0 {
      WrittenFirst(ns[..l]);
      assert ns[..l][1..] == ns[1..][..l - 1];
    } else {
      assert ns[..l] == [] && ns[1..] == [];
    }
  }

  lemma {:induction false} WrittenIsSingly(ns: seq<nat>)
    ensures Written(ns) == Singly(ns)
  {
    if ns != [] {
      WrittenFirst(ns);
      WrittenIsSingly(ns[1..]);
    }
  }

  lemma NoneAtStart(t: string)
    requires MarkerAt(t).None?
    ensures NoMarkerAtStart(t)
  {
    forall k, ns | 0 <= k <= |t| ensures !IsMarker(t[..k], ns) {
      assert t == t[..k] + t[k..];
      MarkerExactly(t[..k], ns, t[k..]);
    }
  }

  lemma ConcatFirst(part: string, parts: seq<string>)
    ensures Concat([part] + parts) == part + Concat(parts)
  {
    assert ([part] + parts)[1..] == parts;
  }

  lemma AllOfFirst(c: seq<nat>, cited: seq<seq<nat>>)
    ensures AllOf([c] + cited) == c + AllOf(cited)
  {
    assert ([c] + cited)[1..] == cited;
  }

  lemma FirstPart(part: string, image: string, c: seq<nat>, parts: seq<string>, images: seq<string>,
                  cited: seq<seq<nat>>, max: nat)
    requires |images| == |cited| == |parts| && IsReplaced(part, Concat(parts), image, c, max)
    ensures ReplacedAt([part] + parts, [image] + images, [c] + cited, max, 0)
  {
    assert ([part] + parts)[1..] == parts;
  }

  lemma LaterPart(part: string, image: string, c: seq<nat>, parts: seq<string>, images: seq<string>,
                  cited: seq<seq<nat>>, max: nat, k: nat)
    requires |images| == |cited| == |parts| && k < |parts| && ReplacedAt(parts, images, cited, max, k)
    ensures ReplacedAt([part] + parts, [image] + images, [c] + cited, max, k + 1)
  {
    assert ([part] + parts)[k + 2..] == parts[k + 1..];
  }

  lemma OneMorePart(part: string, image: string, c: seq<nat>, parts: seq<string>, images: seq<string>,
                    cited: seq<seq<nat>>, max: nat)
    requires IsRewriting(parts, images, cited, max) && IsReplaced(part, Concat(parts), image, c, max)
    ensures IsRewriting([part] + parts, [image] + images, [c] + cited, max)
  {
    var ps, im, cs := [part] + parts, [image] + images, [c] + cited;
    FirstPart(part, image, c, parts, images, cited, max);
    forall k | 0 < k < |ps| ensures ReplacedAt(ps, im, cs, max, k) {
      LaterPart(part, image, c, parts, images, cited, max, k - 1);
    }
  }

  lemma MarkerReplaced(s: string, after: string, max: nat) returns (part: string)
    requires MarkerAt(s).Some? && after == MarkerAt(s).value.rest
    ensures var kept := Kept(MarkerAt(s).value.numbers, max);
            s == part + after && |after| < |s| && IsReplaced(part, after, Written(kept), kept, max)
  {
    var ns := MarkerAt(s).value.numbers;
    part := ParsedIsMarker(s);
    KeptIsValid(ns, max);
    WrittenIsSingly(Kept(ns, max));
  }

  /** The whole substitution: reading from the left, each marker gives way to single markers of the included
      passages it names and everything else stays; and those are the citations. */
  lemma {:induction false} RewrittenExactly(answer: string, max: nat)
    returns (parts: seq<string>, images: seq<string>, cited: seq<seq<nat>>)
    ensures IsRewriting(parts, images, cited, max) && Concat(parts) == answer
    ensures Concat(images) == Spell(PiecesOfAnswer(answer, max)) && AllOf(cited) == Marks(PiecesOfAnswer(answer, max))
    decreases |answer|
  {
    if answer == "" {
      parts, images, cited := [], [], [];
    } else if MarkerAt(answer).Some? {
      var rest, kept := MarkerAt(answer).value.rest, Kept(MarkerAt(answer).value.numbers, max);
      var part := MarkerReplaced(answer, rest, max);
      var ps, im, cs := RewrittenExactly(rest, max);
      PiecesFromMarker(answer, max);
      parts, images, cited := OnePartMore(part, Written(kept), kept, ps, im, cs, max);
    } else {
      var part := [answer[0]];
      assert answer == part + answer[1..];
      NoneAtStart(answer);
      var ps, im, cs := RewrittenExactly(answer[1..], max);
      PiecesFromChar(answer, max);
      parts, images, cited := OnePartMore(part, part, [], ps, im, cs, max);
    }
  }

  lemma OnePartMore(part: string, image: string, c: seq<nat>, ps: seq<string>, im: seq<string>, cs: seq<seq<nat>>,
                    max: nat) returns (parts: seq<string>, images: seq<string>, cited: seq<seq<nat>>)
    requires IsRewriting(ps, im, cs, max) && IsReplaced(part, Concat(ps), image, c, max)
    ensures IsRewriting(parts, images, cited, max)
    ensures Concat(parts) == part + Concat(ps) && Concat(images) == image + Concat(im)
    ensures AllOf(cited) == c + AllOf(cs)
  {
    parts, images, cited := [part] + ps, [image] + im, [c] + cs;
    OneMorePart(part, image, c, ps, im, cs, max);
    ConcatFirst(part, ps);
    ConcatFirst(image, im);
    AllOfFirst(c, cs);
  }

  // ---- the clean-up

  /** `c` is `t` with each run of blanks gone before a stop, kept if it is one blank, one space if it is more. */
  predicate Respaced(t: string, c: string)
    decreases |t|
  {
    var r := BlankRun(t);
    if t == "" then c == ""
    else if r == 0 then c != "" && c[0] == t[0] && Respaced(t[1..], c[1..])
    else if r < |t| && IsStop(t[r]) then Respaced(t[r..], c)
    else c != "" && c[0] == (if r == 1 then t[0] else ' ') && Respaced(t[r..], c[1..])
  }

  lemma CollapseAfter(run: string, rest: string)
    requires run != "" && (forall i :: 0 <= i < |run| ==> IsBlank(run[i])) && BlankRun(rest) == 0
    ensures CollapseRuns(run + rest) == (if |run| >= 2 then " " else run) + CollapseRuns(rest)
  {
    RunThenRest(run, rest);
    assert (run + rest)[..|run|] == run && (run + rest)[|run|..] == rest;
  }

  lemma CollapseChar(c: char, rest: string)
    requires !IsBlank(c)
    ensures CollapseRuns([c] + rest) == [c] + CollapseRuns(rest)
  {
    assert ([c] + rest)[1..] == rest;
  }

  lemma {:induction false} RunsAreRespaced(t: string)
    ensures Respaced(t, CollapseRuns(DropBeforeStops(t)))
    decreases |t|
  {
    var r := BlankRun(t);
    if t == "" {
    } else if r == 0 {
      RunsAreRespaced(t[1..]);
      CollapseChar(t[0], DropBeforeStops(t[1..]));
    } else {
      RunsAreRespaced(t[r..]);
      if r == |t| || !IsStop(t[r]) {
        DroppedBeforeStops(t[r..]);
        CollapseAfter(t[..r], DropBeforeStops(t[r..]));
        FirstOfRun(t, r, CollapseRuns(DropBeforeStops(t[r..])));
      }
    }
  }

  lemma FirstOfRun(t: string, r: nat, rest: string)
    requires 0 < r <= |t|
    ensures var c := (if r >= 2 then " " else t[..r]) + rest; c[0] == (if r == 1 then t[0] else ' ') && c[1..] == rest
  {
  }

  lemma InThree(s: string, a: nat, b: nat)
    requires a <= b <= |s|
    ensures s == s[..a] + s[a..b] + s[b..]
  {
  }

  lemma StripExactly(c: string) returns (before: string, after: string)
    ensures c == before + Strip(c) + after && Spaces(before) && Spaces(after)
  {
    var a := SkipSpace(c, 0, |c|);
    var b := TrimEnd(c, a, |c|);
    before, after := c[..a], c[b..];
    InThree(c, a, b);
  }

  /** Cleaning up changes runs of blanks as said and takes whitespace off the ends; nothing else. */
  lemma TidyUpExactly(t: string) returns (before: string, c: string, after: string)
    ensures Respaced(t, c) && c == before + TidyUp(t) + after && Spaces(before) && Spaces(after)
  {
    c := CollapseRuns(DropBeforeStops(t));
    RunsAreRespaced(t);
    before, after := StripExactly(c);
  }
}
