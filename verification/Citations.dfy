/** Verification of the model's citation markers, and what the client makes of the verified answer. */
module Citations {
  import opened Values
  import opened Text
  import opened Markers

  // ---- the marker expression  \[(\d+(?:\s*,\s*\d+)*)\]

  predicate IsSuffix(r: string, t: string) {
    |r| <= |t| && t[|t| - |r|..] == r
  }

  lemma SuffixOfSuffix(a: string, b: string, c: string)
    requires IsSuffix(a, b) && IsSuffix(b, c)
    ensures IsSuffix(a, c)
  {
    assert c[|c| - |b|..][|b| - |a|..] == c[|c| - |a|..];
  }

  function SkipSpaces(t: string): (r: string)
    ensures |r| <= |t| && (r != "" ==> !IsSpace(r[0]))
  {
    if t == "" || !IsSpace(t[0]) then t else SkipSpaces(t[1..])
  }

  /** Where the next number would start, past `\s*,\s*`. */
  function PastComma(t: string): (r: Option<string>)
    ensures r.Some? ==> |r.value| < |t|
  {
    var u := SkipSpaces(t);
    if u != "" && u[0] == ',' then Some(SkipSpaces(u[1..])) else None
  }

  /** A marker's numbers, and the text after it. */
  datatype Match = Match(numbers: seq<nat>, rest: string)

  /** What follows the opening bracket: numbers separated by commas, then the closing bracket. */
  function ParseTail(t: string): (m: Option<Match>)
    ensures m.Some? ==> |m.value.rest| < |t| && m.value.numbers != []
    decreases |t|
  {
    var d := DigitRun(t);
    var u := t[d..];
    if d == 0 then None
    else if u != "" && u[0] == ']' then Some(Match([Value(t[..d])], u[1..]))
    else
      var next := PastComma(u);
      if next.None? then None
      else
        var more := ParseTail(next.value);
        if more.None? then None
        else Some(Match([Value(t[..d])] + more.value.numbers, more.value.rest))
  }

  /** The marker a text begins with. */
  function MarkerAt(s: string): (m: Option<Match>)
    ensures m.Some? ==> |m.value.rest| < |s| && m.value.numbers != []
  {
    if s == "" || s[0] != '[' then None else ParseTail(s[1..])
  }

  lemma {:induction false} SkipSpacesIsSuffix(t: string)
    ensures IsSuffix(SkipSpaces(t), t)
  {
    if t == "" || !IsSpace(t[0]) {
      assert t[0..] == t;
    } else {
      SkipSpacesIsSuffix(t[1..]);
      SuffixOfSuffix(SkipSpaces(t), t[1..], t);
    }
  }

  lemma PastCommaIsSuffix(t: string)
    requires PastComma(t).Some?
    ensures IsSuffix(PastComma(t).value, t)
  {
    var u := SkipSpaces(t);
    SkipSpacesIsSuffix(t);
    SkipSpacesIsSuffix(u[1..]);
    SuffixOfSuffix(PastComma(t).value, u[1..], u);
    SuffixOfSuffix(PastComma(t).value, u, t);
  }

  lemma {:induction false} TailRestIsSuffix(t: string)
    requires ParseTail(t).Some?
    ensures IsSuffix(ParseTail(t).value.rest, t)
    decreases |t|
  {
    var rest, u := ParseTail(t).value.rest, t[DigitRun(t)..];
    if u != "" && u[0] == ']' {
      SuffixOfSuffix(rest, u, t);
    } else {
      TailRestIsSuffix(PastComma(u).value);
      PastCommaIsSuffix(u);
      SuffixOfSuffix(rest, PastComma(u).value, u);
      SuffixOfSuffix(rest, u, t);
    }
  }

  lemma MarkerRestIsSuffix(s: string)
    requires MarkerAt(s).Some?
    ensures IsSuffix(MarkerAt(s).value.rest, s)
  {
    TailRestIsSuffix(s[1..]);
    SuffixOfSuffix(MarkerAt(s).value.rest, s[1..], s);
  }

  datatype Token = Lit(c: char) | Cite(numbers: seq<nat>)

  /** Leftmost matches, one after the other. */
  function Tokenize(s: string): seq<Token>
    decreases |s|
  {
    if s == "" then []
    else if MarkerAt(s).Some? then [Cite(MarkerAt(s).value.numbers)] + Tokenize(MarkerAt(s).value.rest)
    else [Lit(s[0])] + Tokenize(s[1..])
  }

  // ---- the rewritten answer

  /** The numbers that name an included passage. */
  function Kept(numbers: seq<nat>, max: nat): (ns: seq<nat>)
    ensures forall n :: n in ns ==> 1 <= n <= max
  {
    if numbers == [] then []
    else
      var l := |numbers| - 1;
      Kept(numbers[..l], max) + if 1 <= numbers[l] <= max then [numbers[l]] else []
  }

  /** A character of the answer, or a marker the server wrote. */
  datatype Piece = Ch(c: char) | Mark(n: nat)

  function MarksFor(ns: seq<nat>): seq<Piece> {
    if ns == [] then [] else MarksFor(ns[..|ns| - 1]) + [Mark(ns[|ns| - 1])]
  }

  function PiecesOf(t: Token, max: nat): seq<Piece> {
    match t
    case Lit(c) => [Ch(c)]
    case Cite(numbers) => MarksFor(Kept(numbers, max))
  }

  function Pieces(ts: seq<Token>, max: nat): seq<Piece> {
    if ts == [] then [] else PiecesOf(ts[0], max) + Pieces(ts[1..], max)
  }

  function SpellOne(p: Piece): string {
    match p
    case Ch(c) => [c]
    case Mark(n) => "[" + Dec(n) + "]"
  }

  function Spell(ps: seq<Piece>): string {
    if ps == [] then "" else SpellOne(ps[0]) + Spell(ps[1..])
  }

  function Marks(ps: seq<Piece>): seq<nat> {
    if ps == [] then [] else (if ps[0].Mark? then [ps[0].n] else []) + Marks(ps[1..])
  }

  /** Distinct values in order of first appearance. */
  function FirstSeen(ns: seq<nat>): seq<nat> {
    if ns == [] then []
    else
      var l := |ns| - 1;
      var before := FirstSeen(ns[..l]);
      if ns[l] in before then before else before + [ns[l]]
  }

  function PiecesOfAnswer(answer: string, max: nat): seq<Piece> {
    Pieces(Tokenize(answer), max)
  }

  lemma SpellFirst(p: Piece, ps: seq<Piece>)
    ensures Spell([p] + ps) == SpellOne(p) + Spell(ps)
    ensures Marks([p] + ps) == (if p.Mark? then [p.n] else []) + Marks(ps)
  {
    assert ([p] + ps)[1..] == ps;
  }

  lemma HeadFirst<T>(a: seq<T>, b: seq<T>)
    requires a != []
    ensures a + b == [a[0]] + (a[1..] + b)
  {
  }

  lemma Regrouped<T>(a: seq<T>, b: seq<T>, c: seq<T>)
    ensures a + (b + c) == (a + b) + c
  {
  }

  lemma {:induction false} SpellConcat(a: seq<Piece>, b: seq<Piece>)
    ensures Spell(a + b) == Spell(a) + Spell(b) && Marks(a + b) == Marks(a) + Marks(b)
  {
    if a == [] {
      assert a + b == b;
    } else {
      SpellConcat(a[1..], b);
      HeadFirst(a, b);
      SpellFirst(a[0], a[1..] + b);
      Regrouped(SpellOne(a[0]), Spell(a[1..]), Spell(b));
      Regrouped(if a[0].Mark? then [a[0].n] else [], Marks(a[1..]), Marks(b));
    }
  }

  /** One number of a match: kept markers are written out and remembered once. */
  method TakeNumber(n: nat, max: nat, before: string, known: seq<nat>) returns (out: string, seen: seq<nat>)
    ensures out == before + (if 1 <= n <= max then "[" + Dec(n) + "]" else "")
    ensures seen == if 1 <= n <= max && n !in known then known + [n] else known
  {
    out, seen := before, known;
    if 1 <= n <= max {
      out := out + ("[" + Dec(n) + "]");
      if n !in seen { seen := seen + [n]; }
    }
  }

  function Written(ns: seq<nat>): string {
    if ns == [] then "" else Written(ns[..|ns| - 1]) + ("[" + Dec(ns[|ns| - 1]) + "]")
  }

  lemma SpellSingle(p: Piece)
    ensures Spell([p]) == SpellOne(p) && Marks([p]) == if p.Mark? then [p.n] else []
  {
    assert [p][1..] == [];
  }

  lemma MarkPushed(ps: seq<Piece>, n: nat)
    ensures Spell(ps + [Mark(n)]) == Spell(ps) + ("[" + Dec(n) + "]") && Marks(ps + [Mark(n)]) == Marks(ps) + [n]
  {
    SpellConcat(ps, [Mark(n)]);
    SpellSingle(Mark(n));
  }

  lemma {:induction false} WrittenIsSpelled(ns: seq<nat>)
    ensures Spell(MarksFor(ns)) == Written(ns) && Marks(MarksFor(ns)) == ns
  {
    if ns == [] {
    } else {
      var init, last := ns[..|ns| - 1], ns[|ns| - 1];
      WrittenIsSpelled(init);
      MarkPushed(MarksFor(init), last);
      assert ns == init + [last];
    }
  }

  lemma FirstSeenPush(ns: seq<nat>, n: nat)
    ensures FirstSeen(ns + [n]) == if n in FirstSeen(ns) then FirstSeen(ns) else FirstSeen(ns) + [n]
  {
    assert (ns + [n])[..|ns|] == ns;
  }

  /** The replacement callback of one match. */
  method ReplaceMatch(numbers: seq<nat>, max: nat, known: seq<nat>, ghost done: seq<nat>)
    returns (out: string, seen: seq<nat>)
    requires known == FirstSeen(done)
    ensures out == Written(Kept(numbers, max)) && seen == FirstSeen(done + Kept(numbers, max))
  {
    out, seen := "", known;
    assert done + [] == done;
    for i := 0 to |numbers|
      invariant out == Written(Kept(numbers[..i], max)) && seen == FirstSeen(done + Kept(numbers[..i], max))
    {
      OneMoreNumber(numbers, max, i, done);
      out, seen := TakeNumber(numbers[i], max, out, seen);
    }
    assert numbers[..|numbers|] == numbers;
  }

  /** One more number of a match, and what it adds. */
  lemma OneMoreNumber(numbers: seq<nat>, max: nat, i: nat, done: seq<nat>)
    requires i < |numbers|
    ensures var n, kept, more := numbers[i], Kept(numbers[..i], max), Kept(numbers[..i + 1], max);
            && Written(more) == Written(kept) + (if 1 <= n <= max then "[" + Dec(n) + "]" else "")
            && FirstSeen(done + more) ==
                 if 1 <= n <= max && n !in FirstSeen(done + kept) then FirstSeen(done + kept) + [n]
                 else FirstSeen(done + kept)
  {
    var n, kept := numbers[i], Kept(numbers[..i], max);
    assert numbers[..i + 1][..i] == numbers[..i];
    if 1 <= n <= max {
      assert (kept + [n])[..|kept|] == kept;
      assert (done + kept) + [n] == done + (kept + [n]);
      FirstSeenPush(done + kept, n);
    } else {
      assert kept + [] == kept;
    }
  }

  /** Rewritten so far, with what is still to come. */
  ghost predicate RewrittenUpTo(answer: string, max: nat, i: nat, out: string, done: seq<nat>) {
    && i <= |answer|
    && Spell(PiecesOfAnswer(answer, max)) == out + Spell(PiecesOfAnswer(answer[i..], max))
    && Marks(PiecesOfAnswer(answer, max)) == done + Marks(PiecesOfAnswer(answer[i..], max))
  }

  lemma PiecesFromMarker(s: string, max: nat)
    requires MarkerAt(s).Some?
    ensures var m := MarkerAt(s).value;
            && Spell(PiecesOfAnswer(s, max)) == Written(Kept(m.numbers, max)) + Spell(PiecesOfAnswer(m.rest, max))
            && Marks(PiecesOfAnswer(s, max)) == Kept(m.numbers, max) + Marks(PiecesOfAnswer(m.rest, max))
  {
    var m := MarkerAt(s).value;
    var kept := Kept(m.numbers, max);
    var ts := Tokenize(s);
    assert ts[0] == Cite(m.numbers) && ts[1..] == Tokenize(m.rest);
    WrittenIsSpelled(kept);
    SpellConcat(PiecesOf(ts[0], max), Pieces(ts[1..], max));
  }

  lemma PiecesFromChar(s: string, max: nat)
    requires s != "" && MarkerAt(s).None?
    ensures Spell(PiecesOfAnswer(s, max)) == [s[0]] + Spell(PiecesOfAnswer(s[1..], max))
    ensures Marks(PiecesOfAnswer(s, max)) == Marks(PiecesOfAnswer(s[1..], max))
  {
    var ts := Tokenize(s);
    assert ts[0] == Lit(s[0]) && ts[1..] == Tokenize(s[1..]);
    var ps := Pieces(ts, max);
    assert ps[0] == Ch(s[0]) && ps[1..] == Pieces(ts[1..], max);
  }

  lemma Advance<T>(all: seq<T>, out: seq<T>, here: seq<T>, piece: seq<T>, rest: seq<T>)
    requires all == out + here && here == piece + rest
    ensures all == (out + piece) + rest
  {
  }

  /** Where the text after a match starts in the whole answer. */
  lemma RestPosition(answer: string, i: nat)
    requires i < |answer| && MarkerAt(answer[i..]).Some?
    ensures IsSuffix(MarkerAt(answer[i..]).value.rest, answer)
  {
    MarkerRestIsSuffix(answer[i..]);
    assert IsSuffix(answer[i..], answer);
    SuffixOfSuffix(MarkerAt(answer[i..]).value.rest, answer[i..], answer);
  }

  lemma StepOverMarker(answer: string, max: nat, i: nat, out: string, done: seq<nat>, m: Match, next: nat)
    requires i < |answer| && MarkerAt(answer[i..]) == Some(m) && RewrittenUpTo(answer, max, i, out, done)
    requires next == |answer| - |m.rest|
    ensures RewrittenUpTo(answer, max, next, out + Written(Kept(m.numbers, max)), done + Kept(m.numbers, max))
  {
    PiecesFromMarker(answer[i..], max);
    RestPosition(answer, i);
    var kept := Kept(m.numbers, max);
    var all, here, rest := PiecesOfAnswer(answer, max), PiecesOfAnswer(answer[i..], max), PiecesOfAnswer(m.rest, max);
    Advance(Spell(all), out, Spell(here), Written(kept), Spell(rest));
    Advance(Marks(all), done, Marks(here), kept, Marks(rest));
  }

  lemma StepOverChar(answer: string, max: nat, i: nat, out: string, done: seq<nat>)
    requires i < |answer| && MarkerAt(answer[i..]).None? && RewrittenUpTo(answer, max, i, out, done)
    ensures RewrittenUpTo(answer, max, i + 1, out + [answer[i]], done)
  {
    PiecesFromChar(answer[i..], max);
    assert answer[i..][1..] == answer[i + 1..];
    var all, here, rest := PiecesOfAnswer(answer, max), PiecesOfAnswer(answer[i..], max),
      PiecesOfAnswer(answer[i + 1..], max);
    Advance(Spell(all), out, Spell(here), [answer[i]], Spell(rest));
  }

  method ReplaceAt(answer: string, max: nat, i: nat, before: string, known: seq<nat>, ghost done: seq<nat>)
      returns (out: string, seen: seq<nat>, next: nat, ghost found: seq<nat>)
    requires i < |answer| && MarkerAt(answer[i..]).Some?
    requires RewrittenUpTo(answer, max, i, before, done) && known == FirstSeen(done)
    ensures i < next && RewrittenUpTo(answer, max, next, out, found) && seen == FirstSeen(found)
  {
    var m := MarkerAt(answer[i..]).value;
    var text := "";
    text, seen := ReplaceMatch(m.numbers, max, known, done);
    out, next, found := before + text, |answer| - |m.rest|, done + Kept(m.numbers, max);
    StepOverMarker(answer, max, i, before, done, m, next);
  }

  /** The substitution: one pass over the matches, then the whitespace clean-up. */
  method ParseCitations(answer: string, max: nat) returns (cleaned: string, seen: seq<nat>)
    ensures cleaned == TidyUp(Spell(PiecesOfAnswer(answer, max)))
    ensures seen == FirstSeen(Marks(PiecesOfAnswer(answer, max)))
  {
    var out, i: nat := "", 0;
    seen := [];
    ghost var done: seq<nat> := [];
    assert answer[0..] == answer;
    while i < |answer|
      invariant RewrittenUpTo(answer, max, i, out, done) && seen == FirstSeen(done)
      decreases |answer| - i
    {
      if MarkerAt(answer[i..]).Some? {
        out, seen, i, done := ReplaceAt(answer, max, i, out, seen, done);
      } else {
        StepOverChar(answer, max, i, out, done);
        out, i := out + [answer[i]], i + 1;
      }
    }
    assert answer[|answer|..] == "";
    assert out + "" == out && done + [] == done;
    cleaned := TidyUp(out);
  }
}
