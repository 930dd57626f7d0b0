/** Characters, stripping, and spans that cover a text up to whitespace. */
module Text {
  /** One whitespace predicate for `str.isspace`, `str.strip` and `\s`, on the ASCII range. */
  predicate IsSpace(c: char) {
    9 <= c as int <= 13 || 28 <= c as int <= 32
  }

  predicate IsUpper(c: char) { 'A' <= c <= 'Z' }

  predicate IsLower(c: char) { 'a' <= c <= 'z' }

  predicate AllSpace(text: string, lo: nat, hi: nat)
    requires hi <= |text|
  {
    forall p :: lo <= p < hi ==> IsSpace(text[p])
  }

  /** The first position from `i` that is not whitespace, or `end`. */
  function SkipSpace(text: string, i: nat, end: nat): (r: nat)
    requires i <= end <= |text|
    ensures i <= r <= end && AllSpace(text, i, r) && (r < end ==> !IsSpace(text[r]))
    decreases end - i
  {
    if i < end && IsSpace(text[i]) then SkipSpace(text, i + 1, end) else i
  }

  /** The end of `text[lo..end]` without its trailing whitespace. */
  function TrimEnd(text: string, lo: nat, end: nat): (r: nat)
    requires lo <= end <= |text|
    ensures lo <= r <= end && AllSpace(text, r, end) && (lo < r ==> !IsSpace(text[r - 1]))
    decreases end - lo
  {
    if lo < end && IsSpace(text[end - 1]) then TrimEnd(text, lo, end - 1) else end
  }

  /** `str.strip`: what is dropped at either end is whitespace, what stays starts and ends with text. */
  function Strip(s: string): (r: string)
    ensures r != [] ==> !IsSpace(r[0]) && !IsSpace(r[|r| - 1])
  {
    var a := SkipSpace(s, 0, |s|);
    s[a..TrimEnd(s, a, |s|)]
  }

  // ---- spans that cover

  datatype Span = Span(start: nat, end: nat)

  /** The spans lie in order in [lo, hi), none is empty, and everything between them is whitespace. */
  predicate Tiles(text: string, spans: seq<Span>, lo: nat, hi: nat)
    requires lo <= hi <= |text|
  {
    if spans == [] then AllSpace(text, lo, hi)
    else
      && lo <= spans[0].start < spans[0].end <= hi
      && AllSpace(text, lo, spans[0].start)
      && Tiles(text, spans[1..], spans[0].end, hi)
  }

  lemma {:induction false} TilesWiden(text: string, spans: seq<Span>, lo': nat, lo: nat, hi: nat, hi': nat)
    requires lo' <= lo <= hi <= hi' <= |text|
    requires Tiles(text, spans, lo, hi) && AllSpace(text, lo', lo) && AllSpace(text, hi, hi')
    ensures Tiles(text, spans, lo', hi')
  {
    if spans == [] {
    } else {
      TilesWiden(text, spans[1..], spans[0].end, spans[0].end, hi, hi');
    }
  }

  lemma {:induction false} TilesConcat(text: string, a: seq<Span>, b: seq<Span>, lo: nat, mid: nat, hi: nat)
    requires lo <= mid <= hi <= |text|
    requires Tiles(text, a, lo, mid) && Tiles(text, b, mid, hi)
    ensures Tiles(text, a + b, lo, hi)
  {
    if a == [] {
      assert a + b == b;
      TilesWiden(text, b, lo, mid, hi, hi);
    } else {
      TilesConcat(text, a[1..], b, a[0].end, mid, hi);
      assert (a + b)[1..] == a[1..] + b;
    }
  }

  lemma {:induction false} TilesBounds(text: string, spans: seq<Span>, lo: nat, hi: nat, i: nat)
    requires lo <= hi <= |text| && Tiles(text, spans, lo, hi) && i < |spans|
    ensures lo <= spans[i].start < spans[i].end <= hi
    ensures i + 1 < |spans| ==> spans[i].end <= spans[i + 1].start
  {
    if i == 0 {
    } else {
      TilesBounds(text, spans[1..], spans[0].end, hi, i - 1);
    }
  }

  lemma {:induction false} TilesOrdered(text: string, spans: seq<Span>, lo: nat, hi: nat, i: nat, j: nat)
    requires lo <= hi <= |text| && Tiles(text, spans, lo, hi) && i < j < |spans|
    ensures spans[i].end <= spans[j].start
  {
    if i > 0 {
      TilesOrdered(text, spans[1..], spans[0].end, hi, i - 1, j - 1);
    } else {
      TilesBounds(text, spans[1..], spans[0].end, hi, j - 1);
    }
  }

  lemma {:induction false} TilesPrefix(text: string, spans: seq<Span>, lo: nat, hi: nat, b: nat)
    requires lo <= hi <= |text| && Tiles(text, spans, lo, hi) && 0 < b <= |spans|
    ensures lo <= spans[b - 1].end <= |text|
    ensures Tiles(text, spans[..b], lo, spans[b - 1].end)
  {
    assert spans[..b][1..] == spans[1..][..b - 1];
    if b > 1 {
      TilesPrefix(text, spans[1..], spans[0].end, hi, b - 1);
    } else {
      assert spans[..1][1..] == [];
    }
  }

  /** All but the last span cover what lies before it. */
  lemma {:induction false} TilesInit(text: string, spans: seq<Span>, lo: nat, hi: nat)
    requires lo <= hi <= |text| && Tiles(text, spans, lo, hi) && spans != []
    ensures lo <= spans[|spans| - 1].start <= |text|
    ensures Tiles(text, spans[..|spans| - 1], lo, spans[|spans| - 1].start)
  {
    if |spans| <= 1 {
    } else {
      TilesInit(text, spans[1..], spans[0].end, hi);
      assert spans[..|spans| - 1][1..] == spans[1..][..|spans| - 2];
    }
  }

  lemma {:induction false} TilesSuffix(text: string, spans: seq<Span>, lo: nat, hi: nat, a: nat)
    requires lo <= hi <= |text| && Tiles(text, spans, lo, hi) && a < |spans|
    ensures spans[a].start <= hi && Tiles(text, spans[a..], spans[a].start, hi)
  {
    if a > 0 {
      TilesSuffix(text, spans[1..], spans[0].end, hi, a - 1);
      assert spans[1..][a - 1..] == spans[a..];
    } else {
      assert spans[0..] == spans;
    }
  }

  /** A run of consecutive spans covers what lies between its ends. */
  lemma TilesSlice(text: string, spans: seq<Span>, lo: nat, hi: nat, a: nat, b: nat)
    requires lo <= hi <= |text| && Tiles(text, spans, lo, hi) && a < b <= |spans|
    ensures spans[a].start <= spans[b - 1].end <= |text|
    ensures Tiles(text, spans[a..b], spans[a].start, spans[b - 1].end)
  {
    TilesSuffix(text, spans, lo, hi, a);
    TilesPrefix(text, spans[a..], spans[a].start, hi, b - a);
    assert spans[a..][..b - a] == spans[a..b];
  }

  /** The span a non-whitespace character lies in. */
  lemma {:induction false} SpanOf(text: string, spans: seq<Span>, lo: nat, hi: nat, p: nat) returns (k: nat)
    requires lo <= hi <= |text| && Tiles(text, spans, lo, hi)
    requires lo <= p < hi && !IsSpace(text[p])
    ensures k < |spans| && spans[k].start <= p < spans[k].end
  {
    if p < spans[0].end {
      k := 0;
    } else {
      var k' := SpanOf(text, spans[1..], spans[0].end, hi, p);
      k := k' + 1;
    }
  }

  lemma OneSpanOnly(text: string, spans: seq<Span>, lo: nat, hi: nat, p: nat, j: nat, k: nat)
    requires lo <= hi <= |text| && Tiles(text, spans, lo, hi)
    requires j < |spans| && spans[j].start <= p < spans[j].end
    requires k < |spans| && spans[k].start <= p < spans[k].end
    ensures j == k
  {
    if j < k { TilesOrdered(text, spans, lo, hi, j, k); }
    if k < j { TilesOrdered(text, spans, lo, hi, k, j); }
  }

  /** Covering is invariant under moving the text. */
  function Shift(spans: seq<Span>, off: nat): (r: seq<Span>)
    ensures |r| == |spans| && forall i :: 0 <= i < |r| ==> r[i] == Span(spans[i].start + off, spans[i].end + off)
  {
    seq(|spans|, i requires 0 <= i < |spans| => Span(spans[i].start + off, spans[i].end + off))
  }

  lemma {:induction false} TilesShift(text: string, spans: seq<Span>, lo: nat, full: string, at: nat)
    requires at + |text| <= |full| && full[at..at + |text|] == text
    requires lo <= |text| && Tiles(text, spans, lo, |text|)
    ensures Tiles(full, Shift(spans, at), at + lo, at + |text|)
  {
    assert forall p :: 0 <= p < |text| ==> full[at + p] == text[p];
    if spans == [] {
      forall p | at + lo <= p < at + |text| ensures IsSpace(full[p]) { assert full[p] == text[p - at]; }
    } else {
      TilesShift(text, spans[1..], spans[0].end, full, at);
      assert Shift(spans, at)[1..] == Shift(spans[1..], at);
      forall p | at + lo <= p < at + spans[0].start ensures IsSpace(full[p]) { assert full[p] == text[p - at]; }
    }
  }
}
