/** The BM25 corpus and the snapshot searchers read. The ranking formula is not modelled. */
module Bm25 {
  import opened Values
  import opened World

  datatype Entry = Entry(chunk: ChunkId, tokens: seq<string>)

  // ---- what the tokens of a text are

  function Lowered(s: string): string {
    seq(|s|, i requires 0 <= i < |s| => Lower(s[i]))
  }

  /** Gaps and tokens taking turns, a gap at either end. */
  function Woven(gaps: seq<string>, tokens: seq<string>): string
    requires |gaps| == |tokens| + 1
  {
    if tokens == [] then gaps[0] else gaps[0] + (tokens[0] + Woven(gaps[1..], tokens[1..]))
  }

  predicate IsToken(t: string) {
    t != "" && forall i :: 0 <= i < |t| ==> IsTokenChar(t[i])
  }

  predicate IsGap(g: string) {
    forall i :: 0 <= i < |g| ==> !IsTokenChar(g[i])
  }

  /** Tokens are the longest stretches of lower-case letters and digits: what lies between two of them is not empty
      and has neither. */
  predicate Tokenizes(gaps: seq<string>, tokens: seq<string>, text: string) {
    && |gaps| == |tokens| + 1 && Woven(gaps, tokens) == text
    && (forall i :: 0 <= i < |tokens| ==> IsToken(tokens[i]))
    && (forall i :: 0 <= i < |gaps| ==> IsGap(gaps[i]))
    && forall i :: 0 < i < |tokens| ==> gaps[i] != ""
  }

  lemma LoweredFirst(s: string)
    requires s != ""
    ensures Lowered(s) == [Lower(s[0])] + Lowered(s[1..])
  {
  }

  lemma WiderGap(c: char, gaps: seq<string>, tokens: seq<string>, text: string)
    requires Tokenizes(gaps, tokens, text) && !IsTokenChar(c)
    ensures Tokenizes([[c] + gaps[0]] + gaps[1..], tokens, [c] + text)
  {
    var wider := [[c] + gaps[0]] + gaps[1..];
    assert wider[1..] == gaps[1..];
  }

  lemma OneMoreToken(t: string, gaps: seq<string>, tokens: seq<string>, text: string)
    requires Tokenizes(gaps, tokens, text) && IsToken(t) && (tokens != [] ==> gaps[0] != "")
    ensures Tokenizes([""] + gaps, [t] + tokens, t + text)
  {
    assert ([""] + gaps)[1..] == gaps && ([t] + tokens)[1..] == tokens;
  }

  function Flushed(run: string): seq<string> {
    if run == "" then [] else [run]
  }

  lemma EndOfText(run: string) returns (gaps: seq<string>)
    requires forall i :: 0 <= i < |run| ==> IsTokenChar(run[i])
    ensures Tokenizes(gaps, Flushed(run), run + "")
  {
    gaps := [""];
    if run != "" {
      OneMoreToken(run, [""], [], "");
      gaps := ["", ""];
      assert [""] + [""] == gaps && [run] + [] == Flushed(run);
    }
  }

  lemma AfterSeparator(c: char, run: string, rest: seq<string>, tokens: seq<string>, text: string)
    returns (gaps: seq<string>)
    requires Tokenizes(rest, tokens, text) && !IsTokenChar(c) && forall i :: 0 <= i < |run| ==> IsTokenChar(run[i])
    ensures Tokenizes(gaps, Flushed(run) + tokens, run + ([c] + text))
  {
    WiderGap(c, rest, tokens, text);
    gaps := [[c] + rest[0]] + rest[1..];
    if run != "" {
      OneMoreToken(run, gaps, tokens, [c] + text);
      gaps := [""] + gaps;
    } else {
      assert run + ([c] + text) == [c] + text && Flushed(run) + tokens == tokens;
    }
  }

  lemma {:induction false} TokensFromExactly(s: string, run: string) returns (gaps: seq<string>)
    requires forall i :: 0 <= i < |run| ==> IsTokenChar(run[i])
    ensures Tokenizes(gaps, TokensFrom(s, run), run + Lowered(s))
    decreases |s|
  {
    if s == "" {
      gaps := EndOfText(run);
    } else if IsTokenChar(Lower(s[0])) {
      LoweredFirst(s);
      gaps := TokensFromExactly(s[1..], run + [Lower(s[0])]);
      assert (run + [Lower(s[0])]) + Lowered(s[1..]) == run + ([Lower(s[0])] + Lowered(s[1..]));
    } else {
      LoweredFirst(s);
      var rest := TokensFromExactly(s[1..], "");
      assert "" + Lowered(s[1..]) == Lowered(s[1..]);
      gaps := AfterSeparator(Lower(s[0]), run, rest, TokensFrom(s[1..], ""), Lowered(s[1..]));
    }
  }

  lemma TokensExactly(s: string) returns (gaps: seq<string>)
    ensures Tokenizes(gaps, Tokenize(s), Lowered(s))
  {
    gaps := TokensFromExactly(s, "");
    assert "" + Lowered(s) == Lowered(s);
  }

  class BM25Index {
    var corpus: map<ChunkId, seq<string>>
    var snapshot: seq<Entry>

    /** The snapshot lists exactly the corpus, each chunk once with its tokens. */
    ghost predicate Valid()
      reads this
    {
      && (forall i, j :: 0 <= i < j < |snapshot| ==> snapshot[i].chunk != snapshot[j].chunk)
      && (forall i :: 0 <= i < |snapshot| ==>
            snapshot[i].chunk in corpus && corpus[snapshot[i].chunk] == snapshot[i].tokens)
      && (forall c :: c in corpus ==> Entry(c, corpus[c]) in snapshot)
    }

    constructor ()
      ensures Valid() && corpus == map[]
    {
      corpus, snapshot := map[], [];
    }

    method Rebuild(items: map<ChunkId, string>)
      modifies this
      ensures Valid() && corpus == Tokenized(items)
    {
      corpus := Tokenized(items);
      Swap();
    }

    method Add(items: map<ChunkId, string>)
      modifies this
      ensures Valid() && corpus == old(corpus) + Tokenized(items)
    {
      corpus := corpus + Tokenized(items);
      Swap();
    }

    method Remove(ids: set<ChunkId>)
      modifies this
      ensures Valid() && corpus == old(corpus) - ids
    {
      corpus := corpus - ids;
      Swap();
    }

    /** The new snapshot is built aside and swapped in whole. */
    method Swap()
      modifies this`snapshot
      ensures Valid()
    {
      var fresh': seq<Entry> := [];
      var left := corpus.Keys;
      while left != {}
        invariant left <= corpus.Keys
        invariant forall i, j :: 0 <= i < j < |fresh'| ==> fresh'[i].chunk != fresh'[j].chunk
        invariant forall i :: 0 <= i < |fresh'| ==>
                    fresh'[i].chunk in corpus && fresh'[i].chunk !in left && corpus[fresh'[i].chunk] == fresh'[i].tokens
        invariant forall c :: c in corpus && c !in left ==> Entry(c, corpus[c]) in fresh'
        decreases left
      {
        var c :| c in left;
        left := left - {c};
        fresh' := fresh' + [Entry(c, corpus[c])];
      }
      snapshot := fresh';
    }
  }
}
