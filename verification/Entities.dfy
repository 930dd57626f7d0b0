/** Entity overlap of two documents: weighted Jaccard over the entities' inverse document frequencies. */
module Entities {
  import opened Values
  import opened Sums

  /** Normalized text and label. */
  type Key = (string, string)

  type Mentions = map<Key, nat>

  const MAX_SHARED_ENTITIES := 25

  datatype SharedEntity = SharedEntity(key: Key, idf: real, countA: nat, countB: nat)

  datatype EntityOverlap = EntityOverlap(score: real, shared: seq<SharedEntity>)

  // ---- document frequency

  ghost function Having(docs: map<DocId, Mentions>, among: set<DocId>, k: Key): set<DocId> {
    set d | d in among && d in docs && k in docs[d]
  }

  /** `df` counts, for every entity seen, the documents of `among` that mention it. */
  ghost predicate Counts(df: map<Key, nat>, docs: map<DocId, Mentions>, among: set<DocId>) {
    forall k :: (k in df <==> Having(docs, among, k) != {}) && (k in df ==> df[k] == |Having(docs, among, k)|)
  }

  /** Half-way through document `d`: its entities other than `left` are counted. */
  ghost predicate CountsPartly(df: map<Key, nat>, before: map<Key, nat>, seen: set<Key>) {
    forall k :: (k in df <==> k in before || k in seen)
      && (k in df ==> df[k] == (if k in before then before[k] else 0) + if k in seen then 1 else 0)
  }

  method CountDocument(before: map<Key, nat>, keys: set<Key>) returns (df: map<Key, nat>)
    ensures CountsPartly(df, before, keys)
  {
    df := before;
    var left := keys;
    while left != {}
      invariant left <= keys && CountsPartly(df, before, keys - left)
      decreases left
    {
      var k :| k in left;
      left := left - {k};
      df := df[k := (if k in df then df[k] else 0) + 1];
    }
  }

  lemma OneMoreDocument(df: map<Key, nat>, before: map<Key, nat>, docs: map<DocId, Mentions>, among: set<DocId>,
                        d: DocId)
    requires d in docs && d !in among && Counts(before, docs, among) && CountsPartly(df, before, docs[d].Keys)
    ensures Counts(df, docs, among + {d})
  {
    forall k
      ensures (k in df <==> Having(docs, among + {d}, k) != {}) && (k in df ==> df[k] == |Having(docs, among + {d}, k)|)
    {
      var had := Having(docs, among, k);
      if k in docs[d] {
        assert Having(docs, among + {d}, k) == had + {d};
      } else {
        assert Having(docs, among + {d}, k) == had;
      }
    }
  }

  method CountDocuments(docs: map<DocId, Mentions>) returns (df: map<Key, nat>)
    ensures Counts(df, docs, docs.Keys)
  {
    df := map[];
    var left := docs.Keys;
    while left != {}
      invariant left <= docs.Keys && Counts(df, docs, docs.Keys - left)
      decreases left
    {
      var d :| d in left;
      ghost var done := docs.Keys - left;
      left := left - {d};
      var more := CountDocument(df, docs[d].Keys);
      OneMoreDocument(more, df, docs, done, d);
      assert done + {d} == docs.Keys - left;
      df := more;
    }
    assert docs.Keys - left == docs.Keys;
  }

  // ---- the score

  /** Weighted Jaccard of two sets of entities. */
  ghost function Jaccard(a: set<Key>, b: set<Key>, idf: Key -> real): real {
    if Sum(a + b, idf) > 0.0 then Sum(a * b, idf) / Sum(a + b, idf) else 0.0
  }

  lemma QuotientMeaning(x: real, y: real)
    requires 0.0 <= x <= y && y > 0.0
    ensures 0.0 <= x / y <= 1.0 && (x / y == 0.0 <==> x == 0.0) && (x / y == 1.0 <==> x == y)
  {
    assert x / y * y == x;
  }

  /** Symmetric, within [0, 1], a true zero exactly when nothing is shared, and one exactly when both
      documents have the same, non-empty, entities. */
  lemma JaccardMeaning(a: set<Key>, b: set<Key>, idf: Key -> real)
    requires forall k :: k in a + b ==> idf(k) > 0.0
    ensures Jaccard(b, a, idf) == Jaccard(a, b, idf)
    ensures 0.0 <= Jaccard(a, b, idf) <= 1.0
    ensures Jaccard(a, b, idf) == 0.0 <==> a !! b
    ensures Jaccard(a, b, idf) == 1.0 <==> a == b && a != {}
  {
    var rest := (a + b) - a * b;
    assert b + a == a + b && b * a == a * b;
    assert a + b == a * b + rest;
    SumOfParts(a * b, rest, idf);
    SumNonNegative(a * b, idf);
    SumNonNegative(rest, idf);
    SumNonNegative(a + b, idf);
    assert rest == {} <==> a == b;
    if a + b != {} {
      QuotientMeaning(Sum(a * b, idf), Sum(a + b, idf));
    }
  }

  // ---- the evidence

  predicate LexLeq(s: string, t: string) {
    s == "" || (t != "" && (s[0] < t[0] || (s[0] == t[0] && LexLeq(s[1..], t[1..]))))
  }

  lemma {:induction false} LexTotal(s: string, t: string)
    ensures LexLeq(s, t) || LexLeq(t, s)
  {
    if s == "" || t == "" {
    } else {
      LexTotal(s[1..], t[1..]);
    }
  }

  lemma {:induction false} LexTransitive(s: string, t: string, u: string)
    requires LexLeq(s, t) && LexLeq(t, u)
    ensures LexLeq(s, u)
  {
    if s == "" || s[0] != t[0] || t[0] != u[0] {
    } else {
      LexTransitive(s[1..], t[1..], u[1..]);
    }
  }

  predicate SmallerAt(s: string, t: string, k: nat) {
    k < |s| && k < |t| && s[..k] == t[..k] && s[k] < t[k]
  }

  lemma SameUpToThere(s: string, t: string, k: nat)
    requires SmallerAt(s, t, k)
    ensures k > 0 ==> s[0] == t[0]
  {
    if k > 0 { assert s[..k][0] == t[..k][0]; }
  }

  lemma SmallerOneOn(s: string, t: string, k: nat)
    requires s != "" && t != "" && s[0] == t[0]
    ensures SmallerAt(s, t, k + 1) <==> SmallerAt(s[1..], t[1..], k)
  {
    if k < |s| - 1 && k < |t| - 1 {
      assert s[..k + 1] == [s[0]] + s[1..][..k] && t[..k + 1] == [t[0]] + t[1..][..k];
    }
  }

  lemma SmallerSomewhere(s: string, t: string)
    requires s != "" && t != "" && s[0] == t[0]
    ensures (exists k: nat :: SmallerAt(s, t, k)) <==> exists k: nat :: SmallerAt(s[1..], t[1..], k)
  {
    if k: nat :| SmallerAt(s, t, k) {
      assert k > 0 by { assert s[0] == t[0]; }
      SmallerOneOn(s, t, k - 1);
    }
    if k: nat :| SmallerAt(s[1..], t[1..], k) { SmallerOneOn(s, t, k); }
  }

  /** Texts compare at the first place where they differ; one that runs out there comes first. */
  lemma {:induction false} LexExactly(s: string, t: string)
    ensures LexLeq(s, t) <==> s <= t || exists k: nat :: SmallerAt(s, t, k)
  {
    if s == "" || t == "" {
    } else if s[0] != t[0] {
      if s[0] < t[0] { assert SmallerAt(s, t, 0); }
      forall k: nat | SmallerAt(s, t, k) ensures k == 0 { SameUpToThere(s, t, k); }
    } else {
      LexExactly(s[1..], t[1..]);
      SmallerSomewhere(s, t);
    }
  }

  /** The sort key `(-idf, text)`, over the weights as shown: rounded. */
  predicate Precedes(k: Key, l: Key, shown: Key -> real) {
    shown(k) > shown(l) || (shown(k) == shown(l) && LexLeq(k.0, l.0))
  }

  predicate Ranked(keys: seq<Key>, shown: Key -> real) {
    forall i, j :: 0 <= i < j < |keys| ==> Precedes(keys[i], keys[j], shown)
  }

  function Entry(k: Key, a: Mentions, b: Mentions, shown: Key -> real): SharedEntity
    requires k in a && k in b
  {
    SharedEntity(k, shown(k), a[k], b[k])
  }

  /** The first entries of the shared entities' ranking; ties on both are in no set order. */
  ghost predicate IsShared(shared: seq<SharedEntity>, a: Mentions, b: Mentions, shown: Key -> real) {
    exists keys: seq<Key> :: IsSharedOf(shared, keys, a, b, shown)
  }

  ghost predicate IsSharedOf(shared: seq<SharedEntity>, keys: seq<Key>, a: Mentions, b: Mentions, shown: Key -> real) {
    && Distinct(keys) && Ranked(keys, shown)
    && (forall k :: k in keys <==> k in a && k in b)
    && |shared| == (if |keys| < MAX_SHARED_ENTITIES then |keys| else MAX_SHARED_ENTITIES)
    && forall t :: 0 <= t < |shared| ==> shared[t] == Entry(keys[t], a, b, shown)
  }

  /** The score uses the weights themselves, the evidence the weights as shown. */
  ghost predicate IsEntityOverlap(o: EntityOverlap, a: Mentions, b: Mentions, idf: Key -> real, shown: Key -> real) {
    o.score == Jaccard(a.Keys, b.Keys, idf) && IsShared(o.shared, a, b, shown)
  }

  function FlipShared(shared: seq<SharedEntity>): seq<SharedEntity> {
    seq(|shared|, t requires 0 <= t < |shared| => shared[t].(countA := shared[t].countB, countB := shared[t].countA))
  }

  lemma SharedFlips(shared: seq<SharedEntity>, a: Mentions, b: Mentions, shown: Key -> real)
    requires IsShared(shared, a, b, shown)
    ensures IsShared(FlipShared(shared), b, a, shown)
  {
    var keys :| IsSharedOf(shared, keys, a, b, shown);
    assert IsSharedOf(FlipShared(shared), keys, b, a, shown);
  }

  /** Read the other way round, an overlap has the same score and its counts exchanged. */
  lemma EntityOverlapFlips(o: EntityOverlap, a: Mentions, b: Mentions, idf: Key -> real, shown: Key -> real)
    requires IsEntityOverlap(o, a, b, idf, shown)
    ensures IsEntityOverlap(o.(shared := FlipShared(o.shared)), b, a, idf, shown)
  {
    SharedFlips(o.shared, a, b, shown);
    assert a.Keys + b.Keys == b.Keys + a.Keys && a.Keys * b.Keys == b.Keys * a.Keys;
  }

  // ---- scoring, step by step

  method InsertRanked(keys: seq<Key>, k: Key, shown: Key -> real) returns (out: seq<Key>, ghost at: nat)
    requires Ranked(keys, shown)
    ensures at <= |keys| && out == keys[..at] + [k] + keys[at..] && Ranked(out, shown)
  {
    var i := 0;
    while i < |keys| && Precedes(keys[i], k, shown)
      invariant i <= |keys| && forall j :: 0 <= j < i ==> Precedes(keys[j], k, shown)
    {
      i := i + 1;
    }
    at := i;
    out := keys[..i] + [k] + keys[i..];
    forall j | i <= j < |keys| ensures Precedes(k, keys[j], shown) {
      LexTotal(keys[i].0, k.0);
      if i < j && shown(k) == shown(keys[i]) == shown(keys[j]) { LexTransitive(k.0, keys[i].0, keys[j].0); }
    }
  }

  method RankShared(shared: set<Key>, shown: Key -> real) returns (keys: seq<Key>)
    ensures Distinct(keys) && Ranked(keys, shown) && forall k :: k in keys <==> k in shared
  {
    keys := [];
    var left := shared;
    while left != {}
      invariant left <= shared && Distinct(keys) && Ranked(keys, shown)
      invariant forall k :: k in keys <==> k in shared - left
      decreases left
    {
      var k :| k in left;
      left := left - {k};
      ghost var before := keys;
      ghost var at: nat := 0;
      keys, at := InsertRanked(keys, k, shown);
      InsertedOnce(before, k, at);
    }
  }

  method Weigh(keys: set<Key>, idf: Key -> real) returns (total: real)
    ensures total == Sum(keys, idf)
  {
    total := 0.0;
    var left := keys;
    while left != {}
      invariant left <= keys && total + Sum(left, idf) == Sum(keys, idf)
      decreases left
    {
      var k :| k in left;
      SumTakesOut(left, idf, k);
      left := left - {k};
      total := total + idf(k);
    }
  }

  method Score(a: Mentions, b: Mentions, idf: Key -> real, shown: Key -> real) returns (o: EntityOverlap)
    ensures IsEntityOverlap(o, a, b, idf, shown)
  {
    var union, common := a.Keys + b.Keys, a.Keys * b.Keys;
    if union == {} {
      assert IsSharedOf([], [], a, b, shown);
      return EntityOverlap(0.0, []);
    }
    var commonIdf := Weigh(common, idf);
    var unionIdf := Weigh(union, idf);
    var score := if unionIdf > 0.0 then commonIdf / unionIdf else 0.0;
    var keys := RankShared(common, shown);
    var n := if |keys| < MAX_SHARED_ENTITIES then |keys| else MAX_SHARED_ENTITIES;
    assert forall t :: 0 <= t < |keys| ==> keys[t] in keys;
    var shared := seq(n, t requires 0 <= t < n => Entry(keys[t], a, b, shown));
    assert IsSharedOf(shared, keys, a, b, shown);
    o := EntityOverlap(score, shared);
  }

  function MentionsOf(docs: map<DocId, Mentions>, d: DocId): Mentions {
    if d in docs then docs[d] else map[]
  }

  function Weights(idf: map<Key, real>): Key -> real {
    (k: Key) => if k in idf then idf[k] else 0.0
  }

  /** The weights as they are shown; `round` rounds to four places. */
  function Shown(idf: map<Key, real>, round: real -> real): Key -> real {
    (k: Key) => round(Weights(idf)(k))
  }

  /** `log(1 + N / df)` for every entity of the corpus. */
  ghost predicate IsIdf(idf: map<Key, real>, docs: map<DocId, Mentions>, ln: real -> real) {
    forall k :: (k in idf <==> Having(docs, docs.Keys, k) != {})
      && (k in idf ==> |Having(docs, docs.Keys, k)| > 0
                       && idf[k] == ln(1.0 + |docs| as real / |Having(docs, docs.Keys, k)| as real))
  }

  /** Fitted on the whole corpus; then scores any two of its documents. */
  class EntityScorer {
    const docs: map<DocId, Mentions>
    const idf: map<Key, real>
    const round: real -> real

    constructor (docs: map<DocId, Mentions>, ln: real -> real, round: real -> real)
      ensures this.docs == docs && this.round == round && IsIdf(idf, docs, ln)
    {
      var df := CountDocuments(docs);
      this.docs, this.round := docs, round;
      this.idf := map k | k in df :: ln(1.0 + |docs| as real / df[k] as real);
    }

    method ScorePair(a: DocId, b: DocId) returns (o: EntityOverlap)
      ensures IsEntityOverlap(o, MentionsOf(docs, a), MentionsOf(docs, b), Weights(idf), Shown(idf, round))
    {
      o := Score(MentionsOf(docs, a), MentionsOf(docs, b), Weights(idf), Shown(idf, round));
    }
  }

  /** The corpus determines the weights. */
  lemma IdfUnique(idf: map<Key, real>, idf': map<Key, real>, docs: map<DocId, Mentions>, ln: real -> real)
    requires IsIdf(idf, docs, ln) && IsIdf(idf', docs, ln)
    ensures idf == idf'
  {
  }

  /** The smoothing keeps every weight positive, also for an entity that every document mentions. */
  lemma WeightsPositive(idf: map<Key, real>, docs: map<DocId, Mentions>, ln: real -> real, d: DocId, k: Key)
    requires IsIdf(idf, docs, ln) && (forall x :: x > 1.0 ==> ln(x) > 0.0)
    requires k in MentionsOf(docs, d)
    ensures Weights(idf)(k) > 0.0
  {
    var having := Having(docs, docs.Keys, k);
    assert d in having;
    assert |docs.Keys| > 0 by { assert d in docs.Keys; }
    assert |docs| as real / |having| as real > 0.0;
  }

  lemma QuotientIs(x: real, n: real, total: real)
    requires n > 0.0 && x * n == total
    ensures total / n == x
  {
    assert (x - total / n) * n == 0.0;
  }

  /** An entity that one in `x` documents mentions weighs `ln(1 + x)`. */
  lemma IdfMeaning(idf: map<Key, real>, docs: map<DocId, Mentions>, ln: real -> real, k: Key, x: real)
    requires IsIdf(idf, docs, ln) && k in idf
    requires x * |set d | d in docs && k in docs[d]| as real == |docs| as real
    ensures idf[k] == ln(1.0 + x)
  {
    assert (set d | d in docs && k in docs[d]) == Having(docs, docs.Keys, k);
    QuotientIs(x, |Having(docs, docs.Keys, k)| as real, |docs| as real);
  }

  lemma PositiveFactor(x: real, y: real)
    requires y > 0.0 && x * y > 0.0
    ensures x > 0.0
  {
  }

  lemma LessShared(total: real, few: real, many: real)
    requires total > 0.0 && 0.0 < few < many
    ensures total / few > total / many
  {
    var x, y := total / few, total / many;
    assert x * few == total && y * many == total;
    PositiveFactor(y, many);
    assert (x - y) * few == y * (many - few);
    PositiveFactor(x - y, few);
  }

  /** The fewer documents mention it, the more it weighs. */
  lemma RarerWeighsMore(idf: map<Key, real>, docs: map<DocId, Mentions>, ln: real -> real, k: Key, l: Key)
    requires IsIdf(idf, docs, ln) && k in idf && l in idf && forall x, y :: x < y ==> ln(x) < ln(y)
    requires |set d | d in docs && k in docs[d]| < |set d | d in docs && l in docs[d]|
    ensures idf[k] > idf[l]
  {
    var few, many := Having(docs, docs.Keys, k), Having(docs, docs.Keys, l);
    assert (set d | d in docs && k in docs[d]) == few && (set d | d in docs && l in docs[d]) == many;
    assert |docs.Keys| > 0 by { assert many <= docs.Keys && many != {}; }
    LessShared(|docs| as real, |few| as real, |many| as real);
  }
}
