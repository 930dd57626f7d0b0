/** Packing the units of one section into chunks: greedy, with overlap carried from the newly consumed
    units only and shed from the front when it would break the budget. */
module Packing {
  import opened Text
  import opened Units

  /** Tokens of the units from `a` up to `b`. */
  function Cost(us: seq<Unit>, a: nat, b: nat): nat
    requires a <= b <= |us|
    decreases b
  {
    if a == b then 0 else Cost(us, a, b - 1) + us[b - 1].tokens
  }

  lemma {:induction false} CostSplit(us: seq<Unit>, a: nat, m: nat, b: nat)
    requires a <= m <= b <= |us|
    ensures Cost(us, a, b) == Cost(us, a, m) + Cost(us, m, b)
    decreases b
  {
    if m == b {
    } else {
      CostSplit(us, a, m, b - 1);
    }
  }

  lemma CostFront(us: seq<Unit>, a: nat, b: nat)
    requires a < b <= |us|
    ensures Cost(us, a, b) == us[a].tokens + Cost(us, a + 1, b)
  {
    CostSplit(us, a, a + 1, b);
  }

  /** One chunk: units `from..to`, of which `from..first` are carried over and `first..to` are new. */
  datatype Run = Run(from: nat, first: nat, to: nat)

  /** Drop carried units from the front until the next new unit fits beside the rest. */
  function Shed(us: seq<Unit>, a: nat, i: nat, target: nat): (r: nat)
    requires a <= i < |us|
    ensures a <= r <= i
    decreases i - a
  {
    if a < i && Cost(us, a, i) + us[i].tokens > target then Shed(us, a + 1, i, target) else a
  }

  /** Take units while they fit. */
  function Fill(us: seq<Unit>, a: nat, j: nat, target: nat): (r: nat)
    requires a <= j <= |us|
    ensures j <= r <= |us|
    decreases |us| - j
  {
    if j < |us| && Cost(us, a, j) + us[j].tokens <= target then Fill(us, a, j + 1, target) else j
  }

  /** The longest proper suffix of the new units `n..b` within the overlap budget, found from the end. */
  function Carry(us: seq<Unit>, n: nat, p: nat, b: nat, budget: nat): (r: nat)
    requires n < p <= b <= |us|
    ensures n < r <= p
    decreases p
  {
    if p - 1 > n && Cost(us, p - 1, b) <= budget then Carry(us, n, p - 1, b, budget) else p
  }

  function NextCarry(us: seq<Unit>, r: Run, budget: nat): nat
    requires r.first < r.to <= |us|
  {
    if r.to == |us| then r.to else Carry(us, r.first, r.to, r.to, budget)
  }

  function NextRun(us: seq<Unit>, a: nat, i: nat, target: nat): (r: Run)
    requires a <= i < |us|
    ensures a <= r.from <= r.first == i < r.to <= |us|
  {
    var f := Shed(us, a, i, target);
    Run(f, i, Fill(us, f, i + 1, target))
  }

  /** All chunks from unit `i` on, with units `a..i` carried over. */
  function Runs(us: seq<Unit>, a: nat, i: nat, target: nat, budget: nat): seq<Run>
    requires a <= i <= |us|
    decreases |us| - i
  {
    if i == |us| then []
    else
      var r := NextRun(us, a, i, target);
      [r] + Runs(us, NextCarry(us, r, budget), r.to, target, budget)
  }

  // ---- what a run satisfies

  /** The carried part is within the overlap budget, and it is the longest part that could have been:
      starting any earlier would break one of the two budgets. */
  predicate CarriedRight(us: seq<Unit>, r: Run, low: nat, target: nat, budget: nat)
    requires low <= r.from <= r.first < r.to <= |us|
  {
    && Cost(us, r.from, r.first) <= budget
    && (r.from < r.first ==> Cost(us, r.from, r.first) + us[r.first].tokens <= target)
    && forall g :: low <= g < r.from ==>
         Cost(us, g, r.first) > budget || Cost(us, g, r.first) + us[r.first].tokens > target
  }

  /** No further unit would have fitted. */
  predicate Maximal(us: seq<Unit>, r: Run, target: nat)
    requires r.from <= r.first < r.to <= |us|
  {
    r.to < |us| ==> Cost(us, r.from, r.to) + us[r.to].tokens > target
  }

  /** Chunks in a row: each starts its new units where the previous ended, and carries only units that
      were new in the previous one, never its first. */
  ghost predicate GoodRuns(us: seq<Unit>, runs: seq<Run>, low: nat, i: nat, target: nat, budget: nat) {
    if runs == [] then i == |us|
    else
      var r := runs[0];
      && low <= r.from <= r.first == i < r.to <= |us|
      && CarriedRight(us, r, low, target, budget)
      && Maximal(us, r, target)
      && ((forall k :: 0 <= k < |us| ==> us[k].tokens <= target) ==> Cost(us, r.from, r.to) <= target)
      && GoodRuns(us, runs[1..], r.first + 1, r.to, target, budget)
  }

  lemma {:induction false} ShedFits(us: seq<Unit>, a: nat, i: nat, target: nat)
    requires a <= i < |us|
    ensures var r := Shed(us, a, i, target);
            && (r < i ==> Cost(us, r, i) + us[i].tokens <= target)
            && forall g :: a <= g < r ==> Cost(us, g, i) + us[i].tokens > target
    decreases i - a
  {
    if a == i || Cost(us, a, i) + us[i].tokens <= target {
    } else {
      ShedFits(us, a + 1, i, target);
    }
  }

  lemma {:induction false} FillFits(us: seq<Unit>, a: nat, j: nat, target: nat)
    requires a <= j <= |us|
    ensures var r := Fill(us, a, j, target);
            && (r < |us| ==> Cost(us, a, r) + us[r].tokens > target)
            && (Cost(us, a, j) <= target ==> Cost(us, a, r) <= target)
    decreases |us| - j
  {
    if j == |us| || Cost(us, a, j) + us[j].tokens > target {
    } else {
      FillFits(us, a, j + 1, target);
    }
  }

  lemma {:induction false} CostShrinks(us: seq<Unit>, g: nat, h: nat, b: nat)
    requires g <= h <= b <= |us|
    ensures Cost(us, h, b) <= Cost(us, g, b)
  {
    CostSplit(us, g, h, b);
  }

  lemma {:induction false} CarryLongest(us: seq<Unit>, n: nat, p: nat, b: nat, budget: nat)
    requires n < p <= b <= |us| && Cost(us, p, b) <= budget
    ensures var r := Carry(us, n, p, b, budget);
            && Cost(us, r, b) <= budget
            && forall g :: n < g < r ==> Cost(us, g, b) > budget
    decreases p
  {
    if p - 1 > n && Cost(us, p - 1, b) <= budget {
      CarryLongest(us, n, p - 1, b, budget);
    } else {
      forall g | n < g < p ensures Cost(us, g, b) > budget {
        CostShrinks(us, g, p - 1, b);
      }
    }
  }

  lemma ShedCarriedRight(us: seq<Unit>, low: nat, a: nat, i: nat, target: nat, budget: nat)
    requires low <= a <= i < |us| && Cost(us, a, i) <= budget
    requires forall g :: low <= g < a ==> Cost(us, g, i) > budget
    ensures CarriedRight(us, NextRun(us, a, i, target), low, target, budget)
  {
    ShedFits(us, a, i, target);
    CostShrinks(us, a, Shed(us, a, i, target), i);
  }

  lemma RunWithinBudget(us: seq<Unit>, a: nat, i: nat, target: nat)
    requires a <= i < |us| && us[i].tokens <= target
    ensures var r := NextRun(us, a, i, target); Cost(us, r.from, r.to) <= target
  {
    ShedFits(us, a, i, target);
    var f := Shed(us, a, i, target);
    assert Cost(us, f, i + 1) == Cost(us, f, i) + us[i].tokens;
    FillFits(us, f, i + 1, target);
  }

  lemma RunMaximal(us: seq<Unit>, a: nat, i: nat, target: nat)
    requires a <= i < |us|
    ensures Maximal(us, NextRun(us, a, i, target), target)
  {
    FillFits(us, Shed(us, a, i, target), i + 1, target);
  }

  lemma FirstRunIsGood(us: seq<Unit>, low: nat, a: nat, i: nat, target: nat, budget: nat)
    requires low <= a <= i < |us| && Cost(us, a, i) <= budget
    requires forall g :: low <= g < a ==> Cost(us, g, i) > budget
    ensures var r := NextRun(us, a, i, target);
            && low <= r.from <= r.first == i < r.to <= |us|
            && CarriedRight(us, r, low, target, budget) && Maximal(us, r, target)
            && (us[i].tokens <= target ==> Cost(us, r.from, r.to) <= target)
  {
    ShedCarriedRight(us, low, a, i, target, budget);
    RunMaximal(us, a, i, target);
    if us[i].tokens <= target { RunWithinBudget(us, a, i, target); }
  }

  lemma {:induction false} RunsAreGood(us: seq<Unit>, low: nat, a: nat, i: nat, target: nat, budget: nat)
    requires low <= a <= i <= |us| && Cost(us, a, i) <= budget
    requires forall g :: low <= g < a ==> Cost(us, g, i) > budget
    ensures GoodRuns(us, Runs(us, a, i, target, budget), low, i, target, budget)
    decreases |us| - i
  {
    if i == |us| {
    } else {
      var r := NextRun(us, a, i, target);
      FirstRunIsGood(us, low, a, i, target, budget);
      var c := NextCarry(us, r, budget);
      if r.to < |us| {
        CarryLongest(us, r.first, r.to, r.to, budget);
        RunsAreGood(us, r.first + 1, c, r.to, target, budget);
      } else {
        assert Runs(us, c, r.to, target, budget) == [];
      }
      assert Runs(us, a, i, target, budget)[1..] == Runs(us, c, r.to, target, budget);
    }
  }

  function SectionRuns(us: seq<Unit>, target: nat, budget: nat): seq<Run> {
    Runs(us, 0, 0, target, budget)
  }

  lemma SectionRunsAreGood(us: seq<Unit>, target: nat, budget: nat)
    ensures GoodRuns(us, SectionRuns(us, target, budget), 0, 0, target, budget)
  {
    RunsAreGood(us, 0, 0, 0, target, budget);
  }

  // ---- by position

  lemma {:induction false} RunAt(us: seq<Unit>, runs: seq<Run>, low: nat, i: nat, target: nat, budget: nat, k: nat)
    requires GoodRuns(us, runs, low, i, target, budget) && k < |runs|
    ensures runs[k].from <= runs[k].first < runs[k].to <= |us|
    ensures low <= runs[k].from && i <= runs[k].first
    ensures k == 0 ==> runs[k].first == i
    ensures Cost(us, runs[k].from, runs[k].first) <= budget
    ensures Maximal(us, runs[k], target)
    ensures (forall j :: 0 <= j < |us| ==> us[j].tokens <= target) ==> Cost(us, runs[k].from, runs[k].to) <= target
    ensures k + 1 < |runs| ==>
              && runs[k + 1].first == runs[k].to
              && runs[k].first < runs[k + 1].from <= runs[k + 1].first < runs[k + 1].to <= |us|
              && CarriedRight(us, runs[k + 1], runs[k].first + 1, target, budget)
    ensures k + 1 == |runs| ==> runs[k].to == |us|
  {
    if k == 0 {
    } else {
      RunAt(us, runs[1..], runs[0].first + 1, runs[0].to, target, budget, k - 1);
    }
  }

  lemma {:induction false} RunsApart(us: seq<Unit>, runs: seq<Run>, low: nat, i: nat, target: nat, budget: nat, j: nat,
                                     k: nat)
    requires GoodRuns(us, runs, low, i, target, budget) && j < k < |runs|
    ensures runs[j].to <= runs[k].first
    ensures runs[j].from < runs[k].from
    ensures j + 1 < k ==> runs[j].to <= runs[k].from
    decreases k - j
  {
    RunAt(us, runs, low, i, target, budget, j);
    RunAt(us, runs, low, i, target, budget, k - 1);
    if k <= j + 1 {
    } else {
      RunsApart(us, runs, low, i, target, budget, j, k - 1);
    }
  }

  predicate Holds(r: Run, u: nat) {
    r.from <= u < r.to
  }

  /** The chunk that consumes unit `u` as a new one. */
  lemma {:induction false} OwnerOf(us: seq<Unit>, runs: seq<Run>, low: nat, i: nat, target: nat, budget: nat, u: nat)
    returns (k: nat)
    requires GoodRuns(us, runs, low, i, target, budget) && i <= u < |us|
    ensures k < |runs| && runs[k].first <= u < runs[k].to
  {
    if u < runs[0].to {
      k := 0;
    } else {
      var k' := OwnerOf(us, runs[1..], runs[0].first + 1, runs[0].to, target, budget, u);
      k := k' + 1;
    }
  }

  /** Every unit is in one chunk or in two consecutive ones, and in exactly one of them as a new unit. */
  lemma UnitInOneOrTwoChunks(us: seq<Unit>, target: nat, budget: nat, u: nat) returns (k: nat)
    requires u < |us|
    ensures var runs := SectionRuns(us, target, budget);
            && k < |runs| && runs[k].first <= u < runs[k].to
            && forall j :: 0 <= j < |runs| && Holds(runs[j], u) ==> j == k || j == k + 1
  {
    var runs := SectionRuns(us, target, budget);
    SectionRunsAreGood(us, target, budget);
    k := OwnerOf(us, runs, 0, 0, target, budget, u);
    forall j | 0 <= j < |runs| && Holds(runs[j], u) ensures j == k || j == k + 1 {
      if j < k { RunsApart(us, runs, 0, 0, target, budget, j, k); }
      if k + 1 < j { RunsApart(us, runs, 0, 0, target, budget, k, j); }
    }
  }

  // ---- conservation

  function TotalCost(us: seq<Unit>, runs: seq<Run>): nat {
    if runs == [] then 0
    else
      (if runs[0].from <= runs[0].to <= |us| then Cost(us, runs[0].from, runs[0].to) else 0) + TotalCost(us, runs[1..])
  }

  lemma {:induction false} TotalFrom(us: seq<Unit>, runs: seq<Run>, low: nat, i: nat, target: nat, budget: nat)
    requires GoodRuns(us, runs, low, i, target, budget) && i <= |us|
    ensures TotalCost(us, runs) <= Cost(us, i, |us|) + |runs| * budget
    ensures runs != [] && runs[0].from == runs[0].first ==>
            TotalCost(us, runs) <= Cost(us, i, |us|) + (|runs| - 1) * budget
  {
    if runs == [] {
    } else {
      var r := runs[0];
      TotalFrom(us, runs[1..], r.first + 1, r.to, target, budget);
      CostSplit(us, r.from, r.first, r.to);
      CostSplit(us, i, r.to, |us|);
      assert (|runs| - 1) * budget + budget == |runs| * budget;
    }
  }

  /** All chunks together cost at most the units plus one overlap budget per chunk after the first. */
  lemma OverlapIsBounded(us: seq<Unit>, target: nat, budget: nat)
    requires us != []
    ensures var runs := SectionRuns(us, target, budget);
            runs != [] && Cost(us, 0, |us|) <= TotalCost(us, runs) <= Cost(us, 0, |us|) + (|runs| - 1) * budget
  {
    var runs := SectionRuns(us, target, budget);
    SectionRunsAreGood(us, target, budget);
    assert runs[0].from == runs[0].first == 0;
    TotalFrom(us, runs, 0, 0, target, budget);
    TotalAtLeast(us, runs, 0, 0, target, budget);
  }

  lemma {:induction false} TotalAtLeast(us: seq<Unit>, runs: seq<Run>, low: nat, i: nat, target: nat, budget: nat)
    requires GoodRuns(us, runs, low, i, target, budget) && i <= |us|
    ensures Cost(us, i, |us|) <= TotalCost(us, runs)
  {
    if runs == [] {
    } else {
      var r := runs[0];
      TotalAtLeast(us, runs[1..], r.first + 1, r.to, target, budget);
      CostSplit(us, r.from, r.first, r.to);
      CostSplit(us, i, r.to, |us|);
    }
  }

  /** With a subadditive counter a recount of consecutive units is at most their sum. */
  lemma {:induction false} RecountWithinSum(text: string, us: seq<Unit>, a: nat, b: nat, lo: nat, hi: nat,
                                            count: string -> nat)
    requires a < b <= |us| && lo <= hi <= |text| && Tiles(text, UnitSpans(us), lo, hi)
    requires Subadditive(count) && forall k :: 0 <= k < |us| ==> Covers(text, us[k], count)
    ensures us[a].start <= us[b - 1].end <= |text|
    ensures count(text[us[a].start..us[b - 1].end]) <= Cost(us, a, b)
    decreases b
  {
    TilesBounds(text, UnitSpans(us), lo, hi, a);
    if b == a + 1 {
      assert Cost(us, a, a) == 0;
    } else {
      RecountWithinSum(text, us, a, b - 1, lo, hi, count);
      NeighbourUnits(text, us, lo, hi, b - 2);
      JoinedCost(text, count, us[a].start, us[b - 2].end, us[b - 1].start, us[b - 1].end);
    }
  }

  lemma NeighbourUnits(text: string, us: seq<Unit>, lo: nat, hi: nat, i: nat)
    requires lo <= hi <= |text| && Tiles(text, UnitSpans(us), lo, hi) && i + 1 < |us|
    ensures us[i].start <= us[i].end <= us[i + 1].start <= us[i + 1].end <= |text|
    ensures AllSpace(text, us[i].end, us[i + 1].start)
  {
    TilesBounds(text, UnitSpans(us), lo, hi, i);
    TilesBounds(text, UnitSpans(us), lo, hi, i + 1);
    GapIsSpace(text, UnitSpans(us), lo, hi, i);
  }

  lemma {:induction false} GapIsSpace(text: string, spans: seq<Span>, lo: nat, hi: nat, i: nat)
    requires lo <= hi <= |text| && Tiles(text, spans, lo, hi) && i + 1 < |spans|
    ensures spans[i].end <= spans[i + 1].start <= |text| && AllSpace(text, spans[i].end, spans[i + 1].start)
  {
    if i == 0 {
    } else {
      GapIsSpace(text, spans[1..], spans[0].end, hi, i - 1);
    }
  }
}
