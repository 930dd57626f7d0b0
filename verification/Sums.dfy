/** Finite sums over sets and the one fact the scoring needs: two best-k choices have the same total. */
module Sums {
  ghost function Sum<T(!new)>(s: set<T>, f: T -> real): real {
    if s == {} then 0.0
    else
      var x :| x in s;
      f(x) + Sum(s - {x}, f)
  }

  lemma {:induction false} SumTakesOut<T(!new)>(s: set<T>, f: T -> real, x: T)
    requires x in s
    ensures Sum(s, f) == f(x) + Sum(s - {x}, f)
    decreases |s|
  {
    var y :| y in s && Sum(s, f) == f(y) + Sum(s - {y}, f);
    if y == x {
    } else {
      SumTakesOut(s - {y}, f, x);
      SumTakesOut(s - {x}, f, y);
      assert s - {y} - {x} == s - {x} - {y};
    }
  }

  lemma {:induction false} SumOfParts<T(!new)>(a: set<T>, b: set<T>, f: T -> real)
    requires a !! b
    ensures Sum(a + b, f) == Sum(a, f) + Sum(b, f)
    decreases |a|
  {
    if a == {} {
      assert a + b == b;
    } else {
      var x :| x in a;
      SumTakesOut(a, f, x);
      SumTakesOut(a + b, f, x);
      assert a + b - {x} == (a - {x}) + b;
      SumOfParts(a - {x}, b, f);
    }
  }

  lemma {:induction false} SumNonNegative<T(!new)>(s: set<T>, f: T -> real)
    requires forall x :: x in s ==> f(x) > 0.0
    ensures Sum(s, f) >= 0.0 && (Sum(s, f) == 0.0 <==> s == {})
    decreases |s|
  {
    if s == {} {
    } else {
      var x :| x in s;
      SumTakesOut(s, f, x);
      SumNonNegative(s - {x}, f);
    }
  }

  lemma {:induction false} SumTransfers<S(!new), T(!new)>(s: set<S>, f: S -> real, t: set<T>, g: T -> real, to: S -> T)
    requires forall x :: x in s ==> to(x) in t && g(to(x)) == f(x)
    requires forall x, y :: x in s && y in s && to(x) == to(y) ==> x == y
    requires forall z :: z in t ==> exists x :: x in s && to(x) == z
    ensures Sum(s, f) == Sum(t, g)
    decreases |s|
  {
    if s == {} {
      assert t == {};
    } else {
      var x :| x in s;
      SumTakesOut(s, f, x);
      SumTakesOut(t, g, to(x));
      forall z | z in t - {to(x)} ensures exists y :: y in s - {x} && to(y) == z {
        var y :| y in s && to(y) == z;
        assert y in s - {x};
      }
      SumTransfers(s - {x}, f, t - {to(x)}, g, to);
    }
  }

  /** No one left out beats one chosen. */
  ghost predicate Best<T(!new)>(all: set<T>, chosen: set<T>, f: T -> real) {
    && chosen <= all
    && forall x, y :: x in chosen && y in all - chosen ==> f(y) <= f(x)
  }

  lemma SwapKeepsBest<T(!new)>(all: set<T>, chosen: set<T>, f: T -> real, x: T, y: T)
    requires Best(all, chosen, f) && x in chosen && y in all - chosen && f(x) == f(y)
    ensures Best(all, chosen - {x} + {y}, f)
  {
  }

  /** Best choices of the same size have the same total, however ties were broken. */
  lemma {:induction false} BestTotalsAgree<T(!new)>(all: set<T>, a: set<T>, b: set<T>, f: T -> real)
    requires Best(all, a, f) && Best(all, b, f) && |a| == |b|
    ensures Sum(a, f) == Sum(b, f)
    decreases |a - b|
  {
    if a == b {
    } else {
      SameSizeDiffer(a, b);
      var x, y :| x in a - b && y in b - a;
      var c := a - {x} + {y};
      SwapKeepsBest(all, a, f, x, y);
      SumTakesOut(a, f, x);
      SumTakesOut(c, f, y);
      assert c - {y} == a - {x};
      assert c - b == (a - b) - {x};
      BestTotalsAgree(all, c, b, f);
    }
  }

  lemma SameSizeDiffer<T>(a: set<T>, b: set<T>)
    requires |a| == |b| && a != b
    ensures a - b != {} && b - a != {}
  {
    assert a == (a - b) + (a * b) && b == (b - a) + (a * b);
    assert |a| == |a - b| + |a * b| && |b| == |b - a| + |a * b|;
  }
}
