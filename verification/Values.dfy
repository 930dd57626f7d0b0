/** Values shared by every part of the model.
    Identifiers are `uuid4().hex`: fixed-length lower-case hexadecimal, so comparing them as
    strings and comparing them as numbers is the same thing, and `nat` stands for them. */
module Values {
  type DocId = nat
  type ChunkId = nat
  type VectorId = nat
  type Vector = seq<real>

  datatype Option<+T> = None | Some(value: T)

  /** Inner product; on the unit vectors the embedder returns it is the cosine. */
  function Dot(u: Vector, v: Vector): real {
    if |u| == 0 || |v| == 0 then 0.0 else u[0] * v[0] + Dot(u[1..], v[1..])
  }

  lemma {:induction false} DotSymmetric(u: Vector, v: Vector)
    ensures Dot(u, v) == Dot(v, u)
  {
    if |u| == 0 || |v| == 0 {
    } else {
      DotSymmetric(u[1..], v[1..]);
    }
  }

  /** The inner product adds up over the parts of two vectors cut at the same place. */
  lemma {:induction false} DotOfParts(u: Vector, v: Vector, u': Vector, v': Vector)
    requires |u| == |v|
    ensures Dot(u + u', v + v') == Dot(u, v) + Dot(u', v')
  {
    if u == [] {
      assert u + u' == u' && v + v' == v';
    } else {
      assert (u + u')[1..] == u[1..] + u' && (v + v')[1..] == v[1..] + v';
      DotOfParts(u[1..], v[1..], u', v');
    }
  }

  lemma DotOfOne(x: real, y: real)
    ensures Dot([x], [y]) == x * y
  {
    assert Dot([x][1..], [y][1..]) == 0.0;
  }

  predicate Distinct<T(==)>(s: seq<T>) {
    forall i, j :: 0 <= i < j < |s| ==> s[i] != s[j]
  }

  function IndexOf<T(==)>(s: seq<T>, x: T): (i: nat)
    requires x in s
    ensures i < |s| && s[i] == x
  {
    if s[0] == x then 0 else 1 + IndexOf(s[1..], x)
  }

  lemma InsertedOnce<T>(keys: seq<T>, k: T, at: nat)
    requires Distinct(keys) && k !in keys && at <= |keys|
    ensures var out := keys[..at] + [k] + keys[at..]; Distinct(out) && forall x :: x in out <==> x in keys || x == k
  {
    var out := keys[..at] + [k] + keys[at..];
    forall i, j | 0 <= i < j < |out| ensures out[i] != out[j] {
      if i != at && j != at {
        assert out[i] == keys[if i < at then i else i - 1] && out[j] == keys[if j < at then j else j - 1];
      } else if i == at {
        assert out[j] == keys[j - 1];
      } else {
        assert out[i] == keys[i];
      }
    }
    forall x | x in keys ensures x in out {
      var i :| 0 <= i < |keys| && keys[i] == x;
      assert out[if i < at then i else i + 1] == x;
    }
  }

  predicate Comparable(a: set<VectorId>, b: set<VectorId>) {
    a <= b || b <= a
  }

  lemma SubsetOfEqualSize<T>(a: set<T>, b: set<T>)
    requires a <= b && |a| == |b|
    ensures a == b
  {
    assert b == a + (b - a);
    assert |b - a| == 0;
  }

  /** The image of a set under an injective map has the set's size. */
  lemma {:induction false} InjectiveImageSize<A, B>(m: map<A, B>)
    requires forall x, y :: x in m && y in m && m[x] == m[y] ==> x == y
    ensures |m.Values| == |m|
  {
    if m == map[] {
    } else {
      var x :| x in m;
      var rest := m - {x};
      InjectiveImageSize(rest);
      assert m.Values == rest.Values + {m[x]} by {
        forall b | b in m.Values ensures b in rest.Values + {m[x]} {
          var y :| y in m && m[y] == b;
          if y != x { assert y in rest && rest[y] == b; }
        }
        assert forall b :: b in rest.Values ==> exists y :: y in m && m[y] == b;
      }
      assert m[x] !in rest.Values;
      assert |rest| == |m| - 1 by { assert m.Keys == rest.Keys + {x}; }
    }
  }
}
