/**
 Real vectors and matrices as sequences, with the products the attention code uses.
 Reading a coordinate past the end of a vector yields 0, so every product is total; on tensors
 of matching shape that default is never reached.
 */
module Vectors {
  import opened Sequences

  type Vec = seq<real>
  type Mat = seq<Vec>

  function Max(a: real, b: real): real {
    if a >= b then a else b
  }

  function At(v: Vec, i: nat): real {
    if i < |v| then v[i] else 0.0
  }

  function Zeros(n: nat): Vec {
    seq(n, _ => 0.0)
  }

  function Add(a: Vec, b: Vec): (r: Vec)
    ensures |r| == |a|
  {
    seq(|a|, i requires 0 <= i < |a| => a[i] + At(b, i))
  }

  function Times(a: real, b: real): real {
    a * b
  }

  function Scale(c: real, a: Vec): (r: Vec)
    ensures |r| == |a|
  {
    seq(|a|, i requires 0 <= i < |a| => Times(c, a[i]))
  }

  function MatAdd(a: Mat, b: Mat): Mat {
    seq(|a|, i requires 0 <= i < |a| => Add(a[i], if i < |b| then b[i] else []))
  }

  function Sum(a: Vec): real {
    if |a| == 0 then 0.0 else Sum(a[..|a| - 1]) + a[|a| - 1]
  }

  /** Inner product over the common length of the two vectors. */
  function Dot(a: Vec, b: Vec): real {
    if |a| == 0 || |b| == 0 then 0.0 else a[0] * b[0] + Dot(a[1..], b[1..])
  }

  function Col(m: Mat, c: nat): Vec {
    seq(|m|, i requires 0 <= i < |m| => At(m[i], c))
  }

  /** a @ m, a row vector times a matrix with `cols` columns. */
  function VecMat(a: Vec, m: Mat, cols: nat): Vec {
    seq(cols, c requires 0 <= c => Dot(a, Col(m, c)))
  }

  /** transpose(p) @ v, the (rows x cols) sum of outer products. */
  function MatTMul(p: Mat, v: Mat, rows: nat, cols: nat): Mat {
    seq(rows, f requires 0 <= f => seq(cols, d requires 0 <= d => Dot(Col(p, f), Col(v, d))))
  }

  function ColSums(p: Mat, rows: nat): Vec {
    seq(rows, f requires 0 <= f => Sum(Col(p, f)))
  }

  ghost predicate IsMat(m: Mat, rows: nat, cols: nat) {
    |m| == rows && forall i :: 0 <= i < rows ==> |m[i]| == cols
  }

  // ----- sums and inner products -----

  lemma {:induction false} SumAppend(a: Vec, b: Vec)
    ensures Sum(a + b) == Sum(a) + Sum(b)
  {
    if |b| == 0 {
      assert a + b == a;
    } else {
      assert (a + b)[..|a + b| - 1] == a + b[..|b| - 1];
      SumAppend(a, b[..|b| - 1]);
    }
  }

  lemma {:induction false} SumZeros(n: nat)
    ensures Sum(Zeros(n)) == 0.0
  {
    if n > 0 {
      assert Zeros(n)[..n - 1] == Zeros(n - 1);
      SumZeros(n - 1);
    }
  }

  lemma {:induction false} SumNonNegative(a: Vec)
    requires forall i :: 0 <= i < |a| ==> a[i] >= 0.0
    ensures Sum(a) >= 0.0
    ensures forall i :: 0 <= i < |a| ==> a[i] <= Sum(a)
  {
    if |a| > 0 {
      var front := a[..|a| - 1];
      SumNonNegative(front);
      forall i | 0 <= i < |a| ensures a[i] <= Sum(a) {
        if i < |a| - 1 { assert front[i] == a[i]; }
      }
    }
  }

  lemma {:induction false} SumScale(c: real, a: Vec)
    ensures Sum(Scale(c, a)) == c * Sum(a)
  {
    if |a| > 0 {
      assert Scale(c, a)[..|a| - 1] == Scale(c, a[..|a| - 1]);
      SumScale(c, a[..|a| - 1]);
      assert c * Sum(a) == c * Sum(a[..|a| - 1]) + c * a[|a| - 1];
    }
  }

  lemma {:induction false} DotZeroRight(a: Vec, b: Vec)
    requires forall i :: 0 <= i < |b| ==> b[i] == 0.0
    ensures Dot(a, b) == 0.0
  {
    if |a| > 0 && |b| > 0 { DotZeroRight(a[1..], b[1..]); }
  }

  lemma {:induction false} DotZeroLeft(a: Vec, b: Vec)
    requires forall i :: 0 <= i < |a| ==> a[i] == 0.0
    ensures Dot(a, b) == 0.0
  {
    if |a| > 0 && |b| > 0 { DotZeroLeft(a[1..], b[1..]); }
  }

  lemma {:induction false} DotAppend(a: Vec, a': Vec, b: Vec, b': Vec)
    requires |a| == |b|
    ensures Dot(a + a', b + b') == Dot(a, b) + Dot(a', b')
  {
    if |a| == 0 {
      assert a + a' == a' && b + b' == b';
    } else {
      assert (a + a')[1..] == a[1..] + a' && (b + b')[1..] == b[1..] + b';
      DotAppend(a[1..], a', b[1..], b');
    }
  }

  lemma {:induction false} DotAdd(p: Vec, a: Vec, b: Vec)
    requires |a| == |b|
    ensures Dot(p, Add(a, b)) == Dot(p, a) + Dot(p, b)
  {
    if |p| > 0 && |a| > 0 {
      assert Add(a, b)[1..] == Add(a[1..], b[1..]);
      DotAdd(p[1..], a[1..], b[1..]);
      assert p[0] * (a[0] + b[0]) == p[0] * a[0] + p[0] * b[0];
    }
  }

  lemma {:induction false} DotScale(p: Vec, c: real, b: Vec)
    ensures Dot(p, Scale(c, b)) == c * Dot(p, b)
  {
    if |p| > 0 && |b| > 0 {
      assert Scale(c, b)[1..] == Scale(c, b[1..]);
      DotScale(p[1..], c, b[1..]);
      assert p[0] * (c * b[0]) == c * (p[0] * b[0]);
      assert c * Dot(p, b) == c * (p[0] * b[0]) + c * Dot(p[1..], b[1..]);
    }
  }

  lemma {:induction false} DotLast(a: Vec, b: Vec)
    requires |a| == |b| > 0
    ensures Dot(a, b) == Dot(a[..|a| - 1], b[..|b| - 1]) + a[|a| - 1] * b[|b| - 1]
  {
    var n := |a| - 1;
    assert a == a[..n] + [a[n]] && b == b[..n] + [b[n]];
    DotAppend(a[..n], [a[n]], b[..n], [b[n]]);
    assert Dot([a[n]], [b[n]]) == a[n] * b[n] + Dot([], []);
  }

  lemma {:induction false} DotNonNegative(a: Vec, b: Vec)
    requires forall i :: 0 <= i < |a| ==> a[i] >= 0.0
    requires forall i :: 0 <= i < |b| ==> b[i] >= 0.0
    ensures Dot(a, b) >= 0.0
  {
    if |a| > 0 && |b| > 0 {
      DotNonNegative(a[1..], b[1..]);
      assert a[0] * b[0] >= 0.0;
    }
  }

  /** Weights against values bounded by `m` give at most `m` times the total weight. */
  lemma {:induction false} DotBound(a: Vec, b: Vec, z: Vec, m: real)
    requires |a| == |b| == |z|
    requires forall i :: 0 <= i < |a| ==> a[i] >= 0.0
    requires forall i :: 0 <= i < |b| ==> -(m * z[i]) <= b[i] <= m * z[i]
    ensures -(m * Dot(a, z)) <= Dot(a, b) <= m * Dot(a, z)
  {
    if |a| > 0 {
      DotBound(a[1..], b[1..], z[1..], m);
      MulBound(a[0], b[0], m * z[0]);
      assert a[0] * (m * z[0]) == m * (a[0] * z[0]);
      assert m * Dot(a, z) == m * (a[0] * z[0]) + m * Dot(a[1..], z[1..]);
    }
  }

  lemma MulBound(w: real, x: real, bound: real)
    requires w >= 0.0 && -bound <= x <= bound
    ensures -(w * bound) <= w * x <= w * bound
  {
    assert w * (bound - x) >= 0.0;
    assert w * (x + bound) >= 0.0;
  }

  function Ones(n: nat): Vec {
    seq(n, _ => 1.0)
  }

  lemma {:induction false} DotOnes(a: Vec)
    ensures Dot(a, Ones(|a|)) == Sum(a)
  {
    if |a| > 0 {
      assert Ones(|a|)[..|a| - 1] == Ones(|a| - 1);
      DotLast(a, Ones(|a|));
      DotOnes(a[..|a| - 1]);
    }
  }

  // ----- matrices -----

  lemma ColAppend(m: Mat, m': Mat, c: nat)
    ensures Col(m + m', c) == Col(m, c) + Col(m', c)
  {}

  lemma VecMatAppend(a: Vec, a': Vec, m: Mat, m': Mat, cols: nat)
    requires |a| == |m|
    ensures VecMat(a + a', m + m', cols) == Add(VecMat(a, m, cols), VecMat(a', m', cols))
  {
    forall c | 0 <= c < cols
      ensures Dot(a + a', Col(m + m', c)) == Dot(a, Col(m, c)) + Dot(a', Col(m', c))
    {
      ColAppend(m, m', c);
      DotAppend(a, a', Col(m, c), Col(m', c));
    }
  }

  /** Accumulating block after block is one product over the concatenation. */
  lemma MatTMulAppend(p: Mat, p': Mat, v: Mat, v': Mat, rows: nat, cols: nat)
    requires |p| == |v|
    ensures MatTMul(p + p', v + v', rows, cols) == MatAdd(MatTMul(p, v, rows, cols), MatTMul(p', v', rows, cols))
  {
    var left, right := MatTMul(p, v, rows, cols), MatTMul(p', v', rows, cols);
    forall f | 0 <= f < rows
      ensures MatTMul(p + p', v + v', rows, cols)[f] == Add(left[f], right[f])
    {
      forall d | 0 <= d < cols
        ensures Dot(Col(p + p', f), Col(v + v', d)) == left[f][d] + right[f][d]
      {
        ColAppend(p, p', f);
        ColAppend(v, v', d);
        DotAppend(Col(p, f), Col(p', f), Col(v, d), Col(v', d));
      }
    }
  }

  lemma ColSumsAppend(p: Mat, p': Mat, rows: nat)
    ensures ColSums(p + p', rows) == Add(ColSums(p, rows), ColSums(p', rows))
  {
    forall f | 0 <= f < rows
      ensures Sum(Col(p + p', f)) == Sum(Col(p, f)) + Sum(Col(p', f))
    {
      ColAppend(p, p', f);
      SumAppend(Col(p, f), Col(p', f));
    }
  }

  /** The kernel weights of one query against a list of feature vectors. */
  function Kernel(a: Vec, p: Mat): Vec {
    seq(|p|, j requires 0 <= j < |p| => Dot(a, p[j]))
  }

  /** Interchange of sums: a . (sum of columns) == sum of (a . row). */
  lemma {:induction false} DotColSums(a: Vec, p: Mat, rows: nat)
    requires IsMat(p, |p|, rows)
    ensures Dot(a, ColSums(p, rows)) == Sum(Kernel(a, p))
  {
    if |p| == 0 {
      DotZeroRight(a, ColSums(p, rows));
    } else {
      var n := |p| - 1;
      assert p == p[..n] + [p[n]];
      ColSumsAppend(p[..n], [p[n]], rows);
      assert ColSums([p[n]], rows) == p[n] by {
        forall f | 0 <= f < rows ensures Sum(Col([p[n]], f)) == p[n][f] {
          assert Col([p[n]], f) == [p[n][f]];
          assert Sum([p[n][f]]) == Sum([]) + p[n][f];
        }
      }
      DotAdd(a, ColSums(p[..n], rows), p[n]);
      DotColSums(a, p[..n], rows);
      assert Kernel(a, p)[..n] == Kernel(a, p[..n]);
    }
  }

  /** transpose(p) @ v for a single column v. */
  function MatTVec(p: Mat, v: Vec, rows: nat): Vec {
    seq(rows, f requires 0 <= f => Dot(Col(p, f), v))
  }

  lemma MatTVecLast(p: Mat, v: Vec, rows: nat)
    requires IsMat(p, |p|, rows) && |v| == |p| > 0
    ensures MatTVec(p, v, rows)
         == Add(MatTVec(p[..|p| - 1], v[..|p| - 1], rows), Scale(v[|p| - 1], p[|p| - 1]))
  {
    var n := |p| - 1;
    forall f | 0 <= f < rows
      ensures Dot(Col(p, f), v) == Dot(Col(p[..n], f), v[..n]) + Times(v[n], p[n][f])
    {
      DotLast(Col(p, f), v);
      assert Col(p, f)[..n] == Col(p[..n], f);
    }
  }

  lemma {:induction false} DotMatTVec(a: Vec, p: Mat, v: Vec, rows: nat)
    requires IsMat(p, |p|, rows) && |v| == |p|
    ensures Dot(a, MatTVec(p, v, rows)) == Dot(Kernel(a, p), v)
  {
    hide Add, Scale;
    if |p| == 0 {
      DotZeroRight(a, MatTVec(p, v, rows));
    } else {
      var n := |p| - 1;
      MatTVecLast(p, v, rows);
      DotAdd(a, MatTVec(p[..n], v[..n], rows), Scale(v[n], p[n]));
      DotScale(a, v[n], p[n]);
      DotMatTVec(a, p[..n], v[..n], rows);
      DotLast(Kernel(a, p), v);
      assert Kernel(a, p)[..n] == Kernel(a, p[..n]);
    }
  }

  /** Interchange of sums: a @ (transpose(p) @ v) == (a @ transpose(p)) @ v. */
  lemma VecMatMatTMul(a: Vec, p: Mat, v: Mat, rows: nat, cols: nat)
    requires IsMat(p, |p|, rows) && |v| == |p|
    ensures VecMat(a, MatTMul(p, v, rows, cols), cols) == VecMat(Kernel(a, p), v, cols)
  {
    forall c | 0 <= c < cols
      ensures Dot(a, Col(MatTMul(p, v, rows, cols), c)) == Dot(Kernel(a, p), Col(v, c))
    {
      assert Col(MatTMul(p, v, rows, cols), c) == MatTVec(p, Col(v, c), rows);
      DotMatTVec(a, p, Col(v, c), rows);
    }
  }

  // ----- sums in another order -----

  function Picked(s: Vec, idxs: seq<nat>): (r: Vec)
    requires forall p :: 0 <= p < |idxs| ==> idxs[p] < |s|
    ensures |r| == |idxs|
  {
    seq(|idxs|, p requires 0 <= p < |idxs| => s[idxs[p]])
  }

  lemma {:induction false} SumWithout(s: Vec, j: nat)
    requires j < |s|
    ensures Sum(s) == Sum(s[..j] + s[j + 1..]) + s[j]
  {
    var n := |s| - 1;
    if j < n {
      SumWithout(s[..n], j);
      var rest := s[..j] + s[j + 1..];
      assert rest[..n - 1] == s[..n][..j] + s[..n][j + 1..];
    } else {
      assert s[..j] + s[j + 1..] == s[..n];
    }
  }

  lemma PickedWithout(s: Vec, a: seq<nat>, j: nat)
    requires j < |a| && forall p :: 0 <= p < |a| ==> a[p] < |s|
    ensures Sum(Picked(s, a)) == Sum(Picked(s, a[..j] + a[j + 1..])) + s[a[j]]
  {
    var g := Picked(s, a);
    SumWithout(g, j);
    assert g[..j] + g[j + 1..] == Picked(s, a[..j] + a[j + 1..]);
  }

  lemma {:induction false} SumPicked(s: Vec, a: seq<nat>, b: seq<nat>)
    requires multiset(a) == multiset(b) && forall p :: 0 <= p < |a| ==> a[p] < |s|
    ensures |a| == |b| && forall p :: 0 <= p < |b| ==> b[p] < |s|
    ensures Sum(Picked(s, a)) == Sum(Picked(s, b))
    decreases |a|
  {
    hide Picked, Sum;
    assert |a| == |multiset(a)| == |b|;
    forall p | 0 <= p < |b| ensures b[p] < |s| {
      assert b[p] in multiset(a);
    }
    if |a| > 0 {
      var n := |a| - 1;
      RemoveAt(a, n);
      assert a[n] in multiset(b);
      var j :| 0 <= j < |b| && b[j] == a[n];
      var rest := b[..j] + b[j + 1..];
      RemoveAt(b, j);
      assert a[..n] + a[n + 1..] == a[..n];
      assert multiset(rest) == multiset(b) - multiset{a[n]};
      SumPicked(s, a[..n], rest);
      PickedWithout(s, a, n);
      PickedWithout(s, b, j);
    } else {
      assert a == b;
    }
  }

  lemma {:induction false} CountDistinct(a: seq<nat>, x: nat)
    requires forall i, j :: 0 <= i < j < |a| ==> a[i] != a[j]
    ensures multiset(a)[x] == if x in a then 1 else 0
  {
    if |a| > 0 {
      var n := |a| - 1;
      CountDistinct(a[..n], x);
      assert a == a[..n] + [a[n]];
    }
  }

  /** A list of all numbers below n, each once, sums a vector of length n in another order. */
  lemma SumPermuted(s: Vec, perm: seq<nat>)
    requires |perm| == |s| && (forall i :: 0 <= i < |perm| ==> perm[i] < |s|)
    requires (forall i, j :: 0 <= i < j < |perm| ==> perm[i] != perm[j]) && forall x: nat :: x < |s| ==> x in perm
    ensures Sum(Picked(s, perm)) == Sum(s)
  {
    hide Sum;
    var all: seq<nat> := seq(|s|, i requires 0 <= i => i);
    forall x: nat ensures multiset(all)[x] == multiset(perm)[x] {
      CountDistinct(all, x);
      CountDistinct(perm, x);
      if x < |s| { assert all[x] == x; }
    }
    assert multiset(all) == multiset(perm);
    SumPicked(s, all, perm);
    assert Picked(s, all) == s;
  }
}
