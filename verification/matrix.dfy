/** Dense real matrices as sequences of rows, with the handful of operations
    the regression engine performs on them.  Reals are exact here: the
    float32 rounding of the tensor library is not part of the model.
 */
module Matrix {

  /** A matrix stored row by row. */
  type Mat = seq<seq<real>>

  /** `m` has exactly `rows` rows, each of exactly `cols` entries. */
  predicate IsShape(m: Mat, rows: nat, cols: nat) {
    |m| == rows && forall i :: 0 <= i < |m| ==> |m[i]| == cols
  }

  /** Every row is as long as the first: what a tensor constructor accepts. */
  predicate Rectangular(m: Mat) {
    forall i :: 0 <= i < |m| ==> |m[i]| == |m[0]|
  }

  /** The all-zero `rows` x `cols` matrix. */
  function Zeros(rows: nat, cols: nat): (z: Mat)
    ensures IsShape(z, rows, cols)
    ensures forall i, j :: 0 <= i < rows && 0 <= j < cols ==> z[i][j] == 0.0
  {
    seq(rows, _ => seq(cols, _ => 0.0))
  }

  /** A block of consecutive rows keeps the column count. */
  lemma SliceShape(m: Mat, rows: nat, cols: nat, a: nat, b: nat)
    requires IsShape(m, rows, cols)
    requires a <= b <= rows
    ensures IsShape(m[a..b], b - a, cols)
  {
  }

  /** Sum of the entries of a vector. */
  function Sum(s: seq<real>): real
  {
    if |s| == 0 then 0.0 else s[0] + Sum(s[1..])
  }

  lemma {:induction false} SumNonNegative(s: seq<real>)
    requires forall i :: 0 <= i < |s| ==> s[i] >= 0.0
    ensures Sum(s) >= 0.0
  {
    if |s| > 0 {
      SumNonNegative(s[1..]);
    }
  }

  lemma {:induction false} SumPositive(s: seq<real>)
    requires |s| > 0
    requires forall i :: 0 <= i < |s| ==> s[i] > 0.0
    ensures Sum(s) > 0.0
  {
    if |s| > 1 {
      SumPositive(s[1..]);
    }
  }

  /** A vector whose entries all equal `c` sums to `|s| * c`. */
  lemma {:induction false} SumConstant(s: seq<real>, c: real)
    requires forall i :: 0 <= i < |s| ==> s[i] == c
    ensures Sum(s) == |s| as real * c
  {
    if |s| > 0 {
      SumConstant(s[1..], c);
    }
  }

  /** A vector with a single 1 and 0s elsewhere sums to 1. */
  lemma {:induction false} SumOneHot(s: seq<real>, p: nat)
    requires p < |s|
    requires s[p] == 1.0
    requires forall i :: 0 <= i < |s| && i != p ==> s[i] == 0.0
    ensures Sum(s) == 1.0
  {
    if p == 0 {
      SumConstant(s[1..], 0.0);
    } else {
      SumOneHot(s[1..], p - 1);
    }
  }

  /** Dividing every entry by `c` divides the sum by `c`. */
  lemma {:induction false} SumDivide(s: seq<real>, d: seq<real>, c: real)
    requires c != 0.0
    requires |d| == |s|
    requires forall i :: 0 <= i < |s| ==> d[i] == s[i] / c
    ensures Sum(d) == Sum(s) / c
  {
    if |s| > 0 {
      SumDivide(s[1..], d[1..], c);
    }
  }

  /** Subtracting `a` from every entry subtracts `|s| * a` from the sum. */
  lemma {:induction false} SumShift(s: seq<real>, d: seq<real>, a: real)
    requires |d| == |s|
    requires forall i :: 0 <= i < |s| ==> d[i] == s[i] - a
    ensures Sum(d) == Sum(s) - |s| as real * a
  {
    if |s| > 0 {
      SumShift(s[1..], d[1..], a);
    }
  }

  /** Subtracting every entry from `a` gives `|s| * a` minus the sum. */
  lemma {:induction false} SumComplement(s: seq<real>, d: seq<real>, a: real)
    requires |d| == |s|
    requires forall i :: 0 <= i < |s| ==> d[i] == a - s[i]
    ensures Sum(d) == |s| as real * a - Sum(s)
  {
    if |s| > 0 {
      SumComplement(s[1..], d[1..], a);
    }
  }

  /** Sums of two vectors add entry by entry. */
  lemma {:induction false} SumAdd(u: seq<real>, v: seq<real>, d: seq<real>)
    requires |u| == |v| == |d|
    requires forall i :: 0 <= i < |d| ==> d[i] == u[i] + v[i]
    ensures Sum(d) == Sum(u) + Sum(v)
  {
    if |d| > 0 {
      SumAdd(u[1..], v[1..], d[1..]);
    }
  }

  /** Column `j` of `m`, top to bottom. */
  function Column(m: Mat, j: nat): (c: seq<real>)
    requires forall i :: 0 <= i < |m| ==> j < |m[i]|
    ensures |c| == |m|
    ensures forall i :: 0 <= i < |m| ==> c[i] == m[i][j]
  {
    seq(|m|, i requires 0 <= i < |m| => m[i][j])
  }

  /** The pairwise products of two vectors of equal length. */
  function Products(u: seq<real>, v: seq<real>): (p: seq<real>)
    requires |u| == |v|
    ensures |p| == |u|
    ensures forall i :: 0 <= i < |u| ==> p[i] == u[i] * v[i]
  {
    seq(|u|, i requires 0 <= i < |u| => u[i] * v[i])
  }

  /** Inner product of two vectors of equal length. */
  function Dot(u: seq<real>, v: seq<real>): real
    requires |u| == |v|
  {
    Sum(Products(u, v))
  }

  /** An inner product is the sum of the pairwise products. */
  lemma DotIsSumOfProducts(u: seq<real>, v: seq<real>, p: seq<real>)
    requires |u| == |v| == |p|
    requires forall i :: 0 <= i < |p| ==> p[i] == u[i] * v[i]
    ensures Dot(u, v) == Sum(p)
  {
    var q := Products(u, v);
    forall i | 0 <= i < |p|
      ensures q[i] == p[i]
    {
    }
    assert q == p;
  }

  /** The inner product with an all-zero vector is 0. */
  lemma DotZero(u: seq<real>, v: seq<real>)
    requires |u| == |v|
    requires forall i :: 0 <= i < |v| ==> v[i] == 0.0
    ensures Dot(u, v) == 0.0
  {
    SumConstant(Products(u, v), 0.0);
  }

  /** The inner product with an all-ones vector is the sum of the other vector. */
  lemma DotOnes(u: seq<real>, v: seq<real>)
    requires |u| == |v|
    requires forall i :: 0 <= i < |u| ==> u[i] == 1.0
    ensures Dot(u, v) == Sum(v)
  {
    DotIsSumOfProducts(u, v, v);
  }

  /** Matrix product of an n x m matrix `a` with an m x k matrix `b`. */
  function MatMul(a: Mat, b: Mat, k: nat): (c: Mat)
    requires IsShape(a, |a|, |b|)
    requires IsShape(b, |b|, k)
    ensures IsShape(c, |a|, k)
    ensures forall i, j :: 0 <= i < |a| && 0 <= j < k ==> c[i][j] == Dot(a[i], Column(b, j))
  {
    seq(|a|, i requires 0 <= i < |a| => seq(k, j requires 0 <= j < k => Dot(a[i], Column(b, j))))
  }

  /** The transpose of a matrix with `cols` columns. */
  function Transpose(m: Mat, cols: nat): (r: Mat)
    requires IsShape(m, |m|, cols)
    ensures IsShape(r, cols, |m|)
    ensures forall j :: 0 <= j < cols ==> r[j] == Column(m, j)
  {
    seq(cols, j requires 0 <= j < cols => Column(m, j))
  }

  /** Entry-wise difference of two matrices of the same shape. */
  function Sub(a: Mat, b: Mat): (r: Mat)
    requires |a| == |b|
    requires forall i :: 0 <= i < |a| ==> |a[i]| == |b[i]|
    ensures |r| == |a|
    ensures forall i :: 0 <= i < |a| ==> |r[i]| == |a[i]|
    ensures forall i, j :: 0 <= i < |a| && 0 <= j < |a[i]| ==> r[i][j] == a[i][j] - b[i][j]
  {
    seq(|a|, i requires 0 <= i < |a| => seq(|a[i]|, j requires 0 <= j < |a[i]| => a[i][j] - b[i][j]))
  }

  /** Every entry multiplied by the scalar `s`. */
  function Scale(m: Mat, s: real): (r: Mat)
    ensures |r| == |m|
    ensures forall i :: 0 <= i < |m| ==> |r[i]| == |m[i]|
    ensures forall i, j :: 0 <= i < |m| && 0 <= j < |m[i]| ==> r[i][j] == m[i][j] * s
  {
    seq(|m|, i requires 0 <= i < |m| => seq(|m[i]|, j requires 0 <= j < |m[i]| => m[i][j] * s))
  }

  /** Every entry passed through the scalar function `f`. */
  function MapEntries(m: Mat, f: real -> real): (r: Mat)
    ensures |r| == |m|
    ensures forall i :: 0 <= i < |m| ==> |r[i]| == |m[i]|
    ensures forall i, j :: 0 <= i < |m| && 0 <= j < |m[i]| ==> r[i][j] == f(m[i][j])
  {
    seq(|m|, i requires 0 <= i < |m| => seq(|m[i]|, j requires 0 <= j < |m[i]| => f(m[i][j])))
  }

  /** Bias augmentation: a column of 1s placed in front of the existing columns. */
  function PrependOnes(m: Mat): (r: Mat)
    ensures |r| == |m|
    ensures forall i :: 0 <= i < |m| ==> |r[i]| == |m[i]| + 1 && r[i][0] == 1.0
    ensures forall i, j :: 0 <= i < |m| && 0 <= j < |m[i]| ==> r[i][j + 1] == m[i][j]
  {
    seq(|m|, i requires 0 <= i < |m| => [1.0] + m[i])
  }

  /** Index of the first maximal entry of a non-empty row.  The tensor
      library's tie-break is not specified; "first maximum" is the choice
      made here. */
  function ArgMax(row: seq<real>): (k: nat)
    requires |row| > 0
    ensures k < |row|
    ensures forall j :: 0 <= j < |row| ==> row[j] <= row[k]
    ensures forall j :: 0 <= j < k ==> row[j] < row[k]
  {
    if |row| == 1 then 0
    else
      var k' := ArgMax(row[..|row| - 1]);
      if row[|row| - 1] > row[k'] then |row| - 1 else k'
  }

  /** Two rows of equal length whose entries compare alike pair by pair. */
  predicate SameOrder(u: seq<real>, v: seq<real>) {
    && |u| == |v|
    && forall i, j :: 0 <= i < |u| && 0 <= j < |u| ==> (u[i] < u[j] <==> v[i] < v[j])
  }

  /** Two rows ordered alike entry by entry have the same first maximum. */
  lemma ArgMaxOrderInvariant(u: seq<real>, v: seq<real>)
    requires |u| > 0 && SameOrder(u, v)
    ensures ArgMax(u) == ArgMax(v)
  {
  }

  /** Number of positions at which two equally long index sequences differ. */
  function Mismatches(p: seq<nat>, q: seq<nat>): (n: nat)
    requires |p| == |q|
    ensures n <= |p|
    ensures n == 0 <==> forall i :: 0 <= i < |p| ==> p[i] == q[i]
    ensures n == |p| <==> forall i :: 0 <= i < |p| ==> p[i] != q[i]
  {
    if |p| == 0 then 0
    else
      var last := |p| - 1;
      var rest := Mismatches(p[..last], q[..last]);
      assert forall i :: 0 <= i < last ==> p[i] == p[..last][i] && q[i] == q[..last][i];
      rest + (if p[last] != q[last] then 1 else 0)
  }

  /** The positions at which `p` and `q` differ. */
  function MismatchPositions(p: seq<nat>, q: seq<nat>): set<nat>
    requires |p| == |q|
  {
    set i: nat | i < |p| && p[i] != q[i]
  }

  /** The mismatch count is the number of differing positions. */
  lemma {:induction false} MismatchesCountsPositions(p: seq<nat>, q: seq<nat>)
    requires |p| == |q|
    ensures Mismatches(p, q) == |MismatchPositions(p, q)|
  {
    if |p| > 0 {
      var last := |p| - 1;
      MismatchesCountsPositions(p[..last], q[..last]);
      var earlier := MismatchPositions(p[..last], q[..last]);
      if p[last] != q[last] {
        assert MismatchPositions(p, q) == earlier + {last};
      } else {
        assert MismatchPositions(p, q) == earlier;
      }
    }
  }
}
