/** The floating-point kernels the engine calls: exp, log, sigmoid, the
    square root behind `pow(0.5)`, and the evaluation of the training cost.
    Their exact values are floating-point numerics outside the model, so they
    arrive as a parameter, constrained only by the facts the engine relies on.
 */
module Numerics {
  import opened Matrix

  /** The functions the tensor library supplies.  `cost` evaluates the
      training cost of features, labels and weights; its relation to the
      cross-entropy formula is stated where that formula is defined. */
  datatype Kernels = Kernels(
    exp: real -> real,
    log: real -> real,
    sigmoid: real -> real,
    sqrt: real -> real,
    cost: (Mat, Mat, Mat) -> real)

  function Exp(t: Kernels, x: real): real { t.exp(x) }
  function Log(t: Kernels, x: real): real { t.log(x) }
  function Sigmoid(t: Kernels, x: real): real { t.sigmoid(x) }
  function Sqrt(t: Kernels, x: real): real { t.sqrt(x) }
  function EvaluatedCost(t: Kernels, x: Mat, y: Mat, w: Mat): real { t.cost(x, y, w) }

  /** What the real exp and sqrt satisfy and the engine's divisions depend
      on: exp is positive, sqrt of a positive number is positive. */
  ghost predicate WellBehaved(t: Kernels) {
    && (forall x :: Exp(t, x) > 0.0)
    && (forall x :: x > 0.0 ==> Sqrt(t, x) > 0.0)
  }

  /** exp is strictly increasing, as the real exp is. */
  ghost predicate ExpIncreasing(t: Kernels) {
    forall x, y :: x < y ==> Exp(t, x) < Exp(t, y)
  }

  /** exp preserves the order of its arguments in both directions. */
  lemma ExpOrder(t: Kernels, x: real, y: real)
    requires ExpIncreasing(t)
    ensures x < y <==> Exp(t, x) < Exp(t, y)
  {
    if y < x {
      assert Exp(t, y) < Exp(t, x);
    } else if x == y {
      assert Exp(t, x) == Exp(t, y);
    }
  }

  /** exp applied to every entry of a row. */
  function ExpRow(t: Kernels, v: seq<real>): (e: seq<real>)
    requires WellBehaved(t)
    ensures |e| == |v|
    ensures forall i :: 0 <= i < |v| ==> e[i] == Exp(t, v[i])
    ensures forall i :: 0 <= i < |v| ==> e[i] > 0.0
  {
    var e := seq(|v|, i requires 0 <= i < |v| => Exp(t, v[i]));
    assert forall i :: 0 <= i < |v| ==> e[i] == Exp(t, v[i]);
    ExpPositive(t, v, e);
    e
  }

  lemma ExpPositive(t: Kernels, v: seq<real>, e: seq<real>)
    requires WellBehaved(t)
    requires |e| == |v|
    requires forall i :: 0 <= i < |v| ==> e[i] == Exp(t, v[i])
    ensures forall i :: 0 <= i < |v| ==> e[i] > 0.0
  {
    forall i | 0 <= i < |v|
      ensures e[i] > 0.0
    {
      assert Exp(t, v[i]) > 0.0;
    }
  }

  /** Dividing two numbers by the same positive number keeps their order. */
  lemma DivideKeepsOrder(a: real, b: real, c: real)
    requires c > 0.0
    ensures a < b <==> a / c < b / c
  {
    assert a == (a / c) * c;
    assert b == (b / c) * c;
  }

  /** Softmax of one row of class scores: exp of each score over the sum of them. */
  function Softmax(t: Kernels, v: seq<real>): (p: seq<real>)
    requires WellBehaved(t)
    ensures |p| == |v|
    ensures forall i :: 0 <= i < |v| ==> p[i] > 0.0
    ensures |v| > 0 ==> Sum(ExpRow(t, v)) > 0.0
                        && forall i :: 0 <= i < |v| ==> p[i] == Exp(t, v[i]) / Sum(ExpRow(t, v))
    ensures |v| > 0 ==> Sum(p) == 1.0
  {
    if |v| == 0 then []
    else
      var e := ExpRow(t, v);
      SumPositive(e);
      var total := Sum(e);
      var p := seq(|v|, i requires 0 <= i < |v| => e[i] / total);
      SharesSumToOne(e, p);
      p
  }

  /** Softmax keeps the order of the scores in both directions. */
  lemma SoftmaxKeepsOrder(t: Kernels, v: seq<real>)
    requires WellBehaved(t) && ExpIncreasing(t)
    ensures SameOrder(Softmax(t, v), v)
  {
    var p := Softmax(t, v);
    if |v| > 0 {
      var e := ExpRow(t, v);
      SumPositive(e);
      forall i, j | 0 <= i < |v| && 0 <= j < |v|
        ensures p[i] < p[j] <==> v[i] < v[j]
      {
        ExpOrder(t, v[i], v[j]);
        DivideKeepsOrder(e[i], e[j], Sum(e));
      }
    }
  }

  /** Each entry's share of a positive total adds up to 1. */
  lemma SharesSumToOne(e: seq<real>, p: seq<real>)
    requires Sum(e) > 0.0
    requires |p| == |e|
    requires forall i :: 0 <= i < |e| ==> p[i] == e[i] / Sum(e)
    ensures Sum(p) == 1.0
  {
    var total := Sum(e);
    SumDivide(e, p, total);
    DivideBySelf(total);
  }

  lemma DivideBySelf(x: real)
    requires x > 0.0
    ensures x / x == 1.0
  {
  }

  /** Softmax does not change which entry is the first maximum. */
  lemma SoftmaxKeepsArgMax(t: Kernels, v: seq<real>)
    requires WellBehaved(t) && ExpIncreasing(t)
    requires |v| > 0
    ensures ArgMax(Softmax(t, v)) == ArgMax(v)
  {
    SoftmaxKeepsOrder(t, v);
    ArgMaxOrderInvariant(Softmax(t, v), v);
  }

  /** Equal scores get equal shares: softmax of a constant row of length n
      is 1/n everywhere, whatever the constant. */
  lemma SoftmaxOfConstantRow(t: Kernels, v: seq<real>, c: real)
    requires WellBehaved(t)
    requires |v| > 0
    requires forall i :: 0 <= i < |v| ==> v[i] == c
    ensures forall i :: 0 <= i < |v| ==> Softmax(t, v)[i] == 1.0 / |v| as real
  {
    var e := ExpRow(t, v);
    var x := Exp(t, c);
    var n := |v| as real;
    SumConstant(e, x);
    ShareOfEqualParts(x, n);
    forall i | 0 <= i < |v|
      ensures Softmax(t, v)[i] == 1.0 / n
    {
      assert e[i] == x && Sum(e) == n * x;
      calc {
        Softmax(t, v)[i];
        e[i] / Sum(e);
        x / (n * x);
        1.0 / n;
      }
    }
  }

  lemma ShareOfEqualParts(x: real, n: real)
    requires x > 0.0 && n > 0.0
    ensures x / (n * x) == 1.0 / n
  {
    assert (1.0 / n) * (n * x) == x;
  }

  /** Row-wise softmax of a score matrix. */
  function SoftmaxRows(t: Kernels, m: Mat): (r: Mat)
    requires WellBehaved(t)
    ensures |r| == |m|
    ensures forall i :: 0 <= i < |m| ==> r[i] == Softmax(t, m[i])
  {
    seq(|m|, i requires 0 <= i < |m| => Softmax(t, m[i]))
  }
}
