/** Element-wise arithmetic over tensor contents, the exact-arithmetic
    counterpart of the element-wise kernel the operators call
    (`Element(_1 += _2 * _3, ...)`), and the loops that apply it to a buffer. */
module Elementwise {

  /** Element-wise sum. */
  function Add(x: seq<real>, y: seq<real>): seq<real>
    requires |x| == |y|
  {
    seq(|x|, i requires 0 <= i < |x| => x[i] + y[i])
  }

  /** Element-wise difference. */
  function Sub(x: seq<real>, y: seq<real>): seq<real>
    requires |x| == |y|
  {
    seq(|x|, i requires 0 <= i < |x| => x[i] - y[i])
  }

  /** Element-wise product. */
  function Mul(x: seq<real>, y: seq<real>): seq<real>
    requires |x| == |y|
  {
    seq(|x|, i requires 0 <= i < |x| => x[i] * y[i])
  }

  /** Element-wise negation. */
  function Negated(x: seq<real>): seq<real> {
    seq(|x|, i requires 0 <= i < |x| => -x[i])
  }

  /** A truth value read as a number, as the kernels do with a comparison. */
  function Indicator(b: bool): real {
    if b then 1.0 else 0.0
  }

  /** The inner product: the pairing of an adjoint with a tangent. */
  function Inner(x: seq<real>, y: seq<real>): real
    requires |x| == |y|
  {
    if x == [] then 0.0 else x[0] * y[0] + Inner(x[1..], y[1..])
  }

  /** Pairing distributes over a sum of tangents. */
  lemma {:induction false} InnerAdd(x: seq<real>, y: seq<real>, z: seq<real>)
    requires |x| == |y| == |z|
    ensures Inner(x, Add(y, z)) == Inner(x, y) + Inner(x, z)
  {
    if x != [] {
      assert Add(y, z)[1..] == Add(y[1..], z[1..]);
      InnerAdd(x[1..], y[1..], z[1..]);
    }
  }

  /** Pairing with the negation of a tangent is pairing the negated adjoint. */
  lemma {:induction false} InnerNegated(x: seq<real>, y: seq<real>)
    requires |x| == |y|
    ensures Inner(x, Negated(y)) == Inner(Negated(x), y)
  {
    if x != [] {
      assert Negated(y)[1..] == Negated(y[1..]);
      assert Negated(x)[1..] == Negated(x[1..]);
      InnerNegated(x[1..], y[1..]);
    }
  }

  /** Dropping the first position commutes with the element-wise product. */
  lemma MulTail(x: seq<real>, y: seq<real>)
    requires |x| == |y| > 0
    ensures Mul(x, y)[1..] == Mul(x[1..], y[1..])
  {
    forall k | 0 <= k < |x| - 1
      ensures Mul(x, y)[1..][k] == Mul(x[1..], y[1..])[k]
    {
      assert Mul(x, y)[1..][k] == x[k + 1] * y[k + 1];
    }
  }

  /** An element-wise weight may be moved from the tangent to the adjoint:
      an element-wise operator's Jacobian is diagonal, so it is its own transpose. */
  lemma {:induction false} InnerMulShift(x: seq<real>, h: seq<real>, w: seq<real>)
    requires |x| == |h| == |w|
    ensures Inner(x, Mul(h, w)) == Inner(Mul(x, w), h)
  {
    if x != [] {
      MulTail(h, w);
      MulTail(x, w);
      InnerMulShift(x[1..], h[1..], w[1..]);
      assert x[0] * (h[0] * w[0]) == (x[0] * w[0]) * h[0];
    }
  }

  /** Contributions reach an accumulator in either order with the same result. */
  lemma AccumulationCommutes(g: seq<real>, c1: seq<real>, c2: seq<real>)
    requires |g| == |c1| == |c2|
    ensures Add(Add(g, c1), c2) == Add(Add(g, c2), c1) == Add(g, Add(c1, c2))
  {
  }

  /** `dst[i] += c[i]` for every i: the in-place accumulation every
      backward rule performs on a parent's gradient. */
  method Accumulate(dst: array<real>, c: seq<real>)
    requires |c| == dst.Length
    modifies dst
    ensures dst[..] == Add(old(dst[..]), c)
  {
    var i := 0;
    while i < dst.Length
      invariant 0 <= i <= dst.Length
      invariant forall k :: 0 <= k < i ==> dst[k] == old(dst[k]) + c[k]
      invariant forall k :: i <= k < dst.Length ==> dst[k] == old(dst[k])
    {
      dst[i] := dst[i] + c[i];
      i := i + 1;
    }
  }

  /** `dst[i] = v[i]` for every i: a forward rule writing a node's value. */
  method Store(dst: array<real>, v: seq<real>)
    requires |v| == dst.Length
    modifies dst
    ensures dst[..] == v
  {
    var i := 0;
    while i < dst.Length
      invariant 0 <= i <= dst.Length
      invariant forall k :: 0 <= k < i ==> dst[k] == v[k]
    {
      dst[i] := v[i];
      i := i + 1;
    }
  }
}
