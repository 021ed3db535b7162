/** The exact-arithmetic forward and backward rules of the operators
    (node_operators.h), as functions on tensor contents, and what makes the
    backward rules right: each one is the transpose of its operator's
    tangent (forward-mode derivative), so pairing the adjoint with a tangent
    of the output equals pairing the contributions with the tangents of the
    inputs. The transcendental forward rules (sigmoid, tanh, log, exp,
    softmax) and dropout's random forward rule are not part of this module,
    so the tangents of sigmoid, tanh, dropout and log are written from
    their backward rules' own factors and tied to no forward rule; only
    ReLU's, the sum's, the difference's and the product's tangents are
    proved against the forward rules. */
module Gradients {
  import opened Elementwise
  import opened OperatorShapes

  function Max(x: real, y: real): real {
    if x >= y then x else y
  }

  predicate NonZero(s: seq<real>) {
    forall i :: 0 <= i < |s| ==> s[i] != 0.0
  }

  /** ReLU's forward rule, `max(0 * a, a)`: positive elements pass, the
      others become 0. */
  function ReluForward(x: seq<real>): (r: seq<real>)
    ensures |r| == |x|
    ensures forall i :: 0 <= i < |x| ==> r[i] == (if x[i] > 0.0 then x[i] else 0.0)
  {
    seq(|x|, i requires 0 <= i < |x| => Max(0.0 * x[i], x[i]))
  }

  /** The forward rules of the element-wise binary operators. */
  function BinaryForward(op: BinaryOp, x: seq<real>, y: seq<real>): (r: seq<real>)
    requires op != Dot && |x| == |y|
    requires op == Div ==> NonZero(y)
    ensures |r| == |x|
    ensures op == Plus ==> forall i :: 0 <= i < |x| ==> r[i] - y[i] == x[i]
    ensures op == Minus ==> forall i :: 0 <= i < |x| ==> r[i] + y[i] == x[i]
    ensures op == Mult ==> forall i :: 0 <= i < |x| ==> r[i] == y[i] * x[i]
    ensures op == Div ==> forall i :: 0 <= i < |x| ==> r[i] * y[i] == x[i]
  {
    match op
    case Plus => Add(x, y)
    case Minus => Sub(x, y)
    case Mult => Mul(x, y)
    case Div => seq(|x|, i requires 0 <= i < |x| => x[i] / y[i])
  }

  /** The unary operators whose backward rule reads only the adjoint and the
      node's own output (argmax's reads nothing). */
  predicate BackwardFromOutput(op: UnaryOp) {
    op != Softmax && op != Log && op != Exp
  }

  /** The unary operators whose backward rule reads the node's own output. */
  predicate UsesOutput(op: UnaryOp) {
    op == Logit || op == Tanh || op == ReLU || op == Dropout
  }

  /** What a unary operator's backward rule adds to its parent's gradient,
      from the node's adjoint `g` and its output `v`. */
  function UnaryContribution(op: UnaryOp, g: seq<real>, v: seq<real>): (r: seq<real>)
    requires BackwardFromOutput(op) && op != Argmax
    requires UsesOutput(op) ==> |v| == |g|
    ensures |r| == |g|
    ensures op == ReLU || op == Dropout ==> forall i :: 0 <= i < |g| ==> r[i] == g[i] || r[i] == 0.0
    ensures op == ReLU ==> forall i :: 0 <= i < |g| ==> (r[i] == g[i] <== v[i] > 0.0) && (r[i] == 0.0 <== v[i] <= 0.0)
    ensures op == Dropout ==> forall i :: 0 <= i < |g| ==> (r[i] == g[i] <== v[i] != 0.0) && (r[i] == 0.0 <== v[i] == 0.0)
    ensures op == Neg ==> forall i :: 0 <= i < |g| ==> r[i] + g[i] == 0.0
  {
    match op
    case Logit => seq(|g|, i requires 0 <= i < |g| => g[i] * v[i] * (1.0 - v[i]))
    case Tanh => seq(|g|, i requires 0 <= i < |g| => g[i] * (1.0 - v[i] * v[i]))
    case ReLU => seq(|g|, i requires 0 <= i < |g| => g[i] * Indicator(v[i] > 0.0))
    case Dropout => seq(|g|, i requires 0 <= i < |g| => g[i] * Indicator(v[i] != 0.0))
    case Neg => Negated(g)
  }

  /** The slope of a unary operator at each element, read off its output:
      for sigmoid v (1 - v), for tanh 1 - v * v, for ReLU and dropout
      whether the output survived. */
  function Slope(op: UnaryOp, v: seq<real>): (r: seq<real>)
    requires UsesOutput(op)
    ensures |r| == |v|
  {
    match op
    case Logit => seq(|v|, i requires 0 <= i < |v| => v[i] * (1.0 - v[i]))
    case Tanh => seq(|v|, i requires 0 <= i < |v| => 1.0 - v[i] * v[i])
    case ReLU => seq(|v|, i requires 0 <= i < |v| => Indicator(v[i] > 0.0))
    case Dropout => seq(|v|, i requires 0 <= i < |v| => Indicator(v[i] != 0.0))
  }

  /** The tangent of a unary operator's output for a tangent `h` of its input. */
  function UnaryTangent(op: UnaryOp, v: seq<real>, h: seq<real>): (r: seq<real>)
    requires BackwardFromOutput(op) && op != Argmax
    requires UsesOutput(op) ==> |v| == |h|
    ensures |r| == |h|
  {
    if op == Neg then Negated(h) else Mul(h, Slope(op, v))
  }

  /** Every value-reading backward rule multiplies the adjoint by the slope. */
  lemma UnaryContributionIsScaledAdjoint(op: UnaryOp, g: seq<real>, v: seq<real>)
    requires UsesOutput(op) && |v| == |g|
    ensures UnaryContribution(op, g, v) == Mul(g, Slope(op, v))
  {
    var c, m := UnaryContribution(op, g, v), Mul(g, Slope(op, v));
    forall i | 0 <= i < |g|
      ensures c[i] == m[i]
    {
      if op == Logit {
        assert c[i] == g[i] * v[i] * (1.0 - v[i]);
        assert m[i] == g[i] * (v[i] * (1.0 - v[i]));
      }
    }
  }

  /** Each unary backward rule is the transpose of its operator's tangent. */
  lemma {:induction false} UnaryBackwardIsTranspose(op: UnaryOp, g: seq<real>, v: seq<real>, h: seq<real>)
    requires BackwardFromOutput(op) && op != Argmax
    requires |g| == |h| && (UsesOutput(op) ==> |v| == |g|)
    ensures Inner(g, UnaryTangent(op, v, h)) == Inner(UnaryContribution(op, g, v), h)
  {
    if op == Neg {
      InnerNegated(g, h);
    } else {
      UnaryContributionIsScaledAdjoint(op, g, v);
      InnerMulShift(g, h, Slope(op, v));
    }
  }

  /** What the log node's backward rule adds to its parent's gradient, from
      the node's adjoint `g` and the parent's value `x`: `g * (1 / x)`. */
  function LogContribution(g: seq<real>, x: seq<real>): (r: seq<real>)
    requires |g| == |x| && NonZero(x)
    ensures |r| == |g|
    ensures forall i :: 0 <= i < |g| ==> r[i] * x[i] == g[i]
  {
    Mul(g, DivWeightA(x))
  }

  /** The tangent of log at `x` for an input tangent `h`: `h * (1 / x)`. */
  function LogTangent(x: seq<real>, h: seq<real>): (r: seq<real>)
    requires |x| == |h| && NonZero(x)
    ensures |r| == |h|
  {
    Mul(h, DivWeightA(x))
  }

  /** The log backward rule is the transpose of log's tangent. */
  lemma LogBackwardIsTranspose(g: seq<real>, x: seq<real>, h: seq<real>)
    requires |g| == |x| == |h| && NonZero(x)
    ensures Inner(g, LogTangent(x, h)) == Inner(LogContribution(g, x), h)
  {
    InnerMulShift(g, h, DivWeightA(x));
  }

  /** Where ReLU's input is positive its output is too, so the backward rule,
      which looks at the output, passes the adjoint exactly where the input
      was positive (the subgradient at 0 is 0). */
  lemma ReluBackwardFollowsInput(g: seq<real>, x: seq<real>)
    requires |g| == |x|
    ensures UnaryContribution(ReLU, g, ReluForward(x)) ==
      seq(|g|, i requires 0 <= i < |g| => if x[i] > 0.0 then g[i] else 0.0)
  {
  }

  /** ReLU's output is never negative, so on it the ReLU and dropout
      backward rules (positive against non-zero output) agree. */
  lemma ReluOutputMakesDropoutRuleAgree(g: seq<real>, x: seq<real>)
    requires |g| == |x|
    ensures UnaryContribution(Dropout, g, ReluForward(x)) == UnaryContribution(ReLU, g, ReluForward(x))
  {
    var v := ReluForward(x);
    forall i | 0 <= i < |g|
      ensures UnaryContribution(Dropout, g, v)[i] == UnaryContribution(ReLU, g, v)[i]
    {
      assert v[i] >= 0.0;
    }
  }

  /** Away from its kink ReLU is linear: for a step smaller than every input
      element's distance from 0, the output moves by exactly the tangent. */
  lemma ReluTangentIsExact(x: seq<real>, h: seq<real>)
    requires |x| == |h|
    requires forall i :: 0 <= i < |x| ==> x[i] != 0.0 && -Max(x[i], -x[i]) < h[i] < Max(x[i], -x[i])
    ensures ReluForward(Add(x, h)) == Add(ReluForward(x), UnaryTangent(ReLU, ReluForward(x), h))
  {
    var v := ReluForward(x);
    forall i | 0 <= i < |x|
      ensures ReluForward(Add(x, h))[i] == Add(v, UnaryTangent(ReLU, v, h))[i]
    {
      assert Slope(ReLU, v)[i] == Indicator(x[i] > 0.0);
    }
  }

  /** What an element-wise binary operator's backward rule adds to its first
      parent's gradient, from the adjoint `g` and the second parent's value `bv`. */
  function ContributionA(op: BinaryOp, g: seq<real>, bv: seq<real>): (r: seq<real>)
    requires op != Dot
    requires (op == Mult || op == Div) ==> |bv| == |g|
    requires op == Div ==> NonZero(bv)
    ensures |r| == |g|
    ensures op == Plus || op == Minus ==> r == g
    ensures op == Mult ==> forall i :: 0 <= i < |g| ==>
      (bv[i] == 0.0 ==> r[i] == 0.0) && (bv[i] != 0.0 ==> r[i] / bv[i] == g[i])
    ensures op == Div ==> forall i :: 0 <= i < |g| ==> r[i] * bv[i] == g[i]
  {
    match op
    case Plus => g
    case Minus => g
    case Mult => Mul(g, bv)
    case Div => seq(|g|, i requires 0 <= i < |g| => g[i] * 1.0 / bv[i])
  }

  /** What it adds to its second parent's gradient, from `g` and both parents'
      values (the minus rule's `-=` adds the negated adjoint). */
  function ContributionB(op: BinaryOp, g: seq<real>, av: seq<real>, bv: seq<real>): (r: seq<real>)
    requires op != Dot
    requires (op == Mult || op == Div) ==> |av| == |g|
    requires op == Div ==> |bv| == |g| && NonZero(bv)
    ensures |r| == |g|
    ensures op == Plus ==> r == g
    ensures op == Minus ==> forall i :: 0 <= i < |g| ==> r[i] + g[i] == 0.0
    ensures op == Mult ==> forall i :: 0 <= i < |g| ==>
      (av[i] == 0.0 ==> r[i] == 0.0) && (av[i] != 0.0 ==> r[i] / av[i] == g[i])
    ensures op == Div ==> forall i :: 0 <= i < |g| ==> r[i] * (bv[i] * bv[i]) == -(g[i] * av[i])
  {
    match op
    case Plus => g
    case Minus => Negated(g)
    case Mult => Mul(g, av)
    case Div => seq(|g|, i requires 0 <= i < |g| => -(g[i] * av[i] / (bv[i] * bv[i])))
  }

  /** The tangent of a binary operator's output for tangents `ha`, `hb` of
      its inputs `a`, `b`. */
  function BinaryTangent(op: BinaryOp, a: seq<real>, b: seq<real>, ha: seq<real>, hb: seq<real>): (r: seq<real>)
    requires op != Dot && |a| == |b| == |ha| == |hb|
    requires op == Div ==> NonZero(b)
    ensures |r| == |a|
  {
    match op
    case Plus => Add(ha, hb)
    case Minus => Sub(ha, hb)
    case Mult => Add(Mul(ha, b), Mul(a, hb))
    case Div => seq(|a|, i requires 0 <= i < |a| => ha[i] / b[i] - a[i] * hb[i] / (b[i] * b[i]))
  }

  /** Each binary backward rule is the transpose of its operator's tangent:
      the two contributions together pair with the input tangents as the
      adjoint pairs with the output tangent. */
  lemma BinaryBackwardIsTranspose(op: BinaryOp, g: seq<real>, a: seq<real>, b: seq<real>, ha: seq<real>, hb: seq<real>)
    requires op != Dot && |g| == |a| == |b| == |ha| == |hb|
    requires op == Div ==> NonZero(b)
    ensures Inner(g, BinaryTangent(op, a, b, ha, hb))
         == Inner(ContributionA(op, g, b), ha) + Inner(ContributionB(op, g, a, b), hb)
  {
    match op
    case Plus =>
      InnerAdd(g, ha, hb);
    case Minus =>
      assert Sub(ha, hb) == Add(ha, Negated(hb));
      InnerAdd(g, ha, Negated(hb));
      InnerNegated(g, hb);
    case Mult =>
      InnerAdd(g, Mul(ha, b), Mul(a, hb));
      InnerMulShift(g, ha, b);
      assert Mul(a, hb) == Mul(hb, a);
      InnerMulShift(g, hb, a);
    case Div =>
      DivBackwardIsTranspose(g, a, b, ha, hb);
  }

  /** The division rule's weight on the first parent, 1 / b. */
  function DivWeightA(b: seq<real>): (r: seq<real>)
    requires NonZero(b)
    ensures |r| == |b|
  {
    seq(|b|, i requires 0 <= i < |b| => 1.0 / b[i])
  }

  /** The division rule's weight on the second parent, -a / b^2. */
  function DivWeightB(a: seq<real>, b: seq<real>): (r: seq<real>)
    requires |a| == |b| && NonZero(b)
    ensures |r| == |b|
  {
    seq(|b|, i requires 0 <= i < |b| => -(a[i] / (b[i] * b[i])))
  }

  /** The division rule, written as two element-wise weights. */
  lemma DivBackwardIsTranspose(g: seq<real>, a: seq<real>, b: seq<real>, ha: seq<real>, hb: seq<real>)
    requires |g| == |a| == |b| == |ha| == |hb| && NonZero(b)
    ensures Inner(g, BinaryTangent(Div, a, b, ha, hb))
         == Inner(ContributionA(Div, g, b), ha) + Inner(ContributionB(Div, g, a, b), hb)
  {
    var wa, wb := DivWeightA(b), DivWeightB(a, b);
    DivTangentIsWeighted(a, b, ha, hb);
    DivContributionsAreWeighted(g, a, b);
    InnerAdd(g, Mul(ha, wa), Mul(hb, wb));
    InnerMulShift(g, ha, wa);
    InnerMulShift(g, hb, wb);
  }

  lemma DivTangentIsWeighted(a: seq<real>, b: seq<real>, ha: seq<real>, hb: seq<real>)
    requires |a| == |b| == |ha| == |hb| && NonZero(b)
    ensures BinaryTangent(Div, a, b, ha, hb) == Add(Mul(ha, DivWeightA(b)), Mul(hb, DivWeightB(a, b)))
  {
    var t, w := BinaryTangent(Div, a, b, ha, hb), Add(Mul(ha, DivWeightA(b)), Mul(hb, DivWeightB(a, b)));
    forall i | 0 <= i < |a|
      ensures t[i] == w[i]
    {
      DivTangentIdentity(a[i], b[i], ha[i], hb[i]);
    }
  }

  lemma DivContributionsAreWeighted(g: seq<real>, a: seq<real>, b: seq<real>)
    requires |g| == |a| == |b| && NonZero(b)
    ensures ContributionA(Div, g, b) == Mul(g, DivWeightA(b))
    ensures ContributionB(Div, g, a, b) == Mul(g, DivWeightB(a, b))
  {
    var ca, cb := ContributionA(Div, g, b), ContributionB(Div, g, a, b);
    var ma, mb := Mul(g, DivWeightA(b)), Mul(g, DivWeightB(a, b));
    forall i | 0 <= i < |g|
      ensures ca[i] == ma[i] && cb[i] == mb[i]
    {
      DivContributionIdentities(g[i], a[i], b[i]);
    }
  }

  lemma DivTangentIdentity(a: real, b: real, ha: real, hb: real)
    requires b != 0.0
    ensures ha / b - a * hb / (b * b) == ha * (1.0 / b) + hb * -(a / (b * b))
  {
  }

  lemma DivContributionIdentities(g: real, a: real, b: real)
    requires b != 0.0
    ensures g * 1.0 / b == g * (1.0 / b)
    ensures -(g * a / (b * b)) == g * -(a / (b * b))
  {
  }

  /** The product rule holds exactly: moving both factors changes the product
      by the tangent plus the product of the two steps. */
  lemma MultTangentIsExact(a: seq<real>, b: seq<real>, ha: seq<real>, hb: seq<real>)
    requires |a| == |b| == |ha| == |hb|
    ensures BinaryForward(Mult, Add(a, ha), Add(b, hb))
         == Add(Add(BinaryForward(Mult, a, b), BinaryTangent(Mult, a, b, ha, hb)), Mul(ha, hb))
  {
    forall i | 0 <= i < |a|
      ensures BinaryForward(Mult, Add(a, ha), Add(b, hb))[i]
           == Add(Add(BinaryForward(Mult, a, b), BinaryTangent(Mult, a, b, ha, hb)), Mul(ha, hb))[i]
    {
      assert (a[i] + ha[i]) * (b[i] + hb[i]) == a[i] * b[i] + (ha[i] * b[i] + a[i] * hb[i]) + ha[i] * hb[i];
    }
  }

  /** Sum and difference are linear: their tangent is the exact change. */
  lemma PlusMinusTangentsAreExact(op: BinaryOp, a: seq<real>, b: seq<real>, ha: seq<real>, hb: seq<real>)
    requires (op == Plus || op == Minus) && |a| == |b| == |ha| == |hb|
    ensures BinaryForward(op, Add(a, ha), Add(b, hb))
         == Add(BinaryForward(op, a, b), BinaryTangent(op, a, b, ha, hb))
  {
  }

  /** A node that multiplies a parent by itself receives both contributions
      in the same gradient: together they are twice adjoint times value, the
      derivative of the square. */
  lemma SquareReceivesTwiceTheProduct(g: seq<real>, x: seq<real>)
    requires |g| == |x|
    ensures Add(ContributionA(Mult, g, x), ContributionB(Mult, g, x, x))
         == seq(|g|, i requires 0 <= i < |g| => 2.0 * g[i] * x[i])
  {
  }
}
