/** The shape rules of the operator nodes (node_operators.h): every operator
    computes its shape from its parents' shapes when it is constructed and
    passes it on as a `shape` keyword, ahead of the caller's own keywords;
    the matrix product and the cross entropy refuse parents whose shapes
    do not fit. */
module OperatorShapes {
  import opened Wrappers
  import opened Tensors
  import opened Keywords
  import opened Nodes

  datatype UnaryOp = Logit | Tanh | ReLU | Dropout | Softmax | Argmax | Log | Exp | Neg

  datatype BinaryOp = Dot | Plus | Minus | Mult | Div

  const DotMismatchMessage: string := "matrix product requires dimensions to match"
  const CrossEntropyMismatchMessage: string := "cross entropy requires dimensions to match"

  /** Argmax keeps the rows and has one column. */
  function ArgmaxShape(s: Shape): (r: Shape)
    requires |s| >= 2
    ensures |r| == |s| && r[1] == 1
    ensures forall i :: 0 <= i < |s| && i != 1 ==> r[i] == s[i]
  {
    s[1 := 1]
  }

  /** The matrix product of an (m, k) and a (k, n) operand is (m, n); any
      other pair of inner dimensions is refused. */
  function DotShape(sa: Shape, sb: Shape): (r: Result<Shape, NodeError>)
    requires |sa| >= 2 && |sb| >= 2
    ensures r.Failure? <==> sa[1] != sb[0]
    ensures r.Failure? ==> r.error == ShapeMismatch(DotMismatchMessage)
    ensures r.Success? ==> |r.value| == |sa| && r.value[0] == sa[0] && r.value[1] == sb[1]
    ensures r.Success? ==> forall i :: 2 <= i < |sa| ==> r.value[i] == sa[i]
  {
    if sa[1] != sb[0] then Failure(ShapeMismatch(DotMismatchMessage)) else Success(sa[1 := sb[1]])
  }

  /** The cross entropy of two operands that agree in rows and columns has
      one entry per row; operands that disagree in either are refused.
      Dimensions past the second are not compared. */
  function CrossEntropyShape(sa: Shape, sb: Shape): (r: Result<Shape, NodeError>)
    requires |sa| >= 2 && |sb| >= 2
    ensures r.Failure? <==> sa[0] != sb[0] || sa[1] != sb[1]
    ensures r.Failure? ==> r.error == ShapeMismatch(CrossEntropyMismatchMessage)
    ensures r.Success? ==> r.value == ArgmaxShape(sa)
  {
    if sa[0] != sb[0] || sa[1] != sb[1] then Failure(ShapeMismatch(CrossEntropyMismatchMessage))
    else Success(sa[1 := 1])
  }

  /** Shapes of matrix products compose like the products: whenever
      (A B) C is well formed, so are B C and A (B C), with the same shape. */
  lemma DotShapeAssociative(sa: Shape, sb: Shape, sc: Shape)
    requires |sa| >= 2 && |sb| >= 2 && |sc| >= 2
    requires DotShape(sa, sb).Success?
    requires DotShape(DotShape(sa, sb).value, sc).Success?
    ensures DotShape(sb, sc).Success?
    ensures DotShape(sa, DotShape(sb, sc).value) == DotShape(DotShape(sa, sb).value, sc)
  {
    var ab := DotShape(sa, sb).value;
    var bc := DotShape(sb, sc).value;
    assert DotShape(sa, bc).value == sa[1 := sc[1]];
    assert DotShape(ab, sc).value == sa[1 := sc[1]];
  }

  /** A (2, 3) by (4, 5) product is refused at construction. */
  lemma DotShapeRefusesMismatch()
    ensures DotShape([2, 3], [4, 5]) == Failure(ShapeMismatch(DotMismatchMessage))
  {
  }

  /** The keywords a unary operator node is built from: its parent's shape,
      then, for argmax, argmax's own shape, then the caller's keywords. */
  function UnaryKeywords(op: UnaryOp, parent: Shape, args: KeywordBag): (r: KeywordBag)
    requires op == Argmax ==> |parent| >= 2
    ensures args.shape.None? && op != Argmax ==> r.shape == Some(parent)
    ensures args.shape.None? && op == Argmax ==> r.shape == Some(ArgmaxShape(parent))
    ensures args.shape.Some? ==> r.shape == args.shape
    ensures r.(shape := args.shape) == args
  {
    var inherited := WithShape(parent);
    var own := if op == Argmax then Override(inherited, WithShape(ArgmaxShape(parent))) else inherited;
    Override(own, args)
  }

  /** The keywords a binary operator node is built from, or the shape error
      its constructor raises: the matrix product's shape, the first parent's
      shape for the element-wise operators, then the caller's keywords. */
  function BinaryKeywords(op: BinaryOp, sa: Shape, sb: Shape, args: KeywordBag): (r: Result<KeywordBag, NodeError>)
    requires op == Dot ==> |sa| >= 2 && |sb| >= 2
    ensures r.Failure? <==> op == Dot && DotShape(sa, sb).Failure?
    ensures r.Failure? ==> r.error == ShapeMismatch(DotMismatchMessage)
    ensures r.Success? && args.shape.None? && op == Dot ==> r.value.shape == Some(DotShape(sa, sb).value)
    ensures r.Success? && args.shape.None? && op != Dot ==> r.value.shape == Some(sa)
    ensures r.Success? && args.shape.Some? ==> r.value.shape == args.shape
    ensures r.Success? ==> r.value.(shape := args.shape) == args
  {
    if op == Dot then
      match DotShape(sa, sb)
      case Failure(e) => Failure(e)
      case Success(s) => Success(Override(WithShape(s), args))
    else
      Success(Override(WithShape(sa), args))
  }

  /** The keywords a cross-entropy node is built from, or the shape error its
      constructor raises. */
  function CrossEntropyKeywords(sa: Shape, sb: Shape, args: KeywordBag): (r: Result<KeywordBag, NodeError>)
    requires |sa| >= 2 && |sb| >= 2
    ensures r.Failure? <==> CrossEntropyShape(sa, sb).Failure?
    ensures r.Failure? ==> r.error == ShapeMismatch(CrossEntropyMismatchMessage)
    ensures r.Success? && args.shape.None? ==> r.value.shape == Some(ArgmaxShape(sa))
    ensures r.Success? && args.shape.Some? ==> r.value.shape == args.shape
    ensures r.Success? ==> r.value.(shape := args.shape) == args
  {
    match CrossEntropyShape(sa, sb)
    case Failure(e) => Failure(e)
    case Success(s) => Success(Override(WithShape(s), args))
  }
}
