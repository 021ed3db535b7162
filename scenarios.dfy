/** Whole-graph uses of the nodes: building, allocating, running forward and
    backward through the node methods themselves. */
module Scenarios {
  import opened Wrappers
  import opened Tensors
  import opened Keywords
  import opened Nodes
  import opened Elementwise
  import opened OperatorShapes
  import opened Gradients
  import opened LeafNodes
  import opened OperatorNodes

  /** A constant x of shape (1, 1) holding 2 feeds both operands of a
      product. The forward pass gives 4; seeding the product's adjoint with
      one and running its backward pass leaves x's gradient at 4, the
      derivative of x^2 at 2: the contributions through the two operands are
      added, neither overwrites the other. */
  method SquareOfConstant() returns (value: seq<real>, grad: seq<real>)
    ensures value == [4.0]
    ensures grad == [4.0]
  {
    var x := AllocatedConstant();
    var sq := AllocatedProduct(x, x, [2.0]);
    value := sq.base.val.data[..];
    assert Size([1, 1]) == 1;
    sq.base.InitDependent();
    x.SetZeroAdjoint();
    grad := SquareBackward(x, sq);
  }

  /** The backward pass of x * x from a seeded graph; returns x's gradient. */
  method SquareBackward(x: Node, sq: BinaryNodeOp) returns (grad: seq<real>)
    requires sq.op == Mult && sq.a == x && sq.b == x
    requires x.val.isAllocated && x.val.data[..] == [2.0]
    requires sq.base.adj.isAllocated && sq.base.adj.data[..] == [1.0]
    requires x.adj.isAllocated && x.adj.data[..] == [0.0]
    requires x.adj.data != x.val.data && x.adj.data != sq.base.adj.data
    modifies x.adj.data
    ensures grad == [4.0]
  {
    var b := sq.Backward();
    assert Add(Add([0.0], ContributionA(Mult, [1.0], [2.0])), ContributionB(Mult, [1.0], [2.0], [2.0])) == [4.0];
    grad := x.adj.data[..];
  }

  /** A constant x of shape (1, 1) holding 2 feeds both a negation y = -x and
      the product x * y = -x^2. Running the product's backward pass and then
      the negation's, in reverse topological order, leaves x's gradient at
      -4, the derivative of -x^2 at 2: the product's contribution through its
      first operand and the one that flows back through y are added. */
  method NegatedSquare() returns (value: seq<real>, grad: seq<real>)
    ensures value == [-4.0]
    ensures grad == [-4.0]
  {
    var x, y, p := NegatedSquareForward();
    value := p.base.val.data[..];
    SeedAdjoints(p.base, y.base, x);
    grad := NegatedSquareBackward(x, y, p);
  }

  /** Builds x, y = -x and x * y, allocates them with batch size 1 and runs
      their forward passes. */
  method NegatedSquareForward() returns (x: Node, y: UnaryNodeOp, p: BinaryNodeOp)
    ensures fresh(x) && fresh(x.val) && fresh(x.adj) && fresh(x.adj.data)
    ensures fresh(y) && fresh(y.base) && fresh(y.base.val) && fresh(y.base.adj) && fresh(y.base.adj.data)
    ensures fresh(p) && fresh(p.base) && fresh(p.base.val) && fresh(p.base.adj) && fresh(p.base.adj.data)
    ensures y.op == Neg && y.a == x && p.op == Mult && p.a == x && p.b == y.base
    ensures x.Valid() && y.base.Valid() && p.base.Valid()
    ensures x.shape == [1, 1] && y.base.shape == [1, 1] && p.base.shape == [1, 1]
    ensures !x.adj.isAllocated && !y.base.adj.isAllocated && !p.base.adj.isAllocated
    ensures x.adj != y.base.adj && x.adj != p.base.adj && y.base.adj != p.base.adj
    ensures {x.val, y.base.val, p.base.val} !! {x.adj, y.base.adj, p.base.adj}
    ensures {x.val.data, y.base.val.data, p.base.val.data} !! {x.adj.data, y.base.adj.data, p.base.adj.data}
    ensures x.val.isAllocated && x.val.data[..] == [2.0]
    ensures y.base.val.isAllocated && y.base.val.data[..] == [-2.0]
    ensures p.base.val.isAllocated && p.base.val.data[..] == [-4.0]
  {
    x := AllocatedConstant();
    y := AllocatedNegation(x);
    p := AllocatedProduct(x, y.base, [-2.0]);
  }

  /** A constant of shape (1, 1) holding 2, allocated. */
  method AllocatedConstant() returns (x: Node)
    ensures fresh(x) && fresh(x.val) && fresh(x.adj) && fresh(x.val.data) && fresh(x.adj.data)
    ensures x.Valid() && x.shape == [1, 1] && !x.adj.isAllocated
    ensures x.val.isAllocated && x.val.data[..] == [2.0]
  {
    var c := new ConstantNode(NoKeywords.(shape := Some([1, 1]), value := Some(2.0)));
    x := c.base;
    x.Allocate(1);
    assert Size([1, 1]) == 1;
  }

  /** The negation of `a`, allocated with batch size 1 and run forward. */
  method AllocatedNegation(a: Node) returns (y: UnaryNodeOp)
    requires a.Valid() && a.shape == [1, 1] && a.val.isAllocated && a.val.data[..] == [2.0]
    ensures fresh(y) && fresh(y.base) && fresh(y.base.val) && fresh(y.base.adj)
    ensures fresh(y.base.val.data) && fresh(y.base.adj.data)
    ensures y.op == Neg && y.a == a
    ensures y.base.Valid() && y.base.shape == [1, 1] && !y.base.adj.isAllocated
    ensures y.base.val.isAllocated && y.base.val.data[..] == [-2.0]
  {
    y := new UnaryNodeOp(Neg, a, NoKeywords);
    y.base.Allocate(1);
    assert Size([1, 1]) == 1;
    var f := y.Forward();
  }

  /** The product of `a`, holding 2, and `b`, holding `bv`, allocated with
      batch size 1 and run forward. */
  method AllocatedProduct(a: Node, b: Node, bv: seq<real>) returns (p: BinaryNodeOp)
    requires a.Valid() && a.shape == [1, 1] && a.val.isAllocated && a.val.data[..] == [2.0]
    requires b.Valid() && b.val.isAllocated && b.val.data[..] == bv && |bv| == 1
    ensures fresh(p) && fresh(p.base) && fresh(p.base.val) && fresh(p.base.adj)
    ensures fresh(p.base.val.data) && fresh(p.base.adj.data)
    ensures p.op == Mult && p.a == a && p.b == b
    ensures p.base.Valid() && p.base.shape == [1, 1] && !p.base.adj.isAllocated
    ensures p.base.val.isAllocated && p.base.val.data[..] == [2.0 * bv[0]]
  {
    p := new BinaryNodeOp(Mult, a, b, NoKeywords);
    assert p.base.shape == [1, 1];
    p.base.Allocate(1);
    assert Size([1, 1]) == 1;
    assert p.base.val.data.Length == 1;
    var f := p.Forward();
  }

  /** Seeds the output's adjoint with ones and clears the other two, each in
      fresh storage. */
  method SeedAdjoints(out: Node, n1: Node, n2: Node)
    requires out.Valid() && n1.Valid() && n2.Valid()
    requires !out.adj.isAllocated && !n1.adj.isAllocated && !n2.adj.isAllocated
    requires out.shape == [1, 1] && n1.shape == [1, 1] && n2.shape == [1, 1]
    requires out.adj != n1.adj && out.adj != n2.adj && n1.adj != n2.adj
    modifies out.adj, out.adj.data, n1.adj, n1.adj.data, n2.adj, n2.adj.data
    ensures out.Valid() && n1.Valid() && n2.Valid()
    ensures fresh(out.adj.data) && fresh(n1.adj.data) && fresh(n2.adj.data)
    ensures out.adj.data != n1.adj.data && out.adj.data != n2.adj.data && n1.adj.data != n2.adj.data
    ensures out.adj.isAllocated && out.adj.data[..] == [1.0]
    ensures n1.adj.isAllocated && n1.adj.data[..] == [0.0]
    ensures n2.adj.isAllocated && n2.adj.data[..] == [0.0]
  {
    assert Size([1, 1]) == 1;
    out.InitDependent();
    n1.SetZeroAdjoint();
    n2.SetZeroAdjoint();
  }

  /** The backward passes of x * y and of y = -x, in that order, from a
      seeded graph; returns x's gradient. */
  method NegatedSquareBackward(x: Node, y: UnaryNodeOp, p: BinaryNodeOp) returns (grad: seq<real>)
    requires y.op == Neg && y.a == x && p.op == Mult && p.a == x && p.b == y.base && x != y.base
    requires x.val.isAllocated && x.val.data[..] == [2.0]
    requires y.base.val.isAllocated && y.base.val.data[..] == [-2.0]
    requires p.base.adj.isAllocated && p.base.adj.data[..] == [1.0]
    requires x.adj.isAllocated && x.adj.data[..] == [0.0]
    requires y.base.adj.isAllocated && y.base.adj.data[..] == [0.0]
    requires x.adj.data != x.val.data && x.adj.data != y.base.val.data && x.adj.data != p.base.adj.data
    requires y.base.adj.data != x.val.data && y.base.adj.data != y.base.val.data
    requires y.base.adj.data != p.base.adj.data && y.base.adj.data != x.adj.data
    modifies x.adj.data, y.base.adj.data
    ensures grad == [-4.0]
  {
    var bMult := p.Backward();
    ProductContributions();
    var bNeg := y.Backward();
    grad := x.adj.data[..];
  }

  /** The arithmetic of the backward pass of -x^2 at x = 2. */
  lemma ProductContributions()
    ensures Add([0.0], ContributionA(Mult, [1.0], [-2.0])) == [-2.0]
    ensures Add([0.0], ContributionB(Mult, [1.0], [2.0], [-2.0])) == [2.0]
    ensures Add([-2.0], UnaryContribution(Neg, [2.0], [-2.0])) == [-4.0]
  {
  }

  /** A node read by two unary consumers, whatever their adjoints and its
      own gradient hold: after both backward passes its gradient is the old
      gradient plus both contributions, so neither pass overwrites the other
      and the order of the two passes does not matter. */
  method FanOutAccumulates(x: Node, y1: UnaryNodeOp, y2: UnaryNodeOp)
    requires y1.a == x && y2.a == x
    requires BackwardFromOutput(y1.op) && y1.op != Argmax
    requires BackwardFromOutput(y2.op) && y2.op != Argmax
    requires y1.BackwardReady() && y2.BackwardReady()
    requires x.adj.isAllocated
    modifies x.adj.data
    ensures x.adj.data[..] == Add(old(x.adj.data[..]), Add(
      UnaryContribution(y1.op, y1.base.adj.data[..], y1.base.val.data[..]),
      UnaryContribution(y2.op, y2.base.adj.data[..], y2.base.val.data[..])))
  {
    ghost var g := x.adj.data[..];
    ghost var c1 := UnaryContribution(y1.op, y1.base.adj.data[..], y1.base.val.data[..]);
    ghost var c2 := UnaryContribution(y2.op, y2.base.adj.data[..], y2.base.val.data[..]);
    var r1 := y1.Backward();
    var r2 := y2.Backward();
    AccumulationCommutes(g, c1, c2);
  }
}
