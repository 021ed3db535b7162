/** The operator nodes (node_operators.h): each holds its parents, takes its
    shape from them when it is constructed, writes its value in the forward
    pass and, in the backward pass, adds its contribution to every parent's
    gradient in place, so that a parent feeding several nodes ends up with
    the sum of their contributions. */
module OperatorNodes {
  import opened Wrappers
  import opened Tensors
  import opened Keywords
  import opened Nodes
  import opened Elementwise
  import opened OperatorShapes
  import opened Gradients

  class UnaryNodeOp {
    const op: UnaryOp
    const a: Node
    const base: Node

    constructor (op: UnaryOp, a: Node, args: KeywordBag)
      requires op == Argmax ==> |a.shape| >= 2
      ensures this.op == op && this.a == a
      ensures fresh(base) && fresh(base.val) && fresh(base.adj) && fresh(base.val.data) && fresh(base.adj.data)
      ensures base.Valid()
      ensures base.kw == UnaryKeywords(op, a.shape, args)
      ensures base.shape == UnaryKeywords(op, a.shape, args).shape.value
      ensures !base.val.isAllocated && !base.adj.isAllocated
    {
      this.op := op;
      this.a := a;
      base := new Node(UnaryKeywords(op, a.shape, args));
    }

    /** The forward pass of the exact unary operators: ReLU writes
        `max(0 * a, a)`, negation `-a`. Reading the parent's value fails
        when it is not allocated. */
    method Forward() returns (r: Outcome<NodeError>)
      requires op == ReLU || op == Neg
      requires base.val.isAllocated
      requires a.val.isAllocated ==> a.val.data.Length == base.val.data.Length
      requires a.val.data != base.val.data
      modifies base.val.data
      ensures r.Pass? <==> a.val.isAllocated
      ensures r.Fail? ==> r.error == Unallocated(UnallocatedMessage)
      ensures r.Fail? ==> base.val.data[..] == old(base.val.data[..])
      ensures r.Pass? && op == ReLU ==> base.val.data[..] == ReluForward(a.val.data[..])
      ensures r.Pass? && op == Neg ==> base.val.data[..] == Negated(a.val.data[..])
    {
      var av := a.Val();
      if av.Failure? {
        return Fail(av.error);
      }
      var x := av.value.data[..];
      Store(base.val.data, if op == ReLU then ReluForward(x) else Negated(x));
      return Pass;
    }

    /** What the backward pass reads must be allocated and aligned, log
        needs a non-zero parent value, and the parent's gradient must be
        storage of its own. */
    ghost predicate BackwardReady()
      reads this, base, base.adj, base.val, a, a.adj, a.val, a.val.data
    {
      && base.adj.isAllocated
      && (UsesOutput(op) ==> base.val.isAllocated && base.val.data.Length == base.adj.data.Length)
      && (a.adj.isAllocated ==> a.adj.data.Length == base.adj.data.Length)
      && (op == Log && a.val.isAllocated ==>
            a.val.data.Length == base.adj.data.Length && NonZero(a.val.data[..]))
      && a.adj.data != base.adj.data
      && a.adj.data != base.val.data
      && a.adj.data != a.val.data
    }

    /** Adds this node's contribution to its parent's gradient; argmax
        contributes nothing and touches nothing. Reading the parent's
        gradient, and for log the parent's value, fails when it is not
        allocated. */
    method Backward() returns (r: Outcome<NodeError>)
      requires BackwardFromOutput(op) || op == Log
      requires op != Argmax ==> BackwardReady()
      modifies a.adj.data
      ensures op == Argmax ==> r == Pass && a.adj.data[..] == old(a.adj.data[..])
      ensures op != Argmax && op != Log ==> (r.Pass? <==> a.adj.isAllocated)
      ensures op == Log ==> (r.Pass? <==> a.adj.isAllocated && a.val.isAllocated)
      ensures r.Fail? ==> r.error == Unallocated(UnallocatedMessage)
      ensures r.Fail? ==> a.adj.data[..] == old(a.adj.data[..])
      ensures op != Argmax && op != Log && r.Pass? ==>
        a.adj.data[..] == Add(old(a.adj.data[..]), UnaryContribution(op, base.adj.data[..], base.val.data[..]))
      ensures op == Log && r.Pass? ==>
        a.adj.data[..] == Add(old(a.adj.data[..]), LogContribution(base.adj.data[..], a.val.data[..]))
    {
      if op == Argmax {
        return Pass;
      }
      var ga := a.Grad();
      if ga.Failure? {
        return Fail(ga.error);
      }
      if op == Log {
        var av := a.Val();
        if av.Failure? {
          return Fail(av.error);
        }
        Accumulate(ga.value.data, LogContribution(base.adj.data[..], av.value.data[..]));
      } else {
        Accumulate(ga.value.data, UnaryContribution(op, base.adj.data[..], base.val.data[..]));
      }
      return Pass;
    }
  }

  class BinaryNodeOp {
    const op: BinaryOp
    const a: Node
    const b: Node
    const base: Node

    constructor (op: BinaryOp, a: Node, b: Node, args: KeywordBag)
      requires op == Dot ==> |a.shape| >= 2 && |b.shape| >= 2
      requires BinaryKeywords(op, a.shape, b.shape, args).Success?
      ensures this.op == op && this.a == a && this.b == b
      ensures fresh(base) && fresh(base.val) && fresh(base.adj) && fresh(base.val.data) && fresh(base.adj.data)
      ensures base.Valid()
      ensures base.kw == BinaryKeywords(op, a.shape, b.shape, args).value
      ensures base.shape == BinaryKeywords(op, a.shape, b.shape, args).value.shape.value
      ensures !base.val.isAllocated && !base.adj.isAllocated
    {
      this.op := op;
      this.a := a;
      this.b := b;
      base := new Node(BinaryKeywords(op, a.shape, b.shape, args).value);
    }

    /** Builds a binary operator node, or raises the shape error of a matrix
        product whose inner dimensions differ. */
    static method Create(op: BinaryOp, a: Node, b: Node, args: KeywordBag) returns (r: Result<BinaryNodeOp, NodeError>)
      requires op == Dot ==> |a.shape| >= 2 && |b.shape| >= 2
      ensures r.Failure? <==> op == Dot && DotShape(a.shape, b.shape).Failure?
      ensures r.Failure? ==> r.error == ShapeMismatch(DotMismatchMessage)
      ensures r.Success? ==> fresh(r.value) && fresh(r.value.base) && r.value.base.Valid()
      ensures r.Success? ==> r.value.op == op && r.value.a == a && r.value.b == b
      ensures r.Success? ==> r.value.base.kw == BinaryKeywords(op, a.shape, b.shape, args).value
      ensures r.Success? ==> r.value.base.shape == BinaryKeywords(op, a.shape, b.shape, args).value.shape.value
      ensures r.Success? ==> !r.value.base.val.isAllocated && !r.value.base.adj.isAllocated
    {
      var kw := BinaryKeywords(op, a.shape, b.shape, args);
      if kw.Failure? {
        return Failure(kw.error);
      }
      var n := new BinaryNodeOp(op, a, b, args);
      return Success(n);
    }

    /** The forward pass of the element-wise binary operators. Reading a
        parent's value fails when it is not allocated. */
    method Forward() returns (r: Outcome<NodeError>)
      requires op != Dot
      requires base.val.isAllocated
      requires a.val.isAllocated ==> a.val.data.Length == base.val.data.Length
      requires b.val.isAllocated ==> b.val.data.Length == base.val.data.Length
      requires op == Div && b.val.isAllocated ==> NonZero(b.val.data[..])
      requires a.val.data != base.val.data && b.val.data != base.val.data
      modifies base.val.data
      ensures r.Pass? <==> a.val.isAllocated && b.val.isAllocated
      ensures r.Fail? ==> r.error == Unallocated(UnallocatedMessage)
      ensures r.Fail? ==> base.val.data[..] == old(base.val.data[..])
      ensures r.Pass? ==> base.val.data[..] == BinaryForward(op, a.val.data[..], b.val.data[..])
    {
      var av := a.Val();
      if av.Failure? {
        return Fail(av.error);
      }
      var bv := b.Val();
      if bv.Failure? {
        return Fail(bv.error);
      }
      Store(base.val.data, BinaryForward(op, av.value.data[..], bv.value.data[..]));
      return Pass;
    }

    /** Whether the backward rule reads the parents' values. */
    predicate NeedsValues() {
      op == Mult || op == Div
    }

    /** The accessors the first half of the backward pass calls succeed. */
    ghost predicate FirstHalfOk()
      reads this, a, a.adj, b, b.val
    {
      a.adj.isAllocated && (NeedsValues() ==> b.val.isAllocated)
    }

    /** The accessors the second half of the backward pass calls succeed. */
    ghost predicate SecondHalfOk()
      reads this, a, a.val, b, b.adj
    {
      b.adj.isAllocated && (NeedsValues() ==> a.val.isAllocated)
    }

    /** What the backward pass reads must be allocated and aligned, division
        needs non-zero divisors, and the parents' gradients must be storage
        of their own, shared only when both parents are the same node. */
    ghost predicate BackwardReady()
      reads this, base, base.adj, a, a.adj, a.val, b, b.adj, b.val, b.val.data
    {
      var n := base.adj.data.Length;
      && base.adj.isAllocated
      && (a.adj.isAllocated ==> a.adj.data.Length == n)
      && (b.adj.isAllocated ==> b.adj.data.Length == n)
      && (NeedsValues() && a.val.isAllocated ==> a.val.data.Length == n)
      && (NeedsValues() && b.val.isAllocated ==> b.val.data.Length == n)
      && (op == Div && b.val.isAllocated ==> NonZero(b.val.data[..]))
      && a.adj.data != base.adj.data && a.adj.data != a.val.data && a.adj.data != b.val.data
      && b.adj.data != base.adj.data && b.adj.data != a.val.data && b.adj.data != b.val.data
      && (a != b ==> a.adj.data != b.adj.data)
    }

    /** Adds the first parent's contribution to its gradient, then the
        second parent's to its own. Each half first reads the gradient it
        writes (and, for product and quotient, the other parent's value),
        and fails if that is not allocated; a failure in the second half
        leaves the first half's update in place. When both parents are the
        same node its gradient receives both contributions. */
    method Backward() returns (r: Outcome<NodeError>)
      requires op != Dot && BackwardReady()
      modifies a.adj.data, b.adj.data
      ensures BackwardReady()
      ensures r.Pass? <==> FirstHalfOk() && SecondHalfOk()
      ensures r.Fail? ==> r.error == Unallocated(UnallocatedMessage)
      ensures a != b ==>
        a.adj.data[..] == (
          if FirstHalfOk() then Add(old(a.adj.data[..]), ContributionA(op, base.adj.data[..], b.val.data[..]))
          else old(a.adj.data[..]))
      ensures a != b ==>
        b.adj.data[..] == (
          if FirstHalfOk() && SecondHalfOk()
          then Add(old(b.adj.data[..]), ContributionB(op, base.adj.data[..], a.val.data[..], b.val.data[..]))
          else old(b.adj.data[..]))
      ensures a == b ==> (FirstHalfOk() <==> SecondHalfOk())
      ensures a == b ==>
        a.adj.data[..] == (
          if FirstHalfOk()
          then Add(Add(old(a.adj.data[..]), ContributionA(op, base.adj.data[..], b.val.data[..])),
                   ContributionB(op, base.adj.data[..], a.val.data[..], b.val.data[..]))
          else old(a.adj.data[..]))
    {
      var g := base.adj.data[..];
      var ga := a.Grad();
      if ga.Failure? {
        return Fail(ga.error);
      }
      var bv: seq<real> := b.val.data[..];
      if NeedsValues() {
        var bVal := b.Val();
        if bVal.Failure? {
          return Fail(bVal.error);
        }
        bv := bVal.value.data[..];
      }
      Accumulate(ga.value.data, ContributionA(op, g, bv));
      var gb := b.Grad();
      if gb.Failure? {
        return Fail(gb.error);
      }
      var av: seq<real> := a.val.data[..];
      if NeedsValues() {
        var aVal := a.Val();
        if aVal.Failure? {
          return Fail(aVal.error);
        }
        av := aVal.value.data[..];
      }
      Accumulate(gb.value.data, ContributionB(op, g, av, bv));
      return Pass;
    }
  }

  class CrossEntropyNodeOp {
    const a: Node
    const b: Node
    const base: Node
    /** The softmax of the first parent, kept from the forward pass for the backward pass. */
    const probs: Tensor

    constructor (a: Node, b: Node, args: KeywordBag)
      requires |a.shape| >= 2 && |b.shape| >= 2
      requires CrossEntropyKeywords(a.shape, b.shape, args).Success?
      ensures this.a == a && this.b == b
      ensures fresh(base) && fresh(base.val) && fresh(base.adj) && fresh(base.val.data) && fresh(base.adj.data)
      ensures base.Valid()
      ensures base.kw == CrossEntropyKeywords(a.shape, b.shape, args).value
      ensures base.shape == CrossEntropyKeywords(a.shape, b.shape, args).value.shape.value
      ensures !base.val.isAllocated && !base.adj.isAllocated
      ensures fresh(probs) && fresh(probs.data) && probs.Valid() && !probs.isAllocated
    {
      this.a := a;
      this.b := b;
      base := new Node(CrossEntropyKeywords(a.shape, b.shape, args).value);
      probs := new Tensor();
    }

    /** Builds a cross-entropy node, or raises the shape error of operands
        that differ in rows or columns. */
    static method Create(a: Node, b: Node, args: KeywordBag) returns (r: Result<CrossEntropyNodeOp, NodeError>)
      requires |a.shape| >= 2 && |b.shape| >= 2
      ensures r.Failure? <==> CrossEntropyShape(a.shape, b.shape).Failure?
      ensures r.Failure? ==> r.error == ShapeMismatch(CrossEntropyMismatchMessage)
      ensures r.Success? ==> fresh(r.value) && fresh(r.value.base) && fresh(r.value.probs)
      ensures r.Success? ==> r.value.a == a && r.value.b == b && !r.value.probs.isAllocated
      ensures r.Success? ==> r.value.base.kw == CrossEntropyKeywords(a.shape, b.shape, args).value
      ensures r.Success? ==> r.value.base.shape == CrossEntropyKeywords(a.shape, b.shape, args).value.shape.value
      ensures r.Success? ==> !r.value.base.val.isAllocated && !r.value.base.adj.isAllocated
    {
      var kw := CrossEntropyKeywords(a.shape, b.shape, args);
      if kw.Failure? {
        return Failure(kw.error);
      }
      var n := new CrossEntropyNodeOp(a, b, args);
      return Success(n);
    }

    /** The first step of the forward pass: the probability buffer is
        allocated, zero-filled, with the shape of the first parent's value on
        the first call and refilled with zeros in place on later calls, and
        the first parent's value is copied into its front. The copy needs the
        buffer to have room for it. */
    method LoadProbs() returns (r: Outcome<NodeError>)
      requires probs.Valid() && a.val.Valid()
      requires probs.isAllocated && a.val.isAllocated ==> a.val.data.Length <= probs.data.Length
      requires probs != a.val && probs.data != a.val.data
      modifies probs, probs.data
      ensures probs.Valid()
      ensures r.Pass? <==> a.val.isAllocated
      ensures r.Fail? ==> r.error == Unallocated(UnallocatedMessage)
      ensures old(probs.isAllocated) ==>
        probs.isAllocated && probs.data == old(probs.data) && probs.shape == old(probs.shape)
      ensures !old(probs.isAllocated) && r.Pass? ==>
        probs.isAllocated && fresh(probs.data) && probs.shape == a.val.shape
      ensures !old(probs.isAllocated) && r.Fail? ==> !probs.isAllocated && probs.data == old(probs.data)
      ensures old(probs.isAllocated) && r.Fail? ==> probs.data[..] == Filled(probs.data.Length, 0.0)
      ensures r.Pass? ==> a.val.data.Length <= probs.data.Length
      ensures r.Pass? ==> probs.data[..a.val.data.Length] == a.val.data[..]
      ensures r.Pass? ==> forall i :: a.val.data.Length <= i < probs.data.Length ==> probs.data[i] == 0.0
    {
      if probs.isAllocated {
        probs.Set(0.0);
      } else {
        var first := a.Val();
        if first.Failure? {
          return Fail(first.error);
        }
        probs.AllocateFilled(first.value.shape, 0.0);
      }
      var av := a.Val();
      if av.Failure? {
        return Fail(av.error);
      }
      var src, dst := av.value.data, probs.data;
      var i := 0;
      while i < src.Length
        modifies dst
        invariant 0 <= i <= src.Length <= dst.Length
        invariant forall k :: 0 <= k < i ==> dst[k] == src[k]
        invariant forall k :: i <= k < dst.Length ==> dst[k] == 0.0
      {
        dst[i] := src[i];
        i := i + 1;
      }
      return Pass;
    }
  }
}
