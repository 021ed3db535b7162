/** The graph vertex (node.h): a node holds a shape, a value tensor and an
    adjoint (gradient) tensor, resolves its batch-size placeholders when it
    is allocated, and allocates or refills its adjoint before a backward pass. */
module Nodes {
  import opened Wrappers
  import opened Tensors
  import opened Keywords

  datatype NodeError =
    | Unallocated(msg: string)
    | MissingShape(msg: string)
    | ShapeMismatch(msg: string)

  const UnallocatedMessage: string := "Tensor has not been allocated"

  /** The shape of a node built without a `shape` keyword. */
  const DefaultShape: Shape := [1, 1]

  /** The name of a node built without a `name` keyword. */
  const DefaultName: string := "none"

  /** One dimension after allocation with `batchSize`. */
  function ResolveDim(d: int, batchSize: nat): int {
    if d == Whatevs then batchSize else d
  }

  /** A shape after its placeholders are replaced by `batchSize`, one
      dimension at a time from the first. */
  function Resolve(s: Shape, batchSize: nat): Shape {
    if s == [] then [] else Resolve(s[..|s| - 1], batchSize) + [ResolveDim(s[|s| - 1], batchSize)]
  }

  lemma {:induction false} ResolveAt(s: Shape, batchSize: nat)
    ensures |Resolve(s, batchSize)| == |s|
    ensures forall i :: 0 <= i < |s| ==> Resolve(s, batchSize)[i] == ResolveDim(s[i], batchSize)
  {
    if s != [] {
      ResolveAt(s[..|s| - 1], batchSize);
    }
  }

  /** Resolution leaves no placeholder behind, puts the batch size exactly
      where the placeholders were, and keeps every other dimension. */
  lemma ResolveEliminatesPlaceholders(s: Shape, batchSize: nat)
    ensures |Resolve(s, batchSize)| == |s|
    ensures Whatevs !in Resolve(s, batchSize)
    ensures forall i :: 0 <= i < |s| && s[i] == Whatevs ==> Resolve(s, batchSize)[i] == batchSize
    ensures forall i :: 0 <= i < |s| && s[i] != Whatevs ==> Resolve(s, batchSize)[i] == s[i]
  {
    ResolveAt(s, batchSize);
  }

  /** Resolution overwrites the placeholders, so a later allocation with a
      different batch size finds none left to resolve: the first batch size
      sticks. */
  lemma ResolveIsSticky(s: Shape, first: nat, later: nat)
    ensures Resolve(Resolve(s, first), later) == Resolve(s, first)
  {
    ResolveAt(s, first);
    ResolveAt(Resolve(s, first), later);
  }

  /** The shape `allocate(batchSize)` leaves a node with: the lazy shape
      producer's result when one was passed, the resolved shape otherwise. */
  function AllocatedShape(kw: KeywordBag, s: Shape, batchSize: nat): (r: Shape)
    ensures kw.lazyShape.Some? ==> r == kw.lazyShape.value()
    ensures kw.lazyShape.None? ==>
      |r| == |s| && forall i :: 0 <= i < |s| ==> r[i] == (if s[i] == Whatevs then batchSize else s[i])
  {
    ResolveAt(s, batchSize);
    if kw.lazyShape.Some? then kw.lazyShape.value() else Resolve(s, batchSize)
  }

  /** The value a fresh value tensor is filled with: the lazy value producer's
      result takes precedence over a constant `value`; with neither there is none. */
  function FillValue(kw: KeywordBag): (r: Option<real>)
    ensures r.None? <==> kw.lazyValue.None? && kw.value.None?
    ensures kw.lazyValue.Some? ==> r == Some(kw.lazyValue.value())
    ensures kw.lazyValue.None? ==> r == kw.value
  {
    if kw.lazyValue.Some? then Some(kw.lazyValue.value()) else kw.value
  }

  class Node {
    var shape: Shape
    const name: string
    const kw: KeywordBag
    var val: Tensor
    const adj: Tensor

    /** The value and the adjoint are two tensors with storage of their own. */
    ghost predicate Valid()
      reads this, val, adj
    {
      val != adj && val.data != adj.data && val.Valid() && adj.Valid()
    }

    /** A node built from the keywords `kw`; neither tensor is allocated yet. */
    constructor (kw: KeywordBag)
      ensures Valid() && this.kw == kw
      ensures shape == (if kw.shape.Some? then kw.shape.value else DefaultShape)
      ensures name == (if kw.name.Some? then kw.name.value else DefaultName)
      ensures fresh(val) && fresh(adj) && fresh(val.data) && fresh(adj.data)
      ensures !val.isAllocated && !adj.isAllocated
    {
      this.kw := kw;
      shape := kw.shape.GetOr(DefaultShape);
      name := kw.name.GetOr(DefaultName);
      val := new Tensor();
      adj := new Tensor();
    }

    /** Replaces every placeholder dimension by `batchSize` and applies the
        lazy shape if there is one; a value tensor without storage then gets
        storage of the resulting shape, filled when a value keyword says so,
        while one that has storage keeps it and its contents. */
    method Allocate(batchSize: nat)
      requires Valid()
      modifies this`shape, val
      ensures Valid() && val == old(val) && val.isAllocated
      ensures shape == AllocatedShape(kw, old(shape), batchSize)
      ensures old(val.isAllocated) ==>
        val.shape == old(val.shape) && val.data == old(val.data) && val.data[..] == old(val.data[..])
      ensures !old(val.isAllocated) ==> val.shape == shape && fresh(val.data)
      ensures !old(val.isAllocated) && FillValue(kw).Some? ==>
        val.data[..] == Filled(val.data.Length, FillValue(kw).value)
    {
      var i := 0;
      while i < |shape|
        invariant Valid() && val == old(val) && unchanged(val)
        invariant 0 <= i <= |shape| == |old(shape)|
        invariant forall k :: 0 <= k < i ==> shape[k] == ResolveDim(old(shape)[k], batchSize)
        invariant forall k :: i <= k < |shape| ==> shape[k] == old(shape)[k]
      {
        if shape[i] == Whatevs {
          shape := shape[i := batchSize];
        }
        i := i + 1;
      }
      ResolveAt(old(shape), batchSize);
      if kw.lazyShape.Some? {
        shape := kw.lazyShape.value();
      }
      if kw.lazyValue.Some? {
        val.AllocateFilled(shape, kw.lazyValue.value());
      } else if kw.value.Some? {
        val.AllocateFilled(shape, kw.value.value);
      } else {
        val.Allocate(shape);
      }
    }

    /** Seeds the adjoint of the output node: every element becomes 1, in the
        existing storage when there is one, in fresh storage of the node's
        shape otherwise. */
    method InitDependent()
      requires Valid()
      modifies adj, adj.data
      ensures Valid() && adj.isAllocated
      ensures adj.data[..] == Filled(adj.data.Length, 1.0)
      ensures old(adj.isAllocated) ==> adj.data == old(adj.data) && adj.shape == old(adj.shape)
      ensures !old(adj.isAllocated) ==> fresh(adj.data) && adj.shape == shape
    {
      if adj.isAllocated {
        adj.Set(1.0);
      } else {
        adj.AllocateFilled(shape, 1.0);
      }
    }

    /** Clears the adjoint before a backward pass: every element becomes 0,
        in the existing storage when there is one, in fresh storage of the
        node's shape otherwise. */
    method SetZeroAdjoint()
      requires Valid()
      modifies adj, adj.data
      ensures Valid() && adj.isAllocated
      ensures adj.data[..] == Filled(adj.data.Length, 0.0)
      ensures old(adj.isAllocated) ==> adj.data == old(adj.data) && adj.shape == old(adj.shape)
      ensures !old(adj.isAllocated) ==> fresh(adj.data) && adj.shape == shape
    {
      if adj.isAllocated {
        adj.Set(0.0);
      } else {
        adj.AllocateFilled(shape, 0.0);
      }
    }

    /** The value tensor, or an error when it has not been allocated. */
    function Val(): (r: Result<Tensor, NodeError>)
      reads this, val
      ensures r.Success? <==> val.isAllocated
      ensures r.Success? ==> r.value == val
      ensures r.Failure? ==> r.error == Unallocated(UnallocatedMessage)
    {
      if val.isAllocated then Success(val) else Failure(Unallocated(UnallocatedMessage))
    }

    /** The adjoint tensor, or an error when it has not been allocated. */
    function Grad(): (r: Result<Tensor, NodeError>)
      reads this, adj
      ensures r.Success? <==> adj.isAllocated
      ensures r.Success? ==> r.value == adj
      ensures r.Failure? ==> r.error == Unallocated(UnallocatedMessage)
    {
      if adj.isAllocated then Success(adj) else Failure(Unallocated(UnallocatedMessage))
    }

    /** The shape as it stands: the declared shape, placeholders included,
        until the first allocation, the resolved one after it. */
    function CurrentShape(): (r: Shape)
      reads this
      ensures r == shape
    {
      shape
    }
  }

  /** A node declared with a batch-size placeholder reports it until
      allocation; `allocate(3)` turns it into 3, and a second allocation
      with another batch size keeps 3. */
  method PlaceholderLifecycle() returns (before: Shape, first: Shape, second: Shape)
    ensures before == [Whatevs, 5]
    ensures first == [3, 5]
    ensures second == [3, 5]
  {
    var n := new Node(WithShape([Whatevs, 5]));
    before := n.CurrentShape();
    n.Allocate(3);
    first := n.CurrentShape();
    n.Allocate(7);
    second := n.CurrentShape();
  }
}
