/** The tensor the graph nodes store their values and gradients in.
    The tensor implementation is an external collaborator of the node layer;
    this module models only what the nodes rely on: an allocation flag, a
    shape, and a flat buffer of elements that is created once (allocation)
    and refilled in place (set). */
module Tensors {

  /** One size per dimension. */
  type Shape = seq<int>

  /** The batch-size placeholder a shape dimension may hold until allocation. */
  const Whatevs: int := -1

  /** A dimension size as a count of elements: a negative size holds none. */
  function Extent(d: int): nat {
    if d < 0 then 0 else d
  }

  /** Number of elements of a tensor of shape `s`. */
  function Size(s: Shape): nat {
    if s == [] then 1 else Extent(s[0]) * Size(s[1..])
  }

  /** `n` copies of `v`. */
  function Filled(n: nat, v: real): seq<real> {
    seq(n, _ => v)
  }

  class Tensor {
    var isAllocated: bool
    var shape: Shape
    var data: array<real>

    /** An allocated tensor holds exactly one element per position of its shape. */
    ghost predicate Valid()
      reads this
    {
      isAllocated ==> data.Length == Size(shape)
    }

    /** A tensor handle that owns no storage yet. */
    constructor ()
      ensures Valid() && !isAllocated && fresh(data)
    {
      isAllocated := false;
      shape := [];
      data := new real[0];
    }

    /** Gives a tensor without storage fresh storage for `s`, its elements
        unspecified; a tensor that already has storage keeps it, shape and
        contents included. */
    method Allocate(s: Shape)
      requires Valid()
      modifies this
      ensures Valid() && isAllocated
      ensures old(isAllocated) ==> shape == old(shape) && data == old(data)
      ensures !old(isAllocated) ==> shape == s && fresh(data) && data.Length == Size(s)
    {
      if !isAllocated {
        shape := s;
        data := new real[Size(s)];
        isAllocated := true;
      }
    }

    /** Gives a tensor without storage fresh storage for `s` with every
        element equal to `v`; a tensor that already has storage keeps it,
        shape and contents included. */
    method AllocateFilled(s: Shape, v: real)
      requires Valid()
      modifies this
      ensures Valid() && isAllocated
      ensures old(isAllocated) ==> shape == old(shape) && data == old(data)
      ensures !old(isAllocated) ==> shape == s && fresh(data) && data[..] == Filled(Size(s), v)
    {
      if !isAllocated {
        shape := s;
        data := new real[Size(s)](_ => v);
        isAllocated := true;
      }
    }

    /** Refills the existing storage with `v`, keeping its identity and shape. */
    method Set(v: real)
      requires isAllocated
      modifies data
      ensures data[..] == Filled(data.Length, v)
    {
      var i := 0;
      while i < data.Length
        invariant 0 <= i <= data.Length
        invariant forall k :: 0 <= k < i ==> data[k] == v
      {
        data[i] := v;
        i := i + 1;
      }
    }
  }
}
