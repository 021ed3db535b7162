/** The graph's sources (node_operators.h): inputs, constants and
    parameters. Each must be given a shape, directly or through a lazy shape
    producer; an input's value is replaced from outside, and a parameter
    runs its initializer on its first allocation only. */
module LeafNodes {
  import opened Wrappers
  import opened Tensors
  import opened Keywords
  import opened Nodes

  datatype LeafKind = Input | Constant | Param

  /** The message each kind of leaf is refused with when it has no shape. */
  function MissingShapeMessage(kind: LeafKind): string {
    match kind
    case Input => "Data items require shape information"
    case Constant => "Constant items require shape information"
    case Param => "Param items require shape information"
  }

  predicate HasShapeInfo(kw: KeywordBag) {
    kw.shape.Some? || kw.lazyShape.Some?
  }

  /** The construction check every leaf runs: it passes exactly when a
      `shape` or a `lazy_shape` keyword is present. */
  function LeafCheck(kind: LeafKind, kw: KeywordBag): (r: Outcome<NodeError>)
    ensures r.Pass? <==> kw.shape.Some? || kw.lazyShape.Some?
    ensures r.Fail? ==> r.error == MissingShape(MissingShapeMessage(kind))
  {
    if HasShapeInfo(kw) then Pass else Fail(MissingShape(MissingShapeMessage(kind)))
  }

  /** The contents an initializer writes into a tensor of shape `s`. */
  function Initialized(init: Initializer, s: Shape): seq<real> {
    seq(Size(s), i requires 0 <= i < Size(s) => init(s, i))
  }

  class InputNode {
    const base: Node

    ghost predicate Valid()
      reads this, base, base.val, base.adj
    {
      base.Valid()
    }

    constructor (kw: KeywordBag)
      requires HasShapeInfo(kw)
      ensures Valid() && fresh(base) && base.kw == kw
      ensures fresh(base.val) && fresh(base.adj) && fresh(base.val.data) && fresh(base.adj.data)
      ensures !base.val.isAllocated && !base.adj.isAllocated
      ensures base.shape == (if kw.shape.Some? then kw.shape.value else DefaultShape)
    {
      base := new Node(kw);
    }

    /** Builds an input node, or refuses keywords without shape information. */
    static method Create(kw: KeywordBag) returns (r: Result<InputNode, NodeError>)
      ensures r.Failure? <==> LeafCheck(Input, kw).Fail?
      ensures r.Failure? ==> r.error == LeafCheck(Input, kw).error
      ensures r.Success? ==> fresh(r.value) && fresh(r.value.base) && r.value.Valid()
      ensures r.Success? ==> r.value.base.kw == kw && !r.value.base.val.isAllocated && !r.value.base.adj.isAllocated
      ensures r.Success? ==> r.value.base.shape == (if kw.shape.Some? then kw.shape.value else DefaultShape)
    {
      var check := LeafCheck(Input, kw);
      if check.Fail? {
        return Failure(check.error);
      }
      var n := new InputNode(kw);
      return Success(n);
    }

    /** Makes `t` the node's value, sharing its storage, and takes over its shape. */
    method SetVal(t: Tensor)
      requires Valid() && t.Valid()
      requires t != base.adj && t.data != base.adj.data
      modifies base
      ensures Valid()
      ensures base.val == t && base.shape == t.shape
    {
      base.val := t;
      base.shape := t.shape;
    }
  }

  class ConstantNode {
    const base: Node

    ghost predicate Valid()
      reads this, base, base.val, base.adj
    {
      base.Valid()
    }

    constructor (kw: KeywordBag)
      requires HasShapeInfo(kw)
      ensures Valid() && fresh(base) && base.kw == kw
      ensures fresh(base.val) && fresh(base.adj) && fresh(base.val.data) && fresh(base.adj.data)
      ensures !base.val.isAllocated && !base.adj.isAllocated
      ensures base.shape == (if kw.shape.Some? then kw.shape.value else DefaultShape)
    {
      base := new Node(kw);
    }

    /** Builds a constant node, or refuses keywords without shape information. */
    static method Create(kw: KeywordBag) returns (r: Result<ConstantNode, NodeError>)
      ensures r.Failure? <==> LeafCheck(Constant, kw).Fail?
      ensures r.Failure? ==> r.error == LeafCheck(Constant, kw).error
      ensures r.Success? ==> fresh(r.value) && fresh(r.value.base) && r.value.Valid()
      ensures r.Success? ==> r.value.base.kw == kw && !r.value.base.val.isAllocated && !r.value.base.adj.isAllocated
      ensures r.Success? ==> r.value.base.shape == (if kw.shape.Some? then kw.shape.value else DefaultShape)
    {
      var check := LeafCheck(Constant, kw);
      if check.Fail? {
        return Failure(check.error);
      }
      var n := new ConstantNode(kw);
      return Success(n);
    }
  }

  class ParamNode {
    const base: Node
    var initialized: bool
    /** How many times the initializer has run. */
    ghost var initCalls: nat

    /** The initializer has run exactly when the node says it has, at most
        once, and only ever on allocated storage. */
    ghost predicate Valid()
      reads this, base, base.val, base.adj
    {
      && base.Valid()
      && initCalls == (if initialized then 1 else 0)
      && (initialized ==> base.val.isAllocated)
    }

    constructor (kw: KeywordBag)
      requires HasShapeInfo(kw)
      ensures Valid() && fresh(base) && base.kw == kw
      ensures fresh(base.val) && fresh(base.adj) && fresh(base.val.data) && fresh(base.adj.data)
      ensures !base.val.isAllocated && !base.adj.isAllocated
      ensures base.shape == (if kw.shape.Some? then kw.shape.value else DefaultShape)
      ensures !initialized && initCalls == 0
    {
      base := new Node(kw);
      initialized := false;
      initCalls := 0;
    }

    /** Builds a parameter node, or refuses keywords without shape information. */
    static method Create(kw: KeywordBag) returns (r: Result<ParamNode, NodeError>)
      ensures r.Failure? <==> LeafCheck(Param, kw).Fail?
      ensures r.Failure? ==> r.error == LeafCheck(Param, kw).error
      ensures r.Success? ==> fresh(r.value) && fresh(r.value.base) && r.value.Valid()
      ensures r.Success? ==> r.value.base.kw == kw && !r.value.initialized
      ensures r.Success? ==> !r.value.base.val.isAllocated && !r.value.base.adj.isAllocated
      ensures r.Success? ==> r.value.base.shape == (if kw.shape.Some? then kw.shape.value else DefaultShape)
    {
      var check := LeafCheck(Param, kw);
      if check.Fail? {
        return Failure(check.error);
      }
      var n := new ParamNode(kw);
      return Success(n);
    }

    /** Gives the value storage of the shape as stored (the batch size, the
        placeholders and the lazy keywords play no part) unless it has some,
        and runs the initializer on it if it has never run. Later allocations
        keep the parameter's values as they are. */
    method Allocate(batchSize: nat)
      requires Valid()
      modifies this, base.val, base.val.data
      ensures Valid() && initialized && initCalls == 1
      ensures base.val == old(base.val) && base.val.isAllocated
      ensures old(base.val.isAllocated) ==> base.val.shape == old(base.val.shape) && base.val.data == old(base.val.data)
      ensures !old(base.val.isAllocated) ==> base.val.shape == base.shape && fresh(base.val.data)
      ensures !old(initialized) && base.kw.init.Some? ==>
        base.val.data[..] == Initialized(base.kw.init.value, base.val.shape)
      ensures old(initialized) ==> base.val.data[..] == old(base.val.data[..])
    {
      base.val.Allocate(base.shape);
      if !initialized {
        if base.kw.init.Some? {
          var init := base.kw.init.value;
          var t := base.val;
          var data := t.data;
          var i := 0;
          while i < data.Length
            modifies data
            invariant 0 <= i <= data.Length == Size(t.shape)
            invariant forall k :: 0 <= k < i ==> data[k] == init(t.shape, k)
          {
            data[i] := init(t.shape, i);
            i := i + 1;
          }
        }
        initialized := true;
        initCalls := initCalls + 1;
      }
    }
  }

  /** Over two allocations, whatever the batch sizes, the initializer runs
      once: the first fills the parameter from the initializer; the values are
      then overwritten, as a training step would, and the second allocation
      finds the parameter initialized and keeps the overwritten values. */
  method ParamInitializesOnce(kw: KeywordBag, trained: real) returns (first: seq<real>, second: seq<real>, ghost calls: nat)
    requires HasShapeInfo(kw) && kw.init.Some?
    ensures first == Initialized(kw.init.value, kw.shape.GetOr(DefaultShape))
    ensures second == Filled(|first|, trained)
    ensures calls == 1
  {
    var p := new ParamNode(kw);
    p.Allocate(8);
    first := p.base.val.data[..];
    p.base.val.Set(trained);
    p.Allocate(16);
    second := p.base.val.data[..];
    calls := p.initCalls;
  }
}
