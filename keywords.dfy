/** The keyword arguments a node is built from (`keywords::shape = ...`,
    `keywords::lazy_shape = ...`, ...), as a record of optional fields. A
    field that is `None` is a keyword that was not passed (`Has` is false). */
module Keywords {
  import opened Wrappers
  import opened Tensors

  /** A parameter initializer: the value it writes at element `i` of a tensor of shape `s`. */
  type Initializer = (Shape, nat) -> real

  datatype KeywordBag = KeywordBag(
    shape: Option<Shape>,
    name: Option<string>,
    value: Option<real>,
    lazyShape: Option<() -> Shape>,
    lazyValue: Option<() -> real>,
    init: Option<Initializer>)

  /** No keyword passed. */
  const NoKeywords: KeywordBag := KeywordBag(None, None, None, None, None, None)

  /** Only `shape = s`. */
  function WithShape(s: Shape): KeywordBag {
    NoKeywords.(shape := Some(s))
  }

  /** The keywords of an argument list `first..., later...`: a keyword passed
      later replaces one of the same kind passed earlier. */
  function Override(first: KeywordBag, later: KeywordBag): KeywordBag {
    KeywordBag(
      if later.shape.Some? then later.shape else first.shape,
      if later.name.Some? then later.name else first.name,
      if later.value.Some? then later.value else first.value,
      if later.lazyShape.Some? then later.lazyShape else first.lazyShape,
      if later.lazyValue.Some? then later.lazyValue else first.lazyValue,
      if later.init.Some? then later.init else first.init)
  }
}
