# Marian computation-graph nodes, modelled in Dafny

This project models the vertex layer of Marian's reverse-mode automatic
differentiation graph: the `Node` base class (`src/node.h`) and the node
catalogue built on it (`src/node_operators.h`).

- **Node** (module `Nodes`). A node holds a shape, a value tensor and an
  adjoint (gradient) tensor. `allocate(batchSize)` replaces the batch-size
  placeholder `whatevs` in the shape, applies a `lazy_shape` keyword and
  gives the value tensor storage. A `lazy_value` fill takes precedence over
  a `value` fill. `init_dependent` seeds the adjoint with ones and
  `set_zero_adjoint` clears it. Each refills existing storage, or allocates
  storage of the node's shape when there is none. `val()` and `grad()` raise
  "Tensor has not been allocated" on a tensor without storage.
- **Leaves** (module `LeafNodes`). Inputs, constants and parameters refuse
  keywords that carry neither `shape` nor `lazy_shape`. Each kind has its own
  message. `setVal` makes an input share a given tensor and take its shape. A
  parameter allocates with its shape as stored and runs its initializer on
  the first allocation only.
- **Shape rules** (module `OperatorShapes`). Every operator passes a computed
  `shape` keyword ahead of the caller's keywords:
  - a unary operator passes its parent's shape;
  - argmax passes the parent's shape with one column;
  - a matrix product passes `(m, n)` from `(m, k)` and `(k, n)` and refuses
    mismatched inner dimensions;
  - the element-wise binary operators pass the first parent's shape;
  - cross entropy passes one column per row and refuses operands that
    differ in rows or columns.
- **Operator nodes** (module `OperatorNodes`). These model the forward passes
  of ReLU, negation and the element-wise binary operators. They model the
  backward passes of sigmoid, tanh, ReLU, dropout, argmax, log, negation,
  plus, minus, product and quotient. They also model the cross-entropy step that
  prepares its cached probability buffer. Every backward pass adds into the
  parents' gradients (`+=`), so a parent used several times, even as both
  operands of one node, receives the sum of all contributions.
- **Backward rules** (module `Gradients`). The rules are stated as functions
  on tensor contents. Each is proved to be the transpose of a tangent map T:
  `<g, T h> = <B g, h>` for every adjoint `g` and direction `h`. The tangent
  is tied to a forward rule only for ReLU (`ReluTangentIsExact`), sum and
  difference (`PlusMinusTangentsAreExact`, exact change) and product
  (`MultTangentIsExact`, change up to the second-order term). For sigmoid,
  tanh, dropout and log the tangent is built from the rule's own factor, so
  the transpose statement says only that the rule is a linear map of that
  form; it does not say the factor is the operator's derivative. The
  quotient's tangent `ha / b - a hb / b^2` is written out directly and not
  derived from its forward rule.
  Dropout's factor in particular is 1 where the output is non-zero, which is
  not the slope of dropout's forward pass (that pass is not modelled).
- **Whole-graph uses** (module `Scenarios`). `x * x` and `x * (-x)` are built,
  allocated, run forward and run backward through the node methods
  themselves, for a constant `x = 2`. The gradients come out as 4 and -4,
  the values of the derivatives `2x` and `-2x` at that point; no other
  point is proved.
- **Fan-out** (`Scenarios.FanOutAccumulates`). For any contents, a node read
  by two consumers among sigmoid, tanh, ReLU, dropout and negation ends
  with its old gradient plus both contributions.

Supporting modules:

- `Wrappers` holds `Option`, `Result` and `Outcome`. A thrown error becomes a
  `Failure` or `Fail` value that carries the message.
- `Tensors` models the tensor the nodes rely on.
- `Elementwise` holds element-wise arithmetic on `seq<real>`, the inner
  product, and the in-place `+=` and `=` kernels.
- `Keywords` models the keyword bag as a record of optional fields.

How the C++ maps onto Dafny:

- Inheritance becomes composition. Each node kind holds its `Node` as `base`
  and its parents as `Node` references.
- A tensor's storage is an `array<real>`.
- Tensors are owned exclusively. Each backward method requires that the
  storage it writes is distinct from the storage it reads, except that one
  parent may be both operands of a binary node.

Points the code itself settles:

- **Placeholders resolve once.** `allocate` overwrites the placeholder
  dimensions in place (`src/node.h:43-46`). A later allocation with a
  different batch size therefore finds no placeholder and keeps the first
  batch size (`Nodes.ResolveIsSticky`). Allocation does not re-resolve the
  shape against the current batch size.
- **Cross entropy compares two dimensions.** It compares only dimensions 0
  and 1 of its operands (`src/node_operators.h:527`), not whole shapes.

## Model

| member | source | states |
|---|---|---|
| Nodes.Node.constructor | src/node.h:33-38 | a node built from keywords has the `shape` keyword's shape or (1, 1), the `name` keyword's name or "none", and two distinct tensors without storage |
| Nodes.Node.Allocate | src/node.h:42-58 | the new shape is `AllocatedShape` of the old one; the value tensor gets fresh storage of that shape, filled with `FillValue` when one is given; a value tensor that already had storage keeps it, its shape and its contents |
| Nodes.AllocatedShape | src/node.h:43-50 | with a lazy shape the result is the lazy shape's; otherwise it has the old rank and each placeholder is replaced by the batch size while every other dimension is kept |
| Nodes.FillValue | src/node.h:51-57 | a lazy value takes precedence over a constant value; there is no fill exactly when neither is given |
| Nodes.ResolveEliminatesPlaceholders | src/node.h:43-46 | after resolution no placeholder remains; the batch size sits exactly where the placeholders were and every other dimension is kept |
| Nodes.ResolveIsSticky | src/node.h:43-46 | resolving an already resolved shape with any other batch size changes nothing |
| Nodes.Node.CurrentShape | src/node.h:88-90 | the reported shape is the node's stored shape; by the allocation contract that is the declared shape before the first allocation and the resolved one after |
| Nodes.PlaceholderLifecycle | src/node.h:88-90 | a node declared (whatevs, 5) reports that shape until allocation, (3, 5) after `allocate(3)` and still (3, 5) after `allocate(7)` |
| Nodes.Node.InitDependent | src/node.h:60-67 | afterwards the adjoint is allocated and every element is 1; existing storage is refilled in place with its shape kept, otherwise fresh storage of the node's shape is allocated |
| Nodes.Node.SetZeroAdjoint | src/node.h:69-76 | afterwards the adjoint is allocated and every element is 0, reusing existing storage or allocating storage of the node's shape |
| Nodes.Node.Val | src/node.h:78-81 | the value tensor is returned exactly when it is allocated; otherwise the error is "Tensor has not been allocated" |
| Nodes.Node.Grad | src/node.h:83-86 | the adjoint tensor is returned exactly when it is allocated; otherwise the error is "Tensor has not been allocated" |
| LeafNodes.LeafCheck | src/node_operators.h:33-35 | a leaf's keywords pass exactly when `shape` or `lazy_shape` is present; otherwise the kind's own "... items require shape information" message is raised |
| LeafNodes.InputNode.Create | src/node_operators.h:29-36 | an input node is built exactly when the keywords carry shape information, with the `shape` keyword's shape (or (1, 1)) and tensors without storage, and fails with "Data items require shape information" otherwise |
| LeafNodes.ConstantNode.Create | src/node_operators.h:55-62 | a constant node is built exactly when the keywords carry shape information, with the `shape` keyword's shape (or (1, 1)) and tensors without storage, and fails with "Constant items require shape information" otherwise |
| LeafNodes.ParamNode.Create | src/node_operators.h:75-85 | a parameter node is built uninitialized exactly when the keywords carry shape information, with the `shape` keyword's shape (or (1, 1)) and tensors without storage, and fails with "Param items require shape information" otherwise |
| LeafNodes.InputNode.SetVal | src/node_operators.h:38-42 | the node's value becomes the given tensor itself and its shape becomes that tensor's shape |
| LeafNodes.ParamNode.Allocate | src/node_operators.h:90-96 | the value is allocated with the stored shape; on the first call the initializer fills it, and afterwards the node is initialized with exactly one initializer run; later calls keep storage and values |
| LeafNodes.ParamInitializesOnce | src/node_operators.h:92-95 | over two allocations with different batch sizes the initializer runs once: the first fills the values from it; after they are overwritten, the second allocation keeps the overwritten values instead of re-initializing |
| OperatorShapes.UnaryKeywords | src/node_operators.h:113-116 | a unary node takes its parent's shape unless the caller gives one, and every other keyword is the caller's |
| OperatorShapes.ArgmaxShape | src/node_operators.h:270-274 | argmax keeps the rank and every dimension except the second, which becomes 1 |
| OperatorShapes.DotShape | src/node_operators.h:374-381 | the product of (m, k) and (k', n) is refused exactly when k differs from k', with the matrix-product message; otherwise it is (m, n) with the first operand's further dimensions |
| OperatorShapes.DotShapeAssociative | src/node_operators.h:374-381 | whenever (A B) C is well formed, B C and A (B C) are too, with the same shape |
| OperatorShapes.DotShapeRefusesMismatch | src/node_operators.h:377-378 | a (2, 3) by (4, 5) product is refused with the matrix-product message |
| OperatorShapes.BinaryKeywords | src/node_operators.h:369-372 | a binary node fails only for a matrix product with mismatched inner dimensions; otherwise it takes the product shape or the first parent's shape unless the caller gives one |
| OperatorShapes.CrossEntropyShape | src/node_operators.h:524-531 | operands that differ in rows or in columns are refused with the cross-entropy message; otherwise the shape is the first operand's with one column |
| OperatorShapes.CrossEntropyKeywords | src/node_operators.h:519-522 | a cross-entropy node fails exactly when its shape rule does, and otherwise takes that shape unless the caller gives one |
| OperatorNodes.UnaryNodeOp.constructor | src/node_operators.h:113-116 | the node keeps its operator and parent and is built from `UnaryKeywords`, its tensors without storage |
| OperatorNodes.UnaryNodeOp.Forward | src/node_operators.h:176-339 | for ReLU the value becomes `max(0 * a, a)` element-wise and for negation `-a`; it fails, writing nothing, exactly when the parent's value is unallocated |
| OperatorNodes.UnaryNodeOp.Backward | src/node_operators.h:129-342 | argmax changes nothing; log fails, writing nothing, exactly when the parent's gradient or value is unallocated, and otherwise adds `g / a` to the parent's gradient; every other modelled operator fails exactly when the parent's gradient is unallocated, and otherwise adds its `UnaryContribution` |
| OperatorNodes.BinaryNodeOp.Create | src/node_operators.h:367-381 | a binary node is built exactly when its shape rule succeeds, with the shape that rule gives (or the caller's) and tensors without storage; a mismatched matrix product fails with its message |
| OperatorNodes.BinaryNodeOp.Forward | src/node_operators.h:413-496 | the value becomes the element-wise sum, difference, product or quotient of the parents' values; it fails, writing nothing, exactly when either value is unallocated |
| OperatorNodes.BinaryNodeOp.Backward | src/node_operators.h:418-503 | the first parent's gradient gets its contribution when its accessors succeed; the second parent's then gets its own; it passes exactly when both succeed; a parent used as both operands receives both contributions |
| OperatorNodes.CrossEntropyNodeOp.Create | src/node_operators.h:517-531 | a cross-entropy node is built exactly when rows and columns agree, with one column per row (or the caller's shape), tensors without storage and an empty probability buffer, and otherwise fails with the cross-entropy message |
| OperatorNodes.CrossEntropyNodeOp.LoadProbs | src/node_operators.h:537-542 | the buffer is refilled with zeros in place, or allocated zero-filled with the first parent's value shape; the first parent's value is then copied to its front; it fails exactly when that value is unallocated |
| Elementwise.Accumulate | src/node_operators.h:419-420 | every element of the destination becomes its old value plus the contribution at that position |
| Scenarios.FanOutAccumulates | src/node_operators.h:341-342 | whatever the gradients hold, a node read by two consumers among sigmoid, tanh, ReLU, dropout and negation ends, after both backward passes, with its old gradient plus the sum of both contributions |
| Gradients.ReluForward | src/node_operators.h:177 | each output element is the input element where that is positive and 0 elsewhere |
| Gradients.BinaryForward | src/node_operators.h:413-496 | each output element is the sum, difference, product or quotient of the operands' elements: subtracting the second operand from a sum, adding it to a difference, or multiplying it into a quotient gives back the first |
| Gradients.UnaryContribution | src/node_operators.h:129-343 | ReLU and dropout pass each adjoint element or 0, ReLU passing exactly where its output is positive and dropout exactly where it is non-zero; negation's contribution cancels the adjoint |
| Gradients.ContributionA | src/node_operators.h:418-504 | sum and difference pass the adjoint to the first operand; the product's contribution divided by the second operand's value is the adjoint (0 where that value is 0); the quotient's times the divisor is the adjoint |
| Gradients.ContributionB | src/node_operators.h:418-504 | sum passes the adjoint to the second operand and difference its negation; the product's contribution divided by the first operand's value is the adjoint (0 where that value is 0); the quotient's times the squared divisor is `-g a` |
| Gradients.LogContribution | src/node_operators.h:295-298 | log's contribution times the parent's value is the adjoint, at every position |
| Gradients.LogBackwardIsTranspose | src/node_operators.h:295-298 | log's rule `g / a` is the transpose of the tangent `h / a` |
| Gradients.UnaryContributionIsScaledAdjoint | src/node_operators.h:129-207 | the sigmoid, tanh, ReLU and dropout rules each multiply the adjoint by a slope read off the node's output |
| Gradients.UnaryBackwardIsTranspose | src/node_operators.h:129-343 | for sigmoid, tanh, ReLU, dropout and negation, `<g, T h> = <B g, h>`, where B is its backward rule and T its tangent |
| Gradients.ReluBackwardFollowsInput | src/node_operators.h:181-183 | on ReLU's own output the rule passes the adjoint exactly where the input is positive and zero elsewhere |
| Gradients.ReluOutputMakesDropoutRuleAgree | src/node_operators.h:205-207 | on a ReLU output the dropout rule's nonzero test and ReLU's positive test pass the same adjoint |
| Gradients.ReluTangentIsExact | src/node_operators.h:176-183 | away from zero and for small enough steps, ReLU's forward change is exactly its tangent |
| Gradients.BinaryBackwardIsTranspose | src/node_operators.h:418-504 | for sum, difference, product and quotient, `<g, T(ha, hb)> = <A g, ha> + <B g, hb>`, where A and B are the two backward rules |
| Gradients.DivBackwardIsTranspose | src/node_operators.h:499-503 | the quotient's rules `g / b` and `-g a / b^2` are the transpose of its tangent `ha / b - a hb / b^2` |
| Gradients.PlusMinusTangentsAreExact | src/node_operators.h:445-450 | the change of a sum or difference is exactly its tangent |
| Gradients.MultTangentIsExact | src/node_operators.h:467-470 | the change of a product is its tangent plus the second-order term `ha hb` |
| Gradients.SquareReceivesTwiceTheProduct | src/node_operators.h:472-477 | when both operands of a product are the same node, the two contributions add up to `2 g x` |
| Scenarios.SquareOfConstant | src/node_operators.h:472-477 | a constant 2 used as both operands of a product gives 4 forward and receives gradient 4 = d(x^2)/dx |
| Scenarios.NegatedSquare | src/node_operators.h:341-342 | a constant 2 feeding `-x` and `x * (-x)` receives gradient -4 = d(-x^2)/dx, the sum of its direct and its chained contribution |

## Left out

- The Dot forward and backward passes, which are GEMM numerics. Only the matrix product's shape rule and constructor are modelled.
- OperatorNodes.UnaryNodeOp.Backward: excludes softmax and exp. Their backward passes read the softmax kernel and `exp`, which the model does not have.
- OperatorNodes.UnaryNodeOp.Backward: for log, requires the parent's value to be non-zero wherever it is allocated. A zero would give an infinity, and floating-point infinities are not modelled.
- OperatorNodes.UnaryNodeOp.Forward: covers ReLU and negation only. Sigmoid, tanh, softmax, log and exp need transcendental kernels. Argmax needs its kernel. Dropout's forward draws random numbers.
- OperatorNodes.UnaryNodeOp.Forward: requires the node's own value to be allocated. The C++ writes `val_` without an allocation check; the model does not describe that case.
- OperatorNodes.BinaryNodeOp.Forward: excludes the matrix product, which is GEMM numerics.
- OperatorNodes.BinaryNodeOp.Forward: requires the node's own value to be allocated, for the same reason, and non-zero divisors for the quotient, since floating-point infinities and NaNs are not modelled.
- OperatorNodes.BinaryNodeOp.Backward: excludes the matrix product, which is GEMM numerics.
- OperatorNodes.CrossEntropyNodeOp.LoadProbs: models only the buffer preparation and the copy. The softmax, the `-b log p` step and the row-wise sum that follow (src/node_operators.h:543-546), and the cross-entropy backward pass (src/node_operators.h:559-569), are left out. They rest on the softmax and log kernels and on the row-wise sum and row-wise scale kernels, none of which the model has; the backward pass's first half, `probs - b` scaled row-wise, is itself free of transcendental functions but needs the softmax output and the row-wise scale.
- OperatorNodes.CrossEntropyNodeOp.LoadProbs: requires the refilled buffer to have room for the first parent's value. The refill path keeps the buffer's old size, and a larger value would be copied past its end.
- OperatorNodes.UnaryNodeOp.Backward: requires the node's own adjoint (and, where the rule reads it, its value) to be allocated. The C++ reads those members directly, without the allocation check; the model does not describe that case.
- OperatorNodes.BinaryNodeOp.Backward: requires the node's own adjoint to be allocated, for the same reason.
- OperatorNodes.BinaryNodeOp.Backward: requires non-zero divisors for the quotient. Floating-point infinities and NaNs are not modelled.
- Floating point: every element is a real number, so rounding, overflow, infinities and NaN are not modelled.
- Shapes of rank below 2: argmax, the matrix product and cross entropy read `shape[1]` (and the second operand's dimensions 0 and 1) without a check (src/node_operators.h:272, 377-379, 527-529). Their shape rules and constructors (OperatorShapes.ArgmaxShape, OperatorShapes.DotShape, OperatorShapes.CrossEntropyShape, the argmax UnaryNodeOp.constructor, BinaryNodeOp.Create for the product, CrossEntropyNodeOp.Create) require rank at least 2, since the C++ would read past the end of a shorter shape and its behaviour there is undefined.
- Broadcasting: the element-wise kernels are modelled on operands of equal length only.
- The forward and backward passes of inputs, constants and parameters are empty in the C++, so no method models them.
- The graphviz renderings and the node names' use in them are out of scope: they are output only.
- Device memory, thrust and the kernels' launch configuration are out of scope.
- The keyword bag is modelled as a record with one optional field per keyword. `keywords.h` is not part of this model. A keyword given later is assumed to replace an earlier one of the same kind, which is what lets argmax's own shape take effect after the unary default.
- `tensor.h` is not part of this model, so three assumptions stand in for it:
  - The placeholder `whatevs` is -1.
  - `allocate` gives storage only to a tensor that has none, and leaves existing storage, its shape and its contents alone.
  - A shape's element count is the product of its dimensions, where a negative dimension (such as an unresolved placeholder) counts as 0.
- Nodes.Node.Allocate: the batch size is a natural number. The `size_t` to `int` narrowing into a shape dimension is not modelled.
- Reference counting of shared parents is not modelled. Parents are plain object references, and tensors are owned exclusively, as the backward methods' requirements state.
- The dropout node's probability and seed state are not modelled, since its forward pass is left out.
- The `lazy_shape`, `lazy_value` and `init` keywords hold C++ closures. The model gives them as pure functions: `lazy_shape` and `lazy_value` take no arguments, and `init` maps a shape and a position to one value. A closure that reads other nodes' state, draws random numbers, or initializes the whole tensor at once (seeing its layout or other elements) is therefore not captured.
