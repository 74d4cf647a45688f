# NeuralNetwork: nodes and the gradient trainer

This project models two parts of a small hand-written neural-network trainer
and proves properties of the model in Dafny.

- **Nodes** (`Node.dfy`, from `Node.py`). A node holds parallel lists of
  weights and biases, a list of child nodes, a sigmoid coefficient and the
  value it last produced. It covers:
  - construction, including the length check and its `ValueError`;
  - the forward pass: a sum of fan-in-normalised sigmoids over the zipped
    (weight, bias, input) triples;
  - the closed-form gradient helper and the in-place, index-by-index gradient
    step;
  - the random in-place mutation;
  - `isInChildren` and the recursive `isConnectedTo` over the children graph;
  - the deep copy, which duplicates the parameter lists but shares `children`;
  - `asDict` and `randomNode`.
- **The gradient trainer** (`GradientDescent.dfy`, from `GradientDescent.py`).
  `GradientNetwork` covers:
  - the derivation of `size`;
  - `stepGeneration`, which steps only the first `nodesInLayer` nodes of layer 0;
  - the fixed-count loop `evolve`;
  - the capped, tolerance-tested loop `evolveTillTolerance` and its final
    percentage report.
- **Wrappers** (`Wrappers.dfy`): a `Result` type for the operations that raise
  an exception.

Numbers are `real`. The exponential `e ** x` is a parameter `exp` of every
operation that uses it. All that is assumed of it (`IsExp`) is that it is
positive everywhere and equals 1 at 0.

Nodes are kept in an arena. A node's `children` is an array of arena indices,
so the graph queries work on the snapshot `Graph(arena)`. Cyclic graphs are
excluded: on them the recursion may not end (RecursionError in CPython). The
queries take a ranking (`Ranked`) of the whole arena as a precondition: every
child ranks strictly below its parent.
`isConnectedTo` is proved equal to reachability along one or more child
edges.

The gradient step is specified by value functions:
- `StepPair` is one index;
- `GradientStep` is one call of `gradient`;
- `Train` is several rounds.

The in-place method `Node.Gradient` is proved to leave exactly
`GradientStep` of its old parameters. The trainer's loops are proved to leave
`Train` of the first-layer nodes' old parameters, and to leave every other
node as it was.

With goal 0 the stopping test `|value - goal| < |tolerance * goal|`
(`GradientDescent.py:31`) is false, so all 1000 rounds run and the final
report (`GradientDescent.py:42`) raises ZeroDivisionError.

## Model

| member | source | states |
|---|---|---|
| Nodes.Sigmoid | Node.py:93-94 | for a positive fan-in n the fan-in-normalised logistic lies strictly between 0 and 1/n |
| Nodes.SigmoidAtZero | Node.py:93-94 | at input 0 (or coefficient 0) the sigmoid is exactly 1/(2n) |
| Nodes.ZipSum | Node.py:105-106 | the sum of sigmoids over the first m zipped triples is 0 for m = 0 and strictly between 0 and m/n otherwise |
| Nodes.Activation | Node.py:105-108 | the zipped sum is truncated to the shortest list; it is 0 with no inputs or no weights, and strictly between 0 and 1 when all lengths equal numInputs > 0 |
| Nodes.Node.Call | Node.py:96-108 | `__call__` stores the activation in `value` and returns that same value, which lies in (0, 1) when the inputs match the fan-in |
| Nodes.GradientHelper | Node.py:121-135 | the helper's weight component is its bias component times the input |
| Nodes.HelperBiasComponent | Node.py:121-135 | the helper's bias component equals 2 * sigmoidValue * c * (c - goal), where c is the node's sigmoid of weight * num + bias |
| Nodes.GradientDirection | Node.py:121-135 | with a positive coefficient the bias component is positive, negative or zero exactly when c is above, below or equal to the goal |
| Nodes.StepPair | Node.py:113-119 | one iteration of the loop of `gradient` on one (weight, bias) pair; with learning rate 0 it leaves the pair unchanged |
| Nodes.StepMoves | Node.py:113-119 | one update lowers the bias by learnRate times the bias component, and lowers the weight by num times that amount |
| Nodes.GradientStep | Node.py:110-119 | one `gradient` call keeps both lengths; it changes only indices below min(len(weights), len(biases), len(nums)), each from its pre-update values with goal / len(nums); a zero learning rate changes nothing |
| Nodes.Node.Gradient | Node.py:110-119 | the in-place loop leaves exactly GradientStep of the old parameter lists |
| Nodes.Train | Node.py:110-119 | repeated gradient steps keep both lengths and never touch the indices past the zip |
| Nodes.TrainWithoutLearning | Node.py:115-119 | any number of steps with learning rate 0 leaves the parameters unchanged |
| Nodes.Scaled | Node.py:53-62 | each parameter rescaled by 1 - change, with change in [-0.5, 0.5], stays within [0.5, 1.5] times its old value; zero changes leave the list as it was |
| Nodes.ScaleInPlace | Node.py:53-56 | one loop of `mutate` leaves the array equal to Scaled of its old contents |
| Nodes.Node.Mutate | Node.py:48-64 | `mutate` returns the same node and leaves the weights and the biases each equal to Scaled of their old values under successive draws |
| Nodes.Node.constructor | Node.py:17-46 | the node stores the lists and children as given, numInputs is the length of the weights, and value is 0 |
| Nodes.NewNode | Node.py:26-46 | construction fails with the ValueError exactly when the weight and bias lists differ in length; otherwise it stores the arguments, with value 0 |
| Nodes.RandomNode | Node.py:169-191 | randomNode builds two distinct fresh lists of max(numInputs, 0) draws within the weight and bias ranges, a fresh empty children list, the default coefficient and value 0 |
| Nodes.Node.DeepCopy | Node.py:142-158 | the copy has two distinct fresh lists equal to the originals, the very same children list, the same coefficient and value 0 |
| Nodes.Node.AsDict | Node.py:160-166 | asDict maps exactly the keys "Weights" and "Biases" to the node's own lists |
| Nodes.IsInChildren | Node.py:74-81 | isInChildren holds exactly when some entry of the node's children list is the other node |
| Nodes.IsConnectedTo | Node.py:83-91 | a direct child (isInChildren) is connected; anything connected ranks strictly below the node |
| Nodes.AnyConnected | Node.py:91 | anything a child list is connected to ranks below the children's bound |
| Nodes.ConnectedImpliesReachable | Node.py:83-91 | isConnectedTo implies a path of one or more child edges |
| Nodes.PathImpliesConnected | Node.py:83-91 | the end of every path of child edges is connected to its start |
| Nodes.ConnectedIffReachable | Node.py:74-91 | isConnectedTo holds exactly when the other node is reachable by one or more child edges |
| Nodes.ConnectedTransitive | Node.py:83-91 | a node connected to a node connected to c is connected to c |
| Nodes.NotConnectedToSelf | Node.py:83-91 | on an acyclic graph no node is connected to itself |
| Nodes.SameChildrenSameConnections | Node.py:155-158 | two nodes with the same children list are connected to exactly the same nodes |
| Nodes.CopyKeepsConnections | Node.py:155-158 | a copy sharing the original's children list is connected to exactly what the original is connected to |
| Nodes.GrandchildIsConnected | Node.py:83-91 | in the chain 0 -> 1 -> 2, node 0 does not have 2 as a child yet is connected to it, and node 2 is not connected to 0 |
| GradientDescent.GradientNetwork.constructor | GradientDescent.py:7-14 | the network keeps its layers, maxIter and learnRate, and fixes size = nodesInLayer * numLayers |
| GradientDescent.GradientNetwork.Forward | GradientDescent.py:19 | the forward call leaves its result in value and is recorded in the trace |
| GradientDescent.GradientNetwork.StepGeneration | GradientDescent.py:44-47 | each of nodes[0][0..nodesInLayer) takes one gradient step with the raw inputs and goal / size; every other node and value are unchanged |
| GradientDescent.GradientNetwork.Round | GradientDescent.py:35-40 | a round is a forward call followed by one stepGeneration, and it adds one more training step to every first-layer node |
| GradientDescent.GradientNetwork.Evolve | GradientDescent.py:16-21 | evolve runs exactly max(maxIter, 0) rounds with the unchanged goal; trained nodes end with that many steps and the others are unchanged |
| GradientDescent.GradientNetwork.EvolveTillTolerance | GradientDescent.py:23-42 | the loop stops at the first value, tested before the round's forward call, that passes the test with the effective tolerance, or after 1000 rounds; the counter equals the number of rounds; it stays 0 if the value on entry passes; a zero goal runs all 1000 rounds and ends in ZeroDivisionError |
| GradientDescent.Rounds | GradientDescent.py:18-21 | n rounds are 2n calls |
| GradientDescent.RoundsCalls | GradientDescent.py:29-40 | n rounds make exactly n forward calls and n stepGeneration calls, every step with the caller's inputs and goal |
| GradientDescent.EffectiveTolerance | GradientDescent.py:26-27 | the tolerance used is always positive: a positive tolerance is kept, and one of 0 or below becomes exactly 0.1 |
| GradientDescent.WithinTolerance | GradientDescent.py:31 | the stopping test never passes for a zero goal, and always passes at the goal itself when goal and tolerance are nonzero |
| GradientDescent.Report | GradientDescent.py:42 | the report fails with ZeroDivisionError exactly when goal is 0; otherwise it is a non-negative percentage that is 0 exactly when value equals goal |
| GradientDescent.ReportWithinTolerance | GradientDescent.py:30-42 | a value that passed the stopping test is reported below 100 times the tolerance |

## Left out

- Floating point. The model computes over exact reals, so rounding, overflow of `e ** x`, NaN and infinities are not modelled.
- Training quality. Nothing is proved about convergence, or that a step lowers the error. `gradientHelper`'s bias component, 2 * s * c * (c - goal), differs from the derivative of (c - goal)^2 by a factor of e^(-a*s) / b. The model computes what the code computes.
- Randomness. Each `uniform` draw of `mutate` and `randomNode` is a caller-supplied value in its range. The random generator itself is not modelled.
- `print` output is not modelled, including the progress lines of `evolve` and `evolveTillTolerance` and the final report line. The report's value, or its ZeroDivisionError, is returned instead.
- The NeuralNetwork superclass is not part of this model:
  - its forward pass is the `Forward` method, whose result is a parameter (`output`, and `outputs` for the loops);
  - the node values it would set are not updated;
  - the layers, the arena and the starting value are constructor parameters, and the `numInputs` argument of `GradientNetwork` is not kept;
  - some shapes are excluded by `GradientNetwork.Valid` rather than modelled: fewer than `nodesInLayer` nodes in layer 0 (where `nodes[0][index]` would raise IndexError), `numLayers` below 1 (with `numLayers` 0 and `nodesInLayer` above 0, `goal / size` would raise ZeroDivisionError), and a negative `nodesInLayer`.
- Aliasing of parameter lists is excluded rather than modelled:
  - `Node.Gradient` and `Node.Mutate` require a node's weights and biases to be different lists;
  - `GradientNetwork.Valid` requires that no two nodes share a list, and that no node appears twice among the trained first-layer entries.
- Children are arena indices, so `isInChildren` compares indices rather than object identity. The graph queries read a snapshot of the children lists.
- Cyclic children graphs are excluded by the `Ranked` precondition, which asks the whole arena to be acyclic, not only the part reachable from the queried node. On a cyclic graph the recursion may still return (for instance `isConnectedTo` finds a self-loop child at once), or may not end (RecursionError in CPython); neither case is modelled.
- `setChildren`, the static `loss` and the unused local `d` of `gradientHelper` are not modelled, since they do not affect the operations above.
