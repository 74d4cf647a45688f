/**
 * GradientDescent.py: a network trained by gradient steps on its first layer.
 * The forward pass belongs to the NeuralNetwork superclass, which is not part
 * of this model: its result is a parameter of the operations that call it, and
 * the network's nodes live in an arena that its layers index.
 */
module GradientDescent {
  import opened Wrappers
  import opened Nodes

  /** The cap on the rounds of `EvolveTillTolerance`. */
  const MaximumIteration: nat := 1000

  /** The tolerance that replaces a non-positive one. */
  const DefaultTolerance: real := 0.1

  /** The ZeroDivisionError raised by the final report of `EvolveTillTolerance`. */
  datatype Error = ZeroDivision

  /** The calls the training loops make on the network, in the order made. */
  datatype Event =
    | ForwardCall(inputs: seq<real>, output: real)
    | StepCall(inputs: seq<real>, goal: real)

  // ---------------------------------------------------------------------------
  // Rounds of training

  /**
   * The events of one training round per forward output: the forward call on
   * `inputs`, then one `stepGeneration` with the same inputs and goal.
   */
  function Rounds(inputs: seq<real>, goal: real, outputs: seq<real>): (r: seq<Event>)
    ensures |r| == 2 * |outputs|
  {
    if |outputs| == 0 then []
    else Rounds(inputs, goal, outputs[..|outputs| - 1]) + [ForwardCall(inputs, outputs[|outputs| - 1]), StepCall(inputs, goal)]
  }

  /** How many `stepGeneration` calls a trace holds. */
  function StepCalls(trace: seq<Event>): nat
  {
    if |trace| == 0 then 0
    else StepCalls(trace[..|trace| - 1]) + (if trace[|trace| - 1].StepCall? then 1 else 0)
  }

  /** How many forward calls a trace holds. */
  function ForwardCalls(trace: seq<Event>): nat
  {
    if |trace| == 0 then 0
    else ForwardCalls(trace[..|trace| - 1]) + (if trace[|trace| - 1].ForwardCall? then 1 else 0)
  }

  lemma {:induction false} CallsAppend(first: seq<Event>, second: seq<Event>)
    ensures StepCalls(first + second) == StepCalls(first) + StepCalls(second)
    ensures ForwardCalls(first + second) == ForwardCalls(first) + ForwardCalls(second)
    decreases |second|
  {
    if |second| > 0 {
      var last := |second| - 1;
      assert (first + second)[..|first + second| - 1] == first + second[..last];
      assert (first + second)[|first + second| - 1] == second[last];
      CallsAppend(first, second[..last]);
    } else {
      assert first + second == first;
    }
  }

  /** Every round makes exactly one forward call and one step, every step with the same goal. */
  lemma {:induction false} RoundsCalls(inputs: seq<real>, goal: real, outputs: seq<real>)
    ensures StepCalls(Rounds(inputs, goal, outputs)) == |outputs|
    ensures ForwardCalls(Rounds(inputs, goal, outputs)) == |outputs|
    ensures forall k :: 0 <= k < |Rounds(inputs, goal, outputs)| && Rounds(inputs, goal, outputs)[k].StepCall? ==>
              Rounds(inputs, goal, outputs)[k] == StepCall(inputs, goal)
    decreases |outputs|
  {
    if |outputs| > 0 {
      var before := Rounds(inputs, goal, outputs[..|outputs| - 1]);
      var round := [ForwardCall(inputs, outputs[|outputs| - 1]), StepCall(inputs, goal)];
      RoundsCalls(inputs, goal, outputs[..|outputs| - 1]);
      CallsAppend(before, round);
      assert round[..1][..0] == [];
      assert StepCalls(round[..1]) == 0 && ForwardCalls(round[..1]) == 1;
      assert StepCalls(round) == 1 && ForwardCalls(round) == 1;
      assert Rounds(inputs, goal, outputs) == before + round;
    }
  }

  // ---------------------------------------------------------------------------
  // The stopping test and the report of evolveTillTolerance

  /** The tolerance actually used: a non-positive one becomes DefaultTolerance. */
  function EffectiveTolerance(tolerance: real): (t: real)
    ensures t > 0.0
    ensures tolerance > 0.0 ==> t == tolerance
    ensures tolerance <= 0.0 ==> t == DefaultTolerance
  {
    if tolerance <= 0.0 then DefaultTolerance else tolerance
  }

  /**
   * The stopping test: value is within tolerance times goal of goal.  It never
   * holds for a zero goal, and always holds at the goal itself otherwise.
   */
  function WithinTolerance(value: real, goal: real, tolerance: real): (r: bool)
    ensures goal == 0.0 ==> !r
    ensures value == goal && goal != 0.0 && tolerance != 0.0 ==> r
  {
    Abs(value - goal) < Abs(tolerance * goal)
  }

  /**
   * The percentage reported at the end: |value - goal| as a percentage of goal.
   * It raises ZeroDivisionError exactly when goal is 0; otherwise it is 0
   * exactly when value reached goal.
   */
  function Report(value: real, goal: real): (r: Result<real, Error>)
    ensures r.Failure? <==> goal == 0.0
    ensures r.Success? ==> r.value >= 0.0 && (r.value == 0.0 <==> value == goal)
  {
    if goal == 0.0 then Failure(ZeroDivision)
    else
      var percentage := (value - goal) * 100.0 / goal;
      PercentageZero(value, goal);
      Success(Abs(percentage))
  }

  lemma PercentageZero(value: real, goal: real)
    requires goal != 0.0
    ensures (value - goal) * 100.0 / goal == 0.0 <==> value == goal
  {
    if (value - goal) * 100.0 / goal == 0.0 {
      assert (value - goal) * 100.0 == ((value - goal) * 100.0 / goal) * goal;
    }
  }

  /** A value that passed the stopping test is reported below 100 times the tolerance. */
  lemma {:induction false} ReportWithinTolerance(value: real, goal: real, tolerance: real)
    requires WithinTolerance(value, goal, tolerance)
    ensures Report(value, goal).Success? && Report(value, goal).value < 100.0 * Abs(tolerance)
  {
    var percentage := (value - goal) * 100.0 / goal;
    var g := Abs(goal);
    assert Abs(tolerance * goal) == Abs(tolerance) * g by {
      AbsOfProduct(tolerance, goal);
    }
    assert Abs(percentage) == Abs(value - goal) * 100.0 / g by {
      AbsOfQuotient((value - goal) * 100.0, goal);
      AbsOfProduct(value - goal, 100.0);
    }
    assert Abs(value - goal) * 100.0 < Abs(tolerance) * 100.0 * g;
    QuotientBelow(Abs(value - goal) * 100.0, Abs(tolerance) * 100.0, g);
  }

  lemma QuotientBelow(a: real, b: real, g: real)
    requires g > 0.0 && a < b * g
    ensures a / g < b
  {
    assert (b - a / g) * g == b * g - a;
  }

  lemma AbsOfProduct(x: real, y: real)
    ensures Abs(x * y) == Abs(x) * Abs(y)
  {
    if x < 0.0 && y < 0.0 { assert x * y == (-x) * (-y); }
    else if x < 0.0 { assert -(x * y) == (-x) * y; }
    else if y < 0.0 { assert -(x * y) == x * (-y); }
  }

  lemma AbsOfQuotient(x: real, y: real)
    requires y != 0.0
    ensures Abs(x / y) == Abs(x) / Abs(y)
  {
    if x < 0.0 && y < 0.0 { assert x / y == (-x) / (-y); }
    else if x < 0.0 { assert -(x / y) == (-x) / y; }
    else if y < 0.0 { assert -(x / y) == x / (-y); }
  }

  // ---------------------------------------------------------------------------
  // The network

  /** Two nodes share none of their parameter lists. */
  predicate SeparateParams(a: Node, b: Node)
  {
    a.weights != b.weights && a.weights != b.biases && a.biases != b.weights && a.biases != b.biases
  }

  class GradientNetwork {
    /** The network's nodes; every layer lists indices into it. */
    const arena: seq<Node>
    /** `nodes[l][j]`: the j-th node of layer l, as an index into `arena`. */
    const nodes: seq<seq<NodeIndex>>
    const nodesInLayer: int
    const numLayers: int
    const maxIter: int
    const learnRate: real
    /** The number of nodes, nodesInLayer * numLayers, that divides the goal of each step. */
    const size: int
    /** The output of the last forward pass. */
    var value: real
    /** The forward passes and gradient steps made on this network so far. */
    ghost var trace: seq<Event>

    /**
     * The shape the superclass gives the network: a first layer of at least
     * nodesInLayer distinct nodes, at least one layer, and nodes that share no
     * parameter list with each other.
     */
    predicate Valid()
    {
      |nodes| >= 1 && 0 <= nodesInLayer <= |nodes[0]| && numLayers >= 1 &&
      size == nodesInLayer * numLayers && (nodesInLayer > 0 ==> size > 0) &&
      (forall j :: 0 <= j < nodesInLayer ==> nodes[0][j] < |arena|) &&
      (forall j, k :: 0 <= j < k < nodesInLayer ==> nodes[0][j] != nodes[0][k]) &&
      (forall i :: 0 <= i < |arena| ==> arena[i].Valid() && arena[i].weights != arena[i].biases) &&
      (forall i, j :: 0 <= i < |arena| && 0 <= j < |arena| && i != j ==> SeparateParams(arena[i], arena[j]))
    }

    /** The arena indices of the nodes that `stepGeneration` trains. */
    function Trained(): seq<NodeIndex>
      requires Valid()
    {
      nodes[0][..nodesInLayer]
    }

    /** Every parameter list of the network. */
    function ParamArrays(): set<array<real>>
    {
      (set i | 0 <= i < |arena| :: arena[i].weights) + (set i | 0 <= i < |arena| :: arena[i].biases)
    }

    /**
     * `GradientNetwork(numInputs=…, nodesInLayer, numLayers, nodes, maxIter,
     * learnRate)`, given the arena and layers the superclass builds and the
     * value it starts from.
     */
    constructor (arena: seq<Node>, nodes: seq<seq<NodeIndex>>, nodesInLayer: int, numLayers: int,
                 maxIter: int, learnRate: real, initialValue: real)
      requires |nodes| >= 1 && 0 <= nodesInLayer <= |nodes[0]| && numLayers >= 1
      requires forall j :: 0 <= j < nodesInLayer ==> nodes[0][j] < |arena|
      requires forall j, k :: 0 <= j < k < nodesInLayer ==> nodes[0][j] != nodes[0][k]
      requires forall i :: 0 <= i < |arena| ==> arena[i].Valid() && arena[i].weights != arena[i].biases
      requires forall i, j :: 0 <= i < |arena| && 0 <= j < |arena| && i != j ==> SeparateParams(arena[i], arena[j])
      ensures Valid()
      ensures this.arena == arena && this.nodes == nodes
      ensures this.nodesInLayer == nodesInLayer && this.numLayers == numLayers
      ensures this.maxIter == maxIter && this.learnRate == learnRate
      ensures size == nodesInLayer * numLayers
      ensures value == initialValue && trace == []
    {
      this.arena := arena;
      this.nodes := nodes;
      this.nodesInLayer := nodesInLayer;
      this.numLayers := numLayers;
      this.maxIter := maxIter;
      this.learnRate := learnRate;
      PositiveSize(nodesInLayer, numLayers);
      this.size := nodesInLayer * numLayers;
      this.value := initialValue;
      this.trace := [];
    }

    /** `self(inputs)`: the superclass's forward pass, whose result `output` it leaves in `value`. */
    method Forward(inputs: seq<real>, output: real)
      modifies this
      ensures value == output
      ensures trace == old(trace) + [ForwardCall(inputs, output)]
    {
      value := output;
      trace := trace + [ForwardCall(inputs, output)];
    }

    /**
     * `stepGeneration`: one gradient step, with the raw inputs and goal / size,
     * on each of the first nodesInLayer nodes of layer 0.  Every other node
     * keeps its parameters.
     */
    method StepGeneration(exp: real -> real, inputs: seq<real>, goal: real)
      requires IsExp(exp) && Valid()
      modifies this, ParamArrays()
      ensures value == old(value)
      ensures trace == old(trace) + [StepCall(inputs, goal)]
      ensures forall i :: 0 <= i < |arena| ==>
                arena[i].Params() ==
                  if i in Trained() then
                    GradientStep(exp, arena[i].sigmoidValue, arena[i].numInputs, old(arena[i].weights[..]), old(arena[i].biases[..]),
                                 inputs, goal / size as real, learnRate)
                  else old(arena[i].Params())
    {
      var index := 0;
      while index < nodesInLayer
        invariant 0 <= index <= nodesInLayer
        invariant value == old(value) && trace == old(trace)
        invariant forall i :: 0 <= i < |arena| ==>
                    arena[i].Params() ==
                      if i in nodes[0][..index] then
                        GradientStep(exp, arena[i].sigmoidValue, arena[i].numInputs, old(arena[i].weights[..]), old(arena[i].biases[..]),
                                     inputs, goal / size as real, learnRate)
                      else old(arena[i].Params())
      {
        var target := nodes[0][index];
        var node := arena[target];
        node.Gradient(exp, inputs, goal / size as real, learnRate);
        assert nodes[0][..index + 1] == nodes[0][..index] + [target];
        index := index + 1;
      }
      trace := trace + [StepCall(inputs, goal)];
    }

    /** The (weights, biases) of every node of the arena, as values. */
    function Snapshot(): (params: seq<(seq<real>, seq<real>)>)
      reads ParamArrays()
      ensures |params| == |arena|
      ensures forall i :: 0 <= i < |arena| ==> params[i] == arena[i].Params()
    {
      seq(|arena|, i requires 0 <= i < |arena| reads ParamArrays() => arena[i].Params())
    }

    /**
     * Every trained node holds the parameters of `rounds` gradient steps,
     * with the raw inputs and goal / size, from its parameters in `before`;
     * every other node still holds its parameters in `before`.
     */
    ghost predicate TrainedFrom(exp: real -> real, before: seq<(seq<real>, seq<real>)>,
                                inputs: seq<real>, goal: real, rounds: nat)
      requires IsExp(exp) && Valid()
      reads ParamArrays()
    {
      |before| == |arena| &&
      forall i :: 0 <= i < |arena| ==>
        |before[i].0| == arena[i].numInputs && |before[i].1| == arena[i].numInputs &&
        arena[i].Params() ==
          if i in Trained() then
            Train(exp, arena[i].sigmoidValue, arena[i].numInputs, before[i], inputs, goal / size as real, learnRate, rounds)
          else before[i]
    }

    /** One round of either training loop: `self(inputs)`, then `self.stepGeneration(inputs, goal)`. */
    method Round(exp: real -> real, inputs: seq<real>, goal: real, output: real,
                 ghost before: seq<(seq<real>, seq<real>)>, ghost rounds: nat)
      requires IsExp(exp) && Valid()
      requires TrainedFrom(exp, before, inputs, goal, rounds)
      modifies this, ParamArrays()
      ensures TrainedFrom(exp, before, inputs, goal, rounds + 1)
      ensures value == output
      ensures trace == old(trace) + [ForwardCall(inputs, output), StepCall(inputs, goal)]
    {
      Forward(inputs, output);
      StepGeneration(exp, inputs, goal);
    }

    /**
     * `evolve`: max(maxIter, 0) rounds, each a forward pass on `inputs` (the
     * round's entry of `outputs` is its result) followed by one
     * `stepGeneration` with the unchanged goal.  Every trained node ends with
     * the parameters of that many gradient steps; every other node is unchanged.
     */
    method Evolve(exp: real -> real, inputs: seq<real>, goal: real, outputs: seq<real>)
      requires IsExp(exp) && Valid()
      requires |outputs| == if maxIter < 0 then 0 else maxIter
      modifies this, ParamArrays()
      ensures trace == old(trace) + Rounds(inputs, goal, outputs)
      ensures value == if |outputs| == 0 then old(value) else outputs[|outputs| - 1]
      ensures TrainedFrom(exp, old(Snapshot()), inputs, goal, |outputs|)
    {
      ghost var before := Snapshot();
      var round := 0;
      while round < |outputs|
        invariant 0 <= round <= |outputs|
        invariant trace == old(trace) + Rounds(inputs, goal, outputs[..round])
        invariant value == if round == 0 then old(value) else outputs[round - 1]
        invariant TrainedFrom(exp, before, inputs, goal, round)
      {
        Round(exp, inputs, goal, outputs[round], before, round);
        assert outputs[..round + 1][..round] == outputs[..round];
        round := round + 1;
      }
      assert outputs[..round] == outputs;
    }

    /**
     * `evolveTillTolerance`: up to MaximumIteration rounds.  Before each round
     * the value left by the previous one (or the value on entry) is tested
     * against the tolerance, and a value that passes ends the loop before any
     * forward pass.  Returns the round counter and the final report.
     */
    method EvolveTillTolerance(exp: real -> real, inputs: seq<real>, goal: real, tolerance: real, outputs: seq<real>)
      returns (iterations: nat, report: Result<real, Error>)
      requires IsExp(exp) && Valid()
      requires |outputs| == MaximumIteration
      modifies this, ParamArrays()
      ensures iterations <= MaximumIteration
      ensures trace == old(trace) + Rounds(inputs, goal, outputs[..iterations])
      ensures value == ([old(value)] + outputs)[iterations]
      ensures forall k :: 0 <= k < iterations ==>
                !WithinTolerance(([old(value)] + outputs)[k], goal, EffectiveTolerance(tolerance))
      ensures iterations < MaximumIteration ==> WithinTolerance(value, goal, EffectiveTolerance(tolerance))
      ensures WithinTolerance(old(value), goal, EffectiveTolerance(tolerance)) ==> iterations == 0 && trace == old(trace)
      ensures goal == 0.0 ==> iterations == MaximumIteration && report == Failure(ZeroDivision)
      ensures report == Report(value, goal)
      ensures TrainedFrom(exp, old(Snapshot()), inputs, goal, iterations)
    {
      var currentTolerance := tolerance;
      if currentTolerance <= 0.0 {
        currentTolerance := DefaultTolerance;
      }
      ghost var before := Snapshot();
      ghost var tested := [value] + outputs;
      var iterationCounter := 0;
      while iterationCounter < MaximumIteration
        invariant 0 <= iterationCounter <= MaximumIteration
        invariant trace == old(trace) + Rounds(inputs, goal, outputs[..iterationCounter])
        invariant value == tested[iterationCounter]
        invariant forall k :: 0 <= k < iterationCounter ==> !WithinTolerance(tested[k], goal, currentTolerance)
        invariant TrainedFrom(exp, before, inputs, goal, iterationCounter)
      {
        if WithinTolerance(value, goal, currentTolerance) {
          break;
        }
        Round(exp, inputs, goal, outputs[iterationCounter], before, iterationCounter);
        assert outputs[..iterationCounter + 1][..iterationCounter] == outputs[..iterationCounter];
        iterationCounter := iterationCounter + 1;
      }
      assert tested == [old(value)] + outputs;
      iterations := iterationCounter;
      report := Report(value, goal);
    }
  }

  lemma PositiveSize(nodesInLayer: int, numLayers: int)
    requires nodesInLayer >= 0 && numLayers >= 1
    ensures nodesInLayer * numLayers >= nodesInLayer
  {
  }
}
