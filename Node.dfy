/**
 * Node.py: one unit of the network.  A node holds parallel lists of weights and
 * biases, a list of child nodes, a sigmoid coefficient and the value it last
 * produced.  The arithmetic is modelled over `real`; `e ** x` is an abstract
 * positive function that is 1 at 0.
 */
module Nodes {
  import opened Wrappers

  /** Ranges of the uniform draws made by `RandomNode` and `Mutate`. */
  const MinWeight: real := -3.0
  const MaxWeight: real := 3.0
  const MinBias: real := -1.0
  const MaxBias: real := 1.0
  const DefaultSigmoidValue: real := 0.1
  const MaxMutation: real := 0.5

  /** A node is identified by its position in an arena of nodes. */
  type NodeIndex = nat

  /**
   * What is known of the exponential `e ** x` that the activation uses: it is
   * positive everywhere and 1 at 0.  Every operation takes the exponential as
   * a parameter `exp` that satisfies this.
   */
  ghost predicate IsExp(exp: real -> real)
  {
    exp(0.0) == 1.0 && forall x :: exp(x) > 0.0
  }

  /** The ValueError raised by the constructor. */
  datatype NodeError = DifferentAmountOfWeightsAndBiases

  function Min(a: int, b: int): int { if a <= b then a else b }

  function Abs(x: real): real { if x < 0.0 then -x else x }

  // ---------------------------------------------------------------------------
  // Activation

  /**
   * `sigmoid`: the logistic function with steepness `sigmoidValue`, divided by
   * the fan-in `numInputs`, so that it lies strictly between 0 and 1/numInputs.
   */
  function Sigmoid(exp: real -> real, sigmoidValue: real, numInputs: nat, num: real): (r: real)
    requires IsExp(exp)
    requires numInputs > 0
    ensures 0.0 < r < 1.0 / (numInputs as real)
  {
    var e := exp(-1.0 * num * sigmoidValue);
    FanInBounds(e, numInputs);
    1.0 / (1.0 + e) / numInputs as real
  }

  /** At an input of 0 (or with a zero coefficient) the sigmoid is half its ceiling. */
  lemma SigmoidAtZero(exp: real -> real, sigmoidValue: real, numInputs: nat, num: real)
    requires IsExp(exp)
    requires numInputs > 0
    requires num == 0.0 || sigmoidValue == 0.0
    ensures Sigmoid(exp, sigmoidValue, numInputs, num) == 1.0 / (2.0 * numInputs as real)
  {
    assert -1.0 * num * sigmoidValue == 0.0;
    FanInBounds(exp(0.0), numInputs);
  }

  lemma FanInBounds(e: real, n: nat)
    requires e > 0.0 && n > 0
    ensures 0.0 < 1.0 / (1.0 + e) / n as real < 1.0 / (n as real)
    ensures e == 1.0 ==> 1.0 / (1.0 + e) / n as real == 1.0 / (2.0 * n as real)
  {
    var q := 1.0 / (1.0 + e);
    assert 0.0 < q < 1.0;
    assert q / n as real < 1.0 / n as real;
  }

  /**
   * The sum `__call__` computes: sigmoid(weights[i] * nums[i] + biases[i]) added
   * up, left to right, over the first `m` zipped positions.
   */
  function ZipSum(exp: real -> real, sigmoidValue: real, numInputs: nat,
                  weights: seq<real>, biases: seq<real>, nums: seq<real>, m: nat): (r: real)
    requires IsExp(exp)
    requires m <= |weights| && m <= |biases| && m <= |nums|
    requires m > 0 ==> numInputs > 0
    ensures m == 0 ==> r == 0.0
    ensures m > 0 ==> 0.0 < r < (m as real) / (numInputs as real)
  {
    if m == 0 then 0.0
    else
      var prefix := ZipSum(exp, sigmoidValue, numInputs, weights, biases, nums, m - 1);
      var term := Sigmoid(exp, sigmoidValue, numInputs, weights[m - 1] * nums[m - 1] + biases[m - 1]);
      SumBound(prefix, term, m, numInputs);
      prefix + term
  }

  lemma SumBound(prefix: real, term: real, m: nat, n: nat)
    requires n > 0 && m > 0
    requires m == 1 ==> prefix == 0.0
    requires m > 1 ==> 0.0 < prefix < (m - 1) as real / n as real
    requires 0.0 < term < 1.0 / n as real
    ensures 0.0 < prefix + term < m as real / n as real
  {
    assert (m - 1) as real / n as real + 1.0 / n as real == m as real / n as real;
  }

  /** `__call__`: the sum over `zip(weights, biases, nums)`, which stops at the shortest list. */
  function Activation(exp: real -> real, sigmoidValue: real, numInputs: nat,
                      weights: seq<real>, biases: seq<real>, nums: seq<real>): (r: real)
    requires IsExp(exp)
    requires |weights| == numInputs && |biases| == numInputs
    ensures numInputs > 0 && |nums| == numInputs ==> 0.0 < r < 1.0
    ensures numInputs == 0 || nums == [] ==> r == 0.0
  {
    assert numInputs > 0 ==> numInputs as real / numInputs as real == 1.0;
    ZipSum(exp, sigmoidValue, numInputs, weights, biases, nums, Min(numInputs, |nums|))
  }

  // ---------------------------------------------------------------------------
  // Gradient step

  /**
   * `gradientHelper`: the two partial derivatives (with respect to the weight
   * and to the bias) used for one (weight, bias, input) triple and a per-input
   * goal.  The weight component is the bias component times the input.
   */
  function GradientHelper(exp: real -> real, sigmoidValue: real, numInputs: nat,
                          weight: real, bias: real, num: real, goal: real): (r: (real, real))
    requires IsExp(exp)
    requires numInputs > 0
    ensures r.0 == r.1 * num
  {
    var a := weight * num + bias;
    var b := exp(-a * sigmoidValue) + 1.0;
    var n := numInputs as real;
    PositiveProducts(b, n);
    var c := 1.0 / (b * n);
    var partialDerivativeRespectBias := 2.0 * sigmoidValue * b * (c - goal) / (b * b * n);
    var partialDerivativeRespectWeight := partialDerivativeRespectBias * num;
    (partialDerivativeRespectWeight, partialDerivativeRespectBias)
  }

  /**
   * With c the sigmoid output for this input, the bias component of
   * GradientHelper is 2 * sigmoidValue * c * (c - goal).
   */
  lemma HelperBiasComponent(exp: real -> real, sigmoidValue: real, numInputs: nat,
                            weight: real, bias: real, num: real, goal: real)
    requires IsExp(exp)
    requires numInputs > 0
    ensures var c := Sigmoid(exp, sigmoidValue, numInputs, weight * num + bias);
            GradientHelper(exp, sigmoidValue, numInputs, weight, bias, num, goal).1
              == 2.0 * sigmoidValue * c * (c - goal)
  {
    HelperSimplifies(exp, sigmoidValue, numInputs, weight * num + bias, goal);
  }

  /**
   * The step is a descent direction for the per-input error: with a positive
   * coefficient, the bias is pushed down exactly when this input's sigmoid
   * output is above the goal, and up exactly when it is below.
   */
  lemma GradientDirection(exp: real -> real, sigmoidValue: real, numInputs: nat,
                          weight: real, bias: real, num: real, goal: real)
    requires IsExp(exp)
    requires numInputs > 0 && sigmoidValue > 0.0
    ensures var c := Sigmoid(exp, sigmoidValue, numInputs, weight * num + bias);
            var r := GradientHelper(exp, sigmoidValue, numInputs, weight, bias, num, goal);
            (r.1 > 0.0 <==> c > goal) && (r.1 < 0.0 <==> c < goal) && (r.1 == 0.0 <==> c == goal)
  {
    var c := Sigmoid(exp, sigmoidValue, numInputs, weight * num + bias);
    HelperBiasComponent(exp, sigmoidValue, numInputs, weight, bias, num, goal);
    SignOfProduct(sigmoidValue, c, c - goal);
  }

  lemma HelperSimplifies(exp: real -> real, sigmoidValue: real, numInputs: nat, a: real, goal: real)
    requires IsExp(exp)
    requires numInputs > 0
    ensures var b := exp(-a * sigmoidValue) + 1.0;
            var c := 1.0 / (b * numInputs as real);
            c == Sigmoid(exp, sigmoidValue, numInputs, a) &&
            2.0 * sigmoidValue * b * (c - goal) / (b * b * numInputs as real) == 2.0 * sigmoidValue * c * (c - goal)
  {
    assert -1.0 * a * sigmoidValue == -a * sigmoidValue;
    var e := exp(-a * sigmoidValue);
    ReciprocalOfProduct(1.0 + e, numInputs as real);
    CancelOneFactor(2.0 * sigmoidValue, e + 1.0, numInputs as real, goal);
  }

  lemma PositiveProducts(b: real, n: real)
    requires b > 0.0 && n > 0.0
    ensures b * n > 0.0 && b * b * n > 0.0
  {
  }

  lemma ReciprocalOfProduct(b: real, n: real)
    requires b > 0.0 && n > 0.0
    ensures 1.0 / b / n == 1.0 / (b * n)
  {
  }

  lemma CancelOneFactor(k: real, b: real, n: real, goal: real)
    requires b > 0.0 && n > 0.0
    ensures var c := 1.0 / (b * n);
            k * b * (c - goal) / (b * b * n) == k * c * (c - goal)
  {
    var c := 1.0 / (b * n);
    assert b / (b * b * n) == c;
    assert k * b * (c - goal) / (b * b * n) == k * (c - goal) * (b / (b * b * n));
  }

  lemma SignOfProduct(s: real, c: real, d: real)
    ensures s > 0.0 && c > 0.0 ==>
              && (2.0 * s * c * d > 0.0 <==> d > 0.0)
              && (2.0 * s * c * d < 0.0 <==> d < 0.0)
              && (2.0 * s * c * d == 0.0 <==> d == 0.0)
  {
    if s > 0.0 && c > 0.0 {
      assert 2.0 * s * c > 0.0;
    }
  }

  /**
   * One iteration of the loop of `gradient`: the weight and the bias at one
   * index each lose learnRate times their component of GradientHelper.
   */
  function StepPair(exp: real -> real, sigmoidValue: real, numInputs: nat,
                    weight: real, bias: real, num: real, goal: real, learnRate: real): (r: (real, real))
    requires IsExp(exp)
    requires numInputs > 0
    ensures learnRate == 0.0 ==> r == (weight, bias)
  {
    var h := GradientHelper(exp, sigmoidValue, numInputs, weight, bias, num, goal);
    (weight - h.0 * learnRate, bias - h.1 * learnRate)
  }

  /**
   * What one step does to a (weight, bias) pair: the bias drops by learnRate
   * times 2 * sigmoidValue * c * (c - goal), where c is the sigmoid of the
   * pre-update weight * num + bias, and the weight drops by num times as much.
   */
  lemma StepMoves(exp: real -> real, sigmoidValue: real, numInputs: nat,
                  weight: real, bias: real, num: real, goal: real, learnRate: real)
    requires IsExp(exp)
    requires numInputs > 0
    ensures var r := StepPair(exp, sigmoidValue, numInputs, weight, bias, num, goal, learnRate);
            var c := Sigmoid(exp, sigmoidValue, numInputs, weight * num + bias);
            bias - r.1 == learnRate * (2.0 * sigmoidValue * c * (c - goal)) &&
            weight - r.0 == (bias - r.1) * num
  {
    var h := GradientHelper(exp, sigmoidValue, numInputs, weight, bias, num, goal);
    assert h.0 == h.1 * num;
    HelperBiasComponent(exp, sigmoidValue, numInputs, weight, bias, num, goal);
    StepArithmetic(weight, bias, h.0, h.1, num, learnRate);
  }

  /** Only an unfolding of StepPair's definition, for the proof of `Node.Gradient`; it states nothing new. */
  lemma StepPairUnfolds(exp: real -> real, sigmoidValue: real, numInputs: nat,
                        weight: real, bias: real, num: real, goal: real, learnRate: real)
    requires IsExp(exp)
    requires numInputs > 0
    ensures StepPair(exp, sigmoidValue, numInputs, weight, bias, num, goal, learnRate)
         == (weight - GradientHelper(exp, sigmoidValue, numInputs, weight, bias, num, goal).0 * learnRate,
             bias - GradientHelper(exp, sigmoidValue, numInputs, weight, bias, num, goal).1 * learnRate)
  {
  }

  lemma StepArithmetic(weight: real, bias: real, weightPartial: real, biasPartial: real, num: real, learnRate: real)
    requires weightPartial == biasPartial * num
    ensures bias - (bias - biasPartial * learnRate) == learnRate * biasPartial
    ensures weight - (weight - weightPartial * learnRate) == (bias - (bias - biasPartial * learnRate)) * num
  {
  }

  /**
   * The new (weights, biases) left by `gradient(nums, goal, learnRate)` on a node
   * whose parameters were (weights, biases): every index below the length of
   * the shortest of the three lists gets StepPair, computed from the
   * parameters as they were before the call and from goal / len(nums); every
   * other index keeps its value.
   */
  function GradientStep(exp: real -> real, sigmoidValue: real, numInputs: nat,
                        weights: seq<real>, biases: seq<real>, nums: seq<real>,
                        goal: real, learnRate: real): (r: (seq<real>, seq<real>))
    requires IsExp(exp)
    requires |weights| == numInputs && |biases| == numInputs
    ensures |r.0| == numInputs && |r.1| == numInputs
    ensures forall i :: Min(numInputs, |nums|) <= i < numInputs ==> r.0[i] == weights[i] && r.1[i] == biases[i]
    ensures forall i :: 0 <= i < Min(numInputs, |nums|) ==>
              (r.0[i], r.1[i]) == StepPair(exp, sigmoidValue, numInputs, weights[i], biases[i], nums[i], goal / |nums| as real, learnRate)
    ensures learnRate == 0.0 ==> r == (weights, biases)
  {
    var m := Min(numInputs, |nums|);
    var newWeights := seq(numInputs, i requires 0 <= i < numInputs =>
      if i < m then StepPair(exp, sigmoidValue, numInputs, weights[i], biases[i], nums[i], goal / |nums| as real, learnRate).0
      else weights[i]);
    var newBiases := seq(numInputs, i requires 0 <= i < numInputs =>
      if i < m then StepPair(exp, sigmoidValue, numInputs, weights[i], biases[i], nums[i], goal / |nums| as real, learnRate).1
      else biases[i]);
    assert learnRate == 0.0 ==> newWeights == weights && newBiases == biases;
    (newWeights, newBiases)
  }

  /** `rounds` gradient steps with the same inputs, goal and learning rate. */
  function Train(exp: real -> real, sigmoidValue: real, numInputs: nat, params: (seq<real>, seq<real>),
                 nums: seq<real>, goal: real, learnRate: real, rounds: nat): (r: (seq<real>, seq<real>))
    requires IsExp(exp)
    requires |params.0| == numInputs && |params.1| == numInputs
    ensures |r.0| == numInputs && |r.1| == numInputs
    ensures forall i :: Min(numInputs, |nums|) <= i < numInputs ==> r.0[i] == params.0[i] && r.1[i] == params.1[i]
  {
    if rounds == 0 then params
    else
      var before := Train(exp, sigmoidValue, numInputs, params, nums, goal, learnRate, rounds - 1);
      GradientStep(exp, sigmoidValue, numInputs, before.0, before.1, nums, goal, learnRate)
  }

  /** With a zero learning rate any number of steps leaves the parameters as they were. */
  lemma {:induction false} TrainWithoutLearning(exp: real -> real, sigmoidValue: real, numInputs: nat, params: (seq<real>, seq<real>),
                                                nums: seq<real>, goal: real, rounds: nat)
    requires IsExp(exp)
    requires |params.0| == numInputs && |params.1| == numInputs
    ensures Train(exp, sigmoidValue, numInputs, params, nums, goal, 0.0, rounds) == params
  {
    if rounds > 0 {
      TrainWithoutLearning(exp, sigmoidValue, numInputs, params, nums, goal, rounds - 1);
    }
  }

  // ---------------------------------------------------------------------------
  // Mutation

  /** A parameter rescaled by `1 - change` with change in [-MaxMutation, MaxMutation]. */
  ghost predicate WithinMutation(before: real, after: real)
  {
    if before >= 0.0 then (1.0 - MaxMutation) * before <= after <= (1.0 + MaxMutation) * before
    else (1.0 + MaxMutation) * before <= after <= (1.0 - MaxMutation) * before
  }

  lemma {:induction false} ScaleBounds(x: real, change: real)
    requires -MaxMutation <= change <= MaxMutation
    ensures WithinMutation(x, x * (1.0 - change))
  {
    if x >= 0.0 {
      assert x * (1.0 - change) - (1.0 - MaxMutation) * x == x * (MaxMutation - change);
      assert x * (1.0 + MaxMutation) - x * (1.0 - change) == x * (MaxMutation + change);
    } else {
      assert x * (1.0 - change) - (1.0 + MaxMutation) * x == -x * (MaxMutation + change);
      assert (1.0 - MaxMutation) * x - x * (1.0 - change) == -x * (MaxMutation - change);
    }
  }

  lemma ScaleAllBounds(params: seq<real>, changes: seq<real>, scaled: seq<real>)
    requires |changes| == |params| == |scaled|
    requires forall i :: 0 <= i < |changes| ==> -MaxMutation <= changes[i] <= MaxMutation
    requires forall i :: 0 <= i < |params| ==> scaled[i] == params[i] * (1.0 - changes[i])
    ensures forall i :: 0 <= i < |params| ==> WithinMutation(params[i], scaled[i])
  {
    forall i | 0 <= i < |params| {
      ScaleBounds(params[i], changes[i]);
    }
  }

  /**
   * What one of the loops of `mutate` leaves in a parameter list: entry i
   * multiplied by 1 - changes[i], where changes[i] is the i-th uniform draw.
   */
  function Scaled(params: seq<real>, changes: seq<real>): (r: seq<real>)
    requires |changes| == |params|
    requires forall i :: 0 <= i < |changes| ==> -MaxMutation <= changes[i] <= MaxMutation
    ensures |r| == |params|
    ensures forall i :: 0 <= i < |params| ==> WithinMutation(params[i], r[i])
    ensures (forall i :: 0 <= i < |changes| ==> changes[i] == 0.0) ==> r == params
  {
    var r := seq(|params|, i requires 0 <= i < |params| => params[i] * (1.0 - changes[i]));
    ScaleAllBounds(params, changes, r);
    r
  }

  // ---------------------------------------------------------------------------
  // The node object

  class Node {
    const weights: array<real>
    const biases: array<real>
    const children: array<NodeIndex>
    const sigmoidValue: real
    const numInputs: nat
    var value: real

    /** The invariant the constructor's length check establishes. */
    predicate Valid()
    {
      weights.Length == numInputs && biases.Length == numInputs
    }

    /** `__init__` on lists of equal length; see `NewNode` for the failing case. */
    constructor (weights: array<real>, biases: array<real>, children: array<NodeIndex>, sigmoidValue: real)
      requires weights.Length == biases.Length
      ensures Valid()
      ensures this.weights == weights && this.biases == biases && this.children == children
      ensures this.sigmoidValue == sigmoidValue && numInputs == weights.Length && value == 0.0
    {
      this.numInputs := weights.Length;
      this.weights := weights;
      this.biases := biases;
      this.children := children;
      this.sigmoidValue := sigmoidValue;
      this.value := 0.0;
    }

    /** The current parameter lists, as values. */
    function Params(): (seq<real>, seq<real>)
      reads weights, biases
    {
      (weights[..], biases[..])
    }

    /** `__call__`: evaluates the node on `nums`, stores the result in `value` and returns it. */
    method Call(exp: real -> real, nums: seq<real>) returns (r: real)
      requires IsExp(exp)
      requires Valid()
      modifies this
      ensures r == value
      ensures value == Activation(exp, sigmoidValue, numInputs, weights[..], biases[..], nums)
      ensures numInputs > 0 && |nums| == numInputs ==> 0.0 < r < 1.0
    {
      value := Activation(exp, sigmoidValue, numInputs, weights[..], biases[..], nums);
      r := value;
    }

    /**
     * `gradient`: walks the zipped (weight, bias, input) triples and, at each
     * index, subtracts learnRate times the helper's components from the weight
     * and the bias stored there.
     */
    method Gradient(exp: real -> real, nums: seq<real>, goal: real, learnRate: real)
      requires IsExp(exp)
      requires Valid() && weights != biases
      modifies weights, biases
      ensures Params() == GradientStep(exp, sigmoidValue, numInputs, old(weights[..]), old(biases[..]), nums, goal, learnRate)
    {
      var length := |nums|;
      var m := Min(numInputs, length);
      var index := 0;
      while index < m
        invariant 0 <= index <= m
        invariant forall i :: 0 <= i < index ==>
                    (weights[i], biases[i]) == StepPair(exp, sigmoidValue, numInputs, old(weights[i]), old(biases[i]), nums[i], goal / length as real, learnRate)
        invariant forall i :: index <= i < numInputs ==> weights[i] == old(weights[i]) && biases[i] == old(biases[i])
      {
        var weight, bias, num := weights[index], biases[index], nums[index];
        assert weight == old(weights[index]) && bias == old(biases[index]);
        var partials := GradientHelper(exp, sigmoidValue, numInputs, weight, bias, num, goal / length as real);
        var weightChange, biasChange := partials.0, partials.1;
        weightChange := weightChange * learnRate;
        biasChange := biasChange * learnRate;
        StepPairUnfolds(exp, sigmoidValue, numInputs, weight, bias, num, goal / length as real, learnRate);
        ghost var step := StepPair(exp, sigmoidValue, numInputs, weight, bias, num, goal / length as real, learnRate);
        assert step.0 == weight - weightChange;
        assert step.1 == bias - biasChange;
        weights[index] := weight - weightChange;
        biases[index] := bias - biasChange;
        assert weights[index] == step.0;
        assert biases[index] == step.1;
        assert (weights[index], biases[index])
            == StepPair(exp, sigmoidValue, numInputs, old(weights[index]), old(biases[index]), nums[index], goal / length as real, learnRate);
        index := index + 1;
      }
      ghost var target := GradientStep(exp, sigmoidValue, numInputs, old(weights[..]), old(biases[..]), nums, goal, learnRate);
      assert weights[..] == target.0;
      assert biases[..] == target.1;
    }

    /**
     * `mutate`: rescales every weight, then every bias, by 1 - change, where the
     * changes are the successive uniform draws in `draws` (the first
     * `weights.Length` for the weights, the rest for the biases).  Returns this node.
     */
    method Mutate(draws: seq<real>) returns (self: Node)
      requires Valid() && weights != biases
      requires |draws| == weights.Length + biases.Length
      requires forall i :: 0 <= i < |draws| ==> -MaxMutation <= draws[i] <= MaxMutation
      modifies weights, biases
      ensures self == this
      ensures weights[..] == Scaled(old(weights[..]), draws[..weights.Length])
      ensures biases[..] == Scaled(old(biases[..]), draws[weights.Length..])
    {
      ScaleInPlace(weights, draws[..weights.Length]);
      ScaleInPlace(biases, draws[weights.Length..]);
      self := this;
    }

    /**
     * `__deepcopy__`: a new node over fresh copies of the weight and bias lists,
     * sharing the very same children list, with the same sigmoid coefficient.
     */
    method DeepCopy() returns (copy: Node)
      requires Valid()
      ensures fresh(copy) && fresh(copy.weights) && fresh(copy.biases)
      ensures copy.Valid() && copy.Params() == Params()
      ensures copy.weights != copy.biases
      ensures copy.children == children && copy.sigmoidValue == sigmoidValue
      ensures copy.numInputs == numInputs && copy.value == 0.0
    {
      var ws := weights[..];
      var bs := biases[..];
      var weightsCopy := new real[|ws|](i requires 0 <= i < |ws| => ws[i]);
      var biasesCopy := new real[|bs|](i requires 0 <= i < |bs| => bs[i]);
      assert weightsCopy[..] == ws && biasesCopy[..] == bs;
      copy := new Node(weightsCopy, biasesCopy, children, sigmoidValue);
    }

    /** `asDict`: the node's own weight and bias lists (not copies) under two keys. */
    function AsDict(): (d: map<string, array<real>>)
      ensures d.Keys == {"Weights", "Biases"}
      ensures d["Weights"] == weights && d["Biases"] == biases
    {
      map["Weights" := weights, "Biases" := biases]
    }
  }

  /** One loop of `mutate`: entry i of `params` is multiplied in place by 1 - changes[i]. */
  method ScaleInPlace(params: array<real>, changes: seq<real>)
    requires |changes| == params.Length
    requires forall i :: 0 <= i < |changes| ==> -MaxMutation <= changes[i] <= MaxMutation
    modifies params
    ensures params[..] == Scaled(old(params[..]), changes)
  {
    var index := 0;
    while index < params.Length
      invariant 0 <= index <= params.Length
      invariant forall i :: 0 <= i < index ==> params[i] == old(params[i]) * (1.0 - changes[i])
      invariant forall i :: index <= i < params.Length ==> params[i] == old(params[i])
    {
      var change := changes[index];
      params[index] := params[index] * (1.0 - change);
      index := index + 1;
    }
    ghost var scaled := Scaled(old(params[..]), changes);
    assert forall i :: 0 <= i < params.Length ==> params[i] == scaled[i];
    assert params[..] == scaled;
  }

  /** `Node(weights, biases, children, sigmoid_value)`, including its ValueError. */
  method NewNode(weights: array<real>, biases: array<real>, children: array<NodeIndex>, sigmoidValue: real)
    returns (r: Result<Node, NodeError>)
    ensures r.Failure? <==> weights.Length != biases.Length
    ensures r.Success? ==> r.value.Valid() && r.value.numInputs == weights.Length && r.value.value == 0.0
    ensures r.Success? ==> r.value.weights == weights && r.value.biases == biases && r.value.children == children
    ensures r.Success? ==> r.value.sigmoidValue == sigmoidValue
  {
    if weights.Length != biases.Length {
      return Failure(DifferentAmountOfWeightsAndBiases);
    }
    var node := new Node(weights, biases, children, sigmoidValue);
    r := Success(node);
  }

  /**
   * `randomNode(numInputs)`: a node with max(numInputs, 0) weights drawn from
   * [MinWeight, MaxWeight], as many biases drawn from [MinBias, MaxBias], the
   * default sigmoid coefficient and a new empty children list.
   */
  method RandomNode(numInputs: int, weightDraws: seq<real>, biasDraws: seq<real>) returns (node: Node)
    requires |weightDraws| == (if numInputs < 0 then 0 else numInputs) == |biasDraws|
    requires forall i :: 0 <= i < |weightDraws| ==> MinWeight <= weightDraws[i] <= MaxWeight
    requires forall i :: 0 <= i < |biasDraws| ==> MinBias <= biasDraws[i] <= MaxBias
    ensures fresh(node) && fresh(node.weights) && fresh(node.biases) && fresh(node.children)
    ensures node.Valid() && node.numInputs == |weightDraws| && node.weights != node.biases
    ensures node.weights[..] == weightDraws && node.biases[..] == biasDraws
    ensures forall i :: 0 <= i < node.numInputs ==> MinWeight <= node.weights[i] <= MaxWeight && MinBias <= node.biases[i] <= MaxBias
    ensures node.children.Length == 0 && node.sigmoidValue == DefaultSigmoidValue && node.value == 0.0
  {
    var randomWeights := new real[|weightDraws|](i requires 0 <= i < |weightDraws| => weightDraws[i]);
    var randomBiases := new real[|biasDraws|](i requires 0 <= i < |biasDraws| => biasDraws[i]);
    var emptyChildren := new NodeIndex[0];
    node := new Node(randomWeights, randomBiases, emptyChildren, DefaultSigmoidValue);
  }

  // ---------------------------------------------------------------------------
  // The children graph
  //
  // A node's children are stored as indices into an arena of nodes, so the
  // graph the queries walk is the snapshot `graph`, where `graph[n]` lists the
  // children of node `n`.  The recursion of `isConnectedTo` only terminates on
  // an acyclic graph; acyclicity is stated as a ranking in which every child
  // lies strictly below its parent.

  /** The children lists of an arena of nodes, as values. */
  function Graph(arena: seq<Node>): (graph: seq<seq<NodeIndex>>)
    reads set i | 0 <= i < |arena| :: arena[i].children
    ensures |graph| == |arena|
    ensures forall i :: 0 <= i < |arena| ==> graph[i] == arena[i].children[..]
  {
    seq(|arena|, i requires 0 <= i < |arena| reads set j | 0 <= j < |arena| :: arena[j].children => arena[i].children[..])
  }

  /** Every child index names a node of the graph whose rank is below its parent's. */
  predicate Ranked(graph: seq<seq<NodeIndex>>, rank: seq<nat>)
  {
    |rank| == |graph| &&
    forall n, j :: 0 <= n < |graph| && 0 <= j < |graph[n]| ==>
      graph[n][j] < |graph| && rank[graph[n][j]] < rank[n]
  }

  /** `isInChildren`: whether `other` occurs in the children list of `self`. */
  function IsInChildren(graph: seq<seq<NodeIndex>>, self: NodeIndex, other: NodeIndex): (r: bool)
    requires self < |graph|
    ensures r <==> exists j :: 0 <= j < |graph[self]| && graph[self][j] == other
  {
    other in graph[self]
  }

  /**
   * `isConnectedTo`: `other` is a child of `self`, or is connected to one of
   * its children.  Whatever it is connected to lies strictly lower in the
   * ranking, so no node is connected to itself.
   */
  function IsConnectedTo(graph: seq<seq<NodeIndex>>, rank: seq<nat>, self: NodeIndex, other: NodeIndex): (r: bool)
    requires Ranked(graph, rank) && self < |graph|
    ensures IsInChildren(graph, self, other) ==> r
    ensures r ==> other < |graph| && rank[other] < rank[self]
    decreases rank[self], 1, 0
  {
    IsInChildren(graph, self, other) || AnyConnected(graph, rank, graph[self], rank[self], other)
  }

  /** `any(child.isConnectedTo(other) for child in children)`, for children ranked below `bound`. */
  function AnyConnected(graph: seq<seq<NodeIndex>>, rank: seq<nat>, children: seq<NodeIndex>, bound: nat, other: NodeIndex): (r: bool)
    requires Ranked(graph, rank)
    requires forall k :: 0 <= k < |children| ==> children[k] < |graph| && rank[children[k]] < bound
    ensures r ==> other < |graph| && rank[other] < bound
    decreases bound, 0, |children|
  {
    |children| > 0 &&
    (IsConnectedTo(graph, rank, children[0], other) || AnyConnected(graph, rank, children[1..], bound, other))
  }

  /** A walk along one or more child edges. */
  ghost predicate IsPath(graph: seq<seq<NodeIndex>>, path: seq<NodeIndex>)
  {
    |path| >= 2 &&
    (forall k :: 0 <= k < |path| ==> path[k] < |graph|) &&
    (forall k :: 0 <= k < |path| - 1 ==> path[k + 1] in graph[path[k]])
  }

  /** `other` can be reached from `self` by following one or more child edges. */
  ghost predicate Reachable(graph: seq<seq<NodeIndex>>, self: NodeIndex, other: NodeIndex)
  {
    exists path :: IsPath(graph, path) && path[0] == self && path[|path| - 1] == other
  }

  lemma {:induction false} ConnectedImpliesReachable(graph: seq<seq<NodeIndex>>, rank: seq<nat>, self: NodeIndex, other: NodeIndex)
    requires Ranked(graph, rank) && self < |graph|
    requires IsConnectedTo(graph, rank, self, other)
    ensures Reachable(graph, self, other)
    decreases rank[self], 1
  {
    if IsInChildren(graph, self, other) {
      assert IsPath(graph, [self, other]);
    } else {
      var child := AnyConnectedReachable(graph, rank, graph[self], rank[self], other);
      var path :| IsPath(graph, path) && path[0] == child && path[|path| - 1] == other;
      assert IsPath(graph, [self] + path);
    }
  }

  lemma {:induction false} AnyConnectedReachable(graph: seq<seq<NodeIndex>>, rank: seq<nat>, children: seq<NodeIndex>, bound: nat, other: NodeIndex)
    returns (child: NodeIndex)
    requires Ranked(graph, rank)
    requires forall k :: 0 <= k < |children| ==> children[k] < |graph| && rank[children[k]] < bound
    requires AnyConnected(graph, rank, children, bound, other)
    ensures child in children && Reachable(graph, child, other)
    decreases bound, 0, |children|
  {
    if IsConnectedTo(graph, rank, children[0], other) {
      ConnectedImpliesReachable(graph, rank, children[0], other);
      child := children[0];
    } else {
      child := AnyConnectedReachable(graph, rank, children[1..], bound, other);
    }
  }

  /** A child connected to `other` makes the whole children list connected to it. */
  lemma {:induction false} ChildConnected(graph: seq<seq<NodeIndex>>, rank: seq<nat>, children: seq<NodeIndex>, bound: nat, child: NodeIndex, other: NodeIndex)
    requires Ranked(graph, rank)
    requires forall k :: 0 <= k < |children| ==> children[k] < |graph| && rank[children[k]] < bound
    requires child in children && IsConnectedTo(graph, rank, child, other)
    ensures AnyConnected(graph, rank, children, bound, other)
    decreases |children|
  {
    if children[0] != child {
      ChildConnected(graph, rank, children[1..], bound, child, other);
    }
  }

  lemma {:induction false} PathImpliesConnected(graph: seq<seq<NodeIndex>>, rank: seq<nat>, path: seq<NodeIndex>)
    requires Ranked(graph, rank) && IsPath(graph, path)
    ensures IsConnectedTo(graph, rank, path[0], path[|path| - 1])
    decreases |path|
  {
    if |path| > 2 {
      var rest := path[1..];
      assert IsPath(graph, rest) by {
        forall k | 0 <= k < |rest| - 1
          ensures rest[k + 1] in graph[rest[k]]
        {
          assert rest[k + 1] == path[k + 2] && rest[k] == path[k + 1];
        }
      }
      PathImpliesConnected(graph, rank, rest);
      assert path[1] in graph[path[0]];
      ChildConnected(graph, rank, graph[path[0]], rank[path[0]], path[1], path[|path| - 1]);
    }
  }

  /** `isConnectedTo` is exactly reachability along one or more child edges. */
  lemma ConnectedIffReachable(graph: seq<seq<NodeIndex>>, rank: seq<nat>, self: NodeIndex, other: NodeIndex)
    requires Ranked(graph, rank) && self < |graph|
    ensures IsConnectedTo(graph, rank, self, other) <==> Reachable(graph, self, other)
  {
    if IsConnectedTo(graph, rank, self, other) {
      ConnectedImpliesReachable(graph, rank, self, other);
    }
    if Reachable(graph, self, other) {
      var path :| IsPath(graph, path) && path[0] == self && path[|path| - 1] == other;
      PathImpliesConnected(graph, rank, path);
    }
  }

  /** Connection composes: a descendant of a descendant is a descendant. */
  lemma ConnectedTransitive(graph: seq<seq<NodeIndex>>, rank: seq<nat>, a: NodeIndex, b: NodeIndex, c: NodeIndex)
    requires Ranked(graph, rank) && a < |graph|
    requires IsConnectedTo(graph, rank, a, b)
    requires b < |graph| && IsConnectedTo(graph, rank, b, c)
    ensures IsConnectedTo(graph, rank, a, c)
  {
    ConnectedImpliesReachable(graph, rank, a, b);
    ConnectedImpliesReachable(graph, rank, b, c);
    var first :| IsPath(graph, first) && first[0] == a && first[|first| - 1] == b;
    var second :| IsPath(graph, second) && second[0] == b && second[|second| - 1] == c;
    var path := first + second[1..];
    assert IsPath(graph, path) by {
      forall k | 0 <= k < |path| - 1
        ensures path[k + 1] in graph[path[k]]
      {
        if k < |first| - 1 {
          assert path[k] == first[k] && path[k + 1] == first[k + 1];
        } else {
          assert path[k] == second[k - |first| + 1] && path[k + 1] == second[k - |first| + 2];
        }
      }
    }
    PathImpliesConnected(graph, rank, path);
  }

  /** No node is connected to itself on an acyclic graph. */
  lemma NotConnectedToSelf(graph: seq<seq<NodeIndex>>, rank: seq<nat>, self: NodeIndex)
    requires Ranked(graph, rank) && self < |graph|
    ensures !IsConnectedTo(graph, rank, self, self)
  {
  }

  /** The answer of `AnyConnected` does not depend on the rank bound used to justify its recursion. */
  lemma {:induction false} AnyConnectedAnyBound(graph: seq<seq<NodeIndex>>, rank: seq<nat>, children: seq<NodeIndex>, bound1: nat, bound2: nat, other: NodeIndex)
    requires Ranked(graph, rank)
    requires forall k :: 0 <= k < |children| ==> children[k] < |graph| && rank[children[k]] < bound1 && rank[children[k]] < bound2
    ensures AnyConnected(graph, rank, children, bound1, other) == AnyConnected(graph, rank, children, bound2, other)
    decreases |children|
  {
    if |children| > 0 {
      AnyConnectedAnyBound(graph, rank, children[1..], bound1, bound2, other);
    }
  }

  /**
   * Two nodes with the same children list, as a node and its deep copy have,
   * are connected to exactly the same nodes.
   */
  lemma SameChildrenSameConnections(graph: seq<seq<NodeIndex>>, rank: seq<nat>, a: NodeIndex, b: NodeIndex, other: NodeIndex)
    requires Ranked(graph, rank) && a < |graph| && b < |graph|
    requires graph[a] == graph[b]
    ensures IsConnectedTo(graph, rank, a, other) == IsConnectedTo(graph, rank, b, other)
  {
    AnyConnectedAnyBound(graph, rank, graph[a], rank[a], rank[b], other);
  }

  /** In an arena, a node and a copy sharing its children list are connected to the same nodes. */
  lemma CopyKeepsConnections(arena: seq<Node>, rank: seq<nat>, original: NodeIndex, copy: NodeIndex, other: NodeIndex)
    requires original < |arena| && copy < |arena| && Ranked(Graph(arena), rank)
    requires arena[copy].children == arena[original].children
    ensures IsConnectedTo(Graph(arena), rank, copy, other) == IsConnectedTo(Graph(arena), rank, original, other)
  {
    SameChildrenSameConnections(Graph(arena), rank, copy, original, other);
  }

  /** A chain 0 -> 1 -> 2: node 0 is connected to its grandchild 2 without having it as a child. */
  lemma GrandchildIsConnected()
    ensures Ranked([[1], [2], []], [2, 1, 0])
    ensures !IsInChildren([[1], [2], []], 0, 2)
    ensures IsConnectedTo([[1], [2], []], [2, 1, 0], 0, 2)
    ensures !IsConnectedTo([[1], [2], []], [2, 1, 0], 2, 0)
  {
    var graph: seq<seq<NodeIndex>> := [[1], [2], []];
    var rank: seq<nat> := [2, 1, 0];
    assert IsConnectedTo(graph, rank, 1, 2);
    ChildConnected(graph, rank, graph[0], rank[0], 1, 2);
  }
}
