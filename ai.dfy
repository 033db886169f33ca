/** The evaluator of `src/engine/ai.rs`: two layer chains over the
    1089-entry position encoding, one scoring moves (policy) and one scoring
    positions (value), each ending in a two-way Softmax. */
module Ai {
  import opened Vectors
  import opened NeuralNet

  /** Width of the position encoding every chain takes. */
  const InputWidth: nat := 1089

  /** Scale factors applied to freshly drawn parameters. */
  const PolicyScale: real := 0.3
  const ValueScale: real := 0.4

  /** The first `n` layers `from_shape` draws for the hidden widths
      `widths`: the head takes `InputWidth` values and has `widths[0]`
      outputs, and every later layer `k` takes its predecessor's outputs and
      has `widths[k]`, all LeakyReLU. Layer `k` draws from `samples(k)`. */
  function HiddenChain(widths: seq<nat>, samples: nat -> (nat -> real), n: nat): (c: seq<Dense>)
    requires 0 < n <= |widths|
    ensures |c| == n && Fits(c, InputWidth) && OutWidth(c) == widths[n - 1]
    ensures forall k :: 0 <= k < n ==> c[k].activation == LeakyReLU && |c[k].biases| == widths[k]
    decreases n
  {
    if n == 1 then [RandomLayer(InputWidth, widths[0], LeakyReLU, samples(0))]
    else
      var front := HiddenChain(widths, samples, n - 1);
      var l := RandomLayer(widths[n - 2], widths[n - 1], LeakyReLU, samples(n - 1));
      FitsAppend(front, InputWidth, l);
      front + [l]
  }

  /** The whole chain `from_shape` draws for `widths`, before scaling: the
      hidden layers, then a Softmax layer of width 2. */
  function HeadChain(widths: seq<nat>, samples: nat -> (nat -> real)): (c: seq<Dense>)
    requires |widths| > 0
    ensures |c| == |widths| + 1
    ensures Fits(c, InputWidth) && OutWidth(c) == 2
    ensures forall k :: 0 <= k < |widths| ==> c[k].activation == LeakyReLU && |c[k].biases| == widths[k]
    ensures c[|widths|].activation == Softmax
  {
    var n := |widths|;
    var hidden := HiddenChain(widths, samples, n);
    var tail := RandomLayer(widths[n - 1], 2, Softmax, samples(n));
    FitsAppend(hidden, InputWidth, tail);
    hidden + [tail]
  }

  /** The hidden-layer loop of `from_shape`: appends a LeakyReLU layer for
      every width after the first. */
  method AddHidden(l: Layer, widths: seq<nat>, samples: nat -> (nat -> real))
    requires |widths| > 0 && l.Valid() && l.Chain == HiddenChain(widths, samples, 1)
    modifies l.Repr
    ensures l.Valid() && fresh(l.Repr - old(l.Repr))
    ensures l.Chain == HiddenChain(widths, samples, |widths|)
  {
    for i := 1 to |widths|
      invariant l.Valid() && fresh(l.Repr - old(l.Repr))
      invariant l.Chain == HiddenChain(widths, samples, i)
    {
      l.AddRandomLayer(widths[i], LeakyReLU, samples(i));
    }
  }

  /** The Softmax tail of width 2 that `from_shape` appends last. */
  method AddSoftmaxTail(l: Layer, widths: seq<nat>, samples: nat -> (nat -> real))
    requires |widths| > 0 && l.Valid() && l.Chain == HiddenChain(widths, samples, |widths|)
    modifies l.Repr
    ensures l.Valid() && fresh(l.Repr - old(l.Repr))
    ensures l.Chain == HeadChain(widths, samples)
  {
    l.AddRandomLayer(2, Softmax, samples(|widths|));
  }

  /** One chain of `from_shape` before scaling: the head, the hidden
      layers and the Softmax tail. */
  method Build(widths: seq<nat>, samples: nat -> (nat -> real)) returns (l: Layer)
    requires |widths| > 0
    ensures l.Valid() && fresh(l.Repr)
    ensures l.Chain == HeadChain(widths, samples)
  {
    l := new Layer.Random(InputWidth, widths[0], LeakyReLU, samples(0));
    AddHidden(l, widths, samples);
    AddSoftmaxTail(l, widths, samples);
  }

  /** One chain of `from_shape`, drawn and then scaled by `sf`. */
  method Draw(widths: seq<nat>, samples: nat -> (nat -> real), sf: real) returns (l: Layer)
    requires |widths| > 0
    ensures l.Valid() && fresh(l.Repr) && Evaluates(l.Chain)
    ensures l.Chain == ScaleChain(HeadChain(widths, samples), sf)
  {
    l := Build(widths, samples);
    l.Scale(sf);
    ScaleKeepsEvaluates(HeadChain(widths, samples), sf);
  }

  /** The pair of chains. */
  class Thod {
    var policy: Layer
    var value: Layer

    ghost var Repr: set<object>

    /** Both chains are well linked, share no layer, take `InputWidth`
        values and end in a Softmax layer of width 2. */
    ghost predicate Valid()
      reads this, Repr
    {
      && this in Repr
      && policy in Repr && policy.Repr <= Repr && this !in policy.Repr
      && value in Repr && value.Repr <= Repr && this !in value.Repr
      && policy.Repr !! value.Repr
      && policy.Valid() && value.Valid()
      && Evaluates(policy.Chain) && Evaluates(value.Chain)
    }

    /** The struct literal `Self { policy, value }`. */
    constructor (policy: Layer, value: Layer)
      requires policy.Valid() && value.Valid() && policy.Repr !! value.Repr
      requires Evaluates(policy.Chain) && Evaluates(value.Chain)
      ensures Valid() && Repr == {this} + policy.Repr + value.Repr
      ensures this.policy == policy && this.value == value
    {
      this.policy := policy;
      this.value := value;
      Repr := {this} + policy.Repr + value.Repr;
    }

    /** `from_shape(pol, val)`. `pol[0]` and `val[0]` are read
        unconditionally, so both must be non-empty. */
    static method FromShape(pol: seq<nat>, val: seq<nat>, policySamples: nat -> (nat -> real), valueSamples: nat -> (nat -> real))
      returns (t: Thod)
      requires |pol| > 0 && |val| > 0
      ensures t.Valid() && fresh(t.Repr)
      ensures t.policy.Chain == ScaleChain(HeadChain(pol, policySamples), PolicyScale)
      ensures t.value.Chain == ScaleChain(HeadChain(val, valueSamples), ValueScale)
    {
      var p := Draw(pol, policySamples, PolicyScale);
      var v := Draw(val, valueSamples, ValueScale);
      t := new Thod(p, v);
    }

    /** `Default::default`: hidden widths 500, 250, 100 for the policy and
        750, 500, 250, 100, 10 for the value, so chains of 4 and 6 layers. */
    static method Default(policySamples: nat -> (nat -> real), valueSamples: nat -> (nat -> real)) returns (t: Thod)
      ensures t.Valid() && fresh(t.Repr)
      ensures |t.policy.Chain| == 4 && |t.value.Chain| == 6
      ensures t.policy.Chain == ScaleChain(HeadChain([500, 250, 100], policySamples), PolicyScale)
      ensures t.value.Chain == ScaleChain(HeadChain([750, 500, 250, 100, 10], valueSamples), ValueScale)
    {
      t := FromShape([500, 250, 100], [750, 500, 250, 100, 10], policySamples, valueSamples);
    }

    /** `Tools::policy`: entry 0 of the policy chain's prediction. */
    method Policy(state: Vector, num: Numerics) returns (r: real)
      requires Valid() && |state| == InputWidth
      ensures r == Forward(policy.Chain, state, num)[0]
    {
      var out := policy.Predict(state, num);
      r := out[0];
    }

    /** `Tools::value`: entry 0 of the value chain's prediction. */
    method Value(state: Vector, num: Numerics) returns (r: real)
      requires Valid() && |state| == InputWidth
      ensures r == Forward(value.Chain, state, num)[0]
    {
      var out := value.Predict(state, num);
      r := out[0];
    }

    /** `train_policy`: one CrossEntropy training step of the policy chain
        toward `[outcome, 1 - outcome]`; the value chain is untouched. As
        the tail is Softmax, only the tail's biases can move. */
    method TrainPolicy(state: Vector, outcome: real, lr: real, num: Numerics)
      requires Valid() && |state| == InputWidth
      modifies policy.Repr
      ensures Valid()
      ensures policy.Chain == TrainChain(old(policy.Chain), state, Target(outcome), CrossEntropy, lr, num).chain
      ensures value.Chain == old(value.Chain)
      ensures OnlyTailBiasesMoved(old(policy.Chain), policy.Chain)
    {
      ghost var before := policy.Chain;
      var _ := policy.Train(state, Target(outcome), CrossEntropy, lr, num);
      TrainKeepsEvaluates(before, state, Target(outcome), lr, num);
    }

    /** `train_value`: the same step on the value chain only. */
    method TrainValue(state: Vector, outcome: real, lr: real, num: Numerics)
      requires Valid() && |state| == InputWidth
      modifies value.Repr
      ensures Valid()
      ensures value.Chain == TrainChain(old(value.Chain), state, Target(outcome), CrossEntropy, lr, num).chain
      ensures policy.Chain == old(policy.Chain)
      ensures OnlyTailBiasesMoved(old(value.Chain), value.Chain)
    {
      ghost var before := value.Chain;
      var _ := value.Train(state, Target(outcome), CrossEntropy, lr, num);
      TrainKeepsEvaluates(before, state, Target(outcome), lr, num);
    }
  }

  /** The training target for a game result `outcome`. */
  function Target(outcome: real): (y: Vector)
    ensures |y| == 2 && y[0] + y[1] == 1.0
  {
    [outcome, 1.0 - outcome]
  }

  /** A chain the evaluator can use: it takes `InputWidth` values and ends
      in a Softmax layer of width 2. */
  ghost predicate Evaluates(chain: seq<Dense>)
  {
    && Fits(chain, InputWidth)
    && OutWidth(chain) == 2
    && chain[|chain| - 1].activation == Softmax
  }

  /** `b` is `a` with at most the tail layer's biases changed. */
  ghost predicate OnlyTailBiasesMoved(a: seq<Dense>, b: seq<Dense>)
  {
    && |a| == |b| > 0
    && (forall k :: 0 <= k < |a| - 1 ==> b[k] == a[k])
    && b[|b| - 1].weights == a[|a| - 1].weights
    && b[|b| - 1].activation == a[|a| - 1].activation
  }

  lemma ScaleKeepsEvaluates(chain: seq<Dense>, sf: real)
    requires Evaluates(chain)
    ensures Evaluates(ScaleChain(chain, sf))
  {
    FitsCongruent(chain, ScaleChain(chain, sf), InputWidth);
  }

  /** Training keeps a chain usable by the evaluator and, the tail being
      Softmax, changes only the tail's biases. */
  lemma TrainKeepsEvaluates(chain: seq<Dense>, x: Vector, y: Vector, lr: real, num: Numerics)
    requires Evaluates(chain) && |x| == InputWidth && |y| == 2
    ensures var t := TrainChain(chain, x, y, CrossEntropy, lr, num).chain;
      Evaluates(t) && OnlyTailBiasesMoved(chain, t)
  {
    var t := TrainChain(chain, x, y, CrossEntropy, lr, num).chain;
    FitsCongruent(chain, t, InputWidth);
    SoftmaxTailTrainsOnlyTailBiases(chain, x, y, CrossEntropy, lr, num);
  }
}
