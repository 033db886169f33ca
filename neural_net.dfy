/** The scoring network of `src/neural_net.rs`: a singly linked chain of
    dense layers with a hand-written forward and backward pass.

    The first half of the module is the specification on values: a layer is
    a `Dense` record and a network is the sequence of its layers, head
    first. The second half is the class `Layer`, the linked chain the source
    mutates in place, whose methods are proved against those functions. */
module NeuralNet {
  import opened Vectors

  /** A real function that is positive everywhere: the model's `f64::exp`. */
  type PositiveFn = f: real -> real | forall x :: f(x) > 0.0 witness (x: real) => 1.0

  /** Floating-point operations the model does not interpret: the
      exponential of Softmax and the per-element CrossEntropy cost
      `-y * log2(p)` and gradient `(y * ln 0.5) / p`. */
  datatype Numerics = Numerics(
    exp: PositiveFn,
    crossEntropy: (real, real) -> real,
    crossEntropyGrad: (real, real) -> real)

  datatype Activation = Linear | ReLU | LeakyReLU | Softmax

  datatype Cost = Mse | CrossEntropy

  /** `f64::max` on numbers. */
  function Max(a: real, b: real): real
  {
    if a >= b then a else b
  }

  // ---------------------------------------------------------------------
  // Activations and costs
  // ---------------------------------------------------------------------

  /** `exp(x_i)` for every entry. */
  function Exps(x: Vector, num: Numerics): (e: Vector)
    ensures |e| == |x|
    ensures forall i :: 0 <= i < |e| ==> e[i] > 0.0
  {
    var e := seq(|x|, i requires 0 <= i < |x| => num.exp(x[i]));
    assert forall i :: 0 <= i < |e| ==> e[i] == num.exp(x[i]) > 0.0;
    e
  }

  /** Every entry divided by `t`. */
  function Divide(v: Vector, t: real): (r: Vector)
    requires t != 0.0
    ensures |r| == |v|
  {
    seq(|v|, i requires 0 <= i < |v| => v[i] / t)
  }

  /** `exp(x_i) / sum_j exp(x_j)`. */
  function SoftmaxOf(x: Vector, num: Numerics): (s: Vector)
    ensures |s| == |x|
    ensures forall i :: 0 <= i < |s| ==> s[i] > 0.0
  {
    if |x| == 0 then []
    else
      var e := Exps(x, num);
      SumOfPositives(e);
      Divide(e, Sum(e))
  }

  /** `Activation::apply`. */
  function Activate(act: Activation, x: Vector, num: Numerics): (r: Vector)
    ensures |r| == |x|
    ensures act == Linear ==> r == x
    ensures act == ReLU ==>
      forall i :: 0 <= i < |x| ==> r[i] == (if x[i] > 0.0 then x[i] else 0.0) && r[i] >= 0.0
    ensures act == LeakyReLU ==>
      forall i :: 0 <= i < |x| ==> r[i] == (if x[i] > 0.0 then x[i] else 0.1 * x[i])
  {
    match act
    case Linear => x
    case ReLU => seq(|x|, i requires 0 <= i < |x| => Max(x[i], 0.0))
    case LeakyReLU => seq(|x|, i requires 0 <= i < |x| => Max(x[i], x[i] * 0.1))
    case Softmax => SoftmaxOf(x, num)
  }

  /** Entry `i` of the row sum of the Softmax Jacobian, summed over the
      first `n` columns in the order of the source's inner loop. */
  function JacobianRowSum(s: Vector, i: nat, n: nat): real
    requires i < |s| && n <= |s|
  {
    if n == 0 then 0.0
    else JacobianRowSum(s, i, n - 1) + (if i == n - 1 then s[i] * (1.0 - s[i]) else -s[i] * s[n - 1])
  }

  /** `Activation::diff`: for Softmax, the row sums of the Jacobian of the
      Softmax output `s`. */
  function Derivative(act: Activation, x: Vector, num: Numerics): (d: Vector)
    ensures |d| == |x|
    ensures act == Linear ==> d == Ones(|x|)
    ensures act == ReLU ==>
      forall i :: 0 <= i < |x| ==> d[i] == (if x[i] > 0.0 then 1.0 else 0.0)
    ensures act == LeakyReLU ==>
      forall i :: 0 <= i < |x| ==> d[i] == (if x[i] > 0.0 then 1.0 else 0.01)
    ensures act == Softmax ==> IsZero(d)
  {
    match act
    case Linear => Ones(|x|)
    case ReLU => seq(|x|, i requires 0 <= i < |x| => if x[i] > 0.0 then 1.0 else 0.0)
    case LeakyReLU => seq(|x|, i requires 0 <= i < |x| => if x[i] > 0.0 then 1.0 else 0.01)
    case Softmax =>
      var s := SoftmaxOf(x, num);
      if |x| > 0 then SoftmaxSumsToOne(x, num); JacobianRowsVanish(s); ZeroRows(s)
      else []
  }

  /** The row sums of the Jacobian of `s` as the vector `diff` returns. */
  function RowSums(s: Vector): Vector
  {
    seq(|s|, i requires 0 <= i < |s| => JacobianRowSum(s, i, |s|))
  }

  /** Where every Jacobian row sums to zero, the row-sum vector is zero. */
  function ZeroRows(s: Vector): (d: Vector)
    requires forall i :: 0 <= i < |s| ==> JacobianRowSum(s, i, |s|) == 0.0
    ensures d == RowSums(s) && IsZero(d)
  {
    RowSums(s)
  }

  /** How `diff` relates to `apply`: for Linear and ReLU, and for LeakyReLU
      above zero, the output is the derivative times the input; for
      LeakyReLU below zero the output is TEN times that, since `apply` uses
      slope 0.1 and `diff` slope 0.01. */
  lemma DerivativeIsSlope(act: Activation, x: Vector, num: Numerics)
    requires act != Softmax
    ensures var y, d := Activate(act, x, num), Derivative(act, x, num);
      && (act != LeakyReLU ==> forall i :: 0 <= i < |x| ==> y[i] == d[i] * x[i])
      && (act == LeakyReLU ==> forall i :: 0 <= i < |x| && x[i] > 0.0 ==> y[i] == d[i] * x[i])
      && (act == LeakyReLU ==> forall i :: 0 <= i < |x| && x[i] < 0.0 ==> y[i] == 10.0 * d[i] * x[i])
  {
  }

  /** `Cost::apply`, one entry per output. */
  function CostOf(cost: Cost, p: Vector, y: Vector, num: Numerics): (c: Vector)
    requires |p| == |y|
    ensures |c| == |p|
    ensures cost == Mse ==> forall i :: 0 <= i < |c| ==> c[i] >= 0.0
    ensures cost == Mse ==> forall i :: 0 <= i < |c| && p[i] == y[i] ==> c[i] == 0.0
  {
    match cost
    case Mse =>
      var c := Scale(seq(|p|, i requires 0 <= i < |p| => (p[i] - y[i]) * (p[i] - y[i])), 0.5);
      forall i | 0 <= i < |p| ensures c[i] >= 0.0 {
        HalfSquare(p[i] - y[i]);
      }
      c
    case CrossEntropy => seq(|p|, i requires 0 <= i < |p| => num.crossEntropy(p[i], y[i]))
  }

  lemma HalfSquare(d: real)
    ensures (d * d) * 0.5 >= 0.0
  {
  }

  /** `Cost::diff`, the gradient of the cost with respect to the prediction. */
  function CostGradient(cost: Cost, p: Vector, y: Vector, num: Numerics): (g: Vector)
    requires |p| == |y|
    ensures |g| == |p|
    ensures cost == Mse ==> (IsZero(g) <==> p == y)
  {
    match cost
    case Mse =>
      var g := Sub(p, y);
      assert IsZero(g) ==> p == y by {
        if IsZero(g) {
          forall i | 0 <= i < |p| ensures p[i] == y[i] {
            assert g[i] == 0.0;
          }
        }
      }
      g
    case CrossEntropy => seq(|p|, i requires 0 <= i < |p| => num.crossEntropyGrad(p[i], y[i]))
  }

  // ---------------------------------------------------------------------
  // Layers and chains as values
  // ---------------------------------------------------------------------

  /** The parameters of one layer: an outputs × inputs weight matrix, one
      bias per output, and the activation. */
  datatype Dense = Dense(weights: Matrix, biases: Vector, activation: Activation)

  /** The layer maps vectors of width `inputs` to vectors of width `|biases|`. */
  predicate Shaped(l: Dense, inputs: nat)
  {
    IsMatrix(l.weights, |l.biases|, inputs)
  }

  /** The shape-chain invariant: the head takes `inputs` values and every
      layer's input width is the previous layer's output width. */
  predicate Fits(chain: seq<Dense>, inputs: nat)
    decreases |chain|
  {
    && |chain| > 0
    && Shaped(chain[0], inputs)
    && (|chain| > 1 ==> Fits(chain[1..], |chain[0].biases|))
  }

  /** Output width of the network: that of its tail layer. */
  function OutWidth(chain: seq<Dense>): nat
    requires |chain| > 0
  {
    |chain[|chain| - 1].biases|
  }

  /** Two layers with the same shape and activation. */
  predicate Congruent(l: Dense, m: Dense)
  {
    && |l.biases| == |m.biases|
    && |l.weights| == |m.weights|
    && (forall i :: 0 <= i < |l.weights| ==> |l.weights[i]| == |m.weights[i]|)
    && l.activation == m.activation
  }

  predicate CongruentChains(a: seq<Dense>, b: seq<Dense>)
  {
    |a| == |b| && forall i :: 0 <= i < |a| ==> Congruent(a[i], b[i])
  }

  /** `W · x + b`. */
  function Preactivation(l: Dense, x: Vector): (z: Vector)
    requires Shaped(l, |x|)
    ensures |z| == |l.biases|
  {
    Add(MatVec(l.weights, x), l.biases)
  }

  /** `Layer::apply`: `act(W · x + b)`. */
  function ApplyLayer(l: Dense, x: Vector, num: Numerics): (a: Vector)
    requires Shaped(l, |x|)
    ensures |a| == |l.biases|
  {
    Activate(l.activation, Preactivation(l, x), num)
  }

  /** `Layer::predict`: each layer's output is its child's input. */
  function Forward(chain: seq<Dense>, x: Vector, num: Numerics): (y: Vector)
    requires Fits(chain, |x|)
    ensures |y| == OutWidth(chain)
    decreases |chain|
  {
    var a := ApplyLayer(chain[0], x, num);
    if |chain| == 1 then a else Forward(chain[1..], a, num)
  }

  /** What `Layer::differentiate` returns. */
  datatype Grads = Grads(dw: Matrix, db: Vector, di: Vector)

  /** `Layer::differentiate`: with `delta = act'(W·x + b) * doutput`, the
      weight gradient is `delta ⊗ x`, the bias gradient is `doutput` itself
      (not `delta`), and the input gradient is `delta · W`. */
  function Gradients(l: Dense, x: Vector, doutput: Vector, num: Numerics): (g: Grads)
    requires Shaped(l, |x|) && |doutput| == |l.biases|
    ensures IsMatrix(g.dw, |l.biases|, |x|) && |g.db| == |l.biases| && |g.di| == |x|
  {
    var delta := Delta(l, x, doutput, num);
    Grads(Outer(delta, x), doutput, VecMat(delta, l.weights, |x|))
  }

  /** `delta = act'(W·x + b) * doutput`, the error signal at the
      pre-activation. */
  function Delta(l: Dense, x: Vector, doutput: Vector, num: Numerics): (delta: Vector)
    requires Shaped(l, |x|) && |doutput| == |l.biases|
    ensures |delta| == |l.biases|
  {
    Mul(Derivative(l.activation, Preactivation(l, x), num), doutput)
  }

  /** One gradient step: `W -= dw * lr`, `b -= db * lr`. */
  function Step(l: Dense, g: Grads, lr: real): (r: Dense)
    requires |g.dw| == |l.weights| && (forall i :: 0 <= i < |l.weights| ==> |g.dw[i]| == |l.weights[i]|)
    requires |g.db| == |l.biases|
    ensures Congruent(l, r)
  {
    Dense(MatSub(l.weights, MatScale(g.dw, lr)), Sub(l.biases, Scale(g.db, lr)), l.activation)
  }

  /** What `Layer::train` leaves behind: the updated chain and the gradient
      with respect to the chain's input. */
  datatype Trained = Trained(chain: seq<Dense>, inputGrad: Vector)

  /** `Layer::train` on values. The child is trained first, on this layer's
      output; its input gradient (or, at the tail, the cost gradient) is
      `da`. This layer then takes one step along `differentiate(x, da)`, and
      the input gradient it returns is `differentiate(x, da)` computed
      again, with the UPDATED weights and biases. */
  function TrainChain(chain: seq<Dense>, x: Vector, y: Vector, cost: Cost, lr: real, num: Numerics): (t: Trained)
    requires Fits(chain, |x|) && |y| == OutWidth(chain)
    ensures CongruentChains(chain, t.chain)
    ensures |t.inputGrad| == |x|
    decreases |chain|
  {
    var l := chain[0];
    var a := ApplyLayer(l, x, num);
    var rest := if |chain| == 1 then Trained([], CostGradient(cost, a, y, num))
                else TrainChain(chain[1..], a, y, cost, lr, num);
    var l' := Step(l, Gradients(l, x, rest.inputGrad, num), lr);
    Trained([l'] + rest.chain, Gradients(l', x, rest.inputGrad, num).di)
  }

  /** The gradient `da` that `train` hands to the head layer of `chain`:
      the child's input gradient, or the cost gradient at the tail. */
  function HeadGradient(chain: seq<Dense>, x: Vector, y: Vector, cost: Cost, lr: real, num: Numerics): (da: Vector)
    requires Fits(chain, |x|) && |y| == OutWidth(chain)
    ensures |da| == |chain[0].biases|
  {
    var a := ApplyLayer(chain[0], x, num);
    if |chain| == 1 then CostGradient(cost, a, y, num) else TrainChain(chain[1..], a, y, cost, lr, num).inputGrad
  }

  /** The layers below the head after `train`: the child's trained chain,
      or nothing at the tail. */
  function TrainedBelow(chain: seq<Dense>, x: Vector, y: Vector, cost: Cost, lr: real, num: Numerics): seq<Dense>
    requires Fits(chain, |x|) && |y| == OutWidth(chain)
  {
    if |chain| == 1 then [] else TrainChain(chain[1..], ApplyLayer(chain[0], x, num), y, cost, lr, num).chain
  }

  /** One layer of `Layer::scale`: `weights *= sf`, `biases *= sf`. */
  function ScaleLayer(l: Dense, sf: real): (r: Dense)
    ensures Congruent(l, r)
  {
    Dense(MatScale(l.weights, sf), Scale(l.biases, sf), l.activation)
  }

  /** Every weight and every bias of the layer is multiplied by `sf`. */
  lemma ScaleLayerEntries(l: Dense, sf: real)
    ensures var r := ScaleLayer(l, sf);
      && (forall i, j :: 0 <= i < |l.weights| && 0 <= j < |l.weights[i]| ==>
            r.weights[i][j] == l.weights[i][j] * sf)
      && (forall i :: 0 <= i < |l.biases| ==> r.biases[i] == l.biases[i] * sf)
  {
  }

  /** `Layer::scale` on values, recursively through the chain. */
  function ScaleChain(chain: seq<Dense>, sf: real): (r: seq<Dense>)
    ensures CongruentChains(chain, r)
    decreases |chain|
  {
    if |chain| == 0 then [] else [ScaleLayer(chain[0], sf)] + ScaleChain(chain[1..], sf)
  }

  /** `scale` reaches every layer: layer `k` of the result is layer `k`
      of the chain, scaled. */
  lemma {:induction false} ScaleChainAt(chain: seq<Dense>, sf: real)
    ensures forall k :: 0 <= k < |chain| ==> ScaleChain(chain, sf)[k] == ScaleLayer(chain[k], sf)
    decreases |chain|
  {
    if |chain| > 0 {
      ScaleChainAt(chain[1..], sf);
      assert forall k :: 0 < k < |chain| ==> chain[1..][k - 1] == chain[k];
    }
  }

  /** `Layer::random` with the random source as a parameter: `sample(k)` is
      the `k`-th draw of `rand::random::<f64>()`. Weights are drawn first,
      row by row, then the biases; each entry is its draw minus 0.5. */
  function RandomLayer(inputs: nat, outputs: nat, act: Activation, sample: nat -> real): (l: Dense)
    ensures Shaped(l, inputs) && |l.biases| == outputs && l.activation == act
  {
    Dense(seq(outputs, i requires 0 <= i < outputs =>
                seq(inputs, j requires 0 <= j < inputs => sample(i * inputs + j) - 0.5)),
          seq(outputs, i requires 0 <= i < outputs => sample(outputs * inputs + i) - 0.5),
          act)
  }

  // ---------------------------------------------------------------------
  // Properties of the value-level network
  // ---------------------------------------------------------------------

  /** Congruent chains fit the same input width. */
  lemma {:induction false} FitsCongruent(a: seq<Dense>, b: seq<Dense>, inputs: nat)
    requires Fits(a, inputs) && CongruentChains(a, b)
    ensures Fits(b, inputs) && OutWidth(b) == OutWidth(a)
    decreases |a|
  {
    if |a| > 1 {
      FitsCongruent(a[1..], b[1..], |a[0].biases|);
    }
  }

  /** The shape-chain invariant stated layer by layer: the head takes
      `inputs` values and layer `k` takes what layer `k - 1` gives. */
  lemma {:induction false} FitsByIndex(chain: seq<Dense>, inputs: nat)
    requires |chain| > 0 && Shaped(chain[0], inputs)
    requires forall k :: 0 < k < |chain| ==> Shaped(chain[k], |chain[k - 1].biases|)
    ensures Fits(chain, inputs)
    decreases |chain|
  {
    if |chain| > 1 {
      var rest := chain[1..];
      forall k | 0 < k < |rest| ensures Shaped(rest[k], |rest[k - 1].biases|) {
        assert rest[k] == chain[k + 1] && rest[k - 1] == chain[k];
      }
      FitsByIndex(rest, |chain[0].biases|);
    }
  }

  /** A layer whose input width is the old tail's output width can be
      appended: the chain still fits, and its output width becomes the
      new layer's. */
  lemma {:induction false} FitsAppend(chain: seq<Dense>, inputs: nat, l: Dense)
    requires Fits(chain, inputs) && Shaped(l, OutWidth(chain))
    ensures Fits(chain + [l], inputs) && OutWidth(chain + [l]) == |l.biases|
    decreases |chain|
  {
    assert (chain + [l])[0] == chain[0];
    if |chain| == 1 {
      assert (chain + [l])[1..] == [l];
    } else {
      assert (chain + [l])[1..] == chain[1..] + [l];
      FitsAppend(chain[1..], |chain[0].biases|, l);
    }
  }

  /** `predict` is composition: the prediction of a chain with an appended
      layer is that layer applied to the old prediction. */
  lemma {:induction false} ForwardAppend(chain: seq<Dense>, x: Vector, l: Dense, num: Numerics)
    requires Fits(chain, |x|) && Shaped(l, OutWidth(chain))
    ensures Fits(chain + [l], |x|)
    ensures Forward(chain + [l], x, num) == ApplyLayer(l, Forward(chain, x, num), num)
    decreases |chain|
  {
    FitsAppend(chain, |x|, l);
    assert (chain + [l])[0] == chain[0];
    var a := ApplyLayer(chain[0], x, num);
    if |chain| == 1 {
      assert (chain + [l])[1..] == [l];
    } else {
      assert (chain + [l])[1..] == chain[1..] + [l];
      ForwardAppend(chain[1..], a, l, num);
    }
  }

  /** Scaling keeps the shape chain. */
  lemma ScaleChainFits(chain: seq<Dense>, sf: real, inputs: nat)
    requires Fits(chain, inputs)
    ensures Fits(ScaleChain(chain, sf), inputs)
  {
    FitsCongruent(chain, ScaleChain(chain, sf), inputs);
  }

  /** A zero output gradient gives zero weight, bias and input gradients. */
  lemma GradientsOfZero(l: Dense, x: Vector, doutput: Vector, num: Numerics)
    requires Shaped(l, |x|) && |doutput| == |l.biases| && IsZero(doutput)
    ensures var g := Gradients(l, x, doutput, num);
      IsZeroMatrix(g.dw) && IsZero(g.db) && IsZero(g.di)
  {
    MulByZero(Derivative(l.activation, Preactivation(l, x), num), doutput);
    ZeroDeltaGradients(l, x, doutput, num);
  }

  /** Where `delta` is zero, the weight and input gradients are zero and the
      bias gradient is `doutput`. */
  lemma ZeroDeltaGradients(l: Dense, x: Vector, doutput: Vector, num: Numerics)
    requires Shaped(l, |x|) && |doutput| == |l.biases| && IsZero(Delta(l, x, doutput, num))
    ensures var g := Gradients(l, x, doutput, num);
      IsZeroMatrix(g.dw) && IsZero(g.di) && g.db == doutput
  {
    var delta := Delta(l, x, doutput, num);
    OuterOfZero(delta, x);
    VecMatOfZero(delta, l.weights, |x|);
  }

  /** A step along a zero output gradient leaves the layer as it was and
      passes a zero gradient on. */
  lemma StepAtZero(l: Dense, x: Vector, da: Vector, lr: real, num: Numerics)
    requires Shaped(l, |x|) && |da| == |l.biases| && IsZero(da)
    ensures Step(l, Gradients(l, x, da, num), lr) == l
    ensures IsZero(Gradients(l, x, da, num).di)
  {
    GradientsOfZero(l, x, da, num);
    StepWithZero(l, Gradients(l, x, da, num), lr);
  }

  /** A step along zero gradients leaves the layer as it was. */
  lemma StepWithZero(l: Dense, g: Grads, lr: real)
    requires |g.dw| == |l.weights| && (forall i :: 0 <= i < |l.weights| ==> |g.dw[i]| == |l.weights[i]|)
    requires |g.db| == |l.biases|
    requires IsZeroMatrix(g.dw) && IsZero(g.db)
    ensures Step(l, g, lr) == l
  {
    var r := Step(l, g, lr);
    forall i | 0 <= i < |l.weights| ensures r.weights[i] == l.weights[i] {
      SubScaledZero(l.weights[i], g.dw[i], lr);
    }
    SubScaledZero(l.biases, g.db, lr);
  }

  /** With the Mse cost and a target equal to the chain's own prediction,
      training changes no weight or bias in any layer, and the gradient it
      returns is zero. */
  lemma {:induction false} TrainAtFixpoint(chain: seq<Dense>, x: Vector, lr: real, num: Numerics)
    requires Fits(chain, |x|)
    ensures var t := TrainChain(chain, x, Forward(chain, x, num), Mse, lr, num);
      t.chain == chain && IsZero(t.inputGrad)
    decreases |chain|
  {
    var y := Forward(chain, x, num);
    var l := chain[0];
    var a := ApplyLayer(l, x, num);
    var rest := if |chain| == 1 then Trained([], CostGradient(Mse, a, y, num))
                else TrainChain(chain[1..], a, y, Mse, lr, num);
    if |chain| > 1 {
      TrainAtFixpoint(chain[1..], a, lr, num);
      assert [l] + rest.chain == chain;
    }
    assert IsZero(rest.inputGrad);
    StepAtZero(l, x, rest.inputGrad, lr, num);
  }

  /** One step along `differentiate(x, da)`, entry by entry: with
      `delta = act'(W·x + b) * da`, weight `(i, j)` moves by
      `lr * delta[i] * x[j]` and bias `i` by `lr * da[i]` (not `delta[i]`). */
  lemma StepEntries(l: Dense, x: Vector, da: Vector, lr: real, num: Numerics)
    requires Shaped(l, |x|) && |da| == |l.biases|
    ensures var r := Step(l, Gradients(l, x, da, num), lr);
      && MovedAlong(l, r, Delta(l, x, da, num), x, da, lr)
      && r.activation == l.activation
      && Shaped(r, |x|)
  {
    var g := Gradients(l, x, da, num);
    var delta := Delta(l, x, da, num);
    assert g.dw == Outer(delta, x) && g.db == da;
    StepAlongOuter(l, g, delta, x, lr);
  }

  /** `r` is `l` with weight `(i, j)` moved by `lr * delta[i] * x[j]` and
      bias `i` by `lr * db[i]`. */
  ghost predicate MovedAlong(l: Dense, r: Dense, delta: Vector, x: Vector, db: Vector, lr: real)
    requires Shaped(l, |x|) && Shaped(r, |x|) && |r.biases| == |l.biases|
    requires |delta| == |l.biases| && |db| == |l.biases|
  {
    && (forall i, j :: 0 <= i < |l.weights| && 0 <= j < |x| ==>
          r.weights[i][j] == l.weights[i][j] - (x[j] * delta[i]) * lr)
    && (forall i :: 0 <= i < |l.biases| ==> r.biases[i] == l.biases[i] - db[i] * lr)
  }

  /** A step whose weight gradient is `delta ⊗ x`, entry by entry. */
  lemma StepAlongOuter(l: Dense, g: Grads, delta: Vector, x: Vector, lr: real)
    requires Shaped(l, |x|) && |delta| == |l.biases| && |g.db| == |l.biases|
    requires g.dw == Outer(delta, x)
    ensures var r := Step(l, g, lr);
      && r.activation == l.activation && Shaped(r, |x|)
      && MovedAlong(l, r, delta, x, g.db, lr)
      && r.activation == l.activation
      && Shaped(r, |x|)
  {
    OuterEntries(delta, x);
  }

  // ---------------------------------------------------------------------
  // The Softmax Jacobian row sums
  // ---------------------------------------------------------------------

  /** The Softmax outputs sum to one. */
  lemma SoftmaxSumsToOne(x: Vector, num: Numerics)
    requires |x| > 0
    ensures Sum(SoftmaxOf(x, num)) == 1.0
  {
    var e := Exps(x, num);
    SumOfPositives(e);
    SumDivided(e, Sum(e));
    assert SoftmaxOf(x, num) == Divide(e, Sum(e));
    assert Sum(e) / Sum(e) == 1.0;
  }

  /** Dividing every entry by `t` divides the sum by `t`. */
  lemma SumDivided(v: Vector, t: real)
    requires t > 0.0
    ensures Sum(Divide(v, t)) == Sum(v) / t
  {
    assert Divide(v, t) == Scale(v, 1.0 / t) by {
      forall i | 0 <= i < |v| ensures Divide(v, t)[i] == Scale(v, 1.0 / t)[i] {
        DivideAsScale(v[i], t);
      }
    }
    SumScaled(v, 1.0 / t);
    DivideAsScale(Sum(v), t);
  }

  lemma DivideAsScale(a: real, t: real)
    requires t > 0.0
    ensures a / t == a * (1.0 / t)
  {
  }

  /** Row `i` of the Jacobian summed over its first `n` columns is
      `[i < n] * s[i] - s[i] * (s[0] + ... + s[n-1])`. */
  lemma {:induction false} JacobianRowSumClosed(s: Vector, i: nat, n: nat)
    requires i < |s| && n <= |s|
    ensures JacobianRowSum(s, i, n) == (if i < n then s[i] else 0.0) - s[i] * Sum(s[..n])
    decreases n
  {
    if n > 0 {
      JacobianRowSumClosed(s, i, n - 1);
      assert s[..n][..n - 1] == s[..n - 1];
      var before := Sum(s[..n - 1]);
      assert Sum(s[..n]) == before + s[n - 1];
      if i == n - 1 {
        DiagonalStep(s[i], before);
      } else {
        OffDiagonalStep(if i < n - 1 then s[i] else 0.0, s[i], before, s[n - 1]);
      }
    }
  }

  lemma DiagonalStep(p: real, before: real)
    ensures (0.0 - p * before) + p * (1.0 - p) == p - p * (before + p)
  {
  }

  lemma OffDiagonalStep(c: real, p: real, before: real, q: real)
    ensures (c - p * before) + -p * q == c - p * (before + q)
  {
  }

  /** When the outputs sum to one (as Softmax outputs do, in exact
      arithmetic), every row of the Jacobian sums to zero, so the Softmax
      "derivative" the source computes is the zero vector. */
  lemma JacobianRowsVanish(s: Vector)
    requires Sum(s) == 1.0
    ensures forall i :: 0 <= i < |s| ==> JacobianRowSum(s, i, |s|) == 0.0
  {
    assert s[..|s|] == s;
    forall i | 0 <= i < |s| ensures JacobianRowSum(s, i, |s|) == 0.0 {
      JacobianRowSumClosed(s, i, |s|);
    }
  }

  /** A Softmax layer passes no gradient: whatever `doutput` is, its weight
      gradient and its input gradient are zero (only its bias gradient,
      which is `doutput` itself, is not). */
  lemma SoftmaxGradients(l: Dense, x: Vector, doutput: Vector, num: Numerics)
    requires Shaped(l, |x|) && |doutput| == |l.biases| && l.activation == Softmax
    ensures var g := Gradients(l, x, doutput, num);
      IsZeroMatrix(g.dw) && IsZero(g.di) && g.db == doutput
  {
    MulOfZero(Derivative(Softmax, Preactivation(l, x), num), doutput);
    ZeroDeltaGradients(l, x, doutput, num);
  }

  /** Training a chain whose tail is Softmax changes only the tail's biases,
      by `lr` times the cost gradient: the tail's weights and every earlier
      layer stay as they were, and the returned input gradient is zero. */
  lemma {:induction false} SoftmaxTailTrainsOnlyTailBiases(chain: seq<Dense>, x: Vector, y: Vector, cost: Cost, lr: real, num: Numerics)
    requires Fits(chain, |x|) && |y| == OutWidth(chain)
    requires chain[|chain| - 1].activation == Softmax
    ensures var t := TrainChain(chain, x, y, cost, lr, num);
      && |t.chain| == |chain|
      && (forall i :: 0 <= i < |chain| - 1 ==> t.chain[i] == chain[i])
      && t.chain[|chain| - 1].weights == chain[|chain| - 1].weights
      && t.chain[|chain| - 1].activation == Softmax
      && IsZero(t.inputGrad)
    decreases |chain|
  {
    if |chain| == 1 {
      SoftmaxTailAlone(chain, x, y, cost, lr, num);
    } else {
      var a := ApplyLayer(chain[0], x, num);
      SoftmaxTailTrainsOnlyTailBiases(chain[1..], a, y, cost, lr, num);
      SoftmaxTailBehind(chain, x, y, cost, lr, num);
    }
  }

  /** The inductive step: the head of a longer chain receives a zero
      gradient from its child and so takes no step. */
  lemma SoftmaxTailBehind(chain: seq<Dense>, x: Vector, y: Vector, cost: Cost, lr: real, num: Numerics)
    requires |chain| > 1 && Fits(chain, |x|) && |y| == OutWidth(chain)
    requires var rest := TrainChain(chain[1..], ApplyLayer(chain[0], x, num), y, cost, lr, num);
      IsZero(rest.inputGrad)
    ensures var t := TrainChain(chain, x, y, cost, lr, num);
      var rest := TrainChain(chain[1..], ApplyLayer(chain[0], x, num), y, cost, lr, num);
      t.chain == [chain[0]] + rest.chain && IsZero(t.inputGrad)
  {
    var l := chain[0];
    var rest := TrainChain(chain[1..], ApplyLayer(l, x, num), y, cost, lr, num);
    GradientsOfZero(l, x, rest.inputGrad, num);
    StepWithZero(l, Gradients(l, x, rest.inputGrad, num), lr);
  }

  lemma SoftmaxTailAlone(chain: seq<Dense>, x: Vector, y: Vector, cost: Cost, lr: real, num: Numerics)
    requires |chain| == 1 && Fits(chain, |x|) && |y| == OutWidth(chain)
    requires chain[0].activation == Softmax
    ensures var t := TrainChain(chain, x, y, cost, lr, num);
      && |t.chain| == 1
      && t.chain[0].weights == chain[0].weights
      && t.chain[0].activation == Softmax
      && IsZero(t.inputGrad)
  {
    var l := chain[0];
    SoftmaxLayerTrains(l, x, CostGradient(cost, ApplyLayer(l, x, num), y, num), lr, num);
  }

  /** The chain below the head fits the head's output width and ends in
      the same tail. */
  lemma ChildFits(chain: seq<Dense>, inputs: nat)
    requires Fits(chain, inputs) && |chain| > 1
    ensures Fits(chain[1..], |chain[0].biases|) && OutWidth(chain[1..]) == OutWidth(chain)
  {
  }

  /** `TrainChain` unfolded once, in terms of the head gradient. */
  lemma TrainChainHead(chain: seq<Dense>, x: Vector, y: Vector, cost: Cost, lr: real, num: Numerics)
    requires Fits(chain, |x|) && |y| == OutWidth(chain)
    ensures var da := HeadGradient(chain, x, y, cost, lr, num);
      var l' := Step(chain[0], Gradients(chain[0], x, da, num), lr);
      TrainChain(chain, x, y, cost, lr, num) == Trained([l'] + TrainedBelow(chain, x, y, cost, lr, num), Gradients(l', x, da, num).di)
  {
  }

  /** The step `train` takes at a Softmax tail keeps its weights, and the
      gradient recomputed after it is zero. */
  lemma SoftmaxLayerTrains(l: Dense, x: Vector, da: Vector, lr: real, num: Numerics)
    requires Shaped(l, |x|) && |da| == |l.biases| && l.activation == Softmax
    ensures var l' := Step(l, Gradients(l, x, da, num), lr);
      && l'.weights == l.weights && l'.activation == Softmax
      && IsZero(Gradients(l', x, da, num).di)
  {
    var g := Gradients(l, x, da, num);
    SoftmaxGradients(l, x, da, num);
    var l' := Step(l, g, lr);
    forall i | 0 <= i < |l.weights| ensures l'.weights[i] == l.weights[i] {
      SubScaledZero(l.weights[i], g.dw[i], lr);
    }
    SoftmaxGradients(l', x, da, num);
  }

  // ---------------------------------------------------------------------
  // The in-place chain
  // ---------------------------------------------------------------------

  /** The Softmax arm of `Activation::diff`: entry `i` accumulates row `i`
      of the Jacobian of `s = softmax(x)`. */
  method SoftmaxDiff(x: Vector, num: Numerics) returns (out: Vector)
    ensures out == Derivative(Softmax, x, num)
  {
    var s := SoftmaxOf(x, num);
    out := x;
    for i := 0 to |x|
      invariant |out| == |x|
      invariant forall k :: 0 <= k < i ==> out[k] == JacobianRowSum(s, k, |s|)
    {
      var total := JacobianRow(s, i);
      out := out[i := total];
    }
  }

  /** The inner loop of the Softmax arm: row `i` of the Jacobian summed
      column by column. */
  method JacobianRow(s: Vector, i: nat) returns (total: real)
    requires i < |s|
    ensures total == JacobianRowSum(s, i, |s|)
  {
    total := 0.0;
    for j := 0 to |s|
      invariant total == JacobianRowSum(s, i, j)
    {
      if i == j {
        total := total + s[i] * (1.0 - s[i]);
      } else {
        total := total + -s[i] * s[j];
      }
    }
  }

  /** `Activation::diff`. */
  method ActivationDiff(act: Activation, x: Vector, num: Numerics) returns (d: Vector)
    ensures d == Derivative(act, x, num)
  {
    if act == Softmax {
      d := SoftmaxDiff(x, num);
    } else {
      d := Derivative(act, x, num);
    }
  }

  /** A layer of the network and, through `child`, the rest of the chain
      below it. `Chain` is the chain as values, this layer first. */
  class Layer {
    var weights: Matrix
    var biases: Vector
    var activation: Activation
    var child: Layer?

    ghost var Chain: seq<Dense>
    ghost var Repr: set<object>

    ghost predicate Valid()
      reads this, Repr
      decreases Repr
    {
      && this in Repr
      && |Chain| > 0
      && Chain[0] == Dense(weights, biases, activation)
      && (child == null ==> |Chain| == 1)
      && (child != null ==>
            && child in Repr && child.Repr <= Repr && this !in child.Repr
            && child.Valid()
            && Chain[1..] == child.Chain)
    }

    /** `Layer::new`. */
    constructor (weights: Matrix, biases: Vector, activation: Activation, child: Layer?)
      requires child != null ==> child.Valid()
      ensures Valid()
      ensures Chain == [Dense(weights, biases, activation)] + (if child == null then [] else child.Chain)
      ensures child == null ==> fresh(Repr)
      ensures child != null ==> fresh(Repr - child.Repr)
    {
      this.weights := weights;
      this.biases := biases;
      this.activation := activation;
      this.child := child;
      Chain := [Dense(weights, biases, activation)] + (if child == null then [] else child.Chain);
      Repr := {this} + (if child == null then {} else child.Repr);
    }

    /** `Layer::random`, drawing from `sample`. */
    constructor Random(inputs: nat, outputs: nat, act: Activation, sample: nat -> real)
      ensures Valid() && fresh(Repr)
      ensures Chain == [RandomLayer(inputs, outputs, act, sample)]
    {
      var l := RandomLayer(inputs, outputs, act, sample);
      weights := l.weights;
      biases := l.biases;
      activation := act;
      child := null;
      Chain := [l];
      Repr := {this};
    }

    /** `Layer::add_layer`: walks to the tail and links `layer` (with
        whatever hangs below it) there. */
    method AddLayer(layer: Layer)
      requires Valid() && layer.Valid() && Repr !! layer.Repr
      modifies Repr
      ensures Valid()
      ensures Chain == old(Chain) + old(layer.Chain)
      ensures Repr == old(Repr) + old(layer.Repr)
      decreases Repr
    {
      if child == null {
        child := layer;
        Chain := Chain + layer.Chain;
        Repr := Repr + layer.Repr;
      } else {
        child.AddLayer(layer);
        Chain := [Chain[0]] + child.Chain;
        Repr := Repr + child.Repr;
      }
    }

    /** `Layer::add_random_layer`: appends a random layer whose input width
        is the old tail's output width. A chain that fitted an input width
        still fits it, now with output width `size`. */
    method AddRandomLayer(size: nat, act: Activation, sample: nat -> real)
      requires Valid()
      modifies Repr
      ensures Valid() && fresh(Repr - old(Repr))
      ensures Chain == old(Chain) + [RandomLayer(OutWidth(old(Chain)), size, act, sample)]
      decreases Repr
    {
      if child != null {
        child.AddRandomLayer(size, act, sample);
        Chain := [Chain[0]] + child.Chain;
        Repr := Repr + child.Repr;
      } else {
        var l := new Layer.Random(|biases|, size, act, sample);
        AddLayer(l);
      }
    }

    /** `Layer::apply`. */
    method Apply(x: Vector, num: Numerics) returns (a: Vector)
      requires Valid() && Shaped(Chain[0], |x|)
      ensures a == ApplyLayer(Chain[0], x, num)
    {
      a := Activate(activation, Add(MatVec(weights, x), biases), num);
    }

    /** `Layer::predict`. */
    method Predict(x: Vector, num: Numerics) returns (y: Vector)
      requires Valid() && Fits(Chain, |x|)
      ensures y == Forward(Chain, x, num)
      decreases Repr
    {
      var a := Apply(x, num);
      if child == null {
        y := a;
      } else {
        y := child.Predict(a, num);
      }
    }

    /** `Layer::differentiate`: reads the layer, changes nothing. */
    method Differentiate(x: Vector, doutput: Vector, num: Numerics) returns (dw: Matrix, db: Vector, di: Vector)
      requires Valid() && Shaped(Chain[0], |x|) && |doutput| == |biases|
      ensures Grads(dw, db, di) == Gradients(Chain[0], x, doutput, num)
    {
      var z := Add(MatVec(weights, x), biases);
      var dz := ActivationDiff(activation, z, num);
      var rhs := Mul(dz, doutput);
      dw := Outer(rhs, x);
      di := VecMat(rhs, weights, |x|);
      db := doutput;
    }

    /** `Layer::train`. */
    method Train(x: Vector, y: Vector, cost: Cost, lr: real, num: Numerics) returns (di: Vector)
      requires Valid() && Fits(Chain, |x|) && |y| == OutWidth(Chain)
      modifies Repr
      ensures Valid() && Repr == old(Repr)
      ensures Trained(Chain, di) == TrainChain(old(Chain), x, y, cost, lr, num)
      decreases Repr, 1
    {
      ghost var chain := Chain;
      var da := IncomingGradient(x, y, cost, lr, num);
      di := Backprop(x, da, lr, num);
      TrainChainHead(chain, x, y, cost, lr, num);
    }

    /** The first half of `train`: the gradient `da` of the cost with
        respect to this layer's output, which the child returns from its own
        training (or, at the tail, `Cost::diff` of the output). */
    method IncomingGradient(x: Vector, y: Vector, cost: Cost, lr: real, num: Numerics) returns (da: Vector)
      requires Valid() && Fits(Chain, |x|) && |y| == OutWidth(Chain)
      modifies Repr
      ensures Valid() && Repr == old(Repr) && child == old(child)
      ensures Chain[0] == old(Chain[0])
      ensures Chain[1..] == TrainedBelow(old(Chain), x, y, cost, lr, num)
      ensures da == HeadGradient(old(Chain), x, y, cost, lr, num)
      decreases Repr, 0
    {
      var a := Apply(x, num);
      if child != null {
        ChildFits(Chain, |x|);
        da := child.Train(a, y, cost, lr, num);
        Relink();
      } else {
        da := CostGradient(cost, a, y, num);
      }
    }

    /** Re-establishes `Valid` after the child changed its own chain. */
    method Relink()
      requires this in Repr && |Chain| > 0 && Chain[0] == Dense(weights, biases, activation)
      requires child != null && child in Repr && child.Repr <= Repr && this !in child.Repr && child.Valid()
      modifies this
      ensures Valid() && Repr == old(Repr) && child == old(child)
      ensures Chain == [old(Chain[0])] + child.Chain
    {
      Chain := [Chain[0]] + child.Chain;
    }

    /** The second half of `train`, once `da` is known: one step along
        `differentiate(x, da)`, then `differentiate(x, da)` again with the
        updated parameters for the input gradient. */
    method Backprop(x: Vector, da: Vector, lr: real, num: Numerics) returns (di: Vector)
      requires Valid() && Shaped(Chain[0], |x|) && |da| == |biases|
      modifies this
      ensures Valid() && Repr == old(Repr) && child == old(child)
      ensures Chain == [Step(old(Chain[0]), Gradients(old(Chain[0]), x, da, num), lr)] + old(Chain[1..])
      ensures di == Gradients(Chain[0], x, da, num).di
    {
      var dw, db, _ := Differentiate(x, da, num);
      TakeStep(dw, db, lr);
      var _, _, di' := Differentiate(x, da, num);
      di := di';
    }

    /** The in-place update of `train`: `W -= dw * lr`, `b -= db * lr`. */
    method TakeStep(dw: Matrix, db: Vector, lr: real)
      requires Valid()
      requires |dw| == |weights| && (forall i :: 0 <= i < |weights| ==> |dw[i]| == |weights[i]|)
      requires |db| == |biases|
      modifies this
      ensures Valid() && Repr == old(Repr) && child == old(child)
      ensures Chain == [Step(old(Chain[0]), Grads(dw, db, []), lr)] + old(Chain[1..])
    {
      weights := MatSub(weights, MatScale(dw, lr));
      biases := Sub(biases, Vectors.Scale(db, lr));
      Chain := [Dense(weights, biases, activation)] + Chain[1..];
    }

    /** `Layer::scale`. */
    method Scale(sf: real)
      requires Valid()
      modifies Repr
      ensures Valid() && Repr == old(Repr)
      ensures Chain == ScaleChain(old(Chain), sf)
      decreases Repr
    {
      weights := MatScale(weights, sf);
      biases := Vectors.Scale(biases, sf);
      if child != null {
        child.Scale(sf);
      }
      Chain := [Dense(weights, biases, activation)] + (if child == null then [] else child.Chain);
    }
  }
}
