# A verified model of the chess engine's search, network and encoders

This project models in Dafny the core of a small chess engine that chooses
moves by Monte Carlo tree search guided by two neural-network heads. It covers:

- **Search tree** (`mcts.dfy`, `src/engine/tools.rs`). A node (`Analysis`)
  records a position, its feature encoding, a visit count, accumulated wins
  and one lazily expanded `Candidate` per legal move. The model covers:
  - `Candidate::analysis` and `take`;
  - the UCB score and its exploitation term;
  - `argmax` and `advance`;
  - the recursive `simulate`;
  - the policy-guided `rollout`.
- **Position cache** (`position_cache.dfy`, `src/engine/tools.rs`). The
  memoising `PositionAnalysis::policy` and `PositionAnalysis::value`.
- **Scoring network** (`neural_net.dfy`, `src/neural_net.rs`). A singly
  linked chain of dense layers (`Layer`) with:
  - the activations Linear, ReLU, LeakyReLU and Softmax;
  - the costs Mse and CrossEntropy;
  - `predict`, `differentiate` and `train`, with one gradient step per layer on the way back up;
  - `scale`, `add_layer` and `add_random_layer`.
- **Evaluator** (`ai.dfy`, `src/engine/ai.rs`). `Thod` holds a policy
  chain and a value chain, each built by `from_shape`. Both take the
  1089-entry encoding and end in a two-way Softmax.
- **Training-position decoder** (`database.dfy`, `src/database.rs`).
  `Instance::from_bytes` reads a byte buffer backwards onto a mirrored
  board. `winrate` turns win and loss counts into a pair of rates.
- **Feature encoding** (`chess.dfy`, `src/chess.rs`). `bitboard_to_array`,
  and the layout of `ChessState::state`: a side-to-move flag, then 17
  blocks of 64 indicators.

`common.dfy` holds the shared types. `vectors.dfy` holds vector and
matrix algebra over `real`.

Modelling choices:

- **Numbers.** `f64`/`f32` values are `real`. `usize`, `u64` and `u8` are
  natural numbers or `bv8`. Where the width matters, it is written out
  (64 squares, `u64` overflow).
- **Panics.** An operation that can panic (`unwrap` of `None`, an index
  out of range, `u64` overflow) returns `Outcome`, whose `Panic` case
  stands for the abort.
- **Search tree.** The tree is an owned structure updated through
  `RefCell` borrows. It is modelled on values: `Simulate`, `Rollout` and
  `Advance` return the updated node.
- **Network and evaluator.** These are modelled in place:
  - `NeuralNet.Layer` is a class with a `child` link. Its ghost `Chain`
    holds the layers as values, and each method is proved against a
    function on `seq<Dense>`.
  - `Ai.Thod` owns two such chains.
- **Decoder and encoding.** `from_bytes`, `bitboard_to_array` and `state`
  are methods with loops or appends, proved against specification
  functions.
- **Chess rules.** The rules (`branch`, `status`, `side_to_move`,
  `state`) are the parameter `Mcts.Game`.
- **Evaluator interface.** The evaluator is the parameter `Mcts.Tools`.
- **Randomness.** Random draws are sample functions passed as arguments.
- **Uninterpreted operations.** `exp` (`NeuralNet.Numerics.exp`), the
  CrossEntropy terms and the exploration term `sqrt(c * ln n / visits)`
  (`Mcts.Explore`) are left uninterpreted.

Behaviours of the source that the model keeps as written:

- **LeakyReLU derivative.** It is 0.01 for non-positive inputs, although
  the activation's slope is 0.1.
- **Bias gradient.** It is the incoming gradient `doutput`, not
  `act'(z) * doutput`.
- **Input gradient.** `train` returns it computed with the already
  updated weights.
- **Softmax derivative.** It is the row sum of the Jacobian, which is
  zero in exact arithmetic. As a consequence (`NeuralNet.SoftmaxTailTrainsOnlyTailBiases`,
  `Ai.TrainKeepsEvaluates`), training either head changes only the biases
  of its Softmax tail.

## Model

| member | source | states |
|---|---|---|
| Mcts.FromState | src/engine/tools.rs:65-73 | a new node has the position and its encoding, no visit and no win, and one waiting candidate per successor position, in move order |
| Mcts.Expand | src/engine/tools.rs:34-46 | forcing a candidate always yields an expanded node; an expanded one is returned unchanged, a waiting one becomes a fresh node of its position with no visit and no win |
| Mcts.ExpandIdempotent | src/engine/tools.rs:34-46 | forcing twice is forcing once, and a waiting position is built by `from_state` exactly at its first forcing |
| Mcts.Take | src/engine/tools.rs:48-52 | `take` succeeds exactly on an expanded candidate and panics on a waiting one |
| Mcts.TakeAfterExpand | src/engine/tools.rs:48-52 | after forcing, `take` never panics and hands back the forced node |
| Mcts.Exploit | src/engine/tools.rs:80-85 | the exploitation term is the win share when White is to move and its complement when Black is, and lies in [0, 1] when wins are between 0 and the visit count |
| Mcts.Ucb | src/engine/tools.rs:75-78 | the score is +infinity exactly for a node never visited, whatever `n` and `c` |
| Mcts.LastMax | src/engine/tools.rs:95 | `max_by` with incomparable scores treated as equal picks a maximal score, and the last of equal maxima: every later score is strictly below it |
| Mcts.FirstMin | src/engine/tools.rs:164 | `min_by` picks a minimal score, and the first of equal minima: every earlier score is strictly above it |
| Mcts.ArgMax | src/engine/tools.rs:91-97 | `argmax` panics exactly when the node has no candidate; otherwise the candidate it picks has a UCB score no sibling exceeds and strictly above every later sibling's, so it is the last of the greatest scores as `max_by` gives |
| Mcts.ArgMaxPrefersUnvisited | src/engine/tools.rs:91-97 | when some candidate is unvisited, `argmax` picks an unvisited one (the last), so every visited sibling is outranked |
| Mcts.Probabilities | src/engine/tools.rs:169-171 | `probabilities` gives one finite score per candidate, the policy head's score of that candidate's encoding |
| Mcts.Pick | src/engine/tools.rs:162-165 | in `rollout`, White takes a maximal policy score, the last of equal maxima (every later score strictly below), and Black a minimal one, the first of equal minima (every earlier score strictly above) |
| Mcts.FromStateWellFormed | src/engine/tools.rs:65-73 | a node built by `from_state` has the position's encoding and one waiting candidate per successor position, in move order |
| Mcts.ForceAllWellFormed | src/engine/tools.rs:68 | forcing the candidates of a well-formed node keeps candidate `i` a node of successor position `i` |
| Mcts.GrowsReflexive | src/engine/tools.rs:134-167 | the growth order used for `rollout` and `simulate` (same statistics, candidates at most expanded) is reflexive |
| Mcts.ExpandGrows | src/engine/tools.rs:34-46 | forcing a candidate changes no statistic anywhere, it only expands |
| Mcts.ForceAllGrows | src/engine/tools.rs:169-171 | forcing all candidates, as `probabilities` does, changes no statistic |
| Mcts.Rollout | src/engine/tools.rs:147-167 | a rollout that does not panic leaves every visit count and win total in the tree as it was, only expanding candidates along its path |
| Mcts.RolloutFollowsPlayOut | src/engine/tools.rs:147-167 | on a well-formed node the rollout panics exactly when the playout on positions does, returns the playout's result (0 or 1 for a won game by side to move, 0 for a draw, the value head at depth 0) and leaves a well-formed tree |
| Mcts.PlayOutSucceeds | src/engine/tools.rs:147-167 | when every ongoing position has a move, the rollout ends within `depth` steps without panicking |
| Mcts.DescentLowers | src/engine/tools.rs:138 | the descent of `simulate` goes to a strictly lower expanded subtree or to a node just built, so the recursion terminates |
| Mcts.Simulate | src/engine/tools.rs:134-145 | a simulation that does not panic adds exactly one visit and exactly the returned result to the node's wins, and keeps its position, encoding and number of candidates |
| Mcts.SimulateAlongArgMax | src/engine/tools.rs:134-145 | at a visited node `simulate` succeeds exactly when the simulation of the candidate `argmax` picks does, returns that simulation's result unchanged and keeps its node in the candidate's place; every other candidate is at most expanded, with its statistics untouched |
| Mcts.Frontier | src/engine/tools.rs:135-138 | following `argmax(2.0)` from a node ends, when it does not panic, at a node never visited |
| Mcts.SimulateReachesFrontier | src/engine/tools.rs:134-167 | on a well-formed tree `simulate` succeeds exactly when the frontier is reached and its playout succeeds, and returns the playout of the frontier node's position, the value each node on the path adds to its wins |
| Mcts.VisitedLeafPanics | src/engine/tools.rs:134-138 | a visited node with no candidate makes `simulate` panic in `argmax` |
| Mcts.TerminalRevisitPanics | src/engine/tools.rs:134-138 | a finished position with no move can be simulated once, but simulating it again panics |
| Mcts.FromStateBalanced | src/engine/tools.rs:65-73 | a new node satisfies the visit balance: its visits are its own first visit plus its candidates' visits |
| Mcts.GrowsKeepsBalanced | src/engine/tools.rs:34-46 | expanding candidates keeps the visit balance of the whole tree |
| Mcts.SimulateKeepsBalanced | src/engine/tools.rs:134-145 | every simulation keeps, at every node, visits = (1 if visited) + the candidates' visits |
| Mcts.SimulateKeepsWellFormed | src/engine/tools.rs:134-145 | simulation keeps the tree well formed, and on an unvisited node its success and result are those of the playout from its position |
| Mcts.Advance | src/engine/tools.rs:99-108 | `advance` panics exactly when the root has no candidate |
| Mcts.AdvanceToBest | src/engine/tools.rs:99-108 | the new root is one of the old root's forced candidates whose score with `c = 0` is maximal and strictly above every later sibling's, and of a well-formed root it is a well-formed node of a successor position |
| PositionCache.PositionAnalysis.constructor | src/engine/tools.rs:193-202 | `from_state` stores the position and its encoding, with no visit, no win and both caches empty |
| PositionCache.PositionAnalysis.Policy | src/engine/tools.rs:219-227 | `policy` returns the cached score or asks the policy head, caches what it returns, and changes nothing else |
| PositionCache.ValueAsWrittenAsksPolicy | src/engine/tools.rs:229-237 | on a fresh `PositionAnalysis` whose heads score the position differently, `value` as written answers the policy head's score and not the value head's, while the corrected `Value` answers the value head's |
| PositionCache.PositionAnalysis.ValueAsWritten | src/engine/tools.rs:229-237 | `value` as written answers and fills the policy cache from the policy head and never touches the value cache |
| PositionCache.PositionAnalysis.Value | src/engine/tools.rs:229-237 | corrected `value`: returns the cached value score or asks the value head, caches it, and leaves the policy cache alone |
| NeuralNet.Exps | src/neural_net.rs:23-24 | the exponentials of Softmax keep the length and are all positive |
| NeuralNet.SoftmaxOf | src/neural_net.rs:22-25 | Softmax keeps the length and every output is positive |
| NeuralNet.Activate | src/neural_net.rs:17-27 | `apply` keeps the length; Linear is the identity, ReLU gives max(x, 0) (never negative), LeakyReLU gives x above 0 and 0.1x otherwise |
| NeuralNet.Derivative | src/neural_net.rs:29-51 | `diff` keeps the length; Linear gives all ones, ReLU 1 above 0 else 0, LeakyReLU 1 above 0 else 0.01, and Softmax the zero vector, since its Jacobian rows sum to zero |
| NeuralNet.DerivativeIsSlope | src/neural_net.rs:17-51 | `diff` is the slope of `apply`: the output is the derivative times the input for Linear and ReLU and for LeakyReLU above 0, but ten times that for LeakyReLU below 0 (slope 0.1 in `apply`, 0.01 in `diff`) |
| NeuralNet.CostOf | src/neural_net.rs:62-67 | the cost has one entry per output, and the Mse cost is non-negative and zero where prediction meets target |
| NeuralNet.CostGradient | src/neural_net.rs:69-74 | the cost gradient has one entry per output, and the Mse gradient is zero exactly when the prediction equals the target |
| NeuralNet.Preactivation | src/neural_net.rs:121-122 | `W · x + b` has one entry per output of the layer |
| NeuralNet.ApplyLayer | src/neural_net.rs:120-123 | a layer maps its input width to its output width |
| NeuralNet.Forward | src/neural_net.rs:125-132 | the prediction of a chain that fits its input has the tail layer's width |
| NeuralNet.ForwardAppend | src/neural_net.rs:125-132 | `predict` is composition: appending a layer applies it to the old prediction |
| NeuralNet.Gradients | src/neural_net.rs:152-162 | `differentiate` gives a weight gradient of the weights' shape, a bias gradient per output and an input gradient per input |
| NeuralNet.Delta | src/neural_net.rs:153-155 | the pre-activation error signal has one entry per output |
| NeuralNet.GradientsOfZero | src/neural_net.rs:152-162 | a zero output gradient gives zero weight, bias and input gradients |
| NeuralNet.Step | src/neural_net.rs:145-146 | a gradient step keeps the layer's shape and activation |
| NeuralNet.StepEntries | src/neural_net.rs:143-146 | one step moves weight (i, j) by `lr * delta[i] * x[j]` and bias `i` by `lr * da[i]`, the incoming gradient rather than `delta` |
| NeuralNet.StepAtZero | src/neural_net.rs:143-149 | a step along a zero incoming gradient changes nothing and passes a zero gradient on |
| NeuralNet.TrainChain | src/neural_net.rs:134-150 | training keeps the depth, every layer's shape and activation, and returns one gradient entry per input |
| NeuralNet.HeadGradient | src/neural_net.rs:135-141 | the gradient reaching the head has one entry per head output |
| NeuralNet.TrainAtFixpoint | src/neural_net.rs:134-150 | with Mse and a target equal to the chain's own prediction, training changes no parameter in any layer and returns a zero gradient |
| NeuralNet.SoftmaxSumsToOne | src/neural_net.rs:22-25 | the Softmax outputs sum to one |
| NeuralNet.JacobianRowSumClosed | src/neural_net.rs:37-47 | the accumulated Jacobian row is `s[i]` (on the diagonal) minus `s[i]` times the sum of the outputs visited |
| NeuralNet.JacobianRowsVanish | src/neural_net.rs:34-49 | outputs summing to one, as Softmax outputs do, make every Jacobian row sum to zero |
| NeuralNet.SoftmaxGradients | src/neural_net.rs:152-162 | a Softmax layer's weight and input gradients are zero whatever the incoming gradient; its bias gradient is that gradient |
| NeuralNet.SoftmaxLayerTrains | src/neural_net.rs:143-148 | the step at a Softmax layer keeps its weights and the gradient recomputed after it is zero |
| NeuralNet.SoftmaxTailTrainsOnlyTailBiases | src/neural_net.rs:134-150 | training a chain with a Softmax tail changes only that tail's biases and returns a zero gradient |
| NeuralNet.ScaleLayer | src/neural_net.rs:164-166 | scaling a layer keeps its shape and activation |
| NeuralNet.ScaleLayerEntries | src/neural_net.rs:164-166 | every weight and bias is multiplied by `sf` |
| NeuralNet.ScaleChain | src/neural_net.rs:164-170 | scaling keeps the depth and every layer's shape and activation |
| NeuralNet.ScaleChainAt | src/neural_net.rs:164-170 | `scale` reaches every layer: layer `k` of the result is layer `k` scaled |
| NeuralNet.ScaleChainFits | src/neural_net.rs:164-170 | scaling keeps the shape-chain invariant |
| NeuralNet.RandomLayer | src/neural_net.rs:95-102 | a random layer has `outputs` rows of `inputs` weights, `outputs` biases and the given activation |
| NeuralNet.FitsAppend | src/neural_net.rs:104-118 | appending a layer whose input width is the old tail's output width keeps the shape chain, the new output width being the layer's |
| NeuralNet.FitsCongruent | src/neural_net.rs:134-150 | chains of the same shapes fit the same input width and have the same output width |
| NeuralNet.SoftmaxDiff | src/neural_net.rs:34-49 | the nested loop of the Softmax `diff` computes the Jacobian row sums |
| NeuralNet.JacobianRow | src/neural_net.rs:38-46 | the inner loop accumulates row `i` of the Softmax Jacobian |
| NeuralNet.ActivationDiff | src/neural_net.rs:29-51 | `diff` computes the derivative of each activation |
| NeuralNet.Layer.constructor | src/neural_net.rs:86-93 | `new` makes a layer heading the given child's chain |
| NeuralNet.Layer.Random | src/neural_net.rs:95-102 | `random` makes a one-layer chain of the drawn layer |
| NeuralNet.Layer.AddLayer | src/neural_net.rs:104-109 | `add_layer` appends the given chain after the tail and leaves every existing layer as it was |
| NeuralNet.Layer.AddRandomLayer | src/neural_net.rs:111-118 | `add_random_layer` appends one random layer whose input width is the old tail's output width |
| NeuralNet.Layer.Apply | src/neural_net.rs:120-123 | `apply` computes the head layer's activation of `W · x + b` |
| NeuralNet.Layer.Predict | src/neural_net.rs:125-132 | `predict` computes the composition of the chain's layers |
| NeuralNet.Layer.Differentiate | src/neural_net.rs:152-162 | `differentiate` returns the head layer's gradients |
| NeuralNet.Layer.Train | src/neural_net.rs:134-150 | `train` leaves the chain and returns the gradient that training on values gives |
| NeuralNet.Layer.IncomingGradient | src/neural_net.rs:135-141 | the child trains first on this layer's output, and `da` is its returned gradient or the cost gradient at the tail |
| NeuralNet.Layer.Backprop | src/neural_net.rs:143-149 | the layer takes one step along its gradients, then returns the input gradient computed with the updated parameters |
| NeuralNet.Layer.TakeStep | src/neural_net.rs:145-146 | `W -= dw * lr` and `b -= db * lr` in place, the rest of the chain untouched |
| NeuralNet.Layer.Scale | src/neural_net.rs:164-170 | `scale` multiplies every parameter of every layer of the chain by `sf` |
| Ai.HiddenChain | src/engine/ai.rs:19-28 | the hidden layers fit the 1089-wide input, follow the given widths in order and are all LeakyReLU |
| Ai.HeadChain | src/engine/ai.rs:19-31 | a head has one more layer than there are widths, takes 1089 inputs, has LeakyReLU hidden layers of the given widths and a Softmax tail of width 2 |
| Ai.AddHidden | src/engine/ai.rs:22-28 | the loop over the remaining widths builds the hidden layers |
| Ai.AddSoftmaxTail | src/engine/ai.rs:30-31 | the tail appended is a Softmax layer of width 2 |
| Ai.Build | src/engine/ai.rs:19-31 | a head is built as the chain of hidden layers and a Softmax tail |
| Ai.Draw | src/engine/ai.rs:19-34 | a head built and scaled by `sf` is the scaled chain, still usable by the evaluator |
| Ai.Thod.constructor | src/engine/ai.rs:36 | the struct literal holds the two given chains, which stay well linked, disjoint and usable as heads |
| Ai.Thod.FromShape | src/engine/ai.rs:18-37 | the policy head is the drawn chain times 0.3 and the value head the drawn chain times 0.4 |
| Ai.Thod.Default | src/engine/ai.rs:63-67 | the default evaluator has a policy chain of 4 layers and a value chain of 6 |
| Ai.Thod.Policy | src/engine/ai.rs:70-73 | `policy` is component 0 of the policy chain's prediction |
| Ai.Thod.Value | src/engine/ai.rs:75-78 | `value` is component 0 of the value chain's prediction |
| Ai.Target | src/engine/ai.rs:55 | the training target has two entries summing to one |
| Ai.Thod.TrainPolicy | src/engine/ai.rs:54-56 | `train_policy` trains the policy chain toward `[outcome, 1 - outcome]` with CrossEntropy, leaves the value chain alone and moves only the policy tail's biases |
| Ai.Thod.TrainValue | src/engine/ai.rs:58-60 | `train_value` trains the value chain, leaves the policy chain alone and moves only the value tail's biases |
| Ai.ScaleKeepsEvaluates | src/engine/ai.rs:33-34 | scaling keeps a head usable: 1089 inputs, Softmax tail of width 2 |
| Ai.TrainKeepsEvaluates | src/engine/ai.rs:54-60 | training keeps a head usable and changes only its tail's biases |
| Database.Mirror | src/database.rs:46 | byte `idx` from the end lands on the same rank with its file mirrored |
| Database.MirrorInvolution | src/database.rs:46 | mirroring twice is the identity, so the byte-to-square map is a bijection of the 64 squares |
| Database.DecodeSquare | src/database.rs:53-67 | a byte gives a piece exactly when its low nibble is 1 to 6 (Pawn, Rook, Knight, Bishop, Queen, King), Black exactly when bit 7 is clear |
| Database.FromBytes | src/database.rs:37-77 | `from_bytes` panics exactly when the buffer has more than 64 bytes or the decoded board fails the rules' validity check of `build`, and otherwise gives the decoded board with the given wins and losses |
| Database.DecodedPlacement | src/database.rs:39-68 | byte `idx` from the end decodes onto square `Mirror(idx)`, squares no byte reaches are empty, and neither side may castle |
| Database.SideToMoveMeaning | src/database.rs:48-52 | Black is to move exactly when some byte has a nonzero low nibble with bits 7 and 6 clear; bytes of White pieces never make it so |
| Database.EmptyByteCanSetSide | src/database.rs:45-67 | with both kings on the board, a last byte with nibble 7 leaves its square empty, so the board is the one a zero byte gives, yet it hands the move to Black instead of White |
| Database.WinRate | src/database.rs:80-84 | the rates are complementary, lie in [0, 1] and are in the ratio wins : losses; an overflowing `u64` sum panics and no game at all gives no rate |
| Chess.Indicator | src/chess.rs:87-89 | an entry is 1 exactly when its bit is set and 0 exactly when it is clear |
| Chess.BitboardToArray | src/chess.rs:82-92 | the loop fills the 64 indicators of the bitboard |
| Chess.IndicatorsAreBits | src/chess.rs:82-92 | the array has 64 entries, each 0 or 1, entry `i` being 1 exactly when bit `i` is set |
| Chess.IndicatorsInjective | src/chess.rs:82-92 | the indicator array loses nothing: equal arrays come from equal bitboards |
| Chess.SideFlag | src/chess.rs:49-54 | the leading entry is 0 exactly for White to move and 1 exactly for Black |
| Chess.State | src/chess.rs:48-79 | the appends build the side flag followed by the 17 blocks in order |
| Chess.PrefixLayout | src/chess.rs:51-76 | after `n` appends the vector has `1 + 64n` entries, the side flag first and block `k` at `1 + 64k` onwards |
| Chess.FeatureLayout | src/chess.rs:48-79 | the features have 1 + 17 * 64 = 1089 entries, the network input width, entry 0 is 1 exactly when Black is to move, and block `k` holds the bits of the `k`-th bitboard |
| Chess.FeaturesDetermineBoard | src/chess.rs:48-79 | equal features mean the same side to move and the same 17 bitboards |

## Left out

- I/O: the SQL access (`load_to_memory`, `init`, `get_batch`), the base64 step of `from_str`, the JSON `from_file`/`save`, and printing (`eval`, `show_board`, the `test` demo) are not modelled.
- `src/main.rs`, `src/trainer.rs`, `src/engine.rs` and `src/game.rs` are drivers and declarations and are not part of this model.
- The chess rules of `cozy_chess` (move generation, game status, side to move) are the parameter `Mcts.Game`, and the validity check of `BoardBuilder::build` is the parameter `buildable` of `Database.FromBytes`.
- The builder's en passant square and move counters are left at their empty-builder defaults and are not part of `Database.Position`.
- Floating point: `f64` and `f32` are exact reals. Rounding, NaN and infinities beyond the UCB `+∞` are not modelled; as a consequence, incomparable scores (`partial_cmp` returning `None`) never arise, and the panic of `rollout`'s `partial_cmp(..).unwrap()` on a NaN policy score is not modelled.
- Mcts.Ucb: `explore` (`sqrt(c * ln n / visits)`) is the uninterpreted parameter `Mcts.Explore`, so the contract says nothing about the exploration bonus beyond its being added.
- NeuralNet.CostOf: the CrossEntropy cost `-y * log2 p` and its gradient `y * ln 0.5 / p` are uninterpreted functions in `NeuralNet.Numerics`; only the Mse case is characterised.
- NeuralNet.SoftmaxOf: `exp` is an uninterpreted positive function; the model proves the outputs positive and summing to one, not their values.
- Randomness: `rand::random` draws are the sample functions passed to `NeuralNet.RandomLayer` and `Ai.Thod.FromShape`, one per layer, so the order in which the source interleaves the policy and value draws is not captured.
- In-place update of the search tree through `RefCell` borrows is modelled by returning the updated node; aliasing cannot arise in the owned tree.
- `usize` overflow of visit counts is not modelled.
- NeuralNet.Forward, NeuralNet.TrainChain, NeuralNet.Layer.Predict and NeuralNet.Layer.Train: `ndarray` panics on a shape mismatch (`dot` or elementwise arithmetic on an input whose width is not the head layer's, or a target whose width is not the tail's); these members require matching widths (`Fits`, `|y| == OutWidth`) instead of modelling that panic.
- Ai.Thod.Policy, Ai.Thod.Value, Ai.Thod.TrainPolicy and Ai.Thod.TrainValue: the same shape panic on an encoding that does not have 1089 entries is excluded by requiring `|state| == InputWidth`.
- `Database.WinRate`: the conversion of `u64` counts to `f64` is exact here; the panic on overflow is the debug-build behaviour (a release build wraps).
- `AccumulativeAnalysis`, `try_get_game`, `search` and `PositionAnalysis`'s `exploit`, `explore` and `ucb` are unfinished code that does not compile and is not modelled; `PositionAnalysis::from_state` is stood for by `PositionCache.PositionAnalysis.constructor`, without the `children` field it never sets.

## Findings

| source | as written | input that shows it | evidently intended | confidence | as-written member | corrected member |
|---|---|---|---|---|---|---|
| src/engine/tools.rs:229-237 | `PositionAnalysis::value` reads and fills the policy cache and asks `tools.policy` | a fresh node whose policy head scores the position differently from its value head: `value` answers the policy head's score and caches it as the policy score (exhibited by `PositionCache.ValueAsWrittenAsksPolicy`) | read and fill the value cache from `tools.value` | high (not executed) | PositionCache.PositionAnalysis.ValueAsWritten | PositionCache.PositionAnalysis.Value |
