/**
 * The stochastic-gradient trainer (NeuralNetworks/Training/Trainer.cs).
 *
 * The network keeps its weights as one array per layer, `weights[layer][k]`,
 * which the trainer rewrites in place; the outer level of the jagged array is
 * never reassigned, so it is a sequence of arrays. Its forward pass and back-propagation are not part
 * of this model: they are carried by the network as two function values, and
 * the only thing assumed of them is that a gradient has the shape of the
 * weights it was computed from. The random generator is a fixed stream of
 * samples in [0, 1) with a draw counter.
 */
module Training {
  import opened ErrorCalculations

  /** A layered weight structure, or a gradient of the same shape, as values. */
  type Layers = seq<seq<real>>

  /** A uniform sample: a real in [0, 1). */
  type Unit = x: real | 0.0 <= x < 1.0

  /** One training example (InputOutput): an input vector and its target vector. */
  datatype Example = Example(input: seq<real>, output: seq<real>)

  /** The fields of a trainer configuration that Trainer.cs reads. */
  datatype TrainerConfig = TrainerConfig(
    numEpochs: int,
    learningRate: real,
    momentum: real,
    quadraticRegularization: real,
    seed: int,
    initializeWeights: bool)

  datatype Option<T> = None | Some(value: T)

  datatype TrainError =
    | MissingConfig                 // "Trainer is missing Config property."
    | NonPositiveEpochs(was: int)   // "Config.NumEpochs property should be a positive integer."
    | NullNetwork                   // ArgumentNullException(nn)
    | SampleOutOfRange              // trainingSet[t] with an empty training set

  datatype TrainResult = Trained(nn: Network) | Failed(error: TrainError)

  // ------------------------------------------------------------------ shapes

  /** The length of every layer. */
  function Shape(a: Layers): (s: seq<nat>)
    ensures |s| == |a| && forall i :: 0 <= i < |a| ==> s[i] == |a[i]|
  {
    seq(|a|, i requires 0 <= i < |a| => |a[i]|)
  }

  predicate SameShape(a: Layers, b: Layers)
  {
    Shape(a) == Shape(b)
  }

  /** A gradient oracle that always answers with the shape of the weights it is given. */
  ghost predicate ShapePreserving(calculateGradients: (Layers, seq<real>, seq<real>) -> Layers)
  {
    forall w, x, y :: SameShape(calculateGradients(w, x, y), w)
  }

  /** All-zero layers of the same shape as w. */
  function Zeros(w: Layers): (z: Layers)
    ensures SameShape(z, w)
    ensures forall i, j :: 0 <= i < |z| && 0 <= j < |z[i]| ==> z[i][j] == 0.0
  {
    seq(|w|, i requires 0 <= i < |w| => seq(|w[i]|, j => 0.0))
  }

  lemma {:induction false} ZerosOfSameShape(a: Layers, b: Layers)
    requires SameShape(a, b)
    ensures Zeros(a) == Zeros(b)
  {
  }

  /** Number of weights in the layers before layer i. */
  function Offset(w: Layers, i: nat): nat
    requires i <= |w|
  {
    if i == 0 then 0 else Offset(w, i - 1) + |w[i - 1]|
  }

  // ------------------------------------------------------------------ heap views

  /** The inner arrays of a jagged array. */
  ghost function CellsOf(a: seq<array<real>>): set<array<real>>
  {
    set i | 0 <= i < |a| :: a[i]
  }

  /** No two layers share an inner array. */
  ghost predicate Distinct(a: seq<array<real>>)
  {
    |a| == 0 || (a[|a| - 1] !in a[..|a| - 1] && Distinct(a[..|a| - 1]))
  }

  /** The layers of a Distinct jagged array are pairwise different arrays. */
  lemma {:induction false} DistinctApart(a: seq<array<real>>, i: nat, j: nat)
    requires Distinct(a) && i < j < |a|
    ensures a[i] != a[j]
  {
    var n := |a| - 1;
    if j == n {
      assert a[i] in a[..n];
    } else {
      assert a[..n][i] == a[i] && a[..n][j] == a[j];
      DistinctApart(a[..n], i, j);
    }
  }

  /** Layer i of a Distinct jagged array is no other layer. */
  lemma {:induction false} DistinctFrom(a: seq<array<real>>, i: nat)
    requires Distinct(a) && i < |a|
    ensures forall k :: 0 <= k < |a| && k != i ==> a[k] != a[i]
  {
    forall k | 0 <= k < |a| && k != i
      ensures a[k] != a[i]
    {
      if k < i {
        DistinctApart(a, k, i);
      } else {
        DistinctApart(a, i, k);
      }
    }
  }

  /** The current contents of a jagged array. */
  function LayersOf(a: seq<array<real>>): (v: Layers)
    reads CellsOf(a)
    ensures |v| == |a| && forall i :: 0 <= i < |a| ==> v[i] == a[i][..]
  {
    seq(|a|, i requires 0 <= i < |a| reads CellsOf(a) => a[i][..])
  }

  // ------------------------------------------------------------------ collaborators

  /** The network being trained (INeuralNetwork): its weights, and its forward
      pass and gradient computation kept abstract. */
  class Network {
    const weights: seq<array<real>>
    const feedForward: (Layers, seq<real>) -> seq<real>
    const calculateGradients: (Layers, seq<real>, seq<real>) -> Layers

    ghost function Cells(): set<array<real>>
    {
      CellsOf(weights)
    }

    ghost predicate Valid()
    {
      Distinct(weights) && ShapePreserving(calculateGradients)
    }

    function Values(): Layers
      reads Cells()
    {
      LayersOf(weights)
    }

    /** A network with the given layer sizes and all weights zero. */
    constructor (sizes: seq<nat>, feedForward: (Layers, seq<real>) -> seq<real>,
                 calculateGradients: (Layers, seq<real>, seq<real>) -> Layers)
      requires ShapePreserving(calculateGradients)
      ensures Valid() && fresh(Cells())
      ensures |Values()| == |sizes|
      ensures forall i :: 0 <= i < |sizes| ==> |Values()[i]| == sizes[i]
      ensures forall i, j :: 0 <= i < |sizes| && 0 <= j < sizes[i] ==> Values()[i][j] == 0.0
      ensures this.feedForward == feedForward && this.calculateGradients == calculateGradients
    {
      var layers: seq<array<real>> := [];
      for i := 0 to |sizes|
        invariant |layers| == i
        invariant forall k :: 0 <= k < i ==> fresh(layers[k]) && layers[k].Length == sizes[k]
        invariant forall k :: 0 <= k < i ==> forall j :: 0 <= j < sizes[k] ==> layers[k][j] == 0.0
        invariant Distinct(layers)
      {
        var layer := new real[sizes[i]](_ => 0.0);
        assert (layers + [layer])[..i] == layers;
        layers := layers + [layer];
      }
      weights := layers;
      this.feedForward := feedForward;
      this.calculateGradients := calculateGradients;
    }
  }

  /** A seeded random generator (IRandomGenerator): the stream of samples its
      seed determines, and how many of them have been drawn. */
  class RandomGenerator {
    const sample: nat -> Unit
    var drawn: nat

    constructor (sample: nat -> Unit)
      ensures this.sample == sample && drawn == 0
    {
      this.sample := sample;
      drawn := 0;
    }

    method NextDouble() returns (x: Unit)
      modifies this
      ensures x == sample(old(drawn)) && drawn == old(drawn) + 1
    {
      x := sample(drawn);
      drawn := drawn + 1;
    }

    /** Next(n): the next sample scaled to [0, n), and 0 when n is 0. */
    method Next(maxValue: nat) returns (k: nat)
      modifies this
      ensures k == ScaledIndex(sample(old(drawn)), maxValue) && drawn == old(drawn) + 1
    {
      k := ScaledIndex(sample(drawn), maxValue);
      drawn := drawn + 1;
    }
  }

  /** floor(u * n): an index in [0, n) for n > 0, and 0 for n = 0. */
  function ScaledIndex(u: Unit, n: nat): (k: nat)
    ensures n > 0 ==> k < n
    ensures n == 0 ==> k == 0
  {
    var x := u * n as real;
    assert 0.0 <= x;
    assert n > 0 ==> x < n as real by {
      if n > 0 {
        assert (1.0 - u) * n as real > 0.0;
      }
    }
    x.Floor
  }

  // ------------------------------------------------------------------ the update rule

  /** One weight after an update: w - LR * (g + QR * w + M * prev). */
  function Update(w: real, g: real, prev: real, cfg: TrainerConfig): real
  {
    w - cfg.learningRate * (g + cfg.quadraticRegularization * w + cfg.momentum * prev)
  }

  /** One layer updated, each weight from its own gradient and previous gradient. */
  function AdjustedRow(w: seq<real>, g: seq<real>, prev: seq<real>, cfg: TrainerConfig): (r: seq<real>)
    requires |g| == |w| && |prev| == |w|
    ensures |r| == |w|
    ensures forall j :: 0 <= j < |r| ==> r[j] == Update(w[j], g[j], prev[j], cfg)
  {
    seq(|w|, j requires 0 <= j < |w| => Update(w[j], g[j], prev[j], cfg))
  }

  /** Every layer updated. */
  function Adjusted(w: Layers, g: Layers, prev: Layers, cfg: TrainerConfig): (r: Layers)
    requires SameShape(g, w) && SameShape(prev, w)
    ensures SameShape(r, w)
    ensures forall i :: 0 <= i < |r| ==> r[i] == AdjustedRow(w[i], g[i], prev[i], cfg)
  {
    seq(|w|, i requires 0 <= i < |w| => AdjustedRow(w[i], g[i], prev[i], cfg))
  }

  /** With no momentum and no regularisation the rule is plain gradient descent. */
  lemma {:induction false} PlainGradientDescent(w: Layers, g: Layers, prev: Layers, cfg: TrainerConfig)
    requires SameShape(g, w) && SameShape(prev, w)
    requires cfg.momentum == 0.0 && cfg.quadraticRegularization == 0.0
    ensures forall i, j :: 0 <= i < |w| && 0 <= j < |w[i]| ==>
      Adjusted(w, g, prev, cfg)[i][j] == w[i][j] - cfg.learningRate * g[i][j]
  {
  }

  /** NextDouble() * 0.2 - 0.1 lies in [-0.1, 0.1). */
  function InitialWeight(u: Unit): (x: real)
    ensures -0.1 <= x < 0.1
  {
    u * 0.2 - 0.1
  }

  /** The initial values of one layer of n weights, drawn from sample number `start` on. */
  function InitRow(n: nat, sample: nat -> Unit, start: nat): (r: seq<real>)
    ensures |r| == n
    ensures forall j :: 0 <= j < n ==> r[j] == InitialWeight(sample(start + j)) && -0.1 <= r[j] < 0.1
  {
    seq(n, j requires 0 <= j < n => InitialWeight(sample(start + j)))
  }

  /** The initial values of layers 0 .. n-1, each drawn after those of the
      layers before it. */
  function InitLayers(w: Layers, sample: nat -> Unit, start: nat, n: nat): (r: Layers)
    requires n <= |w|
    ensures |r| == n && forall i :: 0 <= i < n ==> |r[i]| == |w[i]|
  {
    if n == 0 then []
    else InitLayers(w, sample, start, n - 1) + [InitRow(|w[n - 1]|, sample, start + Offset(w, n - 1))]
  }

  /** The initial value of each weight: the next sample mapped to [-0.1, 0.1),
      drawn layer by layer starting with sample number `start`. */
  function InitValues(w: Layers, sample: nat -> Unit, start: nat): (r: Layers)
    ensures SameShape(r, w)
  {
    InitLayers(w, sample, start, |w|)
  }

  /** Layer i is drawn from the samples that follow those of the layers before it. */
  lemma {:induction false} InitLayersAt(w: Layers, sample: nat -> Unit, start: nat, n: nat, i: nat)
    requires i < n <= |w|
    ensures InitLayers(w, sample, start, n)[i] == InitRow(|w[i]|, sample, start + Offset(w, i))
  {
    if i < n - 1 {
      InitLayersAt(w, sample, start, n - 1, i);
    }
  }

  /** Every initial weight lies in [-0.1, 0.1), and weight j of layer i comes from
      the sample numbered by its position in layer-major order. */
  lemma {:induction false} InitValuesAt(w: Layers, sample: nat -> Unit, start: nat, i: nat, j: nat)
    requires i < |w| && j < |w[i]|
    ensures InitValues(w, sample, start)[i][j] == InitialWeight(sample(start + Offset(w, i) + j))
    ensures -0.1 <= InitValues(w, sample, start)[i][j] < 0.1
  {
    InitLayersAt(w, sample, start, |w|, i);
  }

  // ------------------------------------------------------------------ the training run, as values

  /** Weights, previous-gradient accumulator and random draws so far. */
  datatype TrainState = TrainState(weights: Layers, prev: Layers, drawn: nat)

  /** The state once the configuration checks have passed: weights optionally
      re-initialised, accumulator zeroed in the weights' shape. */
  function Start(cfg: TrainerConfig, sample: nat -> Unit, w0: Layers): (s: TrainState)
    ensures SameShape(s.weights, w0) && SameShape(s.prev, w0)
  {
    if cfg.initializeWeights then TrainState(InitValues(w0, sample, 0), Zeros(w0), Offset(w0, |w0|))
    else TrainState(w0, Zeros(w0), 0)
  }

  /** The weights are replaced only when InitializeWeights is set, and then every
      weight lies in [-0.1, 0.1); the accumulator starts at zero in the weights' shape. */
  lemma StartWeights(cfg: TrainerConfig, sample: nat -> Unit, w0: Layers)
    ensures !cfg.initializeWeights ==> Start(cfg, sample, w0).weights == w0
    ensures cfg.initializeWeights ==> forall i, j :: 0 <= i < |w0| && 0 <= j < |w0[i]| ==>
      -0.1 <= Start(cfg, sample, w0).weights[i][j] < 0.1
    ensures Start(cfg, sample, w0).prev == Zeros(w0)
  {
    if cfg.initializeWeights {
      forall i, j | 0 <= i < |w0| && 0 <= j < |w0[i]|
        ensures -0.1 <= Start(cfg, sample, w0).weights[i][j] < 0.1
      {
        InitValuesAt(w0, sample, 0, i, j);
      }
    }
  }

  /** The example drawn by a step taken after `drawn` samples. */
  function Drawn(data: seq<Example>, sample: nat -> Unit, drawn: nat): Example
    requires |data| > 0
  {
    data[ScaledIndex(sample(drawn), |data|)]
  }

  /** One epoch: draw an example, take its gradient at the current weights,
      adjust, and keep that (raw) gradient as the accumulator. */
  function Step(cfg: TrainerConfig, data: seq<Example>,
                grad: (Layers, seq<real>, seq<real>) -> Layers, sample: nat -> Unit,
                s: TrainState): (r: TrainState)
    requires |data| > 0 && ShapePreserving(grad) && SameShape(s.prev, s.weights)
    ensures SameShape(r.weights, s.weights) && SameShape(r.prev, s.weights)
    ensures r.drawn == s.drawn + 1
  {
    var ex := Drawn(data, sample, s.drawn);
    var g := grad(s.weights, ex.input, ex.output);
    TrainState(Adjusted(s.weights, g, s.prev, cfg), g, s.drawn + 1)
  }

  /** n epochs from state s. */
  function Run(cfg: TrainerConfig, data: seq<Example>,
               grad: (Layers, seq<real>, seq<real>) -> Layers, sample: nat -> Unit,
               s: TrainState, n: nat): (r: TrainState)
    requires |data| > 0 && ShapePreserving(grad) && SameShape(s.prev, s.weights)
    ensures SameShape(r.weights, s.weights) && SameShape(r.prev, s.weights)
    ensures r.drawn == s.drawn + n
  {
    if n == 0 then s else Step(cfg, data, grad, sample, Run(cfg, data, grad, sample, s, n - 1))
  }

  lemma {:induction false} RunSucc(cfg: TrainerConfig, data: seq<Example>,
                grad: (Layers, seq<real>, seq<real>) -> Layers, sample: nat -> Unit,
                s: TrainState, n: nat)
    requires |data| > 0 && ShapePreserving(grad) && SameShape(s.prev, s.weights)
    ensures Run(cfg, data, grad, sample, s, n + 1) == Step(cfg, data, grad, sample, Run(cfg, data, grad, sample, s, n))
  {
  }

  /** After every epoch the accumulator holds the gradient computed in that epoch,
      not the regularised and momentum-combined one. */
  lemma {:induction false} AccumulatorHoldsRawGradient(cfg: TrainerConfig, data: seq<Example>,
                                    grad: (Layers, seq<real>, seq<real>) -> Layers, sample: nat -> Unit,
                                    s: TrainState, n: nat)
    requires |data| > 0 && ShapePreserving(grad) && SameShape(s.prev, s.weights)
    requires n > 0
    ensures var before := Run(cfg, data, grad, sample, s, n - 1);
            var ex := Drawn(data, sample, before.drawn);
            Run(cfg, data, grad, sample, s, n).prev == grad(before.weights, ex.input, ex.output)
  {
  }

  /** Two consecutive epochs: the momentum term of the second is M times the raw
      gradient of the first. */
  lemma {:induction false} MomentumUsesPreviousRawGradient(
      cfg: TrainerConfig, data: seq<Example>,
      grad: (Layers, seq<real>, seq<real>) -> Layers, sample: nat -> Unit,
      s: TrainState, i: nat, j: nat)
    requires |data| > 0 && ShapePreserving(grad) && SameShape(s.prev, s.weights)
    requires i < |s.weights| && j < |s.weights[i]|
    ensures var s1 := Step(cfg, data, grad, sample, s);
            var s2 := Step(cfg, data, grad, sample, s1);
            var e1 := Drawn(data, sample, s.drawn);
            var e2 := Drawn(data, sample, s.drawn + 1);
            var g1 := grad(s.weights, e1.input, e1.output);
            var g2 := grad(s1.weights, e2.input, e2.output);
            var w1 := s1.weights[i][j];
            s2.weights[i][j]
              == w1 - cfg.learningRate * (g2[i][j] + cfg.quadraticRegularization * w1 + cfg.momentum * g1[i][j])
  {
    var s1 := Step(cfg, data, grad, sample, s);
    var e1 := Drawn(data, sample, s.drawn);
    var g1 := grad(s.weights, e1.input, e1.output);
    assert s1.prev == g1;
    var e2 := Drawn(data, sample, s1.drawn);
    var g2 := grad(s1.weights, e2.input, e2.output);
    assert SameShape(g2, s1.weights);
  }

  /** One epoch from all-zero weights without momentum or regularisation gives
      exactly -LR times the gradient at the zero weights. */
  lemma {:induction false} OneEpochFromZeroWeights(cfg: TrainerConfig, data: seq<Example>,
                                grad: (Layers, seq<real>, seq<real>) -> Layers, sample: nat -> Unit,
                                w0: Layers, i: nat, j: nat)
    requires |data| > 0 && ShapePreserving(grad)
    requires forall i, j :: 0 <= i < |w0| && 0 <= j < |w0[i]| ==> w0[i][j] == 0.0
    requires !cfg.initializeWeights
    requires cfg.momentum == 0.0 && cfg.quadraticRegularization == 0.0
    requires i < |w0| && j < |w0[i]|
    ensures var ex := Drawn(data, sample, 0);
            var g := grad(w0, ex.input, ex.output);
            var w1 := Run(cfg, data, grad, sample, Start(cfg, sample, w0), 1).weights;
            SameShape(w1, w0) && SameShape(g, w0) && w1[i][j] == -cfg.learningRate * g[i][j]
  {
    var s0 := TrainState(w0, Zeros(w0), 0);
    assert Start(cfg, sample, w0) == s0;
    assert Run(cfg, data, grad, sample, s0, 1) == Step(cfg, data, grad, sample, s0);
    StepAt(cfg, data, grad, sample, s0, i, j);
    var ex := Drawn(data, sample, 0);
    var g := grad(w0, ex.input, ex.output);
    assert w0[i][j] == 0.0 && s0.prev[i][j] == 0.0;
    UpdateAtRest(g[i][j], cfg);
  }

  /** The update of a zero weight with a zero accumulator, without momentum or
      regularisation. */
  lemma {:induction false} UpdateAtRest(g: real, cfg: TrainerConfig)
    requires cfg.momentum == 0.0 && cfg.quadraticRegularization == 0.0
    ensures Update(0.0, g, 0.0, cfg) == -cfg.learningRate * g
  {
    assert Update(0.0, g, 0.0, cfg) == 0.0 - cfg.learningRate * (g + 0.0 * 0.0 + 0.0 * 0.0);
  }

  /** One weight after one epoch. */
  lemma {:induction false} StepAt(cfg: TrainerConfig, data: seq<Example>,
               grad: (Layers, seq<real>, seq<real>) -> Layers, sample: nat -> Unit,
               s: TrainState, i: nat, j: nat)
    requires |data| > 0 && ShapePreserving(grad) && SameShape(s.prev, s.weights)
    requires i < |s.weights| && j < |s.weights[i]|
    ensures var ex := Drawn(data, sample, s.drawn);
            var g := grad(s.weights, ex.input, ex.output);
            SameShape(g, s.weights) &&
            Step(cfg, data, grad, sample, s).weights[i][j] == Update(s.weights[i][j], g[i][j], s.prev[i][j], cfg)
  {
    var ex := Drawn(data, sample, s.drawn);
    var g := grad(s.weights, ex.input, ex.output);
    assert SameShape(g, s.weights);
  }

  // ------------------------------------------------------------------ imperative helpers

  /** DeepCopyTo: copy every value of src into the existing arrays of dst. */
  method CopyInto(src: Layers, dst: seq<array<real>>)
    requires Distinct(dst) && |src| == |dst|
    requires forall i :: 0 <= i < |src| ==> |src[i]| == dst[i].Length
    modifies CellsOf(dst)
    ensures LayersOf(dst) == src
  {
    for i := 0 to |dst|
      invariant forall k :: 0 <= k < i ==> dst[k][..] == src[k]
    {
      var row := dst[i];
      DistinctFrom(dst, i);
      for j := 0 to row.Length
        modifies row
        invariant forall k :: 0 <= k < i ==> dst[k][..] == src[k]
        invariant forall m :: 0 <= m < j ==> row[m] == src[i][m]
      {
        row[j] := src[i][j];
      }
      assert row[..] == src[i];
    }
  }

  /** DeepClone followed by the zeroing loop: fresh arrays of the same shape, all zero. */
  method ZeroClone(a: seq<array<real>>) returns (z: seq<array<real>>)
    ensures fresh(CellsOf(z)) && Distinct(z)
    ensures LayersOf(z) == Zeros(LayersOf(a))
  {
    ghost var zeros := Zeros(LayersOf(a));
    z := [];
    for i := 0 to |a|
      invariant |z| == i
      invariant forall k :: 0 <= k < i ==> fresh(z[k]) && z[k][..] == zeros[k]
      invariant Distinct(z)
    {
      // the clone's values are overwritten by the zeroing loop
      var row := new real[a[i].Length];
      for j := 0 to row.Length
        modifies row
        invariant forall m :: 0 <= m < j ==> row[m] == 0.0
      {
        row[j] := 0.0;
      }
      assert row[..] == zeros[i];
      assert (z + [row])[..i] == z;
      z := z + [row];
    }
  }

  // ------------------------------------------------------------------ the trainer

  /** The training state held by a network, an accumulator and a generator. */
  ghost function StateOf(nn: Network, prev: seq<array<real>>, rand: RandomGenerator): TrainState
    reads nn.Cells(), CellsOf(prev), rand
  {
    TrainState(nn.Values(), LayersOf(prev), rand.drawn)
  }

  /** A valid network and a separate accumulator of the same shape. */
  ghost predicate Ready(nn: Network, prev: seq<array<real>>)
  {
    && nn.Valid() && Distinct(prev) && CellsOf(prev) !! nn.Cells()
    && |prev| == |nn.weights|
    && forall i :: 0 <= i < |prev| ==> prev[i].Length == nn.weights[i].Length
  }

  /** The accumulator of a Ready pair has the shape of the weights. */
  lemma ReadyShapes(nn: Network, prev: seq<array<real>>)
    requires Ready(nn, prev)
    ensures SameShape(LayersOf(prev), nn.Values())
  {
  }

  class Trainer {
    var config: Option<TrainerConfig>

    constructor (config: Option<TrainerConfig>)
      ensures this.config == config
    {
      this.config := config;
    }

    /** Rewrites every weight in place as w - LR * (g + QR * w + M * prev). */
    method AdjustWeights(nn: Network, gradients: Layers, prev: seq<array<real>>)
      requires config.Some? && nn.Valid()
      requires SameShape(gradients, nn.Values()) && SameShape(LayersOf(prev), nn.Values())
      requires CellsOf(prev) !! nn.Cells()
      modifies nn.Cells()
      ensures nn.Values() == Adjusted(old(nn.Values()), gradients, old(LayersOf(prev)), config.value)
      ensures LayersOf(prev) == old(LayersOf(prev))
    {
      ghost var w0 := nn.Values();
      ghost var p := LayersOf(prev);
      ghost var target := Adjusted(w0, gradients, p, config.value);
      var weights := nn.weights;
      for i := 0 to |gradients|
        invariant forall k :: 0 <= k < i ==> weights[k][..] == target[k]
        invariant forall k :: i <= k < |weights| ==> weights[k][..] == w0[k]
        invariant LayersOf(prev) == p
      {
        assert prev[i] in CellsOf(prev);
        DistinctFrom(weights, i);
        AdjustRow(weights[i], gradients[i], prev[i], config.value);
        assert weights[i][..] == target[i];
      }
    }

    /** The inner loop of AdjustWeights, over one layer. */
    static method AdjustRow(weightRow: array<real>, gradientRow: seq<real>, prevRow: array<real>, cfg: TrainerConfig)
      requires weightRow.Length == |gradientRow| == prevRow.Length && weightRow != prevRow
      modifies weightRow
      ensures forall m :: 0 <= m < weightRow.Length ==>
        weightRow[m] == Update(old(weightRow[m]), gradientRow[m], prevRow[m], cfg)
    {
      for j := 0 to |gradientRow|
        invariant forall m :: 0 <= m < j ==> weightRow[m] == Update(old(weightRow[m]), gradientRow[m], prevRow[m], cfg)
        invariant forall m :: j <= m < weightRow.Length ==> weightRow[m] == old(weightRow[m])
      {
        var prevWeight := weightRow[j];
        var fullGradient := gradientRow[j] + cfg.quadraticRegularization * prevWeight
                            + cfg.momentum * prevRow[j];
        weightRow[j] := prevWeight - cfg.learningRate * fullGradient;
      }
    }

    /** Overwrites every weight, layer by layer, with NextDouble() * 0.2 - 0.1. */
    static method InitializeWeights(nn: Network, rand: RandomGenerator)
      requires nn.Valid()
      modifies nn.Cells(), rand
      ensures nn.Values() == InitValues(old(nn.Values()), rand.sample, old(rand.drawn))
      ensures rand.drawn == old(rand.drawn) + Offset(old(nn.Values()), |old(nn.Values())|)
    {
      ghost var w0 := nn.Values();
      ghost var start := rand.drawn;
      ghost var target := InitValues(w0, rand.sample, start);
      var weights := nn.weights;
      for i := 0 to |weights|
        invariant forall k :: 0 <= k < i ==> weights[k][..] == target[k]
        invariant forall k :: i <= k < |weights| ==> weights[k][..] == w0[k]
        invariant rand.drawn == start + Offset(w0, i)
      {
        DistinctFrom(weights, i);
        InitializeLayer(weights[i], rand, w0, i, start);
      }
    }

    /** One pass of InitializeWeights' outer loop: layer i takes the samples that
        follow those of the layers before it. */
    static method InitializeLayer(row: array<real>, rand: RandomGenerator, ghost w0: Layers, ghost i: nat, ghost start: nat)
      requires i < |w0| && row.Length == |w0[i]| && rand.drawn == start + Offset(w0, i)
      modifies row, rand
      ensures row[..] == InitValues(w0, rand.sample, start)[i]
      ensures rand.drawn == start + Offset(w0, i + 1)
    {
      InitializeRow(row, rand);
      InitLayersAt(w0, rand.sample, start, |w0|, i);
    }

    /** The inner loop of InitializeWeights, over one layer. */
    static method InitializeRow(row: array<real>, rand: RandomGenerator)
      modifies row, rand
      ensures rand.drawn == old(rand.drawn) + row.Length
      ensures row[..] == InitRow(row.Length, rand.sample, old(rand.drawn))
    {
      for j := 0 to row.Length
        invariant rand.drawn == old(rand.drawn) + j
        invariant forall m :: 0 <= m < j ==> row[m] == InitialWeight(rand.sample(old(rand.drawn) + m))
      {
        var u: real := rand.NextDouble();
        row[j] := u * 0.2 - 0.1;
      }
    }

    /** Checks the configuration, optionally initialises the weights, then runs
        NumEpochs single-example steps and returns the same network. */
    method Train(trainingSet: seq<Example>, nn: Network?, randomProvider: int -> nat -> Unit)
      returns (r: TrainResult)
      requires nn != null ==> nn.Valid()
      modifies if nn != null then nn.Cells() else {}
      ensures config.None? ==> r == Failed(MissingConfig)
      ensures config.Some? && config.value.numEpochs <= 0 ==> r == Failed(NonPositiveEpochs(config.value.numEpochs))
      ensures config.Some? && config.value.numEpochs > 0 && nn == null ==> r == Failed(NullNetwork)
      ensures r.Failed? && r.error != SampleOutOfRange && nn != null ==> nn.Values() == old(nn.Values())
      ensures config.Some? && config.value.numEpochs > 0 && nn != null ==>
        var cfg := config.value;
        var sample := randomProvider(cfg.seed);
        var start := Start(cfg, sample, old(nn.Values()));
        if |trainingSet| == 0 then
          r == Failed(SampleOutOfRange) && nn.Values() == start.weights
        else
          r == Trained(nn) &&
          nn.Values() == Run(cfg, trainingSet, nn.calculateGradients, sample, start, cfg.numEpochs).weights
    {
      if config.None? {
        return Failed(MissingConfig);
      }
      var cfg := config.value;
      var numEpochs := cfg.numEpochs;
      if numEpochs <= 0 {
        return Failed(NonPositiveEpochs(numEpochs));
      }
      if nn == null {
        return Failed(NullNetwork);
      }
      r := TrainNetwork(trainingSet, nn, randomProvider);
    }

    /** Train once the configuration and the network have passed their checks. */
    method TrainNetwork(trainingSet: seq<Example>, nn: Network, randomProvider: int -> nat -> Unit)
      returns (r: TrainResult)
      requires config.Some? && config.value.numEpochs > 0 && nn.Valid()
      modifies nn.Cells()
      ensures var cfg := config.value;
        var sample := randomProvider(cfg.seed);
        var start := Start(cfg, sample, old(nn.Values()));
        if |trainingSet| == 0 then
          r == Failed(SampleOutOfRange) && nn.Values() == start.weights
        else
          r == Trained(nn) &&
          nn.Values() == Run(cfg, trainingSet, nn.calculateGradients, sample, start, cfg.numEpochs).weights
    {
      if |trainingSet| == 0 {
        var rand, prevWeightGradients := Prepare(nn, randomProvider(config.value.seed));
        // Next(0) is 0, and trainingSet[0] throws
        var t := rand.Next(|trainingSet|);
        return Failed(SampleOutOfRange);
      }
      TrainOnExamples(trainingSet, nn, randomProvider(config.value.seed));
      return Trained(nn);
    }

    /** Train on a non-empty training set, once the checks have passed. */
    method TrainOnExamples(trainingSet: seq<Example>, nn: Network, sample: nat -> Unit)
      requires config.Some? && config.value.numEpochs > 0 && |trainingSet| > 0 && nn.Valid()
      modifies nn.Cells()
      ensures nn.Values() == Run(config.value, trainingSet, nn.calculateGradients, sample,
                                 Start(config.value, sample, old(nn.Values())), config.value.numEpochs).weights
    {
      ghost var start := Start(config.value, sample, nn.Values());
      var rand, prevWeightGradients := Prepare(nn, sample);
      assert StateOf(nn, prevWeightGradients, rand) == start;
      RunEpochs(trainingSet, nn, prevWeightGradients, rand, config.value.numEpochs);
    }

    /** The part of Train before its loop: a generator for the seed, the optional
        weight initialisation, and the zeroed previous-gradient accumulator. */
    method Prepare(nn: Network, sample: nat -> Unit) returns (rand: RandomGenerator, prev: seq<array<real>>)
      requires config.Some? && nn.Valid()
      modifies nn.Cells()
      ensures fresh(rand) && fresh(CellsOf(prev)) && Distinct(prev)
      ensures rand.sample == sample
      ensures StateOf(nn, prev, rand) == Start(config.value, sample, old(nn.Values()))
    {
      ghost var w0 := nn.Values();
      ghost var s := Start(config.value, sample, w0);
      rand := new RandomGenerator(sample);
      if config.value.initializeWeights {
        InitializeWeights(nn, rand);
      }
      assert nn.Values() == s.weights && rand.drawn == s.drawn;
      ZerosOfSameShape(s.weights, w0);
      prev := ZeroClone(nn.weights);
      assert nn.Values() == s.weights;
    }

    /** Train's loop: n epochs. */
    method RunEpochs(trainingSet: seq<Example>, nn: Network, prev: seq<array<real>>,
                     rand: RandomGenerator, n: nat)
      requires config.Some? && |trainingSet| > 0 && Ready(nn, prev)
      modifies nn.Cells(), CellsOf(prev), rand
      ensures StateOf(nn, prev, rand)
           == Run(config.value, trainingSet, nn.calculateGradients, rand.sample, old(StateOf(nn, prev, rand)), n)
    {
      ghost var s := StateOf(nn, prev, rand);
      ReadyShapes(nn, prev);
      for e := 0 to n
        invariant StateOf(nn, prev, rand) == Run(config.value, trainingSet, nn.calculateGradients, rand.sample, s, e)
      {
        NextEpoch(trainingSet, nn, prev, rand, s, e);
      }
    }

    /** Epoch e + 1 of a run from state s. */
    method NextEpoch(trainingSet: seq<Example>, nn: Network, prev: seq<array<real>>, rand: RandomGenerator,
                     ghost s: TrainState, ghost e: nat)
      requires config.Some? && |trainingSet| > 0 && Ready(nn, prev) && SameShape(s.prev, s.weights)
      requires StateOf(nn, prev, rand) == Run(config.value, trainingSet, nn.calculateGradients, rand.sample, s, e)
      modifies nn.Cells(), CellsOf(prev), rand
      ensures StateOf(nn, prev, rand) == Run(config.value, trainingSet, nn.calculateGradients, rand.sample, s, e + 1)
    {
      Epoch(trainingSet, nn, prev, rand);
      RunSucc(config.value, trainingSet, nn.calculateGradients, rand.sample, s, e);
    }

    /** The body of Train's loop: draw an example, adjust the weights with its
        gradient, then copy that gradient into the accumulator. */
    method Epoch(trainingSet: seq<Example>, nn: Network, prev: seq<array<real>>, rand: RandomGenerator)
      requires config.Some? && |trainingSet| > 0 && Ready(nn, prev)
      modifies nn.Cells(), CellsOf(prev), rand
      ensures StateOf(nn, prev, rand)
           == Step(config.value, trainingSet, nn.calculateGradients, rand.sample, old(StateOf(nn, prev, rand)))
    {
      ghost var s := StateOf(nn, prev, rand);
      ghost var cfg := config.value;
      var t := rand.Next(|trainingSet|);
      var inputOutput := trainingSet[t];
      assert inputOutput == Drawn(trainingSet, rand.sample, s.drawn);
      ghost var w := nn.Values();
      ghost var p := LayersOf(prev);
      assert w == s.weights && p == s.prev;
      var gradients := nn.calculateGradients(nn.Values(), inputOutput.input, inputOutput.output);
      assert Step(cfg, trainingSet, nn.calculateGradients, rand.sample, s)
          == TrainState(Adjusted(w, gradients, p, cfg), gradients, s.drawn + 1);
      AdjustWeights(nn, gradients, prev);
      ghost var adjusted := nn.Values();
      assert adjusted == Adjusted(w, gradients, p, cfg);
      CopyInto(gradients, prev);
      assert nn.Values() == adjusted;
    }
  }

  // ------------------------------------------------------------------ evaluation

  /** Sum of the per-example cross-entropies of the first n examples, or the
      first length mismatch met. */
  function CrossEntropyTotal(feed: (Layers, seq<real>) -> seq<real>, w: Layers,
                             data: seq<Example>, ln: real -> real, n: nat): Metric
    requires n <= |data|
  {
    if n == 0 then Value(0.0)
    else
      match CrossEntropyTotal(feed, w, data, ln, n - 1)
      case Value(e) =>
        (match CrossEntropy(data[n - 1].output, feed(w, data[n - 1].input), ln)
         case Value(c) => Value(e + c)
         case other => other)
      case other => other
  }

  /** The mean cross-entropy GetError returns. */
  function MeanError(feed: (Layers, seq<real>) -> seq<real>, w: Layers,
                     data: seq<Example>, ln: real -> real): Metric
  {
    match CrossEntropyTotal(feed, w, data, ln, |data|)
    case Value(e) => if |data| == 0 then NaN else Value(e / |data| as real)
    case other => other
  }

  lemma {:induction false} CrossEntropyTotalFails(feed: (Layers, seq<real>) -> seq<real>, w: Layers,
                                                  data: seq<Example>, ln: real -> real, n: nat)
    requires n <= |data|
    ensures CrossEntropyTotal(feed, w, data, ln, n).Value?
        <==> forall k :: 0 <= k < n ==> |feed(w, data[k].input)| == |data[k].output|
  {
    if n > 0 {
      CrossEntropyTotalFails(feed, w, data, ln, n - 1);
    }
  }

  /** GetError fails exactly when the network's output for some example differs
      in length from that example's target. */
  lemma {:induction false} MeanErrorFailsOnMismatch(feed: (Layers, seq<real>) -> seq<real>, w: Layers,
                                 data: seq<Example>, ln: real -> real)
    ensures MeanError(feed, w, data, ln).LengthMismatch?
        <==> exists k :: 0 <= k < |data| && |feed(w, data[k].input)| != |data[k].output|
  {
    CrossEntropyTotalFails(feed, w, data, ln, |data|);
    var n := |data|;
    if n > 0 {
      CrossEntropyTotalFailsIsMismatch(feed, w, data, ln, n);
    }
  }

  lemma {:induction false} CrossEntropyTotalFailsIsMismatch(feed: (Layers, seq<real>) -> seq<real>, w: Layers,
                                                            data: seq<Example>, ln: real -> real, n: nat)
    requires n <= |data|
    ensures !CrossEntropyTotal(feed, w, data, ln, n).NaN?
    ensures !CrossEntropyTotal(feed, w, data, ln, n).Value? ==> CrossEntropyTotal(feed, w, data, ln, n).LengthMismatch?
  {
    if n > 0 {
      CrossEntropyTotalFailsIsMismatch(feed, w, data, ln, n - 1);
    }
  }

  /** Number of the first n examples whose target argmax equals the output argmax. */
  function Hits(feed: (Layers, seq<real>) -> seq<real>, maxIndex: seq<real> -> int, w: Layers,
                data: seq<Example>, n: nat): nat
    requires n <= |data|
  {
    if n == 0 then 0
    else Hits(feed, maxIndex, w, data, n - 1)
         + (if maxIndex(data[n - 1].output) == maxIndex(feed(w, data[n - 1].input)) then 1 else 0)
  }

  predicate IsHit(feed: (Layers, seq<real>) -> seq<real>, maxIndex: seq<real> -> int, w: Layers, ex: Example)
  {
    maxIndex(ex.output) == maxIndex(feed(w, ex.input))
  }

  lemma {:induction false} HitsBounds(feed: (Layers, seq<real>) -> seq<real>, maxIndex: seq<real> -> int,
                                      w: Layers, data: seq<Example>, n: nat)
    requires n <= |data|
    ensures Hits(feed, maxIndex, w, data, n) <= n
    ensures Hits(feed, maxIndex, w, data, n) == n <==> forall k :: 0 <= k < n ==> IsHit(feed, maxIndex, w, data[k])
    ensures Hits(feed, maxIndex, w, data, n) == 0 <==> forall k :: 0 <= k < n ==> !IsHit(feed, maxIndex, w, data[k])
  {
    if n > 0 {
      HitsBounds(feed, maxIndex, w, data, n - 1);
    }
  }

  /** Accuracy lies in [0, 1]; it is 1 exactly when every example is a hit and 0
      exactly when none is. */
  lemma {:induction false} AccuracyInUnitInterval(feed: (Layers, seq<real>) -> seq<real>, maxIndex: seq<real> -> int,
                               w: Layers, data: seq<Example>)
    requires |data| > 0
    ensures var a := Hits(feed, maxIndex, w, data, |data|) as real / |data| as real;
            0.0 <= a <= 1.0 &&
            (a == 1.0 <==> forall k :: 0 <= k < |data| ==> IsHit(feed, maxIndex, w, data[k])) &&
            (a == 0.0 <==> forall k :: 0 <= k < |data| ==> !IsHit(feed, maxIndex, w, data[k]))
  {
    HitsBounds(feed, maxIndex, w, data, |data|);
    Ratio(Hits(feed, maxIndex, w, data, |data|), |data|);
  }

  /** h / n for 0 <= h <= n lies in [0, 1], and is 1 or 0 exactly at the ends. */
  lemma Ratio(h: nat, n: nat)
    requires 0 < n && h <= n
    ensures var a := h as real / n as real;
            0.0 <= a <= 1.0 && (a == 1.0 <==> h == n) && (a == 0.0 <==> h == 0)
  {
    var a := h as real / n as real;
    var missed := (n - h) as real / n as real;
    assert a + missed == 1.0;
    assert 0.0 <= missed;
  }

  /** Mean cross-entropy of the network's outputs over a test set. */
  method GetError(nn: Network, testSet: seq<Example>, ln: real -> real) returns (r: Metric)
    ensures r == MeanError(nn.feedForward, nn.Values(), testSet, ln)
  {
    ghost var w := nn.Values();
    var error := 0.0;
    for k := 0 to |testSet|
      invariant nn.Values() == w
      invariant CrossEntropyTotal(nn.feedForward, w, testSet, ln, k) == Value(error)
    {
      var result := nn.feedForward(nn.Values(), testSet[k].input);
      var ce := CrossEntropyError(testSet[k].output, result, ln);
      CrossEntropyTotalStep(nn.feedForward, w, testSet, ln, k);
      if !ce.Value? {
        ErrorPersists(nn.feedForward, w, testSet, ln, k + 1);
        assert CrossEntropyTotal(nn.feedForward, w, testSet, ln, |testSet|) == ce;
        assert MeanError(nn.feedForward, w, testSet, ln) == ce;
        assert nn.Values() == w;
        r := ce;
        assert r == MeanError(nn.feedForward, nn.Values(), testSet, ln);
        return;
      }
      error := error + ce.value;
    }
    if |testSet| == 0 {
      return NaN;
    }
    r := Value(error / |testSet| as real);
  }

  lemma {:induction false} CrossEntropyTotalStep(feed: (Layers, seq<real>) -> seq<real>, w: Layers,
                              data: seq<Example>, ln: real -> real, n: nat)
    requires n < |data| && CrossEntropyTotal(feed, w, data, ln, n).Value?
    ensures var ce := CrossEntropy(data[n].output, feed(w, data[n].input), ln);
            CrossEntropyTotal(feed, w, data, ln, n + 1)
              == if ce.Value? then Value(CrossEntropyTotal(feed, w, data, ln, n).value + ce.value) else ce
  {
  }

  lemma {:induction false} ErrorPersists(feed: (Layers, seq<real>) -> seq<real>, w: Layers,
                                         data: seq<Example>, ln: real -> real, n: nat)
    requires n <= |data| && !CrossEntropyTotal(feed, w, data, ln, n).Value?
    ensures CrossEntropyTotal(feed, w, data, ln, |data|) == CrossEntropyTotal(feed, w, data, ln, n)
    decreases |data| - n
  {
    if n < |data| {
      ErrorPersists(feed, w, data, ln, n + 1);
    }
  }

  /** Fraction of examples whose output argmax equals the target argmax. */
  method GetAccuracy(nn: Network, testSet: seq<Example>, maxIndex: seq<real> -> int) returns (r: Metric)
    ensures |testSet| == 0 ==> r == NaN
    ensures |testSet| > 0 ==> r == Value(Hits(nn.feedForward, maxIndex, nn.Values(), testSet, |testSet|) as real / |testSet| as real)
  {
    var numHits := 0;
    for k := 0 to |testSet|
      invariant numHits == Hits(nn.feedForward, maxIndex, nn.Values(), testSet, k)
    {
      var expected := maxIndex(testSet[k].output);
      var actual := maxIndex(nn.feedForward(nn.Values(), testSet[k].input));
      numHits := numHits + if expected == actual then 1 else 0;
    }
    if |testSet| == 0 {
      return NaN;
    }
    r := Value(numHits as real / |testSet| as real);
  }
}
