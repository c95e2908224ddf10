# leaf-detective: parameter containers, layers and the forward step

This project models the core of the leaf-detective neural-network library in
Dafny:

- the shaped parameter containers `Weights` and `Biases`, from `lib/index.js`
  and from the duplicate `Weights` class in the root `index.js`;
- the `Layer` class with its validated mutators (`populate`, `addWeights`,
  `addBiases`, `connect`), `apply`, and the affine forward step `run`;
- the algebraic entries of the activation catalog (`identity`, `relu`,
  `elliotsig`) and the explicit zero branch of `sinc`.

The model is functional. Every container and layer is an immutable value, and
every mutator returns the updated value. Where the source throws, the mutator
returns a `Result` whose `Failure` carries the error and no layer, so the
caller's layer stays as it was. A network's layers live in one sequence
(`Chain.Net`). The `next` and `previous` references become indices into that
sequence, so `connect` and `run` are functions of the whole sequence. Numbers
are Dafny `real`s. The core's arithmetic is `+`, `-`, `*`, `/`, squaring
with `**`, `Math.abs` and `Math.max`, all exact over the reals.

Modules, one per concept:

- `Results` (results.dfy): optional references, the errors and `Result`.
- `Parameters` (parameters.dfy): `Weights` and `Biases`. The two `Weights`
  classes in `lib/index.js` and `index.js` are the same code, so they are
  modelled once. The properties of both files are stated about these
  definitions.
- `Activations` (activations.dfy): the `Activation` record and the algebraic
  catalog entries.
- `Linear` (linear.dfy): the left-fold weighted sum that `run` computes, with
  a right-fold reference sum.
- `Layers` (layers.dfy): the layer record and its layer-local operations.
- `Chain` (chain.dfy): `connect` and `run` over the sequence of layers.
- `Scenarios` (scenarios.dfy): the documented usage
  `input.populate(x).run().apply(f)` on a network of two layers.

Facts about the code that shape the model:

- There is no pre-activation array. `run` writes the weighted sums straight
  into `next.neurons` (lib/index.js:205-211). `apply(func)` then replaces
  each neuron by `func(neuron, index)` (lib/index.js:160).
- `Weights.populate` and `Biases.populate` check nothing
  (lib/index.js:36-38, 70-72). They read the receiver's shape out of `data`.
  Their documentation asks callers for data of the same shape
  (lib/index.js:32-33, 66-67).
- `new Activation(source, derivative)` stores the pair and validates nothing
  (lib/activations.js:3-7).
- `sinc` is `sin(x) / x` away from zero (lib/activations.js:42).

## Model

| member | source | states |
|---|---|---|
| Parameters.NewWeights | lib/index.js:15-19 | `new Weights(width, height)` is `height` rows, each of `width` zeros |
| Parameters.MapResult | lib/index.js:26-38 | the object `map` builds for a `Weights` receiver is the mapped rows, except that no rows become a single empty row |
| Parameters.PopulateWeights | lib/index.js:36-38 | for a receiver with rows, the result has the receiver's row count and row widths and entry (i, j) is `data[i][j]`; a receiver without rows gives `[[]]` |
| Parameters.PopulateWeightsIntended | lib/index.js:30-38 | the documented intent: the result has exactly the receiver's shape for every receiver, entries taken from `data` |
| Parameters.FillRandomWeights | lib/index.js:26-28 | entry (i, j) is the (i, j)-th draw; draws in [0, 1) give entries in [0, 1); the shape is kept when the receiver has rows, and no rows give `[[]]` |
| Parameters.FillRandomWeightsIntended | lib/index.js:21-28 | the documented intent of `fillRandom`: exactly the receiver's shape for every receiver, entry (i, j) the (i, j)-th draw, draws in [0, 1) giving entries in [0, 1) |
| Parameters.NewBiases | lib/index.js:51-53 | `new Biases(h)` has length h and all entries zero |
| Parameters.PopulateBiases | lib/index.js:70-72 | same length as the receiver, entry i is `data[i]`, data beyond it ignored |
| Parameters.FillRandomBiases | lib/index.js:60-62 | same length; entry i is `draw(i) * 2 - 1`, so draws in [0, 1) give biases in [-1, 1) |
| Parameters.PopulateWeightsSelf | lib/index.js:36-38 | for a matrix with at least one row, populating it from its own entries returns it unchanged (round trip) |
| Parameters.PopulateWeightsIgnoresExtraData | index.js:36-38 | data that agree inside the receiver's shape give equal results, so nothing outside that shape is read |
| Parameters.PopulateNewWeightsShape | index.js:15-38 | populating `new Weights(width, height)` with height at least 1 gives `height` rows of `width` entries |
| Parameters.FillRandomWeightsShape | index.js:26-28 | for height at least 1, `fillRandom` preserves the shape, also when applied twice |
| Parameters.ZeroRowsQuirk | index.js:26-38 | `new Weights(3, 0)` is empty, but its `populate` and `fillRandom` return one empty row, a different shape; the intended populate returns the empty matrix |
| Parameters.PopulateIntendedAgrees | lib/index.js:36-38 | on receivers with at least one row, the intended and the written `populate` agree |
| Parameters.FillRandomIntendedAgrees | lib/index.js:26-28 | on receivers with at least one row, the intended and the written `fillRandom` agree |
| Parameters.PopulateBiasesSelf | lib/index.js:70-72 | populating biases from their own entries returns them unchanged (round trip) |
| Parameters.PopulateNewBiases | lib/index.js:51-72 | populating `new Biases(h)` with `data` gives exactly the first h entries of `data` |
| Parameters.PopulateZeroWidth | lib/index.js:36-38 | a receiver whose rows are empty reads no data: `new Weights(0, 2).populate([])` is two empty rows |
| Activations.Abs | lib/activations.js:17-18 | `Math.abs(x)` is non-negative and equals x or -x |
| Activations.IdentityPair | lib/activations.js:26-29 | `identity.source(x) == x`, `identity.derivative(x) == 1`, and every difference quotient of the source equals the derivative |
| Activations.ReluSource | lib/activations.js:31-32 | `relu.source(x)` is the maximum of 0 and x: at least both, and equal to one of them |
| Activations.ReluDerivative | lib/activations.js:33 | the derivative is 0 exactly when x ≤ 0 and 1 exactly when x > 0 |
| Activations.ReluSlope | lib/activations.js:31-34 | on either side of zero, the change of the source is the derivative times the change of x |
| Activations.ElliotSource | lib/activations.js:17 | `x / (1 + abs(x))` lies strictly between -1 and 1 and has the sign of x |
| Activations.ElliotDerivative | lib/activations.js:18 | `1 / (1 + abs(x))^2` lies in (0, 1] and is 1 exactly at x = 0 |
| Activations.ElliotSlope | lib/activations.js:16-19 | for x, y of the same sign the difference quotient of the source is `1 / ((1 + abs(x))(1 + abs(y)))`, which at y = x is the derivative |
| Activations.ElliotIncreasing | lib/activations.js:17 | the source is strictly increasing |
| Activations.SincSource | lib/activations.js:42 | the source is 1 at x = 0, whatever sine is supplied |
| Activations.SincDerivative | lib/activations.js:43 | the derivative is 0 at x = 0, whatever sine and cosine are supplied |
| Activations.Sinc | lib/activations.js:41-44 | the `sinc` record has `source(0) == 1` and `derivative(0) == 0` |
| Linear.Dot | lib/index.js:207-209 | the left fold from 0 of `neuron * weight` equals the independent right-fold reference sum `Linear.Sum` of the same products |
| Linear.Affine | lib/index.js:205-211 | the output has n entries, and entry r is the weighted sum of the input with weight row r plus bias r |
| Linear.DotZero | lib/index.js:207-209 | an all-zero input gives a weighted sum of 0 |
| Linear.DotScale | lib/index.js:207-209 | scaling the input by k scales the weighted sum by k |
| Layers.NewLayer | lib/index.js:103-112 | `new Layer(length)` has `length` zero neurons, no weights, biases or links, and is well formed |
| Layers.AddBiases | lib/index.js:124-129 | only `biases` changes and it becomes the given vector; its length is not checked |
| Layers.AddWeights | lib/index.js:141-150 | succeeds if and only if every row is `length` wide, so an empty matrix passes; on failure the error is the width mismatch; on success only `weights` changes; the row count is not checked |
| Layers.Apply | lib/index.js:159-162 | the neuron count is kept, neuron i becomes `func(neuron i, i)`, and every other field is unchanged |
| Layers.Populate | lib/index.js:186-193 | fails exactly when `data.length` differs from `length`, with an error naming the neuron count; on success the neurons equal `data` and nothing else changes |
| Layers.ApplyCompose | lib/index.js:159-161 | applying f and then g equals applying their composition once |
| Layers.ApplyIdentity | lib/index.js:159-161 | applying the identity leaves the layer unchanged |
| Layers.PopulateIdempotent | lib/index.js:186-192 | populating with the current neurons changes nothing, and populating twice with the same data equals populating once |
| Layers.PopulateAddWeightsCommute | lib/index.js:141-192 | `populate` and `addWeights` commute: in either order both succeed together and give the same layer, or the failing call fails with the same error |
| Layers.AddWeightsAcceptsAnyHeight | lib/index.js:141-149 | an empty matrix and a fresh `Weights` of the layer's width with any height are both accepted |
| Chain.Connect | lib/index.js:174-179 | `next` of this layer becomes the other layer, and `previous` of the other layer becomes this one; all other links and all contents are unchanged, and links stay in range |
| Chain.Run | lib/index.js:204-213 | fails with a TypeError when `next` is missing, or when a weight row or the bias vector that must be read is missing. Otherwise it returns `next`, keeps its neuron count and sets neuron r to the left-fold weighted sum with weight row r plus bias r. All other fields of `next` and all other layers are unchanged |
| Chain.ConnectIdempotent | lib/index.js:174-178 | connecting the same pair again rewires identically |
| Chain.RunIdempotent | lib/index.js:204-213 | when `next` is a different layer, `run` reads only the size of its neurons, so running twice gives the same network as running once |
| Chain.RunSelfLoop | lib/index.js:174-213 | after `l.connect(l)`, `run` reads the neurons it overwrites: one neuron 1 with weight 2 and bias 0 gives [2] after one run and [4] after two, so `run` is not idempotent there |
| Chain.RunFromZeroInput | lib/index.js:204-213 | a layer whose neurons are all zero, as a new layer's are, passes exactly the next layer's biases on |
| Scenarios.RunThenApply | lib/index.js:96 | `run().apply(f)` succeeds exactly when `run` does; it leaves neuron r of the returned layer at f of the affine value, keeps that layer's length, parameters and links, and leaves every other layer unchanged |
| Scenarios.SingleConnection | lib/index.js:83-93 | the layers built by `new Layer`, `populate`, `addWeights`, `addBiases` and `connect` form a valid two-layer network holding the given input and parameters |
| Scenarios.SingleConnectionIsAffine | lib/index.js:204-213 | with the identity activation, one connection computes exactly W·x + b, each entry a sum over the inputs |
| Scenarios.ConcreteNet | lib/index.js:83-93 | the network with input [3], weights [[2]] and bias [0.5], built through the constructors and the written `populate`, is a valid two-layer network |
| Scenarios.ConcreteParameters | lib/index.js:15-72 | populating `new Weights(1, 1)` with [[2]] and `new Biases(1)` with [0.5] gives exactly those containers |
| Scenarios.ConcreteScenario | lib/index.js:204-213 | input [3], weights [[2]] and bias [0.5] give [6.5] after `run`; identity and relu keep [6.5], and elliotsig gives [6.5 / 7.5] |
| Scenarios.ZeroHeightWeightsRejected | lib/index.js:26-28 | `new Weights(3, 0).fillRandom()` is rejected by `addWeights` on a layer of length 3, while the intended `fillRandom`'s empty matrix is accepted |

## Left out

- The `Network` class and its training (backpropagation, deltas, momentum).
  The usage examples import it from `lib/index.js`, but `lib/index.js`
  defines only `Weights`, `Biases` and `Layer`, so it is not part of this
  model.
- The example scripts `examples/basic1.js` and `examples/celsius_to_fahrenheit.js`.
  They are demos: random data, timing and console output.
- `lib/helpers.js`: `plus` is real addition inside `Linear.Dot`. `sigmoid`
  needs `Math.exp`.
- The transcendental activations `arctan`, `gaussian`, `sigmoid`, `sinusoid`
  and `softplus`. They need atan, exp, sin, cos and log. The `x != 0` branch
  of `sinc` takes the sine and cosine as caller-supplied functions.
- `Math.random`: the draws of `fillRandom` are a caller-supplied function of
  the entry's position. The order of the draws is not modelled.
- IEEE-754 rounding, NaN and infinities. The arithmetic is over Dafny `real`.
- The `instanceof` guards of `addBiases`, `addWeights` and `connect`
  (lib/index.js:125, 142, 175). The model identifies plain arrays with
  `Weights` and `Biases` objects, so it has no value these guards would
  reject. For example, `addWeights([[2]])` with a plain array throws "Please
  pass a weights object" in the source, while the model accepts `[[2.0]]`.
- Object identity and aliasing. Links are indices into one sequence of
  layers, and the containers are values, so `populate` and `fillRandom`
  cannot mutate their receiver.
- Activations.Activation: the record is the datatype constructor. It stores
  the pair exactly as given and validates nothing, as the class does.
- Parameters.PopulateWeights: requires `data` to hold an entry for each
  position of the receiver. A row of the receiver that has no entries needs
  no `data` row, because `row.map` never reads `data[i]` for it. With
  shorter data the source produces `undefined` entries, or a TypeError for a
  missing row of a non-empty receiver row. Reals cannot represent
  `undefined`, and the model does not represent that TypeError.
- Parameters.PopulateBiases: requires `data` to be at least as long as the
  receiver, for the same reason.
- Chain.Run: requires the running layer to be well formed. That means
  `|neurons| == length`, which every operation keeps, and weight rows exactly
  `length` wide, which `addWeights` checks. It also requires the next layer's
  biases, when present, to cover its neurons. Outside these conditions the
  source computes NaN, not an error.
- Layers.Populate: the source copies `data` (`[...data]`). As values, the
  copy and the original are equal.

## Findings

| source | as written | input that shows it | evidently intended | confidence | as-written member | corrected member |
|---|---|---|---|---|---|---|
| lib/index.js:36-38 | `this.map(...)` on a `Weights` builds its result with `new Weights(len)`. That leaves `height` undefined, and `Array(undefined)` has one slot, so a receiver without rows maps to `[[]]` | `new Weights(3, 0).populate([])` returns one empty row | the empty matrix, the receiver's shape | high, not executed | Parameters.ZeroRowsQuirk | Parameters.PopulateWeightsIntended |
| lib/index.js:26-28 | `fillRandom` maps through the same `new Weights(len)`, so a receiver without rows gives `[[]]` | `new Weights(3, 0).fillRandom()` returns one empty row, which `addWeights` on a layer of length 3 rejects | the empty matrix, which `addWeights` accepts | high, not executed | Scenarios.ZeroHeightWeightsRejected | Parameters.FillRandomWeightsIntended |

The same code is in `index.js:26-38`. `Parameters.PopulateIntendedAgrees`
and `Parameters.FillRandomIntendedAgrees` show that the written and the
corrected definitions agree on every receiver with at least one row. That
covers every `Weights` the scenarios build.
