/** A layer of neurons and its layer-local operations. The links to the
    neighbouring layers are indices into the network's sequence of layers
    (see module Chain); here they are only carried along. */
module Layers {
  import opened Results
  import opened Parameters

  /** `Layer`: the neuron values, the declared `length`, the outgoing
      `weights` and incoming `biases` (both `null` until added), and the
      `next` / `previous` links. */
  datatype Layer = Layer(
    neurons: seq<real>,
    length: nat,
    weights: Option<Matrix>,
    biases: Option<Vector>,
    next: Option<nat>,
    previous: Option<nat>)

  /** Every row of `w` is `n` wide; a matrix without rows qualifies. */
  predicate RowsOfWidth(w: Matrix, n: nat) {
    forall i :: 0 <= i < |w| ==> |w[i]| == n
  }

  /** What every layer keeps: one neuron per unit of `length`, and outgoing
      weights (if any) exactly as wide as the layer. */
  predicate WellFormed(l: Layer) {
    |l.neurons| == l.length && (l.weights.Some? ==> RowsOfWidth(l.weights.value, l.length))
  }

  /** The parts of a layer that are not links: neurons, length and parameters. */
  predicate SameContents(a: Layer, b: Layer) {
    a.neurons == b.neurons && a.length == b.length && a.weights == b.weights && a.biases == b.biases
  }

  /** `new Layer(length)`: `length` zero neurons, nothing attached. */
  function NewLayer(length: nat): (l: Layer)
    ensures WellFormed(l) && |l.neurons| == length
    ensures forall i :: 0 <= i < length ==> l.neurons[i] == 0.0
    ensures l.weights.None? && l.biases.None? && l.next.None? && l.previous.None?
  {
    Layer(seq(length, _ => 0.0), length, None, None, None, None)
  }

  /** `addBiases(biases)`: stores the vector; its length is not checked. */
  function AddBiases(l: Layer, b: Vector): (r: Layer)
    ensures r.biases == Some(b)
    ensures r.neurons == l.neurons && r.length == l.length && r.weights == l.weights
    ensures r.next == l.next && r.previous == l.previous
    ensures WellFormed(l) ==> WellFormed(r)
  {
    l.(biases := Some(b))
  }

  /** `addWeights(weights)`: stores the matrix when every row is as wide as
      the layer's length; the number of rows is not checked. */
  function AddWeights(l: Layer, w: Matrix): (r: Result<Layer>)
    ensures r.Success? <==> forall i :: 0 <= i < |w| ==> |w[i]| == l.length
    ensures r.Failure? ==> r.error == WidthMismatch
    ensures r.Success? ==> r.value.weights == Some(w)
    ensures r.Success? ==> r.value.neurons == l.neurons && r.value.length == l.length
    ensures r.Success? ==> r.value.biases == l.biases && r.value.next == l.next && r.value.previous == l.previous
    ensures r.Success? && |l.neurons| == l.length ==> WellFormed(r.value)
  {
    if RowsOfWidth(w, l.length) then Success(l.(weights := Some(w))) else Failure(WidthMismatch)
  }

  /** `apply(func)`: every neuron replaced by `func(neuron, index)`. */
  function Apply(l: Layer, f: (real, nat) -> real): (r: Layer)
    ensures |r.neurons| == |l.neurons|
    ensures forall i :: 0 <= i < |l.neurons| ==> r.neurons[i] == f(l.neurons[i], i)
    ensures r.length == l.length && r.weights == l.weights && r.biases == l.biases
    ensures r.next == l.next && r.previous == l.previous
    ensures WellFormed(l) ==> WellFormed(r)
  {
    l.(neurons := seq(|l.neurons|, i requires 0 <= i < |l.neurons| => f(l.neurons[i], i)))
  }

  /** `populate(data)`: the neurons become a copy of `data` when its length is
      the layer's `length`; otherwise the error names the neuron count. */
  function Populate(l: Layer, data: seq<real>): (r: Result<Layer>)
    ensures r.Success? <==> |data| == l.length
    ensures r.Failure? ==> r.error == LengthMismatch(|l.neurons|)
    ensures r.Success? ==> r.value.neurons == data
    ensures r.Success? ==> r.value.length == l.length && r.value.weights == l.weights
    ensures r.Success? ==> r.value.biases == l.biases && r.value.next == l.next && r.value.previous == l.previous
    ensures r.Success? && WellFormed(l) ==> WellFormed(r.value)
  {
    if |data| != l.length then Failure(LengthMismatch(|l.neurons|)) else Success(l.(neurons := data))
  }

  // ---------------------------------------------------------------------
  // Properties relating the operations to each other.

  /** Applying `f` and then `g` is applying their composition once. */
  lemma ApplyCompose(l: Layer, f: (real, nat) -> real, g: (real, nat) -> real)
    ensures Apply(Apply(l, f), g) == Apply(l, (x: real, i: nat) => g(f(x, i), i))
  {
    var a, b := Apply(Apply(l, f), g), Apply(l, (x: real, i: nat) => g(f(x, i), i));
    assert a.neurons == b.neurons;
  }

  /** Applying the identity changes nothing. */
  lemma ApplyIdentity(l: Layer)
    ensures Apply(l, (x, i) => x) == l
  {
    assert Apply(l, (x, i) => x).neurons == l.neurons;
  }

  /** Populating twice with the same data is populating once, and populating
      with the current neurons of a well-formed layer changes nothing. */
  lemma PopulateIdempotent(l: Layer, data: seq<real>)
    requires WellFormed(l)
    ensures Populate(l, l.neurons) == Success(l)
    ensures Populate(l, data).Success? ==> Populate(Populate(l, data).value, data) == Populate(l, data)
  {
  }

  /** `populate` and `addWeights` touch different fields, so their order
      does not matter: both orders fail together, with the error of the
      call that fails first, or give the same layer. */
  lemma PopulateAddWeightsCommute(l: Layer, data: seq<real>, w: Matrix)
    ensures var p := Populate(l, data);
      var a := AddWeights(l, w);
      && (p.Success? && a.Success? ==> AddWeights(p.value, w) == Populate(a.value, data))
      && (p.Success? ==> (AddWeights(p.value, w).Success? <==> a.Success?))
      && (a.Success? ==> (Populate(a.value, data).Success? <==> p.Success?))
      && (a.Success? && p.Failure? ==> Populate(a.value, data) == p)
      && (p.Success? && a.Failure? ==> AddWeights(p.value, w) == a)
  {
  }

  /** `addWeights` accepts any number of rows of the right width, including
      none at all, and a weights matrix freshly built for the layer. */
  lemma AddWeightsAcceptsAnyHeight(l: Layer, height: nat)
    ensures AddWeights(l, []).Success?
    ensures AddWeights(l, NewWeights(l.length, height)).Success?
  {
  }
}
