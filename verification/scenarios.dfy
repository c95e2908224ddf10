/** The forward step as the layer documentation drives it: a network of an
    input and an output layer, wired with the layer operations, then
    `input.populate(x).run().apply(f)`. */
module Scenarios {
  import opened Results
  import opened Parameters
  import opened Linear
  import opened Layers
  import opened Chain
  import opened Activations

  /** `run()` followed by `apply` of an activation's source on the layer it
      returns; the activation ignores the neuron index. */
  function RunThenApply(net: Net, i: nat, f: real -> real): (res: Result<Step>)
    requires i < |net| && Linked(net) && WellFormed(net[i]) && BiasesCoverNext(net, i)
    ensures res.Success? <==> Run(net, i).Success?
    ensures res.Failure? ==> res.error == NullReference
    ensures res.Success? ==> |res.value.net| == |net| && res.value.out < |net|
    ensures res.Success? ==> forall m :: 0 <= m < |net| && m != res.value.out ==> res.value.net[m] == net[m]
    ensures res.Success? ==>
      var k, after := res.value.out, res.value.net[res.value.out];
      && k == net[i].next.value
      && after == net[k].(neurons := after.neurons)
      && |after.neurons| == |net[k].neurons|
      && forall r :: 0 <= r < |after.neurons| ==>
           after.neurons[r] == f(Dot(net[i].neurons, RowOr(WeightsOrNone(net[i]), r)) + net[k].biases.value[r])
  {
    match Run(net, i)
    case Failure(e) => Failure(e)
    case Success(step) =>
      var ran := step.net;
      Success(Step(ran[step.out := Apply(ran[step.out], (x: real, _: nat) => f(x))], step.out))
  }

  /** An input layer holding `x` with outgoing weights `w`, connected to an
      output layer with biases `b`. */
  function SingleConnection(x: Vector, w: Matrix, b: Vector): (net: Net)
    requires RowsOfWidth(w, |x|)
    ensures |net| == 2 && Valid(net)
    ensures net[0].neurons == x && net[0].weights == Some(w) && net[0].next == Some(1)
    ensures |net[1].neurons| == |b| && net[1].biases == Some(b) && net[1].previous == Some(0)
  {
    var input := AddWeights(Populate(NewLayer(|x|), x).value, w).value;
    var output := AddBiases(NewLayer(|b|), b);
    Connect([input, output], 0, 1)
  }

  /** With the identity activation, one connection computes the affine map
      W·x + b exactly, each entry a sum over the inputs. */
  lemma {:induction false} SingleConnectionIsAffine(x: Vector, w: Matrix, b: Vector)
    requires RowsOfWidth(w, |x|) && |w| >= |b|
    ensures var net := SingleConnection(x, w, b);
      var res := RunThenApply(net, 0, identity.source);
      && res.Success? && res.value.out == 1
      && |res.value.net[1].neurons| == |b|
      && forall r :: 0 <= r < |b| ==> res.value.net[1].neurons[r] == Sum(x, w[r]) + b[r]
  {
    var net := SingleConnection(x, w, b);
    var res := RunThenApply(net, 0, identity.source);
    forall r | 0 <= r < |b|
      ensures res.value.net[1].neurons[r] == Sum(x, w[r]) + b[r]
    {
      assert Dot(x, w[r]) == Sum(x, w[r]);
    }
  }

  /** One input neuron 3, weights [[2]] and bias [0.5], built through the
      containers' constructors and `populate`. */
  function ConcreteNet(): (net: Net)
    ensures |net| == 2 && Valid(net)
  {
    SingleConnection([3.0],
      PopulateWeights(NewWeights(1, 1), [[2.0]]),
      PopulateBiases(NewBiases(1), [0.5]))
  }

  /** The containers built for the concrete network hold exactly [[2]] and
      [0.5]. */
  lemma ConcreteParameters()
    ensures ConcreteNet()[0].neurons == [3.0]
    ensures ConcreteNet()[0].weights == Some([[2.0]])
    ensures ConcreteNet()[1].biases == Some([0.5])
  {
    var w := PopulateWeights(NewWeights(1, 1), [[2.0]]);
    assert |w| == 1 && |w[0]| == 1 && w[0][0] == 2.0;
    assert w[0] == [2.0];
    assert w == [[2.0]];
    var b := PopulateBiases(NewBiases(1), [0.5]);
    assert b == [0.5];
  }

  /** The output neuron of the concrete network is 6.5 after `run`, stays
      6.5 under identity and relu, and becomes 6.5 / 7.5 under elliotsig. */
  lemma {:induction false} ConcreteScenario()
    ensures Run(ConcreteNet(), 0).Success?
    ensures Run(ConcreteNet(), 0).value.net[1].neurons == [6.5]
    ensures RunThenApply(ConcreteNet(), 0, identity.source).value.net[1].neurons == [6.5]
    ensures RunThenApply(ConcreteNet(), 0, relu.source).value.net[1].neurons == [6.5]
    ensures RunThenApply(ConcreteNet(), 0, elliotsig.source).value.net[1].neurons == [6.5 / 7.5]
  {
    var net := ConcreteNet();
    ConcreteParameters();
    assert Dot([3.0], [2.0]) == Dot([], [2.0]) + 3.0 * 2.0 == 6.0 by {
      assert [3.0][..0] == [];
    }
    assert RowOr(WeightsOrNone(net[0]), 0) == [2.0];
    var ran := Run(net, 0).value.net[1].neurons;
    assert |ran| == 1 && ran[0] == 6.5;
    assert ran == [6.5];
    assert ElliotSource(6.5) == 6.5 / 7.5;
  }

  /** The zero-row quirk seen from a layer: a randomly filled weights matrix
      built for a layer of length 3 and an empty next layer comes back as one
      empty row, which `addWeights` rejects; the intended `fillRandom` gives
      the empty matrix, which is accepted. */
  lemma ZeroHeightWeightsRejected(draw: (nat, nat) -> real)
    ensures AddWeights(NewLayer(3), FillRandomWeights(NewWeights(3, 0), draw)) == Failure(WidthMismatch)
    ensures AddWeights(NewLayer(3), FillRandomWeightsIntended(NewWeights(3, 0), draw)).Success?
  {
    assert FillRandomWeights(NewWeights(3, 0), draw)[0] == [];
  }
}
